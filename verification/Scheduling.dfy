/** Scheduling a request: its database record first, then its message. */
module Scheduling {
  import opened Wrappers
  import opened Effects
  import P = ImageProcessor
  import RequestProcessing
  import RequestLifecycle

  /** The messaging entity's side of the topic: its partitions' messages. */
  class MessagingEntity {
    var log: map<nat, seq<P.Request>>

    constructor ()
      ensures log == map[]
    {
      log := map[];
    }

    /** `partition` is where the broker puts the message. */
    method PublishProcessingRequest(requestId: string, products: seq<P.Product>, webhookUrl: string,
                                    partition: nat, o: Outcome)
      returns (threw: bool)
      modifies this
      ensures threw == o.Faulted?
      ensures var before := if partition in old(log) then old(log)[partition] else [];
              log == if TookEffect(o)
                     then old(log)[partition := before + [P.Request(requestId, products, webhookUrl)]]
                     else old(log)
    {
      if TookEffect(o) {
        var before := if partition in log then log[partition] else [];
        log := log[partition := before + [P.Request(requestId, products, webhookUrl)]];
      }
      return o.Faulted?;
    }
  }

  class SchedulingService {
    const scheduler: MessagingEntity
    const request: RequestProcessing.RequestRepository

    constructor (scheduler: MessagingEntity, request: RequestProcessing.RequestRepository)
      ensures this.scheduler == scheduler && this.request == request
    {
      this.scheduler := scheduler;
      this.request := request;
    }

    /**
     * With an id nobody drew before, the call is the system's Create step followed, when that
     * succeeded, by its Publish step; it returns the id exactly when both did.
     */
    method ScheduleImageProcessing(requestId: string, products: seq<P.Product>, webhookUrl: string,
                                   partition: nat, created: Outcome, published: Outcome,
                                   ghost s: RequestLifecycle.State)
      returns (r: Option<string>)
      requires RequestLifecycle.Published(s) && requestId !in s.used
      requires s.records == request.records && s.log == scheduler.log
      modifies scheduler, request
      ensures var req := P.Request(requestId, products, webhookUrl);
              var t := RequestLifecycle.Do(RequestLifecycle.Do(s, RequestLifecycle.Create(req, created)),
                                           RequestLifecycle.Publish(requestId, partition, published));
              && RequestLifecycle.Published(t)
              && t.records == request.records && t.log == scheduler.log
              && (scheduler.log != old(scheduler.log) ==>
                    requestId in request.records && request.records[requestId].status == P.Accepted)
      ensures var before := if partition in old(scheduler.log) then old(scheduler.log)[partition] else [];
              var req := P.Request(requestId, products, webhookUrl);
              scheduler.log == if created.Done? && TookEffect(published)
                               then old(scheduler.log)[partition := before + [req]]
                               else old(scheduler.log)
      ensures request.records == if TookEffect(created)
                                 then old(request.records)[requestId := request.records[requestId]]
                                 else old(request.records)
      ensures TookEffect(created) ==>
                var record := request.records[requestId];
                && record.status == P.Accepted && record.webhookUrl == webhookUrl
                && RequestLifecycle.SameInputs(record.products, products) && P.Outputs(record.products) == []
      ensures r == if created.Done? && published.Done? then Some(requestId) else None
    {
      hide RequestLifecycle.AllBacked, RequestLifecycle.IdsDistinct, RequestLifecycle.JobsOnMessages, P.Combine;
      ghost var req := P.Request(requestId, products, webhookUrl);
      ghost var create := RequestLifecycle.Create(req, created);
      ghost var publish := RequestLifecycle.Publish(requestId, partition, published);
      RequestLifecycle.ActionPublished(s, create);
      RequestLifecycle.ActionPublished(RequestLifecycle.Do(s, create), publish);
      PendingIsUsed(s, requestId);
      RequestLifecycle.SameInputsOfNew(req);
      var record := P.Record(P.Accepted, webhookUrl, P.Combine(products, []));
      var threw := request.CreateRequest(requestId, record, created);
      if threw {
        return None;
      }
      threw := scheduler.PublishProcessingRequest(requestId, products, webhookUrl, partition, published);
      return if threw then None else Some(requestId);
    }

    lemma PendingIsUsed(s: RequestLifecycle.State, id: string)
      requires RequestLifecycle.Published(s) && id !in s.used
      ensures id !in s.pending && id !in s.records
    {
      hide RequestLifecycle.IdsDistinct, RequestLifecycle.JobsOnMessages, RequestLifecycle.SameInputs;
      forall i | i in s.pending ensures i in s.used {
        assert RequestLifecycle.Backed(s, s.pending[i]);
      }
    }
  }
}
