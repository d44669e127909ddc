/** The whole system: schedulers, partitions, redelivering consumers and processors, interleaved. */
module RequestLifecycle {
  import opened Wrappers
  import opened Effects
  import C = KafkaConsumer
  import G = OffsetGuard
  import P = ImageProcessor

  /**
   * `hosts` says on which host each handler runs; `disks` are the hosts' temporary directories.
   * `used` are the request ids drawn so far, `pending` the requests created but not yet published,
   * `log` the partitions of the topic, `runs` the processor calls of the handlers at that point.
   */
  datatype State = State(
    topic: string, group: string, hosts: nat -> nat,
    records: map<string, P.Record>, disks: map<nat, P.Dirs>,
    used: set<string>, pending: map<string, P.Request>,
    log: map<nat, seq<P.Request>>, guard: G.State, runs: map<nat, P.Run>)

  datatype Action =
    | Create(req: P.Request, o: Outcome)               // a scheduler's database call
    | Publish(id: string, partition: nat, o: Outcome)  // and its queue call
    | Deliver(h: nat, partition: nat, offset: nat)     // any message, any number of times
    | Consume(h: nat, o: Outcome)                      // a handler's call outside the processor
    | Work(h: nat, o: Outcome)                         // a processor's call
    | Finish(h: nat)                                   // the processor settles
    | Crash(h: nat)

  function Log(s: State, partition: nat): seq<P.Request> {
    if partition in s.log then s.log[partition] else []
  }

  function SlotOf(s: State, partition: nat): C.Slot {
    C.Slot(s.topic, s.group, partition)
  }

  /** What a handler's processor works on: the database, and the directories of its host. */
  function WorldOf(s: State, h: nat): P.World {
    P.World(s.records, if s.hosts(h) in s.disks then s.disks[s.hosts(h)] else map[])
  }

  function WithWorld(s: State, h: nat, w: P.World): State {
    s.(records := w.records, disks := s.disks[s.hosts(h) := w.dirs])
  }

  /** The job is on a message of the log. */
  predicate OnMessage(s: State, job: C.Job) {
    job.slot == SlotOf(s, job.slot.partition) && job.offset < |Log(s, job.slot.partition)|
  }

  predicate HasMessage(s: State, h: nat) {
    h in s.guard.jobs && OnMessage(s, s.guard.jobs[h])
  }

  function Message(s: State, h: nat): P.Request
    requires HasMessage(s, h)
  {
    Log(s, s.guard.jobs[h].slot.partition)[s.guard.jobs[h].offset]
  }

  predicate InProcessor(s: State, h: nat) {
    HasMessage(s, h) && s.guard.jobs[h].phase == C.Running && h in s.runs
  }

  function NewRecord(req: P.Request): P.Record {
    P.Record(P.Accepted, req.webhookUrl, P.Combine(req.products, []))
  }

  function DoCreate(s: State, req: P.Request, o: Outcome): State {
    var id := req.requestId;
    if id in s.used then s
    else s.(used := s.used + {id},
            records := P.Created(s.records, id, NewRecord(req), o),
            pending := if o.Done? then s.pending[id := req] else s.pending)
  }

  function DoPublish(s: State, id: string, partition: nat, o: Outcome): State {
    if id !in s.pending then s
    else s.(pending := s.pending - {id},
            log := if TookEffect(o) then s.log[partition := Log(s, partition) + [s.pending[id]]] else s.log)
  }

  function DoConsume(s: State, h: nat, o: Outcome): State {
    if !G.Active(s.guard, h) || s.guard.jobs[h].phase == C.Running then s
    else
      var guard := G.Do(s.guard, G.Advance(h, o));
      s.(guard := guard,
         runs := if guard.jobs[h].phase == C.Running then s.runs[h := P.Begin()] else s.runs)
  }

  function DoWork(s: State, h: nat, o: Outcome): State {
    if !InProcessor(s, h) then s
    else
      var (w, r) := P.Step(Message(s, h), WorldOf(s, h), s.runs[h], o);
      WithWorld(s, h, w).(runs := s.runs[h := r])
  }

  function DoFinish(s: State, h: nat): State {
    if !InProcessor(s, h) || !P.Finished(s.runs[h]) then s
    else
      var o := if s.runs[h].phase == P.Returned then Done("") else Faulted(false);
      s.(guard := G.Do(s.guard, G.Advance(h, o)), runs := s.runs - {h})
  }

  function Do(s: State, a: Action): State {
    match a
    case Create(req, o) => DoCreate(s, req, o)
    case Publish(id, partition, o) => DoPublish(s, id, partition, o)
    case Deliver(h, partition, offset) =>
      if offset >= |Log(s, partition)| then s
      else s.(guard := G.Do(s.guard, G.Deliver(h, SlotOf(s, partition), offset, true)))
    case Consume(h, o) => DoConsume(s, h, o)
    case Work(h, o) => DoWork(s, h, o)
    case Finish(h) => DoFinish(s, h)
    case Crash(h) => s.(guard := G.Do(s.guard, G.Crash(h)), runs := s.runs - {h})
  }

  function Perform(s: State, actions: seq<Action>): State
    decreases |actions|
  {
    if actions == [] then s else Perform(Do(s, actions[0]), actions[1..])
  }

  /** One active handler per partition, throughout. */
  ghost predicate ExclusiveThroughout(s: State, actions: seq<Action>)
    decreases |actions|
  {
    G.Exclusive(s.guard) && (actions != [] ==> ExclusiveThroughout(Do(s, actions[0]), actions[1..]))
  }

  // Records before messages.

  /** The stored products ask for what the request asks for. */
  predicate SameInputs(stored: seq<P.StoredProduct>, products: seq<P.Product>) {
    && |stored| == |products|
    && forall i | 0 <= i < |stored| ::
         stored[i].name == products[i].name && stored[i].inputImageUrls == products[i].inputImageUrls
  }

  /** The request has a record with its webhook URL and input products. */
  predicate Backed(s: State, req: P.Request) {
    && req.requestId in s.used && req.requestId in s.records
    && s.records[req.requestId].webhookUrl == req.webhookUrl
    && SameInputs(s.records[req.requestId].products, req.products)
  }

  ghost predicate AllBacked(s: State) {
    && (forall p, k | 0 <= k < |Log(s, p)| :: Backed(s, Log(s, p)[k]))
    && (forall id | id in s.pending :: Backed(s, s.pending[id]) && s.pending[id].requestId == id)
  }

  /** No request id is on two messages, or on a message and still pending. */
  ghost predicate IdsDistinct(s: State) {
    && (forall p, k, q, l | 0 <= k < |Log(s, p)| && 0 <= l < |Log(s, q)| ::
          Log(s, p)[k].requestId == Log(s, q)[l].requestId ==> p == q && k == l)
    && (forall p, k, id | 0 <= k < |Log(s, p)| && id in s.pending :: Log(s, p)[k].requestId != id)
  }

  predicate JobOnMessage(s: State, job: C.Job) {
    OnMessage(s, job) && job.dlqRequired && C.Consistent(job)
  }

  ghost predicate JobsOnMessages(s: State) {
    && (forall h | h in s.guard.jobs :: JobOnMessage(s, s.guard.jobs[h]))
    && (forall h | h in s.runs :: h in s.guard.jobs && s.guard.jobs[h].phase == C.Running)
    && (forall h | h in s.guard.jobs && s.guard.jobs[h].phase == C.Running :: h in s.runs)
  }

  ghost predicate Published(s: State) {
    && s.records.Keys <= s.used && AllBacked(s) && IdsDistinct(s) && JobsOnMessages(s)
  }

  lemma SameLogs(s: State, t: State)
    requires t.log == s.log
    ensures forall p :: Log(t, p) == Log(s, p)
  {
  }

  lemma SameIds(s: State, t: State)
    requires IdsDistinct(s) && t.log == s.log && t.pending.Keys <= s.pending.Keys
    ensures IdsDistinct(t)
  {
    SameLogs(s, t);
    hide Log;
  }

  /** A job stays on its message while the log grows. */
  lemma JobsStay(s: State, t: State)
    requires t.topic == s.topic && t.group == s.group && forall p :: Log(s, p) <= Log(t, p)
    ensures forall job | JobOnMessage(s, job) :: JobOnMessage(t, job)
  {
    hide C.Consistent, Log;
  }

  lemma JobsKept(s: State, t: State)
    requires JobsOnMessages(s) && t.guard == s.guard && t.runs.Keys == s.runs.Keys
    requires t.topic == s.topic && t.group == s.group && forall p :: Log(s, p) <= Log(t, p)
    ensures JobsOnMessages(t)
  {
    hide JobOnMessage, Log;
    JobsStay(s, t);
  }

  lemma CreateBacking(s: State, req: P.Request, o: Outcome)
    requires AllBacked(s) && s.records.Keys <= s.used && req.requestId !in s.used
    ensures AllBacked(DoCreate(s, req, o))
  {
    hide SameInputs, P.Combine;
    var t := DoCreate(s, req, o);
    SameInputsOfNew(req);
    SameLogs(s, t);
    hide Log;
    forall p, k | 0 <= k < |Log(t, p)| ensures Backed(t, Log(t, p)[k]) {
      assert Backed(s, Log(s, p)[k]);
    }
    forall id | id in t.pending ensures Backed(t, t.pending[id]) && t.pending[id].requestId == id {
      assert id != req.requestId ==> Backed(s, s.pending[id]);
    }
  }

  lemma CreateIds(s: State, req: P.Request, o: Outcome)
    requires AllBacked(s) && IdsDistinct(s) && req.requestId !in s.used
    ensures IdsDistinct(DoCreate(s, req, o))
  {
    hide SameInputs, P.Combine;
    var t := DoCreate(s, req, o);
    SameLogs(s, t);
    hide Log;
    forall p, k, id | 0 <= k < |Log(t, p)| && id in t.pending ensures Log(t, p)[k].requestId != id {
      assert Backed(s, Log(s, p)[k]);
    }
  }

  lemma CreatePublished(s: State, req: P.Request, o: Outcome)
    requires Published(s)
    ensures Published(DoCreate(s, req, o))
  {
    hide P.Combine, AllBacked, IdsDistinct, JobsOnMessages;
    var t := DoCreate(s, req, o);
    if req.requestId !in s.used {
      CreateBacking(s, req, o);
      CreateIds(s, req, o);
      SameLogs(s, t);
      JobsKept(s, t);
    }
  }

  lemma SameInputsOfNew(req: P.Request)
    ensures SameInputs(NewRecord(req).products, req.products)
    ensures P.Outputs(NewRecord(req).products) == []
  {
    NoOutputs(NewRecord(req).products);
  }

  lemma {:induction false} NoOutputs(stored: seq<P.StoredProduct>)
    requires forall i | 0 <= i < |stored| :: stored[i].outputImageUrls == []
    ensures P.Outputs(stored) == []
  {
    if stored != [] {
      NoOutputs(P.Front(stored));
    }
  }

  lemma LogAfterPublish(s: State, id: string, partition: nat, o: Outcome)
    requires id in s.pending
    ensures var t := DoPublish(s, id, partition, o);
            forall p :: Log(t, p) == if p == partition && TookEffect(o) then Log(s, p) + [s.pending[id]] else Log(s, p)
  {
  }

  lemma PublishBacking(s: State, id: string, partition: nat, o: Outcome)
    requires AllBacked(s) && id in s.pending
    ensures AllBacked(DoPublish(s, id, partition, o))
  {
    var t := DoPublish(s, id, partition, o);
    hide SameInputs;
    LogAfterPublish(s, id, partition, o);
    hide Log;
    forall p, k | 0 <= k < |Log(t, p)| ensures Backed(t, Log(t, p)[k]) {
      assert k < |Log(s, p)| ==> Backed(s, Log(s, p)[k]);
      assert Backed(s, s.pending[id]);
    }
    forall i | i in t.pending ensures Backed(t, t.pending[i]) && t.pending[i].requestId == i {
      assert Backed(s, s.pending[i]);
    }
  }

  lemma PublishIds(s: State, id: string, partition: nat, o: Outcome)
    requires AllBacked(s) && IdsDistinct(s) && id in s.pending
    ensures IdsDistinct(DoPublish(s, id, partition, o))
  {
    hide Backed;
    var t := DoPublish(s, id, partition, o);
    assert s.pending[id].requestId == id;
    LogAfterPublish(s, id, partition, o);
    hide Log;
    forall p, k | 0 <= k < |Log(t, p)|
      ensures if k < |Log(s, p)| then Log(t, p)[k].requestId == Log(s, p)[k].requestId != id
              else p == partition && k == |Log(s, p)| && Log(t, p)[k].requestId == id
    {
    }
    assert t.pending == s.pending - {id};
    hide DoPublish, AllBacked;
    forall p, k, q, l | 0 <= k < |Log(t, p)| && 0 <= l < |Log(t, q)| && Log(t, p)[k].requestId == Log(t, q)[l].requestId
      ensures p == q && k == l
    {
      assert k < |Log(s, p)| <==> l < |Log(s, q)|;
    }
  }

  lemma PublishPublished(s: State, id: string, partition: nat, o: Outcome)
    requires Published(s)
    ensures Published(DoPublish(s, id, partition, o))
  {
    hide AllBacked, IdsDistinct, JobsOnMessages, Log;
    var t := DoPublish(s, id, partition, o);
    if id in s.pending {
      PublishBacking(s, id, partition, o);
      PublishIds(s, id, partition, o);
      LogAfterPublish(s, id, partition, o);
      JobsKept(s, t);
    }
  }

  lemma StepKeepsBacking(s: State, h: nat, o: Outcome, req: P.Request)
    requires InProcessor(s, h) && Backed(s, req) && Backed(s, Message(s, h))
    requires req.requestId == Message(s, h).requestId ==> req == Message(s, h)
    ensures Backed(DoWork(s, h, o), req)
  {
    var m := Message(s, h);
    P.StepIsLocal(m, WorldOf(s, h), s.runs[h], o);
    if req == m {
      OwnBackingKept(m, WorldOf(s, h), s.runs[h], o);
    }
  }

  lemma OwnBackingKept(m: P.Request, w: P.World, r: P.Run, o: Outcome)
    requires m.requestId in w.records && w.records[m.requestId].webhookUrl == m.webhookUrl
    requires SameInputs(w.records[m.requestId].products, m.products)
    ensures var v := P.Step(m, w, r, o).0;
            && m.requestId in v.records && v.records[m.requestId].webhookUrl == m.webhookUrl
            && SameInputs(v.records[m.requestId].products, m.products)
  {
    hide P.Settle, P.Pending;
  }

  lemma WorkBacking(s: State, h: nat, o: Outcome)
    requires AllBacked(s) && IdsDistinct(s) && InProcessor(s, h)
    ensures AllBacked(DoWork(s, h, o))
  {
    hide P.Step, Backed;
    var t := DoWork(s, h, o);
    var job := s.guard.jobs[h];
    var (q, i) := (job.slot.partition, job.offset);
    assert Message(s, h) == Log(s, q)[i] && Backed(s, Log(s, q)[i]);
    SameLogs(s, t);
    hide Log, Message;
    forall p, k | 0 <= k < |Log(t, p)| ensures Backed(t, Log(t, p)[k]) {
      assert Log(s, p)[k].requestId == Log(s, q)[i].requestId ==> p == q && k == i;
      StepKeepsBacking(s, h, o, Log(s, p)[k]);
    }
    forall id | id in t.pending ensures Backed(t, t.pending[id]) && t.pending[id].requestId == id {
      StepKeepsBacking(s, h, o, s.pending[id]);
    }
  }

  lemma WorkPublished(s: State, h: nat, o: Outcome)
    requires Published(s)
    ensures Published(DoWork(s, h, o))
  {
    hide P.Step, AllBacked, IdsDistinct, JobsOnMessages, Log, Message, HasMessage;
    var t := DoWork(s, h, o);
    if InProcessor(s, h) {
      WorkBacking(s, h, o);
      SameIds(s, t);
      SameLogs(s, t);
      JobsKept(s, t);
      RecordsStay(Message(s, h), WorldOf(s, h), s.runs[h], o);
    }
  }

  lemma RecordsStay(m: P.Request, w: P.World, r: P.Run, o: Outcome)
    ensures P.Step(m, w, r, o).0.records.Keys == w.records.Keys
  {
    hide P.Settle, P.Pending, P.Combine;
  }

  lemma GuardPublished(s: State, t: State)
    requires Published(s) && JobsOnMessages(t)
    requires t == s.(guard := t.guard, runs := t.runs)
    ensures Published(t)
  {
    hide SameInputs, JobsOnMessages, IdsDistinct;
    SameIds(s, t);
    SameLogs(s, t);
    hide Log;
    forall p, k | 0 <= k < |Log(t, p)| ensures Backed(t, Log(t, p)[k]) {
      assert Backed(s, Log(s, p)[k]);
    }
    forall id | id in t.pending ensures Backed(t, t.pending[id]) && t.pending[id].requestId == id {
      assert Backed(s, s.pending[id]);
    }
  }

  lemma JobsAfterAdvance(s: State, h: nat, o: Outcome, t: State)
    requires JobsOnMessages(s) && G.Active(s.guard, h)
    requires t == s.(guard := G.Do(s.guard, G.Advance(h, o)), runs := t.runs)
    requires forall i | i != h :: i in t.runs <==> i in s.runs
    requires h in t.runs <==> t.guard.jobs[h].phase == C.Running
    ensures JobsOnMessages(t)
  {
    hide C.Consistent, C.Step, JobsOnMessages;
    JobIsOnMessage(s, h);
    C.StepConsistent(s.guard.cache, s.guard.jobs[h], o);
    SameMessage(s, s.guard.jobs[h], t.guard.jobs[h]);
    MovedJob(s, t, h, t.guard.jobs[h]);
  }

  lemma SameMessage(s: State, a: C.Job, b: C.Job)
    requires JobOnMessage(s, a) && C.Consistent(b)
    requires b.slot == a.slot && b.offset == a.offset && b.dlqRequired == a.dlqRequired
    ensures JobOnMessage(s, b)
  {
    hide C.Consistent;
  }

  lemma JobIsOnMessage(s: State, h: nat)
    requires JobsOnMessages(s) && h in s.guard.jobs
    ensures JobOnMessage(s, s.guard.jobs[h]) && HasMessage(s, h)
  {
    hide C.Consistent, OnMessage;
  }

  lemma MovedJob(s: State, t: State, h: nat, job: C.Job)
    requires JobsOnMessages(s) && JobOnMessage(s, job)
    requires t == s.(guard := t.guard, runs := t.runs) && t.guard.jobs == s.guard.jobs[h := job]
    requires forall i | i != h :: i in t.runs <==> i in s.runs
    requires h in t.runs <==> job.phase == C.Running
    ensures JobsOnMessages(t)
  {
    hide JobOnMessage;
    SameLogs(s, t);
    hide Log;
    JobsStay(s, t);
  }

  lemma ConsumePublished(s: State, h: nat, o: Outcome)
    requires Published(s)
    ensures Published(DoConsume(s, h, o))
  {
    hide C.Step, C.Consistent, AllBacked, IdsDistinct;
    var t := DoConsume(s, h, o);
    if G.Active(s.guard, h) && s.guard.jobs[h].phase != C.Running {
      JobsAfterAdvance(s, h, o, t);
      GuardPublished(s, t);
    }
  }

  lemma FinishPublished(s: State, h: nat)
    requires Published(s)
    ensures Published(DoFinish(s, h))
  {
    hide C.Consistent, AllBacked, IdsDistinct, Log, Message, C.Stored, C.Store;
    var t := DoFinish(s, h);
    if InProcessor(s, h) && P.Finished(s.runs[h]) {
      var o := if s.runs[h].phase == P.Returned then Done("") else Faulted(false);
      JobsAfterAdvance(s, h, o, t);
      GuardPublished(s, t);
    }
  }

  lemma DeliverPublished(s: State, h: nat, partition: nat, offset: nat)
    requires Published(s)
    ensures Published(Do(s, Deliver(h, partition, offset)))
  {
    hide AllBacked, IdsDistinct, Log;
    var t := Do(s, Deliver(h, partition, offset));
    var job := C.Start(SlotOf(s, partition), offset, true);
    if t.guard.jobs == s.guard.jobs[h := job] && h !in s.guard.jobs {
      assert JobOnMessage(s, job);
      MovedJob(s, t, h, job);
      GuardPublished(s, t);
    } else {
      assert t == s;
    }
  }

  lemma CrashPublished(s: State, h: nat)
    requires Published(s)
    ensures Published(Do(s, Crash(h)))
  {
    hide AllBacked, IdsDistinct, JobOnMessage;
    var t := Do(s, Crash(h));
    SameLogs(s, t);
    hide Log;
    JobsStay(s, t);
    GuardPublished(s, t);
  }

  lemma ActionPublished(s: State, a: Action)
    requires Published(s)
    ensures Published(Do(s, a))
  {
    hide Published, DoCreate, DoPublish, DoConsume, DoWork, DoFinish;
    match a
    case Create(req, o) => CreatePublished(s, req, o);
    case Publish(id, partition, o) => PublishPublished(s, id, partition, o);
    case Deliver(h, partition, offset) => DeliverPublished(s, h, partition, offset);
    case Consume(h, o) => ConsumePublished(s, h, o);
    case Work(h, o) => WorkPublished(s, h, o);
    case Finish(h) => FinishPublished(s, h);
    case Crash(h) => CrashPublished(s, h);
  }

  function Initial(topic: string, group: string, hosts: nat -> nat, cache: Option<C.Cache>): State {
    State(topic, group, hosts, map[], map[], {}, map[], map[], G.State(cache, map[], []), map[])
  }

  /**
   * Over every interleaving, exclusive or not: each message has a record with its id, webhook URL
   * and products, no id is on two messages, and every handler is on a message.
   */
  lemma {:induction false} MessagesHaveRecords(s: State, actions: seq<Action>)
    requires Published(s)
    ensures Published(Perform(s, actions))
    decreases |actions|
  {
    hide Do, Published;
    if actions != [] {
      ActionPublished(s, actions[0]);
      MessagesHaveRecords(Do(s, actions[0]), actions[1..]);
    }
  }

  lemma InitialIsPublished(topic: string, group: string, hosts: nat -> nat, cache: Option<C.Cache>)
    ensures Published(Initial(topic, group, hosts, cache))
  {
  }

  /** So a processor's status update of its own request finds the record, whenever it comes. */
  lemma UpdatesFindTheirRecord(topic: string, group: string, hosts: nat -> nat, cache: Option<C.Cache>,
                               actions: seq<Action>, h: nat)
    requires InProcessor(Perform(Initial(topic, group, hosts, cache), actions), h)
    ensures var s := Perform(Initial(topic, group, hosts, cache), actions);
            Backed(s, Message(s, h))
  {
    hide Do, Perform, Backed;
    InitialIsPublished(topic, group, hosts, cache);
    MessagesHaveRecords(Initial(topic, group, hosts, cache), actions);
  }

  // Looking up a status.

  /** Some action of the run inserts the record: the first to draw the id, with an insert that takes effect. */
  predicate Inserts(s: State, actions: seq<Action>, id: string)
    decreases |actions|
  {
    actions != [] &&
    var a := actions[0];
    (a.Create? && a.req.requestId == id && id !in s.used && TookEffect(a.o))
    || Inserts(Do(s, a), actions[1..], id)
  }

  lemma ActionInserts(s: State, a: Action, id: string)
    requires Published(s)
    ensures id in Do(s, a).records <==>
            id in s.records || (a.Create? && a.req.requestId == id && id !in s.used && TookEffect(a.o))
  {
    hide P.Step, P.Combine, G.Do, AllBacked, IdsDistinct, JobsOnMessages;
    if a.Work? && InProcessor(s, a.h) {
      RecordsStay(Message(s, a.h), WorldOf(s, a.h), s.runs[a.h], a.o);
    }
  }

  /**
   * A status lookup that does not fail finds a request exactly when its insert took effect, then or
   * earlier, and from then on for ever, whatever publishing, consumers and processors do.
   */
  lemma {:induction false} FoundExactlyWhenInserted(s: State, actions: seq<Action>, id: string, o: Outcome)
    requires Published(s)
    ensures P.StatusOf(Perform(s, actions).records, id, o).Some? <==>
            o.Done? && (id in s.records || Inserts(s, actions, id))
    decreases |actions|
  {
    hide Do, Published;
    if actions != [] {
      ActionPublished(s, actions[0]);
      ActionInserts(s, actions[0], id);
      FoundExactlyWhenInserted(Do(s, actions[0]), actions[1..], id, o);
    }
  }

  // What a lookup answers.

  /** The status the action writes for the request, if any: on creation, or by the processor's next call. */
  function WriteOf(s: State, a: Action, id: string): Option<P.Status> {
    match a
    case Create(req, o) =>
      if req.requestId == id && id !in s.used && TookEffect(o) then Some(P.Accepted) else None
    case Work(h, o) =>
      if InProcessor(s, h) && Message(s, h).requestId == id && TookEffect(o) then P.NextWrite(s.runs[h].phase) else None
    case _ => None
  }

  /** All statuses a run writes for the request, in order. */
  function WritesOf(s: State, actions: seq<Action>, id: string): seq<P.Status>
    decreases |actions|
  {
    if actions == [] then []
    else
      var rest := WritesOf(Do(s, actions[0]), actions[1..], id);
      var first := WriteOf(s, actions[0], id);
      if first.Some? then [first.value] + rest else rest
  }

  /** An action leaves the status that it writes for the request; one that writes none leaves it as it was. */
  lemma ActionWrites(s: State, a: Action, id: string, o: Outcome)
    requires Published(s)
    ensures P.StatusOf(Do(s, a).records, id, o) ==
            (if o.Done? && WriteOf(s, a, id).Some? then WriteOf(s, a, id) else P.StatusOf(s.records, id, o))
  {
    hide P.Step, P.Combine, G.Do, AllBacked, IdsDistinct, JobsOnMessages, P.NextWrite, Log;
    if a.Work? && InProcessor(s, a.h) {
      var m := Message(s, a.h);
      HandledIsBacked(s, a.h);
      P.StepWrites(m, WorldOf(s, a.h), s.runs[a.h], a.o);
      P.StepIsLocal(m, WorldOf(s, a.h), s.runs[a.h], a.o);
    }
  }

  lemma HandledIsBacked(s: State, h: nat)
    requires Published(s) && HasMessage(s, h)
    ensures Backed(s, Message(s, h)) && Message(s, h).requestId in s.records
  {
    hide IdsDistinct, JobsOnMessages, SameInputs;
    var job := s.guard.jobs[h];
    assert Backed(s, Log(s, job.slot.partition)[job.offset]);
  }

  /**
   * Read after write: whatever runs, a lookup that does not fail answers the last status written for
   * the request, and the one from before when none was.
   */
  lemma {:induction false} LookupAnswersLastWrite(s: State, actions: seq<Action>, id: string, o: Outcome)
    requires Published(s) && o.Done?
    ensures var writes := WritesOf(s, actions, id);
            P.StatusOf(Perform(s, actions).records, id, o) ==
            if writes != [] then Some(P.Last(writes))
            else if id in s.records then Some(s.records[id].status) else None
    decreases |actions|
  {
    hide Do, Published, WriteOf;
    if actions != [] {
      ActionPublished(s, actions[0]);
      ActionWrites(s, actions[0], id, o);
      LookupAnswersLastWrite(Do(s, actions[0]), actions[1..], id, o);
    }
  }

  /** An action of another request's scheduler or processor leaves the answer as it was. */
  lemma OthersLeaveTheAnswer(s: State, a: Action, id: string, o: Outcome)
    requires Published(s)
    requires a.Create? ==> a.req.requestId != id
    requires a.Work? && InProcessor(s, a.h) ==> Message(s, a.h).requestId != id
    ensures P.StatusOf(Do(s, a).records, id, o) == P.StatusOf(s.records, id, o)
  {
    hide Published, Do, P.NextWrite;
    ActionWrites(s, a, id, o);
  }

  // Nothing is published for a request whose creation failed.

  /** The id was drawn, and its request is neither published nor about to be. */
  ghost predicate Withheld(s: State, id: string) {
    && id in s.used && id !in s.pending
    && forall p, k | 0 <= k < |Log(s, p)| :: Log(s, p)[k].requestId != id
  }

  /** Only publishing changes the log; only creation adds to what waits to be published. */
  lemma QuietAction(s: State, a: Action)
    requires !a.Publish?
    ensures var t := Do(s, a);
            && t.log == s.log && s.used <= t.used
            && t.pending == if a.Create? && a.req.requestId !in s.used && a.o.Done?
                            then s.pending[a.req.requestId := a.req] else s.pending
  {
    hide P.Step, P.Combine, P.Created, P.Finished, G.Do, G.Active, Message, WorldOf, InProcessor, NewRecord;
  }

  lemma PendingId(s: State, id: string)
    requires Published(s) && id in s.pending
    ensures s.pending[id].requestId == id
  {
    hide IdsDistinct, JobsOnMessages, Backed;
  }

  lemma ActionWithholds(s: State, a: Action, id: string)
    requires Published(s) && Withheld(s, id)
    ensures Withheld(Do(s, a), id)
  {
    hide Published, Log;
    var t := Do(s, a);
    if !a.Publish? {
      QuietAction(s, a);
      SameLogs(s, t);
      hide Do;
    } else if a.id in s.pending {
      PendingId(s, a.id);
      LogAfterPublish(s, a.id, a.partition, a.o);
    }
  }

  lemma {:induction false} WithheldForEver(s: State, actions: seq<Action>, id: string)
    requires Published(s) && Withheld(s, id)
    ensures Withheld(Perform(s, actions), id)
    decreases |actions|
  {
    hide Do, Published, Withheld;
    if actions != [] {
      ActionPublished(s, actions[0]);
      ActionWithholds(s, actions[0], id);
      WithheldForEver(Do(s, actions[0]), actions[1..], id);
    }
  }

  /** A request whose creation threw, with its record inserted or not, is on no message for ever. */
  lemma ThrownCreateIsNeverPublished(s: State, req: P.Request, o: Outcome, actions: seq<Action>)
    requires Published(s) && req.requestId !in s.used && o.Faulted?
    ensures Withheld(Perform(Do(s, Create(req, o)), actions), req.requestId)
  {
    hide P.Combine, IdsDistinct, JobsOnMessages, SameInputs;
    var t := Do(s, Create(req, o));
    ActionPublished(s, Create(req, o));
    UnusedIsUnknown(s, req.requestId);
    SameLogs(s, t);
    hide Log, DoCreate, Perform;
    WithheldForEver(t, actions, req.requestId);
  }

  lemma UnusedIsUnknown(s: State, id: string)
    requires Published(s) && id !in s.used
    ensures id !in s.pending && id !in s.records
    ensures forall p, k | 0 <= k < |Log(s, p)| :: Log(s, p)[k].requestId != id
  {
    hide IdsDistinct, JobsOnMessages, SameInputs, Log;
    forall i | i in s.pending ensures i in s.used {
      assert Backed(s, s.pending[i]);
    }
    forall p, k | 0 <= k < |Log(s, p)| ensures Log(s, p)[k].requestId in s.used {
      assert Backed(s, Log(s, p)[k]);
    }
  }

  /** The run has an action that creates exactly this request, and it did not throw. */
  predicate Creates(actions: seq<Action>, req: P.Request) {
    exists i | 0 <= i < |actions| :: actions[i].Create? && actions[i].req == req && actions[i].o.Done?
  }

  /** The request waits to be published or is on a message. */
  ghost predicate Known(s: State, req: P.Request) {
    || (req.requestId in s.pending && s.pending[req.requestId] == req)
    || exists p, k | 0 <= k < |Log(s, p)| :: Log(s, p)[k] == req
  }

  lemma ActionKnows(s: State, a: Action, req: P.Request)
    requires Published(s) && Known(Do(s, a), req)
    ensures Known(s, req) || (a.Create? && a.req == req && a.o.Done?)
  {
    hide Published, Log;
    var t := Do(s, a);
    if !a.Publish? {
      QuietAction(s, a);
      SameLogs(s, t);
      hide Do;
    } else if a.id in s.pending {
      PendingId(s, a.id);
      LogAfterPublish(s, a.id, a.partition, a.o);
      if p, k :| 0 <= k < |Log(t, p)| && Log(t, p)[k] == req {
        assert k < |Log(s, p)| ==> Log(s, p)[k] == req;
      }
    }
  }

  /** Every request that waits or is on a message stems from a creation that did not throw. */
  lemma {:induction false} MessagesStemFromCreations(s: State, actions: seq<Action>, req: P.Request)
    requires Published(s) && Known(Perform(s, actions), req)
    ensures Known(s, req) || Creates(actions, req)
    decreases |actions|
  {
    hide Do, Published, Known;
    if actions != [] {
      var next, rest := Do(s, actions[0]), actions[1..];
      ActionPublished(s, actions[0]);
      MessagesStemFromCreations(next, rest, req);
      if Creates(rest, req) {
        var i :| 0 <= i < |rest| && rest[i].Create? && rest[i].req == req && rest[i].o.Done?;
        assert actions[i + 1] == rest[i];
      } else {
        ActionKnows(s, actions[0], req);
      }
    }
  }

  /** From the empty system: each message was created by a call that did not throw. */
  lemma EveryMessageWasCreated(topic: string, group: string, hosts: nat -> nat, cache: Option<C.Cache>,
                               actions: seq<Action>, p: nat, k: nat)
    requires k < |Log(Perform(Initial(topic, group, hosts, cache), actions), p)|
    ensures Creates(actions, Log(Perform(Initial(topic, group, hosts, cache), actions), p)[k])
  {
    hide Do, Perform, Creates, Published;
    var s := Initial(topic, group, hosts, cache);
    InitialIsPublished(topic, group, hosts, cache);
    var req := Log(Perform(s, actions), p)[k];
    MessagesStemFromCreations(s, actions, req);
    assert forall q :: Log(s, q) == [];
  }
}
