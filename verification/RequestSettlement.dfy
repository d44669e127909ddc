/** How requests settle in the interleaved system, with and without a cache of offsets. */
module RequestSettlement {
  import opened Wrappers
  import opened Effects
  import opened RequestLifecycle
  import C = KafkaConsumer
  import G = OffsetGuard
  import P = ImageProcessor

  // What holds of every handler while each partition has one.

  /** The request has its final status and no temporary directory where its handler runs. */
  predicate Terminal(w: P.World, id: string) {
    && id in w.records && w.records[id].status in {P.Succeeded, P.Failed}
    && id !in w.dirs
  }

  predicate RunHolds(req: P.Request, w: P.World, r: P.Run) {
    P.Progress(req.products, r) && P.Ordered(req, w, r)
  }

  ghost predicate Live(s: State) {
    && (forall h | InProcessor(s, h) :: RunHolds(Message(s, h), WorldOf(s, h), s.runs[h]))
    && (forall h | HasMessage(s, h) && s.guard.jobs[h].phase == C.Storing ::
          Terminal(WorldOf(s, h), Message(s, h).requestId))
  }

  /** A request's record and directory are the same in both worlds. */
  predicate SameFor(id: string, w: P.World, v: P.World) {
    && (id in w.records <==> id in v.records) && (id in w.records ==> w.records[id] == v.records[id])
    && (id in w.dirs <==> id in v.dirs)
  }

  lemma RunHoldsElsewhere(req: P.Request, w: P.World, v: P.World, r: P.Run)
    requires RunHolds(req, w, r) && SameFor(req.requestId, w, v)
    ensures RunHolds(req, v, r)
  {
    hide P.Progress;
  }

  lemma RunStepHolds(req: P.Request, w: P.World, r: P.Run, o: Outcome)
    requires RunHolds(req, w, r)
    ensures RunHolds(req, P.Step(req, w, r, o).0, P.Step(req, w, r, o).1)
  {
    hide P.Progress, P.Ordered, P.Step;
    P.StepKeepsProgress(req, w, r, o);
    P.StepKeepsOrder(req, w, r, o);
  }

  lemma RunBegins(req: P.Request, w: P.World)
    ensures RunHolds(req, w, P.Begin())
  {
    hide P.Progress;
    P.BeginIsProgress(req.products);
  }

  /** Handlers active at the same time are on different requests. */
  lemma OtherRequests(s: State, h: nat, i: nat)
    requires Published(s) && G.Exclusive(s.guard) && h != i
    requires HasMessage(s, h) && HasMessage(s, i) && G.Active(s.guard, h) && G.Active(s.guard, i)
    ensures Message(s, h).requestId != Message(s, i).requestId
  {
    hide Backed;
    var a, b := s.guard.jobs[h], s.guard.jobs[i];
    assert a.slot != b.slot;
    assert Log(s, a.slot.partition)[a.offset] == Message(s, h);
    assert Log(s, b.slot.partition)[b.offset] == Message(s, i);
  }

  /** If handlers, messages and their requests' data stay as they were, so does what holds of them. */
  lemma LiveCarriesOver(s: State, t: State, h: nat)
    requires Live(s)
    requires forall i | i != h && HasMessage(t, i) && t.guard.jobs[i].phase in {C.Running, C.Storing} ::
               && HasMessage(s, i) && s.guard.jobs[i] == t.guard.jobs[i] && Message(s, i) == Message(t, i)
               && (i in t.runs <==> i in s.runs) && (i in s.runs ==> s.runs[i] == t.runs[i])
               && SameFor(Message(s, i).requestId, WorldOf(s, i), WorldOf(t, i))
    requires InProcessor(t, h) ==> RunHolds(Message(t, h), WorldOf(t, h), t.runs[h])
    requires HasMessage(t, h) && t.guard.jobs[h].phase == C.Storing ==> Terminal(WorldOf(t, h), Message(t, h).requestId)
    ensures Live(t)
  {
    hide RunHolds, HasMessage, Message;
    forall i | InProcessor(t, i) ensures RunHolds(Message(t, i), WorldOf(t, i), t.runs[i]) {
      if i != h {
        assert InProcessor(s, i);
        RunHoldsElsewhere(Message(s, i), WorldOf(s, i), WorldOf(t, i), s.runs[i]);
      }
    }
  }

  lemma CreateLive(s: State, req: P.Request, o: Outcome)
    requires Published(s) && Live(s)
    ensures Live(DoCreate(s, req, o))
  {
    hide RunHolds, P.Combine, Live, Published;
    var t := DoCreate(s, req, o);
    if req.requestId !in s.used {
      SameLogs(s, t);
      hide Log;
      forall i | HasMessage(t, i)
        ensures HasMessage(s, i) && Message(s, i) == Message(t, i)
        ensures SameFor(Message(s, i).requestId, WorldOf(s, i), WorldOf(t, i))
      {
        MessageIsUsed(s, i);
      }
      LiveAfterQuietStep(s, t);
    }
  }

  lemma MessageIsUsed(s: State, h: nat)
    requires Published(s) && HasMessage(s, h)
    ensures Message(s, h).requestId in s.used
  {
    hide IdsDistinct, JobsOnMessages, SameInputs;
    var job := s.guard.jobs[h];
    assert Backed(s, Log(s, job.slot.partition)[job.offset]);
  }

  lemma PublishLive(s: State, id: string, partition: nat, o: Outcome)
    requires Published(s) && Live(s)
    ensures Live(DoPublish(s, id, partition, o))
  {
    hide RunHolds, Live, Backed, C.Consistent;
    var t := DoPublish(s, id, partition, o);
    assert forall p :: Log(s, p) <= Log(t, p);
    forall i | HasMessage(t, i) ensures HasMessage(s, i) && Message(s, i) == Message(t, i) {
      assert HasMessage(s, i);
    }
    LiveAfterQuietStep(s, t);
  }

  /** No handler moves and no message's request changes. */
  lemma LiveAfterQuietStep(s: State, t: State)
    requires Live(s) && t.guard == s.guard && t.runs == s.runs
    requires forall i | HasMessage(t, i) ::
               HasMessage(s, i) && Message(s, i) == Message(t, i) &&
               SameFor(Message(s, i).requestId, WorldOf(s, i), WorldOf(t, i))
    ensures Live(t)
  {
    hide RunHolds, HasMessage, Message;
    forall i | InProcessor(t, i) ensures RunHolds(Message(t, i), WorldOf(t, i), t.runs[i]) {
      assert InProcessor(s, i);
      RunHoldsElsewhere(Message(s, i), WorldOf(s, i), WorldOf(t, i), s.runs[i]);
    }
  }

  /** One handler moves; the stores and the log stay. */
  lemma LiveAfterGuardStep(s: State, t: State, h: nat)
    requires Live(s) && t == s.(guard := t.guard, runs := t.runs)
    requires forall i | i != h ::
               && (i in t.guard.jobs <==> i in s.guard.jobs)
               && (i in t.guard.jobs ==> t.guard.jobs[i] == s.guard.jobs[i])
               && (i in t.runs <==> i in s.runs) && (i in t.runs ==> t.runs[i] == s.runs[i])
    requires InProcessor(t, h) ==> RunHolds(Message(t, h), WorldOf(t, h), t.runs[h])
    requires HasMessage(t, h) && t.guard.jobs[h].phase == C.Storing ==> Terminal(WorldOf(t, h), Message(t, h).requestId)
    ensures Live(t)
  {
    hide RunHolds;
    assert forall p :: Log(t, p) == Log(s, p);
    LiveCarriesOver(s, t, h);
  }

  lemma ConsumeLive(s: State, h: nat, o: Outcome)
    requires Published(s) && Live(s)
    ensures Live(DoConsume(s, h, o))
  {
    hide RunHolds, C.Step, Live, Terminal, C.Consistent;
    var t := DoConsume(s, h, o);
    if G.Active(s.guard, h) && s.guard.jobs[h].phase != C.Running {
      G.StepKeepsSlot(s.guard.cache, s.guard.jobs[h], o);
      if InProcessor(t, h) {
        RunBegins(Message(t, h), WorldOf(t, h));
      }
      LiveAfterGuardStep(s, t, h);
    }
  }

  /** A processor that returned left the request settled. */
  lemma ReturnedIsTerminal(s: State, h: nat)
    requires Live(s) && InProcessor(s, h) && s.runs[h].phase == P.Returned
    ensures Terminal(WorldOf(s, h), Message(s, h).requestId)
  {
    hide P.Progress;
    assert RunHolds(Message(s, h), WorldOf(s, h), s.runs[h]);
  }

  lemma FinishLive(s: State, h: nat)
    requires Published(s) && Live(s)
    ensures Live(DoFinish(s, h))
  {
    hide Terminal, RunHolds, Published, Live;
    var t := DoFinish(s, h);
    if InProcessor(s, h) && P.Finished(s.runs[h]) {
      assert forall p :: Log(t, p) == Log(s, p);
      if s.runs[h].phase == P.Returned {
        ReturnedIsTerminal(s, h);
        SameTerminal(s, t, h, Message(s, h).requestId);
      }
      LiveAfterGuardStep(s, t, h);
    }
  }

  lemma SameTerminal(s: State, t: State, h: nat, id: string)
    requires Terminal(WorldOf(s, h), id) && SameStores(s, t)
    ensures Terminal(WorldOf(t, h), id)
  {
  }

  ghost predicate SameStores(s: State, t: State) {
    t.records == s.records && t.disks == s.disks && t.hosts == s.hosts
  }

  lemma DeliverLive(s: State, h: nat, partition: nat, offset: nat)
    requires Live(s)
    ensures Live(Do(s, Deliver(h, partition, offset)))
  {
    hide Live, RunHolds, Terminal;
    var t := Do(s, Deliver(h, partition, offset));
    if t.guard != s.guard {
      LiveAfterGuardStep(s, t, h);
    } else {
      assert t == s;
    }
  }

  /** A processor's step leaves the other handlers' requests alone. */
  lemma WorkElsewhere(s: State, h: nat, o: Outcome, i: nat)
    requires Published(s) && G.Exclusive(s.guard) && InProcessor(s, h) && i != h
    requires HasMessage(s, i) && s.guard.jobs[i].phase in {C.Running, C.Storing}
    ensures SameFor(Message(s, i).requestId, WorldOf(s, i), WorldOf(DoWork(s, h, o), i))
  {
    hide P.Step, Published, G.Exclusive;
    OtherRequests(s, h, i);
    P.StepIsLocal(Message(s, h), WorldOf(s, h), s.runs[h], o);
  }

  lemma WorkLive(s: State, h: nat, o: Outcome)
    requires Published(s) && Live(s) && G.Exclusive(s.guard)
    ensures Live(DoWork(s, h, o))
  {
    hide RunHolds, P.Step, Live, Terminal, Published, G.Exclusive, SameFor;
    var t := DoWork(s, h, o);
    if InProcessor(s, h) {
      assert forall p :: Log(t, p) == Log(s, p);
      LiveMeans(s, h);
      RunStepHolds(Message(s, h), WorldOf(s, h), s.runs[h], o);
      forall i | i != h && HasMessage(t, i) && t.guard.jobs[i].phase in {C.Running, C.Storing}
        ensures HasMessage(s, i) && Message(s, i) == Message(t, i)
        ensures SameFor(Message(s, i).requestId, WorldOf(s, i), WorldOf(t, i))
      {
        WorkElsewhere(s, h, o, i);
      }
      LiveCarriesOver(s, t, h);
    }
  }

  lemma LiveMeans(s: State, h: nat)
    requires Live(s) && InProcessor(s, h)
    ensures RunHolds(Message(s, h), WorldOf(s, h), s.runs[h])
  {
  }

  lemma ActionLive(s: State, a: Action)
    requires Published(s) && Live(s) && G.Exclusive(s.guard)
    ensures Live(Do(s, a))
  {
    hide Published, Live, DoCreate, DoPublish, DoConsume, DoWork, DoFinish, RunHolds, Terminal;
    match a
    case Create(req, o) => CreateLive(s, req, o);
    case Publish(id, partition, o) => PublishLive(s, id, partition, o);
    case Deliver(h, partition, offset) => DeliverLive(s, h, partition, offset);
    case Consume(h, o) => ConsumeLive(s, h, o);
    case Work(h, o) => WorkLive(s, h, o);
    case Finish(h) => FinishLive(s, h);
    case Crash(h) => LiveAfterGuardStep(s, Do(s, a), h);
  }

  /** All that is kept while each partition has at most one active handler. */
  ghost predicate Sound(s: State) {
    && Published(s) && Live(s) && G.Guarded(s.guard) && ':' !in s.topic
    && G.Exclusive(s.guard)
  }

  lemma GuardMoves(s: State, a: Action) returns (b: G.Action)
    ensures Do(s, a).guard == s.guard || Do(s, a).guard == G.Do(s.guard, b)
  {
    hide G.Do, P.Step;
    b := match a
      case Deliver(h, partition, offset) => G.Deliver(h, SlotOf(s, partition), offset, true)
      case Consume(h, o) => G.Advance(h, o)
      case Finish(h) =>
        G.Advance(h, if h in s.runs && s.runs[h].phase == P.Returned then Done("") else Faulted(false))
      case Crash(h) => G.Crash(h)
      case _ => G.Crash(0);
  }

  lemma ActionSound(s: State, a: Action)
    requires Sound(s) && G.Exclusive(Do(s, a).guard)
    ensures Sound(Do(s, a)) && G.OffsetsRise(s.guard, Do(s, a).guard)
    ensures Do(s, a).topic == s.topic && Do(s, a).group == s.group
  {
    hide Published, Live, G.Guarded, G.Exclusive, G.OffsetsRise, G.StartsAbove, Do;
    ActionPublished(s, a);
    ActionLive(s, a);
    var b := GuardMoves(s, a);
    G.ActionStaysGuarded(s.guard, b);
    G.NothingRises(s.guard);
    NamesStay(s, a);
  }

  lemma NamesStay(s: State, a: Action)
    ensures Do(s, a).topic == s.topic && Do(s, a).group == s.group
    ensures forall p :: Log(s, p) <= Log(Do(s, a), p)
  {
    hide G.Do, P.Step, P.Created, Message, WorldOf, HasMessage;
    if a.Publish? && a.id in s.pending {
      LogAfterPublish(s, a.id, a.partition, a.o);
    } else {
      assert Do(s, a).log == s.log;
      SameLogs(s, Do(s, a));
    }
  }

  /** Every exclusive run of the system keeps all of it. */
  lemma {:induction false} RunsStaySound(s: State, actions: seq<Action>)
    requires Sound(s) && ExclusiveThroughout(s, actions)
    ensures Sound(Perform(s, actions))
    decreases |actions|
  {
    hide Do, Sound;
    if actions != [] {
      ExclusiveNext(s, actions);
      ActionSound(s, actions[0]);
      RunsStaySound(Do(s, actions[0]), actions[1..]);
    }
  }

  lemma ExclusiveNext(s: State, actions: seq<Action>)
    requires actions != [] && ExclusiveThroughout(s, actions)
    ensures G.Exclusive(Do(s, actions[0]).guard)
  {
    hide Do, G.Exclusive;
  }

  lemma InitialIsSound(topic: string, group: string, hosts: nat -> nat, cache: Option<C.Cache>)
    requires ':' !in topic
    ensures Sound(Initial(topic, group, hosts, cache))
  {
    InitialIsPublished(topic, group, hosts, cache);
  }

  // Final statuses stay, behind the offset guard.

  /** The message at `offset` is at or below the partition's stored offset. */
  predicate Passed(s: State, partition: nat, offset: nat) {
    && offset < |Log(s, partition)|
    && C.Stored(s.guard.cache, SlotOf(s, partition)).Some?
    && offset <= C.Stored(s.guard.cache, SlotOf(s, partition)).value
  }

  lemma PassedIsNotWorkedOn(s: State, partition: nat, offset: nat, h: nat, o: Outcome)
    requires Sound(s) && Passed(s, partition, offset) && InProcessor(s, h)
    ensures Message(s, h).requestId != Log(s, partition)[offset].requestId
  {
    hide Backed, Live, C.Stored, C.Consistent;
    var job := s.guard.jobs[h];
    assert Log(s, job.slot.partition)[job.offset] == Message(s, h);
  }

  lemma PassedRecordStays(s: State, partition: nat, offset: nat, a: Action)
    requires Sound(s) && Passed(s, partition, offset) && G.Exclusive(Do(s, a).guard)
    ensures var id := Log(s, partition)[offset].requestId;
            && id in s.records && id in Do(s, a).records
            && Do(s, a).records[id] == s.records[id]
    ensures Passed(Do(s, a), partition, offset)
    ensures Log(Do(s, a), partition)[offset] == Log(s, partition)[offset]
  {
    hide Live, C.Stored, G.Do, P.Step, G.Guarded, Sound;
    var m := Log(s, partition)[offset];
    SoundMeansBacked(s, partition, offset);
    ActionSound(s, a);
    NamesStay(s, a);
    assert Log(s, partition) <= Log(Do(s, a), partition);
    OffsetsRiseAt(s, Do(s, a), partition);
    if a.Work? && InProcessor(s, a.h) {
      PassedIsNotWorkedOn(s, partition, offset, a.h, a.o);
      P.StepIsLocal(Message(s, a.h), WorldOf(s, a.h), s.runs[a.h], a.o);
    }
  }

  lemma OffsetsRiseAt(s: State, t: State, partition: nat)
    requires G.OffsetsRise(s.guard, t.guard) && Sound(s)
    ensures G.NotBelow(C.Stored(s.guard.cache, SlotOf(s, partition)), C.Stored(t.guard.cache, SlotOf(s, partition)))
  {
    hide C.Stored, Published, Live, G.Guarded, G.Exclusive;
    assert G.Legal(SlotOf(s, partition));
  }

  lemma SoundMeansBacked(s: State, partition: nat, offset: nat)
    requires Sound(s) && offset < |Log(s, partition)|
    ensures Backed(s, Log(s, partition)[offset])
  {
    hide Live, Backed, G.Guarded, G.Exclusive;
  }

  /**
   * Once a message is at or below the stored offset of its partition, no redelivery changes its
   * request's record, whatever else is scheduled, consumed, redelivered or crashes.
   */
  lemma {:induction false} PassedRecordsAreFinal(s: State, partition: nat, offset: nat, actions: seq<Action>)
    requires Sound(s) && Passed(s, partition, offset) && ExclusiveThroughout(s, actions)
    ensures var id := Log(s, partition)[offset].requestId;
            && id in s.records && id in Perform(s, actions).records
            && Perform(s, actions).records[id] == s.records[id]
    decreases |actions|
  {
    hide Do, Sound, Passed, G.Exclusive, Log;
    if actions == [] {
      PassedHasRecord(s, partition, offset);
    } else {
      ExclusiveNext(s, actions);
      PassedRecordStays(s, partition, offset, actions[0]);
      ActionSound(s, actions[0]);
      PassedRecordsAreFinal(Do(s, actions[0]), partition, offset, actions[1..]);
    }
  }

  lemma PassedHasRecord(s: State, partition: nat, offset: nat)
    requires Sound(s) && Passed(s, partition, offset)
    ensures Log(s, partition)[offset].requestId in s.records
  {
    hide Sound;
    SoundMeansBacked(s, partition, offset);
  }

  /**
   * A stored offset closes its message and every earlier one of the partition: no later exclusive
   * run changes their requests' records, those skipped by a failed check included.
   */
  lemma StoredOffsetCloses(s: State, h: nat, o: Outcome, offset: nat, actions: seq<Action>)
    requires Sound(s) && HasMessage(s, h) && s.guard.jobs[h].phase == C.Storing && offset <= s.guard.jobs[h].offset
    requires s.guard.cache.Some? && TookEffect(o) && ExclusiveThroughout(Do(s, Consume(h, o)), actions)
    ensures var t := Perform(Do(s, Consume(h, o)), actions);
            var id := Log(s, s.guard.jobs[h].slot.partition)[offset].requestId;
            && id in s.records && id in t.records && t.records[id] == s.records[id]
  {
    hide Perform, ExclusiveThroughout, Published, Live, G.Exclusive, G.Guarded, C.Stored;
    var t := Do(s, Consume(h, o));
    StoringPasses(s, h, o, offset);
    ExclusiveHere(t, actions);
    ActionSound(s, Consume(h, o));
    PassedRecordsAreFinal(t, s.guard.jobs[h].slot.partition, offset, actions);
  }

  /** So when the processor returned and its offset was stored, the final status stays for ever. */
  lemma TerminalForEver(s: State, h: nat, o: Outcome, actions: seq<Action>)
    requires Sound(s) && HasMessage(s, h) && s.guard.jobs[h].phase == C.Storing
    requires s.guard.cache.Some? && TookEffect(o) && ExclusiveThroughout(Do(s, Consume(h, o)), actions)
    ensures var id, t := Message(s, h).requestId, Perform(Do(s, Consume(h, o)), actions);
            && Terminal(WorldOf(s, h), id) && id in t.records
            && t.records[id] == s.records[id]
  {
    hide Perform, ExclusiveThroughout, Published, G.Exclusive, G.Guarded, C.Stored, Terminal;
    LiveStoring(s, h);
    StoredOffsetCloses(s, h, o, s.guard.jobs[h].offset, actions);
  }

  lemma ExclusiveHere(s: State, actions: seq<Action>)
    requires ExclusiveThroughout(s, actions)
    ensures G.Exclusive(s.guard)
  {
    hide Do, G.Exclusive;
  }

  lemma StoringPasses(s: State, h: nat, o: Outcome, offset: nat)
    requires Sound(s) && HasMessage(s, h) && s.guard.jobs[h].phase == C.Storing && offset <= s.guard.jobs[h].offset
    requires s.guard.cache.Some? && TookEffect(o)
    ensures var t, p := Do(s, Consume(h, o)), s.guard.jobs[h].slot.partition;
            SameStores(s, t) && t.log == s.log && Passed(t, p, offset)
  {
    hide Published, Live, G.Exclusive, C.Stored, C.Store, C.Consistent;
    var job := s.guard.jobs[h];
    G.StoreIsOneRegister(s.guard.cache, job.slot, job.offset, job.slot);
  }

  // How handlers end.

  /** The handler's job, active before the action, has ended after it. */
  predicate Ends(s: State, a: Action, h: nat) {
    && HasMessage(s, h) && G.Active(s.guard, h)
    && h in Do(s, a).guard.jobs && Do(s, a).guard.jobs[h].phase.Ended?
  }

  /** The phase, call outcome and stored offset with which a job ends in this way. */
  predicate EndsBy(s: State, job: C.Job, o: Outcome, ending: C.Ending) {
    match ending
    case Completed => job.phase == C.Storing
    case AlreadySeen => job.phase == C.Checking && o.Done? && Passed(s, job.slot.partition, job.offset)
    case CheckFailed => job.phase == C.Checking && o.Faulted? && s.guard.cache.Some?
    case DeadLettered => job.phase == C.DeadLettering
    case Dropped => false
  }

  /**
   * With a dead-letter topic a handler ends in one of four ways, each exactly when `EndsBy` says:
   * after the offset write, the final status being stored; skipped as already passed; skipped because
   * the cache could not be read; or after exactly one dead-letter attempt.
   */
  lemma EndingsAre(s: State, a: Action, h: nat, ending: C.Ending)
    requires Sound(s) && Ends(s, a, h)
    ensures a.Consume? && a.h == h && SameStores(s, Do(s, a))
    ensures Do(s, a).guard.jobs[h].phase == C.Ended(ending) <==> EndsBy(s, s.guard.jobs[h], a.o, ending)
    ensures var job := Do(s, a).guard.jobs[h];
            && job.dlqAttempts == (if job.phase == C.Ended(C.DeadLettered) then 1 else 0)
            && (job.processor == C.Returned <==> job.phase == C.Ended(C.Completed))
            && (job.phase == C.Ended(C.Completed) ==> Terminal(WorldOf(s, h), Message(s, h).requestId))
  {
    hide Published, Live, G.Guarded, G.Exclusive, Terminal, C.Step, C.Consistent, Do, C.Stored;
    JobIsConsistent(s, h);
    OnlyConsumeEnds(s, a, h);
    var job := s.guard.jobs[h];
    C.StepConsistent(s.guard.cache, job, a.o);
    StepEnds(s.guard.cache, job, a.o, ending);
    StepEnds(s.guard.cache, job, a.o, C.Completed);
    if job.phase == C.Storing {
      LiveStoring(s, h);
    }
    ConsistentEnding(Do(s, a).guard.jobs[h]);
  }

  lemma JobIsConsistent(s: State, h: nat)
    requires Published(s) && h in s.guard.jobs
    ensures C.Consistent(s.guard.jobs[h]) && s.guard.jobs[h].dlqRequired
  {
    hide C.Consistent, AllBacked, IdsDistinct;
  }

  lemma LiveStoring(s: State, h: nat)
    requires Live(s) && HasMessage(s, h) && s.guard.jobs[h].phase == C.Storing
    ensures Terminal(WorldOf(s, h), Message(s, h).requestId)
  {
    hide Terminal;
  }

  lemma ConsistentEnding(job: C.Job)
    requires C.Consistent(job) && job.phase.Ended? && job.dlqRequired
    ensures job.dlqAttempts == if job.phase == C.Ended(C.DeadLettered) then 1 else 0
    ensures job.processor == C.Returned <==> job.phase == C.Ended(C.Completed)
  {
  }

  /** A handler with a dead-letter topic ends only in its own calls outside the processor. */
  lemma OnlyConsumeEnds(s: State, a: Action, h: nat)
    requires Ends(s, a, h) && s.guard.jobs[h].dlqRequired
    ensures a.Consume? && a.h == h && s.guard.jobs[h].phase != C.Running
    ensures SameStores(s, Do(s, a))
    ensures Do(s, a).guard.jobs[h] == C.Step(s.guard.cache, s.guard.jobs[h], a.o).1
  {
    hide P.Step, C.Stored, C.Store;
  }

  lemma StepEnds(cache: Option<C.Cache>, job: C.Job, o: Outcome, ending: C.Ending)
    requires C.Consistent(job) && job.dlqRequired && !job.phase.Ended?
    ensures var j := C.Step(cache, job, o).1;
            j.phase.Ended? ==>
              (j.phase == C.Ended(ending) <==>
                 match ending
                 case Completed => job.phase == C.Storing
                 case AlreadySeen => job.phase == C.Checking && o.Done? && C.Seen(cache, job.slot, job.offset)
                 case CheckFailed => job.phase == C.Checking && o.Faulted? && cache.Some?
                 case DeadLettered => job.phase == C.DeadLettering
                 case Dropped => false)
  {
    hide C.Store, C.Key;
  }

  /**
   * Without a cache only two of the four are left, so no message is lost: the processor returned and
   * the request has its final status, or exactly one publish to the dead-letter topic was tried.
   */
  lemma NoMessageIsLost(s: State, a: Action, h: nat)
    requires Sound(s) && s.guard.cache.None? && Ends(s, a, h)
    ensures var t, job := Do(s, a), Do(s, a).guard.jobs[h];
            || (job.phase == C.Ended(C.Completed) && job.processor == C.Returned && job.dlqAttempts == 0
                && Terminal(WorldOf(t, h), Message(s, h).requestId))
            || (job.phase == C.Ended(C.DeadLettered) && job.processor != C.Returned && job.dlqAttempts == 1)
  {
    hide Sound, Terminal, Do, G.Active;
    var ending := Do(s, a).guard.jobs[h].phase.ending;
    EndingsAre(s, a, h, ending);
    if ending == C.Completed {
      SameTerminal(s, Do(s, a), h, Message(s, h).requestId);
    }
  }

  /**
   * A processor that returned leads to the offset write, with the message's own offset; one that
   * rejected leads to one dead-letter attempt and leaves the cache alone.
   */
  lemma SettledGoesOn(s: State, h: nat, o: Outcome)
    requires Published(s) && InProcessor(s, h) && P.Finished(s.runs[h])
    ensures var t := Do(Do(s, Finish(h)), Consume(h, o));
            var job, returned := s.guard.jobs[h], s.runs[h].phase == P.Returned;
            && SameStores(s, t) && h in t.guard.jobs
            && t.guard.jobs[h].phase == C.Ended(if returned then C.Completed else C.DeadLettered)
            && t.guard.jobs[h].dlqAttempts == (if returned then 0 else 1)
            && t.guard.cache == if returned && TookEffect(o) then C.Store(s.guard.cache, job.slot, job.offset)
                                else s.guard.cache
  {
    hide Published, C.Store, C.Stored, Do;
    JobIsConsistent(s, h);
    FinishMoves(s, h);
    EndMoves(Do(s, Finish(h)), h, o);
  }

  lemma FinishMoves(s: State, h: nat)
    requires InProcessor(s, h) && P.Finished(s.runs[h]) && s.guard.jobs[h].dlqRequired
    ensures var t := Do(s, Finish(h));
            var job, returned := s.guard.jobs[h], s.runs[h].phase == P.Returned;
            && SameStores(s, t) && t.guard.cache == s.guard.cache && h in t.guard.jobs
            && t.guard.jobs[h] == job.(phase := if returned then C.Storing else C.DeadLettering,
                                       processor := if returned then C.Returned else C.Threw)
  {
    hide C.Store, C.Stored, Log;
  }

  lemma EndMoves(s: State, h: nat, o: Outcome)
    requires h in s.guard.jobs && s.guard.jobs[h].phase in {C.Storing, C.DeadLettering}
    ensures var t := Do(s, Consume(h, o));
            var job, stored := s.guard.jobs[h], s.guard.jobs[h].phase == C.Storing;
            && SameStores(s, t) && h in t.guard.jobs
            && t.guard.jobs[h].phase == C.Ended(if stored then C.Completed else C.DeadLettered)
            && t.guard.jobs[h].dlqAttempts == job.dlqAttempts + (if stored then 0 else 1)
            && t.guard.cache == if stored && TookEffect(o) then C.Store(s.guard.cache, job.slot, job.offset)
                                else s.guard.cache
  {
    hide C.Store, C.Stored, Log;
  }

  // When a redelivery reopens a request.

  /** Delivered again and taken to the processor's first call. */
  function Redelivery(h: nat, partition: nat, offset: nat): seq<Action> {
    [Deliver(h, partition, offset), Consume(h, Done("")), Consume(h, Done("")), Consume(h, Done("")),
     Work(h, Done(""))]
  }

  lemma PerformFirst(s: State, a: Action, rest: seq<Action>)
    ensures Perform(s, [a] + rest) == Perform(Do(s, a), rest)
    ensures ExclusiveThroughout(s, [a] + rest) <==> G.Exclusive(s.guard) && ExclusiveThroughout(Do(s, a), rest)
  {
    hide Do, G.Exclusive;
    assert ([a] + rest)[1..] == rest;
  }

  lemma PerformNothing(s: State)
    ensures Perform(s, []) == s
    ensures ExclusiveThroughout(s, []) <==> G.Exclusive(s.guard)
  {
    hide G.Exclusive;
  }

  /** A fresh delivery of a message that is not passed reaches the processor. */
  lemma DeliveryReaches(s: State, h: nat, partition: nat, offset: nat)
    requires !Passed(s, partition, offset) && ':' !in s.topic && h !in s.guard.jobs
    requires offset < |Log(s, partition)| && offset <= G.MAX_OFFSET
    ensures var s1 := Do(s, Deliver(h, partition, offset));
            var s4 := Do(Do(Do(s1, Consume(h, Done(""))), Consume(h, Done(""))), Consume(h, Done("")));
            && SameStores(s, s4) && InProcessor(s4, h) && s4.runs[h] == P.Begin()
            && Message(s4, h) == Log(s, partition)[offset]
  {
    hide C.Stored, C.Store, Do, Passed, G.Legal;
    DeliveryStarts(s, h, partition, offset);
    var c := Consume(h, Done(""));
    var s1 := Do(s, Deliver(h, partition, offset));
    ConsumeMoves(s1, h);
    ConsumeMoves(Do(s1, c), h);
    ConsumeMoves(Do(Do(s1, c), c), h);
  }

  lemma DeliveryStarts(s: State, h: nat, partition: nat, offset: nat)
    requires !Passed(s, partition, offset) && ':' !in s.topic && h !in s.guard.jobs
    requires offset < |Log(s, partition)| && offset <= G.MAX_OFFSET
    ensures var t := Do(s, Deliver(h, partition, offset));
            && SameStores(s, t) && HasMessage(t, h) && Message(t, h) == Log(s, partition)[offset]
            && t.guard.jobs[h].phase == C.Decoding
            && !C.Seen(t.guard.cache, t.guard.jobs[h].slot, t.guard.jobs[h].offset)
  {
    hide C.Stored;
    var slot := SlotOf(s, partition);
    assert G.Legal(slot) && !C.Seen(s.guard.cache, slot, offset);
    assert Log(Do(s, Deliver(h, partition, offset)), partition) == Log(s, partition);
  }

  /** One call further on the way to the processor, nothing failing. */
  lemma ConsumeMoves(s: State, h: nat)
    requires HasMessage(s, h) && s.guard.jobs[h].phase in {C.Decoding, C.Beating, C.Checking}
    requires !C.Seen(s.guard.cache, s.guard.jobs[h].slot, s.guard.jobs[h].offset)
    ensures var t, before := Do(s, Consume(h, Done(""))), s.guard.jobs[h].phase;
            && SameStores(s, t) && HasMessage(t, h) && Message(t, h) == Message(s, h)
            && t.guard.jobs[h].phase == (match before
                                         case Decoding => C.Beating
                                         case Beating => C.Checking
                                         case _ => C.Running)
            && !C.Seen(t.guard.cache, t.guard.jobs[h].slot, t.guard.jobs[h].offset)
            && (before == C.Checking ==> InProcessor(t, h) && t.runs[h] == P.Begin())
  {
    hide C.Store, C.Seen;
    var t := Do(s, Consume(h, Done("")));
    assert Log(t, s.guard.jobs[h].slot.partition) == Log(s, s.guard.jobs[h].slot.partition);
  }

  /** Delivered again, a message that is not passed puts its request back to Processing. */
  lemma RedeliveryReopens(s: State, h: nat, partition: nat, offset: nat)
    requires Published(s) && !Passed(s, partition, offset) && ':' !in s.topic && h !in s.guard.jobs
    requires offset < |Log(s, partition)| && offset <= G.MAX_OFFSET
    requires G.Exclusive(s.guard) && SlotFree(s, partition)
    ensures Reopened(s, Redelivery(h, partition, offset), Log(s, partition)[offset].requestId)
  {
    hide Do, Perform, P.Settle, Backed, ExclusiveThroughout, G.Exclusive, SlotFree, Passed;
    var m := Log(s, partition)[offset];
    var d, c, w := Deliver(h, partition, offset), Consume(h, Done("")), Work(h, Done(""));
    assert Redelivery(h, partition, offset) == [d] + ([c] + ([c] + ([c] + ([w] + []))));
    DeliveryReaches(s, h, partition, offset);
    var s1 := Do(s, d);
    var s2 := Do(s1, c);
    var s3 := Do(s2, c);
    var s4 := Do(s3, c);
    PerformFirst(s, d, [c] + ([c] + ([c] + ([w] + []))));
    PerformFirst(s1, c, [c] + ([c] + ([w] + [])));
    PerformFirst(s2, c, [c] + ([w] + []));
    PerformFirst(s3, c, [w] + []);
    PerformFirst(s4, w, []);
    PerformNothing(Do(s4, w));
    DeliveryIsExclusive(s, h, partition, offset);
    ConsumeIsExclusive(s1, h, Done(""));
    ConsumeIsExclusive(s2, h, Done(""));
    ConsumeIsExclusive(s3, h, Done(""));
    WorkIsExclusive(s4, h, Done(""));
    assert Backed(s, m);
    BackedHasRecord(s, m);
    FirstWork(s4, h);
  }

  /** No active handler is on the partition. */
  ghost predicate SlotFree(s: State, partition: nat) {
    forall h | G.Active(s.guard, h) :: s.guard.jobs[h].slot != SlotOf(s, partition)
  }

  lemma DeliveryIsExclusive(s: State, h: nat, partition: nat, offset: nat)
    requires G.Exclusive(s.guard) && SlotFree(s, partition) && h !in s.guard.jobs
    ensures G.Exclusive(Do(s, Deliver(h, partition, offset)).guard)
  {
    var t := Do(s, Deliver(h, partition, offset));
    forall i, j | G.Active(t.guard, i) && G.Active(t.guard, j) && i != j
      ensures t.guard.jobs[i].slot != t.guard.jobs[j].slot
    {
      assert i != h ==> G.Active(s.guard, i);
      assert j != h ==> G.Active(s.guard, j);
    }
  }

  lemma ConsumeIsExclusive(s: State, h: nat, o: Outcome)
    requires G.Exclusive(s.guard)
    ensures G.Exclusive(Do(s, Consume(h, o)).guard)
  {
    hide C.Step;
    var t := Do(s, Consume(h, o));
    if G.Active(s.guard, h) {
      G.StepKeepsSlot(s.guard.cache, s.guard.jobs[h], o);
    }
    forall i, j | G.Active(t.guard, i) && G.Active(t.guard, j) && i != j
      ensures t.guard.jobs[i].slot != t.guard.jobs[j].slot
    {
      assert G.Active(s.guard, i) && G.Active(s.guard, j);
    }
  }

  lemma WorkIsExclusive(s: State, h: nat, o: Outcome)
    requires G.Exclusive(s.guard)
    ensures G.Exclusive(Do(s, Work(h, o)).guard)
  {
    hide P.Step;
  }

  lemma BackedHasRecord(s: State, req: P.Request)
    requires Backed(s, req)
    ensures req.requestId in s.records
  {
  }

  lemma FirstWork(s: State, h: nat)
    requires InProcessor(s, h) && s.runs[h] == P.Begin() && Message(s, h).requestId in s.records
    ensures var t, id := Do(s, Work(h, Done(""))), Message(s, h).requestId;
            id in t.records && t.records[id].status == P.Processing
  {
    hide P.Settle;
  }

  /** An exclusive run after which the request is at Processing. */
  ghost predicate Reopened(s: State, actions: seq<Action>, id: string) {
    && ExclusiveThroughout(s, actions)
    && id in Perform(s, actions).records && Perform(s, actions).records[id].status == P.Processing
  }

  /** Handler ids do not run out. */
  lemma {:induction false} FreshHandler(taken: set<nat>) returns (h: nat)
    ensures forall i | i in taken :: i < h
  {
    if taken == {} {
      return 0;
    }
    var i :| i in taken;
    var rest := FreshHandler(taken - {i});
    h := if i < rest then rest else i + 1;
    assert forall k | k in taken :: k == i || k in taken - {i};
  }

  /** If a handler is on the partition it crashes; then the message is delivered again. */
  lemma CrashAndRedeliver(s: State, partition: nat, offset: nat) returns (actions: seq<Action>)
    requires Sound(s) && !Passed(s, partition, offset)
    requires offset < |Log(s, partition)| && offset <= G.MAX_OFFSET
    ensures Reopened(s, actions, Log(s, partition)[offset].requestId)
  {
    hide Published, Live, G.Guarded, Perform, ExclusiveThroughout, C.Stored;
    var h := FreshHandler(s.guard.jobs.Keys);
    if j :| G.Active(s.guard, j) && s.guard.jobs[j].slot == SlotOf(s, partition) {
      var t := Do(s, Crash(j));
      CrashFrees(s, j, partition);
      ActionPublished(s, Crash(j));
      assert Log(t, partition) == Log(s, partition);
      RedeliveryReopens(t, h, partition, offset);
      PerformFirst(s, Crash(j), Redelivery(h, partition, offset));
      return [Crash(j)] + Redelivery(h, partition, offset);
    }
    RedeliveryReopens(s, h, partition, offset);
    return Redelivery(h, partition, offset);
  }

  lemma CrashFrees(s: State, j: nat, partition: nat)
    requires G.Exclusive(s.guard) && G.Active(s.guard, j) && s.guard.jobs[j].slot == SlotOf(s, partition)
    ensures var t := Do(s, Crash(j)); G.Exclusive(t.guard) && SlotFree(t, partition)
  {
    var t := Do(s, Crash(j));
    forall i | G.Active(t.guard, i) ensures t.guard.jobs[i].slot != SlotOf(t, partition) && G.Active(s.guard, i) {
    }
  }

  /**
   * A final status can be undone by some exclusive run exactly when the message is not at or below
   * its partition's stored offset: no cache, a lost offset write, or a handler that never got there.
   */
  lemma ReopenedExactlyWhenNotPassed(s: State, partition: nat, offset: nat)
    requires Sound(s) && offset < |Log(s, partition)| && offset <= G.MAX_OFFSET
    requires var id := Log(s, partition)[offset].requestId;
             id in s.records && s.records[id].status in {P.Succeeded, P.Failed}
    ensures (exists actions :: Reopened(s, actions, Log(s, partition)[offset].requestId)) <==>
            !Passed(s, partition, offset)
  {
    hide Sound, Perform, ExclusiveThroughout, Passed;
    var id := Log(s, partition)[offset].requestId;
    if Passed(s, partition, offset) {
      forall actions ensures !Reopened(s, actions, id) {
        if ExclusiveThroughout(s, actions) {
          PassedRecordsAreFinal(s, partition, offset, actions);
        }
      }
    } else {
      var actions := CrashAndRedeliver(s, partition, offset);
    }
  }

  /** Without a cache, as the consumer is configured, no message is ever passed. */
  lemma CachelessReopens(s: State, partition: nat, offset: nat)
    requires Sound(s) && s.guard.cache.None? && offset < |Log(s, partition)| && offset <= G.MAX_OFFSET
    ensures exists actions :: Reopened(s, actions, Log(s, partition)[offset].requestId)
  {
    hide Sound, Perform, ExclusiveThroughout, Reopened;
    var actions := CrashAndRedeliver(s, partition, offset);
  }
}
