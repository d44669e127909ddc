/** The consumer's per-message protocol, with any processor and an optional cache of offsets. */
module KafkaConsumer {
  import opened Wrappers
  import opened Effects
  import Decimal

  /** What one offset is kept for: a topic, a consumer group and a partition. */
  datatype Slot = Slot(topic: string, group: string, partition: nat)

  type Cache = map<string, string>

  function Key(slot: Slot): string {
    slot.topic + ":" + slot.group + ":" + Decimal.Of(slot.partition)
  }

  /** The number `parseInt` finds under the slot's key; `None` for nothing or NaN. */
  function Stored(cache: Option<Cache>, slot: Slot): Option<int> {
    if cache.Some? && Key(slot) in cache.value then Decimal.ParseInt(cache.value[Key(slot)]) else None
  }

  function Store(cache: Option<Cache>, slot: Slot, offset: nat): Option<Cache> {
    match cache
    case None => None
    case Some(c) => Some(c[Key(slot) := Decimal.Of(offset)])
  }

  /** How a call of `eachMessage` ends when it does not reject. */
  datatype Ending =
    | Completed      // the processor returned and the offset write was tried
    | AlreadySeen    // the offset is not above the cached one
    | CheckFailed    // the cache could not be read: neither processor nor DLQ
    | DeadLettered   // one publish to the dead-letter topic was tried
    | Dropped        // an error, and no dead-letter topic

  datatype Phase = Decoding | Beating | Checking | Running | Storing | DeadLettering | Ended(ending: Ending)

  datatype ProcessorResult = NotRun | Returned | Threw

  datatype Job = Job(
    slot: Slot, offset: nat, dlqRequired: bool,
    phase: Phase, processor: ProcessorResult, dlqAttempts: nat)

  function Start(slot: Slot, offset: nat, dlqRequired: bool): Job {
    Job(slot, offset, dlqRequired, Decoding, NotRun, 0)
  }

  /** The catch block. */
  function OnError(job: Job): Job {
    job.(phase := if job.dlqRequired then DeadLettering else Ended(Dropped))
  }

  predicate Seen(cache: Option<Cache>, slot: Slot, offset: nat) {
    Stored(cache, slot).Some? && offset <= Stored(cache, slot).value
  }

  /** The cache and the job after the job's next awaited call ends with `o`. */
  function Step(cache: Option<Cache>, job: Job, o: Outcome): (Option<Cache>, Job) {
    match job.phase
    case Decoding => (cache, if o.Done? then job.(phase := Beating) else OnError(job))
    case Beating => (cache, job.(phase := Checking))
    case Checking =>
      var next :=
        if cache.None? then Running
        else if o.Faulted? then Ended(CheckFailed)
        else if Seen(cache, job.slot, job.offset) then Ended(AlreadySeen)
        else Running;
      (cache, job.(phase := next))
    case Running =>
      (cache, if o.Done? then job.(phase := Storing, processor := Returned)
              else OnError(job.(processor := Threw)))
    case Storing =>
      (if TookEffect(o) then Store(cache, job.slot, job.offset) else cache, job.(phase := Ended(Completed)))
    case DeadLettering =>
      (cache, job.(phase := Ended(DeadLettered), dlqAttempts := job.dlqAttempts + 1))
    case Ended(_) => (cache, job)
  }

  /** One call of `eachMessage` on its own, its awaited calls ending as `tape` says. */
  function Run(cache: Option<Cache>, job: Job, tape: nat -> Outcome, n: nat): (Option<Cache>, Job) {
    if n == 0 then (cache, job)
    else
      var (c, j) := Run(cache, job, tape, n - 1);
      Step(c, j, tape(n - 1))
  }

  /** What each phase and ending says about the processor and the dead-letter topic. */
  predicate Consistent(job: Job) {
    && (job.dlqAttempts == if job.phase == Ended(DeadLettered) then 1 else 0)
    && match job.phase
       case Decoding | Beating | Checking | Running => job.processor == NotRun
       case Storing => job.processor == Returned
       case DeadLettering => job.dlqRequired && job.processor != Returned
       case Ended(Completed) => job.processor == Returned
       case Ended(AlreadySeen) | Ended(CheckFailed) => job.processor == NotRun
       case Ended(DeadLettered) => job.dlqRequired && job.processor != Returned
       case Ended(Dropped) => !job.dlqRequired && job.processor != Returned
  }

  lemma StepConsistent(cache: Option<Cache>, job: Job, o: Outcome)
    requires Consistent(job)
    ensures Consistent(Step(cache, job, o).1)
    ensures var j := Step(cache, job, o).1;
            j.slot == job.slot && j.offset == job.offset && j.dlqRequired == job.dlqRequired
  {
  }

  /**
   * A processor that returned excludes the dead-letter topic, whatever the heartbeat and the
   * offset write do; a message skipped at the check uses neither.
   */
  lemma {:induction false} SuccessExcludesDlq(cache: Option<Cache>, slot: Slot, offset: nat, dlqRequired: bool,
                                              tape: nat -> Outcome, n: nat)
    ensures var job := Run(cache, Start(slot, offset, dlqRequired), tape, n).1;
            && Consistent(job)
            && (job.processor == Returned ==> job.dlqAttempts == 0)
            && (job.phase in {Ended(AlreadySeen), Ended(CheckFailed)} ==>
                  job.processor == NotRun && job.dlqAttempts == 0)
            && (job.phase.Ended? && dlqRequired && job.processor == Threw ==> job.dlqAttempts == 1)
            && job.slot == slot && job.offset == offset && job.dlqRequired == dlqRequired
  {
    hide Step;
    if n > 0 {
      SuccessExcludesDlq(cache, slot, offset, dlqRequired, tape, n - 1);
      var (c, j) := Run(cache, Start(slot, offset, dlqRequired), tape, n - 1);
      StepConsistent(c, j, tape(n - 1));
    }
  }

  /** The heartbeat's outcome changes nothing: neither the ending nor the cache. */
  lemma {:induction false} HeartbeatNeverMatters(cache: Option<Cache>, slot: Slot, offset: nat, dlqRequired: bool,
                                                 tape: nat -> Outcome, other: nat -> Outcome, n: nat)
    requires forall k: nat | k != 1 :: tape(k) == other(k)
    ensures Run(cache, Start(slot, offset, dlqRequired), tape, n) ==
            Run(cache, Start(slot, offset, dlqRequired), other, n)
  {
    hide Stored, Store, Seen;
    if n > 0 {
      HeartbeatNeverMatters(cache, slot, offset, dlqRequired, tape, other, n - 1);
      if n == 2 {
        FirstCall(cache, slot, offset, dlqRequired, tape);
      }
    }
  }

  lemma FirstCall(cache: Option<Cache>, slot: Slot, offset: nat, dlqRequired: bool, tape: nat -> Outcome)
    ensures Run(cache, Start(slot, offset, dlqRequired), tape, 1) ==
            Step(cache, Start(slot, offset, dlqRequired), tape(0))
  {
    hide Step;
    RunNothing(cache, Start(slot, offset, dlqRequired), tape);
    RunNext(cache, Start(slot, offset, dlqRequired), tape, 0);
  }

  lemma RunNext(cache: Option<Cache>, job: Job, tape: nat -> Outcome, n: nat)
    ensures var (c, j) := Run(cache, job, tape, n);
            Run(cache, job, tape, n + 1) == Step(c, j, tape(n))
  {
    hide Step;
  }

  /** Five awaited calls are always enough. */
  lemma EndsWithinFive(cache: Option<Cache>, slot: Slot, offset: nat, dlqRequired: bool, tape: nat -> Outcome)
    ensures Run(cache, Start(slot, offset, dlqRequired), tape, 5).1.phase.Ended?
  {
    hide Stored, Store, Seen, Run;
    var job := Start(slot, offset, dlqRequired);
    assert Run(cache, job, tape, 0) == (cache, job) by { RunNothing(cache, job, tape); }
    RunNext(cache, job, tape, 0);
    RunNext(cache, job, tape, 1);
    RunNext(cache, job, tape, 2);
    RunNext(cache, job, tape, 3);
    RunNext(cache, job, tape, 4);
  }

  lemma RunNothing(cache: Option<Cache>, job: Job, tape: nat -> Outcome)
    ensures Run(cache, job, tape, 0) == (cache, job)
  {
  }

  // How a call ends, said of its awaited calls alone.

  /** The number stored for the slot is at or above the offset. */
  predicate StoredReaches(cache: Option<Cache>, slot: Slot, offset: nat) {
    cache.Some? && Key(slot) in cache.value &&
    match Decimal.ParseInt(cache.value[Key(slot)])
    case None => false
    case Some(stored) => stored >= offset
  }

  /**
   * The call ends in this way. In order, the awaited calls are: decoding, heartbeat, cache read,
   * processor, and the offset write. A message that cannot be decoded goes past all of them.
   */
  predicate EndsWith(cache: Option<Cache>, slot: Slot, offset: nat, dlqRequired: bool, tape: nat -> Outcome,
                     ending: Ending)
  {
    var decoded := tape(0).Done?;
    var unread := cache.Some? && tape(2).Faulted?;
    var checked := decoded && !unread && !StoredReaches(cache, slot, offset);
    match ending
    case CheckFailed => decoded && unread
    case AlreadySeen => decoded && !unread && StoredReaches(cache, slot, offset)
    case Completed => checked && tape(3).Done?
    case DeadLettered => dlqRequired && (!decoded || (checked && tape(3).Faulted?))
    case Dropped => !dlqRequired && (!decoded || (checked && tape(3).Faulted?))
  }

  /**
   * What a call does, for every pattern of failures: its ending, whether the processor ran and how,
   * and the cache it leaves.
   */
  lemma EndingOfTape(cache: Option<Cache>, slot: Slot, offset: nat, dlqRequired: bool, tape: nat -> Outcome)
    ensures var (c, job) := Run(cache, Start(slot, offset, dlqRequired), tape, 5);
            && job.phase.Ended?
            && (forall ending :: job.phase == Ended(ending) <==>
                                 EndsWith(cache, slot, offset, dlqRequired, tape, ending))
            && (job.processor == Returned <==> job.phase == Ended(Completed))
            && (job.processor == Threw <==>
                  tape(0).Done? && tape(3).Faulted? && job.phase in {Ended(DeadLettered), Ended(Dropped)})
            && (tape(0).Faulted? ==> job.processor == NotRun)
            && job.dlqAttempts == (if job.phase == Ended(DeadLettered) then 1 else 0)
            && c == if job.phase == Ended(Completed) && TookEffect(tape(4)) && cache.Some?
                    then Some(cache.value[Key(slot) := Decimal.Of(offset)]) else cache
  {
    hide Run, Step, Stored, Store, Seen, StoredReaches, Key;
    var job := Start(slot, offset, dlqRequired);
    SeenIs(cache, slot, offset);
    StoreIs(cache, slot, offset);
    if tape(0).Faulted? {
      Undecoded(cache, job, tape);
    } else {
      Decoded(cache, job, tape);
      Checked(cache, job, tape);
    }
  }

  lemma Undecoded(cache: Option<Cache>, job: Job, tape: nat -> Outcome)
    requires job.phase == Decoding && tape(0).Faulted?
    ensures Run(cache, job, tape, 5) ==
            (cache, if job.dlqRequired then job.(phase := Ended(DeadLettered), dlqAttempts := job.dlqAttempts + 1)
                    else job.(phase := Ended(Dropped)))
  {
    hide Run, Stored, Store, Seen;
    RunNothing(cache, job, tape);
    RunNext(cache, job, tape, 0);
    RunNext(cache, job, tape, 1);
    EndedStays(cache, job, tape, 2, 5);
  }

  lemma Decoded(cache: Option<Cache>, job: Job, tape: nat -> Outcome)
    requires job.phase == Decoding && tape(0).Done?
    ensures Run(cache, job, tape, 2) == (cache, job.(phase := Checking))
  {
    hide Run, Stored, Store, Seen;
    RunNothing(cache, job, tape);
    RunNext(cache, job, tape, 0);
    RunNext(cache, job, tape, 1);
  }

  lemma Checked(cache: Option<Cache>, job: Job, tape: nat -> Outcome)
    requires Run(cache, job, tape, 2) == (cache, job.(phase := Checking))
    ensures Run(cache, job, tape, 5) ==
            if cache.Some? && tape(2).Faulted? then (cache, job.(phase := Ended(CheckFailed)))
            else if cache.Some? && Seen(cache, job.slot, job.offset) then (cache, job.(phase := Ended(AlreadySeen)))
            else if tape(3).Done? then
              (if TookEffect(tape(4)) then Store(cache, job.slot, job.offset) else cache,
               job.(phase := Ended(Completed), processor := Returned))
            else if job.dlqRequired then
              (cache, job.(phase := Ended(DeadLettered), processor := Threw, dlqAttempts := job.dlqAttempts + 1))
            else (cache, job.(phase := Ended(Dropped), processor := Threw))
  {
    hide Run, Stored, Store, Seen;
    RunNext(cache, job, tape, 2);
    RunNext(cache, job, tape, 3);
    RunNext(cache, job, tape, 4);
  }

  lemma SeenIs(cache: Option<Cache>, slot: Slot, offset: nat)
    ensures Seen(cache, slot, offset) <==> StoredReaches(cache, slot, offset)
    ensures Seen(cache, slot, offset) ==> cache.Some?
  {
    hide Decimal.ParseInt, Key;
  }

  lemma StoreIs(cache: Option<Cache>, slot: Slot, offset: nat)
    ensures Store(cache, slot, offset) ==
            if cache.Some? then Some(cache.value[Key(slot) := Decimal.Of(offset)]) else None
  {
    hide Key;
  }

  lemma {:induction false} EndedStays(cache: Option<Cache>, job: Job, tape: nat -> Outcome, a: nat, b: nat)
    requires a <= b && Run(cache, job, tape, a).1.phase.Ended?
    ensures Run(cache, job, tape, b) == Run(cache, job, tape, a)
    decreases b
  {
    if a < b {
      EndedStays(cache, job, tape, a, b - 1);
    }
  }

  lemma EndedAt(cache: Option<Cache>, slot: Slot, offset: nat, dlqRequired: bool, tape: nat -> Outcome, n: nat)
    requires n <= 5 && Run(cache, Start(slot, offset, dlqRequired), tape, n).1.phase.Ended?
    ensures var (c, job) := Run(cache, Start(slot, offset, dlqRequired), tape, n);
            && EndsWith(cache, slot, offset, dlqRequired, tape, job.phase.ending)
            && c == if job.phase == Ended(Completed) && TookEffect(tape(4)) && cache.Some?
                    then Some(cache.value[Key(slot) := Decimal.Of(offset)]) else cache
  {
    hide Run, EndsWith, Key;
    EndingOfTape(cache, slot, offset, dlqRequired, tape);
    EndedStays(cache, Start(slot, offset, dlqRequired), tape, n, 5);
  }

  /** How the promise of `eachMessage` settles. */
  datatype Settled = Resolved(ending: Ending) | Rejected

  /** The service: a cache it may have, its dead-letter topic, and the calls that swallow or rethrow. */
  class KafkaConsumerService {
    var cache: Option<Cache>
    var deadLetters: seq<(Slot, nat)>

    constructor (cache: Option<Cache>)
      ensures this.cache == cache && deadLetters == []
    {
      this.cache := cache;
      deadLetters := [];
    }

    /** Swallows a failed heartbeat. */
    method SendHeartbeat(o: Outcome) returns (threw: bool)
      ensures !threw
    {
      return false;
    }

    /** Throws both when the message was seen and when the cache cannot be read. */
    method CheckOffset(slot: Slot, messageOffset: nat, o: Outcome) returns (threw: Option<Ending>)
      ensures threw == match Step(cache, Start(slot, messageOffset, true).(phase := Checking), o).1.phase
                       case Ended(e) => Some(e)
                       case _ => None
    {
      if cache.Some? {
        if o.Faulted? {
          return Some(CheckFailed);
        }
        if Key(slot) in cache.value && cache.value[Key(slot)] != "" {
          var offset := Decimal.ParseInt(cache.value[Key(slot)]);
          if offset.Some? && messageOffset <= offset.value {
            return Some(AlreadySeen);
          }
        }
      }
      return None;
    }

    /** Swallows a failed write. */
    method PublishOffset(slot: Slot, offset: nat, o: Outcome) returns (threw: bool)
      modifies this`cache
      ensures !threw
      ensures cache == if TookEffect(o) then Store(old(cache), slot, offset) else old(cache)
    {
      if cache.Some? && TookEffect(o) {
        cache := Some(cache.value[Key(slot) := Decimal.Of(offset)]);
      }
      return false;
    }

    /** Adds the message to the dead-letter topic; swallows a failed publish. */
    method PublishToDlq(slot: Slot, offset: nat, o: Outcome) returns (threw: bool)
      modifies this`deadLetters
      ensures !threw
      ensures deadLetters == if TookEffect(o) then old(deadLetters) + [(slot, offset)] else old(deadLetters)
    {
      if TookEffect(o) {
        deadLetters := deadLetters + [(slot, offset)];
      }
      return false;
    }

    /**
     * Handles one message. `tape` says how the awaited calls end, in order, the processor's among
     * them; `calls` counts them.
     */
    method EachMessage(slot: Slot, offset: nat, dlqRequired: bool, tape: nat -> Outcome)
      returns (settled: Settled, calls: nat, dlqAttempts: nat)
      modifies this
      ensures settled.Resolved?
      ensures calls <= 5
      ensures var (c, job) := Run(old(cache), Start(slot, offset, dlqRequired), tape, calls);
              && cache == c && job.phase == Ended(settled.ending) && job.dlqAttempts == dlqAttempts
      ensures EndsWith(old(cache), slot, offset, dlqRequired, tape, settled.ending)
      ensures cache == if settled.ending == Completed && TookEffect(tape(4)) && old(cache).Some?
                       then Some(old(cache).value[Key(slot) := Decimal.Of(offset)]) else old(cache)
      ensures dlqAttempts == if settled.ending == DeadLettered then 1 else 0
      ensures deadLetters == if dlqAttempts == 1 && calls > 0 && TookEffect(tape(calls - 1))
                             then old(deadLetters) + [(slot, offset)] else old(deadLetters)
    {
      hide Stored, Store, Seen, Key, EndsWith;
      ghost var job := Start(slot, offset, dlqRequired);
      ghost var before := cache;
      dlqAttempts, calls := 0, 1;
      var failed := tape(0).Faulted?; // decodeMsg rethrows
      if !failed {
        var threw := SendHeartbeat(tape(1));
        assert Run(before, job, tape, 2) == (cache, job.(phase := Checking)) by {
          assert Run(before, job, tape, 1) == (cache, job.(phase := Beating));
        }
        var skip := CheckOffset(slot, offset, tape(2));
        assert Run(before, job, tape, 3) == Step(cache, job.(phase := Checking), tape(2));
        if skip.Some? {
          EndedAt(before, slot, offset, dlqRequired, tape, 3);
          return Resolved(skip.value), 3, 0;
        }
        assert Run(before, job, tape, 3) == (cache, job.(phase := Running));
        failed, calls := tape(3).Faulted?, 4; // runProcessor rethrows
        if !failed {
          assert Run(before, job, tape, 4) == (cache, job.(phase := Storing, processor := Returned));
          threw := PublishOffset(slot, offset, tape(4));
          EndedAt(before, slot, offset, dlqRequired, tape, 5);
          return Resolved(Completed), 5, 0;
        }
        assert Run(before, job, tape, 4) == (cache, OnError(job.(processor := Threw)));
      } else {
        assert Run(before, job, tape, 1) == (cache, OnError(job));
      }
      if !dlqRequired {
        EndedAt(before, slot, offset, dlqRequired, tape, calls);
        return Resolved(Dropped), calls, 0;
      }
      var threw := PublishToDlq(slot, offset, tape(calls));
      settled := if threw then Rejected else Resolved(DeadLettered);
      EndedAt(before, slot, offset, dlqRequired, tape, calls + 1);
      return settled, calls + 1, 1;
    }
  }
}
