/** Many handlers, one cache: redelivery, crashes and concurrency in any order. */
module OffsetGuard {
  import opened Wrappers
  import opened Effects
  import opened KafkaConsumer
  import Decimal

  /** Offsets up to here are exact as JavaScript numbers. */
  const MAX_OFFSET := 0x1F_FFFF_FFFF_FFFF

  /** Kafka topic names hold no colon. */
  predicate Legal(slot: Slot) {
    ':' !in slot.topic
  }

  // One register per slot behind the string keys.

  lemma {:induction false} FirstColon(a: string, b: string, x: string, y: string)
    requires ':' !in a && ':' !in b && a + ":" + x == b + ":" + y
    ensures a == b && x == y
  {
    var s, t := a + ":" + x, b + ":" + y;
    assert s[0] == (if a == "" then ':' else a[0]) && t[0] == (if b == "" then ':' else b[0]);
    if a == "" {
      assert s[1..] == x && t[1..] == y;
    } else {
      assert s[0] == a[0] && t[0] == b[0];
      assert s[1..] == a[1..] + ":" + x && t[1..] == b[1..] + ":" + y;
      FirstColon(a[1..], b[1..], x, y);
      assert a == [a[0]] + a[1..] && b == [b[0]] + b[1..];
    }
  }

  lemma {:induction false} LastColon(a: string, b: string, x: string, y: string)
    requires ':' !in x && ':' !in y && a + ":" + x == b + ":" + y
    ensures a == b && x == y
    decreases |x|
  {
    var s, t := a + ":" + x, b + ":" + y;
    assert s[|s| - 1] == (if x == "" then ':' else x[|x| - 1]) && t[|t| - 1] == (if y == "" then ':' else y[|y| - 1]);
    if x == "" {
      assert s[..|a|] == a && t[..|b|] == b;
    } else {
      assert s[|s| - 1] == x[|x| - 1] && t[|t| - 1] == y[|y| - 1];
      assert s[..|s| - 1] == a + ":" + x[..|x| - 1] && t[..|t| - 1] == b + ":" + y[..|y| - 1];
      LastColon(a, b, x[..|x| - 1], y[..|y| - 1]);
      assert x == x[..|x| - 1] + [x[|x| - 1]] && y == y[..|y| - 1] + [y[|y| - 1]];
    }
  }

  /** Colons in the group do not make two slots share a key. */
  lemma KeyInjective(a: Slot, b: Slot)
    requires Legal(a) && Legal(b) && Key(a) == Key(b)
    ensures a == b
  {
    var p, q := Decimal.Of(a.partition), Decimal.Of(b.partition);
    LastColon(a.topic + ":" + a.group, b.topic + ":" + b.group, p, q);
    FirstColon(a.topic, b.topic, a.group, b.group);
    Decimal.OfInjective(a.partition, b.partition);
  }

  /** A write to one slot is read back there and nowhere else. */
  lemma StoreIsOneRegister(cache: Option<Cache>, slot: Slot, offset: nat, other: Slot)
    requires Legal(slot) && Legal(other)
    ensures Stored(Store(cache, slot, offset), other) ==
            if other == slot && cache.Some? then Some(offset) else Stored(cache, other)
  {
    hide Key, Decimal.ParseInt, Decimal.Of;
    Decimal.ParseIntOf(offset);
    if Key(slot) == Key(other) {
      KeyInjective(slot, other);
    }
  }

  // The system of handlers.

  /** `starts` records every start of the processor. */
  datatype State = State(cache: Option<Cache>, jobs: map<nat, Job>, starts: seq<(Slot, nat)>)

  datatype Action =
    | Deliver(id: nat, slot: Slot, offset: nat, dlqRequired: bool)
    | Advance(id: nat, o: Outcome)
    | Crash(id: nat)

  predicate Active(s: State, id: nat) {
    id in s.jobs && !s.jobs[id].phase.Ended?
  }

  function Do(s: State, a: Action): State {
    match a
    case Deliver(id, slot, offset, dlqRequired) =>
      if id in s.jobs || !Legal(slot) || offset > MAX_OFFSET then s
      else s.(jobs := s.jobs[id := Start(slot, offset, dlqRequired)])
    case Advance(id, o) =>
      if !Active(s, id) then s
      else
        var (cache, job) := Step(s.cache, s.jobs[id], o);
        State(cache, s.jobs[id := job],
              if job.phase == Running then s.starts + [(job.slot, job.offset)] else s.starts)
    case Crash(id) => s.(jobs := s.jobs - {id})
  }

  function Perform(s: State, actions: seq<Action>): State
    decreases |actions|
  {
    if actions == [] then s else Perform(Do(s, actions[0]), actions[1..])
  }

  /** One active handler per slot. */
  ghost predicate Exclusive(s: State) {
    forall i, j | Active(s, i) && Active(s, j) && i != j :: s.jobs[i].slot != s.jobs[j].slot
  }

  ghost predicate ExclusiveThroughout(s: State, actions: seq<Action>)
    decreases |actions|
  {
    Exclusive(s) && (actions != [] ==> ExclusiveThroughout(Do(s, actions[0]), actions[1..]))
  }

  /** A handler past the check holds an offset above the stored one. */
  ghost predicate Guarded(s: State) {
    && (forall id | id in s.jobs :: Legal(s.jobs[id].slot))
    && forall id | id in s.jobs && s.jobs[id].phase in {Running, Storing} ::
         var stored := Stored(s.cache, s.jobs[id].slot);
         stored.Some? ==> s.jobs[id].offset > stored.value
  }

  predicate NotBelow(before: Option<int>, after: Option<int>) {
    before.Some? ==> after.Some? && before.value <= after.value
  }

  /** Every processor start that `later` adds to `earlier` is above what was stored for its slot. */
  ghost predicate StartsAbove(earlier: State, later: State) {
    && earlier.starts <= later.starts
    && forall k | |earlier.starts| <= k < |later.starts| ::
         var stored := Stored(earlier.cache, later.starts[k].0);
         stored.Some? ==> later.starts[k].1 > stored.value
  }

  ghost predicate OffsetsRise(earlier: State, later: State) {
    forall slot | Legal(slot) :: NotBelow(Stored(earlier.cache, slot), Stored(later.cache, slot))
  }

  lemma StepKeepsSlot(cache: Option<Cache>, job: Job, o: Outcome)
    ensures var (c, j) := Step(cache, job, o);
            && j.slot == job.slot && j.offset == job.offset && j.dlqRequired == job.dlqRequired
            && (c == cache || (job.phase == Storing && c == Store(cache, job.slot, job.offset)))
            && (c.Some? <==> cache.Some?)
            && (j.phase == Running ==> job.phase == Checking && !Seen(cache, job.slot, job.offset))
            && (j.phase == Storing ==> job.phase == Running)
            && (job.phase == Storing ==> j.phase == Ended(Completed))
  {
    hide Key;
  }

  lemma StepRaises(s: State, id: nat, o: Outcome)
    requires Guarded(s) && Active(s, id)
    ensures OffsetsRise(s, Do(s, Advance(id, o)))
    ensures StartsAbove(s, Do(s, Advance(id, o)))
  {
    hide Step, Stored, Store, Key;
    var job := s.jobs[id];
    StepKeepsSlot(s.cache, job, o);
    var c := Step(s.cache, job, o).0;
    forall slot | Legal(slot) ensures NotBelow(Stored(s.cache, slot), Stored(c, slot)) {
      if c != s.cache {
        StoreIsOneRegister(s.cache, job.slot, job.offset, slot);
      }
    }
  }

  lemma StepStaysGuarded(s: State, id: nat, o: Outcome)
    requires Guarded(s) && Active(s, id) && Exclusive(s)
    ensures Guarded(Do(s, Advance(id, o)))
  {
    hide Step, Stored, Store, Key;
    var job := s.jobs[id];
    var t := Do(s, Advance(id, o));
    StepKeepsSlot(s.cache, job, o);
    forall i | i in t.jobs && t.jobs[i].phase in {Running, Storing}
      ensures var stored := Stored(t.cache, t.jobs[i].slot);
              stored.Some? ==> t.jobs[i].offset > stored.value
    {
      if i != id {
        assert Active(s, i);
        if t.cache != s.cache {
          StoreIsOneRegister(s.cache, job.slot, job.offset, s.jobs[i].slot);
        }
      }
    }
  }

  lemma ActionStaysGuarded(s: State, a: Action)
    requires Guarded(s) && Exclusive(s)
    ensures Guarded(Do(s, a)) && OffsetsRise(s, Do(s, a)) && StartsAbove(s, Do(s, a))
    ensures s.cache.Some? <==> Do(s, a).cache.Some?
  {
    hide Step, Stored, Store, Key;
    match a
    case Deliver(id, slot, offset, dlqRequired) =>
    case Advance(id, o) =>
      if Active(s, id) {
        StepRaises(s, id, o);
        StepStaysGuarded(s, id, o);
        StepKeepsSlot(s.cache, s.jobs[id], o);
      }
    case Crash(id) =>
  }

  lemma RiseTransitive(a: State, b: State, c: State)
    requires OffsetsRise(a, b) && OffsetsRise(b, c) && StartsAbove(a, b) && StartsAbove(b, c)
    requires forall k | |b.starts| <= k < |c.starts| :: Legal(c.starts[k].0)
    ensures OffsetsRise(a, c) && StartsAbove(a, c)
  {
    hide Stored, Legal;
    forall k | |a.starts| <= k < |c.starts|
      ensures var stored := Stored(a.cache, c.starts[k].0);
              stored.Some? ==> c.starts[k].1 > stored.value
    {
      if k < |b.starts| {
        assert c.starts[k] == b.starts[k];
      } else {
        assert NotBelow(Stored(a.cache, c.starts[k].0), Stored(b.cache, c.starts[k].0));
      }
    }
  }

  predicate StartsLegal(s: State) {
    forall k | 0 <= k < |s.starts| :: Legal(s.starts[k].0)
  }

  lemma ActionKeepsStartsLegal(s: State, a: Action)
    requires Guarded(s) && StartsLegal(s)
    ensures StartsLegal(Do(s, a))
  {
    hide Step, Stored, Legal;
    if a.Advance? && Active(s, a.id) {
      StepKeepsSlot(s.cache, s.jobs[a.id], a.o);
    }
  }

  /**
   * With one active handler per slot, over any redeliveries, crashes and failures: the stored
   * offset of a slot never falls, and no later processor start is at or below it.
   */
  lemma {:induction false} OffsetsGuardRuns(s: State, actions: seq<Action>)
    requires Guarded(s) && StartsLegal(s) && ExclusiveThroughout(s, actions)
    ensures var t := Perform(s, actions);
            Guarded(t) && StartsLegal(t) && OffsetsRise(s, t) && StartsAbove(s, t)
    decreases |actions|
  {
    hide Do, Guarded, StartsLegal, Legal, Exclusive;
    if actions == [] {
      NothingRises(s);
    } else {
      var next := Do(s, actions[0]);
      ActionStaysGuarded(s, actions[0]);
      ActionKeepsStartsLegal(s, actions[0]);
      OffsetsGuardRuns(next, actions[1..]);
      var t := Perform(next, actions[1..]);
      StartsLegalMeans(t);
      RiseTransitive(s, next, t);
    }
  }

  lemma StartsLegalMeans(s: State)
    requires StartsLegal(s)
    ensures forall k | 0 <= k < |s.starts| :: Legal(s.starts[k].0)
  {
  }

  lemma NothingRises(s: State)
    ensures OffsetsRise(s, s) && StartsAbove(s, s)
  {
  }

  /** Fresh handlers over any cache content satisfy the invariant. */
  lemma FreshIsGuarded(cache: Option<Cache>)
    ensures var s := State(cache, map[], []); Guarded(s) && StartsLegal(s) && Exclusive(s)
  {
  }

  // Why one active handler per slot is needed.

  predicate Ready(s: State, id: nat, slot: Slot, offset: nat) {
    Legal(slot) && offset <= MAX_OFFSET && id in s.jobs && s.jobs[id] == Start(slot, offset, true)
    && s.cache.Some? && Stored(s.cache, slot).None?
  }

  /** A handler taken up to its offset write, nothing failing. */
  function ToStoring(id: nat): seq<Action> {
    [Advance(id, Done("")), Advance(id, Done("")), Advance(id, Done("")), Advance(id, Done(""))]
  }

  lemma PerformConcat(s: State, a: seq<Action>, b: seq<Action>)
    ensures Perform(s, a + b) == Perform(Perform(s, a), b)
    decreases |a|
  {
    hide Do;
    if a == [] {
      assert a + b == b;
    } else {
      assert (a + b)[1..] == a[1..] + b;
      PerformConcat(Do(s, a[0]), a[1..], b);
    }
  }

  lemma PerformTwo(s: State, a: Action, rest: seq<Action>)
    ensures Perform(s, [a] + rest) == Perform(Do(s, a), rest)
  {
    hide Do;
    assert ([a] + rest)[1..] == rest;
  }

  lemma ReachesStoring(s: State, id: nat, slot: Slot, offset: nat)
    requires Ready(s, id, slot, offset)
    ensures var t := Perform(s, ToStoring(id));
            && t.cache == s.cache && t.starts == s.starts + [(slot, offset)]
            && t.jobs == s.jobs[id := Job(slot, offset, true, Storing, Returned, 0)]
  {
    hide Stored, Perform, Legal;
    var a := Advance(id, Done(""));
    var s1 := Do(s, a);
    var s2 := Do(s1, a);
    var s3 := Do(s2, a);
    var s4 := Do(s3, a);
    assert s1.jobs == s.jobs[id := s1.jobs[id]] && s1.jobs[id].phase == Beating;
    assert s2.jobs == s.jobs[id := s2.jobs[id]] && s2.jobs[id].phase == Checking;
    assert s3.jobs == s.jobs[id := s3.jobs[id]] && s3.jobs[id].phase == Running;
    assert s4.jobs == s.jobs[id := s4.jobs[id]] && s4.jobs[id].phase == Storing;
    assert ToStoring(id) == [a] + ([a] + ([a] + ([a] + [])));
    PerformTwo(s, a, [a] + ([a] + ([a] + [])));
    PerformTwo(s1, a, [a] + ([a] + []));
    PerformTwo(s2, a, [a] + []);
    PerformTwo(s3, a, []);
    PerformNothing(s4);
  }

  lemma PerformNothing(s: State)
    ensures Perform(s, []) == s
  {
  }

  /** Two handlers of one slot both past the check: the stored offset falls from 6 to 5. */
  lemma SharedSlotFallsBack(slot: Slot)
    requires Legal(slot)
    ensures exists actions: seq<Action>, more: seq<Action> ::
              var s := Perform(State(Some(map[]), map[], []), actions);
              Stored(s.cache, slot) == Some(6) && Stored(Perform(s, more).cache, slot) == Some(5)
  {
    hide Perform, Legal, Stored, Key;
    var s0 := State(Some(map[]), map[], []);
    var d5, d6 := Deliver(0, slot, 5, true), Deliver(1, slot, 6, true);
    var store5, store6 := Advance(0, Done("")), Advance(1, Done(""));
    EmptyCache(slot);
    var s1 := Do(s0, d5);
    var s2 := Do(s1, d6);
    ReachesStoring(s2, 0, slot, 5);
    var s3 := Perform(s2, ToStoring(0));
    ReachesStoring(s3, 1, slot, 6);
    var s4 := Perform(s3, ToStoring(1));
    var s5 := Do(s4, store6);
    var actions := [d5] + ([d6] + (ToStoring(0) + (ToStoring(1) + ([store6] + []))));
    PerformTwo(s0, d5, [d6] + (ToStoring(0) + (ToStoring(1) + ([store6] + []))));
    PerformTwo(s1, d6, ToStoring(0) + (ToStoring(1) + ([store6] + [])));
    PerformConcat(s2, ToStoring(0), ToStoring(1) + ([store6] + []));
    PerformConcat(s3, ToStoring(1), [store6] + []);
    PerformTwo(s4, store6, []);
    PerformNothing(s5);
    var s6 := Do(s5, store5);
    PerformTwo(s5, store5, []);
    PerformNothing(s6);
    StoreIsOneRegister(s4.cache, slot, 6, slot);
    StoreIsOneRegister(s5.cache, slot, 5, slot);
    assert s5 == Perform(s0, actions) && s6 == Perform(s5, [store5] + []);
  }

  lemma EmptyCache(slot: Slot)
    ensures Stored(Some(map[]), slot).None?
  {
  }
}
