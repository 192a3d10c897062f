/**
 The timing wheel: one bucket per second of a day, a tick that visits one bucket, and
 the sweep of the keys found there.
 */
module Wheel {
  import opened Text
  import opened Commands
  import opened Store
  import opened Engine
  import opened Aof

  const WHEEL_SIZE: nat := 86400

  /** A scheduled key; the tag tells entries for the same key apart. */
  datatype WheelEntry = WheelEntry(key: string, tag: nat)

  datatype WheelState = WheelState(buckets: seq<seq<WheelEntry>>, tick: nat)

  predicate WheelOk(w: WheelState) {
    |w.buckets| == WHEEL_SIZE
  }

  /** Whole seconds from the start of the wheel to the expiry, and 0 for an expiry before it. */
  function SecondsFromStart(start: Time, expiry: int): nat {
    var delta := WholeSeconds(expiry - start);
    if delta < 0 then 0 else delta
  }

  /** Seconds are counted in full, and an expiry before the start counts as the start. */
  lemma SecondsAreFull(start: Time, expiry: int)
    ensures var d := SecondsFromStart(start, expiry);
            if expiry < start then d == 0
            else start + d * 1_000_000_000 <= expiry < start + (d + 1) * 1_000_000_000
  {
  }

  function Schedule(w: WheelState, e: WheelEntry, d: nat): WheelState
    requires WheelOk(w)
  {
    var b := d % WHEEL_SIZE;
    w.(buckets := w.buckets[b := w.buckets[b] + [e]])
  }

  /** One tick: the entries of the current bucket are handed out and forgotten. */
  function Advance(w: WheelState): (WheelState, seq<WheelEntry>)
    requires WheelOk(w)
  {
    var b := w.tick % WHEEL_SIZE;
    (WheelState(w.buckets[b := []], w.tick + 1), w.buckets[b])
  }

  datatype WheelEvent = ScheduleEntry(e: WheelEntry, d: nat) | Tick

  /** The batches handed out by the ticks of a run, in order. */
  function Batches(w: WheelState, events: seq<WheelEvent>): seq<seq<WheelEntry>>
    requires WheelOk(w)
    decreases |events|
  {
    if events == [] then []
    else match events[0]
      case ScheduleEntry(e, d) => Batches(Schedule(w, e, d), events[1..])
      case Tick =>
        var (w', batch) := Advance(w);
        [batch] + Batches(w', events[1..])
  }

  /** The first tick, from `tick` on, that visits bucket `b`. */
  function Due(b: nat, tick: nat): nat
    requires b < WHEEL_SIZE
  {
    tick + (b - tick) % WHEEL_SIZE
  }

  lemma DueIsNextVisit(b: nat, tick: nat)
    requires b < WHEEL_SIZE
    ensures tick <= Due(b, tick) < tick + WHEEL_SIZE && Due(b, tick) % WHEEL_SIZE == b
    ensures tick % WHEEL_SIZE != b ==> Due(b, tick + 1) == Due(b, tick)
    ensures tick % WHEEL_SIZE == b <==> Due(b, tick) == tick
  {
  }

  /** `e` is in the wheel once, in bucket `b`. */
  predicate OnlyIn(w: WheelState, e: WheelEntry, b: nat)
    requires WheelOk(w)
  {
    forall i :: 0 <= i < WHEEL_SIZE ==> multiset(w.buckets[i])[e] == if i == b then 1 else 0
  }

  predicate NotIn(w: WheelState, e: WheelEntry)
    requires WheelOk(w)
  {
    forall i :: 0 <= i < WHEEL_SIZE ==> e !in w.buckets[i]
  }

  predicate NeverScheduled(e: WheelEntry, events: seq<WheelEvent>) {
    forall v :: v in events && v.ScheduleEntry? ==> v.e != e
  }

  lemma ScheduleAddsOnce(w: WheelState, e: WheelEntry, d: nat)
    requires WheelOk(w) && NotIn(w, e)
    ensures OnlyIn(Schedule(w, e, d), e, d % WHEEL_SIZE)
  {
    var b := d % WHEEL_SIZE;
    assert multiset(w.buckets[b] + [e])[e] == 1;
  }

  lemma ScheduleOther(w: WheelState, e: WheelEntry, f: WheelEntry, d: nat, i: nat)
    requires WheelOk(w) && e != f && i < WHEEL_SIZE
    ensures multiset(Schedule(w, f, d).buckets[i])[e] == multiset(w.buckets[i])[e]
  {
    var b := d % WHEEL_SIZE;
    assert multiset(w.buckets[b] + [f]) == multiset(w.buckets[b]) + multiset{f};
  }

  lemma {:induction false} NotInNeverHandled(w: WheelState, e: WheelEntry, events: seq<WheelEvent>)
    requires WheelOk(w) && NotIn(w, e) && NeverScheduled(e, events)
    ensures forall j :: 0 <= j < |Batches(w, events)| ==> multiset(Batches(w, events)[j])[e] == 0
    decreases |events|
  {
    if events != [] {
      match events[0]
      case ScheduleEntry(f, d) =>
        NotInNeverHandled(Schedule(w, f, d), e, events[1..]);
      case Tick =>
        NotInNeverHandled(Advance(w).0, e, events[1..]);
    }
  }

  /**
   Whatever else is scheduled in between, an entry is handed out exactly once, by the tick
   that next visits its bucket, which is less than a whole turn of the wheel away.
   */
  lemma {:induction false} HandledExactlyOnce(w: WheelState, e: WheelEntry, b: nat, events: seq<WheelEvent>)
    requires WheelOk(w) && b < WHEEL_SIZE && OnlyIn(w, e, b) && NeverScheduled(e, events)
    ensures forall j :: 0 <= j < |Batches(w, events)| ==>
              multiset(Batches(w, events)[j])[e] == if w.tick + j == Due(b, w.tick) then 1 else 0
    ensures Due(b, w.tick) < w.tick + WHEEL_SIZE
    decreases |events|
  {
    DueIsNextVisit(b, w.tick);
    if events != [] {
      match events[0]
      case ScheduleEntry(f, d) =>
        forall i | 0 <= i < WHEEL_SIZE
          ensures multiset(Schedule(w, f, d).buckets[i])[e] == multiset(w.buckets[i])[e]
        {
          ScheduleOther(w, e, f, d, i);
        }
        HandledExactlyOnce(Schedule(w, f, d), e, b, events[1..]);
      case Tick =>
        var w' := Advance(w).0;
        if w.tick % WHEEL_SIZE == b {
          assert NotIn(w', e);
          NotInNeverHandled(w', e, events[1..]);
        } else {
          HandledExactlyOnce(w', e, b, events[1..]);
        }
    }
  }

  /**
   An entry scheduled `d` seconds after the start is handled by exactly the call that
   advances the tick from d to d+1, if and only if d is neither in the past nor a whole
   turn of the wheel ahead.
   */
  lemma HandledOnTime(w: WheelState, e: WheelEntry, d: nat, events: seq<WheelEvent>)
    requires WheelOk(w) && NotIn(w, e) && NeverScheduled(e, events)
    ensures Due(d % WHEEL_SIZE, w.tick) == d <==> w.tick <= d < w.tick + 86400
    ensures w.tick <= d < w.tick + 86400 ==>
              var batches := Batches(Schedule(w, e, d), events);
              forall j :: 0 <= j < |batches| ==> multiset(batches[j])[e] == if w.tick + j == d then 1 else 0
  {
    ScheduleAddsOnce(w, e, d);
    HandledExactlyOnce(Schedule(w, e, d), e, d % WHEEL_SIZE, events);
    DueOnTime(d, w.tick);
  }

  lemma DueOnTime(d: nat, tick: nat)
    ensures Due(d % WHEEL_SIZE, tick) == d <==> tick <= d < tick + WHEEL_SIZE
    ensures d >= tick + WHEEL_SIZE ==> Due(d % WHEEL_SIZE, tick) < d
  {
    DueIsNextVisit(d % WHEEL_SIZE, tick);
  }

  /** A tick that does not run early finds the entry it was scheduled for expired. */
  lemma OnTimeIsExpired(start: Time, entry: Entry, now: Time)
    requires ExpirationTime(entry).Some? && entry.createdAt <= now
    requires var d := SecondsFromStart(start, ExpirationTime(entry).value); now >= start + (d + 1) * SECOND
    ensures IsExpired(entry, now)
  {
    ExpiredIsDeadlinePassed(entry, now);
  }

  /** The sweeper sleeps at least a second before each tick, so tick d runs no earlier than d+1 seconds. */
  lemma {:induction false} SweeperNeverEarly(start: Time, times: seq<Time>, d: nat)
    requires d < |times|
    requires times[0] >= start + SECOND
    requires forall i :: 0 <= i < |times| - 1 ==> times[i + 1] >= times[i] + SECOND
    ensures times[d] >= start + (d + 1) * SECOND
  {
    if d > 0 {
      SweeperNeverEarly(start, times, d - 1);
      assert times[d - 1 + 1] >= times[d - 1] + SECOND;
    }
  }

  /**
   Why the default TTL is a boundary: an entry created with it is always a whole turn ahead.
   It is handed out early, exactly once; a visit before its deadline finds it alive and sweeps
   nothing, and no later tick hands it out again.
   */
  lemma DefaultTtlIsForgotten(w: WheelState, e: WheelEntry, start: Time, entry: Entry, events: seq<WheelEvent>,
                              m: Table, now: Time)
    requires WheelOk(w) && NotIn(w, e) && NeverScheduled(e, events)
    requires entry.ttl == DEFAULT_TTL && !entry.tombstoned && start + w.tick * SECOND <= entry.createdAt <= now
    requires e.key in m && m[e.key] == entry
    ensures var deadline := entry.createdAt + 86400 * 1_000_000_000;
            var d := SecondsFromStart(start, deadline);
            var due, batches := Due(d % WHEEL_SIZE, w.tick), Batches(Schedule(w, e, d), events);
            && ExpirationTime(entry) == Some(deadline)
            && due < w.tick + 86400 <= d
            && (forall j :: 0 <= j < |batches| ==> multiset(batches[j])[e] == if w.tick + j == due then 1 else 0)
            && (Sweep(m, e.key, now) == (m, []) <==> now < deadline)
  {
    var deadline := entry.createdAt + WHEEL_SIZE * SECOND;
    var d := SecondsFromStart(start, deadline);
    WholeTurnAhead(start, w.tick, entry.createdAt);
    ScheduleAddsOnce(w, e, d);
    HandledExactlyOnce(Schedule(w, e, d), e, d % WHEEL_SIZE, events);
    ExpiredIsDeadlinePassed(entry, now);
  }

  lemma WholeTurnAhead(start: Time, tick: nat, created: Time)
    requires start + tick * SECOND <= created
    ensures SecondsFromStart(start, created + WHEEL_SIZE * SECOND) >= tick + WHEEL_SIZE
  {
    var delta := created + WHEEL_SIZE * SECOND - start;
    assert delta >= (tick + WHEEL_SIZE) * SECOND;
  }

  // ----- Sweeping a batch

  function SweepAll(m: Table, batch: seq<WheelEntry>, now: Time): (Table, seq<string>)
    decreases |batch|
  {
    if batch == [] then (m, [])
    else
      var (m', line) := Sweep(m, batch[0].key, now);
      var (m'', lines) := SweepAll(m', batch[1..], now);
      (m'', line + lines)
  }

  lemma SweepAllOfNothing(m: Table, now: Time)
    ensures SweepAll(m, [], now) == (m, [])
  {
  }

  lemma {:induction false} SweepAllOfAppend(m: Table, a: seq<WheelEntry>, e: WheelEntry, now: Time)
    ensures var (m', lines) := SweepAll(m, a, now);
            var (m'', line) := Sweep(m', e.key, now);
            SweepAll(m, a + [e], now) == (m'', lines + line)
    decreases |a|
  {
    if a == [] {
      assert a + [e] == [e] && [e][1..] == [];
      var line := Sweep(m, e.key, now).1;
      assert line + [] == [] + line;
    } else {
      assert (a + [e])[1..] == a[1..] + [e];
      var (m', first) := Sweep(m, a[0].key, now);
      SweepAllOfAppend(m', a[1..], e, now);
      var (m'', lines) := SweepAll(m', a[1..], now);
      assert first + (lines + Sweep(m'', e.key, now).1) == first + lines + Sweep(m'', e.key, now).1;
    }
  }

  class TimingWheel {
    const router: ShardRouter
    const aof: AofLogger
    var buckets: array<seq<WheelEntry>>
    var startTime: Time
    var currentTick: nat

    ghost predicate Valid()
      reads this
    {
      buckets.Length == WHEEL_SIZE
    }

    ghost function State(): WheelState
      reads this, buckets
    {
      WheelState(buckets[..], currentTick)
    }

    constructor (router: ShardRouter, aof: AofLogger, now: Time)
      ensures Valid() && fresh(buckets) && this.router == router && this.aof == aof
      ensures startTime == now && currentTick == 0
      ensures forall i :: 0 <= i < WHEEL_SIZE ==> buckets[i] == []
    {
      this.router, this.aof := router, aof;
      startTime, currentTick := now, 0;
      buckets := new seq<WheelEntry>[WHEEL_SIZE](_ => []);
    }

    method ScheduleKey(key: string, tag: nat, expiry: int)
      requires Valid()
      modifies buckets
      ensures Valid()
      ensures State() == Schedule(old(State()), WheelEntry(key, tag), SecondsFromStart(startTime, expiry))
    {
      var delta := WholeSeconds(expiry - startTime);
      if delta < 0 {
        delta := 0;
      }
      var b := delta % WHEEL_SIZE;
      buckets[b] := buckets[b] + [WheelEntry(key, tag)];
    }

    /** The critical section of a tick: the current bucket is taken out. */
    method TakeBucket() returns (expired: seq<WheelEntry>)
      requires Valid()
      modifies this`currentTick, buckets
      ensures Valid() && (State(), expired) == Advance(old(State()))
    {
      var idx := currentTick % WHEEL_SIZE;
      expired := buckets[idx];
      buckets[idx] := [];
      currentTick := currentTick + 1;
    }

    /** Takes one bucket out, then sweeps its keys one by one and logs a DEL for each that goes. */
    method AdvanceTick(now: Time)
      requires Valid() && router.Valid() && aof.Valid()
      modifies this`currentTick, buckets, router`contents, router.shards, aof
      ensures Valid() && router.Valid() && aof.Valid()
      ensures State() == Advance(old(State())).0
      ensures var batch := Advance(old(State())).1;
              var (m, lines) := SweepAll(old(router.contents), batch, now);
              router.contents == m && Logged(aof, lines)
    {
      hide Inv, SweepAll, Sweep, Advance;
      var expired := TakeBucket();
      SweepBatch(expired, now);
    }

    method SweepBatch(expired: seq<WheelEntry>, now: Time)
      requires router.Valid() && aof.Valid()
      modifies router`contents, router.shards, aof
      ensures router.Valid() && aof.Valid()
      ensures var (m, lines) := SweepAll(old(router.contents), expired, now);
              router.contents == m && Logged(aof, lines)
    {
      hide Inv, SweepAll, Sweep, Took;
      ghost var m, start := router.contents, aof.State();
      SweepAllOfNothing(m, now);
      TookNothing(start, aof.replaying);
      for i := 0 to |expired|
        invariant router.Valid() && aof.Valid() && router.shards == old(router.shards)
        invariant aof.replaying == old(aof.replaying)
        invariant router.contents == SweepAll(m, expired[..i], now).0
        invariant aof.State() == Took(start, aof.replaying, SweepAll(m, expired[..i], now).1)
      {
        SweepAllOfAppend(m, expired[..i], expired[i], now);
        assert expired[..i + 1] == expired[..i] + [expired[i]];
        TookMore(start, aof.replaying, SweepAll(m, expired[..i], now).1, Sweep(router.contents, expired[i].key, now).1);
        SweepKey(expired[i].key, now);
      }
      assert expired[..|expired|] == expired;
    }

    /** One entry: evicted under the shard's lock, then logged. */
    method SweepKey(key: string, now: Time)
      requires router.Valid() && aof.Valid()
      modifies router`contents, router.shards, aof
      ensures router.Valid() && aof.Valid() && router.shards == old(router.shards)
      ensures router.contents == Sweep(old(router.contents), key, now).0
      ensures Logged(aof, Sweep(old(router.contents), key, now).1)
    {
      hide Inv;
      var evicted := router.EvictExpired(key, now);
      if evicted && !aof.replaying {
        aof.LogCommand("DEL " + key);
      }
    }
  }
}
