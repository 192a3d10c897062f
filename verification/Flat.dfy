/**
 The tombstoned, lazily expiring table behaves like one flat map from keys to live
 values with deadlines, and sweeping it cannot be observed.
 */
module Flat {
  import opened Text
  import opened Commands
  import opened Resp
  import opened Store

  datatype Live = Live(data: Data, deadline: Option<Time>)

  type FlatMap = map<string, Live>

  function Lookup(f: FlatMap, k: string, now: Time): Option<Live> {
    if k in f && !Passed(f[k].deadline, now) then Some(f[k]) else None
  }

  function Deadline(now: Time, ttl: Int64): Option<Time> {
    if ttl < 0 then None else Some(now + ttl * SECOND)
  }

  /** The commands on the flat map: deleting removes, a passed deadline hides. */
  function FlatExec(f: FlatMap, c: Command, now: Time, oom: bool): (FlatMap, Value) {
    match c
    case Ping => (f, Simple("PONG"))
    case Set(k, v, ttl) =>
      if oom then (f, OOM_ERROR) else (f[k := Live(Str(v), Deadline(now, ttl))], Simple("OK"))
    case Get(k) =>
      (f, match Lookup(f, k, now) case Some(e) => Bulk(GetText(e.data)) case None => Nil)
    case Del(k) => (f - {k}, Flag(Lookup(f, k, now).Some?))
    case Exists(k) => (f, Flag(Lookup(f, k, now).Some?))
    case LPush(k, v, ttl) =>
      if oom then (f, OOM_ERROR)
      else (
        match Lookup(f, k, now)
        case None => (f[k := Live(List([v]), Deadline(now, ttl))], Integer(1))
        case Some(Live(List(l), d)) => (f[k := Live(List(l + [v]), d)], Integer(|l| + 1))
        case Some(_) => (f, WRONG_TYPE)
      )
    case LRange(k, start, stop) =>
      (f, match Lookup(f, k, now)
          case None => Array([])
          case Some(Live(List(l), _)) => Array(Bulks(Range(l, start, stop)))
          case Some(_) => WRONG_TYPE)
    case HSet(k, fld, v, ttl) =>
      if oom then (f, OOM_ERROR)
      else (
        match Lookup(f, k, now)
        case None => (f[k := Live(Hash(map[fld := v]), Deadline(now, ttl))], Integer(1))
        case Some(Live(Hash(h), d)) => (f[k := Live(Hash(h[fld := v]), d)], Flag(fld !in h))
        case Some(_) => (f, WRONG_TYPE)
      )
    case HGet(k, fld) =>
      (f, match Lookup(f, k, now)
          case None => Nil
          case Some(Live(Hash(h), _)) => if fld in h then Bulk(h[fld]) else Nil
          case Some(_) => WRONG_TYPE)
  }

  // ----- Refinement

  function Seen(m: Table, k: string, now: Time): Option<Live> {
    if Visible(m, k, now) then Some(Live(m[k].data, ExpirationTime(m[k]))) else None
  }

  predicate NothingFromFuture(m: Table, now: Time) {
    forall k :: k in m ==> m[k].createdAt <= now
  }

  /** From `now` on, a key shows in the table exactly when, and with what, it shows in the flat map. */
  ghost predicate Refines(m: Table, f: FlatMap, now: Time) {
    && NothingFromFuture(m, now)
    && forall k: string, t: Time :: t >= now ==> Seen(m, k, t) == Lookup(f, k, t)
  }

  lemma RefinesLater(m: Table, f: FlatMap, now: Time, later: Time)
    requires Refines(m, f, now) && now <= later
    ensures Refines(m, f, later)
  {
  }

  /** Key by key: an entry that has just been written shows as its flat image. */
  lemma SeenOfEntry(m: Table, k: string, e: Entry, t: Time)
    requires k in m && m[k] == e && e.createdAt <= t
    ensures Seen(m, k, t) ==
            if e.tombstoned || Passed(ExpirationTime(e), t) then None
            else Some(Live(e.data, ExpirationTime(e)))
  {
    ExpiredIsDeadlinePassed(e, t);
  }

  /** Replacing one entry on both sides by images of each other keeps the refinement. */
  lemma UpdateRefines(m: Table, f: FlatMap, k: string, e: Entry, now: Time)
    requires Refines(m, f, now) && e.createdAt <= now && !e.tombstoned
    ensures Refines(m[k := e], f[k := Live(e.data, ExpirationTime(e))], now)
  {
    var m', f' := m[k := e], f[k := Live(e.data, ExpirationTime(e))];
    forall j: string, t: Time | t >= now
      ensures Seen(m', j, t) == Lookup(f', j, t)
    {
      if j == k {
        SeenOfEntry(m', k, e, t);
      } else {
        assert Seen(m', j, t) == Seen(m, j, t);
      }
    }
  }

  lemma DeleteRefines(m: Table, m': Table, f: FlatMap, k: string, now: Time)
    requires Refines(m, f, now)
    requires m' == m - {k} || (k in m && m' == m[k := m[k].(tombstoned := true)]) || (m' == m && !Deletable(m, k))
    ensures Refines(m', f - {k}, now)
  {
    forall j: string, t: Time | t >= now
      ensures Seen(m', j, t) == Lookup(f - {k}, j, t)
    {
      if j != k {
        assert Seen(m', j, t) == Seen(m, j, t);
      }
    }
  }

  /** DEL counts an entry that has expired but has not been swept yet. */
  predicate StaleDel(m: Table, c: Command, now: Time) {
    c.Del? && Deletable(m, c.key) && IsExpired(m[c.key], now)
  }

  /** A command that writes stores one entry whose image the flat map stores too. */
  lemma WriteRefines(m: Table, f: FlatMap, c: Command, now: Time, oom: bool)
    requires Refines(m, f, now) && (c.Set? || c.LPush? || c.HSet?)
    ensures Refines(Exec(m, c, now, oom).table, FlatExec(f, c, now, oom).0, now)
  {
    assert Seen(m, c.key, now) == Lookup(f, c.key, now);
    var m' := Exec(m, c, now, oom).table;
    if Exec(m, c, now, oom).log != [] {
      UpdateRefines(m, f, c.key, m'[c.key], now);
    }
  }

  lemma ReplyMatches(m: Table, f: FlatMap, c: Command, now: Time, oom: bool)
    requires Refines(m, f, now)
    ensures Exec(m, c, now, oom).reply == FlatExec(f, c, now, oom).1 <==> !StaleDel(m, c, now)
  {
    if !c.Ping? {
      assert Seen(m, c.key, now) == Lookup(f, c.key, now);
    }
  }

  /** One command: same effect, and the same reply unless it is the DEL of an expired unswept key. */
  lemma ExecRefines(m: Table, f: FlatMap, c: Command, now: Time, oom: bool)
    requires Refines(m, f, now)
    ensures Refines(Exec(m, c, now, oom).table, FlatExec(f, c, now, oom).0, now)
    ensures Exec(m, c, now, oom).reply == FlatExec(f, c, now, oom).1 <==> !StaleDel(m, c, now)
  {
    ReplyMatches(m, f, c, now, oom);
    if c.Set? || c.LPush? || c.HSet? {
      WriteRefines(m, f, c, now, oom);
    } else if c.Del? {
      hide Refines;
      DeleteRefines(m, Exec(m, c, now, oom).table, f, c.key, now);
    }
  }

  /** Sweeping a key changes nothing that can be seen, now or later. */
  lemma SweepRefines(m: Table, f: FlatMap, k: string, now: Time)
    requires Refines(m, f, now)
    ensures Refines(Sweep(m, k, now).0, f, now)
  {
    var m' := Sweep(m, k, now).0;
    if Sweepable(m, k, now) {
      forall j: string, t: Time | t >= now
        ensures Seen(m', j, t) == Lookup(f, j, t)
      {
        assert Seen(m, j, t) == Lookup(f, j, t);
        if j == k {
          ExpiredIsDeadlinePassed(m[k], now);
          ExpiredIsDeadlinePassed(m[k], t);
        }
      }
    }
  }

  // ----- Whole runs

  datatype Event =
    | Do(command: Command, at: Time, oom: bool)
    | SweepKey(key: string, at: Time)

  predicate Monotone(events: seq<Event>, now: Time) {
    events == [] || (now <= events[0].at && Monotone(events[1..], events[0].at))
  }

  /** A reply, and whether it is the one count that sweeping may change. */
  datatype Observed = Observed(reply: Value, staleDel: bool)

  function RunTable(m: Table, events: seq<Event>): (Table, seq<Observed>)
    decreases |events|
  {
    if events == [] then (m, [])
    else match events[0]
      case SweepKey(k, at) => RunTable(Sweep(m, k, at).0, events[1..])
      case Do(c, at, oom) =>
        var out := Exec(m, c, at, oom);
        var (m', replies) := RunTable(out.table, events[1..]);
        (m', [Observed(out.reply, StaleDel(m, c, at))] + replies)
  }

  /** The same run on the flat map, which knows no sweeps. */
  function RunFlat(f: FlatMap, events: seq<Event>): (FlatMap, seq<Value>)
    decreases |events|
  {
    if events == [] then (f, [])
    else match events[0]
      case SweepKey(_, _) => RunFlat(f, events[1..])
      case Do(c, at, oom) =>
        var (f', reply) := FlatExec(f, c, at, oom);
        var (f'', replies) := RunFlat(f', events[1..]);
        (f'', [reply] + replies)
  }

  function LastTime(events: seq<Event>, now: Time): Time {
    if events == [] then now else LastTime(events[1..], events[0].at)
  }

  predicate SameButStaleDels(observed: seq<Observed>, replies: seq<Value>) {
    && |observed| == |replies|
    && forall i :: 0 <= i < |replies| ==> (observed[i].reply == replies[i] <==> !observed[i].staleDel)
  }

  /** Over any run, commands and sweeps in any order, the table is the flat map. */
  lemma {:induction false} RunRefines(m: Table, f: FlatMap, events: seq<Event>, now: Time)
    requires Refines(m, f, now) && Monotone(events, now)
    ensures SameButStaleDels(RunTable(m, events).1, RunFlat(f, events).1)
    ensures Refines(RunTable(m, events).0, RunFlat(f, events).0, LastTime(events, now))
    decreases |events|
  {
    if events != [] {
      var at := events[0].at;
      RefinesLater(m, f, now, at);
      match events[0]
      case SweepKey(k, _) =>
        SweepRefines(m, f, k, at);
        RunRefines(Sweep(m, k, at).0, f, events[1..], at);
      case Do(c, _, oom) =>
        ExecRefines(m, f, c, at, oom);
        RunRefines(Exec(m, c, at, oom).table, FlatExec(f, c, at, oom).0, events[1..], at);
    }
  }

  function WithoutSweeps(events: seq<Event>): seq<Event> {
    if events == [] then []
    else (if events[0].Do? then [events[0]] else []) + WithoutSweeps(events[1..])
  }

  lemma {:induction false} FlatIgnoresSweeps(f: FlatMap, events: seq<Event>)
    ensures RunFlat(f, WithoutSweeps(events)) == RunFlat(f, events)
    decreases |events|
  {
    if events != [] {
      match events[0]
      case SweepKey(_, _) =>
        FlatIgnoresSweeps(f, events[1..]);
        assert [] + WithoutSweeps(events[1..]) == WithoutSweeps(events[1..]);
      case Do(c, at, oom) =>
        FlatIgnoresSweeps(FlatExec(f, c, at, oom).0, events[1..]);
        assert ([events[0]] + WithoutSweeps(events[1..]))[1..] == WithoutSweeps(events[1..]);
    }
  }

  lemma {:induction false} WithoutSweepsMonotone(events: seq<Event>, now: Time, earlier: Time)
    requires Monotone(events, now) && earlier <= now
    ensures Monotone(WithoutSweeps(events), earlier)
  {
    if events != [] {
      var rest := WithoutSweeps(events[1..]);
      if events[0].Do? {
        WithoutSweepsMonotone(events[1..], events[0].at, events[0].at);
        assert ([events[0]] + rest)[1..] == rest;
      } else {
        WithoutSweepsMonotone(events[1..], events[0].at, earlier);
        assert [] + rest == rest;
      }
    }
  }

  /** The flat image of any table whose clock has not run ahead. */
  function Image(m: Table): FlatMap {
    map k | k in m && !m[k].tombstoned :: Live(m[k].data, ExpirationTime(m[k]))
  }

  lemma ImageRefines(m: Table, now: Time)
    requires NothingFromFuture(m, now)
    ensures Refines(m, Image(m), now)
  {
    forall k: string, t: Time | t >= now
      ensures Seen(m, k, t) == Lookup(Image(m), k, t)
    {
      if k in m {
        ExpiredIsDeadlinePassed(m[k], t);
      }
    }
  }

  lemma StaleDelCounts(m: Table, events: seq<Event>)
    ensures forall i :: 0 <= i < |RunTable(m, events).1| && RunTable(m, events).1[i].staleDel ==>
              RunTable(m, events).1[i].reply == Integer(1)
    decreases |events|
  {
    if events != [] {
      match events[0]
      case SweepKey(k, at) => StaleDelCounts(Sweep(m, k, at).0, events[1..]);
      case Do(c, at, oom) => StaleDelCounts(Exec(m, c, at, oom).table, events[1..]);
    }
  }

  /**
   Leaving out every sweep of a run, or putting sweeps anywhere into it, changes a reply if
   and only if it is the count of a DEL that finds its key expired and unswept in exactly one
   of the two.
   */
  lemma SweepingIsUnobservable(m: Table, events: seq<Event>, now: Time)
    requires NothingFromFuture(m, now) && Monotone(events, now)
    ensures var swept := RunTable(m, events).1;
            var unswept := RunTable(m, WithoutSweeps(events)).1;
            |swept| == |unswept| &&
            forall i :: 0 <= i < |swept| ==>
              (swept[i].reply == unswept[i].reply <==> swept[i].staleDel == unswept[i].staleDel)
  {
    ImageRefines(m, now);
    RunRefines(m, Image(m), events, now);
    WithoutSweepsMonotone(events, now, now);
    RunRefines(m, Image(m), WithoutSweeps(events), now);
    FlatIgnoresSweeps(Image(m), events);
    StaleDelCounts(m, events);
    StaleDelCounts(m, WithoutSweeps(events));
  }

  /** A SET that succeeds revives a deleted or expired key for as long as its TTL says. */
  lemma SetRevives(m: Table, k: string, v: string, ttl: Int64, now: Time, later: Time)
    requires now <= later
    ensures var m' := Exec(m, Set(k, v, ttl), now, false).table;
            Exec(m', Get(k), later, false).reply ==
            if Passed(Deadline(now, ttl), later) then Nil else Bulk(v)
  {
    ExpiredIsDeadlinePassed(Fresh(Str(v), now, ttl), later);
  }

  /** A stale DEL from an empty server: counted if the expired key is still there, not if it has been swept. */
  lemma StaleDelHappens(k: string, v: string, now: Time)
    requires now >= SECOND
    ensures var commands := [Do(Set(k, v, 1), 0, false), Do(Del(k), now, false)];
            var swept := [commands[0], SweepKey(k, now), commands[1]];
            && Monotone(swept, 0) && WithoutSweeps(swept) == commands
            && RunTable(map[], commands).1 == [Observed(Simple("OK"), false), Observed(Integer(1), true)]
            && RunTable(map[], swept).1 == [Observed(Simple("OK"), false), Observed(Integer(0), false)]
  {
    var commands := [Do(Set(k, v, 1), 0, false), Do(Del(k), now, false)];
    var swept := [commands[0], SweepKey(k, now), commands[1]];
    var m := Exec(map[], Set(k, v, 1), 0, false).table;
    assert m == map[k := Fresh(Str(v), 0, 1)] && IsExpired(m[k], now);
    assert commands[1..] == [commands[1]] && [commands[1]][1..] == [];
    assert swept[1..] == [swept[1], commands[1]] && [swept[1], commands[1]][1..] == [commands[1]];
    assert Monotone([commands[1]], now) && Monotone(swept[1..], 0);
    StaleDelTail(m, k, now);
    StaleDelTail(m - {k}, k, now);
    assert WithoutSweeps([commands[1]]) == [commands[1]] + WithoutSweeps([]);
    assert WithoutSweeps(swept[1..]) == [] + WithoutSweeps([commands[1]]);
  }

  lemma StaleDelTail(m: Table, k: string, now: Time)
    ensures RunTable(m, [Do(Del(k), now, false)]).1 ==
            [Observed(Exec(m, Del(k), now, false).reply, StaleDel(m, Del(k), now))]
  {
    assert [Do(Del(k), now, false)][1..] == [];
  }
}
