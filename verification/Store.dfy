/**
 What each command does to the key space, seen as one table of entries with
 tombstones and creation times. Time is a monotone clock in nanoseconds; `oom` says
 that the operation ran out of memory (hard limit reached or allocation refused).
 */
module Store {
  import opened Text
  import opened Commands
  import opened Resp

  type Time = nat

  const SECOND: nat := 1_000_000_000

  datatype Data =
    | Str(s: string)
    | Int(n: Int64)
    | List(items: seq<string>)
    | Hash(fields: map<string, string>)

  datatype Entry = Entry(data: Data, createdAt: Time, ttl: Int64, tombstoned: bool)

  type Table = map<string, Entry>

  // ----- Expiry

  /** `duration_cast<seconds>` truncates toward zero. */
  function WholeSeconds(d: int): int {
    if d >= 0 then d / SECOND else -((-d) / SECOND)
  }

  predicate IsExpired(e: Entry, now: Time) {
    e.ttl >= 0 && WholeSeconds(now - e.createdAt) >= e.ttl
  }

  /** None is the time that never comes. */
  function ExpirationTime(e: Entry): Option<Time> {
    if e.ttl < 0 then None else Some(e.createdAt + e.ttl * SECOND)
  }

  predicate Passed(deadline: Option<Time>, now: Time) {
    deadline.Some? && now >= deadline.value
  }

  /** Comparing whole elapsed seconds is the same as comparing the clock with the deadline. */
  lemma ExpiredIsDeadlinePassed(e: Entry, now: Time)
    requires e.createdAt <= now
    ensures IsExpired(e, now) <==> Passed(ExpirationTime(e), now)
  {
    var d := now - e.createdAt;
    assert d == (d / SECOND) * SECOND + d % SECOND;
  }

  // ----- Commands

  const OOM_ERROR := Error("ERR OOM command not " + "allowed when used " + "memory > 'maxmemory'")
  const WRONG_TYPE := Error("WRONGTYPE Operation " + "against a key holding " + "the wrong kind of value")

  /** New table, reply, and the line the command adds to the log, if any. */
  datatype Outcome = Outcome(table: Table, reply: Value, log: seq<string>)

  predicate Visible(m: Table, k: string, now: Time) {
    k in m && !m[k].tombstoned && !IsExpired(m[k], now)
  }

  function GetText(d: Data): string {
    match d
    case Str(s) => s
    case Int(n) => ToString(n)
    case List(_) => "(list)"
    case Hash(_) => "(hash)"
  }

  function Flag(b: bool): Value {
    Integer(if b then 1 else 0)
  }

  function Fresh(d: Data, now: Time, ttl: Int64): Entry {
    Entry(d, now, ttl, false)
  }

  predicate Deletable(m: Table, k: string) {
    k in m && !m[k].tombstoned
  }

  function Exec(m: Table, c: Command, now: Time, oom: bool): Outcome {
    match c
    case Set(k, v, ttl) =>
      if oom then Outcome(m, OOM_ERROR, [])
      else Outcome(m[k := Fresh(Str(v), now, ttl)], Simple("OK"), [Serialize(c)])
    case Get(k) =>
      Outcome(m, if Visible(m, k, now) then Bulk(GetText(m[k].data)) else Nil, [])
    case Del(k) =>
      if Deletable(m, k)
      then Outcome(m[k := m[k].(tombstoned := true)], Integer(1), [Serialize(c)])
      else Outcome(m, Integer(0), [])
    case Exists(k) => Outcome(m, Flag(Visible(m, k, now)), [])
    case Ping => Outcome(m, Simple("PONG"), [])
    case LPush(k, v, ttl) =>
      if oom then Outcome(m, OOM_ERROR, [])
      else if !Visible(m, k, now) then Outcome(m[k := Fresh(List([v]), now, ttl)], Integer(1), [Serialize(c)])
      else (
        match m[k].data
        case List(l) =>
          Outcome(m[k := m[k].(data := List(l + [v]))], Integer(|l| + 1), [Serialize(c)])
        case _ => Outcome(m, WRONG_TYPE, [])
      )
    case LRange(k, start, stop) =>
      if !Visible(m, k, now) then Outcome(m, Array([]), [])
      else (
        match m[k].data
        case List(l) => Outcome(m, Array(Bulks(Range(l, start, stop))), [])
        case _ => Outcome(m, WRONG_TYPE, [])
      )
    case HSet(k, f, v, ttl) =>
      if oom then Outcome(m, OOM_ERROR, [])
      else if !Visible(m, k, now) then Outcome(m[k := Fresh(Hash(map[f := v]), now, ttl)], Integer(1), [Serialize(c)])
      else (
        match m[k].data
        case Hash(h) =>
          Outcome(m[k := m[k].(data := Hash(h[f := v]))], Flag(f !in h), [Serialize(c)])
        case _ => Outcome(m, WRONG_TYPE, [])
      )
    case HGet(k, f) =>
      if !Visible(m, k, now) then Outcome(m, Nil, [])
      else (
        match m[k].data
        case Hash(h) => Outcome(m, if f in h then Bulk(h[f]) else Nil, [])
        case _ => Outcome(m, WRONG_TYPE, [])
      )
  }

  /** The sweeper visits a key: a tombstoned or expired entry goes, and its DEL is logged. */
  predicate Sweepable(m: Table, k: string, now: Time) {
    k in m && (m[k].tombstoned || IsExpired(m[k], now))
  }

  function Sweep(m: Table, k: string, now: Time): (Table, seq<string>) {
    if Sweepable(m, k, now) then (m - {k}, ["DEL " + k]) else (m, [])
  }

  // ----- LRANGE

  function Bulks(items: seq<string>): seq<Value> {
    seq(|items|, i requires 0 <= i < |items| => Bulk(items[i]))
  }

  /** A negative bound counts from the end of the list. */
  function FromEnd(bound: int, len: nat): int {
    if bound < 0 then bound + len else bound
  }

  /** The elements from `start` to `stop`, both included; the indices are those that exist. */
  function Range(l: seq<string>, start: Int64, stop: Int64): (r: seq<string>)
    ensures forall x :: x in r ==> x in l
  {
    Clamped(l, FromEnd(start, |l|), FromEnd(stop, |l|))
  }

  function Clamped(l: seq<string>, s: int, e: int): (r: seq<string>)
    ensures forall x :: x in r ==> x in l
  {
    var s' := if s < 0 then 0 else s;
    var e' := if e >= |l| then |l| - 1 else e;
    if s' > e' then [] else l[s'..e' + 1]
  }

  /** Element `i` as it appears in a slice that keeps exactly the indices between two bounds. */
  function Between(l: seq<string>, from: int, to: int): seq<string> {
    if l == [] then []
    else Between(l[..|l| - 1], from, to) + if from <= |l| - 1 <= to then [l[|l| - 1]] else []
  }

  lemma {:induction false} BetweenIsSlice(l: seq<string>, from: int, to: int)
    requires from <= to && 0 <= from && from < |l|
    ensures Between(l, from, to) == l[from..if to < |l| then to + 1 else |l|]
  {
    var n := |l| - 1;
    if from < n {
      BetweenIsSlice(l[..n], from, to);
      assert to >= n ==> l[from..] == l[..n][from..] + [l[n]];
    } else {
      BetweenNone(l[..n], from, to);
    }
  }

  lemma {:induction false} BetweenNone(l: seq<string>, from: int, to: int)
    requires from >= |l| || to < 0 || from > to
    ensures Between(l, from, to) == []
  {
    if l != [] {
      BetweenNone(l[..|l| - 1], from, to);
    }
  }

  lemma {:induction false} BetweenFromZero(l: seq<string>, from: int, to: int)
    requires from <= 0
    ensures Between(l, from, to) == Between(l, 0, to)
  {
    if l != [] {
      BetweenFromZero(l[..|l| - 1], from, to);
    }
  }

  lemma ClampedIsBetween(l: seq<string>, s: int, e: int)
    ensures Clamped(l, s, e) == Between(l, s, e)
  {
    var s' := if s < 0 then 0 else s;
    if s < 0 {
      BetweenFromZero(l, s, e);
    }
    if s' > e || s' >= |l| {
      BetweenNone(l, s', e);
    } else {
      BetweenIsSlice(l, s', e);
    }
  }

  /** The clamped slice keeps exactly the elements whose index lies between the two bounds. */
  lemma RangeIsBetween(l: seq<string>, start: Int64, stop: Int64)
    ensures Range(l, start, stop) == Between(l, FromEnd(start, |l|), FromEnd(stop, |l|))
  {
    ClampedIsBetween(l, FromEnd(start, |l|), FromEnd(stop, |l|));
  }

  lemma BulksAreSendable(items: seq<string>)
    ensures AllSendable(Bulks(items))
  {
  }

  lemma ErrorsHaveNoBreak()
    ensures NoBreak("OK") && NoBreak("PONG") && NoBreak(OOM_ERROR.text) && NoBreak(WRONG_TYPE.text)
  {
    assert NoBreak("ERR OOM command not ");
    assert NoBreak("allowed when used ");
    assert NoBreak("memory > 'maxmemory'");
    assert NoBreak("WRONGTYPE Operation ");
    assert NoBreak("against a key holding ");
    assert NoBreak("the wrong kind of value");
  }

  /** Every reply can be put on the wire. */
  lemma RepliesAreSendable(m: Table, c: Command, now: Time, oom: bool)
    ensures Sendable(Exec(m, c, now, oom).reply)
  {
    ErrorsHaveNoBreak();
    if c.LRange? && Visible(m, c.key, now) && m[c.key].data.List? {
      BulksAreSendable(Range(m[c.key].data.items, c.start, c.stop));
    }
  }

  /** The client of an LRANGE on a live list decodes exactly the elements between the bounds. */
  lemma LRangeReplyDecodes(m: Table, k: string, start: Int64, stop: Int64, now: Time, oom: bool, rest: string)
    requires Visible(m, k, now) && m[k].data.List?
    ensures var l := m[k].data.items;
            var from, to := if start < 0 then |l| + start else start, if stop < 0 then |l| + stop else stop;
            Decode(Encode(Exec(m, LRange(k, start, stop), now, oom).reply) + rest) ==
            Some((Array(Bulks(Between(l, from, to))), rest))
  {
    RangeIsBetween(m[k].data.items, start, stop);
    RepliesAreSendable(m, LRange(k, start, stop), now, oom);
    DecodeOfEncode(Exec(m, LRange(k, start, stop), now, oom).reply, rest);
  }

  // ----- What the bounds of LRANGE mean

  /** From the first to the last. */
  lemma WholeList(l: seq<string>)
    ensures Range(l, 0, -1) == l
  {
  }

  /** A negative bound counts from the end: -i selects what |l|-i selects, as start and as stop. */
  lemma NegativeBounds(l: seq<string>, bound: Int64, other: Int64)
    requires -|l| <= bound <= -1 && |l| <= INT64_MAX
    ensures Range(l, bound, other) == Range(l, |l| + bound, other)
    ensures Range(l, other, bound) == Range(l, other, |l| + bound)
  {
  }

  /** Further back than the beginning: a start acts as 0, and a stop leaves nothing. */
  lemma BoundsBeforeTheList(l: seq<string>, far: Int64, other: Int64)
    requires far < -|l|
    ensures Range(l, far, other) == Range(l, 0, other) && Range(l, other, far) == []
  {
  }

  /** Bounds inside the list, both included; a stop behind it acts as the last; nothing from behind it. */
  lemma PlainBounds(l: seq<string>, start: Int64, stop: Int64)
    requires 0 <= start && 0 <= stop
    ensures start <= stop < |l| ==> Range(l, start, stop) == l[start..stop + 1]
    ensures start < |l| <= stop ==> Range(l, start, stop) == l[start..]
    ensures start > stop || start >= |l| ==> Range(l, start, stop) == []
  {
  }

  // ----- Invariants of the table

  /** No entry is an integer, and no stored list or hash is empty. */
  predicate EntryOk(e: Entry) {
    !e.data.Int? && (e.data.List? ==> e.data.items != []) && (e.data.Hash? ==> e.data.fields != map[])
  }

  /** ... every key is a word, and nothing was created in the future. */
  predicate TableOk(m: Table, now: Time) {
    forall k :: k in m ==> IsWord(k) && EntryOk(m[k]) && m[k].createdAt <= now
  }

  predicate KeyIsWord(c: Command) {
    c.Ping? || IsWord(c.key)
  }

  lemma ExecKeepsTableOk(m: Table, c: Command, now: Time, oom: bool)
    requires TableOk(m, now) && KeyIsWord(c)
    ensures TableOk(Exec(m, c, now, oom).table, now)
  {
    if c.HSet? && c.key in m && m[c.key].data.Hash? {
      assert c.field in m[c.key].data.fields[c.field := c.value];
    }
    if c.HSet? {
      assert c.field in map[c.field := c.value];
    }
  }

  lemma SweepKeepsTableOk(m: Table, k: string, now: Time)
    requires TableOk(m, now)
    ensures TableOk(Sweep(m, k, now).0, now)
  {
  }
}
