/**
 What a client observes of the commands: their replies, byte by byte where that matters, and
 what one command makes another one answer.
 */
module Laws {
  import opened Text
  import opened Commands
  import opened Resp
  import opened Store

  function ReplyBytes(m: Table, c: Command, now: Time, oom: bool): string {
    Encode(Exec(m, c, now, oom).reply)
  }

  // ----- GET and EXISTS

  lemma DigitsStartWithDigit(n: nat)
    ensures ToString(n) != "" && IsDigit(ToString(n)[0])
  {
    assert AllDigits(Digits(n)) && Digits(n) != "";
  }

  lemma BulkIsNotNull(s: string)
    ensures Encode(Bulk(s))[0] == '$' && Encode(Bulk(s)) != "$-1\r\n"
  {
    DigitsStartWithDigit(|s|);
    hide ToString;
    var b := Encode(Bulk(s));
    assert b == "$" + ToString(|s|) + (CRLF + s + CRLF);
    assert b[1] == ToString(|s|)[0];
  }

  lemma NullReply()
    ensures Encode(Nil) == "$-1\r\n"
  {
    WireFormat();
  }

  /** GET answers a bulk string, the null one exactly if the key is not visible. */
  lemma GetReplies(m: Table, k: string, now: Time, oom: bool)
    ensures ReplyBytes(m, Get(k), now, oom)[0] == '$'
    ensures ReplyBytes(m, Get(k), now, oom) == "$-1\r\n" <==> !Visible(m, k, now)
  {
    NullReply();
    if Visible(m, k, now) {
      BulkIsNotNull(GetText(m[k].data));
    }
    hide Encode, ToString, Visible;
  }

  /** GET of a list or a hash tells what it is, and not what it holds. */
  lemma GetOfContainers(m: Table, k: string, now: Time, oom: bool)
    requires Visible(m, k, now)
    ensures m[k].data.List? ==> ReplyBytes(m, Get(k), now, oom) == "$6\r\n(list)\r\n"
    ensures m[k].data.Hash? ==> ReplyBytes(m, Get(k), now, oom) == "$6\r\n(hash)\r\n"
  {
    assert Digits(6) == "6";
  }

  /** EXISTS answers 1 if GET would find the key, else 0. */
  lemma ExistsIffFound(m: Table, k: string, now: Time, oom: bool)
    ensures ReplyBytes(m, Exists(k), now, oom) ==
            if ReplyBytes(m, Get(k), now, oom) == "$-1\r\n" then ":0\r\n" else ":1\r\n"
  {
    GetReplies(m, k, now, oom);
    SmallNumbers();
    hide Visible, GetText;
  }

  // ----- SET and DEL

  /** After the line `SET k v`, GET finds v for exactly 86400 seconds; the clock counts nanoseconds. */
  lemma SetLivesADay(m: Table, k: string, v: string, now: Time, later: Time)
    requires IsWord(k) && IsWord(v) && now <= later
    ensures ParseLine("SET " + k + " " + v).Some?
    ensures var out := Exec(m, ParseLine("SET " + k + " " + v).value, now, false);
            && Encode(out.reply) == "+OK\r\n"
            && Exec(out.table, Get(k), later, false).reply ==
               if later < now + 86400 * 1_000_000_000 then Bulk(v) else Nil
  {
    SetLine(k, v);
    SetWithTtl(m, k, v, 86400, now, later);
    WireFormat();
    hide ParseLine;
  }

  /** Any TTL: for exactly so many seconds if it is not negative, for ever if it is. */
  lemma SetWithTtl(m: Table, k: string, v: string, ttl: Int64, now: Time, later: Time)
    requires now <= later
    ensures var out := Exec(m, Set(k, v, ttl), now, false);
            Exec(out.table, Get(k), later, false).reply ==
            if ttl < 0 || later < now + ttl * 1_000_000_000 then Bulk(v) else Nil
  {
    ExpiredIsDeadlinePassed(Fresh(Str(v), now, ttl), later);
  }

  /** SET replaces whatever was there, and leaves all other keys alone. */
  lemma SetIsLocal(m: Table, k: string, v: string, ttl: Int64, now: Time, oom: bool, j: string)
    requires j != k
    ensures var m' := Exec(m, Set(k, v, ttl), now, oom).table; (j in m' <==> j in m) && (j in m ==> m'[j] == m[j])
  {
  }

  /** A deleted key is gone for every reader, at any later time; a second DEL counts nothing. */
  lemma DeletedIsGone(m: Table, k: string, f: string, a: Int64, b: Int64, now: Time, later: Time, oom: bool)
    ensures var m' := Exec(m, Del(k), now, oom).table;
            && ReplyBytes(m', Get(k), later, oom) == "$-1\r\n" && ReplyBytes(m', Exists(k), later, oom) == ":0\r\n"
            && ReplyBytes(m', HGet(k, f), later, oom) == "$-1\r\n"
            && ReplyBytes(m', LRange(k, a, b), later, oom) == "*0\r\n"
            && ReplyBytes(m', Del(k), later, oom) == ":0\r\n"
  {
    NullReply();
    SmallNumbers();
    WireFormatOfArrays();
    hide Digits;
  }

  /** DEL answers 1 for a key that is stored and not yet deleted, and 0 otherwise. */
  lemma DelReplies(m: Table, k: string, now: Time, oom: bool)
    ensures ReplyBytes(m, Del(k), now, oom) == if k in m && !m[k].tombstoned then ":1\r\n" else ":0\r\n"
  {
    SmallNumbers();
    hide Digits;
  }

  lemma PingReplies(m: Table, now: Time, oom: bool)
    ensures ReplyBytes(m, Ping, now, oom) == "+PONG\r\n" && Exec(m, Ping, now, oom).table == m
  {
  }

  // ----- Lists

  /** The table after pushing the values one after the other. */
  function Pushed(m: Table, k: string, vs: seq<string>, now: Time): Table {
    if vs == [] then m
    else Exec(Pushed(m, k, vs[..|vs| - 1], now), LPush(k, vs[|vs| - 1], 86400), now, false).table
  }

  function ListEntry(vs: seq<string>, now: Time): Entry {
    Entry(List(vs), now, 86400, false)
  }

  lemma FirstPush(m: Table, k: string, v: string, now: Time)
    requires !Visible(m, k, now)
    ensures var out := Exec(m, LPush(k, v, 86400), now, false);
            out.table == m[k := ListEntry([v], now)] && out.reply == Integer(1)
  {
  }

  lemma NextPush(m: Table, k: string, vs: seq<string>, v: string, now: Time)
    ensures var out := Exec(m[k := ListEntry(vs, now)], LPush(k, v, 86400), now, false);
            out.table == m[k := ListEntry(vs + [v], now)] && out.reply == Integer(|vs| + 1)
  {
    var e := ListEntry(vs, now);
    assert !IsExpired(e, now);
    assert m[k := e][k := ListEntry(vs + [v], now)] == m[k := ListEntry(vs + [v], now)];
  }

  lemma {:induction false} PushedIs(m: Table, k: string, vs: seq<string>, now: Time)
    requires !Visible(m, k, now) && vs != []
    ensures Pushed(m, k, vs, now) == m[k := ListEntry(vs, now)]
  {
    hide Exec, ListEntry, Visible;
    var n := |vs| - 1;
    assert vs == vs[..n] + [vs[n]];
    if n > 0 {
      PushedIs(m, k, vs[..n], now);
      NextPush(m, k, vs[..n], vs[n], now);
    } else {
      assert vs[..n] == [] && vs == [vs[n]];
      FirstPush(m, k, vs[n], now);
    }
  }

  lemma ListIsRead(m: Table, k: string, vs: seq<string>, now: Time, later: Time)
    requires now <= later < now + 86400 * 1_000_000_000
    ensures Exec(m[k := ListEntry(vs, now)], LRange(k, 0, -1), later, false).reply == Array(Bulks(vs))
  {
    ExpiredIsDeadlinePassed(ListEntry(vs, now), later);
    WholeList(vs);
    hide Range, Bulks;
  }

  /**
   Values pushed to a new list are read back in the order they were pushed, for a day; each
   push answers the length of the list so far.
   */
  lemma PushedIsRead(m: Table, k: string, vs: seq<string>, v: string, now: Time, later: Time)
    requires !Visible(m, k, now) && now <= later < now + 86400 * 1_000_000_000
    ensures Exec(Pushed(m, k, vs, now), LPush(k, v, 86400), now, false).reply == Integer(|vs| + 1)
    ensures Exec(Pushed(m, k, vs + [v], now), LRange(k, 0, -1), later, false).reply == Array(Bulks(vs + [v]))
  {
    hide Exec, ListEntry, Visible, Bulks;
    PushedIs(m, k, vs + [v], now);
    ListIsRead(m, k, vs + [v], now, later);
    if vs != [] {
      PushedIs(m, k, vs, now);
      NextPush(m, k, vs, v, now);
    } else {
      FirstPush(m, k, v, now);
    }
  }

  // ----- Hashes

  /** A field that has been set is read back, and all other fields answer what they answered before. */
  lemma SetFieldIsRead(m: Table, k: string, f: string, v: string, g: string, now: Time)
    requires Visible(m, k, now) ==> m[k].data.Hash?
    ensures var m' := Exec(m, HSet(k, f, v, 86400), now, false).table;
            && Exec(m', HGet(k, f), now, false).reply == Bulk(v)
            && (g != f ==> Exec(m', HGet(k, g), now, false).reply == Exec(m, HGet(k, g), now, false).reply)
  {
    var e := Entry(Hash(map[f := v]), now, 86400, false);
    assert !IsExpired(e, now);
  }

  /** HSET answers 1 for a new field, and 0 for one that had a value. */
  lemma HSetReplies(m: Table, k: string, f: string, v: string, now: Time)
    requires Visible(m, k, now) ==> m[k].data.Hash?
    ensures ReplyBytes(m, HSet(k, f, v, 86400), now, false) ==
            if Exec(m, HGet(k, f), now, false).reply == Nil then ":1\r\n" else ":0\r\n"
  {
    SmallNumbers();
    hide Digits;
  }

  /** HGET answers a bulk string, the null one exactly if key or field is not there, or the wrong-type error. */
  lemma HGetReplies(m: Table, k: string, f: string, now: Time, oom: bool)
    ensures var b := ReplyBytes(m, HGet(k, f), now, oom);
            && (b[0] == '$' || b[0] == '-')
            && (b[0] == '-' <==> Visible(m, k, now) && !m[k].data.Hash?)
            && (b == "$-1\r\n" <==> !Visible(m, k, now) || (m[k].data.Hash? && f !in m[k].data.fields))
  {
    NullReply();
    if Visible(m, k, now) && m[k].data.Hash? && f in m[k].data.fields {
      BulkIsNotNull(m[k].data.fields[f]);
    }
    hide ToString;
  }

  // ----- Errors

  const WRONG_TYPE_BYTES: string :=
    "-WRONGTYPE Operation " + "against a key holding " + "the wrong kind of value" + "\r\n"

  const OOM_BYTES: string :=
    "-ERR OOM command not " + "allowed when used " + "memory > 'maxmemory'" + "\r\n"

  lemma ErrorBytes()
    ensures Encode(WRONG_TYPE) == WRONG_TYPE_BYTES && Encode(OOM_ERROR) == OOM_BYTES
  {
    assert "-" + "WRONGTYPE Operation " == "-WRONGTYPE Operation ";
    assert "-" + "ERR OOM command not " == "-ERR OOM command not ";
  }

  /** Commands on a visible key of the other kind answer the wrong-type error and change nothing. */
  lemma WrongType(m: Table, k: string, f: string, v: string, a: Int64, b: Int64, ttl: Int64, now: Time)
    requires Visible(m, k, now)
    ensures !m[k].data.List? ==>
              && ReplyBytes(m, LPush(k, v, ttl), now, false) == WRONG_TYPE_BYTES
              && ReplyBytes(m, LRange(k, a, b), now, false) == WRONG_TYPE_BYTES
              && Exec(m, LPush(k, v, ttl), now, false).table == m
    ensures !m[k].data.Hash? ==>
              && ReplyBytes(m, HSet(k, f, v, ttl), now, false) == WRONG_TYPE_BYTES
              && ReplyBytes(m, HGet(k, f), now, false) == WRONG_TYPE_BYTES
              && Exec(m, HSet(k, f, v, ttl), now, false).table == m
  {
    ErrorBytes();
    hide Encode;
  }

  /** Out of memory, the writing commands answer so, change nothing and log nothing. */
  lemma OutOfMemory(m: Table, c: Command, now: Time)
    requires c.Set? || c.LPush? || c.HSet?
    ensures ReplyBytes(m, c, now, true) == OOM_BYTES
    ensures Exec(m, c, now, true).table == m && Exec(m, c, now, true).log == []
  {
    ErrorBytes();
    hide Encode;
  }

  // ----- What does not change, and what is logged

  /** Pushing and setting fields neither lengthen nor shorten the life of what is there. */
  lemma ChangeKeepsDeadline(m: Table, c: Command, now: Time, later: Time)
    requires (c.LPush? || c.HSet?) && Visible(m, c.key, now) && Exec(m, c, now, false).log != []
    ensures Visible(Exec(m, c, now, false).table, c.key, later) <==> Visible(m, c.key, later)
  {
  }

  /** A command is logged exactly if its reply says that it changed something. */
  lemma LoggedIfChanged(m: Table, c: Command, now: Time, oom: bool)
    ensures var out := Exec(m, c, now, oom);
            && (out.log == [] || out.log == [Serialize(c)])
            && (out.log != [] <==>
                (c.Set? && out.reply == Simple("OK")) || (c.Del? && out.reply == Integer(1))
                || ((c.LPush? || c.HSet?) && out.reply.Integer?))
  {
    hide Serialize;
  }

  /** The sweeper removes a key exactly if no reader can see it, logs that, and touches no other key. */
  lemma SweepRemoves(m: Table, k: string, now: Time, j: string)
    requires j != k
    ensures var (m', lines) := Sweep(m, k, now);
            && (k in m' <==> Visible(m, k, now)) && (lines == ["DEL " + k] <==> k in m && k !in m')
            && (lines == [] <==> k in m' || k !in m)
            && (j in m' <==> j in m) && (j in m ==> m'[j] == m[j])
  {
  }

  /** The text of the log, word by word: the TTL of LPUSH and HSET is left out. */
  lemma LogText(ttl: Int64)
    ensures Serialize(Del("k")) == "DEL k"
    ensures Serialize(LPush("k", "v", ttl)) == "LPUSH k v" && Serialize(HSet("k", "f", "v", ttl)) == "HSET k f v"
  {
  }

  lemma LogTextOfSet()
    ensures Serialize(Set("k", "v", -1)) == "SET k v -1" && Serialize(Set("k", "v", 120)) == "SET k v 120"
  {
    PrintedNumbers();
    hide ToString;
  }
}
