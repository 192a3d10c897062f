/**
 The storage engine as the server runs it: shards, the router that picks one by hash,
 the commands' `execute`, and the replay loop. The router's contents behave as the one
 table of `Store`.
 */
module Engine {
  import opened Text
  import opened Framing
  import opened Commands
  import opened Resp
  import opened Store
  import opened Hasher
  import opened Replay
  import opened Aof

  class Shard {
    /** Size of the shard's arena in bytes. */
    const capacity: nat
    var data: Table

    constructor (capacity: nat)
      ensures data == map[] && this.capacity == capacity
    {
      this.capacity, data := capacity, map[];
    }

    method Set(key: string, value: string, ttl: Int64, now: Time, oom: bool) returns (stored: bool)
      modifies this
      ensures stored == !oom
      ensures data == if oom then old(data) else old(data)[key := Fresh(Str(value), now, ttl)]
    {
      if oom {
        return false;
      }
      data := data[key := Entry(Str(value), now, ttl, false)];
      return true;
    }

    method Get(key: string, now: Time) returns (r: Option<string>)
      ensures r == if Visible(data, key, now) then Some(GetText(data[key].data)) else None
    {
      if key !in data {
        return None;
      }
      if data[key].tombstoned || IsExpired(data[key], now) {
        return None;
      }
      return Some(GetText(data[key].data));
    }

    /** A tombstone instead of an erasure; an expired entry still counts. */
    method Del(key: string) returns (removed: bool)
      modifies this
      ensures removed == Deletable(old(data), key)
      ensures data == if removed then old(data)[key := old(data)[key].(tombstoned := true)] else old(data)
    {
      if key !in data || data[key].tombstoned {
        return false;
      }
      data := data[key := data[key].(tombstoned := true)];
      return true;
    }

    method Exists(key: string, now: Time) returns (r: bool)
      ensures r == Visible(data, key, now)
    {
      if key !in data {
        return false;
      }
      return !IsExpired(data[key], now) && !data[key].tombstoned;
    }

    method EvictExpired(key: string, now: Time) returns (evicted: bool)
      modifies this
      ensures evicted == Sweepable(old(data), key, now)
      ensures data == Sweep(old(data), key, now).0
    {
      if key !in data {
        return false;
      }
      if data[key].tombstoned || IsExpired(data[key], now) {
        data := data - {key};
        return true;
      }
      return false;
    }
  }

  /** Characters are bytes: their numbers modulo 256. */
  function Bytes(s: string): seq<bv8> {
    seq(|s|, i requires 0 <= i < |s| => Byte(s[i] as nat))
  }

  function Byte(n: nat): bv8 {
    if n == 0 then 0 else Byte(n / 2) * 2 + if n % 2 == 1 then 1 else 0
  }

  /** shard_index */
  function ShardIndex(key: string, mask: bv32): (i: nat)
    ensures i <= Number(mask)
  {
    MaskedIndexInBounds(Murmur3(Bytes(key), 0), mask);
    MaskedIndex(Murmur3(Bytes(key), 0), mask)
  }

  /** The shard of a key is the hash of its bytes modulo the number of shards. */
  lemma ShardIndexIsModulo(key: string, mask: bv32)
    requires IsPowerOfTwoLessOne(mask)
    ensures ShardIndex(key, mask) == Number(Murmur3(Bytes(key), 0)) % (Number(mask) + 1)
  {
    hide Murmur3, Bytes, MaskedIndex, Number;
    MaskIsModulo(Murmur3(Bytes(key), 0), mask);
  }

  lemma {:induction false} ByteNext(n: nat)
    ensures Byte(0) == 0 && Byte(n + 1) == Byte(n) + 1
  {
    if n % 2 == 1 {
      assert (n + 1) / 2 == n / 2 + 1 && (n + 1) % 2 == 0;
      ByteNext(n / 2);
      DoubleByte(Byte(n / 2));
    } else {
      assert (n + 1) / 2 == n / 2 && (n + 1) % 2 == 1;
      if n == 0 {
        assert Byte(1) == Byte(0) * 2 + 1;
      }
    }
  }

  lemma DoubleByte(x: bv8)
    ensures (x + 1) * 2 == x * 2 + 1 + 1
  {
  }

  lemma BytesOfK()
    ensures Bytes("k") == [0x6b]
  {
    assert Byte(6) == 6 && Byte(13) == 13 && Byte(26) == 26 && Byte(53) == 53 && Byte(107) == 107;
  }

  lemma MaskOf64()
    ensures 0xcfbda5d1 & 63 == 17 as bv32 && Number(17) == 17 && Number(63) == 63
  {
  }

  /** One of 64 shards: the key "k" is in shard 17. */
  lemma KeyOfShard17()
    ensures ShardIndex("k", 63) == 17 && Number(63) + 1 == 64
  {
    BytesOfK();
    PublishedTails();
    MaskOf64();
    hide Murmur3, Bytes, Number;
  }

  /** Every shard gets an equal share of the memory. */
  function Share(totalMemory: nat, count: nat): nat
    requires count > 0
  {
    totalMemory / count
  }

  lemma ShareIsFair(totalMemory: nat, count: nat)
    requires count > 0
    ensures count * Share(totalMemory, count) <= totalMemory < count * Share(totalMemory, count) + count
  {
    assert totalMemory == count * (totalMemory / count) + totalMemory % count;
  }

  class ShardRouter {
    const shardMask: bv32
    const shardCount: nat
    var shards: seq<Shard>
    /** All stored entries, whatever shard they are in. */
    ghost var contents: Table

    ghost predicate Shaped()
      reads this
    {
      && |shards| == shardCount == Number(shardMask) + 1
      && forall i, j :: 0 <= i < j < |shards| ==> shards[i] != shards[j]
    }

    /** Every stored key is in the shard its hash selects, and in no other. */
    ghost predicate Placed()
      requires Shaped()
      reads this, shards
    {
      forall i, k :: 0 <= i < |shards| && k in shards[i].data ==> ShardIndex(k, shardMask) == i
    }

    ghost predicate Agrees(k: string)
      requires Shaped()
      reads this, shards
    {
      var d := shards[ShardIndex(k, shardMask)].data;
      (k in contents <==> k in d) && (k in contents ==> contents[k] == d[k])
    }

    ghost predicate Valid()
      reads this, shards
    {
      Shaped() && Placed() && forall k: string :: Agrees(k)
    }

    /** `mask` is the shard count less one, the count being a power of two. */
    constructor (totalMemory: nat, mask: bv32)
      requires IsPowerOfTwoLessOne(mask)
      ensures Valid() && contents == map[]
      ensures shardMask == mask && shardCount == Number(mask) + 1
      ensures fresh(shards)
      ensures forall shard :: shard in shards ==> shard.capacity == Share(totalMemory, shardCount)
    {
      shardMask := mask;
      shardCount := Number(mask) + 1;
      shards := [];
      contents := map[];
      new;
      hide Number, ShardIndex, IsPowerOfTwoLessOne, Share;
      var perShard := Share(totalMemory, shardCount);
      while |shards| < shardCount
        invariant |shards| <= shardCount
        invariant fresh(shards) && contents == map[]
        invariant forall i :: 0 <= i < |shards| ==> shards[i].data == map[] && shards[i].capacity == perShard
        invariant forall i, j :: 0 <= i < j < |shards| ==> shards[i] != shards[j]
        decreases shardCount - |shards|
      {
        var shard := new Shard(perShard);
        shards := shards + [shard];
      }
    }

    /** A write to one key of one shard leaves every other key where it was. */
    twostate lemma OnlyThisKey(key: string)
      requires old(Valid()) && shards == old(shards) && contents == old(contents)
      requires var home := shards[ShardIndex(key, shardMask)];
               && (forall s :: s in shards && s != home ==> s.data == old(s.data))
               && (forall k :: k != key ==> (k in home.data <==> k in old(home.data)))
               && (forall k :: k != key && k in home.data ==> home.data[k] == old(home.data[k]))
      ensures Shaped() && Placed() && forall k :: k != key ==> Agrees(k)
    {
      hide ShardIndex;
      forall i, k | 0 <= i < |shards| && k in shards[i].data
        ensures ShardIndex(k, shardMask) == i
      {
        assert k != key ==> k in old(shards[i].data);
        assert shards[i] != shards[ShardIndex(key, shardMask)] ==> k in old(shards[i].data);
      }
      forall k | k != key
        ensures Agrees(k)
      {
        assert old(Agrees(k));
      }
    }

    /** Records in `contents` what has just happened to one key in its shard. */
    ghost method Record(key: string)
      requires Shaped() && Placed() && forall k :: k != key ==> Agrees(k)
      modifies this`contents
      ensures Valid()
      ensures var d := shards[ShardIndex(key, shardMask)].data;
              contents == if key in d then old(contents)[key := d[key]] else old(contents) - {key}
    {
      hide ShardIndex;
      var d := shards[ShardIndex(key, shardMask)].data;
      contents := if key in d then contents[key := d[key]] else contents - {key};
      forall k: string
        ensures Agrees(k)
      {
        assert k != key ==> old(Agrees(k));
      }
    }

    /** shard_for_key */
    method ShardForKey(key: string) returns (shard: Shard)
      requires Valid()
      ensures shard == shards[ShardIndex(key, shardMask)] && shard in shards && Agrees(key)
    {
      hide ShardIndex;
      shard := shards[ShardIndex(key, shardMask)];
    }

    /** Stores one entry, the way commands do that hold the shard's lock themselves. */
    method Put(key: string, e: Entry)
      requires Valid()
      modifies this`contents, shards
      ensures Valid() && contents == old(contents)[key := e]
    {
      hide ShardIndex;
      var shard := ShardForKey(key);
      shard.data := shard.data[key := e];
      OnlyThisKey(key);
      Record(key);
    }

    method Set(key: string, value: string, ttl: Int64, now: Time, oom: bool) returns (stored: bool)
      requires Valid()
      modifies this`contents, shards
      ensures Valid() && stored == !oom
      ensures contents == if oom then old(contents) else old(contents)[key := Fresh(Str(value), now, ttl)]
    {
      hide ShardIndex;
      var shard := ShardForKey(key);
      stored := shard.Set(key, value, ttl, now, oom);
      OnlyThisKey(key);
      Record(key);
    }

    method Get(key: string, now: Time) returns (r: Option<string>)
      requires Valid()
      ensures r == if Visible(contents, key, now) then Some(GetText(contents[key].data)) else None
    {
      hide ShardIndex;
      var shard := ShardForKey(key);
      r := shard.Get(key, now);
    }

    method Del(key: string) returns (removed: bool)
      requires Valid()
      modifies this`contents, shards
      ensures Valid() && removed == Deletable(old(contents), key)
      ensures contents == if removed then old(contents)[key := old(contents)[key].(tombstoned := true)]
                          else old(contents)
    {
      hide ShardIndex;
      var shard := ShardForKey(key);
      removed := shard.Del(key);
      OnlyThisKey(key);
      Record(key);
    }

    method Exists(key: string, now: Time) returns (r: bool)
      requires Valid()
      ensures r == Visible(contents, key, now)
    {
      hide ShardIndex;
      var shard := ShardForKey(key);
      r := shard.Exists(key, now);
    }

    method EvictExpired(key: string, now: Time) returns (evicted: bool)
      requires Valid()
      modifies this`contents, shards
      ensures Valid() && evicted == Sweepable(old(contents), key, now)
      ensures contents == Sweep(old(contents), key, now).0
    {
      hide ShardIndex;
      var shard := ShardForKey(key);
      evicted := shard.EvictExpired(key, now);
      OnlyThisKey(key);
      Record(key);
    }
  }

  // ----- ICommand::execute

  /** What a command must have done: the table's step, its reply on the wire, and its log line unless replaying. */
  twostate predicate Executed(router: ShardRouter, aof: AofLogger, c: Command, now: Time, oom: bool, response: string)
    reads router, router.shards, aof
  {
    var out := Exec(old(router.contents), c, now, oom);
    && router.Valid() && aof.Valid()
    && router.contents == out.table
    && response == Encode(out.reply)
    && Logged(aof, out.log)
  }

  /** A running logger that is not replaying puts lines into its active buffer; nothing else changes. */
  function Took(s: Logger, replaying: bool, lines: seq<string>): Logger {
    var added := if s.running && !replaying then lines else [];
    s.(active := s.active + added, accepted := s.accepted + added)
  }

  lemma TookMore(s: Logger, replaying: bool, a: seq<string>, b: seq<string>)
    ensures Took(Took(s, replaying, a), replaying, b) == Took(s, replaying, a + b)
  {
    assert s.active + a + b == s.active + (a + b) && s.accepted + a + b == s.accepted + (a + b);
    assert s.active + [] == s.active && s.accepted + [] == s.accepted;
  }

  lemma TookNothing(s: Logger, replaying: bool)
    ensures Took(s, replaying, []) == s
  {
  }

  twostate predicate Logged(aof: AofLogger, lines: seq<string>)
    reads aof
  {
    aof.replaying == old(aof.replaying) && aof.State() == Took(old(aof.State()), old(aof.replaying), lines)
  }

  method LogWrite(aof: AofLogger, c: Command)
    requires aof.Valid()
    modifies aof
    ensures aof.Valid() && Logged(aof, [Serialize(c)])
  {
    if !aof.replaying {
      aof.LogCommand(Serialize(c));
    }
  }

  method ExecuteSet(c: Command, router: ShardRouter, aof: AofLogger, now: Time, oom: bool) returns (response: string)
    requires c.Set? && router.Valid() && aof.Valid()
    modifies router`contents, router.shards, aof
    ensures router.shards == old(router.shards) && Executed(router, aof, c, now, oom, response)
  {
    hide Inv, Serialize;
    var stored := router.Set(c.key, c.value, c.ttl, now, oom);
    if stored {
      LogWrite(aof, c);
      return "+" + "OK" + "\r\n";
    }
    return Encode(OOM_ERROR);
  }

  method ExecuteDel(c: Command, router: ShardRouter, aof: AofLogger, now: Time, oom: bool) returns (response: string)
    requires c.Del? && router.Valid() && aof.Valid()
    modifies router`contents, router.shards, aof
    ensures router.shards == old(router.shards) && Executed(router, aof, c, now, oom, response)
  {
    hide Inv, Serialize;
    var removed := router.Del(c.key);
    if removed {
      LogWrite(aof, c);
    }
    return ":" + ToString(if removed then 1 else 0) + "\r\n";
  }

  lemma IntegerReply(n: int)
    ensures Encode(Integer(n)) == ":" + ToString(n) + "\r\n"
  {
  }

  /** The change LPUSH and HSET make under the shard's lock: one entry stored, one line logged. */
  method PutAndLog(c: Command, entry: Entry, router: ShardRouter, aof: AofLogger)
    requires !c.Ping? && router.Valid() && aof.Valid()
    modifies router`contents, router.shards, aof
    ensures router.Valid() && router.shards == old(router.shards) && aof.Valid()
    ensures router.contents == old(router.contents)[c.key := entry] && Logged(aof, [Serialize(c)])
  {
    hide Inv, Serialize, ShardIndex;
    router.Put(c.key, entry);
    LogWrite(aof, c);
  }

  /** Appends to the list, although its name says prepend. */
  method ExecuteLPush(c: Command, router: ShardRouter, aof: AofLogger, now: Time, oom: bool) returns (response: string)
    requires c.LPush? && router.Valid() && aof.Valid()
    modifies router`contents, router.shards, aof
    ensures router.shards == old(router.shards) && Executed(router, aof, c, now, oom, response)
  {
    hide Inv, Serialize, Encode, EncodeAll, ToString, ShardIndex;
    if oom {
      return Encode(OOM_ERROR);
    }
    var shard := router.ShardForKey(c.key);
    var entry := Entry(List([c.value]), now, c.ttl, false);
    if c.key in shard.data && !shard.data[c.key].tombstoned && !IsExpired(shard.data[c.key], now) {
      var stored := shard.data[c.key];
      if !stored.data.List? {
        return Encode(WRONG_TYPE);
      }
      entry := stored.(data := List(stored.data.items + [c.value]));
    }
    PutAndLog(c, entry, router, aof);
    IntegerReply(|entry.data.items|);
    return ":" + ToString(|entry.data.items|) + "\r\n";
  }

  lemma HSetOutcome(m: Table, c: Command, now: Time)
    requires c.HSet?
    ensures Exec(m, c, now, true) == Outcome(m, OOM_ERROR, [])
    ensures !Visible(m, c.key, now) ==>
              Exec(m, c, now, false) ==
              Outcome(m[c.key := Fresh(Hash(map[c.field := c.value]), now, c.ttl)], Integer(1), [Serialize(c)])
    ensures Visible(m, c.key, now) && m[c.key].data.Hash? ==>
              var h := m[c.key].data.fields;
              Exec(m, c, now, false) ==
              Outcome(m[c.key := m[c.key].(data := Hash(h[c.field := c.value]))], Flag(c.field !in h),
                      [Serialize(c)])
    ensures Visible(m, c.key, now) && !m[c.key].data.Hash? ==>
              Exec(m, c, now, false) == Outcome(m, WRONG_TYPE, [])
  {
  }

  method ExecuteHSet(c: Command, router: ShardRouter, aof: AofLogger, now: Time, oom: bool) returns (response: string)
    requires c.HSet? && router.Valid() && aof.Valid()
    modifies router`contents, router.shards, aof
    ensures router.shards == old(router.shards) && Executed(router, aof, c, now, oom, response)
  {
    hide Exec;
    HSetOutcome(router.contents, c, now);
    hide Inv, Serialize, Encode, EncodeAll, ToString, ShardIndex;
    if oom {
      return Encode(OOM_ERROR);
    }
    var shard := router.ShardForKey(c.key);
    var entry, added := Entry(Hash(map[c.field := c.value]), now, c.ttl, false), 1;
    if c.key in shard.data && !shard.data[c.key].tombstoned && !IsExpired(shard.data[c.key], now) {
      var stored := shard.data[c.key];
      if !stored.data.Hash? {
        return Encode(WRONG_TYPE);
      }
      added := if c.field in stored.data.fields then 0 else 1;
      entry := stored.(data := Hash(stored.data.fields[c.field := c.value]));
    }
    PutAndLog(c, entry, router, aof);
    IntegerReply(added);
    return ":" + ToString(added) + "\r\n";
  }

  /** The array of the elements between two bounds, element by element. */
  method RangeReply(list: seq<string>, start: Int64, stop: Int64) returns (result: string)
    ensures result == Encode(Array(Bulks(Range(list, start, stop))))
  {
    hide Encode, EncodeAll, Bulks;
    var len := |list|;
    var s := if start < 0 then start + len else start;
    var e := if stop < 0 then stop + len else stop;
    if s < 0 {
      s := 0;
    }
    if e >= len {
      e := len - 1;
    }
    if s > e {
      NoElements();
      return "*0" + CRLF;
    }
    result := ElementsReply(list, s, e);
  }

  method ElementsReply(list: seq<string>, s: nat, e: nat) returns (result: string)
    requires s <= e < |list|
    ensures result == Encode(Array(Bulks(list[s..e + 1])))
  {
    hide *;
    var count := e - s + 1;
    result := "*" + ToString(count) + CRLF;
    ghost var header := result;
    NoElementsYet(header, list, s);
    var i := s;
    while i <= e
      invariant s <= i <= e + 1
      invariant result == header + EncodeAll(Bulks(list[s..i]))
    {
      var elem := list[i];
      ElementAdded(header, list, s, i);
      result := result + ("$" + ToString(|elem|) + CRLF + elem + CRLF);
      i := i + 1;
    }
    ArrayReply(list[s..e + 1]);
  }

  lemma NoElementsYet(header: string, list: seq<string>, s: nat)
    requires s < |list|
    ensures header == header + EncodeAll(Bulks(list[s..s]))
  {
    NoElements();
    assert list[s..s] == [];
  }

  lemma ElementAdded(header: string, list: seq<string>, s: nat, i: nat)
    requires s <= i < |list|
    ensures header + EncodeAll(Bulks(list[s..i]))
            + ("$" + ToString(|list[i]|) + CRLF + list[i] + CRLF)
            == header + EncodeAll(Bulks(list[s..i + 1]))
  {
    hide Encode, EncodeAll, Bulks, ToString;
    BulksOfNext(list, s, i);
    BulkReply(list[i]);
  }

  lemma BulkReply(s: string)
    ensures Encode(Bulk(s)) == "$" + ToString(|s|) + CRLF + s + CRLF
  {
  }

  lemma ArrayReply(items: seq<string>)
    ensures Encode(Array(Bulks(items))) == "*" + ToString(|items|) + CRLF + EncodeAll(Bulks(items))
  {
  }

  lemma NoElements()
    ensures Encode(Array(Bulks([]))) == "*0" + CRLF
    ensures EncodeAll(Bulks([])) == ""
  {
    assert Bulks([]) == [] && EncodeAll([]) == "";
    assert Digits(0) == "0";
  }

  lemma BulksOfNext(list: seq<string>, s: nat, i: nat)
    requires s <= i < |list|
    ensures EncodeAll(Bulks(list[s..i + 1])) == EncodeAll(Bulks(list[s..i])) + Encode(Bulk(list[i]))
  {
    assert Bulks(list[s..i + 1]) == Bulks(list[s..i]) + [Bulk(list[i])];
    EncodeAllOfAppend(Bulks(list[s..i]), [Bulk(list[i])]);
    assert EncodeAll([Bulk(list[i])]) == Encode(Bulk(list[i])) + EncodeAll([]);
  }

  method ExecuteLRange(c: Command, router: ShardRouter, now: Time) returns (response: string)
    requires c.LRange? && router.Valid()
    ensures forall oom :: response == Encode(Exec(router.contents, c, now, oom).reply)
  {
    hide EncodeAll;
    var shard := router.ShardForKey(c.key);
    if c.key !in shard.data || shard.data[c.key].tombstoned || IsExpired(shard.data[c.key], now) {
      NoElements();
      assert Bulks([]) == [];
      return "*0" + CRLF;
    }
    var d := shard.data[c.key].data;
    if !d.List? {
      return Encode(WRONG_TYPE);
    }
    response := RangeReply(d.items, c.start, c.stop);
  }

  method ExecuteHGet(c: Command, router: ShardRouter, now: Time) returns (response: string)
    requires c.HGet? && router.Valid()
    ensures forall oom :: response == Encode(Exec(router.contents, c, now, oom).reply)
  {
    var shard := router.ShardForKey(c.key);
    if c.key !in shard.data || shard.data[c.key].tombstoned || IsExpired(shard.data[c.key], now) {
      return "$-1" + CRLF;
    }
    var d := shard.data[c.key].data;
    if !d.Hash? {
      return Encode(WRONG_TYPE);
    }
    if c.field !in d.fields {
      return "$-1" + CRLF;
    }
    var v := d.fields[c.field];
    return "$" + ToString(|v|) + CRLF + v + CRLF;
  }

  method ExecuteGet(c: Command, router: ShardRouter, now: Time) returns (response: string)
    requires c.Get? && router.Valid()
    ensures forall oom :: response == Encode(Exec(router.contents, c, now, oom).reply)
  {
    var r := router.Get(c.key, now);
    match r
    case None => return "$-1" + CRLF;
    case Some(v) => return "$" + ToString(|v|) + CRLF + v + CRLF;
  }

  method ExecuteExists(c: Command, router: ShardRouter, now: Time) returns (response: string)
    requires c.Exists? && router.Valid()
    ensures forall oom :: response == Encode(Exec(router.contents, c, now, oom).reply)
  {
    hide EncodeAll, ToString;
    var r := router.Exists(c.key, now);
    return ":" + ToString(if r then 1 else 0) + "\r\n";
  }

  method ExecutePing(c: Command, router: ShardRouter, now: Time) returns (response: string)
    requires c.Ping?
    ensures forall oom :: response == Encode(Exec(router.contents, c, now, oom).reply)
  {
    return "+" + "PONG" + "\r\n";
  }

  lemma ReadsChangeNothing(m: Table, c: Command, now: Time, oom: bool)
    requires c.Get? || c.Exists? || c.Ping? || c.LRange? || c.HGet?
    ensures Exec(m, c, now, oom).table == m && Exec(m, c, now, oom).log == []
  {
  }

  method Execute(c: Command, router: ShardRouter, aof: AofLogger, now: Time, oom: bool) returns (response: string)
    requires router.Valid() && aof.Valid()
    modifies router`contents, router.shards, aof
    ensures router.shards == old(router.shards) && Executed(router, aof, c, now, oom, response)
  {
    hide Exec, Inv, Encode, ShardIndex;
    if c.Get? || c.Exists? || c.Ping? || c.LRange? || c.HGet? {
      ReadsChangeNothing(router.contents, c, now, oom);
      TookNothing(aof.State(), aof.replaying);
    }
    match c
    case Set(_, _, _) => response := ExecuteSet(c, router, aof, now, oom);
    case Get(_) => response := ExecuteGet(c, router, now);
    case Del(_) => response := ExecuteDel(c, router, aof, now, oom);
    case Exists(_) => response := ExecuteExists(c, router, now);
    case Ping => response := ExecutePing(c, router, now);
    case LPush(_, _, _) => response := ExecuteLPush(c, router, aof, now, oom);
    case LRange(_, _, _) => response := ExecuteLRange(c, router, now);
    case HSet(_, _, _, _) => response := ExecuteHSet(c, router, aof, now, oom);
    case HGet(_, _) => response := ExecuteHGet(c, router, now);
  }

  /**
   The startup loop over the file, read in text mode: empty lines and lines that are no commands are skipped,
   the rest is executed with logging switched off. `oom(i)` says that memory runs out at line i.
   */
  method ReplayFile(text: string, router: ShardRouter, aof: AofLogger, clock: nat -> Time, oom: nat -> bool)
    returns (replayed: nat)
    requires router.Valid() && aof.Valid()
    modifies router`contents, router.shards, aof
    ensures router.Valid() && aof.Valid() && router.shards == old(router.shards)
    ensures router.contents == Replayed(old(router.contents), TextLines(text), clock, oom, 0)
    ensures aof.State() == old(aof.State()) && !aof.replaying
  {
    hide Exec, Inv, Parse, Tokens, Replayed, ReplayedLine, TextLines;
    aof.SetReplaying(true);
    replayed := 0;
    var lines := TextLines(text);
    assert lines[0..] == lines;
    for i := 0 to |lines|
      invariant router.Valid() && aof.Valid() && aof.replaying && router.shards == old(router.shards)
      invariant aof.State() == old(aof.State())
      invariant Replayed(router.contents, lines[i..], clock, oom, i) ==
                Replayed(old(router.contents), lines, clock, oom, 0)
    {
      ReplayedFrom(router.contents, lines, clock, oom, i);
      var done := ReplayOne(lines[i], router, aof, clock(i), oom(i));
      replayed := if done then replayed + 1 else replayed;
    }
    assert lines[|lines|..] == [];
    ReplayedNothing(router.contents, clock, oom, |lines|);
    aof.SetReplaying(false);
  }

  lemma ReplayedFrom(m: Table, lines: seq<string>, clock: nat -> Time, oom: nat -> bool, i: nat)
    requires i < |lines|
    ensures Replayed(m, lines[i..], clock, oom, i) ==
            Replayed(ReplayedLine(m, lines[i], clock(i), oom(i)), lines[i + 1..], clock, oom, i + 1)
  {
    assert lines[i..][0] == lines[i] && lines[i..][1..] == lines[i + 1..];
  }

  lemma ReplayedNothing(m: Table, clock: nat -> Time, oom: nat -> bool, i: nat)
    ensures Replayed(m, [], clock, oom, i) == m
  {
  }

  method ReplayOne(line: string, router: ShardRouter, aof: AofLogger, now: Time, oom: bool) returns (done: bool)
    requires router.Valid() && aof.Valid() && aof.replaying
    modifies router`contents, router.shards, aof
    ensures router.Valid() && aof.Valid() && router.shards == old(router.shards)
    ensures done == (ParseLine(line) != None)
    ensures router.contents == ReplayedLine(old(router.contents), line, now, oom)
    ensures aof.State() == old(aof.State()) && aof.replaying
  {
    hide Exec, Inv, Parse, Tokens;
    if line == "" {
      EmptyLineIsNoCommand();
      return false;
    }
    var tokens := Tokenize(line);
    match Parse(tokens)
    case None => return false;
    case Some(c) =>
      var _ := Execute(c, router, aof, now, oom);
      return true;
  }

  lemma EmptyLineIsNoCommand()
    ensures ParseLine("") == None
  {
    TokensOfNothing();
  }
}
