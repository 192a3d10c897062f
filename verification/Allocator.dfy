/**
 Accounting of a shard's arena: the tracker counts live bytes in a 64-bit word in front
 of an upstream pool over a fixed buffer.
 */
module Allocator {
  import opened Text

  const SIZE_T: nat := 0x1_0000_0000_0000_0000

  /** No `vector<byte>` is larger, so no arena is. */
  const LARGEST_BUFFER: nat := 0x7fff_ffff_ffff_ffff

  datatype Block = Block(address: nat, size: nat)

  /** `live` lists the blocks handed out and not yet returned. */
  datatype Tracker = Tracker(capacity: nat, used: nat, live: seq<Block>)

  function Sum(blocks: seq<Block>): nat {
    if blocks == [] then 0 else blocks[0].size + Sum(blocks[1..])
  }

  lemma {:induction false} SumOfAppend(a: seq<Block>, b: seq<Block>)
    ensures Sum(a + b) == Sum(a) + Sum(b)
  {
    if a == [] {
      assert a + b == b;
    } else {
      assert (a + b)[1..] == a[1..] + b;
      SumOfAppend(a[1..], b);
    }
  }

  function Without(blocks: seq<Block>, i: nat): seq<Block>
    requires i < |blocks|
  {
    blocks[..i] + blocks[i + 1..]
  }

  lemma SumWithout(blocks: seq<Block>, i: nat)
    requires i < |blocks|
    ensures Sum(blocks) == Sum(Without(blocks, i)) + blocks[i].size
  {
    var before, block, after := blocks[..i], blocks[i], blocks[i + 1..];
    assert blocks == before + ([block] + after);
    SumOfAppend(before, [block] + after);
    SumOfAppend(before, after);
    assert ([block] + after)[1..] == after;
  }

  /** The limit test as written: the sum is a 64-bit word and may wrap. */
  predicate OverLimit(t: Tracker, bytes: nat) {
    (t.used + bytes) % SIZE_T > t.capacity
  }

  /** The upstream pool cannot hand out more than its whole buffer. */
  predicate UpstreamRespectsBuffer(t: Tracker, bytes: nat, upstream: Option<nat>) {
    bytes > t.capacity ==> upstream == None
  }

  /** None is OomException. */
  function Allocate(t: Tracker, bytes: nat, upstream: Option<nat>): (Tracker, Option<nat>) {
    if OverLimit(t, bytes) || upstream.None? then (t, None)
    else (t.(used := (t.used + bytes) % SIZE_T, live := t.live + [Block(upstream.value, bytes)]), upstream)
  }

  function Saturating(used: nat, bytes: nat): nat {
    if used >= bytes then used - bytes else 0
  }

  /** Returns the `i`-th live block, with the size it was allocated with. */
  function Deallocate(t: Tracker, i: nat): Tracker
    requires i < |t.live|
  {
    var bytes := t.live[i].size;
    t.(used := Saturating(t.used, bytes), live := Without(t.live, i))
  }

  /** The counter is exactly the live bytes, and they fit. */
  predicate Inv(t: Tracker) {
    t.used == Sum(t.live) && t.used <= t.capacity <= LARGEST_BUFFER
  }

  /** A request passes the wrapping test without fitting exactly when the sum wraps below the capacity. */
  lemma WrapPassesTest(t: Tracker, bytes: nat)
    requires Inv(t) && bytes < SIZE_T
    ensures !OverLimit(t, bytes) && t.used + bytes > t.capacity <==>
            SIZE_T <= t.used + bytes <= SIZE_T + t.capacity
  {
    if t.used + bytes >= SIZE_T {
      assert (t.used + bytes) % SIZE_T == t.used + bytes - SIZE_T;
    }
  }

  /** Behind an upstream bounded by the buffer, wrapping is harmless: a request succeeds only if it fits. */
  lemma AllocateKeepsInv(t: Tracker, bytes: nat, upstream: Option<nat>)
    requires Inv(t) && bytes < SIZE_T && UpstreamRespectsBuffer(t, bytes, upstream)
    ensures Inv(Allocate(t, bytes, upstream).0)
    ensures Allocate(t, bytes, upstream).1.Some? <==> upstream.Some? && t.used + bytes <= t.capacity
    ensures Allocate(t, bytes, upstream).1.Some? ==>
              Allocate(t, bytes, upstream).0.used == t.used + bytes
    ensures Allocate(t, bytes, upstream).1.None? ==> Allocate(t, bytes, upstream).0 == t
  {
    WrapPassesTest(t, bytes);
    if upstream.Some? {
      SumOfAppend(t.live, [Block(upstream.value, bytes)]);
    }
  }

  /** The hard limit is reached exactly when no request of at least one byte can succeed any more. */
  lemma FullRefusesAll(t: Tracker)
    requires Inv(t)
    ensures t.used >= t.capacity <==>
            forall bytes, upstream :: 0 < bytes < SIZE_T && UpstreamRespectsBuffer(t, bytes, upstream)
              ==> Allocate(t, bytes, upstream).1.None?
  {
    if t.used < t.capacity {
      AllocateKeepsInv(t, 1, Some(0));
      assert Allocate(t, 1, Some(0)).1.Some?;
    } else {
      forall bytes, upstream | 0 < bytes < SIZE_T && UpstreamRespectsBuffer(t, bytes, upstream)
        ensures Allocate(t, bytes, upstream).1.None?
      {
        AllocateKeepsInv(t, bytes, upstream);
      }
    }
  }

  /** Returning a live block never meets the saturating branch. */
  lemma DeallocateKeepsInv(t: Tracker, i: nat)
    requires Inv(t) && i < |t.live|
    ensures Inv(Deallocate(t, i))
    ensures t.used >= t.live[i].size && Deallocate(t, i).used == t.used - t.live[i].size
  {
    SumWithout(t.live, i);
  }

  /** An allocation followed by its deallocation restores the counter and the live blocks. */
  lemma AllocateThenDeallocate(t: Tracker, bytes: nat, upstream: Option<nat>)
    requires Inv(t) && bytes < SIZE_T && UpstreamRespectsBuffer(t, bytes, upstream)
    requires Allocate(t, bytes, upstream).1.Some?
    ensures Deallocate(Allocate(t, bytes, upstream).0, |t.live|) == t
  {
    AllocateKeepsInv(t, bytes, upstream);
    assert Without(t.live + [Block(upstream.value, bytes)], |t.live|) == t.live;
  }

  // ----- Whole runs of all shards

  datatype Op =
    | Alloc(shard: nat, bytes: nat, upstream: Option<nat>)
    | Free(shard: nat, block: nat)

  predicate OpOk(ts: seq<Tracker>, op: Op) {
    && op.shard < |ts|
    && match op
       case Alloc(s, bytes, upstream) => bytes < SIZE_T && UpstreamRespectsBuffer(ts[s], bytes, upstream)
       case Free(s, i) => i < |ts[s].live|
  }

  function Apply(ts: seq<Tracker>, op: Op): seq<Tracker>
    requires OpOk(ts, op)
  {
    match op
    case Alloc(s, bytes, upstream) => ts[s := Allocate(ts[s], bytes, upstream).0]
    case Free(s, i) => ts[s := Deallocate(ts[s], i)]
  }

  predicate RunOk(ts: seq<Tracker>, ops: seq<Op>)
    decreases |ops|
  {
    ops == [] || (OpOk(ts, ops[0]) && RunOk(Apply(ts, ops[0]), ops[1..]))
  }

  function Run(ts: seq<Tracker>, ops: seq<Op>): seq<Tracker>
    requires RunOk(ts, ops)
    decreases |ops|
  {
    if ops == [] then ts else Run(Apply(ts, ops[0]), ops[1..])
  }

  /** The router gives every shard an equal share of the memory. */
  function NewShards(maxMemory: nat, count: nat): seq<Tracker>
    requires count > 0
  {
    seq(count, _ => Tracker(maxMemory / count, 0, []))
  }

  /** The shares use up the memory but for less than one byte a shard. */
  lemma SharesAreFair(maxMemory: nat, count: nat, i: nat)
    requires i < count
    ensures |NewShards(maxMemory, count)| == count
    ensures var share := NewShards(maxMemory, count)[i].capacity;
            count * share <= maxMemory < count * share + count
  {
    var q, r := maxMemory / count, maxMemory % count;
    assert maxMemory == count * q + r;
  }

  function TotalUsed(ts: seq<Tracker>): nat {
    if ts == [] then 0 else ts[0].used + TotalUsed(ts[1..])
  }

  predicate ShardsInv(ts: seq<Tracker>, share: nat) {
    forall i :: 0 <= i < |ts| ==> Inv(ts[i]) && ts[i].capacity == share
  }

  lemma {:induction false} RunKeepsInv(ts: seq<Tracker>, ops: seq<Op>, share: nat)
    requires ShardsInv(ts, share) && RunOk(ts, ops)
    ensures ShardsInv(Run(ts, ops), share) && |Run(ts, ops)| == |ts|
    decreases |ops|
  {
    if ops != [] {
      var op := ops[0];
      match op {
        case Alloc(s, bytes, upstream) => AllocateKeepsInv(ts[s], bytes, upstream);
        case Free(s, i) => DeallocateKeepsInv(ts[s], i);
      }
      RunKeepsInv(Apply(ts, op), ops[1..], share);
    }
  }

  lemma {:induction false} TotalIsBounded(ts: seq<Tracker>, share: nat)
    requires ShardsInv(ts, share)
    ensures TotalUsed(ts) <= |ts| * share
  {
    if ts != [] {
      TotalIsBounded(ts[1..], share);
      assert |ts| * share == share + |ts[1..]| * share;
    }
  }

  /** Whatever is allocated and freed, in whatever order: exact counters, and never more than the memory limit. */
  lemma MemoryLimitHolds(maxMemory: nat, count: nat, ops: seq<Op>)
    requires count > 0 && maxMemory / count <= LARGEST_BUFFER
    requires RunOk(NewShards(maxMemory, count), ops)
    ensures var ts := Run(NewShards(maxMemory, count), ops);
            && (forall i :: 0 <= i < |ts| ==> ts[i].used == Sum(ts[i].live) <= maxMemory / count)
            && TotalUsed(ts) <= maxMemory
  {
    var share := maxMemory / count;
    var ts := Run(NewShards(maxMemory, count), ops);
    RunKeepsInv(NewShards(maxMemory, count), ops, share);
    TotalIsBounded(ts, share);
    ShareTimesCount(maxMemory, count);
  }

  lemma ShareTimesCount(maxMemory: nat, count: nat)
    requires count > 0
    ensures count * (maxMemory / count) <= maxMemory
  {
  }

  // ----- The class

  class TrackingMemoryResource {
    const capacity: nat
    var bytesUsed: nat
    ghost var live: seq<Block>

    ghost function State(): Tracker
      reads this
    {
      Tracker(capacity, bytesUsed, live)
    }

    constructor (capacity: nat)
      requires capacity <= LARGEST_BUFFER
      ensures State() == Tracker(capacity, 0, []) && Inv(State())
    {
      this.capacity, bytesUsed, live := capacity, 0, [];
    }

    method IsHardLimitReached() returns (reached: bool)
      requires Inv(State())
      ensures reached <==>
              forall bytes, upstream :: 0 < bytes < SIZE_T && UpstreamRespectsBuffer(State(), bytes, upstream)
                ==> Allocate(State(), bytes, upstream).1.None?
    {
      FullRefusesAll(State());
      return bytesUsed >= capacity;
    }

    method DoAllocate(bytes: nat, upstream: Option<nat>) returns (address: Option<nat>)
      requires Inv(State()) && bytes < SIZE_T && UpstreamRespectsBuffer(State(), bytes, upstream)
      modifies this
      ensures Inv(State()) && (State(), address) == Allocate(old(State()), bytes, upstream)
      ensures address.Some? <==> upstream.Some? && old(bytesUsed) + bytes <= capacity
    {
      AllocateKeepsInv(State(), bytes, upstream);
      if (bytesUsed + bytes) % SIZE_T > capacity {
        return None;
      }
      match upstream
      case None => return None;
      case Some(p) =>
        bytesUsed := (bytesUsed + bytes) % SIZE_T;
        live := live + [Block(p, bytes)];
        return Some(p);
    }

    method DoDeallocate(bytes: nat, ghost block: nat)
      requires Inv(State()) && block < |live| && live[block].size == bytes
      modifies this
      ensures Inv(State()) && State() == Deallocate(old(State()), block)
      ensures bytesUsed == old(bytesUsed) - bytes
    {
      DeallocateKeepsInv(State(), block);
      bytesUsed := Saturating(bytesUsed, bytes);
      live := Without(live, block);
    }
  }
}
