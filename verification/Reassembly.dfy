/**
 Putting replies back in order: results reach a connection in whatever order the workers
 finished, and leave it in the order the requests came.
 */
module Reassembly {
  import opened Resp
  import opened Pool

  /** ConnectionState; a reply is kept as the value its bytes encode. */
  datatype Conn = Conn(
    readBuffer: string, writeBuffer: string, writePending: bool, clientIp: string,
    nextSeqIssue: nat, nextSeqExpected: nat, outOfOrder: map<nat, Value>, inFlight: nat)

  function NewConn(ip: string): Conn {
    Conn("", "", false, ip, 0, 0, map[], 0)
  }

  /** Moves the next expected reply to the write buffer. */
  function FlushOne(c: Conn): Conn
    requires c.nextSeqExpected in c.outOfOrder
  {
    c.(writeBuffer := c.writeBuffer + Encode(c.outOfOrder[c.nextSeqExpected]),
       outOfOrder := c.outOfOrder - {c.nextSeqExpected},
       nextSeqExpected := c.nextSeqExpected + 1,
       inFlight := if c.inFlight > 0 then c.inFlight - 1 else 0,
       writePending := true)
  }

  lemma RemoveShrinks<K, V>(m: map<K, V>, k: K)
    requires k in m
    ensures |m - {k}| < |m|
  {
    assert (m - {k}).Keys == m.Keys - {k};
    assert |m.Keys - {k}| < |m.Keys|;
  }

  /** Flushes the contiguous replies at the front of the buffer. */
  function Flush(c: Conn): Conn
    decreases |c.outOfOrder|
  {
    if c.nextSeqExpected in c.outOfOrder then
      RemoveShrinks(c.outOfOrder, c.nextSeqExpected);
      Flush(FlushOne(c))
    else c
  }

  function Buffer(c: Conn, n: nat, v: Value): Conn {
    c.(outOfOrder := c.outOfOrder[n := v])
  }

  function Deliver(c: Conn, r: TaskResult): Conn {
    Flush(Buffer(c, r.seqno, r.response))
  }

  /** Results are delivered one after the other, each followed by a flush. */
  function DeliverAll(c: Conn, rs: seq<TaskResult>): Conn {
    if rs == [] then c else Deliver(DeliverAll(c, rs[..|rs| - 1]), rs[|rs| - 1])
  }

  function Arrived(rs: seq<TaskResult>): map<nat, Value> {
    if rs == [] then map[]
    else Arrived(rs[..|rs| - 1])[rs[|rs| - 1].seqno := rs[|rs| - 1].response]
  }

  /** Results that are still due: different numbers, none flushed or buffered already. */
  predicate StillDue(c: Conn, rs: seq<TaskResult>) {
    && (forall i, j :: 0 <= i < j < |rs| ==> rs[i].seqno != rs[j].seqno)
    && forall i :: 0 <= i < |rs| ==> rs[i].seqno >= c.nextSeqExpected && rs[i].seqno !in c.outOfOrder
  }

  /** Flushing before a further reply arrives makes no difference. */
  lemma {:induction false} FlushEarly(c: Conn, n: nat, v: Value)
    requires n >= c.nextSeqExpected && n !in c.outOfOrder
    ensures Flush(Buffer(Flush(c), n, v)) == Flush(Buffer(c, n, v))
    decreases |c.outOfOrder|
  {
    var e := c.nextSeqExpected;
    if e in c.outOfOrder {
      RemoveShrinks(c.outOfOrder, e);
      assert c.outOfOrder[n := v] - {e} == (c.outOfOrder - {e})[n := v];
      assert FlushOne(Buffer(c, n, v)) == Buffer(FlushOne(c), n, v);
      FlushEarly(FlushOne(c), n, v);
    }
  }

  function WithArrived(c: Conn, rs: seq<TaskResult>): Conn {
    c.(outOfOrder := c.outOfOrder + Arrived(rs))
  }

  lemma NotYetArrived(rs: seq<TaskResult>)
    requires rs != [] && forall i, j :: 0 <= i < j < |rs| ==> rs[i].seqno != rs[j].seqno
    ensures rs[|rs| - 1].seqno !in Arrived(rs[..|rs| - 1])
  {
    ArrivedKeys(rs[..|rs| - 1]);
  }

  /** Any number of deliveries amounts to buffering everything and flushing once. */
  lemma {:induction false} DeliverAllIsOneFlush(c: Conn, rs: seq<TaskResult>)
    requires StillDue(c, rs) && c.nextSeqExpected !in c.outOfOrder
    ensures DeliverAll(c, rs) == Flush(WithArrived(c, rs))
  {
    if rs == [] {
      assert c.outOfOrder + map[] == c.outOfOrder;
    } else {
      hide Flush;
      var n := |rs| - 1;
      var init, last := rs[..n], rs[n];
      DeliverAllIsOneFlush(c, init);
      NotYetArrived(rs);
      FlushEarly(WithArrived(c, init), last.seqno, last.response);
      assert Buffer(WithArrived(c, init), last.seqno, last.response) == WithArrived(c, rs) by {
        assert (c.outOfOrder + Arrived(init))[last.seqno := last.response] == c.outOfOrder + Arrived(rs);
      }
    }
  }

  lemma {:induction false} ArrivedKeys(rs: seq<TaskResult>)
    ensures forall n :: n in Arrived(rs) <==> exists i :: 0 <= i < |rs| && rs[i].seqno == n
  {
    if rs != [] {
      var init := rs[..|rs| - 1];
      ArrivedKeys(init);
      assert forall i :: 0 <= i < |init| ==> rs[i] == init[i];
    }
  }

  lemma {:induction false} ArrivedAt(rs: seq<TaskResult>, i: nat)
    requires i < |rs| && forall j, k :: 0 <= j < k < |rs| ==> rs[j].seqno != rs[k].seqno
    ensures rs[i].seqno in Arrived(rs) && Arrived(rs)[rs[i].seqno] == rs[i].response
  {
    var n := |rs| - 1;
    if i < n {
      ArrivedAt(rs[..n], i);
      assert rs[i] == rs[..n][i];
    }
  }

  lemma ArrivedOfPermutation(a: seq<TaskResult>, b: seq<TaskResult>)
    requires multiset(a) == multiset(b)
    requires forall j, k :: 0 <= j < k < |a| ==> a[j].seqno != a[k].seqno
    requires forall j, k :: 0 <= j < k < |b| ==> b[j].seqno != b[k].seqno
    ensures Arrived(a) == Arrived(b)
  {
    SubMap(a, b);
    SubMap(b, a);
  }

  lemma SubMap(a: seq<TaskResult>, b: seq<TaskResult>)
    requires multiset(a) == multiset(b)
    requires forall j, k :: 0 <= j < k < |a| ==> a[j].seqno != a[k].seqno
    requires forall j, k :: 0 <= j < k < |b| ==> b[j].seqno != b[k].seqno
    ensures forall n :: n in Arrived(a) ==> n in Arrived(b) && Arrived(a)[n] == Arrived(b)[n]
  {
    forall n | n in Arrived(a)
      ensures n in Arrived(b) && Arrived(a)[n] == Arrived(b)[n]
    {
      ArrivedKeys(a);
      var i :| 0 <= i < |a| && a[i].seqno == n;
      ArrivedAt(a, i);
      assert a[i] in multiset(b);
      var j :| 0 <= j < |b| && b[j] == a[i];
      ArrivedAt(b, j);
    }
  }

  /** One connection: the order in which results arrive does not matter. */
  lemma DeliveryOrderIsIrrelevant(c: Conn, a: seq<TaskResult>, b: seq<TaskResult>)
    requires StillDue(c, a) && StillDue(c, b) && c.nextSeqExpected !in c.outOfOrder
    requires multiset(a) == multiset(b)
    ensures DeliverAll(c, a) == DeliverAll(c, b)
  {
    DeliverAllIsOneFlush(c, a);
    DeliverAllIsOneFlush(c, b);
    ArrivedOfPermutation(a, b);
  }

  // ----- All connections

  /** drain_completion_queue: results of dropped connections are discarded. */
  function DrainOne(conns: map<Socket, Conn>, r: TaskResult): map<Socket, Conn> {
    if r.fd in conns then conns[r.fd := Deliver(conns[r.fd], r)] else conns
  }

  function DrainInto(conns: map<Socket, Conn>, rs: seq<TaskResult>): map<Socket, Conn> {
    if rs == [] then conns else DrainOne(DrainInto(conns, rs[..|rs| - 1]), rs[|rs| - 1])
  }

  function For(fd: Socket, rs: seq<TaskResult>): seq<TaskResult> {
    if rs == [] then []
    else For(fd, rs[..|rs| - 1]) + if rs[|rs| - 1].fd == fd then [rs[|rs| - 1]] else []
  }

  lemma {:induction false} DrainPerConnection(conns: map<Socket, Conn>, rs: seq<TaskResult>)
    ensures DrainInto(conns, rs).Keys == conns.Keys
    ensures forall fd :: fd in conns ==> DrainInto(conns, rs)[fd] == DeliverAll(conns[fd], For(fd, rs))
  {
    if rs != [] {
      var n := |rs| - 1;
      var init, last := rs[..n], rs[n];
      DrainPerConnection(conns, init);
      hide Deliver;
      forall fd | fd in conns
        ensures DrainInto(conns, rs)[fd] == DeliverAll(conns[fd], For(fd, rs))
      {
        if last.fd == fd {
          assert (For(fd, init) + [last])[..|For(fd, init)|] == For(fd, init);
        } else {
          assert For(fd, init) + [] == For(fd, init);
        }
      }
    }
  }

  lemma {:induction false} ForCounts(fd: Socket, rs: seq<TaskResult>)
    ensures forall r :: multiset(For(fd, rs))[r] == if r.fd == fd then multiset(rs)[r] else 0
  {
    if rs != [] {
      var n := |rs| - 1;
      ForCounts(fd, rs[..n]);
      assert rs == rs[..n] + [rs[n]];
      assert multiset(rs) == multiset(rs[..n]) + multiset{rs[n]};
      assert multiset(For(fd, rs)) ==
             multiset(For(fd, rs[..n])) + if rs[n].fd == fd then multiset{rs[n]} else multiset{};
    }
  }

  lemma {:induction false} ForKeeps(fd: Socket, rs: seq<TaskResult>)
    requires forall i, j :: 0 <= i < j < |rs| ==> (rs[i].fd, rs[i].seqno) != (rs[j].fd, rs[j].seqno)
    ensures forall r :: r in For(fd, rs) ==> r in rs && r.fd == fd
    ensures forall i, j :: 0 <= i < j < |For(fd, rs)| ==> For(fd, rs)[i].seqno != For(fd, rs)[j].seqno
  {
    if rs != [] {
      var n := |rs| - 1;
      ForKeeps(fd, rs[..n]);
      assert forall r :: r in rs[..n] ==> r in rs && (r.fd, r.seqno) != (rs[n].fd, rs[n].seqno);
    }
  }

  /** Results that may come in: at most one per request, and only for requests still waiting. */
  predicate AllStillDue(conns: map<Socket, Conn>, rs: seq<TaskResult>) {
    && (forall i, j :: 0 <= i < j < |rs| ==> (rs[i].fd, rs[i].seqno) != (rs[j].fd, rs[j].seqno))
    && (forall r :: r in rs && r.fd in conns ==>
          r.seqno >= conns[r.fd].nextSeqExpected && r.seqno !in conns[r.fd].outOfOrder)
    && forall fd :: fd in conns ==> conns[fd].nextSeqExpected !in conns[fd].outOfOrder
  }

  lemma ForPermutation(fd: Socket, a: seq<TaskResult>, b: seq<TaskResult>)
    requires multiset(a) == multiset(b)
    ensures multiset(For(fd, a)) == multiset(For(fd, b))
  {
    ForCounts(fd, a);
    ForCounts(fd, b);
  }

  lemma DrainOrderIsIrrelevant(conns: map<Socket, Conn>, a: seq<TaskResult>, b: seq<TaskResult>)
    requires AllStillDue(conns, a) && AllStillDue(conns, b) && multiset(a) == multiset(b)
    ensures DrainInto(conns, a) == DrainInto(conns, b)
  {
    hide DeliverAll, DrainInto, For, StillDue;
    assert forall fd :: fd in conns ==> conns[fd].nextSeqExpected !in conns[fd].outOfOrder;
    DrainPerConnection(conns, a);
    DrainPerConnection(conns, b);
    forall fd | fd in conns
      ensures DrainInto(conns, a)[fd] == DrainInto(conns, b)[fd]
    {
      StillDueFor(conns, a, fd);
      StillDueFor(conns, b, fd);
      ForPermutation(fd, a, b);
      DeliveryOrderIsIrrelevant(conns[fd], For(fd, a), For(fd, b));
    }
  }

  lemma StillDueFor(conns: map<Socket, Conn>, rs: seq<TaskResult>, fd: Socket)
    requires AllStillDue(conns, rs) && fd in conns
    ensures StillDue(conns[fd], For(fd, rs))
  {
    ForKeeps(fd, rs);
    assert forall i :: 0 <= i < |For(fd, rs)| ==> For(fd, rs)[i] in For(fd, rs);
  }

  lemma {:induction false} DrainOfAppend(conns: map<Socket, Conn>, a: seq<TaskResult>, b: seq<TaskResult>)
    ensures DrainInto(conns, a + b) == DrainInto(DrainInto(conns, a), b)
  {
    if b == [] {
      assert a + b == a;
    } else {
      var n := |b| - 1;
      assert (a + b)[..|a + b| - 1] == a + b[..n];
      DrainOfAppend(conns, a, b[..n]);
    }
  }

  function Concat(batches: seq<seq<TaskResult>>): seq<TaskResult> {
    if batches == [] then [] else batches[0] + Concat(batches[1..])
  }

  /** Several rounds of draining, one batch each. */
  function DrainRounds(conns: map<Socket, Conn>, batches: seq<seq<TaskResult>>): map<Socket, Conn>
    decreases |batches|
  {
    if batches == [] then conns else DrainRounds(DrainInto(conns, batches[0]), batches[1..])
  }

  lemma {:induction false} RoundsAreOneDrain(conns: map<Socket, Conn>, batches: seq<seq<TaskResult>>)
    ensures DrainRounds(conns, batches) == DrainInto(conns, Concat(batches))
    decreases |batches|
  {
    if batches != [] {
      RoundsAreOneDrain(DrainInto(conns, batches[0]), batches[1..]);
      DrainOfAppend(conns, batches[0], Concat(batches[1..]));
    }
  }

  /**
   Reassembly is confluent: the same results, in any order and split over any number of
   drains, leave every connection in the same state.
   */
  lemma ReassemblyIsConfluent(conns: map<Socket, Conn>, a: seq<seq<TaskResult>>, b: seq<seq<TaskResult>>)
    requires AllStillDue(conns, Concat(a)) && AllStillDue(conns, Concat(b))
    requires multiset(Concat(a)) == multiset(Concat(b))
    ensures DrainRounds(conns, a) == DrainRounds(conns, b)
  {
    RoundsAreOneDrain(conns, a);
    RoundsAreOneDrain(conns, b);
    DrainOrderIsIrrelevant(conns, Concat(a), Concat(b));
  }
}
