/**
 What the assumption on accepted socket handles is good for: a handle with something still
 under way misleads its next owner in some run, and any other handle never does.
 */
module Reuse {
  import opened Text
  import opened Framing
  import opened Commands
  import opened Resp
  import opened Pool
  import opened Reassembly
  import opened Protocol
  import opened Guarantees
  import opened Turns
  import opened Serving

  /** Request `n` of some connection with this handle is in the queue, at a worker, or completed. */
  ghost predicate Stale(p: PoolState, fd: Socket, n: nat) {
    || (exists t :: t in p.queue && t.fd == fd && t.seqno == n)
    || (exists i :: 0 <= i < |p.workers| && Holds(p.workers[i], fd, n))
    || HasResult(p.completions, fd, n)
  }

  predicate Holds(v: Worker, fd: Socket, n: nat) {
    (v.Busy? && v.task.fd == fd && v.task.seqno == n) || (v.Done? && v.result.fd == fd && v.result.seqno == n)
  }

  ghost predicate HasResult(rs: seq<TaskResult>, fd: Socket, n: nat) {
    exists r :: r in rs && r.fd == fd && r.seqno == n
  }

  lemma OutstandingIsStale(w: World, fd: Socket) returns (n: nat)
    requires fd !in w.conns && !NothingOutstanding(w, fd)
    ensures Stale(w.pool, fd, n)
  {
    if t :| t in w.pool.queue && t.fd == fd {
      n := t.seqno;
    } else if r :| r in w.pool.completions && r.fd == fd {
      n := r.seqno;
    } else {
      var v :| v in w.pool.workers && ((v.Busy? && v.task.fd == fd) || (v.Done? && v.result.fd == fd));
      n := if v.Busy? then v.task.seqno else v.result.seqno;
      assert Holds(v, fd, n);
    }
  }

  // ----- Workers of a running pool do not return

  predicate NoneExited(p: PoolState) {
    p.running ==> forall i :: 0 <= i < |p.workers| ==> !p.workers[i].Exited?
  }

  lemma StepKeepsNoneExited(w: World, s: Step)
    requires NoneExited(w.pool) && StepEnabled(w, s)
    ensures NoneExited(After(w, s).pool) && |After(w, s).pool.workers| == |w.pool.workers|
  {
    hide NothingOutstanding, DrainOne, NewlineAt, StripCr, ImmediateReply, ParseLine, Answer;
  }

  lemma {:induction false} RunKeepsNoneExited(w: World, steps: seq<Step>)
    requires NoneExited(w.pool) && Possible(w, steps)
    ensures NoneExited(RunWorld(w, steps).pool) && |RunWorld(w, steps).pool.workers| == |w.pool.workers|
    decreases |steps|
  {
    hide StepEnabled, After, NoneExited;
    if steps != [] {
      StepKeepsNoneExited(w, steps[0]);
      RunKeepsNoneExited(After(w, steps[0]), steps[1..]);
    }
  }

  lemma ReachableNoneExited(w: World)
    requires Reachable(w)
    ensures NoneExited(w.pool)
  {
    hide Possible, RunWorld;
    var workers: nat, max: nat, steps :|
      max >= 1 && Possible(Init(workers, max), steps) && w == RunWorld(Init(workers, max), steps);
    assert NoneExited(Init(workers, max).pool);
    RunKeepsNoneExited(Init(workers, max), steps);
  }

  // ----- The pool works off what it has

  /** The reactor is at rest and the pool running; steps of workers keep the rest as it was. */
  predicate Working(w: World) {
    AtRest(w) && w.pool.running && NoneExited(w.pool)
  }

  predicate Beside(w: World, w': World) {
    && w'.conns == w.conns && w'.hist.Keys == w.hist.Keys && |w'.pool.workers| == |w.pool.workers|
    && forall fd :: fd in w.hist ==> w'.hist[fd].lines == w.hist[fd].lines
  }

  lemma ExecuteHeld(w: World, i: nat, fd: Socket, n: nat) returns (w': World)
    requires Working(w) && i < |w.pool.workers| && w.pool.workers[i].Busy?
    ensures Reaches(w, w') && Working(w') && Beside(w, w')
    ensures w'.pool.queue == w.pool.queue && w'.pool.workers[i].Done?
    ensures w'.pool.workers == w.pool.workers[i := w'.pool.workers[i]]
    ensures Stale(w.pool, fd, n) ==> Stale(w'.pool, fd, n)
    ensures Holds(w.pool.workers[i], fd, n) ==> Holds(w'.pool.workers[i], fd, n)
  {
    var s := Work(Execute(i, Nil));
    assert StepEnabled(w, s);
    ReachesStep(w, s);
    w' := After(w, s);
    hide Reaches, Answer;
    StaleMoves(w.pool, w'.pool, i, fd, n);
  }

  /** One worker moves on; what it held it still holds, or has completed. */
  lemma StaleMoves(p: PoolState, q: PoolState, i: nat, fd: Socket, n: nat)
    requires i < |p.workers| == |q.workers| && q.workers == p.workers[i := q.workers[i]]
    requires forall t :: t in p.queue ==> t in q.queue || q.workers[i] == Busy(t)
    requires forall r :: r in p.completions ==> r in q.completions
    requires Holds(p.workers[i], fd, n) ==> Holds(q.workers[i], fd, n) || HasResult(q.completions, fd, n)
    ensures Stale(p, fd, n) ==> Stale(q, fd, n)
  {
    if t :| t in p.queue && t.fd == fd && t.seqno == n {
      assert t in q.queue || Holds(q.workers[i], fd, n);
    } else if j :| 0 <= j < |p.workers| && Holds(p.workers[j], fd, n) {
      assert j != i ==> q.workers[j] == p.workers[j];
    }
  }

  lemma PushHeld(w: World, i: nat, fd: Socket, n: nat) returns (w': World)
    requires Working(w) && i < |w.pool.workers| && w.pool.workers[i].Done?
    ensures Reaches(w, w') && Working(w') && Beside(w, w')
    ensures w'.pool.queue == w.pool.queue && w'.pool.workers == w.pool.workers[i := Idle]
    ensures Stale(w.pool, fd, n) ==> Stale(w'.pool, fd, n)
    ensures Holds(w.pool.workers[i], fd, n) ==> HasResult(w'.pool.completions, fd, n)
  {
    var s := Work(Push(i));
    ReachesStep(w, s);
    w' := After(w, s);
    hide Reaches;
    var r := w.pool.workers[i].result;
    assert r in w'.pool.completions;
    StaleMoves(w.pool, w'.pool, i, fd, n);
  }

  /** A worker finishes what it has. */
  lemma FreeWorker(w: World, i: nat, fd: Socket, n: nat) returns (w': World)
    requires Working(w) && i < |w.pool.workers|
    ensures Reaches(w, w') && Working(w') && Beside(w, w')
    ensures w'.pool.queue == w.pool.queue && w'.pool.workers == w.pool.workers[i := Idle]
    ensures Stale(w.pool, fd, n) ==> Stale(w'.pool, fd, n)
    ensures Holds(w.pool.workers[i], fd, n) ==> HasResult(w'.pool.completions, fd, n)
  {
    hide Reaches, Stale;
    ReachesItself(w);
    w' := w;
    if w'.pool.workers[i].Busy? {
      w' := ExecuteHeld(w, i, fd, n);
    }
    if w'.pool.workers[i].Done? {
      var w'' := PushHeld(w', i, fd, n);
      ReachesFurther(w, w', w'');
      w' := w'';
    }
  }

  lemma PopNext(w: World, fd: Socket, n: nat) returns (w': World)
    requires Working(w) && w.pool.workers != [] && w.pool.workers[0].Idle? && w.pool.queue != []
    ensures Reaches(w, w') && Working(w') && Beside(w, w') && w'.pool.queue == w.pool.queue[1..]
    ensures Stale(w.pool, fd, n) ==> Stale(w'.pool, fd, n)
  {
    var s := Work(Pop(0));
    ReachesStep(w, s);
    w' := After(w, s);
    hide Reaches;
    assert w.pool.queue == [w.pool.queue[0]] + w.pool.queue[1..];
    StaleMoves(w.pool, w'.pool, 0, fd, n);
  }

  lemma {:induction false} EmptyQueue(w: World, fd: Socket, n: nat) returns (w': World)
    requires Working(w) && w.pool.workers != []
    ensures Reaches(w, w') && Working(w') && Beside(w, w') && w'.pool.queue == []
    ensures Stale(w.pool, fd, n) ==> Stale(w'.pool, fd, n)
    decreases |w.pool.queue|
  {
    hide Reaches, Stale, Working;
    if w.pool.queue == [] {
      ReachesItself(w);
      w' := w;
    } else {
      var w1 := FreeWorker(w, 0, fd, n);
      var w2 := PopNext(w1, fd, n);
      ReachesFurther(w, w1, w2);
      w' := EmptyQueue(w2, fd, n);
      ReachesFurther(w, w2, w');
    }
  }

  /** Sooner or later a stale request has a result, and the queue is empty. */
  lemma StaleIsCompleted(w: World, fd: Socket, n: nat) returns (w': World)
    requires Working(w) && w.pool.workers != [] && Stale(w.pool, fd, n)
    ensures Reaches(w, w') && Working(w') && Beside(w, w')
    ensures w'.pool.queue == [] && HasResult(w'.pool.completions, fd, n)
  {
    hide Reaches, Working, HasResult, Holds;
    w' := EmptyQueue(w, fd, n);
    if !HasResult(w'.pool.completions, fd, n) {
      var i :| 0 <= i < |w'.pool.workers| && Holds(w'.pool.workers[i], fd, n);
      var w'' := FreeWorker(w', i, fd, n);
      ReachesFurther(w, w', w'');
      w' := w'';
    }
  }

  // ----- A stale result reaches the new connection

  /** A reply numbered `n` is buffered, or has been flushed already. */
  predicate Misled(c: Conn, n: nat) {
    n in c.outOfOrder || n < c.nextSeqExpected
  }

  lemma {:induction false} FlushMisleads(c: Conn, n: nat)
    requires Misled(c, n)
    ensures Misled(Flush(c), n)
    decreases |c.outOfOrder|
  {
    if c.nextSeqExpected in c.outOfOrder {
      RemoveShrinks(c.outOfOrder, c.nextSeqExpected);
      FlushMisleads(FlushOne(c), n);
    }
  }

  /** What a flush leaves: nothing to flush, and what reading concerns as it was. */
  lemma {:induction false} FlushLeaves(c: Conn)
    ensures var c' := Flush(c);
            && c'.nextSeqExpected !in c'.outOfOrder && c'.nextSeqExpected >= c.nextSeqExpected
            && c'.readBuffer == c.readBuffer && c'.nextSeqIssue == c.nextSeqIssue && c'.inFlight <= c.inFlight
            && (c.nextSeqExpected in c.outOfOrder && c.inFlight == 1 ==>
                  c'.inFlight == 0 && c'.nextSeqExpected > c.nextSeqExpected)
    decreases |c.outOfOrder|
  {
    if c.nextSeqExpected in c.outOfOrder {
      RemoveShrinks(c.outOfOrder, c.nextSeqExpected);
      FlushLeaves(FlushOne(c));
    }
  }

  lemma {:induction false} DeliveriesMislead(c: Conn, rs: seq<TaskResult>, n: nat)
    requires c.nextSeqExpected !in c.outOfOrder && c.inFlight == 0
    ensures var c' := DeliverAll(c, rs);
            && c'.nextSeqExpected !in c'.outOfOrder && c'.nextSeqExpected >= c.nextSeqExpected
            && c'.readBuffer == c.readBuffer && c'.nextSeqIssue == c.nextSeqIssue && c'.inFlight == 0
            && (Misled(c, n) || (exists r :: r in rs && r.seqno == n) ==> Misled(c', n))
  {
    if rs != [] {
      var k := |rs| - 1;
      DeliveriesMislead(c, rs[..k], n);
      var before, r := DeliverAll(c, rs[..k]), rs[k];
      FlushLeaves(Buffer(before, r.seqno, r.response));
      if Misled(before, n) || r.seqno == n {
        FlushMisleads(Buffer(before, r.seqno, r.response), n);
      }
    }
  }

  lemma ForHasResult(rs: seq<TaskResult>, fd: Socket, n: nat)
    requires HasResult(rs, fd, n)
    ensures exists r :: r in For(fd, rs) && r.seqno == n
  {
    var r :| r in rs && r.fd == fd && r.seqno == n;
    ForCounts(fd, rs);
    assert multiset(For(fd, rs))[r] == multiset(rs)[r] >= 1;
    assert r in For(fd, rs);
  }

  /** Nothing is under way, and the new connection has a reply too many or holds one for a later request. */
  predicate Waiting(w: World, fd: Socket, n: nat) {
    && Working(w) && w.pool.queue == [] && w.pool.completions == [] && fd in w.conns && fd in w.hist
    && var c := w.conns[fd];
       && c.readBuffer == "" && c.inFlight == 0 && c.nextSeqIssue <= c.nextSeqExpected
       && c.nextSeqExpected !in c.outOfOrder
       && (c.nextSeqExpected > c.nextSeqIssue || (n in c.outOfOrder && n >= c.nextSeqExpected))
  }

  lemma StaleIsDelivered(w: World, fd: Socket, n: nat) returns (w': World)
    requires Working(w) && w.pool.queue == [] && HasResult(w.pool.completions, fd, n)
    requires fd in w.conns && fd in w.hist
    requires w.conns[fd].readBuffer == "" && w.conns[fd].inFlight == 0 && w.conns[fd].outOfOrder == map[]
    requires w.conns[fd].nextSeqIssue == 0
    ensures Reaches(w, w') && Waiting(w', fd, n)
  {
    DrainLeads(w);
    w' := DrainedAll(w);
    hide Reaches, DeliverAll, For, HasResult, DrainInto;
    DrainPerConnection(w.conns, w.pool.completions);
    ForHasResult(w.pool.completions, fd, n);
    DeliveriesMislead(w.conns[fd], For(fd, w.pool.completions), n);
  }

  // ----- One more request

  /** The client sends a line; the limiter turns it down, and the answer is delivered. */
  lemma OneMoreRequest(w: World, fd: Socket, n: nat) returns (w': World)
    requires Waiting(w, fd, n) && w.conns[fd].nextSeqExpected == w.conns[fd].nextSeqIssue
    ensures Reaches(w, w') && Waiting(w', fd, n)
    ensures w'.conns[fd].nextSeqIssue == w.conns[fd].nextSeqIssue + 1
    ensures w'.conns[fd].nextSeqExpected > w.conns[fd].nextSeqExpected
  {
    hide Reaches;
    var w1 := LineComes(w, fd);
    var w2 := LineIsRefused(w1, fd);
    hide Working;
    ReachesFurther(w, w1, w2);
    w' := RefusalIsDelivered(w2, fd, n);
    ReachesFurther(w, w2, w');
  }

  lemma LineComes(w: World, fd: Socket) returns (w': World)
    requires Working(w) && w.pool.queue == [] && fd in w.conns && fd in w.hist
    requires w.conns[fd].readBuffer == "" && w.conns[fd].inFlight == 0
    ensures Reaches(w, w') && w'.phase == Dispatching(fd, w.conns[fd].nextSeqIssue, "x") && fd in w'.hist
    ensures w'.pool == w.pool && w'.drained == []
    ensures var c := w.conns[fd]; w'.conns == w.conns[fd := c.(nextSeqIssue := c.nextSeqIssue + 1, inFlight := 1)]
  {
    var c, h := w.conns[fd], w.hist[fd];
    var w1 := w.(conns := w.conns[fd := c.(readBuffer := "x\n")],
                 hist := w.hist[fd := h.(received := h.received + "x\n")], phase := Lines(fd));
    assert "" + "x\n" == "x\n";
    assert After(w, Recv(fd, "x\n")) == w1;
    ReachesStep(w, Recv(fd, "x\n"));
    NewlineAfterLine("x", "");
    assert "x" + "\n" + "" == "x\n" && StripCr("x") == "x";
    assert StepEnabled(w1, TakeLine);
    hide Reaches, StripCr, NewlineAt;
    ReachesNext(w, w1, TakeLine);
    w' := After(w1, TakeLine);
    assert c.(readBuffer := "", nextSeqIssue := c.nextSeqIssue + 1, inFlight := 1)
           == c.(nextSeqIssue := c.nextSeqIssue + 1, inFlight := 1);
  }

  lemma LineIsRefused(w: World, fd: Socket) returns (w': World)
    requires w.phase.Dispatching? && w.phase.fd == fd && fd in w.hist && fd in w.conns && w.drained == []
    requires w.conns[fd].readBuffer == ""
    ensures Reaches(w, w') && AtRest(w') && fd in w'.hist && w'.conns == w.conns
    ensures w'.pool == w.pool.(completions := w.pool.completions + [TaskResult(fd, w.phase.seqno, RATE_LIMITED)])
  {
    var w1 := After(w, Dispatch(false));
    ReachesStep(w, Dispatch(false));
    hide Reaches;
    ReachesNext(w, w1, TakeLine);
    w' := After(w1, TakeLine);
  }

  lemma RefusalIsDelivered(w: World, fd: Socket, n: nat) returns (w': World)
    requires Working(w) && w.pool.queue == [] && fd in w.conns && fd in w.hist
    requires var c := w.conns[fd];
             && c.readBuffer == "" && c.inFlight == 1 && c.nextSeqIssue == c.nextSeqExpected + 1
             && c.nextSeqExpected !in c.outOfOrder && n in c.outOfOrder && n >= c.nextSeqExpected
             && w.pool.completions == [TaskResult(fd, c.nextSeqExpected, RATE_LIMITED)]
    ensures Reaches(w, w') && Waiting(w', fd, n)
    ensures w'.conns[fd].nextSeqIssue == w.conns[fd].nextSeqIssue
    ensures w'.conns[fd].nextSeqExpected > w.conns[fd].nextSeqExpected
  {
    DrainLeads(w);
    w' := DrainedAll(w);
    hide Reaches, Flush;
    var c, r := w.conns[fd], w.pool.completions[0];
    DeliverOne(w.conns, r);
    FlushLeaves(Buffer(c, r.seqno, r.response));
    FlushMisleads(Buffer(c, r.seqno, r.response), n);
  }

  lemma DeliverOne(conns: map<Socket, Conn>, r: TaskResult)
    requires r.fd in conns
    ensures DrainInto(conns, [r]) == conns[r.fd := Deliver(conns[r.fd], r)]
  {
    hide Deliver;
    assert [r][..0] == [];
    assert DrainInto(conns, []) == conns;
  }

  // ----- The result

  /** A client has been answered more requests than it made. */
  predicate AnsweredTooMuch(w: World, fd: Socket) {
    fd in w.conns && w.conns[fd].nextSeqExpected > w.conns[fd].nextSeqIssue
  }

  lemma {:induction false} WaitingIsAnswered(w: World, fd: Socket, n: nat) returns (w': World)
    requires Waiting(w, fd, n)
    ensures Reaches(w, w') && AnsweredTooMuch(w', fd)
    decreases n - w.conns[fd].nextSeqIssue
  {
    hide Reaches;
    var c := w.conns[fd];
    if c.nextSeqExpected > c.nextSeqIssue {
      ReachesItself(w);
      w' := w;
    } else {
      assert c.nextSeqIssue < n;
      var w1 := OneMoreRequest(w, fd, n);
      w' := WaitingIsAnswered(w1, fd, n);
      ReachesFurther(w, w1, w');
    }
  }

  /** Whatever number is outstanding: a new client with that handle can be sent a reply too many. */
  lemma OutstandingMisleads(w: World, fd: Socket, ip: string) returns (w': World)
    requires Reachable(w) && AtRest(w) && fd !in w.conns && w.total < MAX_CONNECTIONS
    requires w.pool.workers != [] && !NothingOutstanding(w, fd)
    ensures Reaches(AcceptStep(w, fd, ip), w') && AnsweredTooMuch(w', fd)
  {
    ReachableRuns(w);
    var n := OutstandingIsStale(w, fd);
    var w0 := AcceptStep(w, fd, ip);
    assert w0.conns[fd] == NewConn(ip) && Working(w0);
    hide Reaches, Stale, Working, HasResult;
    var w1 := StaleIsCompleted(w0, fd, n);
    var w2 := StaleIsDelivered(w1, fd, n);
    ReachesFurther(w0, w1, w2);
    w' := WaitingIsAnswered(w2, fd, n);
    ReachesFurther(w0, w2, w');
  }

  lemma ReachableRuns(w: World)
    requires Reachable(w) && AtRest(w)
    ensures Working(w)
  {
    ReachableNoneExited(w);
    ReachableOk(w);
    hide PhaseOk, CountsOk, ConnsOk, PlacesOk, ItemsOk, Reachable;
  }

  lemma OkAnswersNoMore(w: World, fd: Socket)
    requires WorldOk(w)
    ensures !AnsweredTooMuch(w, fd)
  {
    hide QueueOk, PhaseOk, CountsOk, PlacesOk, ItemsOk, Framed, Answered, Front, EncodeAll;
    if fd in w.conns {
      assert ConnOk(w.conns[fd], w.hist[fd]);
    }
  }

  /**
   The assumption on accept is exact, in terms of what clients see: some run from the accept
   on answers the new client more requests than it made if and only if something of an
   earlier connection with its handle was still under way.
   */
  lemma ReuseIsSafeExactlyIfUnused(w: World, fd: Socket, ip: string)
    requires Reachable(w) && AtRest(w) && fd !in w.conns && w.total < MAX_CONNECTIONS && w.pool.workers != []
    ensures (exists w' :: Reaches(AcceptStep(w, fd, ip), w') && AnsweredTooMuch(w', fd))
            <==> !NothingOutstanding(w, fd)
  {
    if NothingOutstanding(w, fd) {
      ReachableOk(w);
      hide *;
      UnusedIsSafe(w, fd, ip);
    } else {
      var w' := OutstandingMisleads(w, fd, ip);
    }
  }

  lemma UnusedIsSafe(w: World, fd: Socket, ip: string)
    requires WorldOk(w) && AtRest(w) && fd !in w.conns && w.total < MAX_CONNECTIONS && NothingOutstanding(w, fd)
    ensures forall w' :: Reaches(AcceptStep(w, fd, ip), w') ==> !AnsweredTooMuch(w', fd)
  {
    HandleMustBeUnused(w, fd, ip);
    hide WorldOk, Reaches, AcceptStep, NothingOutstanding, AnsweredTooMuch;
    forall w' | Reaches(AcceptStep(w, fd, ip), w')
      ensures !AnsweredTooMuch(w', fd)
    {
      ReachesOk(AcceptStep(w, fd, ip), w');
      OkAnswersNoMore(w', fd);
    }
  }

  /** And something can be under way: a client sends a command and leaves before it is executed. */
  lemma HandleCanBeOutstanding(workers: nat, max: nat, fd: Socket, ip: string, line: string) returns (w: World)
    requires workers >= 1 && max >= 1 && OneLine(line) && StripCr(line) == line && ParseLine(line).Some?
    ensures Reachable(w) && AtRest(w) && fd !in w.conns && w.total < MAX_CONNECTIONS && w.pool.workers != []
    ensures !NothingOutstanding(w, fd)
  {
    hide ParseLine, StripCr, OneLine, Leads, Reaches;
    FirstAccept(workers, max, fd, ip);
    ReachesStep(Init(workers, max), Accept(fd, ip));
    ReachesQueue(workers, max, fd, ip, line);
    var w1, w2 := Connected(workers, max, fd, ip), InQueue(workers, max, fd, ip, line);
    LeadsReaches(w1, w2);
    ReachesFurther(Init(workers, max), w1, w2);
    ReachesNext(Init(workers, max), w2, Step.Disconnect(fd));
    w := After(w2, Step.Disconnect(fd));
    assert w2.pool.queue[0] in w.pool.queue;
    FromInitIsReachable(workers, max, w);
  }

  lemma FromInitIsReachable(workers: nat, max: nat, w: World)
    requires max >= 1 && Reaches(Init(workers, max), w)
    ensures Reachable(w)
  {
    hide Possible, RunWorld;
    var steps :| Possible(Init(workers, max), steps) && RunWorld(Init(workers, max), steps) == w;
  }
}
