/**
 In which order the commands of one connection are executed: with a single worker in the
 order they were issued, with two in any.
 */
module Order {
  import opened Text
  import opened Framing
  import opened Commands
  import opened Resp
  import opened Pool
  import opened Reassembly
  import opened Protocol
  import opened ProtocolInv
  import opened Turns
  import opened Serving
  import opened Drops

  // ----- One worker

  function Ids(ts: seq<Task>): seq<Id> {
    seq(|ts|, i requires 0 <= i < |ts| => (ts[i].fd, ts[i].seqno))
  }

  /** Requests still to be executed, the next one first: at the worker, in the queue, at the dispatcher. */
  function Pending(w: World): seq<Id>
    requires |w.pool.workers| == 1
  {
    Ids(Held(w.pool.workers[0])) + Ids(w.pool.queue)
    + if w.phase.Dispatching? then [(w.phase.fd, w.phase.seqno)] else []
  }

  ghost predicate Ascending(p: seq<Id>, conns: map<Socket, Conn>) {
    forall i, j :: 0 <= i < j < |p| && p[i].0 == p[j].0 && p[i].0 in conns ==> p[i].1 < p[j].1
  }

  /** Everything executed on a live connection was issued before everything pending. */
  ghost predicate ExecutedFirst(p: seq<Id>, conns: map<Socket, Conn>, hist: map<Socket, History>) {
    forall i, n :: 0 <= i < |p| && p[i].0 in conns && p[i].0 in hist && n in hist[p[i].0].executed ==> n < p[i].1
  }

  ghost predicate IssueOrder(w: World) {
    && |w.pool.workers| == 1
    && Ascending(Pending(w), w.conns) && ExecutedFirst(Pending(w), w.conns, w.hist)
  }

  /** Nothing new is pending, and nothing new executed, on a connection that was live before. */
  lemma StillInOrder(w: World, w': World, a: nat, b: nat)
    requires IssueOrder(w) && |w'.pool.workers| == 1 && a <= b <= |Pending(w)|
    requires Pending(w') == Pending(w)[a..b]
    requires forall fd :: fd in w'.conns && fd in w'.hist ==>
               (fd in w.conns && fd in w.hist && w'.hist[fd].executed == w.hist[fd].executed)
               || forall i :: 0 <= i < |Pending(w)| ==> Pending(w)[i].0 != fd
    requires forall fd :: fd in w'.conns ==> fd in w'.hist
    ensures IssueOrder(w')
  {
    hide Pending;
    var p, p' := Pending(w), Pending(w');
    assert forall i :: 0 <= i < |p'| ==> p'[i] == p[a + i];
  }

  lemma AcceptShape(w: World, fd: Socket, ip: string)
    requires StepEnabled(w, Accept(fd, ip)) && |w.pool.workers| == 1
    ensures var w' := After(w, Accept(fd, ip));
            && |w'.pool.workers| == 1 && Pending(w') == Pending(w)
            && (forall i :: 0 <= i < |Pending(w)| ==> Pending(w)[i].0 != fd)
            && forall gd :: gd in w'.conns ==>
                 gd == fd || (gd in w.conns && (gd in w.hist ==> gd in w'.hist && w'.hist[gd] == w.hist[gd]))
  {
    PendingIs(w);
    var ts := Held(w.pool.workers[0]) + w.pool.queue;
    assert forall i :: 0 <= i < |ts| ==> ts[i].fd != fd;
  }

  lemma AcceptInOrder(w: World, fd: Socket, ip: string)
    requires WorldOk(w) && IssueOrder(w) && StepEnabled(w, Accept(fd, ip))
    ensures IssueOrder(After(w, Accept(fd, ip)))
  {
    hide WorldOk, After, StepEnabled, Ascending, ExecutedFirst, Pending;
    var w' := After(w, Accept(fd, ip));
    AcceptShape(w, fd, ip);
    ProtocolInv.StepKeepsInv(w, Accept(fd, ip));
    LiveHaveHistories(w);
    LiveHaveHistories(w');
    assert Pending(w') == Pending(w)[0..|Pending(w)|];
    StillInOrder(w, w', 0, |Pending(w)|);
  }

  /** Queue and workers are the same, and so is what was executed on the connections that are left. */
  predicate Alike(w: World, w': World) {
    && w'.pool.workers == w.pool.workers && w'.pool.queue == w.pool.queue
    && forall fd :: fd in w'.conns ==>
         fd in w.conns && (fd in w.hist ==> fd in w'.hist && w'.hist[fd].executed == w.hist[fd].executed)
  }

  lemma TakeLineIsAlike(w: World)
    requires StepEnabled(w, TakeLine)
    ensures Alike(w, After(w, TakeLine)) && !w.phase.Dispatching?
  {
    hide NewlineAt, StripCr;
  }

  lemma WriteIsAlike(w: World, fd: Socket, n: nat)
    requires StepEnabled(w, Write(fd, n))
    ensures Alike(w, After(w, Write(fd, n))) && !After(w, Write(fd, n)).phase.Dispatching?
  {
  }

  lemma DeliverIsAlike(w: World)
    requires StepEnabled(w, DeliverNext)
    ensures Alike(w, After(w, DeliverNext)) && !After(w, DeliverNext).phase.Dispatching?
  {
    hide Deliver;
  }

  lemma OtherIsAlike(w: World, s: Step)
    requires StepEnabled(w, s) && !s.Accept? && !s.Dispatch? && !s.Work?
    ensures Alike(w, After(w, s)) && !w.phase.Dispatching?
    ensures !s.TakeLine? ==> !After(w, s).phase.Dispatching?
  {
    match s
    case TakeLine => TakeLineIsAlike(w);
    case Write(fd, n) => WriteIsAlike(w, fd, n);
    case DeliverNext => DeliverIsAlike(w);
    case _ =>
  }

  lemma LiveHaveHistories(w: World)
    requires WorldOk(w)
    ensures forall fd :: fd in w.conns ==> fd in w.hist
  {
    hide QueueOk, PhaseOk, CountsOk, PlacesOk, ItemsOk, ConnOk;
  }

  /** Steps of the reactor that neither stamp nor dispatch. */
  lemma OtherInOrder(w: World, s: Step)
    requires WorldOk(w) && IssueOrder(w) && StepEnabled(w, s)
    requires !s.Accept? && !s.Dispatch? && !s.Work? && !After(w, s).phase.Dispatching?
    ensures IssueOrder(After(w, s))
  {
    hide WorldOk, After, StepEnabled;
    OtherIsAlike(w, s);
    ProtocolInv.StepKeepsInv(w, s);
    LiveHaveHistories(w);
    LiveHaveHistories(After(w, s));
    AlikeInOrder(w, After(w, s));
  }

  lemma AlikeInOrder(w: World, w': World)
    requires IssueOrder(w) && Alike(w, w') && !w.phase.Dispatching? && !w'.phase.Dispatching?
    requires forall fd :: fd in w.conns ==> fd in w.hist
    requires forall fd :: fd in w'.conns ==> fd in w'.hist && fd in w.conns
    ensures IssueOrder(w')
  {
    assert Pending(w') == Pending(w)[0..|Pending(w)|];
    StillInOrder(w, w', 0, |Pending(w)|);
  }

  lemma PopKeepsPending(w: World, w': World)
    requires |w.pool.workers| == 1 && w.pool.workers[0].Idle? && w.pool.queue != []
    requires w'.pool == w.pool.(queue := w.pool.queue[1..], workers := w.pool.workers[0 := Busy(w.pool.queue[0])])
    requires w'.phase == w.phase
    ensures Pending(w') == Pending(w)
  {
    assert Ids(w.pool.queue) == Ids([w.pool.queue[0]]) + Ids(w.pool.queue[1..]);
    assert Ids(Held(w.pool.workers[0])) == [];
  }

  /** The worker takes a task, posts a result or returns. */
  lemma WorkInOrder(w: World, ps: PoolStep)
    requires WorldOk(w) && IssueOrder(w) && StepEnabled(w, Work(ps)) && !ps.Execute?
    ensures IssueOrder(After(w, Work(ps)))
  {
    hide PlacesOk, ItemsOk, ConnOk, QueueOk, CountsOk;
    var w' := After(w, Work(ps));
    if ps.Pop? {
      PopKeepsPending(w, w');
    }
    assert Pending(w') == Pending(w)[0..|Pending(w)|];
    StillInOrder(w, w', 0, |Pending(w)|);
  }

  lemma DispatchShape(w: World, allow: bool)
    requires StepEnabled(w, Dispatch(allow)) && |w.pool.workers| == 1
    ensures var w', fd, n := After(w, Dispatch(allow)), w.phase.fd, w.phase.seqno;
            && w'.pool.workers == w.pool.workers && !w'.phase.Dispatching? && w'.conns == w.conns
            && (w'.pool.queue == w.pool.queue
                || (|w'.pool.queue| == |w.pool.queue| + 1 && w'.pool.queue[..|w.pool.queue|] == w.pool.queue
                    && w'.pool.queue[|w.pool.queue|].fd == fd && w'.pool.queue[|w.pool.queue|].seqno == n))
            && forall gd :: gd in w.hist ==> gd in w'.hist && w'.hist[gd].executed == w.hist[gd].executed
  {
    hide ImmediateReply, ParseLine;
  }

  lemma DispatchedPending(w: World, w': World)
    requires |w.pool.workers| == 1 && w'.pool.workers == w.pool.workers
    requires w.phase.Dispatching? && !w'.phase.Dispatching?
    requires w'.pool.queue == w.pool.queue
             || (|w'.pool.queue| == |w.pool.queue| + 1 && w'.pool.queue[..|w.pool.queue|] == w.pool.queue
                 && w'.pool.queue[|w.pool.queue|].fd == w.phase.fd
                 && w'.pool.queue[|w.pool.queue|].seqno == w.phase.seqno)
    ensures exists b :: 0 <= b <= |Pending(w)| && Pending(w') == Pending(w)[0..b]
  {
    hide Held;
    var n := |Pending(w)|;
    if w'.pool.queue == w.pool.queue {
      assert Pending(w') == Pending(w)[0..n - 1];
    } else {
      assert Ids(w'.pool.queue) == Ids(w.pool.queue) + [(w.phase.fd, w.phase.seqno)];
      assert Pending(w') == Pending(w)[0..n];
    }
  }

  /** The dispatcher answers itself, or its request moves to the end of the queue. */
  lemma DispatchInOrder(w: World, allow: bool)
    requires WorldOk(w) && IssueOrder(w) && StepEnabled(w, Dispatch(allow))
    ensures IssueOrder(After(w, Dispatch(allow)))
  {
    assert w.phase.Dispatching?;
    hide WorldOk, After, StepEnabled, Pending, Ascending, ExecutedFirst;
    var w' := After(w, Dispatch(allow));
    DispatchShape(w, allow);
    LiveHaveHistories(w);
    DispatchedPending(w, w');
    var b :| 0 <= b <= |Pending(w)| && Pending(w') == Pending(w)[0..b];
    StillInOrder(w, w', 0, b);
  }

  lemma ExecuteShape(w: World, v: Value)
    requires StepEnabled(w, Work(Execute(0, v))) && |w.pool.workers| == 1
    ensures w.pool.workers[0].Busy?
    ensures var w', t := After(w, Work(Execute(0, v))), w.pool.workers[0].task;
            && w'.conns == w.conns && |w'.pool.workers| == 1 && Pending(w) == [(t.fd, t.seqno)] + Pending(w')
            && forall fd, n :: fd in w'.hist && n in w'.hist[fd].executed ==>
                 fd in w.hist && (n in w.hist[fd].executed || (fd == t.fd && n == t.seqno))
  {
  }

  /** What is executed is the first pending request. */
  lemma ExecuteInOrder(w: World, v: Value)
    requires IssueOrder(w) && StepEnabled(w, Work(Execute(0, v)))
    ensures IssueOrder(After(w, Work(Execute(0, v))))
  {
    ExecuteShape(w, v);
    hide After, StepEnabled, Pending;
    var w', t := After(w, Work(Execute(0, v))), w.pool.workers[0].task;
    var p, p' := Pending(w), Pending(w');
    assert forall i :: 0 <= i < |p'| ==> p'[i] == p[i + 1];
    forall i, n | 0 <= i < |p'| && p'[i].0 in w'.conns && p'[i].0 in w'.hist && n in w'.hist[p'[i].0].executed
      ensures n < p'[i].1
    {
      if p'[i].0 == t.fd && n == t.seqno {
        assert p[0].1 < p[i + 1].1;
      } else {
        assert n in w.hist[p[i + 1].0].executed;
      }
    }
  }

  lemma StampShape(w: World)
    requires StepEnabled(w, TakeLine) && After(w, TakeLine).phase.Dispatching? && |w.pool.workers| == 1
    ensures var w', fd := After(w, TakeLine), w.phase.fd;
            && w.phase.Lines? && fd in w.conns && w'.conns.Keys == w.conns.Keys && |w'.pool.workers| == 1
            && Pending(w') == Pending(w) + [(fd, w.conns[fd].nextSeqIssue)]
  {
    hide NewlineAt, StripCr;
    var w', fd := After(w, TakeLine), w.phase.fd;
    assert w'.phase == Dispatching(fd, w.conns[fd].nextSeqIssue, w'.phase.line);
    assert w'.pool == w.pool;
  }

  /** A stamped line gets a number above all others of its connection. */
  lemma StampInOrder(w: World)
    requires WorldOk(w) && IssueOrder(w) && StepEnabled(w, TakeLine) && After(w, TakeLine).phase.Dispatching?
    ensures IssueOrder(After(w, TakeLine))
  {
    StampShape(w);
    var w', fd := After(w, TakeLine), w.phase.fd;
    hide WorldOk, After, StepEnabled;
    TakeLineIsAlike(w);
    PendingBelow(w, fd);
    ExecutedBelow(w, fd);
    LiveHaveHistories(w);
    ProtocolInv.StepKeepsInv(w, TakeLine);
    LiveHaveHistories(w');
    hide Pending;
    GrownInOrder(w, w', fd, w.conns[fd].nextSeqIssue);
  }

  lemma GrownInOrder(w: World, w': World, fd: Socket, n: nat)
    requires IssueOrder(w) && |w'.pool.workers| == 1 && Alike(w, w') && w'.conns.Keys == w.conns.Keys
    requires Pending(w') == Pending(w) + [(fd, n)]
    requires forall gd :: gd in w.conns ==> gd in w.hist && gd in w'.hist
    requires forall i :: 0 <= i < |Pending(w)| && Pending(w)[i].0 == fd ==> Pending(w)[i].1 < n
    requires fd in w.conns && forall m :: m in w.hist[fd].executed ==> m < n
    ensures IssueOrder(w')
  {
    hide Pending;
    var p, p' := Pending(w), Pending(w');
    assert forall i :: 0 <= i < |p| ==> p'[i] == p[i];
  }

  lemma PendingBelow(w: World, fd: Socket)
    requires WorldOk(w) && |w.pool.workers| == 1 && w.phase.Lines? && fd in w.conns
    ensures fd in w.hist
    ensures forall i :: 0 <= i < |Pending(w)| && Pending(w)[i].0 == fd ==> Pending(w)[i].1 < w.conns[fd].nextSeqIssue
  {
    LiveHaveHistories(w);
    IssuedIsLines(w, fd);
    TasksOk(w);
    hide WorldOk, ParseLine;
    var ts := Held(w.pool.workers[0]) + w.pool.queue;
    PendingIs(w);
    hide Pending, Held;
    forall i | 0 <= i < |Pending(w)| && Pending(w)[i].0 == fd
      ensures Pending(w)[i].1 < w.conns[fd].nextSeqIssue
    {
      assert Pending(w)[i] == (ts[i].fd, ts[i].seqno) && TaskOk(w, ts[i]);
    }
  }

  lemma PendingIs(w: World)
    requires |w.pool.workers| == 1 && !w.phase.Dispatching?
    ensures Pending(w) == Ids(Held(w.pool.workers[0]) + w.pool.queue)
  {
    hide Held;
  }

  lemma IssuedIsLines(w: World, fd: Socket)
    requires WorldOk(w) && fd in w.conns
    ensures fd in w.hist && |w.hist[fd].lines| == w.conns[fd].nextSeqIssue
  {
    hide QueueOk, PhaseOk, CountsOk, PlacesOk, ItemsOk, Framed, Answered, EncodeAll, Front;
    assert ConnOk(w.conns[fd], w.hist[fd]);
  }

  lemma TasksOk(w: World)
    requires WorldOk(w) && |w.pool.workers| == 1
    ensures forall i :: 0 <= i < |Held(w.pool.workers[0]) + w.pool.queue| ==>
              TaskOk(w, (Held(w.pool.workers[0]) + w.pool.queue)[i])
  {
    hide QueueOk, PhaseOk, CountsOk, ConnsOk, PlacesOk, TaskOk, ResultOk;
    assert WorkerOk(w, w.pool.workers[0]);
    assert forall i :: 0 <= i < |w.pool.queue| ==> w.pool.queue[i] in w.pool.queue;
  }

  lemma ExecutedBelow(w: World, fd: Socket)
    requires WorldOk(w) && fd in w.conns
    ensures fd in w.hist && forall n :: n in w.hist[fd].executed ==> n < w.conns[fd].nextSeqIssue
  {
    hide PlacesOk, QueueOk, CountsOk, ItemsOk, ParseLine, ImmediateReply, Framed;
    assert ConnOk(w.conns[fd], w.hist[fd]);
  }

  lemma StepInOrder(w: World, s: Step)
    requires WorldOk(w) && IssueOrder(w) && StepEnabled(w, s)
    ensures IssueOrder(After(w, s))
  {
    hide WorldOk, IssueOrder, After, StepEnabled;
    if s.Accept? {
      AcceptInOrder(w, s.fd, s.ip);
    } else if s.Dispatch? {
      DispatchInOrder(w, s.allow);
    } else if s.Work? {
      if s.step.Execute? {
        OneWorkerIsFirst(w, s.step);
        ExecuteInOrder(w, s.step.reply);
      } else {
        WorkInOrder(w, s.step);
      }
    } else if After(w, s).phase.Dispatching? {
      OtherIsAlike(w, s);
      StampInOrder(w);
    } else {
      OtherInOrder(w, s);
    }
  }

  lemma OneWorkerIsFirst(w: World, ps: PoolStep)
    requires IssueOrder(w) && StepEnabled(w, Work(ps)) && ps.Execute?
    ensures ps.worker == 0
  {
  }

  lemma {:induction false} RunInOrder(w: World, steps: seq<Step>)
    requires WorldOk(w) && IssueOrder(w) && Possible(w, steps)
    ensures IssueOrder(RunWorld(w, steps))
    decreases |steps|
  {
    hide WorldOk, IssueOrder, After, StepEnabled;
    if steps != [] {
      StepInOrder(w, steps[0]);
      ProtocolInv.StepKeepsInv(w, steps[0]);
      RunInOrder(After(w, steps[0]), steps[1..]);
    }
  }

  /**
   With one worker, the request being executed on a live connection has a higher number than
   every one executed before it, in every run: execution follows the order of issue.
   */
  lemma OneWorkerExecutesInIssueOrder(max: nat, steps: seq<Step>, v: Value)
    requires max >= 1 && Possible(Init(1, max), steps)
    requires StepEnabled(RunWorld(Init(1, max), steps), Work(Execute(0, v)))
    ensures var w := RunWorld(Init(1, max), steps);
            var t := w.pool.workers[0].task;
            t.fd in w.conns ==> t.fd in w.hist && forall n :: n in w.hist[t.fd].executed ==> n < t.seqno
  {
    InitInv(1, max);
    var w0, w := Init(1, max), RunWorld(Init(1, max), steps);
    assert Pending(w0) == [];
    RunInOrder(w0, steps);
    ProtocolInv.RunKeepsInv(w0, steps);
    var t := w.pool.workers[0].task;
    if t.fd in w.conns {
      ExecutedBelow(w, t.fd);
      assert Ids([t])[0] == (t.fd, t.seqno) && Pending(w)[0] == Ids([t])[0];
    }
  }

  // ----- Two workers

  lemma SecondIsStamped(p: PoolState, fd: Socket, c: Conn, line: string, h: History)
    requires OneLine(line) && StripCr(line) == line && line != "" && c.readBuffer == line + "\n"
    requires |p.queue| == 1 && p.max >= 2 && c.inFlight == 1 == c.nextSeqIssue
    ensures StepEnabled(One(p, fd, c, Lines(fd), [], h), TakeLine)
    ensures After(One(p, fd, c, Lines(fd), [], h), TakeLine) ==
            One(p, fd, c.(readBuffer := "", nextSeqIssue := 2, inFlight := 2), Dispatching(fd, 1, line), [],
                h.(cuts := h.cuts + [Cut(line, true)], lines := h.lines + [line]))
  {
    NewlineAfterLine(line, "");
    hide StripCr, NewlineAt, OneLine;
    assert line + "\n" + "" == c.readBuffer;
  }

  lemma SecondIsQueued(p: PoolState, fd: Socket, c: Conn, line: string, h: History)
    requires p.running && p.max >= 2 && |p.queue| == 1 && ParseLine(line).Some?
    ensures StepEnabled(One(p, fd, c, Dispatching(fd, 1, line), [], h), Dispatch(true))
    ensures var t := Task(fd, 1, ParseLine(line).value);
            After(One(p, fd, c, Dispatching(fd, 1, line), [], h), Dispatch(true)) ==
            One(p.(queue := p.queue + [t], accepted := p.accepted + [t]), fd, c, Lines(fd), [], h)
  {
    hide Tokens, Parse;
    NoTokensNoCommand(line);
  }

  lemma NothingLeft(p: PoolState, fd: Socket, c: Conn, h: History)
    requires c.readBuffer == ""
    ensures StepEnabled(One(p, fd, c, Lines(fd), [], h), TakeLine)
    ensures After(One(p, fd, c, Lines(fd), [], h), TakeLine) == One(p, fd, c, Loop, [], h)
  {
  }

  /** Two commands of one client reach the queue. */
  lemma TwoAreQueued(workers: nat, max: nat, fd: Socket, ip: string, line: string) returns (w: World)
    requires max >= 2 && OneLine(line) && StripCr(line) == line && ParseLine(line).Some?
    ensures Reaches(Init(workers, max), w) && fd in w.conns && fd in w.hist && w.hist[fd].executed == {}
    ensures var c := ParseLine(line).value;
            w.pool.queue == [Task(fd, 0, c), Task(fd, 1, c)] && w.pool.workers == NewPool(workers, max).workers
    ensures w.hist[fd].lines == [line, line]
  {
    hide Reaches, ParseLine, StripCr, OneLine;
    assert line != "" by { TokensOfNothing(); NoTokensNoCommand(""); }
    var p, bytes := NewPool(workers, max), TwoLines(line);
    var w0, w1 := Init(workers, max), Connected(workers, max, fd, ip);
    FirstAccept(workers, max, fd, ip);
    ReceiveIs(workers, max, fd, ip, bytes);
    var c, h := NewConn(ip).(readBuffer := bytes), NoHistory.(received := bytes);
    var w2 := One(p, fd, c, Lines(fd), [], h);
    TakeOfTwo(p, fd, c, line, h);
    var c3, h3 := c.(readBuffer := line + "\n", nextSeqIssue := 1, inFlight := 1),
                  h.(cuts := [Cut(line, true)], lines := [line]);
    var w3 := One(p, fd, c3, Dispatching(fd, 0, line), [], h3);
    DispatchToQueue(p, fd, c3, line, h3);
    var t, u := Task(fd, 0, ParseLine(line).value), Task(fd, 1, ParseLine(line).value);
    var p4 := p.(queue := [t], accepted := p.accepted + [t]);
    var w4 := One(p4, fd, c3, Lines(fd), [], h3);
    SecondIsStamped(p4, fd, c3, line, h3);
    var c5, h5 := c3.(readBuffer := "", nextSeqIssue := 2, inFlight := 2),
                  h3.(cuts := h3.cuts + [Cut(line, true)], lines := h3.lines + [line]);
    var w5 := One(p4, fd, c5, Dispatching(fd, 1, line), [], h5);
    SecondIsQueued(p4, fd, c5, line, h5);
    var p6 := p4.(queue := p4.queue + [u], accepted := p4.accepted + [u]);
    var w6 := One(p6, fd, c5, Lines(fd), [], h5);
    NothingLeft(p6, fd, c5, h5);
    w := One(p6, fd, c5, Loop, [], h5);
    hide StepEnabled, After;
    ReachesStep(w0, Accept(fd, ip));
    ReachesNext(w0, w1, Recv(fd, bytes));
    ReachesNext(w0, w2, TakeLine);
    ReachesNext(w0, w3, Dispatch(true));
    ReachesNext(w0, w4, TakeLine);
    ReachesNext(w0, w5, Dispatch(true));
    ReachesNext(w0, w6, TakeLine);
  }

  /** With two workers, some run executes the second command of a connection before the first. */
  lemma TwoWorkersOvertake(max: nat, fd: Socket, ip: string, line: string, v: Value) returns (w: World)
    requires max >= 2 && OneLine(line) && StripCr(line) == line && ParseLine(line).Some? && Sendable(v)
    ensures Reaches(Init(2, max), w) && fd in w.conns && fd in w.hist
    ensures w.hist[fd].lines == [line, line] && w.hist[fd].executed == {1}
  {
    hide Reaches, ParseLine, StripCr, OneLine, Sendable;
    var w0 := Init(2, max);
    var w1 := TwoAreQueued(2, max, fd, ip, line);
    var w2 := BothTaken(w1, w0);
    w := SecondExecuted(w2, w0, fd, v);
  }

  lemma BothTaken(w: World, from: World) returns (w': World)
    requires Reaches(from, w) && |w.pool.queue| == 2 && |w.pool.workers| == 2
    requires w.pool.workers[0].Idle? && w.pool.workers[1].Idle?
    ensures Reaches(from, w') && w'.conns == w.conns && w'.hist == w.hist
    ensures |w'.pool.workers| == 2 && w'.pool.workers[1] == Busy(w.pool.queue[1])
  {
    hide Reaches;
    ReachesNext(from, w, Work(Pop(0)));
    var w1 := After(w, Work(Pop(0)));
    ReachesNext(from, w1, Work(Pop(1)));
    w' := After(w1, Work(Pop(1)));
  }

  lemma SecondExecuted(w: World, from: World, fd: Socket, v: Value) returns (w': World)
    requires Reaches(from, w) && |w.pool.workers| == 2 && w.pool.workers[1].Busy? && Sendable(v)
    requires w.pool.workers[1].task.fd == fd && fd in w.conns && fd in w.hist
    ensures Reaches(from, w') && fd in w'.conns && fd in w'.hist && w'.hist[fd].lines == w.hist[fd].lines
    ensures w'.hist[fd].executed == w.hist[fd].executed + {w.pool.workers[1].task.seqno}
  {
    hide Reaches;
    ReachesNext(from, w, Work(Execute(1, v)));
    w' := After(w, Work(Execute(1, v)));
  }
}
