/** Every step of the machine keeps its invariant. */
module ProtocolInv {
  import opened Text
  import opened Framing
  import opened Commands
  import opened Resp
  import opened Pool
  import opened Reassembly
  import opened Protocol
  import opened ProtocolConn

  lemma {:induction false} NoTaskIds(ts: seq<Task>, fd: Socket)
    requires forall t :: t in ts ==> t.fd != fd
    ensures forall n: nat :: TaskIds(ts)[(fd, n)] == 0
  {
    if ts != [] {
      NoTaskIds(ts[1..], fd);
    }
  }

  lemma {:induction false} NoResultIds(rs: seq<TaskResult>, fd: Socket)
    requires forall r :: r in rs ==> r.fd != fd
    ensures forall n: nat :: ResultIds(rs)[(fd, n)] == 0
  {
    if rs != [] {
      NoResultIds(rs[1..], fd);
    }
  }

  lemma {:induction false} NoWorkerIds(ws: seq<Worker>, fd: Socket)
    requires forall v :: v in ws ==> (v.Busy? ==> v.task.fd != fd) && (v.Done? ==> v.result.fd != fd)
    ensures forall n: nat :: BusyIds(ws)[(fd, n)] == 0 && DoneIds(ws)[(fd, n)] == 0
  {
    if ws != [] {
      NoWorkerIds(ws[1..], fd);
      NoTaskIds(Held(ws[0]), fd);
      NoResultIds(Finished(ws[0]), fd);
    }
  }

  /** Tasks and results of connections whose history only grows stay right. */
  lemma ItemsStayOk(w: World, w': World)
    requires ItemsOk(w)
    requires w'.pool == w.pool && w'.drained == w.drained
    requires forall fd :: fd in w'.conns && fd in w'.hist ==>
               && fd in w.conns && fd in w.hist && w.hist[fd].lines <= w'.hist[fd].lines
               && forall n :: n in w.hist[fd].replies ==>
                    n in w'.hist[fd].replies && w'.hist[fd].replies[n] == w.hist[fd].replies[n]
    ensures ItemsOk(w')
  {
    hide ParseLine;
    forall t | TaskOk(w, t)
      ensures TaskOk(w', t)
    {
      if t.fd in w'.conns && t.fd in w'.hist {
        assert w'.hist[t.fd].lines[t.seqno] == w.hist[t.fd].lines[t.seqno];
      }
    }
    forall r | ResultOk(w, r)
      ensures ResultOk(w', r)
    {
    }
  }

  /** The ids stay where they are. */
  lemma SamePlaces(w: World, w': World)
    requires PlacesOk(w) && w'.conns == w.conns && w'.hist == w.hist
    requires Todo(w') == Todo(w) && Posted(w') == Posted(w)
    ensures PlacesOk(w')
  {
    hide Todo, Posted, AwaitsReply, AwaitsDelivery;
  }

  /** One request gets its reply: its id moves from those to do to those on their way back. */
  lemma ReplyMovesPlaces(w: World, w': World, fd: Socket, n: nat)
    requires PlacesOk(w) && w'.conns == w.conns
    requires Todo(w) == Todo(w') + multiset{(fd, n)} && Posted(w') == Posted(w) + multiset{(fd, n)}
    requires forall g :: g in w.conns && g != fd ==>
               (g in w'.hist <==> g in w.hist) && (g in w.hist ==> w'.hist[g] == w.hist[g])
    requires fd in w.conns ==>
               && fd in w.hist && fd in w'.hist && n !in w.hist[fd].replies && n < w.conns[fd].nextSeqIssue
               && n in w'.hist[fd].replies && w'.hist[fd].replies == w.hist[fd].replies[n := w'.hist[fd].replies[n]]
               && n >= w.conns[fd].nextSeqExpected && n !in w.conns[fd].outOfOrder
    ensures PlacesOk(w')
  {
    hide Todo, Posted;
    forall g, k: nat | g in w'.conns && g in w'.hist
      ensures Todo(w')[(g, k)] == (if AwaitsReply(w'.conns[g], w'.hist[g], k) then 1 else 0)
      ensures Posted(w')[(g, k)] == (if AwaitsDelivery(w'.conns[g], w'.hist[g], k) then 1 else 0)
    {
      assert Todo(w)[(g, k)] == (if AwaitsReply(w.conns[g], w.hist[g], k) then 1 else 0);
      assert Posted(w)[(g, k)] == (if AwaitsDelivery(w.conns[g], w.hist[g], k) then 1 else 0);
    }
  }

  // ----- Accepting and dropping connections

  lemma AcceptKeepsPlaces(w: World, fd: Socket, ip: string)
    requires PlacesOk(w) && StepEnabled(w, Accept(fd, ip))
    ensures PlacesOk(After(w, Accept(fd, ip)))
  {
    hide TaskIds, ResultIds, BusyIds, DoneIds;
    var w' := After(w, Accept(fd, ip));
    NoTaskIds(w.pool.queue, fd);
    NoWorkerIds(w.pool.workers, fd);
    NoResultIds(w.pool.completions, fd);
    assert ResultIds([]) == multiset{} by { NoIds(); }
    assert Todo(w') == Todo(w) && Posted(w') == Posted(w);
  }

  lemma AcceptKeepsItems(w: World, fd: Socket, ip: string)
    requires ItemsOk(w) && StepEnabled(w, Accept(fd, ip))
    ensures ItemsOk(After(w, Accept(fd, ip)))
  {
    hide ParseLine;
    var w' := After(w, Accept(fd, ip));
    assert forall t: Task :: t.fd != fd && TaskOk(w, t) ==> TaskOk(w', t);
    assert forall r: TaskResult :: r.fd != fd && ResultOk(w, r) ==> ResultOk(w', r);
  }

  lemma OneMore(conns: map<Socket, Conn>, fd: Socket, c: Conn)
    requires fd !in conns
    ensures |conns[fd := c]| == |conns| + 1
  {
    assert conns[fd := c].Keys == conns.Keys + {fd};
  }

  lemma AcceptKeepsRest(w: World, fd: Socket, ip: string)
    requires QueueOk(w) && PhaseOk(w) && CountsOk(w) && ConnsOk(w) && StepEnabled(w, Accept(fd, ip))
    ensures var w' := After(w, Accept(fd, ip)); QueueOk(w') && PhaseOk(w') && CountsOk(w') && ConnsOk(w')
  {
    hide ConnOk;
    NewConnOk(ip);
    OneMore(w.conns, fd, NewConn(ip));
  }

  lemma AcceptKeepsInv(w: World, fd: Socket, ip: string)
    requires WorldOk(w) && StepEnabled(w, Accept(fd, ip))
    ensures WorldOk(After(w, Accept(fd, ip)))
  {
    hide QueueOk, PhaseOk, CountsOk, ConnsOk, PlacesOk, ItemsOk, After, StepEnabled;
    AcceptKeepsPlaces(w, fd, ip);
    AcceptKeepsItems(w, fd, ip);
    AcceptKeepsRest(w, fd, ip);
  }

  lemma OneLess(conns: map<Socket, Conn>, fd: Socket)
    requires fd in conns
    ensures |conns - {fd}| == |conns| - 1
  {
    assert (conns - {fd}).Keys == conns.Keys - {fd};
    assert |conns.Keys - {fd}| == |conns.Keys| - 1;
  }

  lemma DisconnectKeepsPlaces(w: World, fd: Socket)
    requires PlacesOk(w) && StepEnabled(w, Disconnect(fd))
    ensures PlacesOk(After(w, Disconnect(fd)))
  {
    hide TaskIds, ResultIds, BusyIds, DoneIds, AwaitsReply, AwaitsDelivery;
    var w' := After(w, Disconnect(fd));
    assert Todo(w') == Todo(w) && Posted(w') == Posted(w);
  }

  lemma DisconnectKeepsRest(w: World, fd: Socket)
    requires QueueOk(w) && PhaseOk(w) && CountsOk(w) && ConnsOk(w) && StepEnabled(w, Disconnect(fd))
    ensures var w' := After(w, Disconnect(fd)); QueueOk(w') && PhaseOk(w') && CountsOk(w') && ConnsOk(w')
  {
    hide ConnOk;
    OneLess(w.conns, fd);
  }

  lemma DisconnectKeepsItems(w: World, fd: Socket)
    requires ItemsOk(w) && StepEnabled(w, Disconnect(fd))
    ensures ItemsOk(After(w, Disconnect(fd)))
  {
    hide ItemsOk;
    ItemsStayOk(w, After(w, Disconnect(fd)));
  }

  lemma DisconnectKeepsInv(w: World, fd: Socket)
    requires WorldOk(w) && StepEnabled(w, Disconnect(fd))
    ensures WorldOk(After(w, Disconnect(fd)))
  {
    hide QueueOk, PhaseOk, CountsOk, ConnsOk, PlacesOk, ItemsOk, After, StepEnabled;
    DisconnectKeepsPlaces(w, fd);
    DisconnectKeepsItems(w, fd);
    DisconnectKeepsRest(w, fd);
  }

  lemma StopKeepsInv(w: World)
    requires WorldOk(w) && StepEnabled(w, Stop)
    ensures WorldOk(After(w, Stop))
  {
    hide TaskIds, ResultIds, BusyIds, DoneIds, ConnOk, ItemsOk, ParseLine;
    ItemsStayOk(w, After(w, Stop));
  }

  lemma UnpauseKeepsInv(w: World)
    requires WorldOk(w) && StepEnabled(w, Unpause)
    ensures WorldOk(After(w, Unpause))
  {
    hide TaskIds, ResultIds, BusyIds, DoneIds, ConnOk, ItemsOk, ParseLine;
    var w' := After(w, Unpause);
    ItemsStayOk(w, w');
    assert Todo(w') == Todo(w) && Posted(w') == Posted(w);
  }

  lemma ShutdownKeepsInv(w: World)
    requires WorldOk(w) && StepEnabled(w, ShutdownPool)
    ensures WorldOk(After(w, ShutdownPool))
  {
    hide TaskIds, ResultIds, BusyIds, DoneIds, ConnOk, ParseLine;
    var w' := After(w, ShutdownPool);
    assert forall t :: TaskOk(w, t) ==> TaskOk(w', t);
    assert forall r :: ResultOk(w, r) ==> ResultOk(w', r);
  }

  // ----- Reading

  /** A step that changes one connection and its history, and neither queue nor replies. */
  predicate OnlyReads(w: World, w': World, fd: Socket) {
    && fd in w.conns && fd in w.hist && fd in w'.conns && fd in w'.hist
    && w'.pool == w.pool && w'.drained == w.drained
    && w'.conns == w.conns[fd := w'.conns[fd]] && w'.hist == w.hist[fd := w'.hist[fd]]
    && w.hist[fd].lines <= w'.hist[fd].lines && w'.hist[fd].replies == w.hist[fd].replies
    && w'.conns[fd].nextSeqExpected == w.conns[fd].nextSeqExpected
    && w'.conns[fd].outOfOrder == w.conns[fd].outOfOrder
  }

  lemma ReadKeepsRest(w: World, w': World, fd: Socket)
    requires WorldOk(w) && OnlyReads(w, w', fd) && ConnOk(w'.conns[fd], w'.hist[fd])
    requires w'.phase != Stopped && w.phase != Stopped
    requires w'.total == w.total && w'.paused <= w.paused + {fd}
    ensures CountsOk(w') && ConnsOk(w') && ItemsOk(w')
  {
    hide ConnOk, ItemsOk, PlacesOk, ParseLine;
    assert w'.conns.Keys == w.conns.Keys;
    ItemsStayOk(w, w');
  }

  lemma ReadKeepsPlaces(w: World, w': World, fd: Socket)
    requires PlacesOk(w) && OnlyReads(w, w', fd)
    requires w'.conns[fd].nextSeqIssue == w.conns[fd].nextSeqIssue && !w.phase.Dispatching? && !w'.phase.Dispatching?
    ensures PlacesOk(w')
  {
    hide TaskIds, ResultIds, BusyIds, DoneIds;
    assert Todo(w') == Todo(w) && Posted(w') == Posted(w);
  }

  lemma RecvKeepsInv(w: World, fd: Socket, bytes: string)
    requires WorldOk(w) && StepEnabled(w, Recv(fd, bytes))
    ensures WorldOk(After(w, Recv(fd, bytes)))
  {
    hide TaskIds, ResultIds, BusyIds, DoneIds, ConnOk, ItemsOk, PlacesOk, ParseLine;
    var w' := After(w, Recv(fd, bytes));
    RecvKeepsConn(w.conns[fd], w.hist[fd], bytes);
    ReadKeepsRest(w, w', fd);
    ReadKeepsPlaces(w, w', fd);
  }

  lemma TakeLineKeepsInv(w: World)
    requires WorldOk(w) && StepEnabled(w, TakeLine)
    ensures WorldOk(After(w, TakeLine))
  {
    hide TaskIds, ResultIds, BusyIds, DoneIds, ConnOk, ItemsOk, PlacesOk, ParseLine, StripCr;
    var fd := w.phase.fd;
    var c, h, w' := w.conns[fd], w.hist[fd], After(w, TakeLine);
    var n := NewlineAt(c.readBuffer);
    if n == |c.readBuffer| {
      ReadKeepsRest(w, w', fd);
      ReadKeepsPlaces(w, w', fd);
    } else if StripCr(c.readBuffer[..n]) == "" {
      EmptyLineKeepsConn(c, h);
      ReadKeepsRest(w, w', fd);
      ReadKeepsPlaces(w, w', fd);
    } else if c.inFlight >= MAX_PIPELINE_DEPTH || |w.pool.queue| * 10 > w.pool.max * 9 {
      DropKeepsConn(c, h);
      ReadKeepsRest(w, w', fd);
      ReadKeepsPlaces(w, w', fd);
    } else {
      StampKeepsConn(c, h);
      ReadKeepsRest(w, w', fd);
      StampKeepsPlaces(w);
      assert h.lines + [StripCr(c.readBuffer[..n])] == w'.hist[fd].lines;
      assert |h.lines| == c.nextSeqIssue by { LinesAreIssued(c, h); }
    }
  }

  lemma LinesAreIssued(c: Conn, h: History)
    requires ConnOk(c, h)
    ensures |h.lines| == c.nextSeqIssue
    ensures forall n :: n in h.replies ==> n < c.nextSeqIssue
  {
  }

  lemma StampKeepsPlaces(w: World)
    requires WorldOk(w) && StepEnabled(w, TakeLine) && After(w, TakeLine).phase.Dispatching?
    ensures PlacesOk(After(w, TakeLine))
  {
    hide TaskIds, ResultIds, BusyIds, DoneIds, ConnOk, ItemsOk, ParseLine, StripCr;
    var fd := w.phase.fd;
    var w' := After(w, TakeLine);
    LinesAreIssued(w.conns[fd], w.hist[fd]);
    assert Todo(w') == Todo(w) + multiset{(fd, w.conns[fd].nextSeqIssue)};
    assert Posted(w') == Posted(w);
  }

  // ----- Dispatching

  /** The dispatcher's request has no reply yet. */
  lemma DispatchedAwaitsReply(w: World)
    requires WorldOk(w) && w.phase.Dispatching?
    ensures w.phase.seqno !in w.hist[w.phase.fd].replies
  {
    hide TaskIds, ResultIds, BusyIds, DoneIds;
    assert Todo(w)[(w.phase.fd, w.phase.seqno)] >= 1;
  }

  /** Whatever was right about a task or a result stays right when one more line is answered. */
  lemma AnswerKeepsItems(w: World, w': World, fd: Socket, n: nat)
    requires fd in w.hist && n !in w.hist[fd].replies && n < |w.hist[fd].lines|
    requires w'.conns == w.conns && fd in w'.hist && w'.hist == w.hist[fd := w'.hist[fd]]
    requires w'.hist[fd].lines == w.hist[fd].lines
    requires n in w'.hist[fd].replies && w'.hist[fd].replies == w.hist[fd].replies[n := w'.hist[fd].replies[n]]
    ensures forall t :: TaskOk(w, t) ==> TaskOk(w', t)
    ensures forall r :: ResultOk(w, r) ==> ResultOk(w', r)
    ensures ResultOk(w', TaskResult(fd, n, w'.hist[fd].replies[n]))
  {
    hide ParseLine;
  }

  lemma PostKeepsInv(w: World, allow: bool, v: Value)
    requires WorldOk(w) && StepEnabled(w, Dispatch(allow))
    requires ImmediateReply(w.phase.line, allow) == Some(v)
    ensures WorldOk(After(w, Dispatch(allow)))
  {
    hide TaskIds, ResultIds, BusyIds, DoneIds, ConnOk, ParseLine, ImmediateReply;
    var fd, n := w.phase.fd, w.phase.seqno;
    var c, h, w' := w.conns[fd], w.hist[fd], After(w, Dispatch(allow));
    DispatchedAwaitsReply(w);
    LinesAreIssued(c, h);
    AnswerKeepsConn(c, h, n, v, allow);
    AnswerKeepsItems(w, w', fd, n);
    PostKeepsPlaces(w, allow, v);
  }

  lemma PostMoves(w: World, fd: Socket, n: nat, v: Value)
    requires w.phase.Dispatching? && w.phase.fd == fd && w.phase.seqno == n && fd in w.hist
    ensures Todo(w) == Todo(Protocol.Post(w, fd, n, v)) + multiset{(fd, n)}
    ensures Posted(Protocol.Post(w, fd, n, v)) == Posted(w) + multiset{(fd, n)}
  {
    hide TaskIds, ResultIds, BusyIds, DoneIds;
    ResultIdOfOne(TaskResult(fd, n, v));
    ResultIdsOfAppend(w.pool.completions, [TaskResult(fd, n, v)]);
  }

  lemma PostKeepsPlaces(w: World, allow: bool, v: Value)
    requires WorldOk(w) && StepEnabled(w, Dispatch(allow))
    requires ImmediateReply(w.phase.line, allow) == Some(v)
    ensures PlacesOk(After(w, Dispatch(allow)))
  {
    hide Todo, Posted, PlacesOk, ItemsOk, ParseLine, ImmediateReply, ConnOk;
    var fd, n := w.phase.fd, w.phase.seqno;
    var w' := After(w, Dispatch(allow));
    DispatchedAwaitsReply(w);
    PostMoves(w, fd, n, v);
    UnansweredIsLater(w.conns[fd], w.hist[fd], n);
    ReplyMovesPlaces(w, w', fd, n);
  }

  lemma UnansweredIsLater(c: Conn, h: History, n: nat)
    requires ConnOk(c, h) && n !in h.replies && n < |h.lines|
    ensures n < c.nextSeqIssue && n >= c.nextSeqExpected && n !in c.outOfOrder
  {
  }

  lemma SubmitKeepsInv(w: World, allow: bool)
    requires WorldOk(w) && StepEnabled(w, Dispatch(allow)) && ImmediateReply(w.phase.line, allow) == None
    ensures WorldOk(After(w, Dispatch(allow))) && Accepts(w.pool)
  {
    hide TaskIds, ResultIds, BusyIds, DoneIds, ConnOk, ParseLine;
    var fd, n, line := w.phase.fd, w.phase.seqno, w.phase.line;
    var w', t := After(w, Dispatch(allow)), Task(fd, n, ParseLine(line).value);
    SubmitMoves(w.pool, t);
    assert Todo(w') == Todo(w);
    assert Posted(w') == Posted(w);
    assert forall u :: TaskOk(w, u) ==> TaskOk(w', u);
    assert forall r :: ResultOk(w, r) ==> ResultOk(w', r);
    assert TaskOk(w', t);
  }

  // ----- Workers

  /** Workers and queues change, connections and histories do not. */
  lemma PoolStepKeepsRest(w: World, w': World)
    requires WorldOk(w) && w' == w.(pool := w'.pool)
    requires w'.pool.max == w.pool.max && w'.pool.running == w.pool.running && |w'.pool.queue| <= |w.pool.queue|
    requires Todo(w') == Todo(w) && Posted(w') == Posted(w) && ItemsOk(w')
    ensures WorldOk(w')
  {
    hide Todo, Posted, ItemsOk, PlacesOk, ConnOk, ParseLine;
    SamePlaces(w, w');
  }

  lemma SameItems(w: World, w': World)
    requires w'.conns == w.conns && w'.hist == w.hist
    ensures forall t :: TaskOk(w, t) ==> TaskOk(w', t)
    ensures forall r :: ResultOk(w, r) ==> ResultOk(w', r)
  {
    hide ParseLine;
  }

  /** One worker changes; tasks only leave the queue, and new completions are right. */
  lemma WorkerChangeKeepsItems(w: World, w': World, i: nat, v: Worker)
    requires ItemsOk(w) && i < |w.pool.workers|
    requires forall t :: TaskOk(w, t) ==> TaskOk(w', t)
    requires forall r :: ResultOk(w, r) ==> ResultOk(w', r)
    requires w'.pool.workers == w.pool.workers[i := v] && WorkerOk(w', v)
    requires forall t :: t in w'.pool.queue ==> t in w.pool.queue
    requires forall r :: r in w'.pool.completions ==> r in w.pool.completions || ResultOk(w', r)
    requires w'.drained == w.drained
    ensures ItemsOk(w')
  {
    hide TaskOk, ResultOk;
    forall u | u in w'.pool.workers
      ensures WorkerOk(w', u)
    {
      assert u == v || u in w.pool.workers;
      assert u in w.pool.workers ==> WorkerOk(w, u);
    }
  }

  lemma Moved(d: multiset<Id>, t: multiset<Id>, b: multiset<Id>, id: multiset<Id>)
    ensures d + (id + t) + b == d + t + (b + id)
  {
  }

  lemma PopKeepsPlaces(w: World, i: nat)
    requires StepEnabled(w, Work(Pop(i)))
    ensures Todo(After(w, Work(Pop(i)))) == Todo(w) && Posted(After(w, Work(Pop(i)))) == Posted(w)
  {
    hide TaskIds, ResultIds, BusyIds, DoneIds, DispatchIds;
    PopMoves(w.pool, i);
    var w', t := After(w, Work(Pop(i))), w.pool.queue[0];
    Moved(DispatchIds(w.phase), TaskIds(w'.pool.queue), BusyIds(w.pool.workers), IdOf(t.fd, t.seqno));
  }

  lemma PopKeepsItems(w: World, i: nat)
    requires ItemsOk(w) && StepEnabled(w, Work(Pop(i)))
    ensures ItemsOk(After(w, Work(Pop(i))))
  {
    hide TaskOk, ResultOk;
    var w' := After(w, Work(Pop(i)));
    SameItems(w, w');
    assert w.pool.queue[0] in w.pool.queue;
    WorkerChangeKeepsItems(w, w', i, Busy(w.pool.queue[0]));
  }

  lemma PopIs(w: World, i: nat)
    requires StepEnabled(w, Work(Pop(i)))
    ensures var w' := After(w, Work(Pop(i)));
            && w' == w.(pool := w'.pool) && w'.pool.max == w.pool.max && w'.pool.running == w.pool.running
            && |w'.pool.queue| <= |w.pool.queue|
  {
  }

  lemma PopKeepsInv(w: World, i: nat)
    requires WorldOk(w) && StepEnabled(w, Work(Pop(i)))
    ensures WorldOk(After(w, Work(Pop(i))))
  {
    PopIs(w, i);
    PopKeepsPlaces(w, i);
    PopKeepsItems(w, i);
    hide WorldOk, StepEnabled, After, Todo, Posted, ItemsOk;
    PoolStepKeepsRest(w, After(w, Work(Pop(i))));
  }

  lemma PushKeepsPlaces(w: World, i: nat)
    requires StepEnabled(w, Work(Push(i)))
    ensures Todo(After(w, Work(Push(i)))) == Todo(w) && Posted(After(w, Work(Push(i)))) == Posted(w)
  {
    hide TaskIds, ResultIds, BusyIds, DoneIds;
    PushMoves(w.pool, i);
    var w', r := After(w, Work(Push(i))), w.pool.workers[i].result;
    Pushed(DoneIds(w'.pool.workers), ResultIds(w.pool.completions), ResultIds(w.drained), IdOf(r.fd, r.seqno));
  }

  lemma Pushed(d: multiset<Id>, c: multiset<Id>, r: multiset<Id>, id: multiset<Id>)
    ensures (d + id) + c + r == d + (c + id) + r
  {
  }

  lemma PushKeepsItems(w: World, i: nat)
    requires ItemsOk(w) && StepEnabled(w, Work(Push(i)))
    ensures ItemsOk(After(w, Work(Push(i))))
  {
    hide TaskOk, ResultOk;
    var w' := After(w, Work(Push(i)));
    SameItems(w, w');
    assert WorkerOk(w, w.pool.workers[i]);
    WorkerChangeKeepsItems(w, w', i, Idle);
  }

  lemma PushIs(w: World, i: nat)
    requires StepEnabled(w, Work(Push(i)))
    ensures var w' := After(w, Work(Push(i)));
            && w' == w.(pool := w'.pool) && w'.pool.max == w.pool.max && w'.pool.running == w.pool.running
            && w'.pool.queue == w.pool.queue
  {
  }

  lemma PushKeepsInv(w: World, i: nat)
    requires WorldOk(w) && StepEnabled(w, Work(Push(i)))
    ensures WorldOk(After(w, Work(Push(i))))
  {
    PushIs(w, i);
    PushKeepsPlaces(w, i);
    PushKeepsItems(w, i);
    hide WorldOk, StepEnabled, After, Todo, Posted, ItemsOk;
    PoolStepKeepsRest(w, After(w, Work(Push(i))));
  }

  lemma ExitKeepsInv(w: World, i: nat)
    requires WorldOk(w) && StepEnabled(w, Work(Exit(i)))
    ensures WorldOk(After(w, Work(Exit(i))))
  {
    hide TaskIds, ResultIds, BusyIds, DoneIds, ConnOk, ParseLine;
    var w' := After(w, Work(Exit(i)));
    ExitMoves(w.pool, i);
    assert Todo(w') == Todo(w) && Posted(w') == Posted(w);
    assert forall u :: TaskOk(w, u) ==> TaskOk(w', u);
    assert forall r :: ResultOk(w, r) ==> ResultOk(w', r);
  }

  /** A task of a live connection that is being executed has no reply yet. */
  lemma ExecutedAwaitsReply(w: World, i: nat, v: Value)
    requires WorldOk(w) && StepEnabled(w, Work(Execute(i, v)))
    requires w.pool.workers[i].task.fd in w.conns
    ensures var t := w.pool.workers[i].task;
            && t.fd in w.hist && t.seqno !in w.hist[t.fd].replies && t.seqno < |w.hist[t.fd].lines|
            && ParseLine(w.hist[t.fd].lines[t.seqno]) == Some(t.command)
  {
    hide TaskIds, ResultIds, BusyIds, DoneIds, ConnOk, ParseLine;
    var t := w.pool.workers[i].task;
    ExecuteMoves(w.pool, i, v);
    assert Todo(w)[(t.fd, t.seqno)] >= 1;
    assert WorkerOk(w, w.pool.workers[i]);
  }

  lemma ExecuteMovesPlaces(w: World, i: nat, v: Value)
    requires StepEnabled(w, Work(Execute(i, v)))
    ensures var w', t := After(w, Work(Execute(i, v))), w.pool.workers[i].task;
            && Todo(w) == Todo(w') + multiset{(t.fd, t.seqno)}
            && Posted(w') == Posted(w) + multiset{(t.fd, t.seqno)}
  {
    hide Todo, Posted;
    var w', t := After(w, Work(Execute(i, v))), w.pool.workers[i].task;
    BusyToDone(w, w', i, v);
  }

  lemma BusyToDone(w: World, w': World, i: nat, v: Value)
    requires Enabled(w.pool, Execute(i, v)) && w'.pool == Pool.Next(w.pool, Execute(i, v))
    requires w'.phase == w.phase && w'.drained == w.drained
    ensures var t := w.pool.workers[i].task;
            && Todo(w) == Todo(w') + multiset{(t.fd, t.seqno)}
            && Posted(w') == Posted(w) + multiset{(t.fd, t.seqno)}
  {
    hide TaskIds, ResultIds, BusyIds, DoneIds, IdOf;
    ExecuteMoves(w.pool, i, v);
    var t := w.pool.workers[i].task;
    var id := IdOf(t.fd, t.seqno);
    IdOfIs(t.fd, t.seqno);
    Regroup(DispatchIds(w.phase), TaskIds(w.pool.queue), BusyIds(w'.pool.workers), id);
    Regroup(DoneIds(w.pool.workers), ResultIds(w.pool.completions), ResultIds(w.drained), id);
  }

  lemma Regroup(a: multiset<Id>, b: multiset<Id>, c: multiset<Id>, x: multiset<Id>)
    ensures (a + x) + b + c == a + b + c + x
    ensures a + b + (c + x) == a + b + c + x
  {
  }

  lemma IdOfIs(fd: Socket, n: nat)
    ensures IdOf(fd, n) == multiset{(fd, n)}
  {
  }

  lemma ExecuteKeepsPlaces(w: World, i: nat, v: Value)
    requires WorldOk(w) && StepEnabled(w, Work(Execute(i, v)))
    ensures PlacesOk(After(w, Work(Execute(i, v))))
  {
    hide Todo, Posted, PlacesOk, ItemsOk, ParseLine, ConnOk;
    var w', t := After(w, Work(Execute(i, v))), w.pool.workers[i].task;
    ExecuteMovesPlaces(w, i, v);
    if t.fd in w.conns {
      ExecutedAwaitsReply(w, i, v);
      UnansweredIsLater(w.conns[t.fd], w.hist[t.fd], t.seqno);
    }
    ReplyMovesPlaces(w, w', t.fd, t.seqno);
  }

  lemma ExecuteKeepsInv(w: World, i: nat, v: Value)
    requires WorldOk(w) && StepEnabled(w, Work(Execute(i, v)))
    ensures WorldOk(After(w, Work(Execute(i, v))))
  {
    hide TaskIds, ResultIds, BusyIds, DoneIds, ConnOk, PlacesOk, ParseLine;
    ExecuteKeepsPlaces(w, i, v);
    ExecuteKeepsItems(w, i, v);
    hide ItemsOk;
    var t := w.pool.workers[i].task;
    if t.fd in w.conns {
      ExecutedAwaitsReply(w, i, v);
      ExecuteKeepsConn(w.conns[t.fd], w.hist[t.fd], t.seqno, v);
    }
  }

  lemma ExecuteKeepsItems(w: World, i: nat, v: Value)
    requires WorldOk(w) && StepEnabled(w, Work(Execute(i, v)))
    ensures ItemsOk(After(w, Work(Execute(i, v))))
  {
    hide TaskIds, ResultIds, BusyIds, DoneIds, ConnOk, PlacesOk, ParseLine;
    var w', t := After(w, Work(Execute(i, v))), w.pool.workers[i].task;
    if t.fd in w.conns {
      ExecutedAwaitsReply(w, i, v);
      AnswerKeepsItems(w, w', t.fd, t.seqno);
    } else {
      SameItems(w, w');
    }
    DeadResultOk(w', TaskResult(t.fd, t.seqno, v));
    WorkerChangeKeepsItems(w, w', i, Done(TaskResult(t.fd, t.seqno, v)));
  }

  lemma DeadResultOk(w: World, r: TaskResult)
    ensures r.fd !in w.conns ==> ResultOk(w, r)
  {
  }

  // ----- Delivering and writing

  lemma DrainKeepsInv(w: World)
    requires WorldOk(w) && StepEnabled(w, Drain)
    ensures WorldOk(After(w, Drain))
  {
    hide TaskIds, ResultIds, BusyIds, DoneIds, ConnOk, ParseLine;
    var w' := After(w, Drain);
    NoIds();
    assert Todo(w') == Todo(w) && Posted(w') == Posted(w);
    assert forall u :: TaskOk(w, u) ==> TaskOk(w', u);
    assert forall r :: ResultOk(w, r) ==> ResultOk(w', r);
  }

  /** A drained result of a live connection is one that its request is waiting for. */
  lemma DrainedAwaitsDelivery(w: World)
    requires WorldOk(w) && w.drained != [] && w.drained[0].fd in w.conns
    ensures var r := w.drained[0];
            && r.fd in w.hist && AwaitsDelivery(w.conns[r.fd], w.hist[r.fd], r.seqno)
            && w.hist[r.fd].replies[r.seqno] == r.response
  {
    hide TaskIds, BusyIds, DoneIds, ConnOk, ParseLine;
    var r := w.drained[0];
    assert Posted(w)[(r.fd, r.seqno)] >= 1;
    assert ResultOk(w, r);
  }

  lemma DeliverKeepsPlaces(w: World)
    requires WorldOk(w) && StepEnabled(w, DeliverNext)
    ensures PlacesOk(After(w, DeliverNext))
  {
    var w', r := After(w, DeliverNext), w.drained[0];
    assert ResultIds(w.drained) == multiset{(r.fd, r.seqno)} + ResultIds(w'.drained);
    hide TaskIds, ResultIds, BusyIds, DoneIds, ConnOk, ItemsOk, ParseLine, Deliver;
    assert Todo(w') == Todo(w);
    assert Posted(w) == Posted(w') + multiset{(r.fd, r.seqno)};
    if r.fd in w.conns {
      DrainedAwaitsDelivery(w);
      DeliverKeepsConn(w.conns[r.fd], w.hist[r.fd], r);
    }
    DeliveryMovesPlaces(w, w', r);
  }

  lemma DeliveryMovesPlaces(w: World, w': World, r: TaskResult)
    requires PlacesOk(w) && w'.hist == w.hist && w'.conns == DrainOne(w.conns, r)
    requires Todo(w') == Todo(w) && Posted(w) == Posted(w') + multiset{(r.fd, r.seqno)}
    requires r.fd in w.conns && r.fd in w.hist ==>
               && Deliver(w.conns[r.fd], r).nextSeqIssue == w.conns[r.fd].nextSeqIssue
               && forall n :: AwaitsDelivery(Deliver(w.conns[r.fd], r), w.hist[r.fd], n) <==>
                              n != r.seqno && AwaitsDelivery(w.conns[r.fd], w.hist[r.fd], n)
    ensures PlacesOk(w')
  {
    hide Todo, Posted, Deliver, AwaitsDelivery;
    forall g, k: nat | g in w'.conns && g in w'.hist
      ensures Todo(w')[(g, k)] == (if AwaitsReply(w'.conns[g], w'.hist[g], k) then 1 else 0)
      ensures Posted(w')[(g, k)] == (if AwaitsDelivery(w'.conns[g], w'.hist[g], k) then 1 else 0)
    {
      assert Todo(w)[(g, k)] == (if AwaitsReply(w.conns[g], w.hist[g], k) then 1 else 0);
      assert Posted(w)[(g, k)] == (if AwaitsDelivery(w.conns[g], w.hist[g], k) then 1 else 0);
    }
  }

  lemma DeliverKeepsInv(w: World)
    requires WorldOk(w) && StepEnabled(w, DeliverNext)
    ensures WorldOk(After(w, DeliverNext))
  {
    hide TaskIds, ResultIds, BusyIds, DoneIds, ConnOk, ParseLine, Deliver, PlacesOk;
    var w', r := After(w, DeliverNext), w.drained[0];
    DeliverKeepsPlaces(w);
    if r.fd in w.conns {
      DrainedAwaitsDelivery(w);
      DeliverKeepsConn(w.conns[r.fd], w.hist[r.fd], r);
    }
    assert w'.conns.Keys == w.conns.Keys;
    assert forall u :: TaskOk(w, u) ==> TaskOk(w', u);
    assert forall q :: ResultOk(w, q) ==> ResultOk(w', q);
  }

  lemma WriteKeepsInv(w: World, fd: Socket, n: nat)
    requires WorldOk(w) && StepEnabled(w, Write(fd, n))
    ensures WorldOk(After(w, Write(fd, n)))
  {
    hide TaskIds, ResultIds, BusyIds, DoneIds, ConnOk, ItemsOk, PlacesOk, ParseLine;
    var c, h, w' := w.conns[fd], w.hist[fd], After(w, Write(fd, n));
    if c.writeBuffer == "" {
      NothingToWrite(c, h);
    } else {
      WriteKeepsConn(c, h, n);
    }
    ReadKeepsRest(w, w', fd);
    ReadKeepsPlaces(w, w', fd);
  }

  lemma NothingToWrite(c: Conn, h: History)
    requires ConnOk(c, h) && c.writeBuffer == ""
    ensures c.(writePending := false) == c
  {
  }

  // ----- All steps

  lemma StepKeepsInv(w: World, s: Step)
    requires WorldOk(w) && StepEnabled(w, s)
    ensures WorldOk(After(w, s))
  {
    hide WorldOk, After;
    match s
    case Accept(fd, ip) => AcceptKeepsInv(w, fd, ip);
    case Recv(fd, bytes) => RecvKeepsInv(w, fd, bytes);
    case TakeLine => TakeLineKeepsInv(w);
    case Dispatch(allow) =>
      if ImmediateReply(w.phase.line, allow).Some? {
        PostKeepsInv(w, allow, ImmediateReply(w.phase.line, allow).value);
      } else {
        SubmitKeepsInv(w, allow);
      }
    case Work(ps) =>
      match ps {
        case Pop(i) => PopKeepsInv(w, i);
        case Execute(i, v) => ExecuteKeepsInv(w, i, v);
        case Push(i) => PushKeepsInv(w, i);
        case Exit(i) => ExitKeepsInv(w, i);
        case _ =>
      }
    case Drain => DrainKeepsInv(w);
    case DeliverNext => DeliverKeepsInv(w);
    case Unpause => UnpauseKeepsInv(w);
    case Write(fd, n) => WriteKeepsInv(w, fd, n);
    case Disconnect(fd) => DisconnectKeepsInv(w, fd);
    case Stop => StopKeepsInv(w);
    case ShutdownPool => ShutdownKeepsInv(w);
  }

  lemma InitInv(workers: nat, max: nat)
    requires max >= 1
    ensures WorldOk(Init(workers, max))
  {
    hide PlacesOk, ConnsOk;
    assert PlacesOk(Init(workers, max)) && ConnsOk(Init(workers, max)) by { NoConnsNoPlaces(Init(workers, max)); }
  }

  lemma NoConnsNoPlaces(w: World)
    requires w.conns == map[]
    ensures PlacesOk(w) && ConnsOk(w)
  {
  }

  lemma {:induction false} RunKeepsInv(w: World, steps: seq<Step>)
    requires WorldOk(w) && Possible(w, steps)
    ensures WorldOk(RunWorld(w, steps))
    decreases |steps|
  {
    hide WorldOk, After;
    if steps != [] {
      StepKeepsInv(w, steps[0]);
      RunKeepsInv(After(w, steps[0]), steps[1..]);
    }
  }
}
