/**
 The reactor, the pipeline and the worker pool as one machine. A step is one critical
 section or one call of the reactor thread; workers step at any time in between.
 */
module Protocol {
  import opened Text
  import opened Framing
  import opened Commands
  import opened Resp
  import opened Pool
  import opened Reassembly

  const MAX_CONNECTIONS: nat := 10000
  const MAX_PIPELINE_DEPTH: nat := 256

  const RATE_LIMITED := Error("ERR rate limit exceeded")
  const EMPTY_COMMAND := Error("ERR empty command")
  const UNKNOWN_COMMAND := Error("ERR unknown command")
  const SERVER_BUSY := Error("ERR server busy")

  /** Where the reactor thread is. */
  datatype Phase =
    | Loop
    | Lines(fd: Socket)
    | Dispatching(fd: Socket, seqno: nat, line: string)
    | Stopped

  /** A request line cut from the read buffer: stamped, or discarded because a limiter fired. */
  datatype Cut = Cut(line: string, stamped: bool)

  /**
   What happened on a connection: bytes received and sent, lines cut, lines stamped (their
   index is their sequence number), the reply each stamped line got, and which of them a
   worker executed.
   */
  datatype History = History(
    received: string, cuts: seq<Cut>, lines: seq<string>,
    replies: map<nat, Value>, executed: set<nat>, sent: string)

  const NoHistory := History("", [], [], map[], {}, "")

  datatype World = World(
    pool: PoolState, conns: map<Socket, Conn>, paused: set<Socket>, total: nat,
    phase: Phase, drained: seq<TaskResult>, hist: map<Socket, History>)

  function Init(workers: nat, max: nat): World {
    World(NewPool(workers, max), map[], {}, 0, Loop, [], map[])
  }

  datatype Step =
    | Accept(fd: Socket, ip: string)
    | Recv(fd: Socket, bytes: string)
    | TakeLine
    | Dispatch(allow: bool)
    | Work(step: PoolStep)
    | Drain
    | DeliverNext
    | Unpause
    | Write(fd: Socket, count: nat)
    | Disconnect(fd: Socket)
    | Stop
    | ShutdownPool

  /** The reactor is between two polled events, with nothing left to deliver. */
  predicate AtRest(w: World) {
    w.phase == Loop && w.drained == []
  }

  /** The assumption on accept: nothing of an earlier connection with this handle is still under way. */
  predicate NothingOutstanding(w: World, fd: Socket) {
    && fd !in w.conns
    && (forall t :: t in w.pool.queue ==> t.fd != fd)
    && (forall v :: v in w.pool.workers ==> (v.Busy? ==> v.task.fd != fd) && (v.Done? ==> v.result.fd != fd))
    && (forall r :: r in w.pool.completions ==> r.fd != fd)
  }

  /** What a worker may do on its own; its replies can be put on the wire. */
  predicate WorkerStep(s: PoolStep) {
    s.Pop? || (s.Execute? && Sendable(s.reply)) || s.Push? || s.Exit?
  }

  predicate StepEnabled(w: World, s: Step) {
    match s
    case Accept(fd, _) => AtRest(w) && NothingOutstanding(w, fd)
    case Recv(fd, bytes) => AtRest(w) && fd in w.conns && fd in w.hist && bytes != ""
    case TakeLine => w.phase.Lines? && w.phase.fd in w.conns && w.phase.fd in w.hist
    case Dispatch(_) => w.phase.Dispatching? && w.phase.fd in w.hist
    case Work(ps) => WorkerStep(ps) && Enabled(w.pool, ps)
    case Drain => AtRest(w)
    case DeliverNext => w.phase == Loop && w.drained != []
    case Unpause => AtRest(w)
    case Write(fd, n) => AtRest(w) && fd in w.conns && fd in w.hist && n <= |w.conns[fd].writeBuffer|
    case Disconnect(fd) => AtRest(w) && fd in w.conns
    case Stop => AtRest(w)
    case ShutdownPool => w.phase == Stopped
  }

  /** Execution is where a command meets the store. */
  predicate Executes(s: Step) {
    s.Work? && s.step.Execute?
  }

  // ----- Steps of the reactor

  /** One turn of the loop in handle_read. */
  function TakeLineStep(w: World): World
    requires StepEnabled(w, TakeLine)
  {
    var fd := w.phase.fd;
    var c, h := w.conns[fd], w.hist[fd];
    var n := NewlineAt(c.readBuffer);
    if n == |c.readBuffer| then w.(phase := Loop)
    else
      var line := StripCr(c.readBuffer[..n]);
      var c' := c.(readBuffer := c.readBuffer[n + 1..]);
      if line == "" then w.(conns := w.conns[fd := c'])
      else if c.inFlight >= MAX_PIPELINE_DEPTH || |w.pool.queue| * 10 > w.pool.max * 9 then
        w.(conns := w.conns[fd := c'], paused := w.paused + {fd}, phase := Loop,
           hist := w.hist[fd := h.(cuts := h.cuts + [Cut(line, false)])])
      else
        w.(conns := w.conns[fd := c'.(nextSeqIssue := c.nextSeqIssue + 1, inFlight := c.inFlight + 1)],
           hist := w.hist[fd := h.(cuts := h.cuts + [Cut(line, true)], lines := h.lines + [line])],
           phase := Dispatching(fd, c.nextSeqIssue, line))
  }

  /** What the pipeline answers by itself; None when the line is a command to be submitted. */
  function ImmediateReply(line: string, allow: bool): Option<Value> {
    if !allow then Some(RATE_LIMITED)
    else if Tokens(line) == [] then Some(EMPTY_COMMAND)
    else if ParseLine(line).None? then Some(UNKNOWN_COMMAND)
    else None
  }

  function Answer(h: History, n: nat, v: Value): History {
    h.(replies := h.replies[n := v])
  }

  /** Pipeline::process: rate limit, tokenize, parse, dispatch. */
  function DispatchStep(w: World, allow: bool): World
    requires StepEnabled(w, Dispatch(allow))
  {
    var fd, n, line := w.phase.fd, w.phase.seqno, w.phase.line;
    match ImmediateReply(line, allow)
    case Some(v) => Post(w, fd, n, v)
    case None =>
      var t := Task(fd, n, ParseLine(line).value);
      if Accepts(w.pool) then w.(pool := Submit(w.pool, t), phase := Lines(fd))
      else Post(w, fd, n, SERVER_BUSY)
  }

  /** An answer that bypasses the workers. */
  function Post(w: World, fd: Socket, n: nat, v: Value): World
    requires fd in w.hist
  {
    w.(pool := Pool.Next(w.pool, PushDirect(TaskResult(fd, n, v))), phase := Lines(fd),
       hist := w.hist[fd := Answer(w.hist[fd], n, v)])
  }

  function WorkStep(w: World, ps: PoolStep): World
    requires StepEnabled(w, Work(ps))
  {
    var w' := w.(pool := Pool.Next(w.pool, ps));
    if ps.Execute? then
      var t := w.pool.workers[ps.worker].task;
      if t.fd in w.conns && t.fd in w.hist then
        var h := Answer(w.hist[t.fd], t.seqno, ps.reply);
        w'.(hist := w.hist[t.fd := h.(executed := h.executed + {t.seqno})])
      else w'
    else w'
  }

  /** The unpausing at the top of the event loop. */
  function UnpauseStep(w: World): World {
    if |w.pool.queue| * 10 < w.pool.max * 7 then w.(paused := {})
    else
      w.(paused := set fd | fd in w.paused && !(fd in w.conns && w.conns[fd].inFlight < MAX_PIPELINE_DEPTH))
  }

  function WriteStep(w: World, fd: Socket, n: nat): World
    requires StepEnabled(w, Write(fd, n))
  {
    var c, h := w.conns[fd], w.hist[fd];
    if c.writeBuffer == "" then w.(conns := w.conns[fd := c.(writePending := false)])
    else
      var rest := c.writeBuffer[n..];
      w.(conns := w.conns[fd := c.(writeBuffer := rest, writePending := if rest == "" then false else c.writePending)],
         hist := w.hist[fd := h.(sent := h.sent + c.writeBuffer[..n])])
  }

  /** accept_connection, whatever handle `accept` returned. */
  function AcceptStep(w: World, fd: Socket, ip: string): World {
    if w.total >= MAX_CONNECTIONS then w
    else w.(conns := w.conns[fd := NewConn(ip)], total := w.total + 1, hist := w.hist[fd := NoHistory])
  }

  function After(w: World, s: Step): World
    requires StepEnabled(w, s)
  {
    match s
    case Accept(fd, ip) => AcceptStep(w, fd, ip)
    case Recv(fd, bytes) =>
      var c, h := w.conns[fd], w.hist[fd];
      w.(conns := w.conns[fd := c.(readBuffer := c.readBuffer + bytes)],
         hist := w.hist[fd := h.(received := h.received + bytes)], phase := Lines(fd))
    case TakeLine => TakeLineStep(w)
    case Dispatch(allow) => DispatchStep(w, allow)
    case Work(ps) => WorkStep(w, ps)
    case Drain => w.(pool := Pool.Next(w.pool, DrainAll), drained := w.pool.completions)
    case DeliverNext => w.(conns := DrainOne(w.conns, w.drained[0]), drained := w.drained[1..])
    case Unpause => UnpauseStep(w)
    case Write(fd, n) => WriteStep(w, fd, n)
    case Disconnect(fd) =>
      w.(conns := w.conns - {fd}, paused := w.paused - {fd}, total := if w.total > 0 then w.total - 1 else 0)
    case Stop => w.(conns := map[], phase := Stopped)
    case ShutdownPool => w.(pool := Pool.Next(w.pool, Shutdown))
  }

  predicate Possible(w: World, steps: seq<Step>)
    decreases |steps|
  {
    steps == [] || (StepEnabled(w, steps[0]) && Possible(After(w, steps[0]), steps[1..]))
  }

  function RunWorld(w: World, steps: seq<Step>): World
    requires Possible(w, steps)
    decreases |steps|
  {
    if steps == [] then w else RunWorld(After(w, steps[0]), steps[1..])
  }

  // ----- The invariant, part by part

  /** The first `k` replies, in the order of the requests. */
  function Front(replies: map<nat, Value>, k: nat): seq<Value> {
    seq(k, i => if i in replies then replies[i] else Nil)
  }

  function CutLines(cuts: seq<Cut>): seq<string> {
    seq(|cuts|, i requires 0 <= i < |cuts| => cuts[i].line)
  }

  function Stamped(cuts: seq<Cut>): seq<string> {
    if cuts == [] then []
    else Stamped(cuts[..|cuts| - 1]) + if cuts[|cuts| - 1].stamped then [cuts[|cuts| - 1].line] else []
  }

  /** The lines cut so far and those still buffered are the requests of the whole stream. */
  predicate Framed(c: Conn, h: History) {
    && Requests(h.received) == CutLines(h.cuts) + Requests(c.readBuffer)
    && Remainder(h.received) == Remainder(c.readBuffer)
    && h.lines == Stamped(h.cuts)
  }

  /** Replies are complete up to the next expected one, and what was flushed is what was sent and buffered. */
  predicate Ordered(c: Conn, h: History) {
    && |h.lines| == c.nextSeqIssue && c.nextSeqExpected <= c.nextSeqIssue
    && c.inFlight == c.nextSeqIssue - c.nextSeqExpected <= MAX_PIPELINE_DEPTH
    && (forall n :: n in c.outOfOrder ==>
          c.nextSeqExpected <= n < c.nextSeqIssue && n in h.replies && c.outOfOrder[n] == h.replies[n])
    && (forall n :: 0 <= n < c.nextSeqExpected ==> n in h.replies)
    && h.sent + c.writeBuffer == EncodeAll(Front(h.replies, c.nextSeqExpected))
    && (c.writePending <==> c.writeBuffer != "")
  }

  /** Every reply belongs to a stamped line: the pipeline's own answer to it, or a worker's for its command. */
  predicate Answered(h: History) {
    && (forall n :: n in h.replies ==> n < |h.lines| && Sendable(h.replies[n]))
    && (forall n :: n in h.executed ==> n in h.replies && ParseLine(h.lines[n]).Some?)
    && (forall n :: n in h.replies && n !in h.executed ==>
          exists allow :: ImmediateReply(h.lines[n], allow) == Some(h.replies[n]))
  }

  predicate ConnOk(c: Conn, h: History) {
    Framed(c, h) && Ordered(c, h) && Answered(h) && c.nextSeqExpected !in c.outOfOrder
  }

  predicate ConnsOk(w: World) {
    forall fd :: fd in w.conns ==> fd in w.hist && ConnOk(w.conns[fd], w.hist[fd])
  }

  /** The queue stays below its limit, and a line that passed the check finds room. */
  predicate QueueOk(w: World) {
    && w.pool.max >= 1
    && |w.pool.queue| <= 9 * w.pool.max / 10 + 1
    && (w.phase != Stopped ==> w.pool.running)
    && (w.phase.Dispatching? ==> |w.pool.queue| * 10 <= w.pool.max * 9)
  }

  predicate PhaseOk(w: World) {
    && (w.phase != Loop ==> w.drained == [])
    && (w.phase.Lines? ==> w.phase.fd in w.conns)
    && (w.phase.Dispatching? ==>
          && w.phase.fd in w.conns && w.phase.fd in w.hist
          && w.phase.seqno < |w.hist[w.phase.fd].lines|
          && w.hist[w.phase.fd].lines[w.phase.seqno] == w.phase.line)
    && (w.phase == Stopped ==> w.conns == map[])
  }

  predicate CountsOk(w: World) {
    w.phase != Stopped ==> w.total == |w.conns| <= MAX_CONNECTIONS && w.paused <= w.conns.Keys
  }

  // ----- Where every request is

  function DispatchIds(p: Phase): multiset<Id> {
    if p.Dispatching? then multiset{(p.fd, p.seqno)} else multiset{}
  }

  /** Requests without a reply yet: at the dispatcher, in the task queue, at a worker. */
  function Todo(w: World): multiset<Id> {
    DispatchIds(w.phase) + TaskIds(w.pool.queue) + BusyIds(w.pool.workers)
  }

  /** Requests whose reply is on its way: at a worker, in the completion queue, drained but not delivered. */
  function Posted(w: World): multiset<Id> {
    DoneIds(w.pool.workers) + ResultIds(w.pool.completions) + ResultIds(w.drained)
  }

  predicate AwaitsReply(c: Conn, h: History, n: nat) {
    n < c.nextSeqIssue && n !in h.replies
  }

  predicate AwaitsDelivery(c: Conn, h: History, n: nat) {
    n in h.replies && n >= c.nextSeqExpected && n !in c.outOfOrder
  }

  ghost predicate PlacesOk(w: World) {
    forall fd, n: nat :: fd in w.conns && fd in w.hist ==>
      && Todo(w)[(fd, n)] == (if AwaitsReply(w.conns[fd], w.hist[fd], n) then 1 else 0)
      && Posted(w)[(fd, n)] == (if AwaitsDelivery(w.conns[fd], w.hist[fd], n) then 1 else 0)
  }

  /** A task carries the command of the line with its number; a result carries the reply given to it. */
  predicate TaskOk(w: World, t: Task) {
    t.fd in w.conns && t.fd in w.hist ==>
      t.seqno < |w.hist[t.fd].lines| && ParseLine(w.hist[t.fd].lines[t.seqno]) == Some(t.command)
  }

  predicate ResultOk(w: World, r: TaskResult) {
    r.fd in w.conns && r.fd in w.hist ==>
      r.seqno in w.hist[r.fd].replies && w.hist[r.fd].replies[r.seqno] == r.response
  }

  predicate WorkerOk(w: World, v: Worker) {
    (v.Busy? ==> TaskOk(w, v.task)) && (v.Done? ==> ResultOk(w, v.result))
  }

  predicate ItemsOk(w: World) {
    && (forall t :: t in w.pool.queue ==> TaskOk(w, t))
    && (forall v :: v in w.pool.workers ==> WorkerOk(w, v))
    && (forall r :: r in w.pool.completions ==> ResultOk(w, r))
    && (forall r :: r in w.drained ==> ResultOk(w, r))
  }

  ghost predicate WorldOk(w: World) {
    QueueOk(w) && PhaseOk(w) && CountsOk(w) && ConnsOk(w) && PlacesOk(w) && ItemsOk(w)
  }
}
