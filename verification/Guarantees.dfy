/**
 What clients and operators may rely on, in every interleaving of the reactor and the
 workers: consequences of the invariant for all runs.
 */
module Guarantees {
  import opened Text
  import opened Framing
  import opened Commands
  import opened Resp
  import opened Pool
  import opened Reassembly
  import opened Protocol
  import opened ProtocolInv

  /** The states the server can get into. */
  ghost predicate Reachable(w: World) {
    exists workers: nat, max: nat, steps ::
      max >= 1 && Possible(Init(workers, max), steps) && w == RunWorld(Init(workers, max), steps)
  }

  lemma ReachableOk(w: World)
    requires Reachable(w)
    ensures WorldOk(w)
  {
    hide WorldOk;
    var workers: nat, max: nat, steps :|
      max >= 1 && Possible(Init(workers, max), steps) && w == RunWorld(Init(workers, max), steps);
    InitInv(workers, max);
    ProtocolInv.RunKeepsInv(Init(workers, max), steps);
  }

  /**
   Bytes sent and bytes still to be sent are the replies to requests 0, 1, 2, ... in the
   order of the requests, and each reply answers the line with its number.
   */
  lemma RepliesInOrder(w: World, fd: Socket)
    requires Reachable(w) && fd in w.conns
    ensures fd in w.hist
    ensures var c, h := w.conns[fd], w.hist[fd];
            && h.sent + c.writeBuffer == EncodeAll(Front(h.replies, c.nextSeqExpected))
            && c.nextSeqExpected <= |h.lines| == c.nextSeqIssue
            && forall n :: 0 <= n < c.nextSeqExpected ==>
                 && n in h.replies
                 && (n in h.executed ==> ParseLine(h.lines[n]).Some?)
                 && (n !in h.executed ==> exists allow :: ImmediateReply(h.lines[n], allow) == Some(h.replies[n]))
  {
    hide ParseLine, ImmediateReply;
    ReachableOk(w);
    assert ConnOk(w.conns[fd], w.hist[fd]);
  }

  lemma FrontIsSendable(c: Conn, h: History)
    requires ConnOk(c, h)
    ensures AllSendable(Front(h.replies, c.nextSeqExpected))
  {
    hide ParseLine, ImmediateReply;
  }

  /**
   The client's view: from the bytes sent to it so far it recovers the replies to its first
   n requests, every one of them that has been sent in full, and less than one more reply.
   */
  lemma ClientDecodesPrefix(w: World, fd: Socket) returns (n: nat, partial: string)
    requires Reachable(w) && fd in w.conns
    ensures fd in w.hist
    ensures Recovered(Front(w.hist[fd].replies, w.conns[fd].nextSeqExpected), w.hist[fd].sent, n, partial)
    ensures DecodeStream(w.hist[fd].sent) == (Front(w.hist[fd].replies, n), partial)
    ensures w.conns[fd].writeBuffer == "" ==> n == w.conns[fd].nextSeqExpected && partial == ""
  {
    RepliesInOrder(w, fd);
    assert ConnOk(w.conns[fd], w.hist[fd]) by { ReachableOk(w); }
    n, partial := SentDecodes(w.conns[fd], w.hist[fd]);
  }

  lemma SentDecodes(c: Conn, h: History) returns (n: nat, partial: string)
    requires ConnOk(c, h)
    ensures Recovered(Front(h.replies, c.nextSeqExpected), h.sent, n, partial)
    ensures DecodeStream(h.sent) == (Front(h.replies, n), partial)
    ensures c.writeBuffer == "" ==> n == c.nextSeqExpected && partial == ""
  {
    FrontIsSendable(c, h);
    var vs := Front(h.replies, c.nextSeqExpected);
    assert h.sent + c.writeBuffer == EncodeAll(vs);
    hide *;
    n, partial := StreamDecodes(vs, h.sent, c.writeBuffer);
    RecoveredIsFront(h.replies, c.nextSeqExpected, h.sent, n, partial);
    if c.writeBuffer == "" {
      assert h.sent + "" == h.sent;
      WholeStreamDecodes(vs);
      FrontLength(h.replies, c.nextSeqExpected);
      FrontLength(h.replies, n);
    }
  }

  lemma FrontLength(replies: map<nat, Value>, k: nat)
    ensures |Front(replies, k)| == k
  {
  }

  lemma RecoveredIsFront(replies: map<nat, Value>, k: nat, sent: string, n: nat, partial: string)
    requires Recovered(Front(replies, k), sent, n, partial)
    ensures n <= k && DecodeStream(sent) == (Front(replies, n), partial)
  {
    hide DecodeStream, EncodeAll, Encode;
    assert Front(replies, k)[..n] == Front(replies, n);
  }

  /** Every stamped request is in exactly one place, and nothing else is anywhere. */
  lemma ExactlyOnePlace(w: World, fd: Socket, n: nat)
    requires Reachable(w) && fd in w.conns
    ensures var c := w.conns[fd];
            Todo(w)[(fd, n)] + Posted(w)[(fd, n)]
            + (if n in c.outOfOrder then 1 else 0) + (if n < c.nextSeqExpected then 1 else 0)
            == if n < c.nextSeqIssue then 1 else 0
  {
    hide Todo, Posted, ParseLine, ImmediateReply, EncodeAll, Front, Framed;
    ReachableOk(w);
    var c, h := w.conns[fd], w.hist[fd];
    assert ConnOk(c, h);
    assert Todo(w)[(fd, n)] == (if AwaitsReply(c, h, n) then 1 else 0);
    assert Posted(w)[(fd, n)] == (if AwaitsDelivery(c, h, n) then 1 else 0);
  }

  /** The in-flight counter is exact and bounded, and the guard on its decrement never matters. */
  lemma InFlightIsExact(w: World, fd: Socket)
    requires Reachable(w) && fd in w.conns
    ensures var c := w.conns[fd]; c.inFlight == c.nextSeqIssue - c.nextSeqExpected <= 256
    ensures StepEnabled(w, DeliverNext) ==>
              var c, c' := w.conns[fd], After(w, DeliverNext).conns[fd];
              && c'.inFlight == c.inFlight - (c'.nextSeqExpected - c.nextSeqExpected)
              && c'.nextSeqExpected >= c.nextSeqExpected
  {
    hide PlacesOk, ItemsOk, ConnOk, Flush;
    ReachableOk(w);
    CounterIsDifference(w.conns[fd], w.hist[fd]);
    if StepEnabled(w, DeliverNext) {
      DeliverKeepsInv(w);
      var r, c' := w.drained[0], After(w, DeliverNext).conns[fd];
      CounterIsDifference(c', w.hist[fd]);
      if r.fd == fd {
        FlushAdvances(Buffer(w.conns[fd], r.seqno, r.response));
      }
    }
  }

  lemma CounterIsDifference(c: Conn, h: History)
    requires ConnOk(c, h)
    ensures c.inFlight == c.nextSeqIssue - c.nextSeqExpected <= MAX_PIPELINE_DEPTH
  {
  }

  lemma {:induction false} FlushAdvances(c: Conn)
    ensures Flush(c).nextSeqExpected >= c.nextSeqExpected && Flush(c).nextSeqIssue == c.nextSeqIssue
    decreases |c.outOfOrder|
  {
    if c.nextSeqExpected in c.outOfOrder {
      RemoveShrinks(c.outOfOrder, c.nextSeqExpected);
      FlushAdvances(FlushOne(c));
    }
  }

  lemma {:induction false} BlanksHaveNoTokens(line: string)
    requires forall i :: 0 <= i < |line| ==> IsSpace(line[i])
    ensures Tokens(line) == []
  {
    TokensSkipSpaces(line, "");
    assert line + "" == line;
    TokensOfNothing();
  }

  lemma PipelineErrors()
    ensures Encode(RATE_LIMITED) == "-ERR rate limit exceeded\r\n"
    ensures Encode(EMPTY_COMMAND) == "-ERR empty command\r\n"
    ensures Encode(UNKNOWN_COMMAND) == "-ERR unknown command\r\n"
    ensures Encode(SERVER_BUSY) == "-ERR server busy\r\n"
  {
    assert "-" + "ERR rate limit exceeded" == "-ERR rate limit exceeded";
  }

  lemma CommandHasTokens(line: string)
    ensures ParseLine(line).Some? ==> Tokens(line) != []
  {
    hide Tokens;
  }

  /** What the pipeline answers by itself, byte by byte, and when; a command it passes on. */
  lemma PipelineAnswers(line: string)
    ensures ImmediateReply(line, false).Some?
    ensures Encode(ImmediateReply(line, false).value) == "-ERR rate limit exceeded\r\n"
    ensures (forall i :: 0 <= i < |line| ==> IsSpace(line[i])) ==>
              ImmediateReply(line, true).Some?
              && Encode(ImmediateReply(line, true).value) == "-ERR empty command\r\n"
    ensures Tokens(line) != [] && ParseLine(line) == None ==>
              ImmediateReply(line, true).Some?
              && Encode(ImmediateReply(line, true).value) == "-ERR unknown command\r\n"
    ensures ParseLine(line).Some? ==> ImmediateReply(line, true) == None
    ensures Encode(SERVER_BUSY) == "-ERR server busy\r\n"
  {
    if forall i :: 0 <= i < |line| ==> IsSpace(line[i]) {
      BlanksHaveNoTokens(line);
    }
    PipelineErrors();
    CommandHasTokens(line);
    hide Tokens, ParseLine, IsSpace, Encode;
  }

  /** A connection is taken on exactly while there are fewer than 10000. */
  lemma AcceptedBelowLimit(w: World, fd: Socket, ip: string)
    requires Reachable(w) && StepEnabled(w, Accept(fd, ip))
    ensures fd in After(w, Accept(fd, ip)).conns <==> |w.conns| < 10000
  {
    ConnectionsAreCounted(w);
    hide Reachable, NothingOutstanding;
  }

  /** Nothing is queued, being executed, or on its way back. */
  predicate Quiet(w: World) {
    && !w.phase.Dispatching? && w.pool.queue == [] && w.pool.completions == [] && w.drained == []
    && forall i :: 0 <= i < |w.pool.workers| ==> w.pool.workers[i].Idle? || w.pool.workers[i].Exited?
  }

  /** Once queues and workers are empty, every stamped request has been answered in full. */
  lemma QuietMeansAnswered(w: World, fd: Socket)
    requires Reachable(w) && Quiet(w) && fd in w.conns
    ensures fd in w.hist
    ensures var c, h := w.conns[fd], w.hist[fd];
            && c.nextSeqExpected == c.nextSeqIssue == |h.lines| && c.inFlight == 0 && c.outOfOrder == map[]
            && h.sent + c.writeBuffer == EncodeAll(Front(h.replies, |h.lines|))
  {
    RepliesInOrder(w, fd);
    NoneAtWork(w.pool.workers);
    NoIds();
    assert Todo(w) == multiset{} && Posted(w) == multiset{};
    ExactlyOnePlace(w, fd, w.conns[fd].nextSeqExpected);
    ReachableOk(w);
    assert ConnOk(w.conns[fd], w.hist[fd]);
  }

  /** A line that passed the reactor's checks always finds room: the server is never "busy". */
  lemma SubmitNeverRefuses(w: World)
    requires Reachable(w)
    ensures |w.pool.queue| <= 9 * w.pool.max / 10 + 1
    ensures w.phase.Dispatching? ==> Accepts(w.pool)
  {
    ReachableOk(w);
  }

  lemma ConnectionsAreCounted(w: World)
    requires Reachable(w) && w.phase != Stopped
    ensures w.total == |w.conns| <= 10000 && w.paused <= w.conns.Keys
    ensures forall fd :: fd in w.conns ==> (w.conns[fd].writePending <==> w.conns[fd].writeBuffer != "")
  {
    hide ParseLine, ImmediateReply;
    ReachableOk(w);
  }

  /**
   Framing does not depend on how the stream was received: the lines cut so far, stamped
   or discarded by a limiter, followed by those still in the buffer, are the requests of
   the stream; so exactly the requests of the stream were stamped if and only if none was
   discarded and none is still buffered.
   */
  lemma LinesOfTheStream(w: World, fd: Socket)
    requires Reachable(w) && fd in w.conns
    ensures fd in w.hist
    ensures var c, h := w.conns[fd], w.hist[fd];
            && Requests(h.received) == CutLines(h.cuts) + Requests(c.readBuffer)
            && Remainder(h.received) == Remainder(c.readBuffer)
            && h.lines == Stamped(h.cuts)
            && |h.cuts| == |h.lines| + Discarded(h.cuts)
    ensures var c, h := w.conns[fd], w.hist[fd];
            h.lines == Requests(h.received) <==> Discarded(h.cuts) == 0 && Requests(c.readBuffer) == []
    ensures var c, h := w.conns[fd], w.hist[fd];
            NewlineAt(c.readBuffer) == |c.readBuffer| ==>
              Requests(c.readBuffer) == [] && c.readBuffer == Remainder(h.received)
  {
    ReachableOk(w);
    var c, h := w.conns[fd], w.hist[fd];
    assert ConnOk(c, h);
    DiscardsAreTheRest(h.cuts);
    CutLinesCounted(h.cuts);
    if Requests(c.readBuffer) == [] {
      assert CutLines(h.cuts) + [] == CutLines(h.cuts);
    }
  }

  lemma CutLinesCounted(cuts: seq<Cut>)
    ensures |CutLines(cuts)| == |cuts|
  {
  }

  function Discarded(cuts: seq<Cut>): nat {
    if cuts == [] then 0
    else Discarded(cuts[..|cuts| - 1]) + if cuts[|cuts| - 1].stamped then 0 else 1
  }

  lemma {:induction false} DiscardsAreTheRest(cuts: seq<Cut>)
    ensures |cuts| == |Stamped(cuts)| + Discarded(cuts)
    ensures Discarded(cuts) == 0 ==> Stamped(cuts) == CutLines(cuts)
  {
    if cuts != [] {
      var n := |cuts| - 1;
      DiscardsAreTheRest(cuts[..n]);
      assert CutLines(cuts) == CutLines(cuts[..n]) + [cuts[n].line];
    }
  }

  // ----- The assumption on socket handles

  lemma {:induction false} TaskIsCounted(ts: seq<Task>, t: Task)
    requires t in ts
    ensures TaskIds(ts)[(t.fd, t.seqno)] >= 1
  {
    if ts[0] != t {
      TaskIsCounted(ts[1..], t);
    }
  }

  lemma {:induction false} ResultIsCounted(rs: seq<TaskResult>, r: TaskResult)
    requires r in rs
    ensures ResultIds(rs)[(r.fd, r.seqno)] >= 1
  {
    if rs[0] != r {
      ResultIsCounted(rs[1..], r);
    }
  }

  lemma {:induction false} WorkerIsCounted(ws: seq<Worker>, v: Worker)
    requires v in ws
    ensures v.Busy? ==> BusyIds(ws)[(v.task.fd, v.task.seqno)] >= 1
    ensures v.Done? ==> DoneIds(ws)[(v.result.fd, v.result.seqno)] >= 1
  {
    if ws[0] == v {
      if v.Busy? {
        TaskIsCounted(Held(v), v.task);
      } else if v.Done? {
        ResultIsCounted(Finished(v), v.result);
      }
    } else {
      WorkerIsCounted(ws[1..], v);
    }
  }

  /**
   Results find their connection by its handle alone. A new connection fits into the
   invariant exactly when nothing of an earlier one with the same handle is under way.
   */
  lemma HandleMustBeUnused(w: World, fd: Socket, ip: string)
    requires WorldOk(w) && AtRest(w) && fd !in w.conns && w.total < MAX_CONNECTIONS
    ensures WorldOk(AcceptStep(w, fd, ip)) <==> NothingOutstanding(w, fd)
  {
    if NothingOutstanding(w, fd) {
      AcceptKeepsInv(w, fd, ip);
    } else {
      var n := Outstanding(w, fd);
      var w' := AcceptStep(w, fd, ip);
      assert w'.conns[fd] == NewConn(ip) && w'.hist[fd] == NoHistory;
      assert !PlacesOk(w');
    }
  }

  lemma Outstanding(w: World, fd: Socket) returns (n: nat)
    requires fd !in w.conns && !NothingOutstanding(w, fd)
    ensures Todo(w)[(fd, n)] + Posted(w)[(fd, n)] >= 1
  {
    if t :| t in w.pool.queue && t.fd == fd {
      n := t.seqno;
      TaskIsCounted(w.pool.queue, t);
    } else if v :| v in w.pool.workers && ((v.Busy? && v.task.fd == fd) || (v.Done? && v.result.fd == fd)) {
      n := if v.Busy? then v.task.seqno else v.result.seqno;
      WorkerIsCounted(w.pool.workers, v);
    } else {
      var r :| r in w.pool.completions && r.fd == fd;
      n := r.seqno;
      ResultIsCounted(w.pool.completions, r);
    }
  }

  /** With a handle reused too early, the new client is sent the old client's reply to a request it never made. */
  lemma ReusedHandleMisdelivers(w: World, r: TaskResult, ip: string)
    requires AtRest(w) && w.total < MAX_CONNECTIONS && r.fd !in w.conns && r.seqno == 0
    requires w.pool.completions == [r]
    ensures var drained := After(AcceptStep(w, r.fd, ip), Drain);
            StepEnabled(drained, DeliverNext) &&
            var c := After(drained, DeliverNext).conns[r.fd];
            c.writeBuffer == Encode(r.response) && c.nextSeqIssue == 0 && c.nextSeqExpected == 1
  {
    var c := Buffer(NewConn(ip), 0, r.response);
    assert Deliver(NewConn(ip), r) == Flush(c);
    RemoveShrinks(c.outOfOrder, 0);
    assert Flush(c) == Flush(FlushOne(c));
    assert FlushOne(c).outOfOrder == map[];
    assert Flush(FlushOne(c)) == FlushOne(c);
    assert "" + Encode(r.response) == Encode(r.response);
  }
}
