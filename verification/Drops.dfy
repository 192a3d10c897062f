/**
 Requests that get no reply: when a limiter discards a line, and how a client can keep the
 pipeline limit from doing so.
 */
module Drops {
  import opened Text
  import opened Framing
  import opened Commands
  import opened Resp
  import opened Pool
  import opened Reassembly
  import opened Protocol
  import opened Guarantees
  import opened Turns
  import opened Serving
  import opened Reuse

  /** The next line to be cut is a request. */
  predicate RequestIsNext(c: Conn) {
    var n := NewlineAt(c.readBuffer);
    n < |c.readBuffer| && StripCr(c.readBuffer[..n]) != ""
  }

  /**
   A request is stamped exactly if its connection has fewer than 256 requests in flight and the
   task queue is at most nine tenths full; otherwise it is discarded and the connection paused.
   */
  lemma StampedExactlyIfRoom(w: World)
    requires StepEnabled(w, TakeLine) && RequestIsNext(w.conns[w.phase.fd])
    ensures var w', fd := After(w, TakeLine), w.phase.fd;
            if w.conns[fd].inFlight < 256 && |w.pool.queue| <= 9 * w.pool.max / 10 then
              w'.phase.Dispatching? && w'.paused == w.paused && |w'.hist[fd].lines| == |w.hist[fd].lines| + 1
            else
              w'.phase == Loop && w'.paused == w.paused + {fd} && w'.hist[fd].lines == w.hist[fd].lines
  {
    hide StripCr;
  }

  lemma NextIsCounted(c: Conn)
    requires RequestIsNext(c)
    ensures |Requests(c.readBuffer)| >= 1
  {
  }

  /**
   A client that has at most 256 requests without a decoded reply, counting the one that is
   being read, is never stopped by the pipeline limit: only a full task queue can discard it.
   */
  lemma WindowPreventsDepthLimit(w: World, fd: Socket)
    requires Reachable(w) && fd in w.conns && RequestIsNext(w.conns[fd])
    requires fd in w.hist ==>
               |Requests(w.hist[fd].received)| - |DecodeStream(w.hist[fd].sent).0| <= MAX_PIPELINE_DEPTH
    ensures w.conns[fd].inFlight < MAX_PIPELINE_DEPTH
    ensures w.phase == Lines(fd) && StepEnabled(w, TakeLine) && After(w, TakeLine).phase == Loop ==>
              |w.pool.queue| * 10 > w.pool.max * 9
  {
    hide ParseLine, ImmediateReply, DecodeStream, EncodeAll, Decode, Recovered;
    LinesOfTheStream(w, fd);
    InFlightIsExact(w, fd);
    RepliesInOrder(w, fd);
    NextIsCounted(w.conns[fd]);
    CutLinesCounted(w.hist[fd].cuts);
    var n, partial := DecodedReplies(w, fd);
  }

  lemma DecodedReplies(w: World, fd: Socket) returns (n: nat, partial: string)
    requires Reachable(w) && fd in w.conns
    ensures fd in w.hist && n <= w.conns[fd].nextSeqExpected && |DecodeStream(w.hist[fd].sent).0| == n
  {
    n, partial := ClientDecodesPrefix(w, fd);
    FrontLength(w.hist[fd].replies, w.conns[fd].nextSeqExpected);
    FrontLength(w.hist[fd].replies, n);
  }

  // ----- A discarded request

  function TwoLines(line: string): string {
    line + "\n" + (line + "\n")
  }

  lemma TakeOfTwo(p: PoolState, fd: Socket, c: Conn, line: string, h: History)
    requires OneLine(line) && StripCr(line) == line && line != "" && c.readBuffer == TwoLines(line)
    requires p.queue == [] && c.inFlight == 0 && c.nextSeqIssue == 0 && h.cuts == [] && h.lines == []
    ensures StepEnabled(One(p, fd, c, Lines(fd), [], h), TakeLine)
    ensures After(One(p, fd, c, Lines(fd), [], h), TakeLine) ==
            One(p, fd, c.(readBuffer := line + "\n", nextSeqIssue := 1, inFlight := 1),
                Dispatching(fd, 0, line), [], h.(cuts := [Cut(line, true)], lines := [line]))
  {
    hide StripCr, NewlineAt, OneLine;
    NewlineAfterLine(line, line + "\n");
    assert [] + [Cut(line, true)] == [Cut(line, true)] && [] + [line] == [line];
  }

  lemma DispatchToQueue(p: PoolState, fd: Socket, c: Conn, line: string, h: History)
    requires p.running && p.max >= 1 && p.queue == [] && ParseLine(line).Some?
    ensures StepEnabled(One(p, fd, c, Dispatching(fd, 0, line), [], h), Dispatch(true))
    ensures var t := Task(fd, 0, ParseLine(line).value);
            After(One(p, fd, c, Dispatching(fd, 0, line), [], h), Dispatch(true)) ==
            One(p.(queue := [t], accepted := p.accepted + [t]), fd, c, Lines(fd), [], h)
  {
    hide Tokens, Parse;
    NoTokensNoCommand(line);
    assert p.queue + [Task(fd, 0, ParseLine(line).value)] == [Task(fd, 0, ParseLine(line).value)];
  }

  lemma SecondIsDropped(p: PoolState, fd: Socket, c: Conn, line: string, h: History)
    requires OneLine(line) && StripCr(line) == line && line != "" && c.readBuffer == line + "\n"
    requires |p.queue| == 1 == p.max
    ensures StepEnabled(One(p, fd, c, Lines(fd), [], h), TakeLine)
    ensures After(One(p, fd, c, Lines(fd), [], h), TakeLine) ==
            One(p, fd, c.(readBuffer := ""), Loop, [], h.(cuts := h.cuts + [Cut(line, false)])).(paused := {fd})
  {
    NewlineAfterLine(line, "");
    hide StripCr, NewlineAt, OneLine;
    assert line + "\n" + "" == c.readBuffer;
    assert {} + {fd} == {fd};
  }

  lemma TwoRequests(line: string)
    requires OneLine(line) && StripCr(line) == line && line != ""
    ensures Requests(TwoLines(line)) == [line, line]
  {
    hide Requests, StripCr, OneLine;
    FirstLine(line, line + "\n");
    FirstLine(line, "");
    assert line + "\n" + "" == line + "\n";
    assert Requests("") == [] by { NothingRequested(); }
  }

  lemma NothingRequested()
    ensures Requests("") == []
  {
  }

  /**
   From a fresh server with room for one task: a client sends a command twice in one go, and
   the second is discarded: it has no number and so no reply.
   */
  lemma RequestIsDropped(workers: nat, fd: Socket, ip: string, line: string) returns (w: World)
    requires OneLine(line) && StripCr(line) == line && ParseLine(line).Some?
    ensures Reachable(w) && AtRest(w) && fd in w.conns && fd in w.hist
    ensures Requests(w.hist[fd].received) == [line, line] && w.hist[fd].lines == [line]
    ensures Discarded(w.hist[fd].cuts) == 1 && w.conns[fd].readBuffer == "" && w.paused == {fd}
  {
    hide Reaches, ParseLine, StripCr, OneLine, Requests;
    assert line != "" by { TokensOfNothing(); NoTokensNoCommand(""); }
    var p, bytes := NewPool(workers, 1), TwoLines(line);
    var w0, w1 := Init(workers, 1), Connected(workers, 1, fd, ip);
    FirstAccept(workers, 1, fd, ip);
    ReceiveIs(workers, 1, fd, ip, bytes);
    var c, h := NewConn(ip).(readBuffer := bytes), NoHistory.(received := bytes);
    var w2 := One(p, fd, c, Lines(fd), [], h);
    TakeOfTwo(p, fd, c, line, h);
    var c3 := c.(readBuffer := line + "\n", nextSeqIssue := 1, inFlight := 1);
    var h3 := h.(cuts := [Cut(line, true)], lines := [line]);
    var w3 := One(p, fd, c3, Dispatching(fd, 0, line), [], h3);
    DispatchToQueue(p, fd, c3, line, h3);
    var t := Task(fd, 0, ParseLine(line).value);
    var p4 := p.(queue := [t], accepted := p.accepted + [t]);
    var w4 := One(p4, fd, c3, Lines(fd), [], h3);
    SecondIsDropped(p4, fd, c3, line, h3);
    w := One(p4, fd, c3.(readBuffer := ""), Loop, [], h3.(cuts := h3.cuts + [Cut(line, false)])).(paused := {fd});
    hide StepEnabled, After;
    ReachesStep(w0, Accept(fd, ip));
    ReachesNext(w0, w1, Recv(fd, bytes));
    ReachesNext(w0, w2, TakeLine);
    ReachesNext(w0, w3, Dispatch(true));
    ReachesNext(w0, w4, TakeLine);
    FromInitIsReachable(workers, 1, w);
    TwoRequests(line);
    OneDiscard(line);
  }

  lemma OneDiscard(line: string)
    ensures Discarded([Cut(line, true)] + [Cut(line, false)]) == 1
  {
    var cuts := [Cut(line, true)] + [Cut(line, false)];
    assert cuts[..1] == [Cut(line, true)] && [Cut(line, true)][..0] == [];
    assert Discarded([Cut(line, true)]) == Discarded([]);
  }
}
