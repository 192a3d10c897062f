/** What the reactor's steps keep about one connection and its history. */
module ProtocolConn {
  import opened Text
  import opened Framing
  import opened Commands
  import opened Resp
  import opened Pool
  import opened Reassembly
  import opened Protocol

  lemma NewConnOk(ip: string)
    ensures ConnOk(NewConn(ip), NoHistory)
  {
    assert Front(map[], 0) == [] && CutLines([]) == [];
  }

  // ----- Reading

  lemma RecvKeepsConn(c: Conn, h: History, bytes: string)
    requires ConnOk(c, h)
    ensures ConnOk(c.(readBuffer := c.readBuffer + bytes), h.(received := h.received + bytes))
  {
    hide Requests, Remainder, CutLines, Stamped, Ordered, Answered;
    RequestsOfAppend(h.received, bytes);
    RequestsOfAppend(c.readBuffer, bytes);
    SameOrder(c, h, c.(readBuffer := c.readBuffer + bytes), h.(received := h.received + bytes));
  }

  /** Reading touches neither the order of the replies nor the answers. */
  lemma SameOrder(c: Conn, h: History, c': Conn, h': History)
    requires Ordered(c, h) && Answered(h)
    requires c' == c.(readBuffer := c'.readBuffer) && h' == h.(received := h'.received, cuts := h'.cuts)
    ensures Ordered(c', h') && Answered(h')
  {
  }

  lemma CutIsFirstRequest(buffer: string)
    requires NewlineAt(buffer) < |buffer|
    ensures var n := NewlineAt(buffer);
            && Requests(buffer) == RequestOf(buffer[..n]) + Requests(buffer[n + 1..])
            && Remainder(buffer) == Remainder(buffer[n + 1..])
  {
    hide StripCr;
  }

  lemma EmptyLineKeepsConn(c: Conn, h: History)
    requires ConnOk(c, h) && NewlineAt(c.readBuffer) < |c.readBuffer|
    requires StripCr(c.readBuffer[..NewlineAt(c.readBuffer)]) == ""
    ensures ConnOk(c.(readBuffer := c.readBuffer[NewlineAt(c.readBuffer) + 1..]), h)
  {
    hide Requests, Remainder, CutLines, Stamped, Ordered, Answered, StripCr;
    CutIsFirstRequest(c.readBuffer);
    SameOrder(c, h, c.(readBuffer := c.readBuffer[NewlineAt(c.readBuffer) + 1..]), h);
  }

  lemma CutsGrow(cuts: seq<Cut>, x: Cut)
    ensures CutLines(cuts + [x]) == CutLines(cuts) + [x.line]
    ensures Stamped(cuts + [x]) == Stamped(cuts) + if x.stamped then [x.line] else []
  {
    assert (cuts + [x])[..|cuts|] == cuts;
  }

  /** The line leaves the buffer and joins the cuts. */
  lemma CutKeepsFraming(c: Conn, h: History, c': Conn, h': History)
    requires Framed(c, h) && NewlineAt(c.readBuffer) < |c.readBuffer|
    requires var n := NewlineAt(c.readBuffer); var line := StripCr(c.readBuffer[..n]);
             && line != "" && c'.readBuffer == c.readBuffer[n + 1..]
             && |h'.cuts| > 0 && h'.cuts[|h'.cuts| - 1].line == line
    requires h'.cuts[..|h'.cuts| - 1] == h.cuts && h'.received == h.received
    requires h'.lines == h.lines + if h'.cuts[|h.cuts|].stamped then [h'.cuts[|h.cuts|].line] else []
    ensures Framed(c', h')
  {
    hide Requests, Remainder, CutLines, Stamped, StripCr;
    var x := h'.cuts[|h.cuts|];
    assert h'.cuts == h.cuts + [x];
    CutsGrow(h.cuts, x);
    CutIsFirstRequest(c.readBuffer);
    assert CutLines(h.cuts) + ([x.line] + Requests(c'.readBuffer)) ==
           CutLines(h.cuts) + [x.line] + Requests(c'.readBuffer);
  }

  /** A limiter fires: one line is gone, nothing else changes. */
  lemma DropKeepsConn(c: Conn, h: History)
    requires ConnOk(c, h) && NewlineAt(c.readBuffer) < |c.readBuffer|
    requires StripCr(c.readBuffer[..NewlineAt(c.readBuffer)]) != ""
    ensures var n := NewlineAt(c.readBuffer); var line := StripCr(c.readBuffer[..n]);
            ConnOk(c.(readBuffer := c.readBuffer[n + 1..]), h.(cuts := h.cuts + [Cut(line, false)]))
  {
    hide Framed, Ordered, Answered, StripCr;
    var n := NewlineAt(c.readBuffer);
    var c' := c.(readBuffer := c.readBuffer[n + 1..]);
    var h' := h.(cuts := h.cuts + [Cut(StripCr(c.readBuffer[..n]), false)]);
    CutKeepsFraming(c, h, c', h');
    SameOrder(c, h, c', h');
  }

  /** A stamped line gets the next sequence number and awaits its reply. */
  lemma StampKeepsConn(c: Conn, h: History)
    requires ConnOk(c, h) && NewlineAt(c.readBuffer) < |c.readBuffer| && c.inFlight < MAX_PIPELINE_DEPTH
    requires StripCr(c.readBuffer[..NewlineAt(c.readBuffer)]) != ""
    ensures var n := NewlineAt(c.readBuffer); var line := StripCr(c.readBuffer[..n]);
            ConnOk(c.(readBuffer := c.readBuffer[n + 1..], nextSeqIssue := c.nextSeqIssue + 1,
                      inFlight := c.inFlight + 1),
                   h.(cuts := h.cuts + [Cut(line, true)], lines := h.lines + [line]))
  {
    hide Framed, Answered, StripCr, EncodeAll, ImmediateReply, ParseLine;
    var n := NewlineAt(c.readBuffer);
    var line := StripCr(c.readBuffer[..n]);
    var c' := c.(readBuffer := c.readBuffer[n + 1..], nextSeqIssue := c.nextSeqIssue + 1, inFlight := c.inFlight + 1);
    var h' := h.(cuts := h.cuts + [Cut(line, true)], lines := h.lines + [line]);
    CutKeepsFraming(c, h, c', h');
    MoreLinesAnswered(h, h');
  }

  lemma MoreLinesAnswered(h: History, h': History)
    requires Answered(h) && h.lines <= h'.lines
    requires h'.replies == h.replies && h'.executed == h.executed
    ensures Answered(h')
  {
    hide ImmediateReply, ParseLine, Sendable;
    assert forall n :: 0 <= n < |h.lines| ==> h'.lines[n] == h.lines[n];
  }

  // ----- Answering

  lemma FrontUnchanged(replies: map<nat, Value>, n: nat, v: Value, k: nat)
    requires n >= k
    ensures Front(replies[n := v], k) == Front(replies, k)
  {
  }

  /** A reply given to a line that had none, by the pipeline. */
  lemma AnswerKeepsConn(c: Conn, h: History, n: nat, v: Value, allow: bool)
    requires ConnOk(c, h) && n < |h.lines| && n !in h.replies
    requires ImmediateReply(h.lines[n], allow) == Some(v)
    ensures ConnOk(c, Answer(h, n, v))
  {
    hide Framed, EncodeAll, ImmediateReply, ParseLine, Front, Sendable;
    assert n >= c.nextSeqExpected;
    FrontUnchanged(h.replies, n, v, c.nextSeqExpected);
    ImmediateIsSendable(h.lines[n], allow);
    assert n !in h.executed;
    assert Framed(c, Answer(h, n, v)) by { StillFramed(c, h, Answer(h, n, v)); }
  }

  lemma StillFramed(c: Conn, h: History, h': History)
    requires Framed(c, h) && h'.received == h.received && h'.cuts == h.cuts && h'.lines == h.lines
    ensures Framed(c, h')
  {
  }

  lemma ImmediateIsSendable(line: string, allow: bool)
    requires ImmediateReply(line, allow).Some?
    ensures Sendable(ImmediateReply(line, allow).value)
  {
    assert NoBreak("ERR rate limit exceeded");
    assert NoBreak("ERR empty command");
    assert NoBreak("ERR unknown command");
  }

  /** ... or by a worker. */
  lemma ExecuteKeepsAnswered(h: History, n: nat, v: Value)
    requires Answered(h) && n < |h.lines| && n !in h.replies && ParseLine(h.lines[n]).Some? && Sendable(v)
    ensures Answered(Answer(h, n, v).(executed := h.executed + {n}))
  {
    hide ImmediateReply, ParseLine, Sendable;
  }

  lemma ExecuteKeepsOrdered(c: Conn, h: History, n: nat, v: Value)
    requires Ordered(c, h) && n !in h.replies
    ensures Ordered(c, Answer(h, n, v).(executed := h.executed + {n}))
  {
    hide EncodeAll, Front;
    assert n >= c.nextSeqExpected;
    FrontUnchanged(h.replies, n, v, c.nextSeqExpected);
  }

  lemma ExecuteKeepsConn(c: Conn, h: History, n: nat, v: Value)
    requires ConnOk(c, h) && n < |h.lines| && n !in h.replies
    requires ParseLine(h.lines[n]).Some? && Sendable(v)
    ensures ConnOk(c, Answer(h, n, v).(executed := h.executed + {n}))
  {
    hide Framed, Ordered, Answered;
    ExecuteKeepsAnswered(h, n, v);
    ExecuteKeepsOrdered(c, h, n, v);
    StillFramed(c, h, Answer(h, n, v).(executed := h.executed + {n}));
  }

  // ----- Delivering

  /** Everything but that the next expected reply may be waiting in the buffer. */
  predicate ConnMid(c: Conn, h: History) {
    Framed(c, h) && Ordered(c, h) && Answered(h)
  }

  lemma FrontGrows(replies: map<nat, Value>, k: nat)
    requires k in replies
    ensures Front(replies, k + 1) == Front(replies, k) + [replies[k]]
    ensures EncodeAll(Front(replies, k + 1)) == EncodeAll(Front(replies, k)) + Encode(replies[k])
  {
    hide Encode;
    assert Front(replies, k + 1) == Front(replies, k) + [replies[k]];
    EncodeAllOfAppend(Front(replies, k), [replies[k]]);
    assert [replies[k]][1..] == [];
  }

  /** The guard on the decrement never matters: a buffered reply is in flight. */
  lemma FlushOneKeepsConn(c: Conn, h: History)
    requires ConnMid(c, h) && c.nextSeqExpected in c.outOfOrder
    ensures ConnMid(FlushOne(c), h) && c.inFlight > 0
    ensures forall n :: AwaitsDelivery(FlushOne(c), h, n) <==> AwaitsDelivery(c, h, n)
    ensures FlushOne(c).nextSeqIssue == c.nextSeqIssue
  {
    hide Framed, Answered, EncodeAll, Encode, Front;
    var e, c' := c.nextSeqExpected, FlushOne(c);
    FrontGrows(h.replies, e);
    EncodeIsNotEmpty(c.outOfOrder[e]);
    assert h.sent + c'.writeBuffer == h.sent + c.writeBuffer + Encode(h.replies[e]);
    assert Framed(c', h) by { FramedSameBuffer(c, c', h); }
  }

  lemma EncodeIsNotEmpty(v: Value)
    ensures Encode(v) != ""
  {
  }

  lemma FramedSameBuffer(c: Conn, c': Conn, h: History)
    requires Framed(c, h) && c'.readBuffer == c.readBuffer
    ensures Framed(c', h)
  {
  }

  lemma {:induction false} FlushKeepsConn(c: Conn, h: History)
    requires ConnMid(c, h)
    ensures ConnOk(Flush(c), h) && Flush(c).nextSeqIssue == c.nextSeqIssue
    ensures forall n :: AwaitsDelivery(Flush(c), h, n) <==> AwaitsDelivery(c, h, n)
    decreases |c.outOfOrder|
  {
    hide Framed, Answered, Ordered, AwaitsDelivery;
    if c.nextSeqExpected in c.outOfOrder {
      FlushOneKeepsConn(c, h);
      RemoveShrinks(c.outOfOrder, c.nextSeqExpected);
      FlushKeepsConn(FlushOne(c), h);
    }
  }

  /** Delivering the reply of a request that was waiting for it. */
  lemma DeliverKeepsConn(c: Conn, h: History, r: TaskResult)
    requires ConnOk(c, h) && AwaitsDelivery(c, h, r.seqno) && h.replies[r.seqno] == r.response
    ensures ConnOk(Deliver(c, r), h) && Deliver(c, r).nextSeqIssue == c.nextSeqIssue
    ensures forall n :: AwaitsDelivery(Deliver(c, r), h, n) <==> n != r.seqno && AwaitsDelivery(c, h, n)
  {
    var c' := Buffer(c, r.seqno, r.response);
    assert ConnMid(c', h) by {
      hide EncodeAll, Front, Requests, Remainder, Sendable, ImmediateReply, ParseLine;
    }
    FlushKeepsConn(c', h);
  }

  // ----- Writing

  lemma WriteKeepsConn(c: Conn, h: History, n: nat)
    requires ConnOk(c, h) && c.writeBuffer != "" && n <= |c.writeBuffer|
    ensures var rest := c.writeBuffer[n..];
            ConnOk(c.(writeBuffer := rest, writePending := if rest == "" then false else c.writePending),
                   h.(sent := h.sent + c.writeBuffer[..n]))
  {
    hide Framed, Answered, EncodeAll, Front;
    var rest := c.writeBuffer[n..];
    assert h.sent + c.writeBuffer[..n] + rest == h.sent + c.writeBuffer;
    var c' := c.(writeBuffer := rest, writePending := if rest == "" then false else c.writePending);
    var h' := h.(sent := h.sent + c.writeBuffer[..n]);
    assert Framed(c', h') && Answered(h') by {
      FramedSameBuffer(c, c', h);
      StillFramed(c', h, h');
      MoreLinesAnswered(h, h');
    }
  }
}
