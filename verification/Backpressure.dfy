/**
 Which connections are polled for reading, and that reading goes on: a paused connection is
 read again.
 */
module Backpressure {
  import opened Text
  import opened Framing
  import opened Resp
  import opened Pool
  import opened Reassembly
  import opened Protocol
  import opened Guarantees
  import opened Turns
  import opened Reuse
  import opened Drops
  import opened Progress

  lemma BeforePollLeads(w: World)
    requires AtRest(w)
    ensures Reaches(w, BeforePoll(w)) && AtRest(BeforePoll(w))
    ensures BeforePoll(w).pool.queue == w.pool.queue && BeforePoll(w).pool.max == w.pool.max
    ensures BeforePoll(w).conns == DrainedAll(w).conns
  {
    DrainLeads(w);
    ReachesStep(DrainedAll(w), Unpause);
    hide Reaches, DrainInto;
    ReachesFurther(w, DrainedAll(w), BeforePoll(w));
  }

  lemma PausedAfter(w: World, fd: Socket)
    requires AtRest(w) && fd in BeforePoll(w).conns
    ensures fd !in BeforePoll(w).paused <==>
            10 * |w.pool.queue| < 7 * w.pool.max || fd !in w.paused
            || BeforePoll(w).conns[fd].inFlight < 256
  {
    hide DrainInto;
  }

  /**
   The poll set: while the task queue is below seven tenths every connection is read. At seven
   tenths or more one is left out exactly if it was paused before and still has 256 requests
   in flight.
   */
  lemma PolledForReading(w: World, polls: seq<PollFd>, i: nat)
    requires Reachable(w) && AtRest(w) && PollSetOf(BeforePoll(w), polls) && i < |polls|
    ensures var fd := polls[i].fd;
            && fd in BeforePoll(w).conns
            && (10 * |w.pool.queue| < 7 * w.pool.max ==> polls[i].wantRead)
            && (10 * |w.pool.queue| >= 7 * w.pool.max ==>
                  (!polls[i].wantRead <==> fd in w.paused && BeforePoll(w).conns[fd].inFlight == 256))
  {
    BeforePollLeads(w);
    ReachableFurther(w, BeforePoll(w));
    assert Wanted(BeforePoll(w), polls[i]);
    InFlightIsExact(BeforePoll(w), polls[i].fd);
    PausedAfter(w, polls[i].fd);
    hide BeforePoll, Reachable, PollSetOf;
  }

  /** Every connection is polled, in one entry. */
  lemma PolledOnce(w: World, polls: seq<PollFd>, fd: Socket) returns (i: nat)
    requires Reachable(w) && AtRest(w) && PollSetOf(BeforePoll(w), polls) && fd in w.conns
    ensures i < |polls| && polls[i].fd == fd && forall j :: 0 <= j < |polls| && polls[j].fd == fd ==> j == i
  {
    BeforePollLeads(w);
    DrainPerConnection(w.conns, w.pool.completions);
    assert fd in BeforePoll(w).conns;
    hide BeforePoll, Reachable;
    i :| 0 <= i < |polls| && polls[i].fd == fd;
  }

  /** A connection is polled for writing exactly if it has not been sent all replies that are next in order. */
  lemma PolledForWriting(w: World, polls: seq<PollFd>, i: nat)
    requires Reachable(w) && AtRest(w) && PollSetOf(BeforePoll(w), polls) && i < |polls|
    ensures var b, fd := BeforePoll(w), polls[i].fd;
            && fd in b.conns && fd in b.hist
            && (polls[i].wantWrite <==>
                b.hist[fd].sent != EncodeAll(Front(b.hist[fd].replies, b.conns[fd].nextSeqExpected)))
  {
    BeforePollLeads(w);
    ReachableFurther(w, BeforePoll(w));
    var b, fd := BeforePoll(w), polls[i].fd;
    assert Wanted(b, polls[i]);
    hide BeforePoll, Reachable, PollSetOf;
    RepliesInOrder(b, fd);
    var sent, buffer := b.hist[fd].sent, b.conns[fd].writeBuffer;
    assert |sent + buffer| == |sent| + |buffer|;
    assert buffer == "" ==> sent + buffer == sent;
  }

  // ----- A further line

  /** Reading is under way on an idle connection, with something to read. */
  predicate Reading(w: World, fd: Socket) {
    && w.phase == Lines(fd) && fd in w.conns && fd in w.hist && w.drained == []
    && w.pool.queue == [] && w.conns[fd].inFlight < 256
  }

  /** Empty lines are skipped until a request is stamped. */
  lemma {:induction false} ReadsOn(w: World, fd: Socket) returns (w': World)
    requires Reading(w, fd) && Requests(w.conns[fd].readBuffer) != []
    ensures Reaches(w, w') && fd in w'.conns && fd in w'.hist
    ensures |w'.hist[fd].lines| == |w.hist[fd].lines| + 1
    decreases |w.conns[fd].readBuffer|
  {
    ReachesStep(w, TakeLine);
    hide Reaches;
    var w1 := After(w, TakeLine);
    if RequestIsNext(w.conns[fd]) {
      StampedExactlyIfRoom(w);
      w' := w1;
    } else {
      SkipsEmptyLine(w, fd);
      w' := ReadsOn(w1, fd);
      ReachesFurther(w, w1, w');
    }
  }

  lemma SkipsEmptyLine(w: World, fd: Socket)
    requires Reading(w, fd) && Requests(w.conns[fd].readBuffer) != [] && !RequestIsNext(w.conns[fd])
    ensures var w' := After(w, TakeLine);
            && Reading(w', fd) && Requests(w'.conns[fd].readBuffer) != [] && w'.hist == w.hist
            && |w'.conns[fd].readBuffer| < |w.conns[fd].readBuffer|
  {
    hide StripCr;
    assert [] + Requests(w.conns[fd].readBuffer[NewlineAt(w.conns[fd].readBuffer) + 1..])
           == Requests(w.conns[fd].readBuffer[NewlineAt(w.conns[fd].readBuffer) + 1..]);
  }

  lemma {:induction false} MoreToRead(buffer: string)
    ensures Requests(buffer + "x\n") != []
    decreases |buffer|
  {
    RequestsOfAppend(buffer, "x\n");
    RemainderHasNoNewline(buffer);
    var rest := Remainder(buffer);
    NoNewlineIsOneLine(rest);
    assert rest + "x\n" == (rest + "x") + "\n" + "";
    FirstLine(rest + "x", "");
    assert StripCr(rest + "x") != "";
  }

  /** All requests are answered, all results delivered, and everybody is read again. */
  lemma QuietIsUnpaused(w: World) returns (w': World)
    requires Reachable(w) && Quiet(w) && AtRest(w)
    ensures Reaches(w, w') && AtRest(w') && w'.paused == {} && w'.pool.queue == []
    ensures w'.conns == w.conns && w'.hist == w.hist
  {
    ReachesStep(w, Unpause);
    w' := After(w, Unpause);
    ReachableOk(w);
    MaxIsPositive(w);
    hide Reaches, Reachable, WorldOk;
  }

  lemma MaxIsPositive(w: World)
    requires WorldOk(w)
    ensures w.pool.max >= 1
  {
    hide PhaseOk, CountsOk, ConnsOk, PlacesOk, ItemsOk;
  }

  /**
   Reading never stops for good: from every reachable state of a running server with a worker,
   some run comes to a point where a live connection is not paused and at rest, and from there
   takes in a further line of its and stamps it.
   */
  lemma FurtherLineIsStamped(w: World, fd: Socket) returns (idle: World, w': World)
    requires Reachable(w) && w.phase != Stopped && w.pool.workers != [] && fd in w.conns
    ensures Reaches(w, idle) && AtRest(idle) && idle.paused == {} && fd in idle.conns && fd in idle.hist && fd in w.hist
    ensures StepEnabled(idle, Recv(fd, "x\n")) && Reaches(After(idle, Recv(fd, "x\n")), w')
    ensures fd in w'.conns && fd in w'.hist && w.hist[fd].lines <= idle.hist[fd].lines
    ensures |w'.hist[fd].lines| == |idle.hist[fd].lines| + 1
  {
    ReachableOk(w);
    LiveHasHistory(w, fd);
    hide Reaches, WorldOk, Reachable, Quiet, Grows;
    var w1 := BecomesQuiet(w);
    GrowsKeeps(w, w1, fd);
    idle := QuietIsUnpaused(w1);
    ReachesFurther(w, w1, idle);
    NothingInFlight(w1, fd);
    w' := TakesLine(idle, fd);
  }

  lemma NothingInFlight(w: World, fd: Socket)
    requires Reachable(w) && Quiet(w) && fd in w.conns
    ensures w.conns[fd].inFlight == 0
  {
    QuietMeansAnswered(w, fd);
  }

  lemma TakesLine(w: World, fd: Socket) returns (w': World)
    requires AtRest(w) && fd in w.conns && fd in w.hist && w.pool.queue == [] && w.conns[fd].inFlight == 0
    ensures StepEnabled(w, Recv(fd, "x\n")) && Reaches(After(w, Recv(fd, "x\n")), w')
    ensures fd in w'.conns && fd in w'.hist && |w'.hist[fd].lines| == |w.hist[fd].lines| + 1
  {
    var w1 := After(w, Recv(fd, "x\n"));
    RecvIs(w, fd, "x\n");
    MoreToRead(w.conns[fd].readBuffer);
    hide Reaches, After, Requests;
    w' := ReadsOn(w1, fd);
  }
}
