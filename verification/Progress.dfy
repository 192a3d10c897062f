/**
 Nothing gets stuck: whatever state a running server with workers is in, it can still answer
 every request it has taken.
 */
module Progress {
  import opened Text
  import opened Framing
  import opened Commands
  import opened Resp
  import opened Pool
  import opened Reassembly
  import opened Protocol
  import opened Guarantees
  import opened Turns
  import opened Reuse

  /** The same connections, and no stamped line forgotten. */
  predicate Grows(w: World, w': World) {
    && w'.conns.Keys == w.conns.Keys && |w'.pool.workers| == |w.pool.workers|
    && forall fd :: fd in w.hist ==> fd in w'.hist && w.hist[fd].lines <= w'.hist[fd].lines
  }

  lemma GrowsFurther(w: World, w': World, w'': World)
    requires Grows(w, w') && Grows(w', w'')
    ensures Grows(w, w'')
  {
  }

  lemma ReachableFurther(w: World, w': World)
    requires Reachable(w) && Reaches(w, w')
    ensures Reachable(w')
  {
    hide Possible, RunWorld;
    var workers: nat, max: nat, steps :|
      max >= 1 && Possible(Init(workers, max), steps) && w == RunWorld(Init(workers, max), steps);
    assert Reaches(Init(workers, max), w);
    ReachesFurther(Init(workers, max), w, w');
    FromInitIsReachable(workers, max, w');
  }

  // ----- The reactor gets back to its loop

  /** How far the reactor is from being at rest. */
  function Distance(w: World): nat {
    match w.phase
    case Loop => |w.drained|
    case Lines(fd) => 2 * Buffered(w, fd) + 1
    case Dispatching(fd, _, _) => 2 * Buffered(w, fd) + 2
    case Stopped => 0
  }

  lemma DeliverAdvances(w: World) returns (w': World)
    requires w.phase == Loop && w.drained != []
    ensures Reaches(w, w') && Grows(w, w') && Distance(w') < Distance(w) && w'.phase != Stopped
  {
    ReachesStep(w, DeliverNext);
    w' := After(w, DeliverNext);
    DeliverIs(w);
    hide Reaches, Deliver;
    assert w'.conns.Keys == w.conns.Keys;
  }

  lemma DispatchShape(w: World)
    requires StepEnabled(w, Dispatch(true))
    ensures var w', fd := After(w, Dispatch(true)), w.phase.fd;
            && w'.conns == w.conns && w'.phase == Lines(fd) && w'.pool.workers == w.pool.workers
            && w'.hist == w.hist[fd := w'.hist[fd]] && w'.hist[fd].lines == w.hist[fd].lines
  {
    hide ImmediateReply, ParseLine;
  }

  lemma DispatchAdvances(w: World) returns (w': World)
    requires w.phase.Dispatching? && w.phase.fd in w.conns && w.phase.fd in w.hist && w.drained == []
    ensures Reaches(w, w') && Grows(w, w') && Distance(w') < Distance(w) && w'.phase != Stopped
  {
    hide Reaches;
    ReachesStep(w, Dispatch(true));
    DispatchShape(w);
    w' := After(w, Dispatch(true));
    hide After;
  }

  lemma ReadingIsOk(w: World)
    requires WorldOk(w) && w.phase != Loop && w.phase != Stopped
    ensures w.drained == [] && w.phase.fd in w.conns && w.phase.fd in w.hist
  {
    hide QueueOk, CountsOk, PlacesOk, ItemsOk, ConnOk;
  }

  lemma TakeLineShape(w: World)
    requires StepEnabled(w, TakeLine)
    ensures var w', fd := After(w, TakeLine), w.phase.fd;
            && w'.conns == w.conns[fd := w'.conns[fd]] && w'.pool == w.pool && w'.drained == w.drained
            && w'.hist == w.hist[fd := w'.hist[fd]] && w.hist[fd].lines <= w'.hist[fd].lines
            && (w'.phase == Loop
                || ((w'.phase == w.phase || (w'.phase.Dispatching? && w'.phase.fd == fd))
                    && |w'.conns[fd].readBuffer| < |w.conns[fd].readBuffer|))
  {
    hide StripCr;
  }

  lemma TakeLineAdvances(w: World) returns (w': World)
    requires w.phase.Lines? && w.phase.fd in w.conns && w.phase.fd in w.hist && w.drained == []
    ensures Reaches(w, w') && Grows(w, w') && Distance(w') < Distance(w) && w'.phase != Stopped
  {
    hide Reaches;
    ReachesStep(w, TakeLine);
    TakeLineShape(w);
    w' := After(w, TakeLine);
    hide After;
    assert w'.conns.Keys == w.conns.Keys;
  }

  /** The reactor finishes what it is in the middle of. */
  lemma {:induction false} ToRest(w: World) returns (w': World)
    requires Reachable(w) && w.phase != Stopped
    ensures Reaches(w, w') && Grows(w, w') && AtRest(w')
    decreases Distance(w)
  {
    ReachableOk(w);
    hide Reaches, WorldOk, Distance, Grows, Reachable;
    if AtRest(w) {
      ReachesItself(w);
      GrowsItself(w);
      w' := w;
    } else {
      var w1 := StepToRest(w);
      ReachableFurther(w, w1);
      w' := ToRest(w1);
      ReachesFurther(w, w1, w');
      GrowsFurther(w, w1, w');
    }
  }

  lemma GrowsItself(w: World)
    ensures Grows(w, w)
  {
  }

  lemma StepToRest(w: World) returns (w': World)
    requires WorldOk(w) && w.phase != Stopped && !AtRest(w)
    ensures Reaches(w, w') && Grows(w, w') && Distance(w') < Distance(w) && w'.phase != Stopped
  {
    hide Reaches, WorldOk, Distance, Grows;
    match w.phase
    case Loop => w' := DeliverAdvances(w);
    case Lines(_) =>
      ReadingIsOk(w);
      w' := TakeLineAdvances(w);
    case Dispatching(_, _, _) =>
      ReadingIsOk(w);
      w' := DispatchAdvances(w);
  }

  // ----- The workers finish, and their results are delivered

  lemma {:induction false} FreeAll(w: World, k: nat) returns (w': World)
    requires Working(w) && w.pool.queue == [] && k <= |w.pool.workers|
    requires forall i :: k <= i < |w.pool.workers| ==> w.pool.workers[i].Idle?
    ensures Reaches(w, w') && Working(w') && Beside(w, w') && w'.pool.queue == []
    ensures forall i :: 0 <= i < |w'.pool.workers| ==> w'.pool.workers[i].Idle?
    decreases k
  {
    hide Reaches, Stale, Working, Holds, HasResult;
    if k == 0 {
      ReachesItself(w);
      w' := w;
    } else {
      var w1 := FreeWorker(w, k - 1, 0, 0);
      w' := FreeAll(w1, k - 1);
      ReachesFurther(w, w1, w');
    }
  }

  lemma BesideGrows(w: World, w': World)
    requires Beside(w, w')
    ensures Grows(w, w')
  {
  }

  lemma DrainedIsQuiet(w: World)
    requires AtRest(w) && w.pool.queue == [] && forall i :: 0 <= i < |w.pool.workers| ==> w.pool.workers[i].Idle?
    ensures Grows(w, DrainedAll(w)) && Quiet(DrainedAll(w)) && AtRest(DrainedAll(w))
  {
    DrainPerConnection(w.conns, w.pool.completions);
    hide DrainInto;
  }

  /** From every reachable state of a running server with a worker, some run leaves nothing under way. */
  lemma BecomesQuiet(w: World) returns (w': World)
    requires Reachable(w) && w.phase != Stopped && w.pool.workers != []
    ensures Reaches(w, w') && Reachable(w') && Grows(w, w') && Quiet(w') && AtRest(w')
  {
    hide Reaches, Reachable, Working, Stale, Grows, Beside, Quiet, DrainedAll;
    var w1 := ToRest(w);
    ReachableFurther(w, w1);
    ReachableRuns(w1);
    assert w1.pool.workers != [] by { SameWorkers(w, w1); }
    var w2 := EmptyQueue(w1, 0, 0);
    var w3 := FreeAll(w2, |w2.pool.workers|);
    BesideGrows(w1, w2);
    BesideGrows(w2, w3);
    w' := DrainedAll(w3);
    assert AtRest(w3) by { WorkingIsAtRest(w3); }
    DrainedIsQuiet(w3);
    DrainLeads(w3);
    GrowsFurther(w, w1, w2);
    GrowsFurther(w, w2, w3);
    GrowsFurther(w, w3, w');
    ReachesFurther(w, w1, w2);
    ReachesFurther(w, w2, w3);
    ReachesFurther(w, w3, w');
    ReachableFurther(w, w');
  }

  lemma WorkingIsAtRest(w: World)
    requires Working(w)
    ensures AtRest(w)
  {
  }

  lemma SameWorkers(w: World, w': World)
    requires Grows(w, w')
    ensures |w'.pool.workers| == |w.pool.workers|
  {
  }

  /**
   From every reachable state of a running server with a worker, some run sends a live client
   the replies to all the requests it has made so far, in order and in full.
   */
  lemma EveryRequestCanBeAnswered(w: World, fd: Socket) returns (w': World)
    requires Reachable(w) && w.phase != Stopped && w.pool.workers != [] && fd in w.conns
    ensures Reaches(w, w') && fd in w'.conns && fd in w.hist && fd in w'.hist
    ensures var h := w'.hist[fd];
            && w.hist[fd].lines <= h.lines && (forall n :: 0 <= n < |h.lines| ==> n in h.replies)
            && h.sent == EncodeAll(Front(h.replies, |h.lines|))
  {
    ReachableOk(w);
    LiveHasHistory(w, fd);
    hide WorldOk;
    hide Reaches, Reachable, Quiet, Grows;
    var w1 := BecomesQuiet(w);
    GrowsKeeps(w, w1, fd);
    w' := AllSent(w1, fd);
    ReachesFurther(w, w1, w');
    ReachableFurther(w, w');
    SentIsAll(w', fd);
  }

  lemma SentIsAll(w: World, fd: Socket)
    requires Reachable(w) && Quiet(w) && fd in w.conns && fd in w.hist && w.conns[fd].writeBuffer == ""
    ensures var h := w.hist[fd];
            (forall n :: 0 <= n < |h.lines| ==> n in h.replies) && h.sent == EncodeAll(Front(h.replies, |h.lines|))
  {
    QuietMeansAnswered(w, fd);
    RepliesInOrder(w, fd);
    hide Reachable, Quiet, EncodeAll, Front, ParseLine, ImmediateReply;
    var h := w.hist[fd];
    assert h.sent + "" == h.sent;
  }

  lemma GrowsKeeps(w: World, w': World, fd: Socket)
    requires Grows(w, w') && fd in w.conns && fd in w.hist
    ensures fd in w'.conns && fd in w'.hist && w.hist[fd].lines <= w'.hist[fd].lines
  {
  }

  lemma AllSent(w: World, fd: Socket) returns (w': World)
    requires AtRest(w) && Quiet(w) && fd in w.conns && fd in w.hist
    ensures Reaches(w, w') && Quiet(w') && fd in w'.conns && fd in w'.hist
    ensures w'.conns[fd].writeBuffer == "" && w'.hist[fd].lines == w.hist[fd].lines
  {
    var n := |w.conns[fd].writeBuffer|;
    ReachesStep(w, Write(fd, n));
    WriteIs(w, fd, n);
    w' := After(w, Write(fd, n));
    hide Reaches;
    assert w.conns[fd].writeBuffer[n..] == "";
  }
}
