/**
 The worker pool and the completion queue, as a machine whose steps are the critical
 sections of `submit`, the worker loop and `shutdown`, in any interleaving.
 */
module Pool {
  import opened Text
  import opened Commands
  import opened Resp

  type Socket = nat

  datatype Task = Task(fd: Socket, seqno: nat, command: Command)

  datatype TaskResult = TaskResult(fd: Socket, seqno: nat, response: Value)

  type Id = (Socket, nat)

  /** A worker waits, holds a task, holds its finished result, or has returned. */
  datatype Worker = Idle | Busy(task: Task) | Done(result: TaskResult) | Exited

  /** `accepted` and `produced` record what submit took and what workers pushed, over all time. */
  datatype PoolState = PoolState(
    queue: seq<Task>, max: nat, running: bool, workers: seq<Worker>, completions: seq<TaskResult>,
    accepted: seq<Task>, produced: seq<TaskResult>)

  function NewPool(workers: nat, max: nat): PoolState {
    PoolState([], max, true, seq(workers, _ => Idle), [], [], [])
  }

  // ----- Steps

  /** `submit` refuses a task once the pool is stopped or the queue is full. */
  predicate Accepts(p: PoolState) {
    p.running && |p.queue| < p.max
  }

  function Submit(p: PoolState, t: Task): PoolState {
    if Accepts(p) then p.(queue := p.queue + [t], accepted := p.accepted + [t]) else p
  }

  datatype PoolStep =
    | SubmitTask(task: Task)
    | PushDirect(result: TaskResult)
    | Pop(worker: nat)
    | Execute(worker: nat, reply: Value)
    | Push(worker: nat)
    | Exit(worker: nat)
    | DrainAll
    | Shutdown

  predicate Enabled(p: PoolState, s: PoolStep) {
    match s
    case SubmitTask(_) => true
    case PushDirect(_) => true
    case Pop(i) => i < |p.workers| && p.workers[i].Idle? && p.queue != []
    case Execute(i, _) => i < |p.workers| && p.workers[i].Busy?
    case Push(i) => i < |p.workers| && p.workers[i].Done?
    case Exit(i) => i < |p.workers| && p.workers[i].Idle? && !p.running && p.queue == []
    case DrainAll => true
    case Shutdown => true
  }

  function Next(p: PoolState, s: PoolStep): PoolState
    requires Enabled(p, s)
  {
    match s
    case SubmitTask(t) => Submit(p, t)
    case PushDirect(r) => p.(completions := p.completions + [r])
    case Pop(i) => p.(queue := p.queue[1..], workers := p.workers[i := Busy(p.queue[0])])
    case Execute(i, reply) =>
      var t := p.workers[i].task;
      p.(workers := p.workers[i := Done(TaskResult(t.fd, t.seqno, reply))])
    case Push(i) =>
      var r := p.workers[i].result;
      p.(workers := p.workers[i := Idle], completions := p.completions + [r], produced := p.produced + [r])
    case Exit(i) => p.(workers := p.workers[i := Exited])
    case DrainAll => p.(completions := [])
    case Shutdown => p.(running := false)
  }

  predicate ValidRun(p: PoolState, steps: seq<PoolStep>)
    decreases |steps|
  {
    steps == [] || (Enabled(p, steps[0]) && ValidRun(Next(p, steps[0]), steps[1..]))
  }

  function Run(p: PoolState, steps: seq<PoolStep>): PoolState
    requires ValidRun(p, steps)
    decreases |steps|
  {
    if steps == [] then p else Run(Next(p, steps[0]), steps[1..])
  }

  // ----- Which requests are where

  function TaskIds(ts: seq<Task>): multiset<Id> {
    if ts == [] then multiset{} else multiset{(ts[0].fd, ts[0].seqno)} + TaskIds(ts[1..])
  }

  function ResultIds(rs: seq<TaskResult>): multiset<Id> {
    if rs == [] then multiset{} else multiset{(rs[0].fd, rs[0].seqno)} + ResultIds(rs[1..])
  }

  function Held(w: Worker): seq<Task> {
    if w.Busy? then [w.task] else []
  }

  function Finished(w: Worker): seq<TaskResult> {
    if w.Done? then [w.result] else []
  }

  function BusyIds(ws: seq<Worker>): multiset<Id> {
    if ws == [] then multiset{} else TaskIds(Held(ws[0])) + BusyIds(ws[1..])
  }

  function DoneIds(ws: seq<Worker>): multiset<Id> {
    if ws == [] then multiset{} else ResultIds(Finished(ws[0])) + DoneIds(ws[1..])
  }

  lemma {:induction false} TaskIdsOfAppend(a: seq<Task>, b: seq<Task>)
    ensures TaskIds(a + b) == TaskIds(a) + TaskIds(b)
  {
    if a == [] {
      assert a + b == b;
    } else {
      assert (a + b)[1..] == a[1..] + b;
      TaskIdsOfAppend(a[1..], b);
    }
  }

  lemma {:induction false} ResultIdsOfAppend(a: seq<TaskResult>, b: seq<TaskResult>)
    ensures ResultIds(a + b) == ResultIds(a) + ResultIds(b)
  {
    if a == [] {
      assert a + b == b;
    } else {
      assert (a + b)[1..] == a[1..] + b;
      ResultIdsOfAppend(a[1..], b);
    }
  }

  lemma Associate(a: multiset<Id>, b: multiset<Id>, c: multiset<Id>, d: multiset<Id>)
    ensures a + (b + c + d) == a + b + c + d
    ensures multiset{} + a + b == a + b
  {
  }

  lemma {:induction false} BusySplit(ws: seq<Worker>, i: nat)
    requires i < |ws|
    ensures BusyIds(ws) == BusyIds(ws[..i]) + TaskIds(Held(ws[i])) + BusyIds(ws[i + 1..])
  {
    hide TaskIds, Held;
    if i > 0 {
      BusySplit(ws[1..], i - 1);
      assert ws[..i][0] == ws[0] && ws[..i][1..] == ws[1..][..i - 1] && ws[1..][i..] == ws[i + 1..];
      Associate(TaskIds(Held(ws[0])), BusyIds(ws[1..][..i - 1]), TaskIds(Held(ws[i])), BusyIds(ws[i + 1..]));
    } else {
      Associate(TaskIds(Held(ws[0])), BusyIds(ws[1..]), multiset{}, multiset{});
    }
  }

  lemma {:induction false} DoneSplit(ws: seq<Worker>, i: nat)
    requires i < |ws|
    ensures DoneIds(ws) == DoneIds(ws[..i]) + ResultIds(Finished(ws[i])) + DoneIds(ws[i + 1..])
  {
    hide ResultIds, Finished;
    if i > 0 {
      DoneSplit(ws[1..], i - 1);
      assert ws[..i][0] == ws[0] && ws[..i][1..] == ws[1..][..i - 1] && ws[1..][i..] == ws[i + 1..];
      Associate(ResultIds(Finished(ws[0])), DoneIds(ws[1..][..i - 1]), ResultIds(Finished(ws[i])),
                DoneIds(ws[i + 1..]));
    } else {
      Associate(ResultIds(Finished(ws[0])), DoneIds(ws[1..]), multiset{}, multiset{});
    }
  }

  /** Changing one worker changes the ids at work by that worker's share. */
  lemma WorkerChanges(ws: seq<Worker>, i: nat, w: Worker)
    requires i < |ws|
    ensures BusyIds(ws[i := w]) + TaskIds(Held(ws[i])) == BusyIds(ws) + TaskIds(Held(w))
    ensures DoneIds(ws[i := w]) + ResultIds(Finished(ws[i])) == DoneIds(ws) + ResultIds(Finished(w))
  {
    hide BusyIds, DoneIds, TaskIds, ResultIds;
    assert ws[i := w][..i] == ws[..i] && ws[i := w][i + 1..] == ws[i + 1..];
    BusySplit(ws, i);
    BusySplit(ws[i := w], i);
    DoneSplit(ws, i);
    DoneSplit(ws[i := w], i);
  }

  lemma TaskIdOfOne(t: Task)
    ensures TaskIds([t]) == multiset{(t.fd, t.seqno)}
  {
    assert [t][1..] == [];
  }

  lemma ResultIdOfOne(r: TaskResult)
    ensures ResultIds([r]) == multiset{(r.fd, r.seqno)}
  {
    assert [r][1..] == [];
  }

  function IdOf(fd: Socket, n: nat): multiset<Id> {
    multiset{(fd, n)}
  }

  lemma NoIds()
    ensures TaskIds([]) == multiset{} && ResultIds([]) == multiset{}
  {
  }

  lemma PlusNothing(x: multiset<Id>, y: multiset<Id>)
    requires x + multiset{} == y + multiset{}
    ensures x == y
  {
    assert x + multiset{} == x && y + multiset{} == y;
  }

  lemma SubmitMoves(p: PoolState, t: Task)
    ensures TaskIds(Submit(p, t).queue) ==
            TaskIds(p.queue) + if Accepts(p) then IdOf(t.fd, t.seqno) else multiset{}
    ensures TaskIds(Submit(p, t).accepted) ==
            TaskIds(p.accepted) + if Accepts(p) then IdOf(t.fd, t.seqno) else multiset{}
  {
    hide TaskIds;
    TaskIdOfOne(t);
    TaskIdsOfAppend(p.queue, [t]);
    TaskIdsOfAppend(p.accepted, [t]);
  }

  /** Where a worker's steps move an id: from the queue to the worker, ... */
  lemma PopMoves(p: PoolState, i: nat)
    requires Enabled(p, Pop(i))
    ensures var q, id := Next(p, Pop(i)), IdOf(p.queue[0].fd, p.queue[0].seqno);
            && TaskIds(p.queue) == id + TaskIds(q.queue)
            && BusyIds(q.workers) == BusyIds(p.workers) + id
            && DoneIds(q.workers) == DoneIds(p.workers)
  {
    hide BusyIds, DoneIds;
    NoIds();
    TaskIdOfOne(p.queue[0]);
    WorkerChanges(p.workers, i, Busy(p.queue[0]));
    PlusNothing(DoneIds(Next(p, Pop(i)).workers), DoneIds(p.workers));
  }

  /** ... from the worker into its result, ... */
  lemma ExecuteMoves(p: PoolState, i: nat, reply: Value)
    requires Enabled(p, Execute(i, reply))
    ensures var q, t := Next(p, Execute(i, reply)), p.workers[i].task;
            && BusyIds(p.workers) == BusyIds(q.workers) + IdOf(t.fd, t.seqno)
            && DoneIds(q.workers) == DoneIds(p.workers) + IdOf(t.fd, t.seqno)
  {
    hide BusyIds, DoneIds;
    NoIds();
    var t := p.workers[i].task;
    TaskIdOfOne(t);
    ResultIdOfOne(TaskResult(t.fd, t.seqno, reply));
    WorkerChanges(p.workers, i, Done(TaskResult(t.fd, t.seqno, reply)));
  }

  /** ... and from there to the completions. */
  lemma PushMoves(p: PoolState, i: nat)
    requires Enabled(p, Push(i))
    ensures var q, r := Next(p, Push(i)), p.workers[i].result;
            && DoneIds(p.workers) == DoneIds(q.workers) + IdOf(r.fd, r.seqno)
            && BusyIds(q.workers) == BusyIds(p.workers)
            && ResultIds(q.completions) == ResultIds(p.completions) + IdOf(r.fd, r.seqno)
            && ResultIds(q.produced) == ResultIds(p.produced) + IdOf(r.fd, r.seqno)
  {
    hide BusyIds, DoneIds;
    NoIds();
    var r := p.workers[i].result;
    ResultIdOfOne(r);
    WorkerChanges(p.workers, i, Idle);
    PlusNothing(BusyIds(Next(p, Push(i)).workers), BusyIds(p.workers));
    ResultIdsOfAppend(p.completions, [r]);
    ResultIdsOfAppend(p.produced, [r]);
  }

  lemma ExitMoves(p: PoolState, i: nat)
    requires Enabled(p, Exit(i))
    ensures BusyIds(Next(p, Exit(i)).workers) == BusyIds(p.workers)
    ensures DoneIds(Next(p, Exit(i)).workers) == DoneIds(p.workers)
  {
    hide BusyIds, DoneIds;
    NoIds();
    WorkerChanges(p.workers, i, Exited);
    PlusNothing(BusyIds(Next(p, Exit(i)).workers), BusyIds(p.workers));
    PlusNothing(DoneIds(Next(p, Exit(i)).workers), DoneIds(p.workers));
  }

  // ----- Nothing accepted is lost, and shutdown drains

  ghost predicate Conserved(p: PoolState) {
    TaskIds(p.accepted) == TaskIds(p.queue) + BusyIds(p.workers) + DoneIds(p.workers) + ResultIds(p.produced)
  }

  ghost predicate Inv(p: PoolState) {
    && Conserved(p)
    && (forall i :: 0 <= i < |p.workers| && p.workers[i].Exited? ==> !p.running && p.queue == [])
    && |p.queue| <= p.max
  }

  lemma Balances(q: multiset<Id>, b: multiset<Id>, d: multiset<Id>, p: multiset<Id>, x: multiset<Id>)
    ensures (x + q) + b + d + p == q + (b + x) + d + p
    ensures q + (b + x) + d + p == q + b + (d + x) + p
    ensures q + b + (d + x) + p == q + b + d + (p + x)
    ensures (q + x) + b + d + p == q + b + d + p + x
  {
  }

  lemma PopConserves(p: PoolState, i: nat)
    requires Conserved(p) && Enabled(p, Pop(i))
    ensures Conserved(Next(p, Pop(i)))
  {
    PopMoves(p, i);
    hide TaskIds, ResultIds, BusyIds, DoneIds;
    var q, x := Next(p, Pop(i)), IdOf(p.queue[0].fd, p.queue[0].seqno);
    Balances(TaskIds(q.queue), BusyIds(p.workers), DoneIds(p.workers), ResultIds(p.produced), x);
  }

  lemma ExecuteConserves(p: PoolState, i: nat, reply: Value)
    requires Conserved(p) && Enabled(p, Execute(i, reply))
    ensures Conserved(Next(p, Execute(i, reply)))
  {
    ExecuteMoves(p, i, reply);
    hide TaskIds, ResultIds, BusyIds, DoneIds;
    var q, x := Next(p, Execute(i, reply)), IdOf(p.workers[i].task.fd, p.workers[i].task.seqno);
    Balances(TaskIds(p.queue), BusyIds(q.workers), DoneIds(p.workers), ResultIds(p.produced), x);
  }

  lemma PushConserves(p: PoolState, i: nat)
    requires Conserved(p) && Enabled(p, Push(i))
    ensures Conserved(Next(p, Push(i)))
  {
    PushMoves(p, i);
    hide TaskIds, ResultIds, BusyIds, DoneIds;
    var q, x := Next(p, Push(i)), IdOf(p.workers[i].result.fd, p.workers[i].result.seqno);
    Balances(TaskIds(p.queue), BusyIds(p.workers), DoneIds(q.workers), ResultIds(p.produced), x);
  }

  lemma OtherConserves(p: PoolState, s: PoolStep)
    requires Conserved(p) && Enabled(p, s) && (s.PushDirect? || s.Exit? || s.DrainAll? || s.Shutdown?)
    ensures Conserved(Next(p, s))
  {
    if s.Exit? {
      ExitMoves(p, s.worker);
    }
    hide TaskIds, ResultIds, BusyIds, DoneIds;
  }

  lemma StepConserves(p: PoolState, s: PoolStep)
    requires Conserved(p) && Enabled(p, s)
    ensures Conserved(Next(p, s))
  {
    match s
    case SubmitTask(t) => SubmitConserves(p, t);
    case Pop(i) =>
      hide Conserved, Next;
      PopConserves(p, i);
    case Execute(i, reply) =>
      hide Conserved, Next;
      ExecuteConserves(p, i, reply);
    case Push(i) =>
      hide Conserved, Next;
      PushConserves(p, i);
    case _ =>
      hide Conserved, Next;
      OtherConserves(p, s);
  }

  lemma SubmitConserves(p: PoolState, t: Task)
    requires Conserved(p)
    ensures Conserved(Submit(p, t))
  {
    SubmitMoves(p, t);
    hide TaskIds, ResultIds, BusyIds, DoneIds;
    if Accepts(p) {
      Balances(TaskIds(p.queue), BusyIds(p.workers), DoneIds(p.workers), ResultIds(p.produced), IdOf(t.fd, t.seqno));
    }
  }

  lemma StepKeepsInv(p: PoolState, s: PoolStep)
    requires Inv(p) && Enabled(p, s)
    ensures Inv(Next(p, s))
    ensures !p.running ==> Next(p, s).accepted == p.accepted && !Next(p, s).running
    ensures |Next(p, s).workers| == |p.workers|
  {
    hide Conserved;
    StepConserves(p, s);
  }

  lemma {:induction false} RunKeepsInv(p: PoolState, steps: seq<PoolStep>)
    requires Inv(p) && ValidRun(p, steps)
    ensures Inv(Run(p, steps)) && |Run(p, steps).workers| == |p.workers|
    ensures !p.running ==> Run(p, steps).accepted == p.accepted && !Run(p, steps).running
    decreases |steps|
  {
    if steps != [] {
      StepKeepsInv(p, steps[0]);
      RunKeepsInv(Next(p, steps[0]), steps[1..]);
    }
  }

  lemma {:induction false} NoneAtWork(ws: seq<Worker>)
    requires forall i :: 0 <= i < |ws| ==> ws[i].Exited? || ws[i].Idle?
    ensures BusyIds(ws) == multiset{} && DoneIds(ws) == multiset{}
  {
    if ws != [] {
      NoneAtWork(ws[1..]);
    }
  }

  lemma NewPoolInv(workers: nat, max: nat)
    ensures Inv(NewPool(workers, max))
  {
    NoneAtWork(NewPool(workers, max).workers);
  }

  lemma NoneExitedYet(p: PoolState)
    requires Inv(p) && p.running
    ensures forall i :: 0 <= i < |p.workers| ==> !p.workers[i].Exited?
  {
  }

  lemma AllExited(p: PoolState)
    requires Inv(p) && |p.workers| >= 1 && forall i :: 0 <= i < |p.workers| ==> p.workers[i].Exited?
    ensures p.queue == [] && !p.running && TaskIds(p.accepted) == ResultIds(p.produced)
  {
    NoneAtWork(p.workers);
    assert p.workers[0].Exited?;
  }

  /** At every moment of every run, each accepted task is queued, at a worker, or has its one result. */
  lemma AcceptedIsConserved(workers: nat, max: nat, steps: seq<PoolStep>)
    requires ValidRun(NewPool(workers, max), steps)
    ensures var p := Run(NewPool(workers, max), steps);
            TaskIds(p.accepted) == TaskIds(p.queue) + BusyIds(p.workers) + DoneIds(p.workers) + ResultIds(p.produced)
  {
    NewPoolInv(workers, max);
    RunKeepsInv(NewPool(workers, max), steps);
  }

  /** A queue limit of zero: nothing is ever accepted, and nothing produced. */
  lemma {:induction false} NoRoomNeverAccepts(p: PoolState, steps: seq<PoolStep>)
    requires ValidRun(p, steps) && p.max == 0 && p.accepted == p.queue == [] && p.produced == []
    requires forall i :: 0 <= i < |p.workers| ==> p.workers[i].Idle? || p.workers[i].Exited?
    ensures Run(p, steps).accepted == [] && Run(p, steps).produced == [] && !Accepts(Run(p, steps))
    decreases |steps|
  {
    if steps != [] {
      NoRoomNeverAccepts(Next(p, steps[0]), steps[1..]);
    }
  }

  /**
   Once all workers have returned, and there is at least one, the queue is empty, every
   task ever accepted has produced exactly one result, and nothing is accepted any more.
   */
  lemma ShutdownDrains(workers: nat, max: nat, steps: seq<PoolStep>, later: seq<PoolStep>)
    requires workers >= 1 && ValidRun(NewPool(workers, max), steps)
    requires var p := Run(NewPool(workers, max), steps); forall i :: 0 <= i < |p.workers| ==> p.workers[i].Exited?
    requires ValidRun(Run(NewPool(workers, max), steps), later)
    ensures var p := Run(NewPool(workers, max), steps);
            && p.queue == [] && !p.running
            && TaskIds(p.accepted) == ResultIds(p.produced)
            && Run(p, later).accepted == p.accepted
  {
    NewPoolInv(workers, max);
    RunKeepsInv(NewPool(workers, max), steps);
    var p := Run(NewPool(workers, max), steps);
    AllExited(p);
    RunKeepsInv(p, later);
  }

  // ----- The classes

  class CompletionQueue {
    var queue: seq<TaskResult>

    constructor ()
      ensures queue == []
    {
      queue := [];
    }

    method PushResult(r: TaskResult)
      modifies this
      ensures queue == old(queue) + [r]
    {
      queue := queue + [r];
    }

    /** Moves everything out, oldest first. */
    method Drain(before: seq<TaskResult>) returns (out: seq<TaskResult>)
      modifies this
      ensures out == before + old(queue) && queue == []
    {
      out := before;
      while queue != []
        invariant out + queue == before + old(queue)
        decreases |queue|
      {
        assert queue == [queue[0]] + queue[1..];
        out := out + [queue[0]];
        queue := queue[1..];
      }
    }
  }

  class WorkerPool {
    const maxQueueSize: nat
    const completionQueue: CompletionQueue
    var queue: seq<Task>
    var running: bool
    var workers: seq<Worker>
    ghost var accepted: seq<Task>
    ghost var produced: seq<TaskResult>

    ghost function State(): PoolState
      reads this, completionQueue
    {
      PoolState(queue, maxQueueSize, running, workers, completionQueue.queue, accepted, produced)
    }

    constructor (threadCount: nat, maxQueueSize: nat)
      ensures State() == NewPool(threadCount, maxQueueSize) && fresh(completionQueue)
    {
      this.maxQueueSize := maxQueueSize;
      completionQueue := new CompletionQueue();
      queue, running, workers := [], true, seq(threadCount, _ => Idle);
      accepted, produced := [], [];
    }

    method SubmitOne(task: Task) returns (taken: bool)
      modifies this
      ensures taken == Accepts(old(State())) && State() == Submit(old(State()), task)
      ensures taken <==> old(running) && |old(queue)| < maxQueueSize
      ensures queue == if taken then old(queue) + [task] else old(queue)
    {
      if !running || |queue| >= maxQueueSize {
        return false;
      }
      queue, accepted := queue + [task], accepted + [task];
      return true;
    }

    method QueueSize() returns (n: nat)
      ensures n == |queue|
    {
      n := |queue|;
    }

    /** The critical section of the worker loop that takes a task. */
    method Take(i: nat)
      requires Enabled(State(), Pop(i))
      modifies this
      ensures State() == Next(old(State()), Pop(i))
    {
      workers := workers[i := Busy(queue[0])];
      queue := queue[1..];
    }

    method Finish(i: nat, reply: Value)
      requires Enabled(State(), Execute(i, reply))
      modifies this
      ensures State() == Next(old(State()), Execute(i, reply))
    {
      var t := workers[i].task;
      workers := workers[i := Done(TaskResult(t.fd, t.seqno, reply))];
    }

    method Post(i: nat)
      requires Enabled(State(), Push(i))
      modifies this, completionQueue
      ensures State() == Next(old(State()), Push(i))
    {
      var r := workers[i].result;
      workers, produced := workers[i := Idle], produced + [r];
      completionQueue.PushResult(r);
    }

    /** The worker loop returns. */
    method Leave(i: nat)
      requires Enabled(State(), Exit(i))
      modifies this
      ensures State() == Next(old(State()), Exit(i))
    {
      workers := workers[i := Exited];
    }

    /** One turn of the worker loop. */
    method WorkOne(i: nat, reply: Value)
      requires i < |workers| && workers[i].Idle? && queue != [] && Inv(State())
      modifies this, completionQueue
      ensures Inv(State()) && queue == old(queue)[1..] && workers == old(workers)
      ensures running == old(running) && accepted == old(accepted)
      ensures completionQueue.queue ==
              old(completionQueue.queue) + [TaskResult(old(queue)[0].fd, old(queue)[0].seqno, reply)]
    {
      hide Inv;
      StepKeepsInv(State(), Pop(i));
      Take(i);
      StepKeepsInv(State(), Execute(i, reply));
      Finish(i, reply);
      StepKeepsInv(State(), Push(i));
      Post(i);
    }

    /**
     One worker runs until it would have to wait: it takes tasks in order, executes and
     posts them, and returns if the pool has been stopped. `replies(n)` is what the n-th
     execution returns.
     */
    method WorkerLoop(i: nat, replies: nat -> Value)
      requires i < |workers| && workers[i].Idle? && Inv(State())
      modifies this, completionQueue
      ensures Inv(State()) && queue == [] && running == old(running)
      ensures workers == if running then old(workers) else old(workers)[i := Exited]
      ensures accepted == old(accepted)
      ensures completionQueue.queue == old(completionQueue.queue) + Answers(old(queue), replies, 0)
    {
      hide Inv;
      var n := 0;
      while queue != []
        invariant Inv(State()) && running == old(running) && accepted == old(accepted)
        invariant workers == old(workers)
        invariant completionQueue.queue + Answers(queue, replies, n) ==
                  old(completionQueue.queue) + Answers(old(queue), replies, 0)
        decreases |queue|
      {
        WorkOne(i, replies(n));
        n := n + 1;
      }
      if !running {
        StepKeepsInv(State(), Exit(i));
        Leave(i);
      }
    }

    method Stop()
      requires Inv(State())
      modifies this`running
      ensures Inv(State()) && State() == Next(old(State()), Shutdown) && !running
    {
      hide Inv;
      StepKeepsInv(State(), Shutdown);
      running := false;
    }

    /** Worker `i` finishes what it is doing, if anything. */
    method FinishUp(i: nat, reply: Value)
      requires Inv(State()) && i < |workers| && !workers[i].Exited?
      modifies this, completionQueue
      ensures Inv(State()) && workers == old(workers)[i := Idle]
      ensures running == old(running) && accepted == old(accepted)
    {
      hide Inv;
      if workers[i].Busy? {
        StepKeepsInv(State(), Execute(i, reply));
        Finish(i, reply);
      }
      if workers[i].Done? {
        StepKeepsInv(State(), Push(i));
        Post(i);
      }
    }

    /**
     Clears the flag and joins the workers one after the other, whatever each of them is in
     the middle of. A second call does nothing.
     */
    method ShutdownAll(last: nat -> Value, replies: nat -> nat -> Value)
      requires Inv(State())
      modifies this, completionQueue
      ensures Inv(State()) && !running && accepted == old(accepted)
      ensures !old(running) ==> State() == old(State())
      ensures old(running) ==> forall i :: 0 <= i < |workers| ==> workers[i].Exited?
      ensures old(running) && |workers| >= 1 ==> queue == [] && TaskIds(accepted) == ResultIds(produced)
    {
      hide Inv, Next, TaskIds, ResultIds, Answers;
      if !running {
        return;
      }
      NoneExitedYet(State());
      Stop();
      var n := |workers|;
      for i := 0 to n
        invariant Inv(State()) && !running && accepted == old(accepted) && |workers| == n
        invariant forall j :: 0 <= j < i ==> workers[j].Exited?
        invariant forall j :: i <= j < n ==> !workers[j].Exited?
      {
        FinishUp(i, last(i));
        WorkerLoop(i, replies(i));
      }
      if n >= 1 {
        AllExited(State());
      }
    }
  }

  /** The results of executing tasks in order, the n-th answered by `replies(n)`. */
  function Answers(ts: seq<Task>, replies: nat -> Value, n: nat): seq<TaskResult>
    decreases |ts|
  {
    if ts == [] then []
    else [TaskResult(ts[0].fd, ts[0].seqno, replies(n))] + Answers(ts[1..], replies, n + 1)
  }
}
