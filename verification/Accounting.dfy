/**
 What became of every accepted command: it is queued, at a worker, or has been executed on
 the store exactly once.
 */
module Accounting {
  import opened Text
  import opened Framing
  import opened Reassembly
  import opened Commands
  import opened Resp
  import opened Store
  import opened Pool
  import opened Protocol
  import opened PerKey
  import opened System
  import F = Flat
  import P = Pool

  function CommandsOf(ts: seq<Task>): multiset<Command> {
    if ts == [] then multiset{} else multiset{ts[0].command} + CommandsOf(ts[1..])
  }

  function HeldCommands(ws: seq<Worker>): multiset<Command> {
    if ws == [] then multiset{} else CommandsOf(Held(ws[0])) + HeldCommands(ws[1..])
  }

  function ExecutedCommands(events: seq<F.Event>): multiset<Command> {
    if events == [] then multiset{}
    else
      var last := events[|events| - 1];
      ExecutedCommands(events[..|events| - 1]) + if last.Do? then multiset{last.command} else multiset{}
  }

  lemma {:induction false} CommandsOfAppend(a: seq<Task>, b: seq<Task>)
    ensures CommandsOf(a + b) == CommandsOf(a) + CommandsOf(b)
  {
    if a == [] {
      assert a + b == b;
    } else {
      assert (a + b)[0] == a[0] && (a + b)[1..] == a[1..] + b;
      CommandsOfAppend(a[1..], b);
    }
  }

  lemma CommandsOfOne(t: Task)
    ensures CommandsOf([t]) == multiset{t.command} && CommandsOf([]) == multiset{}
  {
    assert [t][1..] == [];
  }

  lemma ExecutedOfAppend(events: seq<F.Event>, e: F.Event)
    ensures ExecutedCommands(events + [e]) ==
            ExecutedCommands(events) + if e.Do? then multiset{e.command} else multiset{}
  {
    assert (events + [e])[..|events|] == events;
  }

  lemma Cancel(a: multiset<Command>, b: multiset<Command>, t: multiset<Command>)
    requires a + t == b + t
    ensures a == b
  {
    forall c: Command
      ensures a[c] == b[c]
    {
      assert (a + t)[c] == (b + t)[c];
    }
  }

  lemma AddBoth(h: multiset<Command>, a: multiset<Command>, x: multiset<Command>, b: multiset<Command>,
                y: multiset<Command>)
    requires a + x == b + y
    ensures (h + a) + x == (h + b) + y
  {
    assert (h + a) + x == h + (a + x);
    assert (h + b) + y == h + (b + y);
  }

  lemma {:induction false} WorkerHolds(ws: seq<Worker>, i: nat, v: Worker)
    requires i < |ws|
    ensures HeldCommands(ws[i := v]) + CommandsOf(Held(ws[i])) == HeldCommands(ws) + CommandsOf(Held(v))
  {
    hide CommandsOf, Held;
    if i == 0 {
      assert ws[0 := v][1..] == ws[1..];
    } else {
      assert ws[i := v][0] == ws[0] && ws[i := v][1..] == ws[1..][i - 1 := v];
      WorkerHolds(ws[1..], i - 1, v);
      AddBoth(CommandsOf(Held(ws[0])), HeldCommands(ws[1..][i - 1 := v]), CommandsOf(Held(ws[i])),
              HeldCommands(ws[1..]), CommandsOf(Held(v)));
    }
  }

  // ----- One step of the pool

  function Todo(p: PoolState): multiset<Command> {
    CommandsOf(p.queue) + HeldCommands(p.workers)
  }

  /** What a step of the pool executes. */
  function Executes1(p: PoolState, s: PoolStep): multiset<Command>
    requires P.Enabled(p, s)
  {
    if s.Execute? then multiset{p.workers[s.worker].task.command} else multiset{}
  }

  ghost predicate Balanced(p: PoolState, s: PoolStep)
    requires P.Enabled(p, s)
  {
    var q := P.Next(p, s);
    CommandsOf(q.accepted) + Todo(p) == CommandsOf(p.accepted) + (Todo(q) + Executes1(p, s))
  }

  lemma SubmitBalances(p: PoolState, t: Task)
    ensures Balanced(p, SubmitTask(t))
  {
    CommandsOfOne(t);
    CommandsOfAppend(p.accepted, [t]);
    CommandsOfAppend(p.queue, [t]);
    hide CommandsOf, HeldCommands;
  }

  lemma PopBalances(p: PoolState, i: nat)
    requires P.Enabled(p, Pop(i))
    ensures Balanced(p, Pop(i))
  {
    var t, q := p.queue[0], P.Next(p, Pop(i));
    CommandsOfOne(t);
    assert p.queue == [t] + p.queue[1..];
    CommandsOfAppend([t], p.queue[1..]);
    WorkerHolds(p.workers, i, Busy(t));
    NothingHeld();
    hide CommandsOf, HeldCommands;
    assert q.workers == p.workers[i := Busy(t)];
    assert HeldCommands(q.workers) + multiset{} == HeldCommands(p.workers) + multiset{t.command};
    Cancel(HeldCommands(q.workers), HeldCommands(p.workers) + multiset{t.command}, multiset{});
    assert Todo(p) == Todo(q);
  }

  lemma WorkBalances(p: PoolState, s: PoolStep)
    requires P.Enabled(p, s) && (s.Execute? || s.Push? || s.Exit?)
    ensures Balanced(p, s)
  {
    var i, q := s.worker, P.Next(p, s);
    if s.Execute? {
      CommandsOfOne(p.workers[i].task);
    }
    NothingHeld();
    WorkerHolds(p.workers, i, q.workers[i]);
    assert q.workers == p.workers[i := q.workers[i]];
    hide CommandsOf, HeldCommands;
    var x := Executes1(p, s);
    assert CommandsOf(Held(p.workers[i])) == x && CommandsOf(Held(q.workers[i])) == multiset{};
    assert HeldCommands(q.workers) + x == HeldCommands(p.workers);
    assert Todo(p) == Todo(q) + x;
  }

  lemma NothingHeld()
    ensures CommandsOf([]) == multiset{}
  {
  }

  lemma OtherBalances(p: PoolState, s: PoolStep)
    requires P.Enabled(p, s) && (s.PushDirect? || s.DrainAll? || s.Shutdown?)
    ensures Balanced(p, s)
  {
    hide CommandsOf, HeldCommands;
  }

  lemma StepBalances(p: PoolState, s: PoolStep)
    requires P.Enabled(p, s)
    ensures Balanced(p, s)
  {
    hide Balanced, P.Next;
    match s
    case SubmitTask(t) => SubmitBalances(p, t);
    case Pop(i) => PopBalances(p, i);
    case Execute(_, _) => WorkBalances(p, s);
    case Push(_) => WorkBalances(p, s);
    case Exit(_) => WorkBalances(p, s);
    case _ => OtherBalances(p, s);
  }

  // ----- The system

  /** What a step of the protocol does to the pool, if anything. */
  function PoolStepOf(w: World, p: Protocol.Step): Option<PoolStep>
    requires StepEnabled(w, p)
  {
    match p
    case Dispatch(allow) => (
      var fd, n, line := w.phase.fd, w.phase.seqno, w.phase.line;
      match ImmediateReply(line, allow)
      case Some(v) => Some(PushDirect(TaskResult(fd, n, v)))
      case None =>
        if Accepts(w.pool) then Some(SubmitTask(Task(fd, n, ParseLine(line).value)))
        else Some(PushDirect(TaskResult(fd, n, SERVER_BUSY)))
    )
    case Work(ps) => Some(ps)
    case Drain => Some(DrainAll)
    case ShutdownPool => Some(Shutdown)
    case _ => None
  }

  lemma PoolStepIs(w: World, p: Protocol.Step)
    requires StepEnabled(w, p)
    ensures match PoolStepOf(w, p)
            case None => After(w, p).pool == w.pool && !Executes(p)
            case Some(ps) =>
              && P.Enabled(w.pool, ps) && After(w, p).pool == P.Next(w.pool, ps)
              && (Executes(p) <==> ps.Execute?) && (Executes(p) ==> p.step == ps)
  {
    hide ParseLine, NewlineAt, StripCr, DrainOne, NothingOutstanding, Answer;
  }

  /** Accepted commands are queued, at a worker, or executed. */
  ghost predicate Accounted(s: Sys) {
    CommandsOf(s.world.pool.accepted) == Todo(s.world.pool) + ExecutedCommands(s.events)
  }

  lemma StepAccounts(s: Sys, step: SysStep)
    requires Accounted(s) && SysEnabled(s, step)
    ensures Accounted(SysNext(s, step))
  {
    hide After, StepEnabled, Exec, Todo, CommandsOf, ExecutedCommands, P.Next, P.Enabled, PoolStepOf, ImmediateReply;
    match step
    case SweepTick(k, at) =>
      ExecutedOfAppend(s.events, F.SweepKey(k, at));
    case Server(p, at, oom) =>
      ServerStepAccounts(s, p, at, oom);
  }

  lemma ServerStepAccounts(s: Sys, p: Protocol.Step, at: Time, oom: bool)
    requires Accounted(s) && SysEnabled(s, Server(p, at, oom))
    ensures Accounted(SysNext(s, Server(p, at, oom)))
  {
    var s' := SysNext(s, Server(p, at, oom));
    assert s'.world == After(s.world, p);
    PoolStepIs(s.world, p);
    if Executes(p) {
      ExecutedOfAppend(s.events, F.Do(s.world.pool.workers[p.step.worker].task.command, at, oom));
    }
    hide After, Exec, Todo, CommandsOf, ExecutedCommands, P.Next, ImmediateReply;
    match PoolStepOf(s.world, p)
    case None =>
    case Some(ps) =>
      StepBalances(s.world.pool, ps);
      Carried(CommandsOf(s.world.pool.accepted), CommandsOf(s'.world.pool.accepted), Todo(s.world.pool),
              Todo(s'.world.pool), Executes1(s.world.pool, ps), ExecutedCommands(s.events));
  }

  lemma Carried(a: multiset<Command>, a': multiset<Command>, t: multiset<Command>, t': multiset<Command>,
                x: multiset<Command>, e: multiset<Command>)
    requires a == t + e && a' + t == a + (t' + x)
    ensures a' == t' + (e + x)
  {
    assert a' + t == (t' + (e + x)) + t;
    Cancel(a', t' + (e + x), t);
  }

  lemma {:induction false} RunAccounts(s: Sys, steps: seq<SysStep>)
    requires Accounted(s) && SysPossible(s, steps)
    ensures Accounted(RunSys(s, steps))
    decreases |steps|
  {
    hide Accounted, SysEnabled, SysNext;
    if steps != [] {
      StepAccounts(s, steps[0]);
      RunAccounts(SysNext(s, steps[0]), steps[1..]);
    }
  }

  lemma {:induction false} IdleHold(ws: seq<Worker>)
    requires forall v :: v in ws ==> !v.Busy?
    ensures HeldCommands(ws) == multiset{}
  {
    if ws != [] {
      IdleHold(ws[1..]);
    }
  }

  /**
   In every reachable state the commands accepted into the queue are those still queued, those
   at workers, and those executed: none is executed twice, none is lost.
   */
  lemma AcceptedIsExecutedOnce(s: Sys, file: seq<string>, boot: nat -> Time)
    requires SysReachable(s, file, boot)
    ensures Accounted(s)
    ensures s.world.pool.queue == [] && (forall v :: v in s.world.pool.workers ==> !v.Busy?) ==>
              CommandsOf(s.world.pool.accepted) == ExecutedCommands(s.events)
  {
    hide SysPossible, RunSys, Booted;
    var workers: nat, max: nat, start: Time, steps :|
      && max >= 1 && Rising(boot, |file|) && boot(|file|) <= start
      && SysPossible(InitSys(workers, max, Booted(file, boot), start), steps)
      && s == RunSys(InitSys(workers, max, Booted(file, boot), start), steps);
    var s0 := InitSys(workers, max, Booted(file, boot), start);
    IdleHold(s0.world.pool.workers);
    assert Accounted(s0);
    RunAccounts(s0, steps);
    if s.world.pool.queue == [] && forall v :: v in s.world.pool.workers ==> !v.Busy? {
      IdleHold(s.world.pool.workers);
    }
  }
}
