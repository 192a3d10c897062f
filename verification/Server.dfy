/**
 The objects put together: router, logger and worker pool carry out what the system machine
 does, so that what is proved about its runs holds of the store and of the file.
 */
module Server {
  import opened Text
  import opened Framing
  import opened Commands
  import opened Resp
  import opened Store
  import opened Hasher
  import opened Replay
  import opened Pool
  import opened Protocol
  import opened PerKey
  import opened System
  import opened Serving
  import opened Accounting
  import opened Reuse
  import opened Engine
  import opened Aof
  import opened Reactor
  import opened Turns
  import P = Pool
  import A = Aof
  import E = Engine

  lemma StaysReachable(s: Sys, file: seq<string>, boot: nat -> Time, step: SysStep)
    requires SysReachable(s, file, boot) && SysEnabled(s, step)
    ensures SysReachable(SysNext(s, step), file, boot)
  {
    hide SysEnabled, SysNext, SysPossible, RunSys, Booted;
    var workers: nat, max: nat, start: Time, steps :|
      && max >= 1 && Rising(boot, |file|) && boot(|file|) <= start
      && SysPossible(InitSys(workers, max, Booted(file, boot), start), steps)
      && s == RunSys(InitSys(workers, max, Booted(file, boot), start), steps);
    RunSysOfOne(s, step);
    RunSysOfAppend(InitSys(workers, max, Booted(file, boot), start), steps, [step]);
  }

  lemma FreshIsReachable(file: seq<string>, boot: nat -> Time, workers: nat, max: nat, start: Time)
    requires max >= 1 && Rising(boot, |file|) && boot(|file|) <= start
    ensures SysReachable(InitSys(workers, max, Booted(file, boot), start), file, boot)
  {
    var s := InitSys(workers, max, Booted(file, boot), start);
    assert SysPossible(s, []) && RunSys(s, []) == s;
  }

  lemma {:induction false} StaysReachableOverRuns(s: Sys, file: seq<string>, boot: nat -> Time, steps: seq<SysStep>)
    requires SysReachable(s, file, boot) && SysPossible(s, steps)
    ensures SysReachable(RunSys(s, steps), file, boot)
    decreases |steps|
  {
    hide SysReachable, SysNext, SysEnabled;
    if steps != [] {
      StaysReachable(s, file, boot, steps[0]);
      StaysReachableOverRuns(SysNext(s, steps[0]), file, boot, steps[1..]);
    }
  }

  lemma LeadsToReachable(s: Sys, s': Sys, file: seq<string>, boot: nat -> Time)
    requires SysReachable(s, file, boot) && SysLeads(s, s')
    ensures SysReachable(s', file, boot)
  {
    hide SysReachable, SysPossible, RunSys;
    var steps :| SysPossible(s, steps) && RunSys(s, steps) == s';
    StaysReachableOverRuns(s, file, boot, steps);
  }

  lemma SysLeadsItself(s: Sys)
    ensures SysLeads(s, s)
  {
    assert SysPossible(s, []) && RunSys(s, []) == s;
  }

  /** A run of the protocol that executes nothing is a run of the system with store and log unchanged. */
  lemma QuietlyReachable(s: Sys, w: World, file: seq<string>, boot: nat -> Time)
    requires SysReachable(s, file, boot) && Leads(s.world, w)
    ensures SysLeads(s, s.(world := w)) && SysReachable(s.(world := w), file, boot)
  {
    hide SysReachable, SysLeads, Leads;
    SysLeadsItself(s);
    SysLeadsQuietly(s, s, w);
    LeadsToReachable(s, s.(world := w), file, boot);
  }

  lemma WorldIsOk(s: Sys, file: seq<string>, boot: nat -> Time)
    requires SysReachable(s, file, boot)
    ensures WorldOk(s.world)
  {
    hide SysReachable, WorldOk, Ledger, RepliesExplained, TasksFactoryMade;
    SysReachableOk(s, file, boot);
  }

  lemma ExecuteIsEnabled(w: World, i: nat, v: Value)
    requires i < |w.pool.workers| && w.pool.workers[i].Busy? && Sendable(v)
    ensures StepEnabled(w, Work(Execute(i, v)))
  {
  }

  /** Executing a task is the step its command makes on the table, with its reply and its log line. */
  lemma ExecuteNextIs(s: Sys, i: nat, v: Value, at: Time, oom: bool)
    requires i < |s.world.pool.workers| && s.world.pool.workers[i].Busy? && at >= s.now
    requires v == Exec(s.table, s.world.pool.workers[i].task.command, at, oom).reply
    ensures SysEnabled(s, SysStep.Server(Work(Execute(i, v)), at, oom))
    ensures var s', out := SysNext(s, SysStep.Server(Work(Execute(i, v)), at, oom)),
                           Exec(s.table, s.world.pool.workers[i].task.command, at, oom);
            && s'.table == out.table && s'.log == s.log + out.log && s'.now == at
            && StepEnabled(s.world, Work(Execute(i, v))) && s'.world == After(s.world, Work(Execute(i, v)))
  {
    RepliesAreSendable(s.table, s.world.pool.workers[i].task.command, at, oom);
    hide Exec, Sendable;
    ExecuteIsEnabled(s.world, i, v);
  }

  lemma SweepNextIs(s: Sys, key: string, at: Time)
    requires at >= s.now
    ensures SysEnabled(s, SweepTick(key, at))
    ensures var s', (m, lines) := SysNext(s, SweepTick(key, at)), Sweep(s.table, key, at);
            s'.table == m && s'.log == s.log + lines && s'.world == s.world
  {
  }

  /** The value a response string carries. */
  lemma ResponseDecodes(v: Value)
    requires Sendable(v)
    ensures Decode(Encode(v)) == Some((v, ""))
  {
    hide Encode, Decode, Sendable;
    DecodeOfEncode(v, "");
    assert Encode(v) + "" == Encode(v);
  }

  /** The store as the startup replay leaves it, and a logger that has begun. */
  method StartStore(text: string, totalMemory: nat, mask: bv32, boot: nat -> Time)
    returns (router: ShardRouter, aof: AofLogger)
    requires IsPowerOfTwoLessOne(mask)
    ensures router.Valid() && aof.Valid() && aof.running && !aof.replaying
    ensures router.contents == Booted(TextLines(text), boot) && aof.accepted == []
    ensures fresh(router) && fresh(router.shards) && fresh(aof)
  {
    hide A.Inv, ShardIndex, Replayed, ReplayLines, TextLines, IsPowerOfTwoLessOne;
    router := new ShardRouter(totalMemory, mask);
    aof := new AofLogger();
    var replayed := ReplayFile(text, router, aof, boot, _ => false);
    ReplayedWithMemory(map[], TextLines(text), boot, _ => false, 0);
    aof.Begin();
  }

  /** A command on shards and logger, with the value its response carries. */
  method ExecuteOnStore(c: Command, router: ShardRouter, aof: AofLogger, at: Time, oom: bool)
    returns (response: string, v: Value)
    requires router.Valid() && aof.Valid() && aof.running && !aof.replaying
    modifies router`contents, router.shards, aof
    ensures router.Valid() && aof.Valid() && aof.running && !aof.replaying && router.shards == old(router.shards)
    ensures var out := Exec(old(router.contents), c, at, oom);
            && v == out.reply && Sendable(v) && response == Encode(v)
            && router.contents == out.table && aof.accepted == old(aof.accepted) + out.log
  {
    hide A.Inv, ShardIndex, Exec, Encode, Decode, Sendable;
    RepliesAreSendable(router.contents, c, at, oom);
    ResponseDecodes(Exec(router.contents, c, at, oom).reply);
    response := E.Execute(c, router, aof, at, oom);
    v := Decode(response).value.0;
  }

  class Server {
    const router: ShardRouter
    const aof: AofLogger
    const reactor: Reactor
    /** The file as it was at startup, and the clock while it was replayed. */
    ghost const text: string
    ghost const boot: nat -> Time
    ghost var s: Sys

    /** The objects are in the state the system machine says, and the machine got there by a run. */
    ghost predicate Valid()
      reads this, router, router.shards, aof, reactor, reactor.pool, reactor.pool.completionQueue
    {
      && router.Valid() && aof.Valid() && aof.running && !aof.replaying
      && router.contents == s.table && aof.accepted == s.log && reactor.View() == s.world
      && SysReachable(s, TextLines(text), boot)
    }

    /** build_and_run up to the start of the reactor: replay, start the logger, start the pool. */
    constructor (text: string, totalMemory: nat, mask: bv32, threads: nat, max: nat, boot: nat -> Time, start: Time)
      requires IsPowerOfTwoLessOne(mask) && max >= 1
      requires Rising(boot, |TextLines(text)|) && boot(|TextLines(text)|) <= start
      ensures Valid() && this.text == text && this.boot == boot
      ensures s == InitSys(threads, max, Booted(TextLines(text), boot), start)
      ensures fresh(router) && fresh(router.shards) && fresh(aof)
      ensures fresh(reactor) && fresh(reactor.pool) && fresh(reactor.pool.completionQueue)
    {
      hide A.Inv, SysReachable, ShardIndex, Booted, TextLines, Rising, IsPowerOfTwoLessOne, WorldOk;
      var router, aof := StartStore(text, totalMemory, mask, boot);
      var pool := new WorkerPool(threads, max);
      var reactor := new Reactor(pool);
      this.router, this.aof, this.reactor := router, aof, reactor;
      this.text, this.boot := text, boot;
      s := InitSys(threads, max, Booted(TextLines(text), boot), start);
      FreshIsReachable(TextLines(text), boot, threads, max, start);
    }

    // ----- The reactor thread

    method AcceptClient(client: Socket, ip: string)
      requires Valid() && AtRest(s.world) && NothingOutstanding(s.world, client)
      modifies this`s, reactor
      ensures Valid() && SysLeads(old(s), s) && s.world == Accepted(old(s).world, Some(client), ip)
    {
      hide A.Inv, SysReachable, SysLeads, ShardIndex, WorldOk, NothingOutstanding, After;
      WorldIsOk(s, TextLines(text), boot);
      var s' := s.(world := Accepted(s.world, Some(client), ip), place := s.place[client := map[]]);
      AcceptLeads(s, s'.world, client, ip);
      LeadsToReachable(s, s', TextLines(text), boot);
      reactor.AcceptConnection(Some(client), ip);
      s := s';
    }

    /** Bytes arrive for a connection; its lines are then read one by one. */
    method Receive(client: Socket, bytes: string)
      requires Valid() && AtRest(s.world) && client in s.world.conns && bytes != ""
      modifies this`s, reactor
      ensures Valid() && SysLeads(old(s), s) && old(StepEnabled(s.world, Recv(client, bytes)))
      ensures s == old(s).(world := After(old(s).world, Recv(client, bytes))) && s.world.phase == Lines(client)
    {
      hide A.Inv, SysReachable, SysLeads, Leads, ShardIndex, WorldOk, After, StepEnabled;
      WorldIsOk(s, TextLines(text), boot);
      ghost var w := s.world;
      reactor.TakeBytes(client, bytes);
      LeadsStep(w, Recv(client, bytes));
      QuietlyReachable(s, reactor.View(), TextLines(text), boot);
      s := s.(world := reactor.View());
    }

    /** One line is cut and dispatched; workers may move before the next. */
    method ReadLine(client: Socket, allow: bool) returns (more: bool)
      requires Valid() && s.world.phase == Lines(client)
      modifies this`s, reactor, reactor.pool, reactor.pool.completionQueue
      ensures Valid() && SysLeads(old(s), s) && s.world == LineTurn(old(s).world, allow)
      ensures if more then s.world.phase == Lines(client) else AtRest(s.world)
    {
      hide A.Inv, SysReachable, SysLeads, Leads, Reaches, ShardIndex, LineTurn, WorldOk;
      WorldIsOk(s, TextLines(text), boot);
      ReadingIsOk(s.world, client);
      LineTurnIs(s.world, allow);
      QuietlyReachable(s, LineTurn(s.world, allow), TextLines(text), boot);
      more := reactor.HandleLine(client, allow);
      s := s.(world := reactor.View());
    }

    method Send(client: Socket, room: Option<nat>) returns (closed: bool)
      requires Valid() && AtRest(s.world)
      modifies this`s, reactor
      ensures Valid() && SysLeads(old(s), s) && s.world == Wrote(old(s).world, client, room)
    {
      hide A.Inv, SysReachable, SysLeads, Leads, Reaches, ShardIndex, WorldOk, Wrote;
      WorldIsOk(s, TextLines(text), boot);
      if client in s.world.conns {
        LiveHasHistory(s.world, client);
      }
      WroteLeads(s.world, client, room);
      QuietlyReachable(s, Wrote(s.world, client, room), TextLines(text), boot);
      closed := reactor.HandleWrite(client, room);
      s := s.(world := reactor.View());
    }

    method Disconnect(client: Socket)
      requires Valid() && AtRest(s.world) && client in s.world.conns
      modifies this`s, reactor
      ensures Valid() && SysLeads(old(s), s) && s.world == Disconnected(old(s).world, client)
    {
      hide A.Inv, SysReachable, SysLeads, Leads, Reaches, ShardIndex, After, Disconnected;
      LeadsStep(s.world, Protocol.Step.Disconnect(client));
      DisconnectIs(s.world, client);
      QuietlyReachable(s, Disconnected(s.world, client), TextLines(text), boot);
      reactor.Disconnect(client);
      s := s.(world := reactor.View());
    }

    method DeliverResults()
      requires Valid() && AtRest(s.world)
      modifies this`s, reactor, reactor.pool.completionQueue
      ensures Valid() && SysLeads(old(s), s) && s.world == DrainedAll(old(s).world)
    {
      hide A.Inv, SysReachable, SysLeads, Leads, Reaches, ShardIndex, DrainedAll;
      DrainLeads(s.world);
      QuietlyReachable(s, DrainedAll(s.world), TextLines(text), boot);
      reactor.DrainCompletionQueue();
      s := s.(world := reactor.View());
    }

    method UnpauseReads()
      requires Valid() && AtRest(s.world)
      modifies this`s, reactor
      ensures Valid() && SysLeads(old(s), s) && old(StepEnabled(s.world, Unpause))
      ensures s == old(s).(world := After(old(s).world, Unpause))
    {
      hide A.Inv, SysReachable, SysLeads, Leads, Reaches, ShardIndex, After;
      LeadsStep(s.world, Unpause);
      QuietlyReachable(s, After(s.world, Unpause), TextLines(text), boot);
      reactor.UnpauseReads();
      s := s.(world := reactor.View());
    }

    // ----- A worker

    /** The worker loop takes a task. */
    method TakeTask(i: nat)
      requires Valid() && reactor.IsPossible(Pop(i))
      modifies this`s, reactor`hist, reactor.pool, reactor.pool.completionQueue
      ensures Valid() && SysLeads(old(s), s) && old(StepEnabled(s.world, Work(Pop(i))))
      ensures s == old(s).(world := After(old(s).world, Work(Pop(i))))
      ensures old(P.Enabled(reactor.pool.State(), Pop(i)))
      ensures reactor.pool.State() == P.Next(old(reactor.pool.State()), Pop(i))
    {
      hide A.Inv, SysReachable, SysLeads, Leads, ShardIndex, After;
      reactor.IsPossibleIsEnabled(Pop(i));
      LeadsStep(s.world, Work(Pop(i)));
      QuietlyReachable(s, After(s.world, Work(Pop(i))), TextLines(text), boot);
      reactor.OneWorks(Pop(i));
      s := s.(world := reactor.View());
    }

    /** It executes the task on the store, which logs what it changes. */
    method ExecuteTask(i: nat, at: Time, oom: bool) returns (response: string, v: Value)
      requires Valid() && i < |reactor.pool.workers| && reactor.pool.workers[i].Busy? && at >= s.now
      modifies this`s, reactor`hist, reactor.pool, reactor.pool.completionQueue, router`contents, router.shards, aof
      ensures Valid() && SysLeads(old(s), s) && response == Encode(v)
      ensures var out := Exec(old(s).table, old(reactor.pool.workers)[i].task.command, at, oom);
              v == out.reply && s.table == out.table && s.log == old(s).log + out.log
      ensures old(P.Enabled(reactor.pool.State(), Execute(i, v))) && s.now == at
      ensures reactor.pool.State() == P.Next(old(reactor.pool.State()), Execute(i, v))
    {
      hide A.Inv, SysReachable, SysLeads, SysNext, SysEnabled, After, StepEnabled, ShardIndex,
           Exec, Encode, Sendable;
      var command := reactor.pool.workers[i].task.command;
      ghost var reply := Exec(s.table, command, at, oom).reply;
      ExecuteNextIs(s, i, reply, at, oom);
      ghost var step := SysStep.Server(Work(Execute(i, reply)), at, oom);
      SysLeadsStep(s, step);
      LeadsToReachable(s, SysNext(s, step), TextLines(text), boot);
      response, v := ExecuteOnStore(command, router, aof, at, oom);
      reactor.OneWorks(Execute(i, v));
      s := SysNext(s, step);
    }

    /** It posts the result. */
    method PostResult(i: nat)
      requires Valid() && reactor.IsPossible(Push(i))
      modifies this`s, reactor`hist, reactor.pool, reactor.pool.completionQueue
      ensures Valid() && SysLeads(old(s), s) && old(StepEnabled(s.world, Work(Push(i))))
      ensures s == old(s).(world := After(old(s).world, Work(Push(i))))
      ensures old(P.Enabled(reactor.pool.State(), Push(i)))
      ensures reactor.pool.State() == P.Next(old(reactor.pool.State()), Push(i))
    {
      hide A.Inv, SysReachable, SysLeads, Leads, ShardIndex, After;
      reactor.IsPossibleIsEnabled(Push(i));
      LeadsStep(s.world, Work(Push(i)));
      QuietlyReachable(s, After(s.world, Work(Push(i))), TextLines(text), boot);
      reactor.OneWorks(Push(i));
      s := s.(world := reactor.View());
    }

    // ----- The end

    /** The event loop ends: every connection is closed. */
    method StopReactor()
      requires Valid() && AtRest(s.world)
      modifies this`s, reactor
      ensures Valid() && SysLeads(old(s), s) && s.world.phase == Stopped
      ensures s == old(s).(world := After(old(s).world, Protocol.Step.Stop))
    {
      hide A.Inv, SysReachable, SysLeads, Leads, Reaches, ShardIndex;
      LeadsStep(s.world, Protocol.Step.Stop);
      QuietlyReachable(s, After(s.world, Protocol.Step.Stop), TextLines(text), boot);
      reactor.CloseAll();
      s := s.(world := reactor.View());
    }

    /** The pool's flag is cleared. */
    method ClearRunning()
      requires Valid() && s.world.phase == Stopped
      modifies this`s, reactor.pool`running
      ensures Valid() && SysLeads(old(s), s) && !reactor.pool.running && s.now == old(s).now
      ensures s.world.phase == Stopped
    {
      hide A.Inv, SysReachable, SysLeads, Leads, ShardIndex;
      LeadsStep(s.world, Protocol.Step.ShutdownPool);
      QuietlyReachable(s, After(s.world, Protocol.Step.ShutdownPool), TextLines(text), boot);
      reactor.pool.running := false;
      s := s.(world := reactor.View());
    }

    /** A worker that finds the pool stopped and the queue empty returns. */
    method Leave(i: nat)
      requires Valid() && !reactor.pool.running && reactor.pool.queue == []
      requires i < |reactor.pool.workers| && reactor.pool.workers[i].Idle?
      modifies this`s, reactor.pool
      ensures Valid() && SysLeads(old(s), s) && s.now == old(s).now
      ensures reactor.pool.workers == old(reactor.pool.workers)[i := Worker.Exited]
      ensures reactor.pool.queue == [] && !reactor.pool.running && reactor.pool.accepted == old(reactor.pool.accepted)
    {
      hide A.Inv, SysReachable, SysLeads, Leads, ShardIndex;
      LeadsStep(s.world, Work(Exit(i)));
      QuietlyReachable(s, After(s.world, Work(Exit(i))), TextLines(text), boot);
      reactor.pool.Leave(i);
      s := s.(world := reactor.View());
    }

    /** A worker with a task executes it on the store and posts the result. */
    method ExecuteAndPost(i: nat, at: Time, oom: bool)
      requires Valid() && i < |reactor.pool.workers| && reactor.pool.workers[i].Busy? && at >= s.now
      modifies this`s, reactor`hist, reactor.pool, reactor.pool.completionQueue, router`contents, router.shards, aof
      ensures Valid() && SysLeads(old(s), s) && s.now == at
      ensures reactor.pool.workers == old(reactor.pool.workers)[i := Idle]
      ensures reactor.pool.queue == old(reactor.pool.queue) && reactor.pool.running == old(reactor.pool.running)
      ensures reactor.pool.accepted == old(reactor.pool.accepted)
    {
      hide A.Inv, SysReachable, SysLeads, ShardIndex, Exec, Encode, After;
      ghost var s0 := s;
      var response, v := ExecuteTask(i, at, oom);
      ghost var s1 := s;
      PostResult(i);
      SysLeadsFurther(s0, s1, s);
    }

    /** One turn of the worker loop, on the store. */
    method WorkTurn(i: nat, at: Time, oom: bool)
      requires Valid() && i < |reactor.pool.workers| && reactor.pool.workers[i].Idle? && reactor.pool.queue != []
      requires at >= s.now
      modifies this`s, reactor`hist, reactor.pool, reactor.pool.completionQueue, router`contents, router.shards, aof
      ensures Valid() && SysLeads(old(s), s) && s.now == at
      ensures reactor.pool.workers == old(reactor.pool.workers) && reactor.pool.queue == old(reactor.pool.queue)[1..]
      ensures reactor.pool.running == old(reactor.pool.running)
      ensures reactor.pool.accepted == old(reactor.pool.accepted)
    {
      hide A.Inv, SysReachable, SysLeads, ShardIndex, Exec, Encode, After;
      ghost var s0 := s;
      TakeTask(i);
      ghost var s1 := s;
      ExecuteAndPost(i, at, oom);
      SysLeadsFurther(s0, s1, s);
    }

    /**
     A worker after the flag has been cleared: it finishes what it has, works the queue off and
     returns. Its n-th execution is at `clock(n)`, and runs out of memory if `oom(n)`.
     */
    method FinishWorker(i: nat, clock: nat -> Time, oom: nat -> bool, n: nat) returns (n': nat)
      requires Valid() && !reactor.pool.running && i < |reactor.pool.workers| && !reactor.pool.workers[i].Exited?
      requires s.now <= clock(n) && forall j: nat :: clock(j) <= clock(j + 1)
      modifies this`s, reactor`hist, reactor.pool, reactor.pool.completionQueue, router`contents, router.shards, aof
      ensures Valid() && SysLeads(old(s), s) && s.now <= clock(n')
      ensures reactor.pool.workers == old(reactor.pool.workers)[i := Worker.Exited]
      ensures reactor.pool.queue == [] && !reactor.pool.running && reactor.pool.accepted == old(reactor.pool.accepted)
    {
      hide A.Inv, SysReachable, SysLeads, ShardIndex, Exec, Encode, After;
      n' := n;
      SysLeadsItself(s);
      ghost var s0 := s;
      if reactor.pool.workers[i].Done? {
        PostResult(i);
      } else if reactor.pool.workers[i].Busy? {
        ExecuteAndPost(i, clock(n'), oom(n'));
        n' := n' + 1;
      }
      while reactor.pool.queue != []
        invariant Valid() && SysLeads(s0, s) && s.now <= clock(n')
        invariant reactor.pool.workers == old(reactor.pool.workers)[i := Idle]
        invariant !reactor.pool.running && reactor.pool.accepted == old(reactor.pool.accepted)
        decreases |reactor.pool.queue|
      {
        ghost var s1 := s;
        WorkTurn(i, clock(n'), oom(n'));
        SysLeadsFurther(s0, s1, s);
        n' := n' + 1;
      }
      ghost var s2 := s;
      Leave(i);
      SysLeadsFurther(s0, s2, s);
    }

    /** The pool's shutdown: all workers are joined, one after the other. */
    method ShutdownPool(clock: nat -> Time, oom: nat -> bool)
      requires Valid() && s.world.phase == Stopped && s.now <= clock(0) && forall j: nat :: clock(j) <= clock(j + 1)
      requires reactor.pool.workers != []
      requires forall j :: 0 <= j < |reactor.pool.workers| ==> !reactor.pool.workers[j].Exited?
      modifies this`s, reactor`hist, reactor.pool, reactor.pool.completionQueue, router`contents, router.shards, aof
      ensures Valid() && SysLeads(old(s), s) && reactor.pool.accepted == old(reactor.pool.accepted)
      ensures reactor.pool.queue == [] && forall v :: v in reactor.pool.workers ==> v == Worker.Exited
    {
      hide A.Inv, SysReachable, SysLeads, ShardIndex, Exec, Encode, After;
      ghost var s0 := s;
      ClearRunning();
      var n, count := 0, |reactor.pool.workers|;
      for i := 0 to count
        invariant Valid() && SysLeads(s0, s) && s.now <= clock(n) && !reactor.pool.running
        invariant |reactor.pool.workers| == count && reactor.pool.accepted == old(reactor.pool.accepted)
        invariant forall j :: 0 <= j < i ==> reactor.pool.workers[j] == Worker.Exited
        invariant forall j :: i <= j < count ==> !reactor.pool.workers[j].Exited?
        invariant i > 0 ==> reactor.pool.queue == []
      {
        ghost var s1 := s;
        n := FinishWorker(i, clock, oom, n);
        SysLeadsFurther(s0, s1, s);
      }
    }

    /**
     The end of build_and_run: the reactor stops, the pool's workers finish on the store, the
     logger is shut down. Every command ever accepted has been executed exactly once, and the
     file holds what those executions and the sweeps logged, in order.
     */
    method Finish(clock: nat -> Time, oom: nat -> bool)
      requires Valid() && AtRest(s.world) && reactor.pool.workers != []
      requires s.now <= clock(0) && forall j: nat :: clock(j) <= clock(j + 1)
      modifies this`s, reactor, reactor.pool, reactor.pool.completionQueue, router`contents, router.shards, aof
      ensures SysReachable(s, TextLines(text), boot) && SysLeads(old(s), s)
      ensures reactor.pool.accepted == old(reactor.pool.accepted)
      ensures CommandsOf(reactor.pool.accepted) == ExecutedCommands(s.events)
      ensures RunLogged(Booted(TextLines(text), boot), s.events) == (router.contents, aof.file)
    {
      hide A.Inv, SysReachable, SysLeads, ShardIndex, After, CommandsOf, ExecutedCommands, RunLogged, Booted, TextLines;
      ghost var s0 := s;
      NoneHasExited(s, TextLines(text), boot);
      StopReactor();
      ghost var s1 := s;
      ShutdownPool(clock, oom);
      SysLeadsFurther(s0, s1, s);
      AcceptedIsExecutedOnce(s, TextLines(text), boot);
      OneOrderExplainsAll(s, TextLines(text), boot);
      ShutdownLogger();
    }

    // ----- The sweeper

    method SweepKey(key: string, at: Time)
      requires Valid() && at >= s.now
      modifies this`s, router`contents, router.shards, aof
      ensures Valid() && SysLeads(old(s), s) && s == SysNext(old(s), SweepTick(key, at))
    {
      hide A.Inv, SysReachable, SysLeads, SysNext, SysEnabled, ShardIndex, Sweep;
      SweepNextIs(s, key, at);
      SysLeadsStep(s, SweepTick(key, at));
      LeadsToReachable(s, SysNext(s, SweepTick(key, at)), TextLines(text), boot);
      var evicted := router.EvictExpired(key, at);
      SweptIs(old(s).table, key, at);
      if evicted && !aof.replaying {
        aof.LogCommand("DEL " + key);
      }
      s := SysNext(s, SweepTick(key, at));
    }

    /**
     The logger is shut down. Its file is the log, and the startup file with it appended
     rebuilds the table, if the run never diverged.
     */
    method ShutdownLogger()
      requires Valid()
      modifies aof
      ensures aof.file == s.log && router.contents == s.table
      ensures forall clock :: Remainder(text) == "" && CTRL_Z !in text && NoCtrlZ(aof.file)
                && CalmReplay(map[], TextLines(text), boot, 0)
                && NeverDiverges(s.base, s.events) && CalmReplay(map[], TextLines(text) + aof.file, clock, 0)
                ==> Same(router.contents, ReplayLines(map[], TextLines(text + FileText(aof.file)), clock, 0))
    {
      hide A.Inv, SysReachable, ShardIndex, TextLines, FileText, Remainder, CalmReplay, NeverDiverges, Same,
           ReplayLines, SameTails;
      aof.Shutdown();
      SameTailsItself(s.log);
      forall clock | Remainder(text) == "" && CTRL_Z !in text && NoCtrlZ(s.log)
                     && CalmReplay(map[], TextLines(text), boot, 0)
                     && NeverDiverges(s.base, s.events) && CalmReplay(map[], TextLines(text) + s.log, clock, 0)
        ensures Same(s.table, ReplayLines(map[], TextLines(text + FileText(s.log)), clock, 0))
      {
        RestartAnyReachable(s, text, boot, s.log, clock);
      }
    }
  }

  lemma {:induction false} RunNoneExited(s: Sys, steps: seq<SysStep>)
    requires SysPossible(s, steps) && NoneExited(s.world.pool)
    ensures NoneExited(RunSys(s, steps).world.pool)
    decreases |steps|
  {
    hide NoneExited, After, StepEnabled;
    if steps != [] {
      if steps[0].Server? {
        StepKeepsNoneExited(s.world, steps[0].step);
      }
      assert NoneExited(SysNext(s, steps[0]).world.pool);
      RunNoneExited(SysNext(s, steps[0]), steps[1..]);
    }
  }

  /** While the event loop runs, no worker has returned. */
  lemma NoneHasExited(s: Sys, file: seq<string>, boot: nat -> Time)
    requires SysReachable(s, file, boot) && AtRest(s.world)
    ensures forall i :: 0 <= i < |s.world.pool.workers| ==> !s.world.pool.workers[i].Exited?
  {
    WorldIsOk(s, file, boot);
    IsRunning(s.world);
    hide SysPossible, RunSys, Booted, WorldOk;
    var workers: nat, max: nat, start: Time, steps :|
      && max >= 1 && Rising(boot, |file|) && boot(|file|) <= start
      && SysPossible(InitSys(workers, max, Booted(file, boot), start), steps)
      && s == RunSys(InitSys(workers, max, Booted(file, boot), start), steps);
    RunNoneExited(InitSys(workers, max, Booted(file, boot), start), steps);
  }

  lemma IsRunning(w: World)
    requires WorldOk(w) && AtRest(w)
    ensures w.pool.running
  {
    hide PhaseOk, CountsOk, ConnsOk, PlacesOk, ItemsOk;
  }

  lemma SweptIs(m: Table, key: string, at: Time)
    ensures Sweep(m, key, at).1 == if Sweepable(m, key, at) then ["DEL " + key] else []
  {
  }

  /** While lines are read, nothing is being delivered and the connection is live. */
  lemma ReadingIsOk(w: World, fd: Socket)
    requires WorldOk(w) && w.phase == Lines(fd)
    ensures w.drained == [] && fd in w.conns && fd in w.hist && StepEnabled(w, TakeLine)
  {
    hide QueueOk, CountsOk, PlacesOk, ItemsOk, ConnOk;
  }
}
