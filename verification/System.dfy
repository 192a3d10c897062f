/**
 The whole server: the protocol machine with workers that execute on the store, the
 sweeper beside them, and the log. Executing a command and logging it is one step.
 */
module System {
  import opened Text
  import opened Commands
  import opened Resp
  import opened Store
  import opened Pool
  import opened Framing
  import opened Reassembly
  import opened Protocol
  import opened ProtocolInv
  import opened PerKey
  import F = Flat
  import R = Replay

  /**
   The server took up its work at `start` with the table `base`, rebuilt from its file.
   `log` is what it has added to the file since. `events` are the executions and sweeps so
   far, in the order they took effect; `place` says which of them executed the n-th request
   of a connection.
   */
  datatype Sys = Sys(
    base: Table, start: Time, world: World, table: Table, log: seq<string>, now: Time,
    events: seq<F.Event>, place: map<Socket, map<nat, nat>>)

  datatype SysStep =
    | Server(step: Protocol.Step, at: Time, oom: bool)
    | SweepTick(key: string, at: Time)

  function InitSys(workers: nat, max: nat, base: Table, start: Time): Sys {
    Sys(base, start, Init(workers, max), base, [], start, [], map[])
  }

  /** The clock does not go back, and a worker's reply is what its command returns on the store. */
  predicate SysEnabled(s: Sys, step: SysStep) {
    && step.at >= s.now
    && match step
       case SweepTick(_, _) => true
       case Server(p, at, oom) =>
         && StepEnabled(s.world, p)
         && (Executes(p) ==>
               p.step.reply == Exec(s.table, s.world.pool.workers[p.step.worker].task.command, at, oom).reply)
  }

  function SysNext(s: Sys, step: SysStep): Sys
    requires SysEnabled(s, step)
  {
    match step
    case SweepTick(k, at) => Record(s.(now := at), F.SweepKey(k, at))
    case Server(p, at, oom) =>
      var s' := s.(world := After(s.world, p), now := at);
      if Executes(p) then
        var t := s.world.pool.workers[p.step.worker].task;
        var s'' := Record(s', F.Do(t.command, at, oom));
        s''.(place := Placed(s.place, t.fd, t.seqno, |s.events|))
      else if p.Accept? then s'.(place := s.place[p.fd := map[]])
      else s'
  }

  /** Applies an event to the table and appends its lines to the log. */
  function Record(s: Sys, e: F.Event): Sys {
    var (m, lines) := R.Step(s.table, e);
    s.(table := m, log := s.log + lines, events := s.events + [e])
  }

  function Placed(place: map<Socket, map<nat, nat>>, fd: Socket, n: nat, i: nat): map<Socket, map<nat, nat>> {
    place[fd := (if fd in place then place[fd] else map[])[n := i]]
  }

  predicate SysPossible(s: Sys, steps: seq<SysStep>)
    decreases |steps|
  {
    steps == [] || (SysEnabled(s, steps[0]) && SysPossible(SysNext(s, steps[0]), steps[1..]))
  }

  function RunSys(s: Sys, steps: seq<SysStep>): Sys
    requires SysPossible(s, steps)
    decreases |steps|
  {
    if steps == [] then s else RunSys(SysNext(s, steps[0]), steps[1..])
  }

  // ----- One order of effects explains table, log and replies

  /** The i-th event executed `c`, and `v` is what it returned on the table the earlier events left. */
  predicate Explains(base: Table, events: seq<F.Event>, i: nat, c: Command, v: Value) {
    && i < |events| && events[i].Do? && events[i].command == c
    && v == Exec(R.RunLogged(base, events[..i]).0, c, events[i].at, events[i].oom).reply
  }

  /** The reply to request `n` is what its command returned at its place in the order. */
  predicate ReplyExplained(s: Sys, fd: Socket, n: nat)
    requires fd in s.world.hist
  {
    var h := s.world.hist[fd];
    && fd in s.place && n in s.place[fd] && n in h.replies
    && n < |h.lines| && ParseLine(h.lines[n]).Some?
    && Explains(s.base, s.events, s.place[fd][n], ParseLine(h.lines[n]).value, h.replies[n])
  }

  /** Every reply a worker gave on a live connection is explained by its place in the order. */
  predicate RepliesExplained(s: Sys) {
    forall fd, n :: fd in s.world.conns && fd in s.world.hist && n in s.world.hist[fd].executed ==>
      ReplyExplained(s, fd, n)
  }

  /** Request `n` of a handle is event `i`. */
  predicate At(place: map<Socket, map<nat, nat>>, fd: Socket, n: nat, i: nat) {
    fd in place && n in place[fd] && place[fd][n] == i
  }

  ghost predicate Distinct(place: map<Socket, map<nat, nat>>, count: nat) {
    && (forall fd: Socket, n: nat, i: nat :: At(place, fd, n, i) ==> i < count)
    && (forall fd: Socket, n: nat, gd: Socket, m: nat, i: nat ::
          At(place, fd, n, i) && At(place, gd, m, i) ==> fd == gd && n == m)
  }

  /** Every executed request has an event of its own. */
  ghost predicate PlacesDistinct(s: Sys) {
    Distinct(s.place, |s.events|)
  }

  predicate TasksFactoryMade(p: PoolState) {
    && (forall t :: t in p.queue ==> FactoryMade(t.command))
    && forall i :: 0 <= i < |p.workers| && p.workers[i].Busy? ==> FactoryMade(p.workers[i].task.command)
  }

  predicate Ledger(s: Sys) {
    && R.RunLogged(s.base, s.events) == (s.table, s.log) && TableOk(s.base, s.start)
    && R.FactoryRun(s.events) && F.Monotone(s.events, s.start) && F.LastTime(s.events, s.start) <= s.now
  }

  ghost predicate SysOk(s: Sys) {
    WorldOk(s.world) && TasksFactoryMade(s.world.pool) && Ledger(s) && RepliesExplained(s) && PlacesDistinct(s)
  }

  lemma RecordKeepsLedger(s: Sys, e: F.Event)
    requires Ledger(s) && R.FactoryEvent(e) && e.at == s.now
    ensures Ledger(Record(s, e))
  {
    hide R.Step, R.RunLogged, F.Monotone, F.LastTime, R.FactoryEvent;
    R.RunLoggedOfAppend(s.base, s.events, e);
    R.MonotoneOfAppend(s.events, e, s.start);
  }

  lemma ExplainsStays(base: Table, events: seq<F.Event>, e: F.Event, i: nat, c: Command, v: Value)
    requires Explains(base, events, i, c, v)
    ensures Explains(base, events + [e], i, c, v)
  {
    hide Exec, R.RunLogged;
    assert (events + [e])[..i] == events[..i];
  }

  lemma ExplainsLast(s: Sys, c: Command, at: Time, oom: bool)
    requires Ledger(s)
    ensures Explains(s.base, s.events + [F.Do(c, at, oom)], |s.events|, c, Exec(s.table, c, at, oom).reply)
  {
    hide Exec, R.RunLogged;
    assert (s.events + [F.Do(c, at, oom)])[..|s.events|] == s.events;
  }

  // ----- Preservation

  lemma DispatchKeepsFactoryTasks(w: World, allow: bool)
    requires TasksFactoryMade(w.pool) && StepEnabled(w, Dispatch(allow))
    ensures TasksFactoryMade(After(w, Dispatch(allow)).pool)
  {
    ParsedIsFactoryMade(w.phase.line);
    hide FactoryMade, ParseLine, Tokens;
  }

  lemma WorkKeepsFactoryTasks(w: World, ps: PoolStep)
    requires TasksFactoryMade(w.pool) && StepEnabled(w, Work(ps))
    ensures TasksFactoryMade(After(w, Work(ps)).pool)
    ensures ps.Execute? ==> FactoryMade(w.pool.workers[ps.worker].task.command)
  {
    hide FactoryMade, Answer;
    if ps.Pop? {
      assert w.pool.queue[0] in w.pool.queue;
    }
  }

  /** Only the dispatcher puts tasks into the queue, and it takes them from the factory. */
  lemma StepKeepsFactoryTasks(w: World, p: Protocol.Step)
    requires TasksFactoryMade(w.pool) && StepEnabled(w, p)
    ensures TasksFactoryMade(After(w, p).pool)
    ensures Executes(p) ==> FactoryMade(w.pool.workers[p.step.worker].task.command)
  {
    if p.Dispatch? {
      hide TasksFactoryMade, After, StepEnabled;
      DispatchKeepsFactoryTasks(w, p.allow);
    } else if p.Work? {
      hide TasksFactoryMade, After, StepEnabled;
      WorkKeepsFactoryTasks(w, p.step);
    } else {
      OtherKeepsFactoryTasks(w, p);
    }
  }

  lemma OtherKeepsFactoryTasks(w: World, p: Protocol.Step)
    requires TasksFactoryMade(w.pool) && StepEnabled(w, p) && !p.Dispatch? && !p.Work?
    ensures TasksFactoryMade(After(w, p).pool)
  {
    hide FactoryMade, NothingOutstanding, DrainOne, NewlineAt, StripCr;
  }

  /** Steps that execute nothing leave the executed requests of live connections as they were, or start afresh. */
  lemma ExecutedUnchanged(w: World, p: Protocol.Step, fd: Socket)
    requires WorldOk(w) && StepEnabled(w, p) && !Executes(p)
    requires fd in After(w, p).conns && fd in After(w, p).hist
    ensures var w' := After(w, p);
            || (p.Accept? && p.fd == fd && w'.hist[fd] == NoHistory)
            || (&& fd in w.conns && fd in w.hist && w'.hist[fd].executed == w.hist[fd].executed
                && w.hist[fd].lines <= w'.hist[fd].lines
                && (p.Accept? ==> p.fd != fd)
                && forall n :: n in w.hist[fd].executed && n in w.hist[fd].replies ==>
                     n in w'.hist[fd].replies && w'.hist[fd].replies[n] == w.hist[fd].replies[n])
  {
    hide ConnOk, PlacesOk, ItemsOk, ParseLine, StripCr, Deliver;
    if p.Dispatch? {
      DispatchedAwaitsReply(w);
    }
  }

  lemma QuietStepKeepsExplanations(s: Sys, step: SysStep)
    requires SysOk(s) && SysEnabled(s, step) && step.Server? && !Executes(step.step)
    ensures RepliesExplained(SysNext(s, step))
  {
    hide WorldOk, After, TasksFactoryMade, Ledger, Explains, ParseLine, StepEnabled;
    var s' := SysNext(s, step);
    forall fd, n | fd in s'.world.conns && fd in s'.world.hist && n in s'.world.hist[fd].executed
      ensures ReplyExplained(s', fd, n)
    {
      ExecutedUnchanged(s.world, step.step, fd);
      assert s'.world.hist[fd].lines[n] == s.world.hist[fd].lines[n];
    }
  }

  /** The execution of a request of a live connection becomes the last event, which explains its reply. */
  lemma ExecuteKeepsExplanations(s: Sys, step: SysStep)
    requires SysOk(s) && SysEnabled(s, step) && step.Server? && Executes(step.step)
    ensures RepliesExplained(SysNext(s, step))
  {
    hide WorldOk, TasksFactoryMade, Ledger, Explains, ParseLine, Exec, R.Step;
    var s', ps := SysNext(s, step), step.step.step;
    var t := s.world.pool.workers[ps.worker].task;
    var e := F.Do(t.command, step.at, step.oom);
    ExplainsLast(s, t.command, step.at, step.oom);
    if t.fd in s.world.conns {
      ExecutedAwaitsReply(s.world, ps.worker, ps.reply);
    }
    forall fd, n | fd in s'.world.conns && fd in s'.world.hist && n in s'.world.hist[fd].executed
      ensures ReplyExplained(s', fd, n)
    {
      if fd == t.fd && n == t.seqno {
      } else {
        assert n in s.world.hist[fd].executed;
        ExplainsStays(s.base, s.events, e, s.place[fd][n], ParseLine(s.world.hist[fd].lines[n]).value,
                      s.world.hist[fd].replies[n]);
      }
    }
  }

  lemma SweepKeepsExplanations(s: Sys, step: SysStep)
    requires SysOk(s) && SysEnabled(s, step) && step.SweepTick?
    ensures RepliesExplained(SysNext(s, step))
  {
    hide WorldOk, TasksFactoryMade, Ledger, Explains, ParseLine, R.Step;
    var s', e := SysNext(s, step), F.SweepKey(step.key, step.at);
    forall fd, n | fd in s'.world.conns && fd in s'.world.hist && n in s'.world.hist[fd].executed
      ensures ReplyExplained(s', fd, n)
    {
      ExplainsStays(s.base, s.events, e, s.place[fd][n], ParseLine(s.world.hist[fd].lines[n]).value,
                      s.world.hist[fd].replies[n]);
    }
  }

  lemma LedgerLater(s: Sys, world: World, at: Time)
    requires Ledger(s) && at >= s.now
    ensures Ledger(s.(world := world, now := at))
  {
    hide R.RunLogged, F.Monotone, F.LastTime, R.FactoryRun;
  }

  lemma LedgerKept(s: Sys, step: SysStep)
    requires SysOk(s) && SysEnabled(s, step)
    ensures Ledger(SysNext(s, step))
  {
    hide WorldOk, Ledger, RepliesExplained, R.Step, After, TasksFactoryMade;
    match step
    case SweepTick(k, at) =>
      LedgerLater(s, s.world, at);
      RecordKeepsLedger(s.(now := at), F.SweepKey(k, at));
    case Server(p, at, oom) =>
      LedgerLater(s, After(s.world, p), at);
      if Executes(p) {
        var t := s.world.pool.workers[p.step.worker].task;
        StepKeepsFactoryTasks(s.world, p);
        var s' := s.(world := After(s.world, p), now := at);
        RecordKeepsLedger(s', F.Do(t.command, at, oom));
        PlaceIsFree(Record(s', F.Do(t.command, at, oom)), SysNext(s, step));
      } else {
        PlaceIsFree(s.(world := After(s.world, p), now := at), SysNext(s, step));
      }
  }

  lemma PlaceIsFree(s: Sys, s': Sys)
    requires Ledger(s) && s' == s.(place := s'.place)
    ensures Ledger(s')
  {
  }

  lemma PlacedIsDistinct(place: map<Socket, map<nat, nat>>, fd: Socket, n: nat, count: nat)
    requires Distinct(place, count)
    ensures Distinct(Placed(place, fd, n, count), count + 1)
  {
    var place' := Placed(place, fd, n, count);
    forall gd: Socket, m: nat, i: nat
      ensures At(place', gd, m, i) ==> if gd == fd && m == n then i == count else At(place, gd, m, i)
    {
    }
  }

  lemma FewerAreDistinct(place: map<Socket, map<nat, nat>>, place': map<Socket, map<nat, nat>>, count: nat)
    requires Distinct(place, count)
    requires forall fd: Socket, n: nat, i: nat :: At(place', fd, n, i) ==> At(place, fd, n, i)
    ensures Distinct(place', count) && Distinct(place', count + 1)
  {
    hide At;
  }

  lemma ClearedIsDistinct(place: map<Socket, map<nat, nat>>, fd: Socket, count: nat)
    requires Distinct(place, count)
    ensures Distinct(place[fd := map[]], count) && Distinct(place, count + 1)
  {
    FewerAreDistinct(place, place, count);
    FewerAreDistinct(place, place[fd := map[]], count);
  }

  lemma StepKeepsPlacesDistinct(s: Sys, step: SysStep)
    requires PlacesDistinct(s) && SysEnabled(s, step)
    ensures PlacesDistinct(SysNext(s, step))
  {
    hide After, R.Step, Exec, Placed, Distinct;
    match step
    case SweepTick(_, _) => ClearedIsDistinct(s.place, 0, |s.events|);
    case Server(p, _, _) =>
      if Executes(p) {
        var t := s.world.pool.workers[p.step.worker].task;
        PlacedIsDistinct(s.place, t.fd, t.seqno, |s.events|);
      } else if p.Accept? {
        ClearedIsDistinct(s.place, p.fd, |s.events|);
      }
  }

  lemma SysStepKeepsOk(s: Sys, step: SysStep)
    requires SysOk(s) && SysEnabled(s, step)
    ensures SysOk(SysNext(s, step))
  {
    StepKeepsPlacesDistinct(s, step);
    hide WorldOk, Ledger, RepliesExplained, TasksFactoryMade, After, StepEnabled, R.Step, PlacesDistinct;
    LedgerKept(s, step);
    match step
    case SweepTick(_, _) => SweepKeepsExplanations(s, step);
    case Server(p, _, _) =>
      ProtocolInv.StepKeepsInv(s.world, p);
      StepKeepsFactoryTasks(s.world, p);
      if Executes(p) {
        ExecuteKeepsExplanations(s, step);
      } else {
        QuietStepKeepsExplanations(s, step);
      }
  }

  // ----- The order only grows

  /** `s'` comes later: its order extends that of `s`, and what was executed in between stands behind it. */
  ghost predicate Extends(s: Sys, s': Sys) {
    && s.events <= s'.events
    && forall fd: Socket, n: nat, i: nat :: i < |s.events| && At(s'.place, fd, n, i) ==> At(s.place, fd, n, i)
  }

  lemma StepExtends(s: Sys, step: SysStep)
    requires SysEnabled(s, step)
    ensures Extends(s, SysNext(s, step))
    ensures step.Server? && Executes(step.step) ==>
              var t := s.world.pool.workers[step.step.step.worker].task;
              var s' := SysNext(s, step);
              At(s'.place, t.fd, t.seqno, |s.events|)
  {
    hide After, StepEnabled, R.Step, Exec;
  }

  lemma ExtendsFurther(s: Sys, s': Sys, s'': Sys)
    requires Extends(s, s') && Extends(s', s'')
    ensures Extends(s, s'')
  {
  }

  /** A request executed later stands later in the order, and nothing is ever taken back. */
  lemma {:induction false} RunExtends(s: Sys, steps: seq<SysStep>)
    requires SysPossible(s, steps)
    ensures Extends(s, RunSys(s, steps))
    decreases |steps|
  {
    hide SysEnabled, SysNext, Extends;
    if steps == [] {
      ExtendsItself(s);
    } else {
      StepExtends(s, steps[0]);
      RunExtends(SysNext(s, steps[0]), steps[1..]);
      ExtendsFurther(s, SysNext(s, steps[0]), RunSys(s, steps));
    }
  }

  lemma ExtendsItself(s: Sys)
    ensures Extends(s, s)
  {
  }

  lemma {:induction false} RunSysKeepsOk(s: Sys, steps: seq<SysStep>)
    requires SysOk(s) && SysPossible(s, steps)
    ensures SysOk(RunSys(s, steps)) && RunSys(s, steps).base == s.base && RunSys(s, steps).start == s.start
    decreases |steps|
  {
    hide SysOk, SysNext, After, R.Step;
    if steps != [] {
      SysStepKeepsOk(s, steps[0]);
      BaseStays(s, steps[0]);
      RunSysKeepsOk(SysNext(s, steps[0]), steps[1..]);
    }
  }

  lemma BaseStays(s: Sys, step: SysStep)
    requires SysEnabled(s, step)
    ensures SysNext(s, step).base == s.base && SysNext(s, step).start == s.start
  {
    hide After, R.Step, StepEnabled;
  }

  lemma InitSysOk(workers: nat, max: nat, base: Table, start: Time)
    requires max >= 1 && TableOk(base, start)
    ensures SysOk(InitSys(workers, max, base, start))
  {
    InitInv(workers, max);
    hide WorldOk, TableOk;
  }

  // ----- The server as a whole

  /** The states a server can get into that has replayed `file` while the clock read `boot`. */
  ghost predicate SysReachable(s: Sys, file: seq<string>, boot: nat -> Time) {
    exists workers: nat, max: nat, start: Time, steps ::
      && max >= 1 && Rising(boot, |file|) && boot(|file|) <= start
      && SysPossible(InitSys(workers, max, Booted(file, boot), start), steps)
      && s == RunSys(InitSys(workers, max, Booted(file, boot), start), steps)
  }

  lemma SysReachableOk(s: Sys, file: seq<string>, boot: nat -> Time)
    requires SysReachable(s, file, boot)
    ensures SysOk(s) && s.base == Booted(file, boot)
    ensures Rising(boot, |file|) && boot(|file|) <= s.start
  {
    hide SysOk, TableOk, Booted, Init;
    var workers: nat, max: nat, start: Time, steps :|
      && max >= 1 && Rising(boot, |file|) && boot(|file|) <= start
      && SysPossible(InitSys(workers, max, Booted(file, boot), start), steps)
      && s == RunSys(InitSys(workers, max, Booted(file, boot), start), steps);
    BootedTableOk(file, boot, start);
    InitSysOk(workers, max, Booted(file, boot), start);
    RunSysKeepsOk(InitSys(workers, max, Booted(file, boot), start), steps);
  }

  /**
   However workers interleave, there is one order of the executed commands that explains
   every reply the clients of live connections get, the contents of the store, and the log;
   each executed request is a different event of it.
   */
  lemma OneOrderExplainsAll(s: Sys, file: seq<string>, boot: nat -> Time)
    requires SysReachable(s, file, boot)
    ensures R.RunLogged(Booted(file, boot), s.events) == (s.table, s.log)
    ensures forall fd, n :: fd in s.world.conns && fd in s.world.hist && n in s.world.hist[fd].executed ==>
              ReplyExplained(s, fd, n)
    ensures PlacesDistinct(s)
  {
    hide WorldOk, R.RunLogged, Explains, ParseLine, TasksFactoryMade, SysReachable, Booted, PlacesDistinct;
    SysReachableOk(s, file, boot);
  }

  /**
   The bytes a client has been sent, and those still to be sent, are replies 0, 1, 2, ... to
   its requests: each the pipeline's own answer, or what its command returned in the one order.
   */
  lemma RepliesOfTheStore(s: Sys, file: seq<string>, boot: nat -> Time, fd: Socket)
    requires SysReachable(s, file, boot) && fd in s.world.conns
    ensures fd in s.world.hist
    ensures var c, h := s.world.conns[fd], s.world.hist[fd];
            && h.sent + c.writeBuffer == EncodeAll(Front(h.replies, c.nextSeqExpected))
            && c.nextSeqExpected <= |h.lines|
            && forall n :: 0 <= n < c.nextSeqExpected ==>
                 && n in h.replies
                 && if n in h.executed then ReplyExplained(s, fd, n)
                    else exists allow :: ImmediateReply(h.lines[n], allow) == Some(h.replies[n])
    ensures PlacesDistinct(s)
  {
    SysReachableOk(s, file, boot);
    hide PlacesDistinct, Explains, ParseLine, ImmediateReply, TasksFactoryMade, Ledger, SysReachable, QueueOk, PhaseOk,
         CountsOk,
         PlacesOk, ItemsOk, Framed, Front, EncodeAll;
    assert ConnOk(s.world.conns[fd], s.world.hist[fd]);
  }

  /** The table of any reachable server is well formed: word keys, no integers, no empty lists or hashes. */
  lemma ReachableTableOk(s: Sys, file: seq<string>, boot: nat -> Time)
    requires SysReachable(s, file, boot)
    ensures TableOk(s.table, s.now)
  {
    SysReachableOk(s, file, boot);
    hide WorldOk, R.RunLogged, TasksFactoryMade, RepliesExplained, TableOk, F.Monotone;
    R.RunKeepsTableOk(s.base, s.events, s.start);
    LaterTableOk(s.table, F.LastTime(s.events, s.start), s.now);
  }

  /** The lines a reachable server has logged are lines of a file. */
  lemma LogIsLines(s: Sys, file: seq<string>, boot: nat -> Time)
    requires SysReachable(s, file, boot)
    ensures forall l :: l in s.log ==> R.LogLine(l)
  {
    SysReachableOk(s, file, boot);
    hide WorldOk, R.RunLogged, TasksFactoryMade, RepliesExplained, TableOk, F.Monotone, R.LogLine;
    R.LogReadsBack(s.base, s.events, s.start);
  }

  lemma SameTailsItself(lines: seq<string>)
    ensures SameTails(lines, lines)
  {
  }

  /**
   Restarting any reachable server whose run never diverged, and which itself started from any
   file, rebuilds its table from that file with its log appended. The lines may have been
   written in another order, as long as each key's lines from its last SET or DEL on have
   kept theirs. Neither the file nor the log holds a Ctrl-Z.
   */
  lemma RestartAnyReachable(s: Sys, text: string, boot: nat -> Time, written: seq<string>, clock: nat -> Time)
    requires SysReachable(s, TextLines(text), boot) && Remainder(text) == "" && CTRL_Z !in text && R.NoCtrlZ(written)
    requires R.CalmReplay(map[], TextLines(text), boot, 0) && R.NeverDiverges(s.base, s.events)
    requires multiset(written) == multiset(s.log) && SameTails(written, s.log)
    requires R.CalmReplay(map[], TextLines(text) + written, clock, 0)
    ensures R.Same(s.table, R.ReplayLines(map[], TextLines(text + FileText(written)), clock, 0))
  {
    var file := TextLines(text);
    SysReachableOk(s, file, boot);
    LogIsLines(s, file, boot);
    assert R.RunLogged(Booted(file, boot), s.events) == (s.table, s.log);
    hide WorldOk, R.RunLogged, TasksFactoryMade, RepliesExplained, R.Same, TableOk, R.CalmReplay, R.NeverDiverges,
         F.Monotone, R.FactoryRun, SameTails, TextLines, FileText, OneLine, Remainder, SysReachable, Booted,
         R.ReplayLines, Plain;
    AnyGenerationRebuilds(file, boot, s.events, s.start, written, clock);
    forall l | l in written
      ensures OneLine(l) && Plain(l)
    {
      assert l in multiset(s.log);
      assert R.LogLine(l);
    }
    AppendedPlainly(text, written);
  }
}
