/**
 The whole server with its logging as the code does it: SET, DEL and the sweeper change the
 store first and get their line into the log later, while other threads go on.
 */
module LateSystem {
  import opened Text
  import opened Framing
  import opened Commands
  import opened Store
  import opened Pool
  import opened Protocol
  import opened PerKey
  import opened System
  import F = Flat
  import R = Replay
  import L = Late

  /**
   `sys.log` are the lines of the changes in the order they took effect; `written` is what
   the logger has been given, `pending` what some thread still has to give it.
   */
  datatype LateSys = LateSys(sys: Sys, written: seq<string>, pending: seq<string>)

  datatype LateStep = Act(step: SysStep) | EmitLine(line: nat)

  /** What a step does to the store. */
  function EventOf(s: Sys, step: SysStep): Option<F.Event>
    requires SysEnabled(s, step)
  {
    match step
    case SweepTick(k, at) => Some(F.SweepKey(k, at))
    case Server(p, at, oom) =>
      if Executes(p) then Some(F.Do(s.world.pool.workers[p.step.worker].task.command, at, oom)) else None
  }

  predicate Enabled(l: LateSys, step: LateStep) {
    match step
    case Act(a) => SysEnabled(l.sys, a)
    case EmitLine(i) => i < |l.pending|
  }

  function Next(l: LateSys, step: LateStep): LateSys
    requires Enabled(l, step)
  {
    match step
    case Act(a) => (
      match EventOf(l.sys, a)
      case None => l.(sys := SysNext(l.sys, a))
      case Some(e) =>
        var lines := R.Step(l.sys.table, e).1;
        LateSys(SysNext(l.sys, a), if L.UnderLock(e) then l.written + lines else l.written,
                if L.UnderLock(e) then l.pending else l.pending + lines)
    )
    case EmitLine(i) =>
      l.(written := l.written + [l.pending[i]], pending := l.pending[..i] + l.pending[i + 1..])
  }

  predicate Possible(l: LateSys, steps: seq<LateStep>)
    decreases |steps|
  {
    steps == [] || (Enabled(l, steps[0]) && Possible(Next(l, steps[0]), steps[1..]))
  }

  function Run(l: LateSys, steps: seq<LateStep>): LateSys
    requires Possible(l, steps)
    decreases |steps|
  {
    if steps == [] then l else Run(Next(l, steps[0]), steps[1..])
  }

  function Boot(workers: nat, max: nat, file: seq<string>, boot: nat -> Time, start: Time): LateSys {
    LateSys(InitSys(workers, max, Booted(file, boot), start), [], [])
  }

  // ----- The log of such a run

  /** What matters for the log. */
  function LogOf(l: LateSys): L.LateLog {
    L.LateLog(l.sys.table, l.written, l.pending, l.sys.events, l.sys.log, F.LastTime(l.sys.events, l.sys.start))
  }

  function LogSteps(l: LateSys, step: LateStep): seq<L.LateStep>
    requires Enabled(l, step)
  {
    match step
    case EmitLine(i) => [L.Emit(i)]
    case Act(a) => (
      match EventOf(l.sys, a)
      case None => []
      case Some(e) => [L.Apply(e)]
    )
  }

  lemma EventTakesEffect(s: Sys, a: SysStep)
    requires SysOk(s) && SysEnabled(s, a)
    ensures var s' := SysNext(s, a);
            match EventOf(s, a)
            case None => s'.table == s.table && s'.log == s.log && s'.events == s.events && s'.start == s.start
            case Some(e) =>
              && R.FactoryEvent(e) && e.at >= F.LastTime(s.events, s.start) && s'.start == s.start
              && s'.table == R.Step(s.table, e).0 && s'.log == s.log + R.Step(s.table, e).1
              && s'.events == s.events + [e] && F.LastTime(s'.events, s.start) == e.at
  {
    hide WorldOk, RepliesExplained, PlacesDistinct, TasksFactoryMade, R.RunLogged, R.Step, After, Exec;
    match EventOf(s, a)
    case None =>
    case Some(e) =>
      R.MonotoneOfAppend(s.events, e, s.start);
      if a.Server? {
        StepKeepsFactoryTasks(s.world, a.step);
      }
  }

  lemma StepProjects(l: LateSys, step: LateStep)
    requires SysOk(l.sys) && Enabled(l, step)
    ensures L.ValidRun(LogOf(l), LogSteps(l, step))
    ensures LogOf(Next(l, step)) == L.Run(LogOf(l), LogSteps(l, step))
  {
    hide SysOk, SysEnabled, SysNext, R.Step, F.LastTime, R.FactoryEvent;
    match step
    case EmitLine(i) =>
      RunOfOne(LogOf(l), L.Emit(i));
    case Act(a) =>
      EventTakesEffect(l.sys, a);
      match EventOf(l.sys, a) {
        case None =>
        case Some(e) =>
          assert L.Enabled(LogOf(l), L.Apply(e));
          RunOfOne(LogOf(l), L.Apply(e));
      }
  }

  lemma RunOfOne(u: L.LateLog, step: L.LateStep)
    requires L.Enabled(u, step)
    ensures L.ValidRun(u, [step]) && L.Run(u, [step]) == L.Next(u, step)
  {
    hide L.Enabled, L.Next;
    var steps := [step];
    assert steps[0] == step && steps[1..] == [];
    assert L.ValidRun(L.Next(u, step), []);
    assert L.Run(L.Next(u, step), []) == L.Next(u, step);
    assert L.Run(u, steps) == L.Run(L.Next(u, steps[0]), steps[1..]);
  }

  lemma {:induction false} LogRunOfAppend(u: L.LateLog, a: seq<L.LateStep>, b: seq<L.LateStep>)
    requires L.ValidRun(u, a) && L.ValidRun(L.Run(u, a), b)
    ensures L.ValidRun(u, a + b) && L.Run(u, a + b) == L.Run(L.Run(u, a), b)
    ensures L.AllInOrder(u, a) && L.AllInOrder(L.Run(u, a), b) ==> L.AllInOrder(u, a + b)
    decreases |a|
  {
    hide L.Enabled, L.Next, L.InOrder;
    if a == [] {
      assert a + b == b;
    } else {
      assert (a + b)[0] == a[0] && (a + b)[1..] == a[1..] + b;
      LogRunOfAppend(L.Next(u, a[0]), a[1..], b);
    }
  }

  /** No line overtakes an earlier pending one of its key. */
  ghost predicate InOrder(l: LateSys, step: LateStep)
    requires Enabled(l, step)
  {
    forall s :: s in LogSteps(l, step) && L.Enabled(LogOf(l), s) ==> L.InOrder(LogOf(l), s)
  }

  ghost predicate AllInOrder(l: LateSys, steps: seq<LateStep>)
    requires Possible(l, steps)
    decreases |steps|
  {
    steps == [] || (InOrder(l, steps[0]) && AllInOrder(Next(l, steps[0]), steps[1..]))
  }

  lemma StepInOrder(l: LateSys, step: LateStep)
    requires Enabled(l, step) && InOrder(l, step) && L.ValidRun(LogOf(l), LogSteps(l, step))
    ensures L.AllInOrder(LogOf(l), LogSteps(l, step))
  {
    hide L.Enabled, L.Next, L.InOrder, LogOf, SysEnabled, EventOf;
    var steps := LogSteps(l, step);
    if steps != [] {
      assert steps[0] in steps && steps[1..] == [];
    }
  }

  lemma NextKeepsOk(l: LateSys, step: LateStep)
    requires SysOk(l.sys) && Enabled(l, step)
    ensures SysOk(Next(l, step).sys)
  {
    hide SysOk, SysEnabled, SysNext, R.Step, EventOf;
    if step.Act? {
      SysStepKeepsOk(l.sys, step.step);
    }
  }

  /** Every run of the server is, for its log, a run of the log alone. */
  lemma {:induction false} RunProjects(l: LateSys, steps: seq<LateStep>) returns (log: seq<L.LateStep>)
    requires SysOk(l.sys) && Possible(l, steps)
    ensures L.ValidRun(LogOf(l), log) && LogOf(Run(l, steps)) == L.Run(LogOf(l), log)
    ensures AllInOrder(l, steps) ==> L.AllInOrder(LogOf(l), log)
    ensures SysOk(Run(l, steps).sys) && Run(l, steps).sys.base == l.sys.base && Run(l, steps).sys.start == l.sys.start
    decreases |steps|
  {
    hide SysOk, Enabled, Next, LogOf, LogSteps, InOrder, L.Enabled, L.Next, L.InOrder;
    if steps == [] {
      log := [];
    } else {
      var step := steps[0];
      StepProjects(l, step);
      NextKeepsOk(l, step);
      BaseKept(l, step);
      if InOrder(l, step) {
        StepInOrder(l, step);
      }
      var rest := RunProjects(Next(l, step), steps[1..]);
      LogRunOfAppend(LogOf(l), LogSteps(l, step), rest);
      log := LogSteps(l, step) + rest;
    }
  }

  lemma BaseKept(l: LateSys, step: LateStep)
    requires Enabled(l, step)
    ensures Next(l, step).sys.base == l.sys.base && Next(l, step).sys.start == l.sys.start
  {
    hide SysEnabled, SysNext, EventOf, R.Step;
    if step.Act? {
      BaseStays(l.sys, step.step);
    }
  }

  lemma BootOk(workers: nat, max: nat, file: seq<string>, boot: nat -> Time, start: Time)
    requires max >= 1 && Rising(boot, |file|) && boot(|file|) <= start
    ensures var l := Boot(workers, max, file, boot, start);
            && SysOk(l.sys) && LogOf(l) == L.Start(Booted(file, boot), start) && TableOk(Booted(file, boot), start)
  {
    hide SysOk, TableOk, Booted;
    BootedTableOk(file, boot, start);
    InitSysOk(workers, max, Booted(file, boot), start);
  }

  // ----- Restart

  /** What a startup on the file that such a run leaves does. */
  function Restarted(text: string, l: LateSys, clock: nat -> Time): Table {
    R.ReplayLines(map[], TextLines(text + FileText(l.written)), clock, 0)
  }

  lemma WrittenArePlain(s: Table, start: Time, u: L.LateLog)
    requires L.Recorded(s, start, u) && TableOk(s, start) && R.NoCtrlZ(u.log)
    ensures forall line :: line in u.log ==> OneLine(line) && Plain(line)
  {
    hide R.RunLogged, TableOk, R.FactoryRun, F.Monotone, F.LastTime, OneLine, Plain;
    R.LogReadsBack(s, u.events, start);
    forall line | line in u.log
      ensures OneLine(line) && Plain(line)
    {
      assert line in multiset(u.applied);
      assert R.LogLine(line);
    }
  }

  /** The startup table rebuilt once more, and then the lines written since. */
  lemma RestartedIs(text: string, l: LateSys, boot: nat -> Time, clock: nat -> Time)
    requires CTRL_Z !in text && Remainder(text) == "" && R.CalmReplay(map[], TextLines(text), boot, 0)
    requires R.CalmReplay(map[], TextLines(text) + l.written, clock, 0)
    requires forall line :: line in l.written ==> OneLine(line) && Plain(line)
    ensures var file, r := TextLines(text), R.ReplayLines(map[], TextLines(text), clock, 0);
            && R.Same(Booted(file, boot), r) && R.CalmReplay(r, l.written, clock, |file|)
            && Restarted(text, l, clock) == R.ReplayLines(r, l.written, clock, |file|)
  {
    hide R.Same, R.CalmReplay, R.ReplayLines, ForKey, OneLine, Plain, TextLines, FileText, Remainder;
    var file := TextLines(text);
    AppendedPlainly(text, l.written);
    R.ReplayOfAppend(map[], file, l.written, clock, 0);
    PerKeyOrderSuffices(map[], file, file, boot, clock, 0, 0);
  }

  /**
   The whole server, logging late: if no line overtakes an earlier one of its key and no event
   diverges, a restart at any moment, on the startup file and what has been written, rebuilds
   every key that has no line pending.
   */
  lemma InOrderRestart(workers: nat, max: nat, text: string, boot: nat -> Time, start: Time,
                       steps: seq<LateStep>, clock: nat -> Time, k: string)
    requires max >= 1 && Rising(boot, |TextLines(text)|) && boot(|TextLines(text)|) <= start
    requires var l0 := Boot(workers, max, TextLines(text), boot, start); Possible(l0, steps) && AllInOrder(l0, steps)
    requires var l := Run(Boot(workers, max, TextLines(text), boot, start), steps);
             && R.NeverDiverges(l.sys.base, l.sys.events) && R.NoCtrlZ(l.written) && ForKey(k, l.pending) == []
             && R.CalmReplay(map[], TextLines(text) + l.written, clock, 0)
    requires CTRL_Z !in text && Remainder(text) == "" && R.CalmReplay(map[], TextLines(text), boot, 0)
    ensures var l := Run(Boot(workers, max, TextLines(text), boot, start), steps);
            R.SameKey(l.sys.table, Restarted(text, l, clock), k)
  {
    var file := TextLines(text);
    var l0 := Boot(workers, max, file, boot, start);
    BootOk(workers, max, file, boot, start);
    var log := RunProjects(l0, steps);
    var l, s := Run(l0, steps), Booted(file, boot);
    hide SysOk, Possible, Run, AllInOrder, TextLines, Remainder, R.CalmReplay, R.NeverDiverges, R.ReplayLines,
         R.SameKey, R.Same, R.NoCtrlZ, Rising, Booted, ForKey, TableOk, L.Run, L.ValidRun, L.AllInOrder, L.Recorded,
         OneLine, Plain, Restarted;
    L.StartRecorded(s, start);
    L.RunRecorded(s, start, L.Start(s, start), log);
    WrittenArePlain(s, start, LogOf(l));
    RestartedIs(text, l, boot, clock);
    L.InOrderRebuilds(s, start, log, R.ReplayLines(map[], file, clock, 0), clock, |file|, k);
  }

  /**
   The whole server, whatever overtakes what: a key whose last written line is a SET or DEL
   comes back after a restart if and only if that line is the last one that took effect on it.
   */
  lemma OvertakingRestart(workers: nat, max: nat, text: string, boot: nat -> Time, start: Time,
                          steps: seq<LateStep>, clock: nat -> Time, k: string)
    requires max >= 1 && Rising(boot, |TextLines(text)|) && boot(|TextLines(text)|) <= start
    requires Possible(Boot(workers, max, TextLines(text), boot, start), steps)
    requires var l := Run(Boot(workers, max, TextLines(text), boot, start), steps);
             && R.NoCtrlZ(l.written) && R.CalmReplay(map[], TextLines(text) + l.written, clock, 0)
             && var logged := ForKey(k, l.written); logged != [] && Resets(logged[|logged| - 1])
    requires CTRL_Z !in text && Remainder(text) == "" && R.CalmReplay(map[], TextLines(text), boot, 0)
    ensures var l := Run(Boot(workers, max, TextLines(text), boot, start), steps);
            var applied, logged := ForKey(k, l.sys.log), ForKey(k, l.written);
            && applied != []
            && (R.SameKey(l.sys.table, Restarted(text, l, clock), k) <==>
                applied[|applied| - 1] == logged[|logged| - 1])
  {
    var file := TextLines(text);
    var l0 := Boot(workers, max, file, boot, start);
    BootOk(workers, max, file, boot, start);
    var log := RunProjects(l0, steps);
    var l, s := Run(l0, steps), Booted(file, boot);
    hide SysOk, Possible, Run, AllInOrder, TextLines, Remainder, R.CalmReplay, R.NeverDiverges, R.ReplayLines,
         R.SameKey, R.Same, R.NoCtrlZ, Rising, Booted, ForKey, TableOk, L.Run, L.ValidRun, L.AllInOrder, L.Recorded,
         OneLine, Plain, Restarted;
    L.StartRecorded(s, start);
    L.RunRecorded(s, start, L.Start(s, start), log);
    WrittenArePlain(s, start, LogOf(l));
    RestartedIs(text, l, boot, clock);
    L.OvertakingRebuilds(s, start, log, R.ReplayLines(map[], file, clock, 0), clock, |file|, k);
  }
}
