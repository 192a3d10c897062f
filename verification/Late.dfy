/**
 Logging as the code does it: LPUSH and HSET log under the shard's lock, but SET, DEL and
 the sweeper log after releasing it, so that other threads can get in between.
 */
module Late {
  import opened Text
  import opened Commands
  import opened Store
  import opened Flat
  import opened Replay
  import opened PerKey

  /**
   `pending` are the lines of changes that are in the table but not in the log yet;
   `events` and `applied` record the changes and their lines in the order they took effect.
   */
  datatype LateLog = LateLog(
    table: Table, log: seq<string>, pending: seq<string>,
    events: seq<Event>, applied: seq<string>, now: Time)

  function Start(s: Table, now: Time): LateLog {
    LateLog(s, [], [], [], [], now)
  }

  /** A change takes effect, or some thread gets round to logging its pending line. */
  datatype LateStep = Apply(event: Event) | Emit(line: nat)

  predicate UnderLock(e: Event) {
    e.Do? && (e.command.LPush? || e.command.HSet?)
  }

  predicate Enabled(u: LateLog, step: LateStep) {
    match step
    case Apply(e) => FactoryEvent(e) && e.at >= u.now
    case Emit(i) => i < |u.pending|
  }

  function Next(u: LateLog, step: LateStep): LateLog
    requires Enabled(u, step)
  {
    match step
    case Apply(e) =>
      var (m, lines) := Step(u.table, e);
      LateLog(m, if UnderLock(e) then u.log + lines else u.log, if UnderLock(e) then u.pending else u.pending + lines,
              u.events + [e], u.applied + lines, e.at)
    case Emit(i) =>
      u.(log := u.log + [u.pending[i]], pending := u.pending[..i] + u.pending[i + 1..])
  }

  predicate ValidRun(u: LateLog, steps: seq<LateStep>)
    decreases |steps|
  {
    steps == [] || (Enabled(u, steps[0]) && ValidRun(Next(u, steps[0]), steps[1..]))
  }

  function Run(u: LateLog, steps: seq<LateStep>): LateLog
    requires ValidRun(u, steps)
    decreases |steps|
  {
    if steps == [] then u else Run(Next(u, steps[0]), steps[1..])
  }

  /** No line overtakes an earlier pending line of the same key. */
  ghost predicate InOrder(u: LateLog, step: LateStep)
    requires Enabled(u, step)
  {
    match step
    case Apply(e) => UnderLock(e) ==> ForKey(e.command.key, u.pending) == []
    case Emit(i) => forall k :: OnKey(k, u.pending[i]) != [] ==> ForKey(k, u.pending[..i]) == []
  }

  ghost predicate AllInOrder(u: LateLog, steps: seq<LateStep>)
    requires ValidRun(u, steps)
    decreases |steps|
  {
    steps == [] || (InOrder(u, steps[0]) && AllInOrder(Next(u, steps[0]), steps[1..]))
  }

  // ----- What every run keeps

  ghost predicate Recorded(s: Table, start: Time, u: LateLog) {
    && RunLogged(s, u.events) == (u.table, u.applied)
    && FactoryRun(u.events) && Monotone(u.events, start) && LastTime(u.events, start) == u.now
    && TableOk(u.table, u.now)
    && multiset(u.applied) == multiset(u.log) + multiset(u.pending)
  }

  lemma SplitAt(lines: seq<string>, i: nat)
    requires i < |lines|
    ensures lines == lines[..i] + ([lines[i]] + lines[i + 1..])
    ensures multiset(lines) == multiset(lines[..i] + lines[i + 1..]) + multiset{lines[i]}
  {
    assert lines == lines[..i] + ([lines[i]] + lines[i + 1..]);
    assert multiset(lines) == multiset(lines[..i]) + (multiset{lines[i]} + multiset(lines[i + 1..]));
  }

  lemma AppendedCounts(applied: seq<string>, log: seq<string>, pending: seq<string>, lines: seq<string>)
    requires multiset(applied) == multiset(log) + multiset(pending)
    ensures multiset(applied + lines) == multiset(log + lines) + multiset(pending)
    ensures multiset(applied + lines) == multiset(log) + multiset(pending + lines)
  {
  }

  lemma EmittedCounts(applied: seq<string>, log: seq<string>, pending: seq<string>, i: nat)
    requires multiset(applied) == multiset(log) + multiset(pending) && i < |pending|
    ensures multiset(applied) == multiset(log + [pending[i]]) + multiset(pending[..i] + pending[i + 1..])
  {
    SplitAt(pending, i);
    assert multiset(log + [pending[i]]) == multiset(log) + multiset{pending[i]};
  }

  lemma FactoryRunOfAppend(events: seq<Event>, e: Event)
    requires FactoryRun(events) && FactoryEvent(e)
    ensures FactoryRun(events + [e])
  {
  }

  lemma ApplyRecorded(s: Table, start: Time, u: LateLog, e: Event)
    requires Recorded(s, start, u) && Enabled(u, Apply(e))
    ensures Recorded(s, start, Next(u, Apply(e)))
  {
    hide Step, RunLogged, Monotone, LastTime, TableOk, FactoryRun, FactoryEvent;
    RunLoggedOfAppend(s, u.events, e);
    MonotoneOfAppend(u.events, e, start);
    FactoryRunOfAppend(u.events, e);
    LaterTableOk(u.table, u.now, e.at);
    StepKeepsTableOk(u.table, e);
    AppendedCounts(u.applied, u.log, u.pending, Step(u.table, e).1);
  }

  lemma StepRecorded(s: Table, start: Time, u: LateLog, step: LateStep)
    requires Recorded(s, start, u) && Enabled(u, step)
    ensures Recorded(s, start, Next(u, step))
  {
    hide Step, RunLogged, Monotone, LastTime, TableOk, FactoryRun;
    match step
    case Apply(e) =>
      hide Recorded, Next, Enabled;
      ApplyRecorded(s, start, u, e);
    case Emit(i) =>
      EmittedCounts(u.applied, u.log, u.pending, i);
  }

  lemma {:induction false} RunRecorded(s: Table, start: Time, u: LateLog, steps: seq<LateStep>)
    requires Recorded(s, start, u) && ValidRun(u, steps)
    ensures Recorded(s, start, Run(u, steps))
    decreases |steps|
  {
    hide Recorded, Next;
    if steps != [] {
      StepRecorded(s, start, u, steps[0]);
      RunRecorded(s, start, Next(u, steps[0]), steps[1..]);
    }
  }

  lemma StartRecorded(s: Table, now: Time)
    requires TableOk(s, now)
    ensures Recorded(s, now, Start(s, now))
  {
  }

  /** What waits to be logged is a SET or a DEL: LPUSH and HSET log before they let go of the lock. */
  predicate OnlyResetsWait(pending: seq<string>) {
    forall line :: line in pending ==> ParseLine(line).Some? && Resets(ParseLine(line).value)
  }

  lemma StepLogsResets(m: Table, e: Event)
    requires TableOk(m, e.at) && FactoryEvent(e) && !UnderLock(e)
    ensures OnlyResetsWait(Step(m, e).1)
  {
    hide ParseLine, Serialize;
    match e
    case Do(c, at, oom) =>
      ExecWithoutLog(m, c, at, oom);
      RoundTrip(c);
    case SweepKey(k, at) =>
      if Sweepable(m, k, at) {
        RoundTrip(Del(k));
        assert Serialize(Del(k)) == "DEL " + k by { DelText(k); }
      }
  }

  lemma DelText(k: string)
    ensures Serialize(Del(k)) == "DEL " + k
  {
  }

  lemma {:induction false} PendingAreResets(s: Table, start: Time, u: LateLog, steps: seq<LateStep>)
    requires Recorded(s, start, u) && OnlyResetsWait(u.pending) && ValidRun(u, steps)
    ensures OnlyResetsWait(Run(u, steps).pending)
    decreases |steps|
  {
    hide Recorded, Step, TableOk, ParseLine;
    if steps != [] {
      StepRecorded(s, start, u, steps[0]);
      if steps[0].Apply? && !UnderLock(steps[0].event) {
        TableOkAt(s, start, u, steps[0].event.at);
        StepLogsResets(u.table, steps[0].event);
      }
      PendingAreResets(s, start, Next(u, steps[0]), steps[1..]);
    }
  }

  lemma TableOkAt(s: Table, start: Time, u: LateLog, at: Time)
    requires Recorded(s, start, u) && at >= u.now
    ensures TableOk(u.table, at)
  {
    LaterTableOk(u.table, u.now, at);
  }

  // ----- Runs in which no line overtakes another of its key

  /** Key by key, the log followed by the pending lines is what was applied. */
  ghost predicate Faithful(u: LateLog) {
    forall k :: ForKey(k, u.applied) == ForKey(k, u.log) + ForKey(k, u.pending)
  }

  lemma LinesOnKey(m: Table, e: Event, k: string)
    requires TableOk(m, e.at) && FactoryEvent(e)
    ensures UnderLock(e) && k != e.command.key ==> ForKey(k, Step(m, e).1) == []
  {
    if e.Do? {
      ExecWithoutLog(m, e.command, e.at, e.oom);
      hide Exec;
      if !e.command.Ping? {
        SerializedOnKey(k, e.command);
      }
      NothingForKey(k);
    }
  }

  lemma ApplyKeepsFaithful(u: LateLog, e: Event)
    requires Faithful(u) && Enabled(u, Apply(e)) && InOrder(u, Apply(e)) && TableOk(u.table, e.at)
    ensures Faithful(Next(u, Apply(e)))
  {
    hide Step, ForKey, TableOk, FactoryEvent;
    var u', lines := Next(u, Apply(e)), Step(u.table, e).1;
    forall k
      ensures ForKey(k, u'.applied) == ForKey(k, u'.log) + ForKey(k, u'.pending)
    {
      ForKeyOfAppend(k, u.applied, lines);
      ForKeyOfAppend(k, u.log, lines);
      ForKeyOfAppend(k, u.pending, lines);
      LinesOnKey(u.table, e, k);
    }
  }

  lemma EmitKeepsFaithful(u: LateLog, i: nat)
    requires Faithful(u) && Enabled(u, Emit(i)) && InOrder(u, Emit(i))
    ensures Faithful(Next(u, Emit(i)))
  {
    hide ForKey, OnKey;
    var u', line := Next(u, Emit(i)), u.pending[i];
    var before, after := u.pending[..i], u.pending[i + 1..];
    SplitAt(u.pending, i);
    forall k
      ensures ForKey(k, u'.applied) == ForKey(k, u'.log) + ForKey(k, u'.pending)
    {
      ForKeyOfOne(k, line);
      ForKeyOfAppend(k, u.log, [line]);
      ForKeyOfAppend(k, before, [line] + after);
      ForKeyOfAppend(k, [line], after);
      ForKeyOfAppend(k, before, after);
    }
  }

  lemma {:induction false} RunFaithful(s: Table, start: Time, u: LateLog, steps: seq<LateStep>)
    requires Recorded(s, start, u) && Faithful(u) && ValidRun(u, steps) && AllInOrder(u, steps)
    ensures Faithful(Run(u, steps))
    decreases |steps|
  {
    hide Recorded, Faithful, Next, InOrder;
    if steps != [] {
      StepRecorded(s, start, u, steps[0]);
      StepFaithful(s, start, u, steps[0]);
      RunFaithful(s, start, Next(u, steps[0]), steps[1..]);
    }
  }

  lemma StepFaithful(s: Table, start: Time, u: LateLog, step: LateStep)
    requires Recorded(s, start, u) && Faithful(u) && Enabled(u, step) && InOrder(u, step)
    ensures Faithful(Next(u, step))
  {
    hide Faithful, Next, InOrder, RunLogged;
    match step
    case Apply(e) =>
      LaterTableOk(u.table, u.now, e.at);
      ApplyKeepsFaithful(u, e);
    case Emit(i) =>
      EmitKeepsFaithful(u, i);
  }

  /**
   Logging after the lock is harmless as long as no line overtakes an earlier one of its key:
   a restart at any moment rebuilds every key that has no line pending.
   */
  lemma InOrderRebuilds(s: Table, start: Time, steps: seq<LateStep>, r: Table, clock: nat -> Time, i: nat, k: string)
    requires TableOk(s, start) && Same(s, r)
    requires ValidRun(Start(s, start), steps) && AllInOrder(Start(s, start), steps)
    requires var u := Run(Start(s, start), steps);
             NeverDiverges(s, u.events) && CalmReplay(r, u.log, clock, i) && ForKey(k, u.pending) == []
    ensures var u := Run(Start(s, start), steps);
            SameKey(u.table, ReplayLines(r, u.log, clock, i), k)
  {
    var u := Run(Start(s, start), steps);
    StartRecorded(s, start);
    assert Faithful(Start(s, start));
    RunRecorded(s, start, Start(s, start), steps);
    RunFaithful(s, start, Start(s, start), steps);
    hide RunLogged, ReplayLines, CalmReplay, ForKey, StateOf, KeyRun, TableOk, NeverDiverges, Run, ValidRun, SameKey;
    assert SameKey(s, r, k);
    SameKeyIsSameState(s, r, k);
    TableIsKeyRun(s, u.events, start, k);
    ReplayPerKey(r, u.log, clock, i, k);
    assert ForKey(k, u.applied) == ForKey(k, u.log);
    SameKeyIsSameState(u.table, ReplayLines(r, u.log, clock, i), k);
  }

  // ----- Runs in which lines do overtake

  lemma {:induction false} MentionedIsForKey(k: string, line: string, lines: seq<string>)
    requires line in lines && OnKey(k, line) != []
    ensures ForKey(k, lines) != []
  {
    if lines[0] != line {
      MentionedIsForKey(k, line, lines[1..]);
    }
  }

  lemma {:induction false} ForKeyIsMentioned(k: string, lines: seq<string>) returns (line: string)
    requires ForKey(k, lines) != []
    ensures line in lines && OnKey(k, line) != []
  {
    if OnKey(k, lines[0]) != [] {
      line := lines[0];
    } else {
      line := ForKeyIsMentioned(k, lines[1..]);
    }
  }

  /**
   Whatever overtakes what: a key whose last logged line is a SET or DEL comes back after a
   restart if and only if that line is the last one that took effect on the key.
   */
  lemma OvertakingRebuilds(s: Table, start: Time, steps: seq<LateStep>, r: Table, clock: nat -> Time, i: nat, k: string)
    requires TableOk(s, start) && ValidRun(Start(s, start), steps)
    requires var logged := ForKey(k, Run(Start(s, start), steps).log);
             logged != [] && Resets(logged[|logged| - 1])
    ensures var u := Run(Start(s, start), steps);
            var applied, logged := ForKey(k, u.applied), ForKey(k, u.log);
            && applied != []
            && (SameKey(u.table, ReplayLines(r, u.log, clock, i), k) <==>
                applied[|applied| - 1] == logged[|logged| - 1])
  {
    var u := Run(Start(s, start), steps);
    StartRecorded(s, start);
    RunRecorded(s, start, Start(s, start), steps);
    hide RunLogged, ReplayLines, StateOf, TableOk, Run, ValidRun, SameKey, OnKey, ForKey;
    var line := ForKeyIsMentioned(k, u.log);
    assert line in multiset(u.applied);
    MentionedIsForKey(k, line, u.applied);
    LastLineDecides(s, u.events, start, r, u.log, clock, i, k);
  }

  lemma RunOfStep(u: LateLog, step: LateStep, rest: seq<LateStep>)
    requires Enabled(u, step) && ValidRun(Next(u, step), rest)
    ensures ValidRun(u, [step] + rest) && Run(u, [step] + rest) == Run(Next(u, step), rest)
  {
    hide Enabled, Next;
    assert ([step] + rest)[0] == step && ([step] + rest)[1..] == rest;
  }

  lemma SetIsPending(u: LateLog, c: Command)
    requires c.Set? && FactoryMade(c) && u.now == 0
    ensures Enabled(u, Apply(Do(c, 0, false)))
    ensures var u' := Next(u, Apply(Do(c, 0, false)));
            u'.log == u.log && u'.pending == u.pending + [Serialize(c)] && u'.applied == u.applied + [Serialize(c)]
            && u'.now == 0
  {
    hide Serialize;
  }

  lemma TwoSetsPending(c: Command, d: Command)
    requires c.Set? && d.Set? && FactoryMade(c) && FactoryMade(d)
    ensures var u0 := Start(map[], 0);
            && Enabled(u0, Apply(Do(c, 0, false)))
            && var u1 := Next(u0, Apply(Do(c, 0, false)));
               && Enabled(u1, Apply(Do(d, 0, false)))
               && var u2 := Next(u1, Apply(Do(d, 0, false)));
                  u2.log == [] && u2.pending == [Serialize(c), Serialize(d)] == u2.applied
  {
    hide Next, Enabled, Serialize, FactoryMade;
    var u0 := Start(map[], 0);
    SetIsPending(u0, c);
    var u1 := Next(u0, Apply(Do(c, 0, false)));
    SetIsPending(u1, d);
  }

  /** Two lines pending, the later one logged first. */
  lemma SecondOvertakes(u: LateLog, x: string, y: string)
    requires u.log == [] && u.pending == [x, y] == u.applied
    ensures ValidRun(u, [Emit(1), Emit(0)])
    ensures var u' := Run(u, [Emit(1), Emit(0)]); u'.log == [y, x] && u'.pending == [] && u'.applied == [x, y]
  {
    EmitIs(u, 1);
    var u1 := Next(u, Emit(1));
    assert u1.log == [y] && u1.pending == [x];
    EmitIs(u1, 0);
    var u2 := Next(u1, Emit(0));
    assert u2.log == [y, x] && u2.pending == [];
    hide Next, Enabled;
    RunOfStep(u1, Emit(0), []);
    assert [Emit(0)] + [] == [Emit(0)] && [Emit(1)] + [Emit(0)] == [Emit(1), Emit(0)];
    RunOfStep(u, Emit(1), [Emit(0)]);
  }

  function Overtaking(c: Command, d: Command): seq<LateStep> {
    [Apply(Do(c, 0, false))] + ([Apply(Do(d, 0, false))] + [Emit(1), Emit(0)])
  }

  lemma OvertakingRuns(c: Command, d: Command)
    requires c.Set? && d.Set? && FactoryMade(c) && FactoryMade(d)
    ensures ValidRun(Start(map[], 0), Overtaking(c, d))
    ensures var u := Run(Start(map[], 0), Overtaking(c, d));
            && u.log == [Serialize(d), Serialize(c)] && u.pending == []
            && u.applied == [Serialize(c), Serialize(d)]
  {
    hide Next, Enabled, Serialize, FactoryMade;
    TwoSetsPending(c, d);
    var u0 := Start(map[], 0);
    var u1 := Next(u0, Apply(Do(c, 0, false)));
    var u2 := Next(u1, Apply(Do(d, 0, false)));
    SecondOvertakes(u2, Serialize(c), Serialize(d));
    RunOfStep(u1, Apply(Do(d, 0, false)), [Emit(1), Emit(0)]);
    RunOfStep(u0, Apply(Do(c, 0, false)), [Apply(Do(d, 0, false))] + [Emit(1), Emit(0)]);
  }

  /** One run in which a SET overtakes another: afterwards the key is rebuilt only if both wrote the same value. */
  lemma SetsOvertake(k: string, v: string, w: string, ttl: Int64, r: Table, clock: nat -> Time)
    requires IsWord(k) && IsWord(v) && IsWord(w)
    ensures var steps := Overtaking(Set(k, v, ttl), Set(k, w, ttl));
            && ValidRun(Start(map[], 0), steps)
            && var u := Run(Start(map[], 0), steps);
               u.pending == [] && (SameKey(u.table, ReplayLines(r, u.log, clock, 0), k) <==> v == w)
  {
    var c, d := Set(k, v, ttl), Set(k, w, ttl);
    OvertakingRuns(c, d);
    TwoOnKey(k, c, d);
    TwoOnKey(k, d, c);
    hide Serialize, ReplayLines, SameKey, FactoryMade, ForKey, Overtaking, Run, ValidRun;
    OvertakingRebuilds(map[], 0, Overtaking(c, d), r, clock, 0, k);
  }

  lemma EmitIs(u: LateLog, i: nat)
    requires i < |u.pending|
    ensures Enabled(u, Emit(i))
    ensures Next(u, Emit(i)) ==
            u.(log := u.log + [u.pending[i]], pending := u.pending[..i] + u.pending[i + 1..])
  {
  }

  lemma TwoOnKey(k: string, c: Command, d: Command)
    requires FactoryMade(c) && FactoryMade(d) && KeyOf(c) == KeyOf(d) == Some(k)
    ensures ForKey(k, [Serialize(c), Serialize(d)]) == [c, d]
  {
    hide Serialize, ForKey, FactoryMade;
    SerializedOnKey(k, c);
    SerializedOnKey(k, d);
    ForKeyOfAppend(k, [Serialize(c)], [Serialize(d)]);
    assert [Serialize(c)] + [Serialize(d)] == [Serialize(c), Serialize(d)];
  }
}
