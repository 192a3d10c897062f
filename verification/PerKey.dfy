/**
 Which orders of log lines a restart can cope with. The lines of different keys may be
 shuffled at will; what counts is, key by key, the order since the last SET or DEL. This
 is what logging outside the shard's lock has to preserve.
 */
module PerKey {
  import opened Text
  import opened Commands
  import opened Store
  import opened Flat
  import opened Replay

  // ----- The lines of one key

  function KeyOf(c: Command): Option<string> {
    if c.Ping? then None else Some(c.key)
  }

  /** The command a line of the log asks for, if it is about `k`. */
  function OnKey(k: string, line: string): seq<Command> {
    match ParseLine(line)
    case Some(c) => if KeyOf(c) == Some(k) then [c] else []
    case None => []
  }

  function ForKey(k: string, lines: seq<string>): seq<Command> {
    if lines == [] then [] else OnKey(k, lines[0]) + ForKey(k, lines[1..])
  }

  lemma {:induction false} ForKeyOfAppend(k: string, a: seq<string>, b: seq<string>)
    ensures ForKey(k, a + b) == ForKey(k, a) + ForKey(k, b)
  {
    hide OnKey;
    if a == [] {
      assert a + b == b;
    } else {
      assert (a + b)[0] == a[0] && (a + b)[1..] == a[1..] + b;
      ForKeyOfAppend(k, a[1..], b);
    }
  }

  lemma ForKeyOfOne(k: string, line: string)
    ensures ForKey(k, [line]) == OnKey(k, line)
  {
    assert [line][1..] == [];
  }

  // ----- What replay does to one key, without a clock

  /** Data and TTL of a key that is not deleted. */
  type KeyState = Option<(Data, Int64)>

  function StateOf(m: Table, k: string): KeyState {
    if Deletable(m, k) then Some((m[k].data, m[k].ttl)) else None
  }

  lemma SameIsSameState(s: Table, r: Table)
    ensures Same(s, r) <==> forall k :: StateOf(s, k) == StateOf(r, k)
  {
    assert forall k :: SameKey(s, r, k) <==> StateOf(s, k) == StateOf(r, k);
  }

  /** An entry that lives for zero seconds is gone at once. */
  function Alive(st: KeyState): Option<Data> {
    if st.Some? && st.value.1 != 0 then Some(st.value.0) else None
  }

  function KeyStep(st: KeyState, c: Command): KeyState {
    match c
    case Set(_, v, ttl) => Some((Str(v), ttl))
    case Del(_) => None
    case LPush(_, v, ttl) => (
      match Alive(st)
      case None => Some((List([v]), ttl))
      case Some(List(l)) => Some((List(l + [v]), st.value.1))
      case Some(_) => st
    )
    case HSet(_, f, v, ttl) => (
      match Alive(st)
      case None => Some((Hash(map[f := v]), ttl))
      case Some(Hash(h)) => Some((Hash(h[f := v]), st.value.1))
      case Some(_) => st
    )
    case _ => st
  }

  function KeyRun(st: KeyState, cs: seq<Command>): KeyState
    decreases |cs|
  {
    if cs == [] then st else KeyRun(KeyStep(st, cs[0]), cs[1..])
  }

  lemma {:induction false} KeyRunOfAppend(st: KeyState, a: seq<Command>, b: seq<Command>)
    ensures KeyRun(st, a + b) == KeyRun(KeyRun(st, a), b)
    decreases |a|
  {
    hide KeyStep;
    if a == [] {
      assert a + b == b;
    } else {
      assert (a + b)[0] == a[0] && (a + b)[1..] == a[1..] + b;
      KeyRunOfAppend(KeyStep(st, a[0]), a[1..], b);
    }
  }

  lemma LineOnKey(m: Table, line: string, at: Time, k: string)
    requires Calm(m, at)
    ensures StateOf(ReplayLine(m, line, at), k) == KeyRun(StateOf(m, k), OnKey(k, line))
  {
    hide ParseLine;
    if ParseLine(line).Some? {
      CommandOnKey(m, ParseLine(line).value, at, k);
    }
  }

  lemma CommandOnKey(m: Table, c: Command, at: Time, k: string)
    requires Calm(m, at)
    ensures StateOf(Exec(m, c, at, false).table, k) ==
            if KeyOf(c) == Some(k) then KeyStep(StateOf(m, k), c) else StateOf(m, k)
  {
    if KeyOf(c) == Some(k) && Deletable(m, k) {
      assert Visible(m, k, at) <==> m[k].ttl != 0;
    }
  }

  /** A calm replay treats each key by its own lines alone, and the clock does not matter. */
  lemma {:induction false} ReplayPerKey(m: Table, lines: seq<string>, clock: nat -> Time, i: nat, k: string)
    requires CalmReplay(m, lines, clock, i)
    ensures StateOf(ReplayLines(m, lines, clock, i), k) == KeyRun(StateOf(m, k), ForKey(k, lines))
    decreases |lines|
  {
    hide ReplayLine, Calm, OnKey, StateOf, KeyStep;
    if lines != [] {
      var m' := ReplayLine(m, lines[0], clock(i));
      LineOnKey(m, lines[0], clock(i), k);
      ReplayPerKey(m', lines[1..], clock, i + 1, k);
      KeyRunOfAppend(StateOf(m, k), OnKey(k, lines[0]), ForKey(k, lines[1..]));
    }
  }

  // ----- Only what follows the last SET or DEL counts

  predicate Resets(c: Command) {
    c.Set? || c.Del?
  }

  /** The commands from the last SET or DEL on. */
  function Tail(cs: seq<Command>): seq<Command> {
    if cs == [] then []
    else
      var n := |cs| - 1;
      (if Resets(cs[n]) then [] else Tail(cs[..n])) + [cs[n]]
  }

  lemma {:induction false} OnlyTailMatters(st: KeyState, cs: seq<Command>)
    ensures KeyRun(st, cs) == KeyRun(st, Tail(cs))
  {
    hide KeyRun;
    if cs != [] {
      var n := |cs| - 1;
      assert cs == cs[..n] + [cs[n]];
      KeyRunOfAppend(st, cs[..n], [cs[n]]);
      if Resets(cs[n]) {
        RunOfReset(KeyRun(st, cs[..n]), st, cs[n]);
        assert Tail(cs) == [cs[n]];
      } else {
        OnlyTailMatters(st, cs[..n]);
        KeyRunOfAppend(st, Tail(cs[..n]), [cs[n]]);
      }
    }
  }

  lemma RunOfReset(st: KeyState, st': KeyState, c: Command)
    requires Resets(c)
    ensures KeyRun(st, [c]) == KeyRun(st', [c]) == KeyStep(None, c)
  {
    assert [c][1..] == [];
    assert KeyRun(st, [c]) == KeyRun(KeyStep(st, c), []);
    assert KeyRun(st', [c]) == KeyRun(KeyStep(st', c), []);
  }

  ghost predicate SameTails(a: seq<string>, b: seq<string>) {
    forall k :: Tail(ForKey(k, a)) == Tail(ForKey(k, b))
  }

  /** Two logs that agree, key by key, from the last SET or DEL on rebuild the same table. */
  lemma TailOrderSuffices(q: Table, r: Table, a: seq<string>, b: seq<string>,
                          ca: nat -> Time, cb: nat -> Time, i: nat, j: nat)
    requires Same(q, r) && SameTails(a, b)
    requires CalmReplay(q, a, ca, i) && CalmReplay(r, b, cb, j)
    ensures Same(ReplayLines(q, a, ca, i), ReplayLines(r, b, cb, j))
  {
    hide Same, CalmReplay, ReplayLines, KeyRun, StateOf, ForKey, Tail;
    SameIsSameState(q, r);
    var q', r' := ReplayLines(q, a, ca, i), ReplayLines(r, b, cb, j);
    forall k
      ensures StateOf(q', k) == StateOf(r', k)
    {
      ReplayPerKey(q, a, ca, i, k);
      ReplayPerKey(r, b, cb, j, k);
      OnlyTailMatters(StateOf(q, k), ForKey(k, a));
      OnlyTailMatters(StateOf(q, k), ForKey(k, b));
    }
    SameIsSameState(q', r');
  }

  /** In particular: logs with the same lines in the same order for every key, whatever the order between keys. */
  lemma PerKeyOrderSuffices(r: Table, a: seq<string>, b: seq<string>, ca: nat -> Time, cb: nat -> Time, i: nat, j: nat)
    requires forall k :: ForKey(k, a) == ForKey(k, b)
    requires CalmReplay(r, a, ca, i) && CalmReplay(r, b, cb, j)
    ensures Same(ReplayLines(r, a, ca, i), ReplayLines(r, b, cb, j))
  {
    hide Same, CalmReplay, ReplayLines, ForKey, Tail;
    SameIsSameState(r, r);
    TailOrderSuffices(r, r, a, b, ca, cb, i, j);
  }

  // ----- The table that wrote the log

  /** The table with every entry that is not deleted created at `t`. */
  function Refreshed(m: Table, t: Time): Table {
    map k | k in m && !m[k].tombstoned :: Entry(m[k].data, t, m[k].ttl, false)
  }

  lemma RefreshedIsSame(m: Table, t: Time)
    ensures Same(m, Refreshed(m, t)) && Calm(Refreshed(m, t), t)
  {
    assert forall k :: SameKey(m, Refreshed(m, t), k);
  }

  /** While the clock stands still nothing expires that lives at least a second. */
  lemma {:induction false} FrozenIsCalm(m: Table, lines: seq<string>, clock: nat -> Time, i: nat, t: Time)
    requires Calm(m, t) && forall n :: clock(n) == t
    ensures CalmReplay(m, lines, clock, i)
    decreases |lines|
  {
    hide ParseLine;
    if lines != [] {
      var m' := ReplayLine(m, lines[0], t);
      FrozenIsCalm(m', lines[1..], clock, i + 1, t);
    }
  }

  /** As long as no event diverges, each key of the table is what its own log lines make of it. */
  lemma TableIsKeyRun(s: Table, events: seq<Event>, now: Time, k: string)
    requires TableOk(s, now) && FactoryRun(events) && Monotone(events, now) && NeverDiverges(s, events)
    ensures var (m, lines) := RunLogged(s, events);
            StateOf(m, k) == KeyRun(StateOf(s, k), ForKey(k, lines))
  {
    hide Same, CalmReplay, ReplayLines, KeyRun, StateOf, ForKey, RunLogged, TableOk, Calm,
         FactoryRun, Monotone, NeverDiverges, Refreshed;
    var (m, lines) := RunLogged(s, events);
    var r, clock := Refreshed(s, now), (n: nat) => now;
    RefreshedIsSame(s, now);
    FrozenIsCalm(r, lines, clock, 0, now);
    RestartRebuilds(s, r, events, now, clock, 0);
    assert RebuiltAt(s, r, events, clock, 0, |events|);
    assert events[..|events|] == events;
    ReplayPerKey(r, lines, clock, 0, k);
    SameIsSameState(m, ReplayLines(r, lines, clock, 0));
    SameIsSameState(s, r);
  }

  /**
   A restart rebuilds the table from any log that has, for every key, the lines the run
   applied since that key's last SET or DEL, in the order it applied them.
   */
  lemma ShuffledLogRebuilds(s: Table, events: seq<Event>, now: Time, r: Table, log: seq<string>,
                            clock: nat -> Time, i: nat)
    requires TableOk(s, now) && FactoryRun(events) && Monotone(events, now) && NeverDiverges(s, events)
    requires Same(s, r) && CalmReplay(r, log, clock, i)
    requires SameTails(log, RunLogged(s, events).1)
    ensures Same(RunLogged(s, events).0, ReplayLines(r, log, clock, i))
  {
    hide Same, CalmReplay, ReplayLines, KeyRun, StateOf, ForKey, Tail, RunLogged, TableOk,
         FactoryRun, Monotone, NeverDiverges;
    var (m, lines) := RunLogged(s, events);
    var r' := ReplayLines(r, log, clock, i);
    SameIsSameState(s, r);
    forall k
      ensures StateOf(m, k) == StateOf(r', k)
    {
      TableIsKeyRun(s, events, now, k);
      ReplayPerKey(r, log, clock, i, k);
      OnlyTailMatters(StateOf(s, k), ForKey(k, log));
      OnlyTailMatters(StateOf(s, k), ForKey(k, lines));
    }
    SameIsSameState(m, r');
  }

  // ----- Restart of a server that was itself restarted

  predicate Rising(clock: nat -> Time, n: nat) {
    forall i: nat :: i < n ==> clock(i) <= clock(i + 1)
  }

  lemma LineKeepsTableOk(m: Table, line: string, at: Time)
    requires TableOk(m, at)
    ensures TableOk(ReplayLine(m, line, at), at)
  {
    ParsedIsFactoryMade(line);
    if ParseLine(line).Some? {
      ExecKeepsTableOk(m, ParseLine(line).value, at, false);
    }
  }

  lemma LaterTableOk(m: Table, now: Time, later: Time)
    requires TableOk(m, now) && now <= later
    ensures TableOk(m, later)
  {
  }

  /** Whatever the file holds, what it rebuilds is a well formed table. */
  lemma {:induction false} ReplayKeepsTableOk(m: Table, lines: seq<string>, clock: nat -> Time, i: nat)
    requires TableOk(m, clock(i)) && Rising(clock, i + |lines|)
    ensures TableOk(ReplayLines(m, lines, clock, i), clock(i + |lines|))
    decreases |lines|
  {
    hide TableOk, ReplayLine;
    if lines != [] {
      LineKeepsTableOk(m, lines[0], clock(i));
      var m' := ReplayLine(m, lines[0], clock(i));
      LaterTableOk(m', clock(i), clock(i + 1));
      ReplayKeepsTableOk(m', lines[1..], clock, i + 1);
    }
  }

  /** What a server has in its table before it takes requests. */
  function Booted(file: seq<string>, boot: nat -> Time): Table {
    ReplayLines(map[], file, boot, 0)
  }

  lemma BootedTableOk(file: seq<string>, boot: nat -> Time, start: Time)
    requires Rising(boot, |file|) && boot(|file|) <= start
    ensures TableOk(Booted(file, boot), start)
  {
    ReplayKeepsTableOk(map[], file, boot, 0);
    hide TableOk;
    LaterTableOk(Booted(file, boot), boot(|file|), start);
  }

  /**
   A server that started from any file, itself perhaps written by many servers before it,
   and appends its log to that file: the next restart rebuilds its table.
   */
  lemma AnyGenerationRebuilds(file: seq<string>, boot: nat -> Time, events: seq<Event>, start: Time,
                              log: seq<string>, clock: nat -> Time)
    requires Rising(boot, |file|) && boot(|file|) <= start && CalmReplay(map[], file, boot, 0)
    requires FactoryRun(events) && Monotone(events, start) && NeverDiverges(Booted(file, boot), events)
    requires SameTails(log, RunLogged(Booted(file, boot), events).1)
    requires CalmReplay(map[], file + log, clock, 0)
    ensures Same(RunLogged(Booted(file, boot), events).0, ReplayLines(map[], file + log, clock, 0))
  {
    hide Same, CalmReplay, ReplayLines, ForKey, Tail, RunLogged, TableOk, FactoryRun, Monotone, NeverDiverges;
    BootedTableOk(file, boot, start);
    ReplayOfAppend(map[], file, log, clock, 0);
    PerKeyOrderSuffices(map[], file, file, boot, clock, 0, 0);
    ShuffledLogRebuilds(Booted(file, boot), events, start, ReplayLines(map[], file, clock, 0), log, clock, |file|);
  }

  // ----- When the last line of a key is a SET or DEL: exactly when the key comes back

  lemma {:induction false} ReplayLeavesOthers(m: Table, lines: seq<string>, clock: nat -> Time, i: nat, k: string)
    requires ForKey(k, lines) == []
    ensures StateOf(ReplayLines(m, lines, clock, i), k) == StateOf(m, k)
    decreases |lines|
  {
    hide ParseLine;
    if lines != [] {
      var m' := ReplayLine(m, lines[0], clock(i));
      assert OnKey(k, lines[0]) == [];
      if ParseLine(lines[0]).Some? {
        ExecOtherKeys(m, ParseLine(lines[0]).value, clock(i), false, k);
      }
      ReplayLeavesOthers(m', lines[1..], clock, i + 1, k);
    }
  }

  /** The last SET or DEL of a key in the log leaves its mark, calm or not. */
  lemma {:induction false} LastResetShows(m: Table, lines: seq<string>, clock: nat -> Time, i: nat, k: string)
    requires var cs := ForKey(k, lines); cs != [] && Resets(cs[|cs| - 1])
    ensures var cs := ForKey(k, lines);
            StateOf(ReplayLines(m, lines, clock, i), k) == KeyStep(None, cs[|cs| - 1])
    decreases |lines|
  {
    hide ParseLine;
    var m' := ReplayLine(m, lines[0], clock(i));
    if ForKey(k, lines[1..]) == [] {
      ReplayLeavesOthers(m', lines[1..], clock, i + 1, k);
      assert OnKey(k, lines[0]) == ForKey(k, lines);
    } else {
      LastResetShows(m', lines[1..], clock, i + 1, k);
    }
  }

  /** What the table shows after a command on the key has been applied and logged. */
  predicate Shows(st: KeyState, c: Command) {
    match c
    case Set(_, v, ttl) => st == Some((Str(v), ttl))
    case Del(_) => st == None
    case LPush(_, _, _) => st.Some? && st.value.0.List?
    case HSet(_, _, _, _) => st.Some? && st.value.0.Hash?
    case _ => false
  }

  lemma LoggedCommandShows(m: Table, c: Command, now: Time, oom: bool)
    requires Exec(m, c, now, oom).log != []
    ensures !c.Ping? && Exec(m, c, now, oom).log == [Serialize(c)]
    ensures Shows(StateOf(Exec(m, c, now, oom).table, c.key), c)
  {
    hide Serialize;
  }

  lemma SerializedOnKey(k: string, c: Command)
    requires FactoryMade(c) && !c.Ping?
    ensures ForKey(k, [Serialize(c)]) == if c.key == k then [c] else []
  {
    hide Serialize, ParseLine, FactoryMade;
    RoundTrip(c);
    ForKeyOfOne(k, Serialize(c));
  }

  /** One event: the line it logs is about the one key it changes. */
  lemma EventOnKey(m: Table, e: Event, k: string)
    requires TableOk(m, e.at) && FactoryEvent(e)
    ensures var (m', lines) := Step(m, e);
            if ForKey(k, lines) == [] then StateOf(m', k) == StateOf(m, k)
            else |ForKey(k, lines)| == 1 && Shows(StateOf(m', k), ForKey(k, lines)[0])
  {
    hide Serialize, ForKey, FactoryMade, IsWord, EntryOk, Shows;
    match e
    case Do(c, at, oom) =>
      hide Exec;
      ExecWithoutLog(m, c, at, oom);
      if Exec(m, c, at, oom).log != [] {
        LoggedCommandShows(m, c, at, oom);
        SerializedOnKey(k, c);
        if c.key != k {
          ExecOtherKeys(m, c, at, oom, k);
        }
      } else {
        NothingForKey(k);
      }
    case SweepKey(key, at) =>
      NothingForKey(k);
      if Sweepable(m, key, at) {
        SweptShows(m, key, at, k);
      }
  }

  lemma SweptShows(m: Table, key: string, at: Time, k: string)
    requires TableOk(m, at) && Sweepable(m, key, at)
    ensures ForKey(k, ["DEL " + key]) == if key == k then [Del(key)] else []
    ensures Shows(StateOf(m - {key}, key), Del(key))
    ensures k != key ==> StateOf(m - {key}, k) == StateOf(m, k)
  {
    SerializedOnKey(k, Del(key));
  }

  lemma {:induction false} QuietOnKey(m: Table, events: seq<Event>, now: Time, k: string)
    requires TableOk(m, now) && FactoryRun(events) && Monotone(events, now)
    requires ForKey(k, RunLogged(m, events).1) == []
    ensures StateOf(RunLogged(m, events).0, k) == StateOf(m, k)
    decreases |events|
  {
    hide Step, ForKey, StateOf, TableOk;
    if events != [] {
      FirstOnKey(m, events, now, k);
      QuietOnKey(Step(m, events[0]).0, events[1..], events[0].at, k);
    }
  }

  lemma FirstOnKey(m: Table, events: seq<Event>, now: Time, k: string)
    requires events != [] && TableOk(m, now) && FactoryRun(events) && Monotone(events, now)
    ensures var (m', lines) := Step(m, events[0]);
            && TableOk(m', events[0].at) && FactoryRun(events[1..]) && Monotone(events[1..], events[0].at)
            && ForKey(k, RunLogged(m, events).1) == ForKey(k, lines) + ForKey(k, RunLogged(m', events[1..]).1)
            && if ForKey(k, lines) == [] then StateOf(m', k) == StateOf(m, k)
               else |ForKey(k, lines)| == 1 && Shows(StateOf(m', k), ForKey(k, lines)[0])
  {
    var (m', lines) := Step(m, events[0]);
    StepKeepsTableOk(m, events[0]);
    EventOnKey(m, events[0], k);
    hide Step, ForKey, StateOf, Shows;
    ForKeyOfAppend(k, lines, RunLogged(m', events[1..]).1);
  }

  lemma {:induction false} LastAppliedShows(m: Table, events: seq<Event>, now: Time, k: string)
    requires TableOk(m, now) && FactoryRun(events) && Monotone(events, now)
    requires ForKey(k, RunLogged(m, events).1) != []
    ensures var (m', lines) := RunLogged(m, events);
            var cs := ForKey(k, lines);
            Shows(StateOf(m', k), cs[|cs| - 1])
    decreases |events|
  {
    hide Step, ForKey, StateOf, Shows, TableOk;
    if events == [] {
      NothingForKey(k);
    } else {
      var (m', lines) := Step(m, events[0]);
      FirstOnKey(m, events, now, k);
      if ForKey(k, RunLogged(m', events[1..]).1) == [] {
        QuietOnKey(m', events[1..], events[0].at, k);
      } else {
        LastAppliedShows(m', events[1..], events[0].at, k);
      }
    }
  }

  lemma NothingForKey(k: string)
    ensures ForKey(k, []) == []
  {
  }

  /**
   Whatever order the log is in, and whether or not the run diverges: a key whose last
   line in the log is a SET or DEL comes back if and only if that line is the last one
   that was applied to it.
   */
  lemma LastLineDecides(s: Table, events: seq<Event>, now: Time, r: Table, log: seq<string>,
                        clock: nat -> Time, i: nat, k: string)
    requires TableOk(s, now) && FactoryRun(events) && Monotone(events, now)
    requires ForKey(k, RunLogged(s, events).1) != []
    requires var logged := ForKey(k, log); logged != [] && Resets(logged[|logged| - 1])
    ensures var (m, lines) := RunLogged(s, events);
            var applied, logged := ForKey(k, lines), ForKey(k, log);
            SameKey(m, ReplayLines(r, log, clock, i), k) <==> applied[|applied| - 1] == logged[|logged| - 1]
  {
    hide RunLogged, ReplayLines, ForKey, StateOf, KeyStep, Shows, SameKey, TableOk, FactoryRun, Monotone;
    var (m, lines) := RunLogged(s, events);
    var applied, logged := ForKey(k, lines), ForKey(k, log);
    LastAppliedShows(s, events, now, k);
    LastResetShows(r, log, clock, i, k);
    LastIsOnKey(k, lines);
    LastIsOnKey(k, log);
    ShowsDecides(StateOf(m, k), applied[|applied| - 1], logged[|logged| - 1]);
    SameKeyIsSameState(m, ReplayLines(r, log, clock, i), k);
  }

  lemma SameKeyIsSameState(s: Table, r: Table, k: string)
    ensures SameKey(s, r, k) <==> StateOf(s, k) == StateOf(r, k)
  {
  }

  lemma ShowsDecides(st: KeyState, c: Command, d: Command)
    requires Shows(st, c) && Resets(d) && KeyOf(c) == KeyOf(d)
    ensures st == KeyStep(None, d) <==> c == d
  {
  }

  lemma {:induction false} LastIsOnKey(k: string, lines: seq<string>)
    ensures forall c :: c in ForKey(k, lines) ==> KeyOf(c) == Some(k)
  {
    if lines != [] {
      LastIsOnKey(k, lines[1..]);
    }
  }

  // ----- When it is an LPUSH or HSET: what has been pushed or set since the last SET or DEL

  /** A SET whose value is still there when the next command comes. */
  predicate Lasting(c: Command) {
    c.Set? && c.ttl != 0
  }

  predicate PushTail(cs: seq<Command>) {
    |cs| >= 2 && Resets(cs[0]) && forall i :: 1 <= i < |cs| ==> cs[i].LPush? && cs[i].ttl == DEFAULT_TTL
  }

  predicate FieldTail(cs: seq<Command>) {
    |cs| >= 2 && Resets(cs[0]) && forall i :: 1 <= i < |cs| ==> cs[i].HSet? && cs[i].ttl == DEFAULT_TTL
  }

  /** The values pushed, in order. */
  function Pushes(cs: seq<Command>): seq<string>
    requires cs != []
  {
    seq(|cs| - 1, i requires 0 <= i < |cs| - 1 => if cs[i + 1].LPush? then cs[i + 1].value else "")
  }

  /** For every field the value it was set to last. */
  function LastValues(cs: seq<Command>): map<string, string> {
    if cs == [] then map[]
    else
      var n := |cs| - 1;
      if cs[n].HSet? then LastValues(cs[..n])[cs[n].field := cs[n].value] else LastValues(cs[..n])
  }

  lemma RunOfLast(st: KeyState, cs: seq<Command>)
    requires cs != []
    ensures KeyRun(st, cs) == KeyStep(KeyRun(st, cs[..|cs| - 1]), cs[|cs| - 1])
  {
    var n := |cs| - 1;
    assert cs == cs[..n] + [cs[n]] && [cs[n]][1..] == [];
    KeyRunOfAppend(st, cs[..n], [cs[n]]);
    assert KeyRun(KeyRun(st, cs[..n]), [cs[n]]) == KeyRun(KeyStep(KeyRun(st, cs[..n]), cs[n]), []);
  }

  lemma {:induction false} RunOfPushes(st: KeyState, cs: seq<Command>)
    requires PushTail(cs)
    ensures KeyRun(st, cs) == if Lasting(cs[0]) then KeyStep(None, cs[0]) else Some((List(Pushes(cs)), DEFAULT_TTL))
    decreases |cs|
  {
    var n := |cs| - 1;
    hide KeyRun;
    RunOfLast(st, cs);
    if n == 1 {
      assert cs[..1] == [cs[0]];
      RunOfReset(st, st, cs[0]);
      assert Pushes(cs) == [cs[1].value];
    } else {
      RunOfPushes(st, cs[..n]);
      assert Pushes(cs) == Pushes(cs[..n]) + [cs[n].value];
    }
  }

  lemma {:induction false} RunOfFields(st: KeyState, cs: seq<Command>)
    requires FieldTail(cs)
    ensures KeyRun(st, cs) == if Lasting(cs[0]) then KeyStep(None, cs[0]) else Some((Hash(LastValues(cs)), DEFAULT_TTL))
    decreases |cs|
  {
    var n := |cs| - 1;
    hide KeyRun;
    RunOfLast(st, cs);
    if n == 1 {
      assert cs[..1] == [cs[0]];
      RunOfReset(st, st, cs[0]);
      NoFieldsYet(cs[0]);
      assert cs[..1] == [cs[0]] && LastValues(cs) == map[][cs[1].field := cs[1].value];
    } else {
      RunOfFields(st, cs[..n]);
    }
  }

  lemma NoFieldsYet(c: Command)
    requires Resets(c)
    ensures LastValues([c]) == map[]
  {
    assert [c][..0] == [];
  }

  /** A key that holds nothing at first is as good as deleted. */
  predicate FromNothing(st: KeyState, cs: seq<Command>) {
    st == None || (cs != [] && Resets(cs[0]))
  }

  function Headed(k: string, cs: seq<Command>): seq<Command> {
    if cs != [] && Resets(cs[0]) then cs else [Del(k)] + cs
  }

  lemma RunOfHeaded(st: KeyState, k: string, cs: seq<Command>)
    requires FromNothing(st, cs)
    ensures KeyRun(st, cs) == KeyRun(None, Headed(k, cs)) && Resets(Headed(k, cs)[0])
  {
    hide KeyRun;
    if cs != [] && Resets(cs[0]) {
      assert cs == [cs[0]] + cs[1..];
      KeyRunOfAppend(st, [cs[0]], cs[1..]);
      KeyRunOfAppend(None, [cs[0]], cs[1..]);
      RunOfReset(st, None, cs[0]);
    } else {
      KeyRunOfAppend(None, [Del(k)], cs);
      RunOfReset(None, None, Del(k));
    }
  }

  /**
   A list comes back if and only if the log has, after its last SET or DEL of the key, the
   values pushed since the one that took effect last, and no lasting SET in front of them. A
   key that held nothing at the start needs no SET or DEL.
   */
  lemma ListsDecide(s: Table, events: seq<Event>, now: Time, r: Table, log: seq<string>,
                    clock: nat -> Time, i: nat, k: string)
    requires TableOk(s, now) && FactoryRun(events) && Monotone(events, now) && NeverDiverges(s, events)
    requires CalmReplay(r, log, clock, i)
    requires var a := Tail(ForKey(k, RunLogged(s, events).1));
             FromNothing(StateOf(s, k), a) && PushTail(Headed(k, a)) && !Lasting(Headed(k, a)[0])
    requires var b := Tail(ForKey(k, log)); FromNothing(StateOf(r, k), b) && PushTail(Headed(k, b))
    ensures var (m, lines) := RunLogged(s, events);
            var a, b := Headed(k, Tail(ForKey(k, lines))), Headed(k, Tail(ForKey(k, log)));
            SameKey(m, ReplayLines(r, log, clock, i), k) <==> !Lasting(b[0]) && Pushes(b) == Pushes(a)
  {
    var (m, lines) := RunLogged(s, events);
    var a, b := Tail(ForKey(k, lines)), Tail(ForKey(k, log));
    TailsTell(s, events, now, r, log, clock, i, k);
    hide RunLogged, ReplayLines, ForKey, Tail, StateOf, KeyRun, SameKey, Pushes, TableOk, CalmReplay, NeverDiverges,
         Headed;
    RunOfHeaded(StateOf(s, k), k, a);
    RunOfHeaded(StateOf(r, k), k, b);
    RunOfPushes(None, Headed(k, a));
    RunOfPushes(None, Headed(k, b));
  }

  /** A hash comes back if and only if they agree on the value each field was set to last. */
  lemma HashesDecide(s: Table, events: seq<Event>, now: Time, r: Table, log: seq<string>,
                     clock: nat -> Time, i: nat, k: string)
    requires TableOk(s, now) && FactoryRun(events) && Monotone(events, now) && NeverDiverges(s, events)
    requires CalmReplay(r, log, clock, i)
    requires var a := Tail(ForKey(k, RunLogged(s, events).1));
             FromNothing(StateOf(s, k), a) && FieldTail(Headed(k, a)) && !Lasting(Headed(k, a)[0])
    requires var b := Tail(ForKey(k, log)); FromNothing(StateOf(r, k), b) && FieldTail(Headed(k, b))
    ensures var (m, lines) := RunLogged(s, events);
            var a, b := Headed(k, Tail(ForKey(k, lines))), Headed(k, Tail(ForKey(k, log)));
            SameKey(m, ReplayLines(r, log, clock, i), k) <==> !Lasting(b[0]) && LastValues(b) == LastValues(a)
  {
    var (m, lines) := RunLogged(s, events);
    var a, b := Tail(ForKey(k, lines)), Tail(ForKey(k, log));
    TailsTell(s, events, now, r, log, clock, i, k);
    hide RunLogged, ReplayLines, ForKey, Tail, StateOf, KeyRun, SameKey, LastValues, TableOk, CalmReplay, NeverDiverges,
         Headed;
    RunOfHeaded(StateOf(s, k), k, a);
    RunOfHeaded(StateOf(r, k), k, b);
    RunOfFields(None, Headed(k, a));
    RunOfFields(None, Headed(k, b));
  }

  /** The tails of the applied and of the logged lines tell whether a key comes back. */
  lemma TailsTell(s: Table, events: seq<Event>, now: Time, r: Table, log: seq<string>,
                  clock: nat -> Time, i: nat, k: string)
    requires TableOk(s, now) && FactoryRun(events) && Monotone(events, now) && NeverDiverges(s, events)
    requires CalmReplay(r, log, clock, i)
    ensures var (m, lines) := RunLogged(s, events);
            SameKey(m, ReplayLines(r, log, clock, i), k) <==>
            KeyRun(StateOf(s, k), Tail(ForKey(k, lines))) == KeyRun(StateOf(r, k), Tail(ForKey(k, log)))
  {
    hide RunLogged, ReplayLines, ForKey, Tail, StateOf, KeyRun, SameKey, TableOk, CalmReplay, NeverDiverges, FactoryRun,
         Monotone;
    var (m, lines) := RunLogged(s, events);
    TableIsKeyRun(s, events, now, k);
    ReplayPerKey(r, log, clock, i, k);
    OnlyTailMatters(StateOf(s, k), ForKey(k, lines));
    OnlyTailMatters(StateOf(r, k), ForKey(k, log));
    SameKeyIsSameState(m, ReplayLines(r, log, clock, i), k);
  }
}
