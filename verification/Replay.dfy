/**
 Restart: executing the append-only log rebuilds the table it was written for. Applying
 a command and logging it are one atomic step here.
 */
module Replay {
  import opened Text
  import opened Framing
  import opened Commands
  import opened Store
  import opened Flat

  // ----- The run that writes the log

  function Step(m: Table, e: Event): (Table, seq<string>) {
    match e
    case Do(c, at, oom) => var out := Exec(m, c, at, oom); (out.table, out.log)
    case SweepKey(k, at) => Sweep(m, k, at)
  }

  function RunLogged(m: Table, events: seq<Event>): (Table, seq<string>)
    decreases |events|
  {
    if events == [] then (m, [])
    else
      var (m', lines) := Step(m, events[0]);
      var (m'', more) := RunLogged(m', events[1..]);
      (m'', lines + more)
  }

  // ----- The replay loop

  /** The clock reads `clock(i)` when line `i` of the file is executed. */
  function ReplayLines(m: Table, lines: seq<string>, clock: nat -> Time, i: nat): Table
    decreases |lines|
  {
    if lines == [] then m
    else ReplayLines(ReplayLine(m, lines[0], clock(i)), lines[1..], clock, i + 1)
  }

  /** Memory was enough for the table once. */
  function ReplayLine(m: Table, line: string, at: Time): Table {
    ReplayedLine(m, line, at, false)
  }

  /** The same loop when memory may run out: `oom(i)` says that it does at line `i`. */
  function Replayed(m: Table, lines: seq<string>, clock: nat -> Time, oom: nat -> bool, i: nat): Table
    decreases |lines|
  {
    if lines == [] then m
    else Replayed(ReplayedLine(m, lines[0], clock(i), oom(i)), lines[1..], clock, oom, i + 1)
  }

  /** Lines that are not commands are skipped. */
  function ReplayedLine(m: Table, line: string, at: Time, oom: bool): Table {
    match ParseLine(line)
    case Some(c) => Exec(m, c, at, oom).table
    case None => m
  }

  lemma {:induction false} ReplayedWithMemory(m: Table, lines: seq<string>, clock: nat -> Time,
                                              oom: nat -> bool, i: nat)
    requires forall n :: !oom(n)
    ensures Replayed(m, lines, clock, oom, i) == ReplayLines(m, lines, clock, i)
    decreases |lines|
  {
    hide ParseLine, Exec;
    if lines != [] {
      ReplayedWithMemory(ReplayLine(m, lines[0], clock(i)), lines[1..], clock, oom, i + 1);
    }
  }

  /** Only entries that live for zero seconds are expired. */
  predicate Calm(m: Table, now: Time) {
    forall k :: k in m ==> m[k].createdAt <= now && (IsExpired(m[k], now) ==> m[k].ttl == 0)
  }

  /** No entry that lives at least a second expires while the file is executed. */
  predicate CalmReplay(m: Table, lines: seq<string>, clock: nat -> Time, i: nat)
    decreases |lines|
  {
    lines == [] || (Calm(m, clock(i)) && CalmReplay(ReplayLine(m, lines[0], clock(i)), lines[1..], clock, i + 1))
  }

  // ----- What is rebuilt

  /** Timestamps aside: same keys alive or deleted, with the same data and TTL. */
  predicate SameKey(s: Table, r: Table, k: string) {
    && (Deletable(s, k) <==> Deletable(r, k))
    && (Deletable(s, k) ==> s[k].data == r[k].data && s[k].ttl == r[k].ttl)
  }

  ghost predicate Same(s: Table, r: Table) {
    forall k: string :: SameKey(s, r, k)
  }

  /** HSET of the only field of an expired hash happens to leave what a replay leaves. */
  predicate Coincides(e: Entry, c: Command) {
    c.HSet? && e.data.Hash? && e.data.fields.Keys <= {c.field} && e.ttl == c.ttl
  }

  /**
   LPUSH or HSET on a key that has expired but is still stored: the server starts a new
   value, but nothing in the log says that the old one was gone.
   */
  predicate Diverges(m: Table, e: Event) {
    && e.Do? && (e.command.LPush? || e.command.HSet?) && !e.oom
    && Deletable(m, e.command.key)
    && IsExpired(m[e.command.key], e.at) && m[e.command.key].ttl > 0
    && !Coincides(m[e.command.key], e.command)
  }

  predicate FactoryEvent(e: Event) {
    e.Do? ==> FactoryMade(e.command)
  }

  lemma ExecOtherKeys(m: Table, c: Command, now: Time, oom: bool, k: string)
    requires c.Ping? || c.key != k
    ensures var m' := Exec(m, c, now, oom).table;
            (k in m' <==> k in m) && (k in m ==> m'[k] == m[k])
  {
  }

  lemma ExecWithoutLog(m: Table, c: Command, now: Time, oom: bool)
    ensures var out := Exec(m, c, now, oom);
            out.log == [] || out.log == [Serialize(c)]
    ensures Exec(m, c, now, oom).log == [] ==> Exec(m, c, now, oom).table == m
  {
  }

  /** A logged command does to the key what its replay does, unless it diverges. */
  lemma LoggedCommandTracks(s: Table, r: Table, c: Command, now: Time, oom: bool, at: Time)
    requires TableOk(s, now) && Calm(r, at) && Same(s, r)
    requires Exec(s, c, now, oom).log != []
    ensures SameKey(Exec(s, c, now, oom).table, Exec(r, c, at, false).table, c.key)
            <==> !Diverges(s, Do(c, now, oom))
  {
    assert SameKey(s, r, c.key);
    if Deletable(s, c.key) {
      VisibleInReplay(s, r, c.key, now, at);
      assert EntryOk(s[c.key]);
      if c.LPush? && s[c.key].data.List? {
        assert |s[c.key].data.items + [c.value]| != |[c.value]|;
      }
      if c.HSet? && s[c.key].data.Hash? {
        HashGrows(s[c.key].data.fields, c.field, c.value);
      }
    }
  }

  lemma VisibleInReplay(s: Table, r: Table, k: string, now: Time, at: Time)
    requires TableOk(s, now) && Calm(r, at) && SameKey(s, r, k) && Deletable(s, k)
    ensures Visible(r, k, at) <==> s[k].ttl != 0
    ensures s[k].ttl == 0 ==> !Visible(s, k, now)
  {
  }

  lemma HashGrows(h: map<string, string>, f: string, v: string)
    ensures h[f := v] == map[f := v] <==> h.Keys <= {f}
  {
    if h[f := v] == map[f := v] {
      assert forall g :: g in h ==> g in h[f := v];
    }
  }

  /** One event and the replay of the lines it logged. */
  lemma EventTracks(s: Table, r: Table, e: Event, clock: nat -> Time, i: nat)
    requires TableOk(s, e.at) && Same(s, r) && FactoryEvent(e)
    requires CalmReplay(r, Step(s, e).1, clock, i)
    ensures Same(Step(s, e).0, ReplayLines(r, Step(s, e).1, clock, i)) <==> !Diverges(s, e)
  {
    var (s', lines) := Step(s, e);
    if lines != [] {
      var at := clock(i);
      var c := if e.Do? then e.command else Del(e.key);
      assert lines == [Serialize(c)] by {
        if e.Do? { ExecWithoutLog(s, c, e.at, e.oom); }
      }
      RoundTrip(c);
      assert ReplayLines(r, lines, clock, i) == Exec(r, c, at, false).table;
      SameExceptOneKey(s, s', r, Exec(r, c, at, false).table, c.key) by {
        forall k | k != c.key
          ensures (k in s' <==> k in s) && (k in s ==> s'[k] == s[k])
        {
          if e.Do? { ExecOtherKeys(s, c, e.at, e.oom, k); }
        }
        forall k | k != c.key
          ensures (k in Exec(r, c, at, false).table <==> k in r)
                  && (k in r ==> Exec(r, c, at, false).table[k] == r[k])
        {
          ExecOtherKeys(r, c, at, false, k);
        }
      }
      if e.Do? {
        LoggedCommandTracks(s, r, c, e.at, e.oom, at);
      } else {
        assert SameKey(s, r, c.key);
      }
    } else if e.Do? {
      ExecWithoutLog(s, e.command, e.at, e.oom);
    }
  }

  lemma SameExceptOneKey(s: Table, s': Table, r: Table, r': Table, key: string)
    requires Same(s, r)
    requires forall k :: k != key ==> (k in s' <==> k in s) && (k in s ==> s'[k] == s[k])
    requires forall k :: k != key ==> (k in r' <==> k in r) && (k in r ==> r'[k] == r[k])
    ensures Same(s', r') <==> SameKey(s', r', key)
  {
    forall k | k != key
      ensures SameKey(s', r', k)
    {
      assert SameKey(s, r, k);
    }
  }

  // ----- Whole runs

  predicate FactoryRun(events: seq<Event>) {
    forall e :: e in events ==> FactoryEvent(e)
  }

  /** No LPUSH or HSET of the run lands on an expired entry that is still stored. */
  predicate NeverDiverges(m: Table, events: seq<Event>)
    decreases |events|
  {
    events == [] || (!Diverges(m, events[0]) && NeverDiverges(Step(m, events[0]).0, events[1..]))
  }

  lemma StepKeepsTableOk(m: Table, e: Event)
    requires TableOk(m, e.at) && FactoryEvent(e)
    ensures TableOk(Step(m, e).0, e.at)
  {
    match e
    case Do(c, at, oom) => ExecKeepsTableOk(m, c, at, oom);
    case SweepKey(k, at) => SweepKeepsTableOk(m, k, at);
  }

  /** In every reachable table: word keys, no integer entries, no empty list or hash. */
  lemma {:induction false} RunKeepsTableOk(m: Table, events: seq<Event>, now: Time)
    requires TableOk(m, now) && FactoryRun(events) && Monotone(events, now)
    ensures TableOk(RunLogged(m, events).0, LastTime(events, now))
    decreases |events|
  {
    if events != [] {
      StepKeepsTableOk(m, events[0]);
      RunKeepsTableOk(Step(m, events[0]).0, events[1..], events[0].at);
    }
  }

  lemma {:induction false} ReplayOfAppend(m: Table, a: seq<string>, b: seq<string>, clock: nat -> Time, i: nat)
    ensures ReplayLines(m, a + b, clock, i) == ReplayLines(ReplayLines(m, a, clock, i), b, clock, i + |a|)
    ensures CalmReplay(m, a + b, clock, i) <==>
            CalmReplay(m, a, clock, i) && CalmReplay(ReplayLines(m, a, clock, i), b, clock, i + |a|)
    decreases |a|
  {
    hide ReplayLine, Calm;
    if a == [] {
      assert a + b == b;
    } else {
      assert (a + b)[1..] == a[1..] + b;
      ReplayOfAppend(ReplayLine(m, a[0], clock(i)), a[1..], b, clock, i + 1);
    }
  }

  lemma {:induction false} RunLoggedOfAppend(m: Table, events: seq<Event>, e: Event)
    ensures var (m', lines) := RunLogged(m, events);
            var (m'', more) := Step(m', e);
            RunLogged(m, events + [e]) == (m'', lines + more)
    decreases |events|
  {
    hide Step;
    if events == [] {
      assert events + [e] == [e] && [e][1..] == [];
      var more := Step(m, e).1;
      assert more + [] == [] + more;
    } else {
      assert (events + [e])[0] == events[0] && (events + [e])[1..] == events[1..] + [e];
      var (m', first) := Step(m, events[0]);
      RunLoggedOfAppend(m', events[1..], e);
      var (m'', lines) := RunLogged(m', events[1..]);
      assert first + (lines + Step(m'', e).1) == first + lines + Step(m'', e).1;
    }
  }

  lemma {:induction false} MonotoneOfAppend(events: seq<Event>, e: Event, now: Time)
    requires Monotone(events, now) && LastTime(events, now) <= e.at
    ensures Monotone(events + [e], now) && LastTime(events + [e], now) == e.at
    decreases |events|
  {
    if events == [] {
      assert events + [e] == [e] && [e][1..] == [];
    } else {
      assert (events + [e])[0] == events[0] && (events + [e])[1..] == events[1..] + [e];
      MonotoneOfAppend(events[1..], e, events[0].at);
    }
  }

  /** The table after `n` events of the run, and what their log rebuilds on top of `r`. */
  ghost predicate RebuiltAt(s: Table, r: Table, events: seq<Event>, clock: nat -> Time, i: nat, n: nat)
    requires n <= |events|
  {
    var (m, lines) := RunLogged(s, events[..n]);
    Same(m, ReplayLines(r, lines, clock, i))
  }

  lemma RebuiltStep(s: Table, r: Table, events: seq<Event>, clock: nat -> Time, i: nat, n: nat)
    requires n < |events|
    ensures var (s', lines) := Step(s, events[0]);
            RebuiltAt(s, r, events, clock, i, n + 1) <==>
            RebuiltAt(s', ReplayLines(r, lines, clock, i), events[1..], clock, i + |lines|, n)
  {
    hide Step, Same, ReplayLines, CalmReplay;
    var (s', lines) := Step(s, events[0]);
    var taken := events[..n + 1];
    assert taken[0] == events[0] && taken[1..] == events[1..][..n];
    ReplayOfAppend(r, lines, RunLogged(s', events[1..][..n]).1, clock, i);
  }

  lemma RebuiltAtStart(s: Table, r: Table, events: seq<Event>, clock: nat -> Time, i: nat)
    ensures RebuiltAt(s, r, events, clock, i, 0) <==> Same(s, r)
  {
    assert events[..0] == [];
  }

  /** Wherever the run is cut, its log so far rebuilds the table so far. */
  ghost predicate AlwaysRebuilds(s: Table, r: Table, events: seq<Event>, clock: nat -> Time, i: nat) {
    forall n :: 0 <= n <= |events| ==> RebuiltAt(s, r, events, clock, i, n)
  }

  lemma AlwaysRebuildsNothing(s: Table, r: Table, clock: nat -> Time, i: nat)
    ensures AlwaysRebuilds(s, r, [], clock, i) <==> Same(s, r)
  {
    RebuiltAtStart(s, r, [], clock, i);
  }

  lemma AlwaysRebuildsStep(s: Table, r: Table, events: seq<Event>, clock: nat -> Time, i: nat)
    requires events != [] && Same(s, r)
    ensures var (s', lines) := Step(s, events[0]);
            var r' := ReplayLines(r, lines, clock, i);
            && (AlwaysRebuilds(s, r, events, clock, i) <==>
                AlwaysRebuilds(s', r', events[1..], clock, i + |lines|))
            && (AlwaysRebuilds(s, r, events, clock, i) ==> Same(s', r'))
  {
    hide RebuiltAt, Same, Step, ReplayLines;
    var (s', lines) := Step(s, events[0]);
    var r', rest, j := ReplayLines(r, lines, clock, i), events[1..], i + |lines|;
    RebuiltAtStart(s, r, events, clock, i);
    RebuiltAtStart(s', r', rest, clock, j);
    forall n | 1 <= n <= |events|
      ensures RebuiltAt(s, r, events, clock, i, n) <==> RebuiltAt(s', r', rest, clock, j, n - 1)
    {
      RebuiltStep(s, r, events, clock, i, n - 1);
    }
    if AlwaysRebuilds(s, r, events, clock, i) {
      forall n | 0 <= n <= |rest|
        ensures RebuiltAt(s', r', rest, clock, j, n)
      {
        assert RebuiltAt(s, r, events, clock, i, n + 1);
      }
    }
  }

  /** The first event of a run, and what is left for the rest of it. */
  lemma FirstEvent(s: Table, r: Table, events: seq<Event>, now: Time, clock: nat -> Time, i: nat)
    requires events != [] && TableOk(s, now) && Same(s, r)
    requires FactoryRun(events) && Monotone(events, now)
    requires CalmReplay(r, RunLogged(s, events).1, clock, i)
    ensures var (s', lines) := Step(s, events[0]);
            var r' := ReplayLines(r, lines, clock, i);
            && (Same(s', r') <==> !Diverges(s, events[0]))
            && TableOk(s', events[0].at)
            && FactoryRun(events[1..]) && Monotone(events[1..], events[0].at)
            && CalmReplay(r', RunLogged(s', events[1..]).1, clock, i + |lines|)
  {
    hide Step, Same, Diverges, ReplayLines, CalmReplay;
    var (s', lines) := Step(s, events[0]);
    ReplayOfAppend(r, lines, RunLogged(s', events[1..]).1, clock, i);
    EventTracks(s, r, events[0], clock, i);
    StepKeepsTableOk(s, events[0]);
  }

  /**
   The log is a faithful image at every moment of a run, so that a restart after any
   event rebuilds the table, exactly when no event of the run diverges.
   */
  lemma {:induction false} RestartRebuilds(s: Table, r: Table, events: seq<Event>, now: Time,
                                           clock: nat -> Time, i: nat)
    requires TableOk(s, now) && Same(s, r)
    requires FactoryRun(events) && Monotone(events, now)
    requires CalmReplay(r, RunLogged(s, events).1, clock, i)
    ensures NeverDiverges(s, events) <==> AlwaysRebuilds(s, r, events, clock, i)
    decreases |events|
  {
    hide RebuiltAt, Same, Step, ReplayLines, TableOk, Diverges, FactoryRun, Monotone, CalmReplay, RunLogged,
         AlwaysRebuilds;
    if events != [] {
      var (s', lines) := Step(s, events[0]);
      var r', rest := ReplayLines(r, lines, clock, i), events[1..];
      FirstEvent(s, r, events, now, clock, i);
      AlwaysRebuildsStep(s, r, events, clock, i);
      if Same(s', r') {
        RestartRebuilds(s', r', rest, events[0].at, clock, i + |lines|);
      }
    } else {
      AlwaysRebuildsNothing(s, r, clock, i);
    }
  }

  predicate NoCtrlZ(lines: seq<string>) {
    forall l :: l in lines ==> CTRL_Z !in l
  }

  /** A line of the log: one line that does not end in CR. */
  predicate LogLine(line: string) {
    OneLine(line) && (CTRL_Z !in line ==> Plain(line))
  }

  lemma SerializedIsLogLine(c: Command)
    requires FactoryMade(c)
    ensures LogLine(Serialize(c))
  {
    SerializedIsOneLine(c);
    hide Serialize;
  }

  /**
   Every logged line is one line of the file, and the file is read back as it was written if
   and only if no client has ever sent a Ctrl-Z in a word of a command that was logged.
   */
  lemma {:induction false} LogReadsBack(m: Table, events: seq<Event>, now: Time)
    requires TableOk(m, now) && FactoryRun(events) && Monotone(events, now)
    ensures forall l :: l in RunLogged(m, events).1 ==> LogLine(l)
    ensures TextLines(FileText(RunLogged(m, events).1)) == RunLogged(m, events).1 <==> NoCtrlZ(RunLogged(m, events).1)
    decreases |events|
  {
    hide TextLines, FileText, LogLine;
    if events != [] {
      var e := events[0];
      StepKeepsTableOk(m, e);
      LogReadsBack(Step(m, e).0, events[1..], e.at);
      StepLogsLines(m, e);
    }
    LogLinesReadBack(RunLogged(m, events).1);
  }

  lemma StepLogsLines(m: Table, e: Event)
    requires TableOk(m, e.at) && FactoryEvent(e)
    ensures forall l :: l in Step(m, e).1 ==> LogLine(l)
  {
    hide LogLine;
    if e.Do? {
      SerializedIsLogLine(e.command);
      ExecWithoutLog(m, e.command, e.at, e.oom);
    } else if Sweepable(m, e.key, e.at) {
      SerializedIsLogLine(Del(e.key));
    }
  }

  lemma LogLinesReadBack(lines: seq<string>)
    requires forall l :: l in lines ==> LogLine(l)
    ensures TextLines(FileText(lines)) == lines <==> NoCtrlZ(lines)
  {
    hide TextLines, FileText, OneLine;
    assert forall l :: l in lines ==> OneLine(l);
    TextLinesOfFileText(lines);
    assert AllPlain(lines) <==> NoCtrlZ(lines);
  }

  /** From an empty server to its restart: the file of a run that never diverges rebuilds its table. */
  lemma FileRebuilds(events: seq<Event>, clock: nat -> Time)
    requires FactoryRun(events) && Monotone(events, 0) && NeverDiverges(map[], events)
    requires CalmReplay(map[], RunLogged(map[], events).1, clock, 0) && NoCtrlZ(RunLogged(map[], events).1)
    ensures Same(RunLogged(map[], events).0,
                 ReplayLines(map[], TextLines(FileText(RunLogged(map[], events).1)), clock, 0))
  {
    hide TextLines, FileText;
    LogReadsBack(map[], events, 0);
    RestartRebuilds(map[], map[], events, 0, clock, 0);
    assert RebuiltAt(map[], map[], events, clock, 0, |events|);
    assert events[..|events|] == events;
  }

  lemma {:induction false} TextModeUpTo(p: string, rest: string)
    requires CTRL_Z !in p && '\r' !in p
    ensures TextMode(p + ([CTRL_Z] + rest)) == p
  {
    hide TextMode;
    if p == "" {
      assert p + ([CTRL_Z] + rest) == [CTRL_Z] + rest;
      TextModeAtCtrlZ(rest);
    } else {
      assert p + ([CTRL_Z] + rest) == [p[0]] + (p[1..] + ([CTRL_Z] + rest)) && p[0] in p;
      TextModeOfChar(p[0], p[1..] + ([CTRL_Z] + rest));
      TextModeUpTo(p[1..], rest);
    }
  }

  lemma ShortSetTokens(k: string)
    requires IsWord(k)
    ensures Tokens("SET " + k + " ") == ["SET", k]
  {
    NamesAreUpperCase();
    hide Tokens, IsWord;
    BlankIsSpace();
    assert "SET " + k + " " == "SET" + (" " + (k + " "));
    TokensOfWord("SET", " " + (k + " "));
    TokensSkipBlank(k + " ");
    TokensOfWord(k, " ");
    assert " " == " " + "";
    TokensSkipBlank("");
    TokensOfNothing();
  }

  lemma ParseOfShortSet(k: string)
    ensures Parse(["SET", k]) == None
  {
    NamesAreUpperCase();
    NamesDiffer();
    hide ToUpper, Stoll, IsWord;
    assert ToUpper("SET") == "SET";
  }

  lemma ShortSetIsNoCommand(k: string)
    requires IsWord(k)
    ensures ParseLine("SET " + k + " ") == None
  {
    hide Tokens, Parse;
    ShortSetTokens(k);
    ParseOfShortSet(k);
  }

  lemma RunOfTwo(m: Table, e: Event, f: Event)
    ensures var (m', lines) := Step(m, e);
            var (m'', more) := Step(m', f);
            RunLogged(m, [e, f]) == (m'', lines + more)
  {
    hide Step;
    assert [e, f] == [e] + [f] && [e][1..] == [];
    RunLoggedOfAppend(m, [e], f);
    var (m', lines) := Step(m, e);
    assert RunLogged(m, [e]) == (m', lines + []);
    assert lines + [] == lines;
  }

  /**
   A value that is a Ctrl-Z: the file ends there for its reader. That key is not rebuilt, nor
   is any key written after it.
   */
  lemma CtrlZLosesLog(k: string, j: string, v: string, ttl: Int64, clock: nat -> Time)
    requires IsWord(k) && IsWord(j) && IsWord(v) && CTRL_Z !in k
    ensures FactoryMade(Set(k, [CTRL_Z], ttl))
    ensures var events := [Do(Set(k, [CTRL_Z], ttl), 0, false), Do(Set(j, v, ttl), 0, false)];
            var (m, lines) := RunLogged(map[], events);
            && k in m && j in m && ReplayLines(map[], TextLines(FileText(lines)), clock, 0) == map[]
  {
    var c, d := Set(k, [CTRL_Z], ttl), Set(j, v, ttl);
    var (m, lines) := RunLogged(map[], [Do(c, 0, false), Do(d, 0, false)]);
    RunOfTwo(map[], Do(c, 0, false), Do(d, 0, false));
    assert lines == [Serialize(c)] + [Serialize(d)];
    assert lines[0] == Serialize(c) && lines[1..] == [Serialize(d)];
    CtrlZEndsFile(k, ttl, FileText([Serialize(d)]));
    ShortSetIsNoCommand(k);
    hide ParseLine, Serialize, TextMode, FileText;
    assert ["SET " + k + " "][1..] == [];
  }

  lemma CtrlZEndsFile(k: string, ttl: Int64, rest: string)
    requires IsWord(k) && CTRL_Z !in k
    ensures TextLines(Serialize(Set(k, [CTRL_Z], ttl)) + "\n" + rest) == ["SET " + k + " "]
  {
    var p := "SET " + k + " ";
    SetLineSplits(k, ToString(ttl), rest);
    UpToValue(k);
    hide TextMode, FileLines, ToString, IsWord;
    TextModeUpTo(p, " " + ToString(ttl) + "\n" + rest);
    UnfinishedFile(p);
  }

  lemma SetLineSplits(k: string, ttl: string, rest: string)
    ensures "SET " + k + " " + [CTRL_Z] + " " + ttl + "\n" + rest ==
            ("SET " + k + " ") + ([CTRL_Z] + (" " + ttl + "\n" + rest))
  {
  }

  lemma UpToValue(k: string)
    requires IsWord(k) && CTRL_Z !in k
    ensures var p := "SET " + k + " "; CTRL_Z !in p && '\r' !in p && OneLine(p) && p != ""
  {
    assert IsSpace('\r') && IsSpace('\n');
  }

  lemma ReplayTwo(m: Table, c: Command, d: Command, clock: nat -> Time)
    requires FactoryMade(c) && FactoryMade(d)
    ensures var m' := Exec(m, c, clock(0), false).table;
            ReplayLines(m, [Serialize(c), Serialize(d)], clock, 0) == Exec(m', d, clock(1), false).table
  {
    hide Exec, Serialize, ParseLine, FactoryMade;
    RoundTrip(c);
    RoundTrip(d);
    var lines := [Serialize(c), Serialize(d)];
    assert lines[1..] == [Serialize(d)];
    var m' := ReplayLine(m, lines[0], clock(0));
    assert ReplayLines(m', [Serialize(d)], clock, 1) == ReplayLine(m', Serialize(d), clock(1));
  }

  /**
   A family of runs that diverge: any value that expired, was not swept, and is pushed
   to again. What the file rebuilds is not the new one-element list.
   */
  lemma ExpiredValueComesBack(k: string, v: string, w: string, now: Time, clock: nat -> Time)
    requires IsWord(k) && IsWord(v) && IsWord(w) && now >= SECOND
    requires forall i :: clock(i) == 0
    ensures var m := Exec(map[], Set(k, v, 1), 0, false);
            var n := Exec(m.table, LPush(k, w, DEFAULT_TTL), now, false);
            && n.table[k].data == List([w])
            && k in ReplayLines(map[], m.log + n.log, clock, 0)
            && ReplayLines(map[], m.log + n.log, clock, 0)[k].data == Str(v)
  {
    var c, d := Set(k, v, 1), LPush(k, w, DEFAULT_TTL);
    var m := Exec(map[], c, 0, false);
    assert m.table[k] == Fresh(Str(v), 0, 1);
    assert IsExpired(m.table[k], now);
    var n := Exec(m.table, d, now, false);
    assert m.log + n.log == [Serialize(c), Serialize(d)];
    ReplayTwo(map[], c, d, clock);
  }
}
