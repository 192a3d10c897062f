/**
 A request can be served: from a fresh server, some run takes any command line from
 the socket to its reply on the wire.
 */
module Serving {
  import opened Text
  import opened Framing
  import opened Commands
  import opened Resp
  import opened Store
  import opened Pool
  import opened Reassembly
  import opened Protocol
  import opened Turns
  import opened PerKey
  import opened System
  import F = Flat

  // ----- Runs of the whole server

  ghost predicate SysLeads(s: Sys, s': Sys) {
    exists steps :: SysPossible(s, steps) && RunSys(s, steps) == s'
  }

  lemma {:induction false} RunSysOfAppend(s: Sys, a: seq<SysStep>, b: seq<SysStep>)
    requires SysPossible(s, a) && SysPossible(RunSys(s, a), b)
    ensures SysPossible(s, a + b) && RunSys(s, a + b) == RunSys(RunSys(s, a), b)
    decreases |a|
  {
    hide SysEnabled, SysNext;
    if a == [] {
      assert a + b == b;
    } else {
      assert (a + b)[0] == a[0] && (a + b)[1..] == a[1..] + b;
      RunSysOfAppend(SysNext(s, a[0]), a[1..], b);
    }
  }

  lemma RunSysOfOne(s: Sys, step: SysStep)
    requires SysEnabled(s, step)
    ensures SysPossible(s, [step]) && RunSys(s, [step]) == SysNext(s, step)
  {
    hide SysEnabled, SysNext;
    var steps := [step];
    assert steps[0] == step && steps[1..] == [];
    assert SysPossible(SysNext(s, step), []);
    assert RunSys(SysNext(s, step), []) == SysNext(s, step);
    assert RunSys(s, steps) == RunSys(SysNext(s, steps[0]), steps[1..]);
  }

  lemma SysLeadsStep(s: Sys, step: SysStep)
    requires SysEnabled(s, step)
    ensures SysLeads(s, SysNext(s, step))
  {
    hide SysEnabled, SysNext, SysPossible, RunSys;
    RunSysOfOne(s, step);
  }

  lemma SysLeadsFurther(s: Sys, s': Sys, s'': Sys)
    requires SysLeads(s, s') && SysLeads(s', s'')
    ensures SysLeads(s, s'')
  {
    hide SysPossible, RunSys;
    var a :| SysPossible(s, a) && RunSys(s, a) == s';
    var b :| SysPossible(s', b) && RunSys(s', b) == s'';
    RunSysOfAppend(s, a, b);
  }

  /** Such runs of the protocol leave store, log and order alone. */
  lemma {:induction false} QuietRunLifts(s: Sys, steps: seq<Protocol.Step>, w': World)
    requires QuietRun(s.world, steps, w')
    ensures SysLeads(s, s.(world := w'))
    decreases |steps|
  {
    hide StepEnabled, After;
    if steps == [] {
      assert s.(world := w') == s;
      assert SysPossible(s, []) && RunSys(s, []) == s;
    } else {
      var p := steps[0];
      assert Quietly(p);
      var step := Server(p, s.now, false);
      var s' := s.(world := After(s.world, p));
      assert SysNext(s, step) == s';
      SysLeadsStep(s, step);
      assert QuietRun(s'.world, steps[1..], w');
      QuietRunLifts(s', steps[1..], w');
      hide SysLeads;
      SysLeadsFurther(s, s', s'.(world := w'));
    }
  }

  lemma SysLeadsQuietly(s: Sys, s': Sys, w: World)
    requires SysLeads(s, s') && Leads(s'.world, w)
    ensures SysLeads(s, s'.(world := w))
  {
    hide QuietRun;
    var steps :| QuietRun(s'.world, steps, w);
    QuietRunLifts(s', steps, w);
    hide SysLeads;
    SysLeadsFurther(s, s', s'.(world := w));
  }

  // ----- The way of one request

  /** A server with one connection. */
  function One(p: PoolState, fd: Socket, c: Conn, phase: Phase, drained: seq<TaskResult>, h: History): World {
    World(p, map[fd := c], {}, 1, phase, drained, map[fd := h])
  }

  function Connected(workers: nat, max: nat, fd: Socket, ip: string): World {
    One(NewPool(workers, max), fd, NewConn(ip), Loop, [], NoHistory)
  }

  lemma FirstAccept(workers: nat, max: nat, fd: Socket, ip: string)
    ensures StepEnabled(Init(workers, max), Accept(fd, ip))
    ensures After(Init(workers, max), Accept(fd, ip)) == Connected(workers, max, fd, ip)
  {
  }

  function WithLine(ip: string, line: string): Conn {
    NewConn(ip).(readBuffer := line + "\n")
  }

  function Stamping(line: string): History {
    NoHistory.(received := line + "\n", cuts := [Cut(line, true)], lines := [line])
  }

  /** A line arrives and is stamped. */
  lemma LineIsStamped(workers: nat, max: nat, fd: Socket, ip: string, line: string)
    requires OneLine(line) && StripCr(line) == line && line != ""
    ensures Leads(Connected(workers, max, fd, ip),
                  One(NewPool(workers, max), fd, NewConn(ip).(nextSeqIssue := 1, inFlight := 1),
                      Dispatching(fd, 0, line), [], Stamping(line)))
  {
    hide Leads;
    var p, bytes := NewPool(workers, max), line + "\n";
    var w0 := Connected(workers, max, fd, ip);
    var w1 := One(p, fd, WithLine(ip, line), Lines(fd), [], NoHistory.(received := bytes));
    ReceiveIs(workers, max, fd, ip, bytes);
    LeadsStep(w0, Recv(fd, bytes));
    TakeFirstLine(p, fd, WithLine(ip, line), line, NoHistory.(received := bytes));
    hide StepEnabled, After, StripCr, OneLine;
    LeadsNext(w0, w1, TakeLine);
    assert WithLine(ip, line).(readBuffer := "", nextSeqIssue := 1, inFlight := 1) ==
           NewConn(ip).(nextSeqIssue := 1, inFlight := 1);
  }

  lemma ReceiveIs(workers: nat, max: nat, fd: Socket, ip: string, bytes: string)
    requires bytes != ""
    ensures StepEnabled(Connected(workers, max, fd, ip), Recv(fd, bytes))
    ensures After(Connected(workers, max, fd, ip), Recv(fd, bytes)) ==
            One(NewPool(workers, max), fd, NewConn(ip).(readBuffer := bytes), Lines(fd), [],
                NoHistory.(received := bytes))
  {
    assert "" + bytes == bytes;
  }

  lemma TakeFirstLine(p: PoolState, fd: Socket, c: Conn, line: string, h: History)
    requires OneLine(line) && StripCr(line) == line && line != "" && c.readBuffer == line + "\n"
    requires p.queue == [] && c.inFlight == 0 && c.nextSeqIssue == 0 && h.cuts == [] && h.lines == []
    ensures StepEnabled(One(p, fd, c, Lines(fd), [], h), TakeLine)
    ensures After(One(p, fd, c, Lines(fd), [], h), TakeLine) ==
            One(p, fd, c.(readBuffer := "", nextSeqIssue := 1, inFlight := 1),
                Dispatching(fd, 0, line), [], h.(cuts := [Cut(line, true)], lines := [line]))
  {
    NewlineAfterLine(line, "");
    hide StripCr, NewlineAt, OneLine;
    assert line + "\n" + "" == c.readBuffer;
    assert [] + [Cut(line, true)] == [Cut(line, true)] && [] + [line] == [line];
  }

  /** A stamped command goes into the queue, and the reactor back to its loop. */
  lemma CommandIsQueued(p: PoolState, fd: Socket, c: Conn, line: string, h: History)
    requires p.running && p.max >= 1 && p.queue == []
    requires ParseLine(line).Some? && NewlineAt(c.readBuffer) == |c.readBuffer|
    ensures var t := Task(fd, 0, ParseLine(line).value);
            Leads(One(p, fd, c, Dispatching(fd, 0, line), [], h),
                  One(p.(queue := [t], accepted := p.accepted + [t]), fd, c, Loop, [], h))
  {
    hide Leads, Tokens, Parse, NewlineAt;
    var t := Task(fd, 0, ParseLine(line).value);
    var w0 := One(p, fd, c, Dispatching(fd, 0, line), [], h);
    var w1 := One(p.(queue := [t], accepted := p.accepted + [t]), fd, c, Lines(fd), [], h);
    assert p.queue + [t] == [t];
    NoTokensNoCommand(line);
    assert After(w0, Dispatch(true)) == w1;
    LeadsStep(w0, Dispatch(true));
    LeadsNext(w0, w1, TakeLine);
  }

  lemma NoTokensNoCommand(line: string)
    ensures Tokens(line) == [] ==> ParseLine(line).None?
  {
  }

  lemma TaskIsTaken(p: PoolState, fd: Socket, c: Conn, h: History, t: Task)
    requires p.queue == [t] && p.workers != [] && p.workers[0].Idle?
    ensures Leads(One(p, fd, c, Loop, [], h),
                  One(p.(queue := [], workers := p.workers[0 := Busy(t)]), fd, c, Loop, [], h))
  {
    hide Leads;
    var w := One(p, fd, c, Loop, [], h);
    LeadsStep(w, Work(Pop(0)));
    assert After(w, Work(Pop(0))) == One(p.(queue := [], workers := p.workers[0 := Busy(t)]), fd, c, Loop, [], h);
  }

  lemma ExecutionIs(p: PoolState, fd: Socket, c: Conn, h: History, t: Task, v: Value)
    requires p.workers != [] && p.workers[0] == Busy(t) && t.fd == fd && Sendable(v)
    ensures StepEnabled(One(p, fd, c, Loop, [], h), Work(Execute(0, v)))
    ensures After(One(p, fd, c, Loop, [], h), Work(Execute(0, v))) ==
            One(p.(workers := p.workers[0 := Done(TaskResult(fd, t.seqno, v))]), fd, c, Loop, [],
                Answer(h, t.seqno, v).(executed := h.executed + {t.seqno}))
  {
  }

  lemma ResultIsPosted(p: PoolState, fd: Socket, c: Conn, h: History, r: TaskResult)
    requires p.workers != [] && p.workers[0] == Done(r) && p.completions == []
    ensures Leads(One(p, fd, c, Loop, [], h),
                  One(p.(workers := p.workers[0 := Idle], completions := [r], produced := p.produced + [r]),
                      fd, c, Loop, [], h))
  {
    hide Leads;
    var w := One(p, fd, c, Loop, [], h);
    LeadsStep(w, Work(Push(0)));
    assert p.completions + [r] == [r];
    assert After(w, Work(Push(0))) ==
           One(p.(workers := p.workers[0 := Idle], completions := [r], produced := p.produced + [r]),
               fd, c, Loop, [], h);
  }

  /** A result is drained, flushed and sent. */
  lemma ReplyIsSent(p: PoolState, fd: Socket, c: Conn, h: History, v: Value)
    requires p.completions == [TaskResult(fd, 0, v)]
    requires c.nextSeqExpected == 0 && c.inFlight == 1 && c.outOfOrder == map[]
    requires c.writeBuffer == "" && !c.writePending && h.sent == ""
    ensures Leads(One(p, fd, c, Loop, [], h),
                  One(p.(completions := []), fd, c.(nextSeqExpected := 1, inFlight := 0), Loop, [],
                      h.(sent := Encode(v))))
  {
    hide Leads, Flush, Encode;
    var r, p' := TaskResult(fd, 0, v), p.(completions := []);
    var w0 := One(p, fd, c, Loop, [], h);
    var w1 := One(p', fd, c, Loop, [r], h);
    assert After(w0, Step.Drain) == w1;
    LeadsStep(w0, Step.Drain);
    var c' := c.(nextSeqExpected := 1, inFlight := 0, writeBuffer := Encode(v), writePending := true);
    FlushOfOne(c, v);
    assert Deliver(c, r) == c';
    var w2 := One(p', fd, c', Loop, [], h);
    assert DrainOne(w1.conns, r) == w2.conns;
    assert After(w1, DeliverNext) == w2;
    LeadsNext(w0, w1, DeliverNext);
    var n := |Encode(v)|;
    assert Encode(v)[n..] == "" && h.sent + Encode(v)[..n] == Encode(v);
    LeadsNext(w0, w2, Write(fd, n));
    assert After(w2, Write(fd, n)) ==
           One(p', fd, c.(nextSeqExpected := 1, inFlight := 0), Loop, [], h.(sent := Encode(v)));
  }

  lemma FlushOfOne(c: Conn, v: Value)
    requires c.nextSeqExpected == 0 && c.inFlight == 1 && c.outOfOrder == map[] && c.writeBuffer == ""
    ensures Flush(Buffer(c, 0, v)) ==
            c.(nextSeqExpected := 1, inFlight := 0, writeBuffer := Encode(v), writePending := true)
  {
    hide Encode;
    var b := Buffer(c, 0, v);
    assert FlushOne(b).outOfOrder == map[];
    assert "" + Encode(v) == Encode(v);
    assert Flush(FlushOne(b)) == FlushOne(b);
  }

  // ----- The whole way

  /** A fresh server with one command at a worker. */
  function AtWorker(workers: nat, max: nat, fd: Socket, ip: string, line: string): World
    requires workers >= 1 && ParseLine(line).Some?
  {
    var p, t := NewPool(workers, max), Task(fd, 0, ParseLine(line).value);
    One(p.(workers := p.workers[0 := Busy(t)], accepted := [t]), fd,
        NewConn(ip).(nextSeqIssue := 1, inFlight := 1), Loop, [], Stamping(line))
  }

  /** A fresh server with one command in the queue. */
  function InQueue(workers: nat, max: nat, fd: Socket, ip: string, line: string): World
    requires ParseLine(line).Some?
  {
    var p, t := NewPool(workers, max), Task(fd, 0, ParseLine(line).value);
    One(p.(queue := [t], accepted := [t]), fd,
        NewConn(ip).(nextSeqIssue := 1, inFlight := 1), Loop, [], Stamping(line))
  }

  lemma ReachesQueue(workers: nat, max: nat, fd: Socket, ip: string, line: string)
    requires max >= 1 && OneLine(line) && StripCr(line) == line && ParseLine(line).Some?
    ensures Leads(Connected(workers, max, fd, ip), InQueue(workers, max, fd, ip, line))
  {
    hide Leads, Tokens, Parse, StripCr, OneLine;
    TokensOfNothing();
    NoTokensNoCommand("");
    LineIsStamped(workers, max, fd, ip, line);
    var p, c := NewPool(workers, max), NewConn(ip).(nextSeqIssue := 1, inFlight := 1);
    CommandIsQueued(p, fd, c, line, Stamping(line));
    assert p.accepted + [Task(fd, 0, ParseLine(line).value)] == [Task(fd, 0, ParseLine(line).value)];
    LeadsFurther(Connected(workers, max, fd, ip), One(p, fd, c, Dispatching(fd, 0, line), [], Stamping(line)),
                 InQueue(workers, max, fd, ip, line));
  }

  lemma ReachesWorker(workers: nat, max: nat, fd: Socket, ip: string, line: string)
    requires workers >= 1 && max >= 1
    requires OneLine(line) && StripCr(line) == line && ParseLine(line).Some?
    ensures Leads(Connected(workers, max, fd, ip), AtWorker(workers, max, fd, ip, line))
  {
    hide Leads, ParseLine, StripCr, OneLine;
    ReachesQueue(workers, max, fd, ip, line);
    var w := InQueue(workers, max, fd, ip, line);
    TaskIsTaken(w.pool, fd, w.conns[fd], w.hist[fd], w.pool.queue[0]);
    LeadsFurther(Connected(workers, max, fd, ip), w, AtWorker(workers, max, fd, ip, line));
  }

  /** The rest of the way, once the worker has executed the command. */
  lemma ExecutedIsSent(p: PoolState, fd: Socket, c: Conn, h: History, v: Value) returns (w: World)
    requires p.workers != [] && p.workers[0] == Done(TaskResult(fd, 0, v)) && p.completions == []
    requires c.nextSeqExpected == 0 && c.inFlight == 1 && c.outOfOrder == map[]
    requires c.writeBuffer == "" && !c.writePending && h.sent == ""
    ensures Leads(One(p, fd, c, Loop, [], h), w) && AtRest(w) && fd in w.conns && fd in w.hist
    ensures w.hist[fd] == h.(sent := Encode(v)) && w.conns[fd] == c.(nextSeqExpected := 1, inFlight := 0)
  {
    hide Leads, Encode;
    var r := TaskResult(fd, 0, v);
    ResultIsPosted(p, fd, c, h, r);
    var p' := p.(workers := p.workers[0 := Idle], completions := [r], produced := p.produced + [r]);
    ReplyIsSent(p', fd, c, h, v);
    w := One(p'.(completions := []), fd, c.(nextSeqExpected := 1, inFlight := 0), Loop, [], h.(sent := Encode(v)));
    LeadsFurther(One(p, fd, c, Loop, [], h), One(p', fd, c, Loop, [], h), w);
  }

  /** What is left after serving one command on a server that started with the table `s.base`. */
  ghost predicate Served(s0: Sys, s: Sys, fd: Socket, line: string, c: Command, at: Time, oom: bool) {
    var out := Exec(s0.table, c, at, oom);
    && AtRest(s.world) && fd in s.world.conns && fd in s.world.hist
    && s.world.conns[fd].inFlight == 0 && s.world.hist[fd].received == line + "\n"
    && s.world.hist[fd].replies == map[0 := out.reply] && s.world.hist[fd].executed == {0}
    && s.world.hist[fd].sent == Encode(out.reply)
    && s.table == out.table && s.log == out.log && s.events == [F.Do(c, at, oom)]
  }

  lemma AcceptLeads(s: Sys, w: World, fd: Socket, ip: string)
    requires StepEnabled(s.world, Accept(fd, ip)) && After(s.world, Accept(fd, ip)) == w
    ensures SysLeads(s, s.(world := w, place := s.place[fd := map[]]))
  {
    hide StepEnabled, After, SysLeads;
    SysLeadsStep(s, Server(Accept(fd, ip), s.now, false));
  }

  lemma ExecuteLeads(s: Sys, w: World, t: Task, v: Value, at: Time, oom: bool) returns (s': Sys)
    requires s.world.pool.workers != [] && s.world.pool.workers[0] == Busy(t)
    requires StepEnabled(s.world, Work(Execute(0, v))) && After(s.world, Work(Execute(0, v))) == w
    requires at >= s.now && v == Exec(s.table, t.command, at, oom).reply
    ensures SysLeads(s, s') && s'.world == w && s'.table == Exec(s.table, t.command, at, oom).table
    ensures s'.log == s.log + Exec(s.table, t.command, at, oom).log
    ensures s'.events == s.events + [F.Do(t.command, at, oom)]
  {
    hide StepEnabled, After, SysLeads, Exec;
    var step := Server(Work(Execute(0, v)), at, oom);
    s' := SysNext(s, step);
    SysLeadsStep(s, step);
  }

  /**
   With at least one worker and a queue of at least one, every command line can be served: a
   run of a fresh server ends at rest with exactly the command's reply sent, its change in
   the table and its line in the log.
   */
  lemma RequestCanBeServed(workers: nat, max: nat, base: Table, start: Time, fd: Socket, ip: string, line: string,
                           at: Time, oom: bool) returns (s: Sys)
    requires workers >= 1 && max >= 1 && at >= start
    requires OneLine(line) && StripCr(line) == line && ParseLine(line).Some?
    ensures SysLeads(InitSys(workers, max, base, start), s)
    ensures Served(InitSys(workers, max, base, start), s, fd, line, ParseLine(line).value, at, oom)
  {
    var s0, c := InitSys(workers, max, base, start), ParseLine(line).value;
    var v := Exec(base, c, at, oom).reply;
    RepliesAreSendable(base, c, at, oom);
    FirstAccept(workers, max, fd, ip);
    ReachesWorker(workers, max, fd, ip, line);
    hide *;
    s := ServedFrom(workers, max, base, start, fd, ip, line, at, oom, v);
  }

  lemma ServedFrom(workers: nat, max: nat, base: Table, start: Time, fd: Socket, ip: string, line: string,
                   at: Time, oom: bool, v: Value) returns (s: Sys)
    requires workers >= 1 && at >= start && ParseLine(line).Some? && Sendable(v)
    requires v == Exec(base, ParseLine(line).value, at, oom).reply
    requires StepEnabled(Init(workers, max), Accept(fd, ip))
    requires After(Init(workers, max), Accept(fd, ip)) == Connected(workers, max, fd, ip)
    requires Leads(Connected(workers, max, fd, ip), AtWorker(workers, max, fd, ip, line))
    ensures SysLeads(InitSys(workers, max, base, start), s)
    ensures Served(InitSys(workers, max, base, start), s, fd, line, ParseLine(line).value, at, oom)
  {
    hide Leads, SysLeads, StepEnabled, After, Exec, ParseLine, Encode, Sendable;
    var s0 := InitSys(workers, max, base, start);
    var t := Task(fd, 0, ParseLine(line).value);
    AcceptLeads(s0, Connected(workers, max, fd, ip), fd, ip);
    var w2 := AtWorker(workers, max, fd, ip, line);
    var s1 := s0.(world := Connected(workers, max, fd, ip), place := s0.place[fd := map[]]);
    SysLeadsQuietly(s0, s1, w2);
    var s2 := s1.(world := w2);
    ExecutionIs(w2.pool, fd, w2.conns[fd], w2.hist[fd], t, v);
    var w3 := One(w2.pool.(workers := w2.pool.workers[0 := Done(TaskResult(fd, 0, v))]), fd, w2.conns[fd], Loop, [],
                  Answer(w2.hist[fd], 0, v).(executed := w2.hist[fd].executed + {0}));
    var s3 := ExecuteLeads(s2, w3, t, v, at, oom);
    SysLeadsFurther(s0, s2, s3);
    var w4 := ExecutedIsSent(w3.pool, fd, w3.conns[fd], w3.hist[fd], v);
    SysLeadsQuietly(s0, s3, w4);
    s := s3.(world := w4);
  }

  /** So the reachable servers are more than the fresh ones, whatever file they started from. */
  lemma ReachableServes(workers: nat, max: nat, file: seq<string>, boot: nat -> Time, start: Time,
                        fd: Socket, ip: string, line: string, at: Time, oom: bool) returns (s: Sys)
    requires workers >= 1 && max >= 1 && Rising(boot, |file|) && boot(|file|) <= start <= at
    requires OneLine(line) && StripCr(line) == line && ParseLine(line).Some?
    ensures SysReachable(s, file, boot)
    ensures Served(InitSys(workers, max, Booted(file, boot), start), s, fd, line, ParseLine(line).value, at, oom)
  {
    hide Served, SysPossible, RunSys, Booted, ParseLine, StripCr, OneLine, Exec;
    s := RequestCanBeServed(workers, max, Booted(file, boot), start, fd, ip, line, at, oom);
    var steps :| SysPossible(InitSys(workers, max, Booted(file, boot), start), steps)
                 && RunSys(InitSys(workers, max, Booted(file, boot), start), steps) == s;
  }
}
