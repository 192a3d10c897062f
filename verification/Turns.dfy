/**
 What the reactor's handlers and one turn of its event loop do to the machine, as
 functions of its state and of what the sockets and the workers do meanwhile.
 */
module Turns {
  import opened Text
  import opened Framing
  import opened Resp
  import opened Pool
  import opened Reassembly
  import opened Protocol
  import opened ProtocolInv

  /** Some run of the machine leads from one state to the other. */
  ghost predicate Reaches(w: World, w': World) {
    exists steps :: Possible(w, steps) && RunWorld(w, steps) == w'
  }

  lemma ReachesItself(w: World)
    ensures Reaches(w, w)
  {
    assert Possible(w, []) && RunWorld(w, []) == w;
  }

  lemma {:induction false} RunOfAppend(w: World, a: seq<Step>, b: seq<Step>)
    requires Possible(w, a) && Possible(RunWorld(w, a), b)
    ensures Possible(w, a + b) && RunWorld(w, a + b) == RunWorld(RunWorld(w, a), b)
    decreases |a|
  {
    hide StepEnabled, After;
    if a == [] {
      assert a + b == b;
    } else {
      assert (a + b)[0] == a[0] && (a + b)[1..] == a[1..] + b;
      RunOfAppend(After(w, a[0]), a[1..], b);
    }
  }

  lemma ReachesFurther(w: World, w': World, w'': World)
    requires Reaches(w, w') && Reaches(w', w'')
    ensures Reaches(w, w'')
  {
    var a :| Possible(w, a) && RunWorld(w, a) == w';
    var b :| Possible(w', b) && RunWorld(w', b) == w'';
    RunOfAppend(w, a, b);
  }

  lemma RunOfOne(w: World, s: Step)
    requires StepEnabled(w, s)
    ensures Possible(w, [s]) && RunWorld(w, [s]) == After(w, s)
  {
    hide StepEnabled, After;
    var steps := [s];
    assert steps[0] == s && steps[1..] == [];
    assert Possible(After(w, s), []);
    assert RunWorld(After(w, s), []) == After(w, s);
    assert Possible(w, steps);
    assert RunWorld(w, steps) == RunWorld(After(w, steps[0]), steps[1..]);
  }

  lemma ReachesStep(w: World, s: Step)
    requires StepEnabled(w, s)
    ensures Reaches(w, After(w, s))
  {
    hide StepEnabled, After, Possible, RunWorld;
    RunOfOne(w, s);
  }

  lemma ReachesNext(w: World, w': World, s: Step)
    requires Reaches(w, w') && StepEnabled(w', s)
    ensures Reaches(w, After(w', s))
  {
    hide StepEnabled, After, Reaches;
    ReachesStep(w', s);
    ReachesFurther(w, w', After(w', s));
  }

  // ----- Runs that neither accept nor execute

  predicate Quietly(p: Step) {
    !Executes(p) && !p.Accept?
  }

  ghost predicate QuietRun(w: World, steps: seq<Step>, w': World) {
    Possible(w, steps) && RunWorld(w, steps) == w' && forall p :: p in steps ==> Quietly(p)
  }

  ghost predicate Leads(w: World, w': World) {
    exists steps :: QuietRun(w, steps, w')
  }

  lemma LeadsStep(w: World, p: Step)
    requires StepEnabled(w, p) && Quietly(p)
    ensures Leads(w, After(w, p))
  {
    hide StepEnabled, After, Quietly;
    RunOfOne(w, p);
    assert QuietRun(w, [p], After(w, p));
  }

  lemma LeadsItself(w: World)
    ensures Leads(w, w)
  {
    assert QuietRun(w, [], w);
  }

  lemma LeadsNext(w: World, w': World, p: Step)
    requires Leads(w, w') && StepEnabled(w', p) && Quietly(p)
    ensures Leads(w, After(w', p))
  {
    hide StepEnabled, After, Quietly, Possible, RunWorld;
    var steps :| QuietRun(w, steps, w');
    RunOfOne(w', p);
    RunOfAppend(w, steps, [p]);
    assert QuietRun(w, steps + [p], After(w', p));
  }

  lemma LeadsReaches(w: World, w': World)
    requires Leads(w, w')
    ensures Reaches(w, w')
  {
    hide Possible, RunWorld;
    var steps :| QuietRun(w, steps, w');
  }

  lemma LeadsFurther(w: World, w': World, w'': World)
    requires Leads(w, w') && Leads(w', w'')
    ensures Leads(w, w'')
  {
    hide Possible, RunWorld, Quietly;
    var a :| QuietRun(w, a, w');
    var b :| QuietRun(w', b, w'');
    RunOfAppend(w, a, b);
    assert QuietRun(w, a + b, w'');
  }

  lemma ReachesOk(w: World, w': World)
    requires WorldOk(w) && Reaches(w, w')
    ensures WorldOk(w')
  {
    hide WorldOk;
    var steps :| Possible(w, steps) && RunWorld(w, steps) == w';
    ProtocolInv.RunKeepsInv(w, steps);
  }

  lemma LiveHasHistory(w: World, fd: Socket)
    requires WorldOk(w) && fd in w.conns
    ensures fd in w.hist
  {
    hide QueueOk, PhaseOk, CountsOk, PlacesOk, ItemsOk, ConnOk;
  }

  /** disconnect, whatever the handle: the counter goes down even if there is no such connection. */
  function Disconnected(w: World, fd: Socket): World {
    w.(conns := w.conns - {fd}, paused := w.paused - {fd}, total := if w.total > 0 then w.total - 1 else 0)
  }

  lemma DisconnectIs(w: World, fd: Socket)
    requires StepEnabled(w, Step.Disconnect(fd))
    ensures After(w, Step.Disconnect(fd)) == Disconnected(w, fd)
  {
  }

  lemma MiscountedIsNotOk(w: World)
    requires w.phase == Loop && w.total != |w.conns|
    ensures !WorldOk(w)
  {
    hide QueueOk, PhaseOk, ConnsOk, PlacesOk, ItemsOk;
  }

  lemma CountedExactly(w: World)
    requires w.phase == Loop && WorldOk(w)
    ensures w.total == |w.conns| && w.paused <= w.conns.Keys
  {
    hide QueueOk, PhaseOk, ConnsOk, PlacesOk, ItemsOk;
  }

  lemma UnknownDisconnect(w: World, fd: Socket)
    requires fd !in w.conns && w.paused <= w.conns.Keys
    ensures Disconnected(w, fd) == w.(total := if w.total > 0 then w.total - 1 else 0)
  {
    assert w.conns - {fd} == w.conns && w.paused - {fd} == w.paused;
  }

  /** Disconnecting keeps the invariant exactly for a handle that is connected, or while nobody is. */
  lemma DisconnectOnlyOnce(w: World, fd: Socket)
    requires w.phase == Loop && w.drained == [] && WorldOk(w)
    ensures WorldOk(Disconnected(w, fd)) <==> fd in w.conns || w.total == 0
  {
    CountedExactly(w);
    hide WorldOk, Disconnected;
    if fd in w.conns {
      DisconnectKeeps(w, fd);
    } else {
      UnknownDisconnect(w, fd);
      if w.total > 0 {
        MiscountedIsNotOk(Disconnected(w, fd));
      }
    }
  }

  lemma DisconnectKeeps(w: World, fd: Socket)
    requires AtRest(w) && fd in w.conns
    ensures StepEnabled(w, Step.Disconnect(fd))
    ensures WorldOk(w) ==> WorldOk(Disconnected(w, fd))
  {
    DisconnectIs(w, fd);
    hide WorldOk, After, StepEnabled, Disconnected;
    if WorldOk(w) {
      DisconnectKeepsInv(w, fd);
    }
  }

  lemma RecvIs(w: World, fd: Socket, bytes: string)
    requires StepEnabled(w, Recv(fd, bytes))
    ensures After(w, Recv(fd, bytes)) ==
            w.(conns := w.conns[fd := w.conns[fd].(readBuffer := w.conns[fd].readBuffer + bytes)],
               hist := w.hist[fd := w.hist[fd].(received := w.hist[fd].received + bytes)], phase := Lines(fd))
  {
  }

  lemma WriteIs(w: World, fd: Socket, n: nat)
    requires StepEnabled(w, Write(fd, n))
    ensures After(w, Write(fd, n)) == WriteStep(w, fd, n)
  {
  }

  lemma DrainIs(w: World)
    requires StepEnabled(w, Step.Drain)
    ensures After(w, Step.Drain) == w.(pool := w.pool.(completions := []), drained := w.pool.completions)
  {
  }

  lemma DeliverIs(w: World)
    requires StepEnabled(w, DeliverNext)
    ensures After(w, DeliverNext) == w.(conns := DrainOne(w.conns, w.drained[0]), drained := w.drained[1..])
  {
  }

  lemma PendingIsNonEmpty(w: World, fd: Socket)
    requires WorldOk(w) && fd in w.conns
    ensures w.conns[fd].writePending <==> w.conns[fd].writeBuffer != ""
  {
    hide QueueOk, PhaseOk, CountsOk, PlacesOk, ItemsOk, Framed, Answered, Front, EncodeAll;
  }

  datatype PollFd = PollFd(fd: Socket, wantRead: bool, wantWrite: bool)

  /** What poll and the socket report for one connection; `room` is what send would take, None an error. */
  datatype Polled = Polled(hangup: bool, readable: bool, received: Option<string>, writable: bool, room: Option<nat>)

  // ----- Handlers

  function Do(w: World, s: Step): World {
    if StepEnabled(w, s) then After(w, s) else w
  }

  /** A worker of a running pool does not return. */
  function Act(w: World, s: PoolStep): World {
    if s.Exit? then w else Do(w, Work(s))
  }

  /** Workers run for a while: those of `acts` that are possible, in order. */
  function WorkAll(w: World, acts: seq<PoolStep>): World {
    if acts == [] then w else Act(WorkAll(w, acts[..|acts| - 1]), acts[|acts| - 1])
  }

  /** One turn of the loop in handle_read. */
  function LineTurn(w: World, allow: bool): World {
    var w' := Do(w, TakeLine);
    if w'.phase.Dispatching? then Do(w', Dispatch(allow)) else w'
  }

  lemma LineTurnIs(w: World, allow: bool)
    requires StepEnabled(w, TakeLine)
    ensures var w' := TakeLineStep(w);
            LineTurn(w, allow) == if w'.phase.Dispatching? then After(w', Dispatch(allow)) else w'
    ensures TakeLineStep(w).phase.Dispatching? ==> StepEnabled(TakeLineStep(w), Dispatch(allow))
    ensures Leads(w, LineTurn(w, allow)) && Reaches(w, LineTurn(w, allow))
  {
    hide DispatchStep, Leads, Reaches, Requests, StripCr;
    LeadsStep(w, TakeLine);
    var w' := TakeLineStep(w);
    if w'.phase.Dispatching? {
      LeadsNext(w, w', Dispatch(allow));
    }
    LeadsReaches(w, LineTurn(w, allow));
  }

  function Buffered(w: World, fd: Socket): nat {
    if fd in w.conns then |w.conns[fd].readBuffer| else 0
  }

  /** The loop: before its n-th line workers perform `others(n)`, and the limiter answers `allow(n)`. */
  function ReadLines(w: World, fd: Socket, allow: nat -> bool, others: nat -> seq<PoolStep>, n: nat): World
    decreases Buffered(w, fd)
  {
    var w' := LineTurn(WorkAll(w, others(n)), allow(n));
    if w'.phase == Lines(fd) && Buffered(w', fd) < Buffered(w, fd) then ReadLines(w', fd, allow, others, n + 1)
    else w'
  }

  function Received(w: World, fd: Socket, received: Option<string>, allow: nat -> bool,
                    others: nat -> seq<PoolStep>): World {
    match received
    case None => Disconnected(w, fd)
    case Some(bytes) => if fd in w.conns then ReadLines(Do(w, Recv(fd, bytes)), fd, allow, others, 0) else w
  }

  /** `room` is what send takes at most; None is an error, and an empty buffer is not sent. */
  function Wrote(w: World, fd: Socket, room: Option<nat>): World {
    if fd !in w.conns then w
    else
      var len := |w.conns[fd].writeBuffer|;
      if len == 0 then Do(w, Write(fd, 0))
      else match room
        case None => Disconnected(w, fd)
        case Some(n) => Do(w, Write(fd, if n <= len then n else len))
  }

  lemma WroteLeads(w: World, fd: Socket, room: Option<nat>)
    requires AtRest(w) && (fd in w.conns ==> fd in w.hist)
    ensures Leads(w, Wrote(w, fd, room))
  {
    hide Leads, After, WriteStep;
    LeadsItself(w);
    if fd in w.conns {
      var len := |w.conns[fd].writeBuffer|;
      if len > 0 && room.None? {
        LeadsStep(w, Step.Disconnect(fd));
        DisconnectIs(w, fd);
      } else {
        LeadsStep(w, Write(fd, if len == 0 then 0 else if room.value <= len then room.value else len));
      }
    }
  }

  lemma DisconnectedIsGone(w: World, fd: Socket)
    ensures fd !in Disconnected(w, fd).conns
  {
  }

  /** What a writable socket takes goes out, and nothing else; an error ends the connection. */
  lemma WroteSends(w: World, fd: Socket, room: Option<nat>)
    requires AtRest(w) && fd in w.conns && fd in w.hist && w.conns[fd].writeBuffer != ""
    ensures var w', buffer := Wrote(w, fd, room), w.conns[fd].writeBuffer;
            if room == None then fd !in w'.conns
            else
              && fd in w'.conns && fd in w'.hist
              && w'.hist[fd].sent + w'.conns[fd].writeBuffer == w.hist[fd].sent + buffer
              && |w'.hist[fd].sent| == |w.hist[fd].sent| + if room.value <= |buffer| then room.value else |buffer|
  {
    hide After, Disconnected;
    if room == None {
      DisconnectedIsGone(w, fd);
    } else {
      var buffer := w.conns[fd].writeBuffer;
      var n := if room.value <= |buffer| then room.value else |buffer|;
      WriteIs(w, fd, n);
      assert buffer == buffer[..n] + buffer[n..];
    }
  }

  function Handled(w: World, p: PollFd, e: Polled, allow: nat -> bool, others: nat -> seq<PoolStep>): World {
    if e.hangup then Disconnected(w, p.fd)
    else
      var w' := if e.readable && p.wantRead then Received(w, p.fd, e.received, allow, others) else w;
      if e.writable && p.wantWrite then Wrote(w', p.fd, e.room) else w'
  }

  function HandledAll(w: World, polls: seq<PollFd>, events: Socket -> Polled,
                      allow: Socket -> nat -> bool, others: Socket -> nat -> seq<PoolStep>): World {
    if polls == [] then w
    else
      var n := |polls| - 1;
      var fd := polls[n].fd;
      Handled(HandledAll(w, polls[..n], events, allow, others), polls[n], events(fd), allow(fd), others(fd))
  }

  function DrainedAll(w: World): World {
    w.(pool := w.pool.(completions := []), conns := DrainInto(w.conns, w.pool.completions))
  }

  lemma {:induction false} DeliveringLeads(w: World, n: nat)
    requires w.phase == Loop && n <= |w.drained|
    ensures Leads(w, w.(conns := DrainInto(w.conns, w.drained[..n]), drained := w.drained[n..]))
  {
    hide Leads, After, DrainOne;
    var w' := w.(conns := DrainInto(w.conns, w.drained[..n]), drained := w.drained[n..]);
    if n == 0 {
      assert w' == w;
      LeadsItself(w);
    } else {
      DeliveringLeads(w, n - 1);
      assert w.drained[..n][..n - 1] == w.drained[..n - 1];
      var before := w.(conns := DrainInto(w.conns, w.drained[..n - 1]), drained := w.drained[n - 1..]);
      DeliverIs(before);
      assert After(before, DeliverNext) == w';
      LeadsNext(w, before, DeliverNext);
    }
  }

  /** Draining and delivering everything is a run of the machine. */
  lemma DrainLeads(w: World)
    requires AtRest(w)
    ensures Leads(w, DrainedAll(w)) && Reaches(w, DrainedAll(w))
  {
    hide Leads, Reaches, After, DrainInto;
    LeadsStep(w, Step.Drain);
    DrainIs(w);
    var w' := After(w, Step.Drain);
    var all := w'.drained;
    DeliveringLeads(w', |all|);
    assert all[..|all|] == all && all[|all|..] == [];
    assert DrainedAll(w) == w'.(conns := DrainInto(w'.conns, all), drained := []);
    LeadsFurther(w, w', DrainedAll(w));
    LeadsReaches(w, DrainedAll(w));
  }

  function Accepted(w: World, client: Option<Socket>, ip: string): World {
    if client.Some? then Do(w, Accept(client.value, ip)) else w
  }

  predicate Wanted(w: World, p: PollFd) {
    && p.fd in w.conns
    && (p.wantRead <==> p.fd !in w.paused)
    && (p.wantWrite <==> w.conns[p.fd].writeBuffer != "")
  }

  /** One entry per connection: reads unless paused, writes exactly when there are bytes to send. */
  ghost predicate PollSetOf(w: World, polls: seq<PollFd>) {
    && (forall i, j :: 0 <= i < j < |polls| ==> polls[i].fd != polls[j].fd)
    && (forall i :: 0 <= i < |polls| ==> Wanted(w, polls[i]))
    && (forall fd :: fd in w.conns ==> exists i :: 0 <= i < |polls| && polls[i].fd == fd)
  }

  /** The state in which the poll set is built. */
  function BeforePoll(w: World): World {
    Do(DrainedAll(w), Unpause)
  }

  /** One turn of the event loop, from its drain to its last event. */
  function Turn(w: World, ready: bool, client: Option<Socket>, ip: string, polls: seq<PollFd>, events: Socket -> Polled,
                allow: Socket -> nat -> bool, others: Socket -> nat -> seq<PoolStep>): World {
    if !ready then BeforePoll(w)
    else HandledAll(Accepted(BeforePoll(w), client, ip), polls, events, allow, others)
  }

  // ----- What a turn has done to every polled connection

  /** The bytes read for an entry of the poll set. */
  function Taken(p: PollFd, e: Polled): string {
    if e.readable && p.wantRead && e.received.Some? then e.received.value else ""
  }

  predicate TookBytes(h: map<Socket, History>, h': map<Socket, History>, fd: Socket, bytes: string) {
    fd in h ==> fd in h' && h'[fd].received == h[fd].received + bytes
  }

  /** The first `n` entries are done: whoever is still connected has had its bytes taken. */
  ghost predicate TookAll(h: map<Socket, History>, h': map<Socket, History>, conns: map<Socket, Conn>,
                          polls: seq<PollFd>, events: Socket -> Polled, n: nat)
    requires n <= |polls|
  {
    forall i :: 0 <= i < n && polls[i].fd in conns ==>
      TookBytes(h, h', polls[i].fd, Taken(polls[i], events(polls[i].fd)))
  }

  ghost predicate TookNothing(h: map<Socket, History>, h': map<Socket, History>, polls: seq<PollFd>, n: nat)
    requires n <= |polls|
  {
    forall i :: n <= i < |polls| ==> TookBytes(h, h', polls[i].fd, "")
  }

  lemma TookNext(h: map<Socket, History>, h': map<Socket, History>, h'': map<Socket, History>,
                 conns: map<Socket, Conn>, conns': map<Socket, Conn>,
                 polls: seq<PollFd>, events: Socket -> Polled, n: nat)
    requires n < |polls| && forall i, j :: 0 <= i < j < |polls| ==> polls[i].fd != polls[j].fd
    requires TookAll(h, h', conns, polls, events, n) && TookNothing(h, h', polls, n)
    requires forall fd :: fd in conns' ==> fd in conns
    requires forall fd :: fd in h' && fd != polls[n].fd ==> fd in h'' && h''[fd].received == h'[fd].received
    requires polls[n].fd in conns' ==> TookBytes(h', h'', polls[n].fd, Taken(polls[n], events(polls[n].fd)))
    ensures TookAll(h, h'', conns', polls, events, n + 1) && TookNothing(h, h'', polls, n + 1)
  {
    hide Taken;
    forall i | 0 <= i < n + 1 && polls[i].fd in conns'
      ensures TookBytes(h, h'', polls[i].fd, Taken(polls[i], events(polls[i].fd)))
    {
      if i == n {
        assert TookBytes(h, h', polls[n].fd, "");
        var fd := polls[n].fd;
        assert fd in h ==> h[fd].received + "" == h[fd].received;
      }
    }
  }

  lemma TookFromEqual(h: map<Socket, History>, g: map<Socket, History>, h': map<Socket, History>,
                      conns: map<Socket, Conn>, polls: seq<PollFd>, events: Socket -> Polled)
    requires TookAll(g, h', conns, polls, events, |polls|)
    requires forall i :: 0 <= i < |polls| && polls[i].fd in h ==> polls[i].fd in g && g[polls[i].fd] == h[polls[i].fd]
    ensures TookAll(h, h', conns, polls, events, |polls|)
  {
    hide Taken;
  }

  lemma TookNothingYet(h: map<Socket, History>, conns: map<Socket, Conn>, polls: seq<PollFd>, events: Socket -> Polled)
    ensures TookAll(h, h, conns, polls, events, 0) && TookNothing(h, h, polls, 0)
  {
    assert forall i :: 0 <= i < |polls| && polls[i].fd in h ==> h[polls[i].fd].received + "" == h[polls[i].fd].received;
  }

  /** What an accept does, all at once. */
  lemma AcceptedIs(w: World, client: Option<Socket>, ip: string)
    requires AtRest(w) && WorldOk(w) && (client.Some? ==> NothingOutstanding(w, client.value))
    ensures var w' := Accepted(w, client, ip);
            && WorldOk(w') && Reaches(w, w')
            && (client.Some? ==> StepEnabled(w, Accept(client.value, ip)) && w' == AcceptStep(w, client.value, ip))
            && (client.None? ==> w' == w)
  {
    hide WorldOk, Reaches, AcceptStep, NothingOutstanding;
    ReachesItself(w);
    if client.Some? {
      ProtocolInv.StepKeepsInv(w, Accept(client.value, ip));
      ReachesStep(w, Accept(client.value, ip));
    }
  }

  lemma AcceptStepShape(w: World, fd: Socket, ip: string)
    requires AtRest(w) && fd !in w.conns && w.total == |w.conns|
    ensures var w' := AcceptStep(w, fd, ip);
            && AtRest(w') && w.conns.Keys <= w'.conns.Keys && (|w.conns| < 10000 ==> fd in w'.conns)
            && forall gd :: gd in w.hist && gd in w.conns ==> gd in w'.hist && w'.hist[gd] == w.hist[gd]
  {
  }

  lemma AcceptedClient(w: World, client: Option<Socket>, ip: string)
    requires AtRest(w) && WorldOk(w) && (client.Some? ==> NothingOutstanding(w, client.value))
    ensures var w' := Accepted(w, client, ip);
            && AtRest(w') && w.conns.Keys <= w'.conns.Keys
            && (client.Some? && |w.conns| < 10000 ==> client.value in w'.conns)
            && forall fd :: fd in w.hist && fd in w.conns ==> fd in w'.hist && w'.hist[fd] == w.hist[fd]
  {
    hide WorldOk, Reaches, Accepted, AcceptStep, StepEnabled;
    CountedExactly(w);
    AcceptedIs(w, client, ip);
    if client.Some? {
      UnusedIsFree(w, client.value);
      AcceptStepShape(w, client.value, ip);
    }
  }

  lemma UnusedIsFree(w: World, fd: Socket)
    requires NothingOutstanding(w, fd)
    ensures fd !in w.conns
  {
  }

  lemma PolledAreLive(w: World, polls: seq<PollFd>)
    requires PollSetOf(w, polls)
    ensures forall i :: 0 <= i < |polls| ==> polls[i].fd in w.conns
    ensures forall i, j :: 0 <= i < j < |polls| ==> polls[i].fd != polls[j].fd
  {
  }

  lemma SameSize(m: map<Socket, Conn>, n: map<Socket, Conn>)
    requires m.Keys == n.Keys
    ensures |m| == |n|
  {
    assert |m| == |m.Keys| && |n| == |n.Keys|;
  }
}
