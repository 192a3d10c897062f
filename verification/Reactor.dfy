/**
 The reactor thread as an object: its event loop, the read, write and drain handlers, and
 the pipeline it drives. Sockets are oracles: what recv, send, accept and poll return are
 parameters, and so is what the workers do while the reactor reads.
 */
module Reactor {
  import opened Text
  import opened Framing
  import opened Commands
  import opened Resp
  import opened Pool
  import opened Reassembly
  import opened Protocol
  import opened ProtocolInv
  import opened Turns

  class Reactor {
    const pool: WorkerPool
    var connections: map<Socket, Conn>
    var pausedReads: set<Socket>
    var totalConnections: nat
    ghost var phase: Phase
    ghost var drained: seq<TaskResult>
    ghost var hist: map<Socket, History>

    ghost function View(): World
      reads this, pool, pool.completionQueue
    {
      World(pool.State(), connections, pausedReads, totalConnections, phase, drained, hist)
    }

    constructor (pool: WorkerPool)
      requires pool.maxQueueSize >= 1 && pool.State() == NewPool(|pool.workers|, pool.maxQueueSize)
      ensures this.pool == pool && WorldOk(View()) && AtRest(View())
      ensures View() == Init(|pool.workers|, pool.maxQueueSize)
    {
      this.pool := pool;
      connections, pausedReads, totalConnections := map[], {}, 0;
      phase, drained, hist := Loop, [], map[];
      new;
      InitInv(|pool.workers|, pool.maxQueueSize);
    }

    /** Workers run for a while: those of `acts` that are possible, in order. */
    method OthersWork(acts: seq<PoolStep>)
      modifies this`hist, pool, pool.completionQueue
      ensures View() == WorkAll(old(View()), acts) && Reaches(old(View()), View())
      ensures connections == old(connections) && phase == old(phase) && drained == old(drained)
      ensures hist.Keys == old(hist.Keys) && forall fd :: fd in hist ==> hist[fd].received == old(hist[fd].received)
    {
      hide After, StepEnabled, WorldOk;
      ReachesItself(View());
      for i := 0 to |acts|
        invariant View() == WorkAll(old(View()), acts[..i]) && Reaches(old(View()), View())
        invariant connections == old(connections) && phase == old(phase) && drained == old(drained)
        invariant pausedReads == old(pausedReads) && totalConnections == old(totalConnections)
        invariant hist.Keys == old(hist.Keys) && forall fd :: fd in hist ==> hist[fd].received == old(hist[fd].received)
      {
        assert acts[..i + 1][..i] == acts[..i];
        IsPossibleIsEnabled(acts[i]);
        if IsPossible(acts[i]) {
          ReachesNext(old(View()), View(), Work(acts[i]));
          OneWorks(acts[i]);
        }
      }
      assert acts[..|acts|] == acts;
    }

    predicate IsPossible(s: PoolStep)
      reads pool
    {
      match s
      case Pop(i) => i < |pool.workers| && pool.workers[i].Idle? && pool.queue != []
      case Execute(i, v) => i < |pool.workers| && pool.workers[i].Busy? && Sendable(v)
      case Push(i) => i < |pool.workers| && pool.workers[i].Done?
      case _ => false
    }

    lemma IsPossibleIsEnabled(s: PoolStep)
      ensures IsPossible(s) <==> !s.Exit? && StepEnabled(View(), Work(s))
    {
    }

    method OneWorks(s: PoolStep)
      requires IsPossible(s)
      modifies this`hist, pool, pool.completionQueue
      ensures old(StepEnabled(View(), Work(s))) && View() == After(old(View()), Work(s))
      ensures old(Pool.Enabled(pool.State(), s)) && pool.State() == Pool.Next(old(pool.State()), s)
      ensures hist.Keys == old(hist.Keys) && forall fd :: fd in hist ==> hist[fd].received == old(hist[fd].received)
    {
      match s
      case Pop(i) => pool.Take(i);
      case Execute(i, v) =>
        ghost var t := pool.workers[i].task;
        pool.Finish(i, v);
        if t.fd in connections && t.fd in hist {
          var h := Answer(hist[t.fd], t.seqno, v);
          hist := hist[t.fd := h.(executed := h.executed + {t.seqno})];
        }
      case Push(i) => pool.Post(i);
    }

    /** accept_connection: None is an invalid socket. */
    method AcceptConnection(client: Option<Socket>, ip: string)
      requires AtRest(View()) && WorldOk(View())
      requires client.Some? ==> NothingOutstanding(View(), client.value)
      modifies this
      ensures View() == Accepted(old(View()), client, ip)
      ensures WorldOk(View()) && Reaches(old(View()), View())
      ensures AtRest(View()) && old(connections.Keys) <= connections.Keys
    {
      AcceptedIs(View(), client, ip);
      AcceptedClient(View(), client, ip);
      hide WorldOk, NothingOutstanding, Reaches, Accepted, StepEnabled, AcceptStep;
      match client
      case None =>
      case Some(fd) => TakeOn(fd, ip);
    }

    /** The client is taken on, or turned away at the limit. */
    method TakeOn(client: Socket, ip: string)
      modifies this
      ensures View() == AcceptStep(old(View()), client, ip)
    {
      if totalConnections >= MAX_CONNECTIONS {
        return;
      }
      connections := connections[client := NewConn(ip)];
      hist := hist[client := NoHistory];
      totalConnections := totalConnections + 1;
    }

    method Disconnect(client: Socket)
      modifies this
      ensures View() == Disconnected(old(View()), client)
      ensures old(StepEnabled(View(), Step.Disconnect(client))) ==>
                View() == After(old(View()), Step.Disconnect(client)) && Reaches(old(View()), View())
    {
      hide Reaches, After, StepEnabled;
      if StepEnabled(View(), Step.Disconnect(client)) {
        DisconnectIs(View(), client);
        ReachesStep(View(), Step.Disconnect(client));
      }
      connections := connections - {client};
      pausedReads := pausedReads - {client};
      if totalConnections > 0 {
        totalConnections := totalConnections - 1;
      }
    }

    /** Pipeline::process: rate limiter, tokenizer, parser, dispatcher; each answers or passes on. */
    method Process(client: Socket, line: string, seqno: nat, allow: bool)
      requires phase == Dispatching(client, seqno, line) && client in hist
      modifies this`hist, this`phase, pool, pool.completionQueue
      ensures View() == After(old(View()), Dispatch(allow)) && phase == Lines(client)
      ensures hist.Keys == old(hist.Keys) && forall fd :: fd in hist ==> hist[fd].received == old(hist[fd].received)
    {
      hide Tokens, Parse;
      if !allow {
        PostDirect(client, seqno, RATE_LIMITED);
        return;
      }
      var tokens := Tokenize(line);
      if tokens == [] {
        PostDirect(client, seqno, EMPTY_COMMAND);
        return;
      }
      var command := Parse(tokens);
      if command.None? {
        PostDirect(client, seqno, UNKNOWN_COMMAND);
        return;
      }
      var taken := pool.SubmitOne(Task(client, seqno, command.value));
      if !taken {
        PostDirect(client, seqno, SERVER_BUSY);
      }
      phase := Lines(client);
    }

    method PostDirect(client: Socket, seqno: nat, v: Value)
      requires client in hist
      modifies this`hist, this`phase, pool.completionQueue
      ensures View() == Protocol.Post(old(View()), client, seqno, v)
      ensures hist.Keys == old(hist.Keys) && forall fd :: fd in hist ==> hist[fd].received == old(hist[fd].received)
    {
      pool.completionQueue.PushResult(TaskResult(client, seqno, v));
      hist := hist[client := Answer(hist[client], seqno, v)];
      phase := Lines(client);
    }

    /** Cuts and handles one line; false when the loop of handle_read ends. */
    method HandleLine(client: Socket, allow: bool) returns (more: bool)
      requires phase == Lines(client) && drained == [] && client in connections && client in hist
      modifies this, pool, pool.completionQueue
      ensures View() == LineTurn(old(View()), allow) && drained == []
      ensures Reaches(old(View()), View()) && client in connections
      ensures more ==>
                phase == Lines(client)
                && |connections[client].readBuffer| < |old(connections)[client].readBuffer|
      ensures !more ==> AtRest(View())
      ensures !more ==>
                client in pausedReads
                || NewlineAt(connections[client].readBuffer) == |connections[client].readBuffer|
      ensures connections.Keys == old(connections.Keys)
      ensures hist.Keys == old(hist.Keys) && forall fd :: fd in hist ==> hist[fd].received == old(hist[fd].received)
    {
      hide LineTurn, After, Reaches, Tokens, Parse, Stamped;
      LineTurnIs(View(), allow);
      ghost var w := TakeLineStep(View());
      var state := connections[client];
      var pos := NewlineAt(state.readBuffer);
      if pos == |state.readBuffer| {
        phase := Loop;
        return false;
      }
      var line := StripCr(state.readBuffer[..pos]);
      state := state.(readBuffer := state.readBuffer[pos + 1..]);
      if line == "" {
        connections := connections[client := state];
        return true;
      }
      var queueSize := pool.QueueSize();
      if state.inFlight >= MAX_PIPELINE_DEPTH || queueSize * 10 > pool.maxQueueSize * 9 {
        Discard(client, state, line);
        return false;
      }
      Stamp(client, state, line);
      assert View() == w;
      Process(client, line, state.nextSeqIssue, allow);
      return true;
    }

    /** A limiter fires: the line is gone and the connection paused. */
    method Discard(client: Socket, state: Conn, line: string)
      requires client in connections && client in hist
      modifies this`connections, this`pausedReads, this`hist, this`phase
      ensures connections == old(connections)[client := state] && pausedReads == old(pausedReads) + {client}
      ensures var h := old(hist)[client]; hist == old(hist)[client := h.(cuts := h.cuts + [Cut(line, false)])]
      ensures phase == Loop
    {
      connections := connections[client := state];
      pausedReads := pausedReads + {client};
      hist := hist[client := hist[client].(cuts := hist[client].cuts + [Cut(line, false)])];
      phase := Loop;
    }

    /** The line gets the next sequence number. */
    method Stamp(client: Socket, state: Conn, line: string)
      requires client in connections && client in hist
      modifies this`connections, this`hist, this`phase
      ensures connections ==
              old(connections)[client := state.(nextSeqIssue := state.nextSeqIssue + 1, inFlight := state.inFlight + 1)]
      ensures var h := old(hist)[client];
              hist == old(hist)[client := h.(cuts := h.cuts + [Cut(line, true)], lines := h.lines + [line])]
      ensures phase == Dispatching(client, state.nextSeqIssue, line)
    {
      var seqno := state.nextSeqIssue;
      connections := connections[client := state.(nextSeqIssue := seqno + 1, inFlight := state.inFlight + 1)];
      hist := hist[client := hist[client].(cuts := hist[client].cuts + [Cut(line, true)],
                                           lines := hist[client].lines + [line])];
      phase := Dispatching(client, seqno, line);
    }

    /** handle_read: `received` is None when recv fails or the peer has closed. */
    method HandleRead(client: Socket, received: Option<string>, allow: nat -> bool, others: nat -> seq<PoolStep>)
      returns (closed: bool)
      requires AtRest(View()) && WorldOk(View())
      requires received.Some? ==> received.value != ""
      modifies this, pool, pool.completionQueue
      ensures View() == Received(old(View()), client, received, allow, others)
      ensures AtRest(View()) && (client in old(connections) || received.Some? ==> Reaches(old(View()), View()))
      ensures closed == received.None?
      ensures connections.Keys == old(connections.Keys) - if closed then {client} else {}
      ensures forall fd :: fd in old(hist) && fd != client ==> fd in hist && hist[fd].received == old(hist)[fd].received
      ensures !closed && client in connections ==>
                && client in old(hist) && client in hist
                && hist[client].received == old(hist)[client].received + received.value
                && (client in pausedReads
                    || NewlineAt(connections[client].readBuffer) == |connections[client].readBuffer|)
    {
      hide WorldOk, Reaches, After, NewlineAt, ReadLines;
      match received
      case None =>
        if client in connections {
          DisconnectKeeps(View(), client);
        }
        Disconnect(client);
        return true;
      case Some(bytes) =>
        ReachesItself(View());
        if client !in connections {
          return false;
        }
        TakeBytes(client, bytes);
        HandleLines(client, allow, others);
        ReachesFurther(old(View()), After(old(View()), Recv(client, bytes)), View());
        return false;
    }

    /** The bytes that recv returned join the read buffer. */
    method TakeBytes(client: Socket, bytes: string)
      requires AtRest(View()) && WorldOk(View()) && client in connections && bytes != ""
      modifies this`connections, this`hist, this`phase
      ensures client in old(hist) && old(StepEnabled(View(), Recv(client, bytes)))
      ensures View() == After(old(View()), Recv(client, bytes)) && Reaches(old(View()), View())
      ensures phase == Lines(client) && drained == [] && connections.Keys == old(connections.Keys)
      ensures client in hist && hist[client].received == old(hist)[client].received + bytes
      ensures forall fd :: fd in old(hist) && fd != client ==> fd in hist && hist[fd].received == old(hist)[fd].received
    {
      hide WorldOk, Reaches, After;
      LiveHasHistory(View(), client);
      ReachesStep(View(), Recv(client, bytes));
      RecvIs(View(), client, bytes);
      var state := connections[client];
      connections := connections[client := state.(readBuffer := state.readBuffer + bytes)];
      hist := hist[client := hist[client].(received := hist[client].received + bytes)];
      phase := Lines(client);
    }

    /** The loop of handle_read; workers may move before every line. */
    method HandleLines(client: Socket, allow: nat -> bool, others: nat -> seq<PoolStep>)
      requires phase == Lines(client) && drained == [] && client in connections && client in hist
      modifies this, pool, pool.completionQueue
      ensures View() == ReadLines(old(View()), client, allow, others, 0)
      ensures Reaches(old(View()), View()) && AtRest(View())
      ensures connections.Keys == old(connections.Keys) && client in hist
      ensures hist.Keys == old(hist.Keys) && forall fd :: fd in hist ==> hist[fd].received == old(hist)[fd].received
      ensures client in pausedReads
              || NewlineAt(connections[client].readBuffer) == |connections[client].readBuffer|
    {
      hide WorldOk, Reaches, NewlineAt, LineTurn, WorkAll;
      ReachesItself(View());
      var more, n := true, 0;
      while more
        invariant Reaches(old(View()), View()) && drained == []
        invariant connections.Keys == old(connections.Keys) && client in hist
        invariant hist.Keys == old(hist.Keys) && forall fd :: fd in hist ==> hist[fd].received == old(hist)[fd].received
        invariant more ==> phase == Lines(client)
        invariant !more ==> AtRest(View())
        invariant !more ==>
                    client in pausedReads
                    || NewlineAt(connections[client].readBuffer) == |connections[client].readBuffer|
        invariant ReadLines(old(View()), client, allow, others, 0) ==
                  if more then ReadLines(View(), client, allow, others, n) else View()
        decreases more, |connections[client].readBuffer|
      {
        label turn:
        OthersWork(others(n));
        ReachesFurther(old(View()), old@turn(View()), View());
        label line:
        more := HandleLine(client, allow(n));
        ReachesFurther(old(View()), old@line(View()), View());
        n := n + 1;
      }
    }

    /** handle_write: send takes up to `room` bytes, None is an error; nothing is sent from an empty buffer. */
    method HandleWrite(client: Socket, room: Option<nat>) returns (closed: bool)
      requires AtRest(View()) && WorldOk(View())
      modifies this
      ensures View() == Wrote(old(View()), client, room)
      ensures Reaches(old(View()), View()) && AtRest(View())
      ensures closed == (client in old(connections) && old(connections)[client].writeBuffer != "" && room.None?)
      ensures connections.Keys == old(connections.Keys) - if closed then {client} else {}
      ensures hist.Keys == old(hist.Keys) && forall fd :: fd in hist ==> hist[fd].received == old(hist)[fd].received
    {
      hide WorldOk, Reaches, After;
      ReachesItself(View());
      if client !in connections {
        return false;
      }
      LiveHasHistory(View(), client);
      var state := connections[client];
      if state.writeBuffer == "" {
        WriteIs(View(), client, 0);
        ReachesStep(View(), Write(client, 0));
        connections := connections[client := state.(writePending := false)];
        return false;
      }
      if room.None? {
        DisconnectKeeps(View(), client);
        Disconnect(client);
        return true;
      }
      var sent := if room.value <= |state.writeBuffer| then room.value else |state.writeBuffer|;
      WriteIs(View(), client, sent);
      ReachesStep(View(), Write(client, sent));
      hist := hist[client := hist[client].(sent := hist[client].sent + state.writeBuffer[..sent])];
      state := state.(writeBuffer := state.writeBuffer[sent..]);
      if state.writeBuffer == "" {
        state := state.(writePending := false);
      }
      connections := connections[client := state];
      return false;
    }

    /** Moves the contiguous replies of one connection to its write buffer. */
    method FlushReplies(client: Socket)
      requires client in connections
      modifies this`connections
      ensures connections == old(connections)[client := Flush(old(connections)[client])]
    {
      while connections[client].nextSeqExpected in connections[client].outOfOrder
        invariant client in connections
        invariant connections == old(connections)[client := connections[client]]
        invariant Flush(connections[client]) == Flush(old(connections)[client])
        decreases |connections[client].outOfOrder|
      {
        var state := connections[client];
        RemoveShrinks(state.outOfOrder, state.nextSeqExpected);
        connections := connections[client := FlushOne(state)];
      }
    }

    /** One result: buffered, then everything contiguous flushed; dropped if its connection is gone. */
    method DeliverResult(r: TaskResult)
      requires phase == Loop && drained != [] && r == drained[0]
      modifies this`connections, this`drained
      ensures connections == DrainOne(old(connections), r) && drained == old(drained)[1..]
    {
      hide Flush;
      if r.fd in connections {
        var state := connections[r.fd];
        connections := connections[r.fd := state.(outOfOrder := state.outOfOrder[r.seqno := r.response])];
        FlushReplies(r.fd);
      }
      drained := drained[1..];
    }

    method DeliverAllResults(results: seq<TaskResult>)
      requires phase == Loop && drained == results
      modifies this`connections, this`drained
      ensures connections == DrainInto(old(connections), results) && drained == []
    {
      hide DrainOne;
      for i := 0 to |results|
        invariant drained == results[i..]
        invariant connections == DrainInto(old(connections), results[..i])
      {
        assert results[..i + 1][..i] == results[..i];
        DeliverResult(results[i]);
      }
      assert results[..|results|] == results;
    }

    method DrainCompletionQueue()
      requires AtRest(View())
      modifies this`connections, this`drained, pool.completionQueue
      ensures Reaches(old(View()), View()) && AtRest(View())
      ensures View() == DrainedAll(old(View())) && connections.Keys == old(connections.Keys)
    {
      hide Reaches, DrainInto;
      DrainLeads(View());
      var results := pool.completionQueue.Drain([]);
      assert results == old(pool.completionQueue.queue);
      drained := results;
      DeliverAllResults(results);
      DrainPerConnection(old(connections), results);
    }

    /** The backpressure check at the top of the event loop. */
    method UnpauseReads()
      requires AtRest(View())
      modifies this`pausedReads
      ensures View() == After(old(View()), Unpause) && Reaches(old(View()), View())
    {
      hide Reaches;
      ReachesStep(View(), Unpause);
      var queueSize := pool.QueueSize();
      if queueSize * 10 < pool.maxQueueSize * 7 {
        pausedReads := {};
      } else {
        pausedReads := set fd | fd in pausedReads
                              && !(fd in connections && connections[fd].inFlight < MAX_PIPELINE_DEPTH);
      }
    }

    method RebuildPollSet() returns (polls: seq<PollFd>)
      requires WorldOk(View())
      ensures PollSetOf(View(), polls)
    {
      hide WorldOk;
      polls := [];
      var rest := connections.Keys;
      while rest != {}
        invariant rest <= connections.Keys
        invariant forall i :: 0 <= i < |polls| ==> Wanted(View(), polls[i]) && polls[i].fd !in rest
        invariant forall i, j :: 0 <= i < j < |polls| ==> polls[i].fd != polls[j].fd
        invariant forall fd :: fd in connections && fd !in rest ==> exists i :: 0 <= i < |polls| && polls[i].fd == fd
        decreases |rest|
      {
        var fd :| fd in rest;
        PendingIsNonEmpty(View(), fd);
        ghost var before := polls;
        polls := polls + [PollFd(fd, fd !in pausedReads, connections[fd].writePending)];
        assert polls[|before|].fd == fd;
        assert forall i :: 0 <= i < |before| ==> polls[i] == before[i];
        rest := rest - {fd};
      }
    }

    /** One entry of the poll set; `times` counts the calls of disconnect. */
    method HandleEvent(p: PollFd, e: Polled, allow: nat -> bool, others: nat -> seq<PoolStep>) returns (times: nat)
      requires AtRest(View()) && WorldOk(View()) && p.fd in connections
      requires e.received.Some? ==> e.received.value != ""
      modifies this, pool, pool.completionQueue
      ensures View() == Handled(old(View()), p, e, allow, others)
      ensures Reaches(old(View()), View()) && AtRest(View()) && times <= 1
      ensures connections.Keys == old(connections.Keys) - if times == 1 then {p.fd} else {}
      ensures e.hangup ==> times == 1
      ensures forall fd :: fd in old(hist) && fd != p.fd ==> fd in hist && hist[fd].received == old(hist)[fd].received
      ensures p.fd in connections && p.fd in old(hist) ==>
                p.fd in hist && hist[p.fd].received == old(hist)[p.fd].received + Taken(p, e)
    {
      hide WorldOk, Reaches, After, Received, Wrote;
      if e.hangup {
        DisconnectKeeps(View(), p.fd);
        Disconnect(p.fd);
        return 1;
      }
      times := 0;
      ReachesItself(View());
      if e.readable && p.wantRead {
        var closed := HandleRead(p.fd, e.received, allow, others);
        times := if closed then 1 else 0;
      }
      if e.writable && p.wantWrite {
        ghost var w := View();
        ReachesOk(old(View()), w);
        var closed := HandleWrite(p.fd, e.room);
        ReachesFurther(old(View()), w, View());
        times := if closed then times + 1 else times;
      }
    }

    /** The entries of the poll set, one after the other; returns the handles disconnected. */
    method HandleEvents(polls: seq<PollFd>, events: Socket -> Polled, allow: Socket -> nat -> bool,
                        others: Socket -> nat -> seq<PoolStep>) returns (closed: seq<Socket>)
      requires AtRest(View()) && WorldOk(View())
      requires forall i, j :: 0 <= i < j < |polls| ==> polls[i].fd != polls[j].fd
      requires forall i :: 0 <= i < |polls| ==> polls[i].fd in connections
      requires forall fd :: events(fd).received.Some? ==> events(fd).received.value != ""
      modifies this, pool, pool.completionQueue
      ensures View() == HandledAll(old(View()), polls, events, allow, others)
      ensures Reaches(old(View()), View()) && AtRest(View())
      ensures forall i, j :: 0 <= i < j < |closed| ==> closed[i] != closed[j]
      ensures forall i :: 0 <= i < |closed| ==> exists j :: 0 <= j < |polls| && polls[j].fd == closed[i]
      ensures connections.Keys == old(connections.Keys) - (set fd | fd in closed)
      ensures forall i :: 0 <= i < |polls| && events(polls[i].fd).hangup ==> polls[i].fd in closed
      ensures TookAll(old(hist), hist, connections, polls, events, |polls|)
    {
      hide WorldOk, Reaches, After, Handled, TookAll, TookNothing, Taken;
      closed := [];
      TookNothingYet(hist, connections, polls, events);
      ReachesItself(View());
      for i := 0 to |polls|
        invariant View() == HandledAll(old(View()), polls[..i], events, allow, others)
        invariant Reaches(old(View()), View()) && AtRest(View()) && WorldOk(View())
        invariant forall k, l :: 0 <= k < l < |closed| ==> closed[k] != closed[l]
        invariant forall k :: 0 <= k < |closed| ==> exists j :: 0 <= j < i && polls[j].fd == closed[k]
        invariant connections.Keys == old(connections.Keys) - (set fd | fd in closed)
        invariant forall k :: 0 <= k < i && events(polls[k].fd).hangup ==> polls[k].fd in closed
        invariant TookAll(old(hist), hist, connections, polls, events, i) && TookNothing(old(hist), hist, polls, i)
      {
        ghost var w, conns, h := View(), connections, hist;
        var fd := polls[i].fd;
        assert polls[..i + 1][..i] == polls[..i];
        var times := HandleEvent(polls[i], events(fd), allow(fd), others(fd));
        ReachesFurther(old(View()), w, View());
        ReachesOk(w, View());
        TookNext(old(hist), h, hist, conns, connections, polls, events, i);
        if times == 1 {
          closed := closed + [fd];
        }
      }
      assert polls[..|polls|] == polls;
    }

    /** The first part of a turn: drain, unpause, build the poll set. */
    method Prepare() returns (polls: seq<PollFd>)
      requires AtRest(View()) && WorldOk(View())
      modifies this`connections, this`drained, this`pausedReads, pool.completionQueue
      ensures View() == BeforePoll(old(View())) && PollSetOf(View(), polls)
      ensures Reaches(old(View()), View()) && AtRest(View()) && WorldOk(View())
      ensures connections.Keys == old(connections.Keys)
    {
      hide WorldOk, Reaches, After, DrainInto;
      DrainCompletionQueue();
      label drain:
      UnpauseReads();
      ReachesFurther(old(View()), old@drain(View()), View());
      ReachesOk(old(View()), View());
      polls := RebuildPollSet();
    }

    /** The second part: accept, then every ready socket. */
    method Serve(client: Option<Socket>, ip: string, polls: seq<PollFd>, events: Socket -> Polled,
                 allow: Socket -> nat -> bool, others: Socket -> nat -> seq<PoolStep>) returns (closed: seq<Socket>)
      requires AtRest(View()) && WorldOk(View()) && PollSetOf(View(), polls)
      requires client.Some? ==> NothingOutstanding(View(), client.value)
      requires forall fd :: events(fd).received.Some? ==> events(fd).received.value != ""
      modifies this, pool, pool.completionQueue
      ensures View() == HandledAll(Accepted(old(View()), client, ip), polls, events, allow, others)
      ensures Reaches(old(View()), View()) && AtRest(View())
      ensures forall i, j :: 0 <= i < j < |closed| ==> closed[i] != closed[j]
      ensures forall i :: 0 <= i < |closed| ==> closed[i] in old(connections) && closed[i] !in connections
      ensures forall fd :: fd in old(connections) && fd !in closed ==> fd in connections
      ensures forall i :: 0 <= i < |polls| && events(polls[i].fd).hangup ==> polls[i].fd in closed
      ensures TookAll(old(hist), hist, connections, polls, events, |polls|)
      ensures client.Some? && |old(connections)| < 10000 ==> client.value in connections
    {
      PolledAreLive(View(), polls);
      if client.Some? {
        UnusedIsFree(View(), client.value);
      }
      hide WorldOk, Reaches, After, NothingOutstanding, HandledAll, Accepted, TookAll, Taken, PollSetOf;
      AcceptedClient(View(), client, ip);
      AcceptConnection(client, ip);
      label events:
      closed := HandleEvents(polls, events, allow, others);
      TookFromEqual(old(hist), old@events(hist), hist, connections, polls, events);
      ReachesFurther(old(View()), old@events(View()), View());
    }

    /**
     One turn of the event loop: drain, unpause, poll, then every ready socket. `ready` is
     false when poll fails or times out. Returns the poll set and the handles disconnected,
     in order.
     */
    method Tick(ready: bool, client: Option<Socket>, ip: string, events: Socket -> Polled,
                allow: Socket -> nat -> bool, others: Socket -> nat -> seq<PoolStep>)
      returns (polls: seq<PollFd>, closed: seq<Socket>)
      requires AtRest(View()) && WorldOk(View())
      requires client.Some? ==> NothingOutstanding(BeforePoll(View()), client.value)
      requires forall fd :: events(fd).received.Some? ==> events(fd).received.value != ""
      modifies this, pool, pool.completionQueue
      ensures PollSetOf(BeforePoll(old(View())), polls)
      ensures View() == Turn(old(View()), ready, client, ip, polls, events, allow, others)
      ensures Reaches(old(View()), View()) && AtRest(View()) && WorldOk(View())
      ensures forall i, j :: 0 <= i < j < |closed| ==> closed[i] != closed[j]
      ensures forall i :: 0 <= i < |closed| ==> closed[i] in old(connections) && closed[i] !in connections
      ensures forall fd :: fd in old(connections) && fd !in closed ==> fd in connections
      ensures ready ==> forall i :: 0 <= i < |polls| && events(polls[i].fd).hangup ==> polls[i].fd in closed
      ensures ready ==> TookAll(old(hist), hist, connections, polls, events, |polls|)
      ensures ready && client.Some? && |old(connections)| < 10000 ==> client.value in connections
    {
      hide WorldOk, Reaches, BeforePoll, PollSetOf, NothingOutstanding, HandledAll, Accepted, TookAll;
      polls := Prepare();
      closed := [];
      if !ready {
        return;
      }
      label serve:
      SameSize(old(connections), connections);
      closed := Serve(client, ip, polls, events, allow, others);
      ReachesFurther(old(View()), old@serve(View()), View());
      ReachesOk(old(View()), View());
    }

    /** After the loop: every connection is closed and forgotten. */
    method CloseAll()
      requires AtRest(View())
      modifies this`connections, this`phase
      ensures View() == After(old(View()), Step.Stop) && Reaches(old(View()), View())
    {
      hide Reaches;
      ReachesStep(View(), Step.Stop);
      connections := map[];
      phase := Stopped;
    }
  }
}
