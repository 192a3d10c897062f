/**
 The double-buffered append-only log: commands go to the active buffer while a flush
 thread swaps the buffers and writes the other one to the file.
 */
module Aof {

  /** Where the flush thread is: about to test `running_`, to swap, in the middle of a write, or gone. */
  datatype FlushThread = NotStarted | Testing | Swapping | Writing | Exited

  /** `written` lines of the flush buffer are in the file; `accepted` is every command `log` took. */
  datatype Logger = Logger(
    active: seq<string>, flush: seq<string>, written: nat, file: seq<string>,
    running: bool, closed: bool, thread: FlushThread, accepted: seq<string>)

  const NewLogger := Logger([], [], 0, [], false, false, NotStarted, [])

  /** Critical sections and single writes, by whichever thread performs them. */
  datatype Step =
    | Start
    | Log(command: string)
    | TestRunning
    | Swap
    | WriteLine
    | ClearFlushed
    | StopRunning
    | FlushAndClose

  predicate Enabled(s: Logger, step: Step) {
    match step
    case Start => s.thread == NotStarted && !s.closed
    case Log(_) => true
    case TestRunning => s.thread == Testing
    case Swap => s.thread == Swapping
    case WriteLine => s.thread == Writing && s.written < |s.flush|
    case ClearFlushed => s.thread == Writing && s.written == |s.flush|
    case StopRunning => s.running
    case FlushAndClose => s.thread == Exited && !s.closed
  }

  function Next(s: Logger, step: Step): Logger
    requires Enabled(s, step)
  {
    match step
    case Start => s.(running := true, thread := Testing)
    case Log(c) => if s.running then s.(active := s.active + [c], accepted := s.accepted + [c]) else s
    case TestRunning => s.(thread := if s.running then Swapping else Exited)
    case Swap => s.(active := s.flush, flush := s.active, written := 0, thread := Writing)
    case WriteLine => s.(file := s.file + [s.flush[s.written]], written := s.written + 1)
    case ClearFlushed => s.(flush := [], written := 0, thread := Testing)
    case StopRunning => s.(running := false)
    case FlushAndClose => s.(file := s.file + s.active, active := [], closed := true)
  }

  predicate ValidRun(s: Logger, steps: seq<Step>)
    decreases |steps|
  {
    steps == [] || (Enabled(s, steps[0]) && ValidRun(Next(s, steps[0]), steps[1..]))
  }

  function Run(s: Logger, steps: seq<Step>): Logger
    requires ValidRun(s, steps)
    decreases |steps|
  {
    if steps == [] then s else Run(Next(s, steps[0]), steps[1..])
  }

  /** Nothing is lost, duplicated or reordered between the buffers and the file. */
  predicate Inv(s: Logger) {
    && s.written <= |s.flush|
    && s.file + s.flush[s.written..] + s.active == s.accepted
    && (s.thread != Writing ==> s.flush == [])
    && (s.thread == Exited ==> !s.running)
    && (s.thread == NotStarted ==> !s.running && s.active == [])
    && (s.closed ==> s.thread == Exited && s.active == [])
  }

  lemma StepKeepsInv(s: Logger, step: Step)
    requires Inv(s) && Enabled(s, step)
    ensures Inv(Next(s, step))
  {
    var s' := Next(s, step);
    match step
    case Log(c) =>
      if s.running {
        assert s.file + s.flush[s.written..] + (s.active + [c]) == s.accepted + [c];
      }
    case Swap =>
      assert s'.flush[0..] == s.active;
    case WriteLine =>
      assert s.flush[s.written..] == [s.flush[s.written]] + s.flush[s.written + 1..];
    case FlushAndClose =>
      assert s.flush[s.written..] == [] && s'.file + [] + [] == s.accepted;
    case _ =>
  }

  lemma {:induction false} RunKeepsInv(s: Logger, steps: seq<Step>)
    requires Inv(s) && ValidRun(s, steps)
    ensures Inv(Run(s, steps))
    decreases |steps|
  {
    if steps != [] {
      StepKeepsInv(s, steps[0]);
      RunKeepsInv(Next(s, steps[0]), steps[1..]);
    }
  }

  /** In every interleaving: file, then the unwritten flush buffer, then the active one, make up the log. */
  lemma NothingLost(steps: seq<Step>)
    requires ValidRun(NewLogger, steps)
    ensures var s := Run(NewLogger, steps);
            && s.written <= |s.flush|
            && s.file + s.flush[s.written..] + s.active == s.accepted
            && (Enabled(s, Swap) ==> s.flush == [])
  {
    RunKeepsInv(NewLogger, steps);
  }

  /** Once `shutdown` has returned, the file holds every accepted command exactly once, in order. */
  lemma ShutdownWritesEverything(steps: seq<Step>)
    requires ValidRun(NewLogger, steps) && Run(NewLogger, steps).closed
    ensures Run(NewLogger, steps).file == Run(NewLogger, steps).accepted
  {
    RunKeepsInv(NewLogger, steps);
  }

  /** The commands of a run that found the logger running. */
  function Taken(s: Logger, steps: seq<Step>): seq<string>
    requires ValidRun(s, steps)
    decreases |steps|
  {
    if steps == [] then []
    else (if steps[0].Log? && s.running then [steps[0].command] else []) + Taken(Next(s, steps[0]), steps[1..])
  }

  lemma NextAccepted(s: Logger, step: Step)
    requires Enabled(s, step)
    ensures Next(s, step).accepted == s.accepted + if step.Log? && s.running then [step.command] else []
  {
  }

  lemma {:induction false} AcceptedIsTaken(s: Logger, steps: seq<Step>)
    requires ValidRun(s, steps)
    ensures Run(s, steps).accepted == s.accepted + Taken(s, steps)
    decreases |steps|
  {
    hide Next, Enabled;
    if steps != [] {
      NextAccepted(s, steps[0]);
      AcceptedIsTaken(Next(s, steps[0]), steps[1..]);
    }
  }

  lemma {:induction false} StoppedTakesNothing(s: Logger, steps: seq<Step>)
    requires ValidRun(s, steps) && !s.running && s.thread != NotStarted
    ensures Taken(s, steps) == []
    decreases |steps|
  {
    if steps != [] {
      StoppedTakesNothing(Next(s, steps[0]), steps[1..]);
    }
  }

  // ----- Single steps, for the threads that take them

  lemma WrittenInRange(s: Logger)
    requires Inv(s)
    ensures s.written <= |s.flush|
  {
  }

  lemma SliceGrows(buffer: seq<string>, from: nat, i: nat)
    requires from <= i < |buffer|
    ensures buffer[from..i + 1] == buffer[from..i] + [buffer[i]]
  {
  }

  lemma WriteLineIs(s: Logger)
    requires Enabled(s, WriteLine)
    ensures Next(s, WriteLine) == s.(file := s.file + [s.flush[s.written]], written := s.written + 1)
  {
  }

  lemma ClearFlushedIs(s: Logger)
    requires Enabled(s, ClearFlushed)
    ensures Next(s, ClearFlushed) == s.(flush := [], written := 0, thread := Testing)
  {
  }

  lemma SwapIs(s: Logger)
    requires Enabled(s, Swap)
    ensures Next(s, Swap) == s.(active := s.flush, flush := s.active, written := 0, thread := Writing)
  {
  }

  lemma RoundStarts(s: Logger)
    requires Inv(s) && s.thread == Testing && s.running
    ensures Inv(s.(thread := Swapping))
  {
    StepKeepsInv(s, TestRunning);
  }

  lemma LoopEnds(s: Logger)
    requires Inv(s) && s.thread == Testing && !s.running
    ensures Inv(s.(thread := Exited)) && !s.closed
  {
    StepKeepsInv(s, TestRunning);
  }

  lemma RunningThread(s: Logger)
    requires Inv(s) && s.running
    ensures s.thread == Testing || s.thread == Swapping || s.thread == Writing
  {
  }

  /** Between two rounds the flush buffer is empty. */
  lemma AllInActive(s: Logger)
    requires Inv(s) && s.thread == Testing
    ensures s.flush == [] && s.file + s.active == s.accepted
  {
    assert s.flush[s.written..] == [];
    assert s.file + [] == s.file;
  }

  // ----- The class

  class AofLogger {
    var bufferA: seq<string>
    var bufferB: seq<string>
    var activeIsA: bool
    var file: seq<string>
    var running: bool
    var replaying: bool
    /** How far the flush thread has got in its loop. */
    var written: nat
    ghost var closed: bool
    var thread: FlushThread
    ghost var accepted: seq<string>

    ghost function State(): Logger
      reads this
    {
      Logger(if activeIsA then bufferA else bufferB, if activeIsA then bufferB else bufferA,
             written, file, running, closed, thread, accepted)
    }

    ghost predicate Valid()
      reads this
    {
      Inv(State())
    }

    constructor ()
      ensures State() == NewLogger && Valid() && !replaying
    {
      bufferA, bufferB, activeIsA, file := [], [], true, [];
      running, replaying := false, false;
      written, closed, thread, accepted := 0, false, NotStarted, [];
    }

    /** Opens the file and starts the flush thread. */
    method Begin()
      requires Valid() && thread == NotStarted
      modifies this
      ensures Valid() && State() == Next(old(State()), Start) && replaying == old(replaying)
    {
      StepKeepsInv(State(), Start);
      running, thread := true, Testing;
    }

    method SetReplaying(v: bool)
      modifies this`replaying
      ensures replaying == v
    {
      replaying := v;
    }

    method LogCommand(command: string)
      requires Valid()
      modifies this
      ensures Valid() && replaying == old(replaying) && activeIsA == old(activeIsA)
      ensures State() == Next(old(State()), Log(command))
    {
      StepKeepsInv(State(), Log(command));
      if running {
        if activeIsA {
          bufferA := bufferA + [command];
        } else {
          bufferB := bufferB + [command];
        }
        accepted := accepted + [command];
      }
    }

    /** Between two steps of the flush thread others log, and one of them may stop the logger. */
    method Others(commands: seq<string>, stop: bool)
      requires Valid()
      modifies this
      ensures Valid() && replaying == old(replaying) && activeIsA == old(activeIsA)
      ensures var added := if old(running) then commands else [];
              State() == old(State()).(active := old(State()).active + added, accepted := old(accepted) + added,
                                       running := old(running) && !stop)
    {
      hide Inv;
      ghost var before := State();
      for i := 0 to |commands|
        invariant Valid() && running == before.running && replaying == old(replaying) && activeIsA == old(activeIsA)
        invariant var added := if before.running then commands[..i] else [];
                  State() == before.(active := before.active + added, accepted := before.accepted + added)
      {
        assert commands[..i + 1] == commands[..i] + [commands[i]];
        LogCommand(commands[i]);
      }
      assert commands[..|commands|] == commands;
      if stop && running {
        StepKeepsInv(State(), StopRunning);
        running := false;
      }
    }

    method SwapBuffers()
      requires Valid() && thread == Swapping
      modifies this
      ensures Valid() && State() == Next(old(State()), Swap)
    {
      StepKeepsInv(State(), Swap);
      activeIsA := !activeIsA;
      written, thread := 0, Writing;
    }

    /** One line of the flush buffer goes to the file. */
    method WriteNext(line: string)
      requires Valid() && thread == Writing && written < |State().flush| && line == State().flush[written]
      modifies this`file, this`written
      ensures Valid() && State() == Next(old(State()), WriteLine)
    {
      hide Inv;
      StepKeepsInv(State(), WriteLine);
      file := file + [line];
      written := written + 1;
    }

    /** One line is written, after others have logged. */
    method WriteAmidOthers(line: string, commands: seq<string>, stop: bool)
      requires Valid() && thread == Writing && written < |State().flush| && line == State().flush[written]
      modifies this
      ensures Valid() && thread == Writing && written == old(written) + 1 && activeIsA == old(activeIsA)
      ensures State().flush == old(State()).flush && file == old(file) + [line] && closed == old(closed)
      ensures old(State()).active <= State().active && old(accepted) <= accepted
      ensures !old(running) ==> !running && accepted == old(accepted)
    {
      hide Inv, Next;
      Others(commands, stop);
      WriteLineIs(State());
      WriteNext(line);
    }

    method ClearFlushBuffer()
      requires Valid() && thread == Writing && written == |State().flush|
      modifies this`bufferA, this`bufferB, this`written, this`thread
      ensures Valid() && State() == Next(old(State()), ClearFlushed)
    {
      hide Inv;
      StepKeepsInv(State(), ClearFlushed);
      if activeIsA {
        bufferB := [];
      } else {
        bufferA := [];
      }
      written, thread := 0, Testing;
    }

    /**
     Writes what is left of the flush buffer, line by line and outside the lock; before line
     `i` other threads log `arrivals(i)`, and stop the logger if `stops(i)`.
     */
    method WriteBufferToDisk(arrivals: nat -> seq<string>, stops: nat -> bool)
      requires Valid() && thread == Writing
      modifies this
      ensures Valid() && thread == Testing && State().flush == []
      ensures file == old(file) + old(State()).flush[old(written)..]
      ensures old(State()).active <= State().active && old(accepted) <= accepted && closed == old(closed)
      ensures !old(running) ==> !running && accepted == old(accepted)
    {
      hide Inv, Next;
      ghost var before := State();
      WrittenInRange(before);
      var buffer := if activeIsA then bufferB else bufferA;
      var from := written;
      for i := from to |buffer|
        invariant Valid() && thread == Writing && written == i
        invariant State().flush == buffer == before.flush
        invariant file == before.file + buffer[from..i]
        invariant before.active <= State().active && before.accepted <= accepted
        invariant closed == before.closed && activeIsA == old(activeIsA)
        invariant !before.running ==> !running && accepted == before.accepted
      {
        WriteAmidOthers(buffer[i], arrivals(i), stops(i));
        SliceGrows(buffer, from, i);
      }
      ClearFlushedIs(State());
      ClearFlushBuffer();
      assert buffer[from..|buffer|] == before.flush[before.written..];
    }

    /** `shutdown` after the flush thread has been joined: what is left in the active buffer goes out. */
    method FlushAndCloseFile()
      requires Valid() && thread == Exited && !closed
      modifies this
      ensures Valid() && State() == Next(old(State()), FlushAndClose)
      ensures file == accepted
    {
      StepKeepsInv(State(), FlushAndClose);
      var buffer := if activeIsA then bufferA else bufferB;
      ghost var before := file;
      for i := 0 to |buffer|
        invariant file == before + buffer[..i]
        invariant State() == old(State()).(file := file) && replaying == old(replaying)
      {
        file := file + [buffer[i]];
        assert buffer[..i + 1] == buffer[..i] + [buffer[i]];
      }
      assert buffer[..|buffer|] == buffer;
      if activeIsA {
        bufferA := [];
      } else {
        bufferB := [];
      }
      closed := true;
    }

    /**
     One round: wait while others log and perhaps stop the logger, swap, write. Everything
     accepted up to the swap is in the file afterwards.
     */
    method FlushRound(waits: seq<string>, stop: bool, arrivals: nat -> seq<string>, stops: nat -> bool)
      requires Valid() && thread == Testing && running
      modifies this
      ensures Valid() && thread == Testing && closed == old(closed) && old(accepted) <= accepted
      ensures file == old(accepted) + waits && old(file) <= file
    {
      hide Inv, Next;
      AllInActive(State());
      RoundStarts(State());
      thread := Swapping;
      Others(waits, stop);
      SwapIs(State());
      SwapBuffers();
      WriteBufferToDisk(arrivals, stops);
      assert file == old(file) + (old(State()).active + waits);
    }

    /**
     The flush thread: each round it finds `running_` set, waits, swaps and writes, while
     others log and perhaps stop the logger at any moment. `rounds` bounds how long the run
     is watched; after one of them everything accepted before is in the file.
     */
    method FlushLoop(waits: nat -> seq<string>, stop: nat -> bool, arrivals: nat -> nat -> seq<string>,
                     stops: nat -> nat -> bool, rounds: nat)
      requires Valid() && thread == Testing
      modifies this
      ensures Valid() && (thread == Testing || thread == Exited) && closed == old(closed)
      ensures old(accepted) <= accepted && (thread == Exited <==> !running)
      ensures old(file) <= file && (old(running) && rounds >= 1 ==> old(accepted) <= file)
    {
      hide Inv, Next;
      var n := 0;
      while running && n < rounds
        invariant Valid() && thread == Testing && closed == old(closed)
        invariant old(accepted) <= accepted && old(file) <= file
        invariant if n == 0 then running == old(running) else old(accepted) <= file
        decreases rounds - n
      {
        FlushRound(waits(n), stop(n), arrivals(n), stops(n));
        n := n + 1;
      }
      if !running {
        LoopEnds(State());
        thread := Exited;
      }
    }

    /** With the flag cleared, the flush thread finishes its round from wherever it is, and returns. */
    method Join()
      requires Valid() && !running && (thread == Testing || thread == Swapping || thread == Writing)
      modifies this
      ensures Valid() && !running && thread == Exited && !closed && accepted == old(accepted)
    {
      hide Inv, Next;
      if thread == Swapping {
        SwapIs(State());
        SwapBuffers();
      }
      if thread == Writing {
        WriteBufferToDisk(_ => [], _ => false);
      }
      LoopEnds(State());
      thread := Exited;
    }

    /**
     Stops, waits for the flush thread, flushes and closes. A second call does nothing.
     */
    method Shutdown()
      requires Valid()
      modifies this
      ensures Valid() && !running && accepted == old(accepted)
      ensures if old(running) then closed && file == accepted else State() == old(State())
    {
      if !running {
        return;
      }
      hide Inv;
      RunningThread(State());
      StepKeepsInv(State(), StopRunning);
      running := false;
      Join();
      FlushAndCloseFile();
    }
  }
}
