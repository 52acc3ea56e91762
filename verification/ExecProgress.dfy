/**
 Streaming exec sessions come to an end. Once the process has exited and its
 outputs are closed, a session needs only its own steps, and a receiver that
 reads on, to finish; whether the process ever reads stdin does not matter.
 */
module ExecProgress {
  import opened Prelude
  import opened Wire
  import opened ExecRegistry
  import opened ExecSession

  /** The steps of the driver, the demux and the pumps, and the receiver's reads. */
  predicate Own(a: Action) {
    || a.Receive? || a.DemuxStep? || a.PumpStep? || a.Register? || a.Announce?
    || a.LoopExit? || a.LoopSignal? || a.LoopClose?
    || a.PumpsJoined? || a.SendTerminal? || a.RemoveRecord? || a.SendTerm? || a.SendKill?
  }

  /** The runtime has started the process, and has nothing more to say about it. */
  predicate Settled(s: Session) {
    PidOf(s.pc).Some? && !s.exit.Pending? && s.out.closed && s.err.closed
  }

  // ---- own steps run out ----

  function PcRank(pc: Pc): nat {
    match pc
    case AwaitStart => 30
    case Starting => 30
    case Registering(_) => 20
    case Announcing(_) => 19
    case Looping(_) => 12
    case Draining(_, _) => 11
    case Concluding(_, _, _) => 9
    case Hooking(_) => 6
    case Terminating(_) => 5
    case Killing(_) => 4
    case Finished(_) => 0
  }

  /** Chunks still to forward, and the pump's own end. */
  function PipeWork(p: Pipe): nat {
    2 * |p.queue| + if p.pump.Pumping? then 1 else 0
  }

  function Unread(s: Session): nat {
    if s.received <= |s.trace| then |s.trace| - s.received else 0
  }

  function DemuxWork(s: Session): nat {
    2 * |s.inbox| + |s.demux.signalQ| + if s.demux.mode.Active? then 1 else 0
  }

  function Measure(s: Session): nat {
    PcRank(s.pc) + PipeWork(s.out) + PipeWork(s.err) + Unread(s) + DemuxWork(s)
  }

  lemma DemuxWorks(s: Session, a: Action)
    requires Enabled(s, a) && a.DemuxStep?
    ensures DemuxWork(Step(s, a)) < DemuxWork(s)
  {
  }

  lemma PumpWorks(s: Session, a: Action)
    requires Enabled(s, a) && a.PumpStep?
    ensures PipeWork(Step(s, a).out) + PipeWork(Step(s, a).err) + Unread(Step(s, a)) <
            PipeWork(s.out) + PipeWork(s.err) + Unread(s)
  {
  }

  lemma DriverWorks(s: Session, a: Action)
    requires Enabled(s, a) && Own(a) && IsDriver(a)
    ensures Measure(Step(s, a)) < Measure(s)
  {
  }

  lemma OwnStepDecreases(s: Session, a: Action)
    requires Enabled(s, a) && Own(a)
    ensures Measure(Step(s, a)) < Measure(s)
  {
    if a.DemuxStep? {
      DemuxWorks(s, a);
    } else if a.PumpStep? {
      PumpWorks(s, a);
    } else if IsDriver(a) {
      DriverWorks(s, a);
    }
  }

  // ---- and do so only at the end ----

  lemma OwnStepKeepsSettled(s: Session, a: Action)
    requires Settled(s) && KillOk(s) && Enabled(s, a) && Own(a)
    ensures Settled(Step(s, a))
  {
    PidStays(s, a);
  }

  /** A frame can be sent, or there is one to be read first. */
  lemma RoomOrRead(s: Session)
    ensures Room(s) || Enabled(s, Receive)
  {
  }

  lemma PumpOrRead(s: Session, k: Kind) returns (a: Action)
    requires PipeOf(s, k).pump.Pumping? && PipeOf(s, k).closed
    ensures Own(a) && Enabled(s, a)
  {
    RoomOrRead(s);
    a := if PipeOf(s, k).queue == [] || Room(s) then PumpStep(k) else Receive;
  }

  lemma SomeOwnStep(s: Session) returns (a: Action)
    requires Settled(s) && !s.pc.Finished?
    ensures Own(a) && Enabled(s, a)
  {
    RoomOrRead(s);
    match s.pc
    case Registering(_) => a := Register;
    case Announcing(_) => a := if Room(s) then Announce else Receive;
    case Looping(_) => a := LoopExit;
    case Draining(_, _) =>
      if s.out.pump.Pumping? {
        a := PumpOrRead(s, AsStdout);
      } else if s.err.pump.Pumping? {
        a := PumpOrRead(s, AsStderr);
      } else {
        a := PumpsJoined;
      }
    case Concluding(_, _, _) => a := if Room(s) then SendTerminal else Receive;
    case Hooking(_) => a := RemoveRecord;
    case Terminating(_) => a := SendTerm;
    case Killing(_) => a := SendKill;
  }

  /** No step of the session itself is left. */
  ghost predicate Quiescent(s: Session) {
    forall a :: Own(a) ==> !Enabled(s, a)
  }

  /** A settled session with no step left has finished, by itself or killed, and its record is gone. */
  lemma {:induction false} QuiescentIsFinished(container: string, run: seq<Action>)
    requires Exec(container, run).Some? && Settled(Exec(container, run).value) && Quiescent(Exec(container, run).value)
    ensures var s := Exec(container, run).value;
            s.pc.Finished? && (s.pc.end.Natural? || s.pc.end.Killed?) && s.slot == None
  {
    var s := Exec(container, run).value;
    if !s.pc.Finished? {
      var a := SomeOwnStep(s);
      assert false;
    }
    RunKeepsKill(container, run);
  }

  /** Only own steps are added. */
  predicate Extends(run: seq<Action>, whole: seq<Action>) {
    run <= whole && forall i :: |run| <= i < |whole| ==> Own(whole[i])
  }

  /** However far a settled session has got, its own steps lead it to its end, at most as many as the measure says. */
  lemma {:induction false} SessionEnds(container: string, run: seq<Action>) returns (whole: seq<Action>)
    requires Exec(container, run).Some? && Settled(Exec(container, run).value)
    ensures Extends(run, whole) && Exec(container, whole).Some?
    ensures var s := Exec(container, whole).value;
            s.pc.Finished? && (s.pc.end.Natural? || s.pc.end.Killed?) && s.slot == None
    ensures |whole| - |run| <= Measure(Exec(container, run).value)
    decreases Measure(Exec(container, run).value)
  {
    var s := Exec(container, run).value;
    RunKeepsKill(container, run);
    if s.pc.Finished? {
      whole := run;
    } else {
      var a := SomeOwnStep(s);
      assert (run + [a])[..|run|] == run;
      OwnStepDecreases(s, a);
      OwnStepKeepsSettled(s, a);
      whole := SessionEnds(container, run + [a]);
    }
  }

  /** Own steps alone never go on for ever, in any order. */
  lemma {:induction false} OwnStepsRunOut(container: string, run: seq<Action>, whole: seq<Action>)
    requires Exec(container, whole).Some? && Extends(run, whole)
    ensures Exec(container, run).Some?
    ensures |whole| - |run| + Measure(Exec(container, whole).value) <= Measure(Exec(container, run).value)
    decreases |whole|
  {
    if |whole| > |run| {
      var front := whole[..|whole| - 1];
      assert forall i :: |run| <= i < |front| ==> front[i] == whole[i];
      OwnStepsRunOut(container, run, front);
      OwnStepDecreases(Exec(container, front).value, whole[|whole| - 1]);
    } else {
      assert run == whole;
    }
  }
}
