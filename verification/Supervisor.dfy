/** The checkpoint-driven autonomy loop of one session, and the same thing said
    about the event history alone. */
module Supervisor {
  import opened Events
  import opened RestartTracking

  datatype Phase = Running | WaitingHitl | Paused | Crashed | Ended

  datatype SupervisorAction =
    | Idle | PromptedAgent | PausedChild | ShutdownRequested | HitlAwaiting | LoggedOnly | CrashSeen | EndSeen

  /** A call on the session driver. */
  datatype Call = SendAgentPrompt | PauseProcess | ShutdownSession

  /** `lastCheckpoint` is the interrupt decision of the last checkpoint not yet used up. */
  datatype Loop = Loop(phase: Phase, awaiting: Option<TurnId>, lastCheckpoint: Option<Option<Interrupt>>)

  const INITIAL := Loop(Running, None, None)

  predicate IsTerminal(p: Phase) {
    p.Ended? || p.Crashed?
  }

  /** The call a matched `TurnCompleted` leads to, given the checkpoint in hand. */
  function Decide(checkpoint: Option<Option<Interrupt>>): Option<Call> {
    match checkpoint
    case None => Some(SendAgentPrompt)
    case Some(None) => Some(SendAgentPrompt)
    case Some(Some(Hitl(_, _))) => None
    case Some(Some(Pause)) => Some(PauseProcess)
    case Some(Some(Drain)) => Some(ShutdownSession)
  }

  /** The phase after the decision's call, if any, has returned. */
  function PhaseAfter(l: Loop, call: Option<Call>, ok: bool): Phase {
    match call
    case None => WaitingHitl
    case Some(c) =>
      if !ok then Crashed
      else match c
        case SendAgentPrompt => l.phase
        case PauseProcess => Paused
        case ShutdownSession => Ended
  }

  function Handle(l: Loop, e: SessionEvent, ok: bool): (Loop, Option<Call>) {
    if IsTerminal(l.phase) then (l, None)
    else if IsDelivered(e) then (l.(awaiting := Some(e.turnId)), None)
    else if e.CheckpointReached? then (l.(lastCheckpoint := Some(e.interrupt)), None)
    else if e.TurnCompleted? && l.awaiting == Some(e.turnId) then
      var call := Decide(l.lastCheckpoint);
      (Loop(PhaseAfter(l, call, ok), None, None), call)
    else if e.TurnAborted? && l.awaiting == Some(e.turnId) then
      (l.(awaiting := None, lastCheckpoint := None), None)
    else if e.SessionCrashed? then (l.(phase := Crashed), None)
    else if e.SessionEnded? then (l.(phase := Ended), None)
    else (l, None)
  }

  /** The loop object. The driver's answers come in as `driverOk`; the calls
      made on it are recorded. */
  class PerSessionLoop {
    var phase: Phase
    var awaitingTurnCompletion: Option<TurnId>
    var lastCheckpoint: Option<Option<Interrupt>>
    var calls: seq<Call>
    const restartTracker: RestartTracker

    function Abs(): Loop
      reads this
    {
      Loop(phase, awaitingTurnCompletion, lastCheckpoint)
    }

    constructor (tracker: RestartTracker)
      ensures Abs() == INITIAL && phase == Running && calls == [] && restartTracker == tracker
    {
      phase, awaitingTurnCompletion, lastCheckpoint, calls := Running, None, None, [];
      restartTracker := tracker;
    }

    method HandleEvent(e: SessionEvent, driverOk: bool, now: nat) returns (action: SupervisorAction)
      requires restartTracker.Valid() && restartTracker.clock <= now
      modifies this, restartTracker
      ensures restartTracker.Valid() && restartTracker.clock <= now
      ensures Abs() == Handle(old(Abs()), e, driverOk).0
      ensures calls == old(calls) + (match Handle(old(Abs()), e, driverOk).1 case None => [] case Some(c) => [c])
      ensures action == ActionFor(old(Abs()), e, driverOk)
      ensures var crashes := old(restartTracker.grants);
        restartTracker.grants ==
          if IsTerminal(old(phase)) then crashes
          else if e.SessionEnded? then []
          else if e.SessionCrashed?
               && CountIn(crashes, now - restartTracker.window, now) < restartTracker.maxRestarts then crashes + [now]
          else crashes
    {
      if IsTerminal(phase) {
        return Idle;
      }
      match e {
        case AgentPromptDelivered(t) =>
          awaitingTurnCompletion := Some(t);
          action := Idle;
        case HumanPromptDelivered(t) =>
          awaitingTurnCompletion := Some(t);
          action := Idle;
        case CheckpointReached(_, interrupt) =>
          lastCheckpoint := Some(interrupt);
          action := Idle;
        case TurnCompleted(_, _) =>
          action := HandleCompletion(e, driverOk);
        case TurnAborted(t, _) =>
          if awaitingTurnCompletion != Some(t) {
            return Idle;
          }
          awaitingTurnCompletion, lastCheckpoint := None, None;
          action := LoggedOnly;
        case PromptDeliveryFailed(_, _) =>
          action := LoggedOnly;
        case SessionCrashed(_) =>
          phase := Crashed;
          var allowed := restartTracker.RecordRestart(now);
          action := CrashSeen;
        case SessionEnded =>
          phase := Ended;
          restartTracker.Reset();
          action := EndSeen;
        case _ => action := Idle;
      }
    }

    method HandleCompletion(e: SessionEvent, driverOk: bool) returns (action: SupervisorAction)
      requires e.TurnCompleted? && !IsTerminal(phase)
      modifies this
      ensures Abs() == Handle(old(Abs()), e, driverOk).0
      ensures calls == old(calls) + (match Handle(old(Abs()), e, driverOk).1 case None => [] case Some(c) => [c])
      ensures action == ActionFor(old(Abs()), e, driverOk)
    {
      if awaitingTurnCompletion != Some(e.turnId) {
        return Idle;
      }
      awaitingTurnCompletion := None;
      var checkpoint := lastCheckpoint;
      lastCheckpoint := None;
      match checkpoint {
        case None => action := DispatchContinuationPrompt(driverOk);
        case Some(None) => action := DispatchContinuationPrompt(driverOk);
        case Some(Some(Hitl(_, _))) =>
          phase := WaitingHitl;
          action := HitlAwaiting;
        case Some(Some(Pause)) => action := DispatchPause(driverOk);
        case Some(Some(Drain)) => action := DispatchShutdown(driverOk);
      }
    }

    method DispatchContinuationPrompt(ok: bool) returns (action: SupervisorAction)
      modifies this`phase, this`calls
      ensures calls == old(calls) + [SendAgentPrompt] && phase == (if ok then old(phase) else Crashed)
      ensures action == if ok then PromptedAgent else CrashSeen
    {
      calls := calls + [SendAgentPrompt];
      if ok {
        action := PromptedAgent;
      } else {
        phase := Crashed;
        action := CrashSeen;
      }
    }

    method DispatchPause(ok: bool) returns (action: SupervisorAction)
      modifies this`phase, this`calls
      ensures calls == old(calls) + [PauseProcess] && phase == (if ok then Paused else Crashed)
      ensures action == if ok then PausedChild else CrashSeen
    {
      calls := calls + [PauseProcess];
      phase := if ok then Paused else Crashed;
      action := if ok then PausedChild else CrashSeen;
    }

    method DispatchShutdown(ok: bool) returns (action: SupervisorAction)
      modifies this`phase, this`calls
      ensures calls == old(calls) + [ShutdownSession] && phase == (if ok then Ended else Crashed)
      ensures action == if ok then ShutdownRequested else CrashSeen
    {
      calls := calls + [ShutdownSession];
      phase := if ok then Ended else Crashed;
      action := if ok then ShutdownRequested else CrashSeen;
    }
  }

  function ActionFor(l: Loop, e: SessionEvent, ok: bool): SupervisorAction {
    if IsTerminal(l.phase) then Idle
    else if e.TurnCompleted? && l.awaiting == Some(e.turnId) then
      (match Decide(l.lastCheckpoint)
       case None => HitlAwaiting
       case Some(c) => if !ok then CrashSeen
         else match c
           case SendAgentPrompt => PromptedAgent
           case PauseProcess => PausedChild
           case ShutdownSession => ShutdownRequested)
    else if e.TurnAborted? && l.awaiting == Some(e.turnId) then LoggedOnly
    else if e.PromptDeliveryFailed? then LoggedOnly
    else if e.SessionCrashed? then CrashSeen
    else if e.SessionEnded? then EndSeen
    else Idle
  }

  // ---- the same, as a function of the history -----------------------------

  /** An event with the driver's answer to the call it may lead to. */
  datatype Step = Step(event: SessionEvent, ok: bool)

  function After(h: seq<Step>): (Loop, seq<Call>) {
    if h == [] then (INITIAL, [])
    else
      var (l, calls) := After(h[..|h| - 1]);
      var (l', call) := Handle(l, h[|h| - 1].event, h[|h| - 1].ok);
      (l', calls + if call.Some? then [call.value] else [])
  }

  predicate Finishes(e: SessionEvent, t: TurnId) {
    (e.TurnCompleted? || e.TurnAborted?) && e.turnId == t
  }

  /** Among the first `n` events `t` is the latest delivery, and nothing after it finished `t`. */
  ghost predicate Unclosed(h: seq<Step>, n: nat, t: TurnId)
    requires n <= |h|
  {
    exists i :: 0 <= i < n && IsDelivered(h[i].event) && h[i].event.turnId == t && StaysUnclosed(h, i, n, t)
  }

  ghost predicate StaysUnclosed(h: seq<Step>, i: nat, n: nat, t: TurnId)
    requires n <= |h|
  {
    forall j :: i < j < n ==> !IsDelivered(h[j].event) && !Finishes(h[j].event, t)
  }

  /** Event `n` finishes the latest unclosed delivery. */
  ghost predicate MatchedClose(h: seq<Step>, n: nat)
    requires n < |h|
  {
    (h[n].event.TurnCompleted? || h[n].event.TurnAborted?) && Unclosed(h, n, h[n].event.turnId)
  }

  /** Event `i` is the last checkpoint among the first `n`, with no matched close since. */
  ghost predicate CheckpointInHand(h: seq<Step>, i: nat, n: nat)
    requires n <= |h|
  {
    i < n && h[i].event.CheckpointReached?
    && forall j :: i < j < n ==> !h[j].event.CheckpointReached? && !MatchedClose(h, j)
  }

  ghost function InHand(h: seq<Step>, n: nat): Option<Option<Interrupt>>
    requires n <= |h|
  {
    if exists i: nat :: CheckpointInHand(h, i, n)
    then var i: nat :| CheckpointInHand(h, i, n); Some(h[i].event.interrupt)
    else None
  }

  /** What the checkpoint in hand before event `n` asks for: nothing, if there is none or
      it carries no interrupt; else a human, a pause or the end. */
  ghost predicate AsksNothing(h: seq<Step>, n: nat)
    requires n <= |h|
  {
    forall i: nat :: CheckpointInHand(h, i, n) ==> h[i].event.interrupt.None?
  }

  ghost predicate AsksHuman(h: seq<Step>, n: nat)
    requires n <= |h|
  {
    exists i: nat :: CheckpointInHand(h, i, n) && h[i].event.interrupt.Some? && h[i].event.interrupt.value.Hitl?
  }

  ghost predicate AsksPause(h: seq<Step>, n: nat)
    requires n <= |h|
  {
    exists i: nat :: CheckpointInHand(h, i, n) && h[i].event.interrupt == Some(Pause)
  }

  ghost predicate AsksEnd(h: seq<Step>, n: nat)
    requires n <= |h|
  {
    exists i: nat :: CheckpointInHand(h, i, n) && h[i].event.interrupt == Some(Drain)
  }

  /** Event `n` completes the latest unclosed delivery. */
  ghost predicate Due(h: seq<Step>, n: nat)
    requires n < |h|
  {
    h[n].event.TurnCompleted? && MatchedClose(h, n)
  }

  /** A crash, an end, a failed driver call or a shutdown stops the loop. */
  ghost predicate Stops(h: seq<Step>, n: nat)
    requires n < |h|
  {
    || h[n].event.SessionCrashed? || h[n].event.SessionEnded?
    || (Due(h, n) && (AsksEnd(h, n) || (!h[n].ok && !AsksHuman(h, n))))
  }

  ghost predicate Alive(h: seq<Step>, n: nat)
    requires n <= |h|
  {
    forall m :: 0 <= m < n ==> !Stops(h, m)
  }

  /** The state fields mean what the history says, as long as nothing stopped the loop. */
  ghost predicate Meaning(h: seq<Step>, n: nat)
    requires n <= |h|
  {
    var l := After(h[..n]).0;
    && (IsTerminal(l.phase) <==> !Alive(h, n))
    && (Alive(h, n) ==>
          && (forall t: TurnId :: l.awaiting == Some(t) <==> Unclosed(h, n, t))
          && l.lastCheckpoint == InHand(h, n))
  }

  lemma AwaitingStep(h: seq<Step>, n: nat, t: TurnId)
    requires n < |h|
    ensures Unclosed(h, n + 1, t) <==>
      (if IsDelivered(h[n].event) then h[n].event.turnId == t else Unclosed(h, n, t) && !Finishes(h[n].event, t))
  {
    if IsDelivered(h[n].event) {
      if h[n].event.turnId == t {
        assert StaysUnclosed(h, n, n + 1, t);
      }
    } else {
      if Unclosed(h, n, t) && !Finishes(h[n].event, t) {
        var i :| 0 <= i < n && IsDelivered(h[i].event) && h[i].event.turnId == t && StaysUnclosed(h, i, n, t);
        assert StaysUnclosed(h, i, n + 1, t);
      }
      if Unclosed(h, n + 1, t) {
        var i :| 0 <= i < n + 1 && IsDelivered(h[i].event) && h[i].event.turnId == t && StaysUnclosed(h, i, n + 1, t);
        assert StaysUnclosed(h, i, n, t);
      }
    }
  }

  lemma InHandIs(h: seq<Step>, i: nat, n: nat)
    requires n <= |h| && CheckpointInHand(h, i, n)
    ensures InHand(h, n) == Some(h[i].event.interrupt)
    ensures forall j: nat :: CheckpointInHand(h, j, n) ==> j == i
  {
    forall j: nat | CheckpointInHand(h, j, n) ensures i == j {
      assert !(i < j) && !(j < i);
    }
  }

  lemma InHandStep(h: seq<Step>, n: nat)
    requires n < |h|
    ensures InHand(h, n + 1) ==
      if h[n].event.CheckpointReached? then Some(h[n].event.interrupt)
      else if MatchedClose(h, n) then None else InHand(h, n)
  {
    if h[n].event.CheckpointReached? {
      InHandIs(h, n, n + 1);
    } else if !MatchedClose(h, n) {
      var next := n + 1;
      forall i: nat ensures CheckpointInHand(h, i, next) <==> CheckpointInHand(h, i, n) {}
      if i: nat :| CheckpointInHand(h, i, n) {
        InHandIs(h, i, n);
        InHandIs(h, i, next);
      }
    }
  }

  /** The decision rests on the checkpoint in hand, and on nothing else. */
  lemma DecideAsAsked(h: seq<Step>, n: nat)
    requires n <= |h|
    ensures Decide(InHand(h, n)) == Some(SendAgentPrompt) <==> AsksNothing(h, n)
    ensures Decide(InHand(h, n)) == None <==> AsksHuman(h, n)
    ensures Decide(InHand(h, n)) == Some(PauseProcess) <==> AsksPause(h, n)
    ensures Decide(InHand(h, n)) == Some(ShutdownSession) <==> AsksEnd(h, n)
  {
    if i: nat :| CheckpointInHand(h, i, n) {
      InHandIs(h, i, n);
    }
  }

  lemma MeaningStep(h: seq<Step>, n: nat)
    requires n < |h| && Meaning(h, n)
    ensures Meaning(h, n + 1)
  {
    var next := n + 1;
    assert h[..next][..n] == h[..n];
    assert After(h[..next]).0 == Handle(After(h[..n]).0, h[n].event, h[n].ok).0;
    forall t: TurnId ensures Unclosed(h, next, t) <==>
      (if IsDelivered(h[n].event) then h[n].event.turnId == t else Unclosed(h, n, t) && !Finishes(h[n].event, t))
    {
      AwaitingStep(h, n, t);
    }
    InHandStep(h, n);
    DecideAsAsked(h, n);
    assert Alive(h, next) <==> Alive(h, n) && !Stops(h, n);
  }

  lemma {:induction false} HistoryMeaning(h: seq<Step>, n: nat)
    requires n <= |h|
    ensures Meaning(h, n)
  {
    if n > 0 {
      HistoryMeaning(h, n - 1);
      MeaningStep(h, n - 1);
    }
  }

  function Deliveries(h: seq<Step>): nat {
    if h == [] then 0
    else Deliveries(h[..|h| - 1]) + if IsDelivered(h[|h| - 1].event) then 1 else 0
  }

  /** Replaying events through the loop object's transition is asking the history: an event
      leads to a driver call exactly when nothing stopped the loop before it and it is a
      `TurnCompleted` of the latest unclosed delivery. The last checkpoint since the previous
      matched close decides which: the agent is prompted if it asks for nothing, the process
      paused if for a pause, the session shut down if for the end, and nobody is called if
      it asks a human. */
  lemma DriverCallsAreDecidedByHistory(h: seq<Step>, n: nat)
    requires n < |h|
    ensures var call := Handle(After(h[..n]).0, h[n].event, h[n].ok).1;
      var due := Alive(h, n) && Due(h, n);
      && (call == Some(SendAgentPrompt) <==> due && AsksNothing(h, n))
      && (call == Some(PauseProcess) <==> due && AsksPause(h, n))
      && (call == Some(ShutdownSession) <==> due && AsksEnd(h, n))
      && (due ==> (call == None <==> AsksHuman(h, n)))
  {
    HistoryMeaning(h, n);
    DecideAsAsked(h, n);
  }

  /** The phase after event `n`: a completion that asks a human leaves the loop waiting, one
      that asks for a pause or the end leaves it paused or ended, and a prompt leaves it as
      it was, unless the driver failed. A crash and an end are final, and nothing else moves it. */
  lemma PhaseIsDecidedByHistory(h: seq<Step>, n: nat)
    requires n < |h| && Alive(h, n)
    ensures var before, after := After(h[..n]).0.phase, Handle(After(h[..n]).0, h[n].event, h[n].ok).0.phase;
      if h[n].event.SessionCrashed? then after == Phase.Crashed
      else if h[n].event.SessionEnded? then after == Phase.Ended
      else if !Due(h, n) then after == before
      else if AsksHuman(h, n) then after == Phase.WaitingHitl
      else if !h[n].ok then after == Phase.Crashed
      else if AsksPause(h, n) then after == Phase.Paused
      else if AsksEnd(h, n) then after == Phase.Ended
      else after == before
  {
    HistoryMeaning(h, n);
    DecideAsAsked(h, n);
  }

  /** And the action the loop reports. */
  lemma ActionIsDecidedByHistory(h: seq<Step>, n: nat)
    requires n < |h|
    ensures var action := ActionFor(After(h[..n]).0, h[n].event, h[n].ok);
      if !Alive(h, n) then action.Idle?
      else if Due(h, n) && AsksHuman(h, n) then action.HitlAwaiting?
      else if Due(h, n) && !h[n].ok then action.CrashSeen?
      else if Due(h, n) && AsksPause(h, n) then action.PausedChild?
      else if Due(h, n) && AsksEnd(h, n) then action.ShutdownRequested?
      else if Due(h, n) then action.PromptedAgent?
      else if MatchedClose(h, n) || h[n].event.PromptDeliveryFailed? then action.LoggedOnly?
      else if h[n].event.SessionCrashed? then action.CrashSeen?
      else if h[n].event.SessionEnded? then action.EndSeen?
      else action.Idle?
  {
    HistoryMeaning(h, n);
    DecideAsAsked(h, n);
  }

  /** Nothing is called after a crash, an end, a shutdown or a driver error. */
  lemma {:induction false} NoCallAfterStop(h: seq<Step>, m: nat, n: nat)
    requires m < n <= |h| && Stops(h, m)
    ensures After(h[..n]).1 == After(h[..m + 1]).1 && IsTerminal(After(h[..n]).0.phase)
  {
    HistoryMeaning(h, n);
    if m + 1 < n {
      NoCallAfterStop(h, m, n - 1);
      HistoryMeaning(h, n - 1);
      assert h[..n][..n - 1] == h[..n - 1];
    }
  }

  /** Over any history there are never more driver calls than deliveries. */
  lemma {:induction false} CallsNeverExceedDeliveries(h: seq<Step>)
    ensures |After(h).1| + (if After(h).0.awaiting.Some? then 1 else 0) <= Deliveries(h)
  {
    if h != [] {
      CallsNeverExceedDeliveries(h[..|h| - 1]);
    }
  }
}
