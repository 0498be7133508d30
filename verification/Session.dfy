/** The `Session` reducer: a pure fold over envelopes, and what each of its
    fields means in terms of the event history alone. */
module Sessions {
  import opened Events

  const STOP_REASON_INTERRUPT := "interrupt"

  datatype Phase = Starting | Running | WaitingHitl | Paused | Crashed | Ended

  datatype CheckpointRef = CheckpointRef(checkpointId: nat, atSequence: nat)

  datatype Session = Session(
    id: nat,
    agentId: nat,
    phase: Phase,
    openTurn: Option<TurnId>,
    lastCheckpoint: Option<CheckpointRef>,
    lastSeq: nat)

  const DEFAULT := Session(0, 0, Starting, None, None, 0)

  /** The debug assertion inside the reducer: no prompt is queued while a turn is open. */
  predicate AssertionHolds(s: Session, e: SessionEvent) {
    IsQueued(e) && !s.phase.Ended? ==> s.openTurn.None?
  }

  function ClearTurn(s: Session, t: TurnId): Session {
    if s.openTurn == Some(t) then s.(openTurn := None) else s
  }

  function Apply(s: Session, e: SessionEvent): Session {
    if s.phase.Ended? then s
    else match e
      case SessionStarted(sid, aid) => s.(id := sid, agentId := aid, phase := Running)
      case AgentPromptQueued(t, _) => s.(openTurn := Some(t))
      case HumanPromptQueued(t, _) => s.(openTurn := Some(t))
      case AgentPromptDelivered(_) => s
      case HumanPromptDelivered(_) => s
      case PromptDeliveryFailed(t, _) => ClearTurn(s, t)
      case AssistantMessage(_, _, _, _) => s
      case ToolCall(_, _) => s
      case ToolResult(_, _, _) => s
      case CheckpointReached(c, interrupt) =>
        var marked := s.(lastCheckpoint := Some(CheckpointRef(c, s.lastSeq)));
        (match interrupt
         case Some(Hitl(_, _)) => marked.(phase := WaitingHitl)
         case Some(Pause) => marked.(phase := Paused)
         case Some(Drain) => marked
         case None => marked)
      case TurnCompleted(t, stop) =>
        var cleared := ClearTurn(s, t);
        if stop == STOP_REASON_INTERRUPT then cleared.(phase := Paused)
        else if s.phase.WaitingHitl? then cleared
        else cleared.(phase := Running)
      case TurnAborted(t, _) => ClearTurn(s, t)
      case SessionCrashed(_) => s.(openTurn := None, phase := Crashed)
      case SessionEnded => s.(phase := Ended)
  }

  function ApplyEnvelope(s: Session, env: Envelope): Session {
    Apply(s, env.payload).(lastSeq := env.sequence)
  }

  /** Replay: the left fold every consumer performs, one envelope at a time. */
  function Replay(s: Session, envs: seq<Envelope>): Session {
    if envs == [] then s
    else ApplyEnvelope(Replay(s, envs[..|envs| - 1]), envs[|envs| - 1])
  }

  /** Replaying a history in two parts is replaying it at once. */
  lemma {:induction false} ReplaySplits(s: Session, a: seq<Envelope>, b: seq<Envelope>)
    ensures Replay(s, a + b) == Replay(Replay(s, a), b)
  {
    if b == [] {
      assert a + b == a;
    } else {
      var n := |b| - 1;
      ReplaySplits(s, a, b[..n]);
      assert (a + b)[..|a + b| - 1] == a + b[..n];
      assert (a + b)[|a + b| - 1] == b[n];
    }
  }

  /** The loop the snapshot tasks run: state and last sequence, step by step. */
  method ReplayLoop(start: Session, startSeq: nat, events: seq<Envelope>) returns (state: Session, lastSeq: nat)
    ensures state == Replay(start, events)
    ensures lastSeq == if events == [] then startSeq else events[|events| - 1].sequence
  {
    state, lastSeq := start, startSeq;
    for i := 0 to |events|
      invariant state == Replay(start, events[..i])
      invariant lastSeq == if i == 0 then startSeq else events[i - 1].sequence
    {
      assert events[..i + 1][..i] == events[..i];
      state := ApplyEnvelope(state, events[i]);
      lastSeq := events[i].sequence;
    }
    assert events[..|events|] == events;
  }

  predicate Closes(e: SessionEvent, t: TurnId) {
    || (e.PromptDeliveryFailed? && e.turnId == t)
    || (e.TurnCompleted? && e.turnId == t)
    || (e.TurnAborted? && e.turnId == t)
    || e.SessionCrashed?
  }

  /** The part of a history before `SessionEnded`; nothing after it is applied. */
  function LivePart(envs: seq<Envelope>): (r: seq<Envelope>)
    ensures r <= envs
    ensures forall i :: 0 <= i < |r| ==> !r[i].payload.SessionEnded?
    ensures |r| < |envs| ==> envs[|r|].payload.SessionEnded?
  {
    if envs == [] || envs[0].payload.SessionEnded? then []
    else [envs[0]] + LivePart(envs[1..])
  }

  predicate LeftOpenAt(envs: seq<Envelope>, t: TurnId, i: nat) {
    && i < |envs|
    && IsQueued(envs[i].payload) && envs[i].payload.turnId == t
    && forall j :: i < j < |envs| ==> !IsQueued(envs[j].payload) && !Closes(envs[j].payload, t)
  }

  /** Turn `t` was queued, and nothing later queued another turn, closed `t` or crashed the session. */
  ghost predicate LeftOpen(envs: seq<Envelope>, t: TurnId) {
    exists i: nat :: LeftOpenAt(envs, t, i)
  }

  lemma LeftOpenSnoc(envs: seq<Envelope>, env: Envelope, t: TurnId)
    ensures LeftOpen(envs + [env], t) <==>
            (IsQueued(env.payload) && env.payload.turnId == t)
            || (LeftOpen(envs, t) && !IsQueued(env.payload) && !Closes(env.payload, t))
  {
    var all, e := envs + [env], env.payload;
    if LeftOpen(all, t) {
      var i: nat :| LeftOpenAt(all, t, i);
      if i < |envs| {
        assert all[|envs|] == env;
        assert forall j :: 0 <= j < |envs| ==> all[j] == envs[j];
        assert LeftOpenAt(envs, t, i);
      }
    }
    if IsQueued(e) && e.turnId == t {
      assert LeftOpenAt(all, t, |envs|);
    } else if LeftOpen(envs, t) && !IsQueued(e) && !Closes(e, t) {
      var i: nat :| LeftOpenAt(envs, t, i);
      assert LeftOpenAt(all, t, i);
    }
  }

  lemma {:induction false} OpenTurnWhileLive(envs: seq<Envelope>, t: TurnId)
    requires forall i :: 0 <= i < |envs| ==> !envs[i].payload.SessionEnded?
    ensures !Replay(DEFAULT, envs).phase.Ended?
    ensures Replay(DEFAULT, envs).openTurn == Some(t) <==> LeftOpen(envs, t)
  {
    if envs != [] {
      var n := |envs| - 1;
      OpenTurnWhileLive(envs[..n], t);
      LeftOpenSnoc(envs[..n], envs[n], t);
      assert envs == envs[..n] + [envs[n]];
    }
  }

  /** Once ended, only the sequence counter moves. */
  lemma {:induction false} EndedIsAbsorbing(s: Session, envs: seq<Envelope>)
    requires s.phase.Ended?
    ensures Replay(s, envs) == s.(lastSeq := if envs == [] then s.lastSeq else envs[|envs| - 1].sequence)
  {
    if envs != [] {
      EndedIsAbsorbing(s, envs[..|envs| - 1]);
    }
  }

  /** From the end on only `last_seq` moves. */
  lemma EndFreezes(s: Session, envs: seq<Envelope>)
    requires envs != [] && envs[0].payload.SessionEnded?
    ensures Replay(s, envs) == s.(phase := Phase.Ended, lastSeq := envs[|envs| - 1].sequence)
  {
    var first := envs[..1];
    assert envs == first + envs[1..];
    ReplaySplits(s, first, envs[1..]);
    assert first[..0] == [];
    assert Replay(s, first) == ApplyEnvelope(Replay(s, first[..0]), envs[0]);
    EndedIsAbsorbing(Replay(s, first), envs[1..]);
  }

  /** What `open_turn` means, with no reducer in sight: the one turn left open before the session ended. */
  lemma OpenTurnMeaning(envs: seq<Envelope>, t: TurnId)
    ensures Replay(DEFAULT, envs).openTurn == Some(t) <==> LeftOpen(LivePart(envs), t)
  {
    var live := LivePart(envs);
    OpenTurnWhileLive(live, t);
    var rest := envs[|live|..];
    assert envs == live + rest;
    ReplaySplits(DEFAULT, live, rest);
    if rest != [] {
      EndFreezes(Replay(DEFAULT, live), rest);
    }
  }

  /** After any nonempty replay `last_seq` is the sequence of the last envelope, ended or not. */
  lemma LastSeqTracksTheLog(s: Session, envs: seq<Envelope>)
    requires envs != []
    ensures Replay(s, envs).lastSeq == envs[|envs| - 1].sequence
  {
  }

  predicate AsksHuman(e: SessionEvent) {
    e.CheckpointReached? && e.interrupt.Some? && e.interrupt.value.Hitl?
  }

  predicate StopsAsking(e: SessionEvent) {
    || e.SessionStarted? || e.SessionCrashed?
    || (e.CheckpointReached? && e.interrupt == Some(Pause))
    || (e.TurnCompleted? && e.stopReason == STOP_REASON_INTERRUPT)
  }

  predicate AwaitedAt(envs: seq<Envelope>, i: nat) {
    && i < |envs| && AsksHuman(envs[i].payload)
    && forall j :: i < j < |envs| ==> !StopsAsking(envs[j].payload)
  }

  /** A checkpoint asked a human, and nothing since has withdrawn the question. */
  ghost predicate Awaited(envs: seq<Envelope>) {
    exists i: nat :: AwaitedAt(envs, i)
  }

  lemma AwaitedSnoc(envs: seq<Envelope>, env: Envelope)
    ensures Awaited(envs + [env]) <==> AsksHuman(env.payload) || (Awaited(envs) && !StopsAsking(env.payload))
  {
    var all := envs + [env];
    assert forall j :: 0 <= j < |envs| ==> all[j] == envs[j];
    if AsksHuman(env.payload) {
      assert AwaitedAt(all, |envs|);
    } else if Awaited(envs) && !StopsAsking(env.payload) {
      var i: nat :| AwaitedAt(envs, i);
      assert AwaitedAt(all, i);
    }
    if Awaited(all) && !AsksHuman(env.payload) {
      var i: nat :| AwaitedAt(all, i);
      assert all[|envs|] == env && AwaitedAt(envs, i);
    }
  }

  /** The session waits for a human exactly while such a question stands and the session
      has not ended; turns that complete in the meantime do not answer it. */
  lemma {:induction false} WaitingMeaning(envs: seq<Envelope>)
    ensures var s := Replay(DEFAULT, envs); var live := forall i :: 0 <= i < |envs| ==> !envs[i].payload.SessionEnded?;
      (s.phase.Ended? <==> !live) && (s.phase.WaitingHitl? <==> live && Awaited(envs))
  {
    if envs != [] {
      var n := |envs| - 1;
      WaitingMeaning(envs[..n]);
      AwaitedSnoc(envs[..n], envs[n]);
      assert envs == envs[..n] + [envs[n]];
      PhaseStep(Replay(DEFAULT, envs[..n]), envs[n].payload);
    }
  }

  lemma PhaseStep(s: Session, e: SessionEvent)
    ensures Apply(s, e).phase.Ended? <==> s.phase.Ended? || e.SessionEnded?
    ensures !s.phase.Ended? && !e.SessionEnded?
      ==> (Apply(s, e).phase.WaitingHitl? <==> AsksHuman(e) || (s.phase.WaitingHitl? && !StopsAsking(e)))
  {
  }

  predicate LastCheckpointAt(envs: seq<Envelope>, i: nat) {
    && i < |envs| && envs[i].payload.CheckpointReached?
    && forall j :: i < j < |envs| ==> !envs[j].payload.CheckpointReached?
  }

  /** A checkpoint event and the sequence of the envelope before it. */
  function RefAt(envs: seq<Envelope>, i: nat): CheckpointRef
    requires i < |envs| && envs[i].payload.CheckpointReached?
  {
    CheckpointRef(envs[i].payload.checkpointId, if i == 0 then 0 else envs[i - 1].sequence)
  }

  /** `c` refers to the last checkpoint of `envs`, and is absent when there is none. */
  ghost predicate IsLastCheckpoint(c: Option<CheckpointRef>, envs: seq<Envelope>) {
    if c.None? then forall i :: 0 <= i < |envs| ==> !envs[i].payload.CheckpointReached?
    else exists i: nat :: LastCheckpointAt(envs, i) && c.value == RefAt(envs, i)
  }

  lemma {:induction false} CheckpointWhileLive(envs: seq<Envelope>)
    requires forall i :: 0 <= i < |envs| ==> !envs[i].payload.SessionEnded?
    ensures IsLastCheckpoint(Replay(DEFAULT, envs).lastCheckpoint, envs)
  {
    if envs != [] {
      var n := |envs| - 1;
      OpenTurnWhileLive(envs[..n], 0);
      CheckpointWhileLive(envs[..n]);
      if envs[n].payload.CheckpointReached? {
        if n > 0 {
          LastSeqTracksTheLog(DEFAULT, envs[..n]);
        }
        assert LastCheckpointAt(envs, n);
      } else if Replay(DEFAULT, envs[..n]).lastCheckpoint.Some? {
        var c := Replay(DEFAULT, envs[..n]).lastCheckpoint.value;
        var i: nat :| LastCheckpointAt(envs[..n], i) && c == RefAt(envs[..n], i);
        assert LastCheckpointAt(envs, i) && RefAt(envs, i) == RefAt(envs[..n], i);
      }
    }
  }

  /** The recorded checkpoint of every history is the last one before the session
      ended, and its `at_sequence` is the sequence of the envelope before it. */
  lemma CheckpointMeaning(envs: seq<Envelope>)
    ensures IsLastCheckpoint(Replay(DEFAULT, envs).lastCheckpoint, LivePart(envs))
  {
    var live := LivePart(envs);
    var rest := envs[|live|..];
    OpenTurnWhileLive(live, 0);
    CheckpointWhileLive(live);
    assert envs == live + rest;
    ReplaySplits(DEFAULT, live, rest);
    if rest != [] {
      EndFreezes(Replay(DEFAULT, live), rest);
    } else {
      assert envs == live;
    }
  }

  // ---- the phase ----------------------------------------------------------------

  /** Sets the phase whatever it was before. */
  predicate Decisive(e: SessionEvent) {
    || e.SessionStarted? || e.SessionCrashed?
    || (e.CheckpointReached? && e.interrupt.Some? && !e.interrupt.value.Drain?)
    || (e.TurnCompleted? && e.stopReason == "interrupt")
  }

  predicate LastDecisiveAt(envs: seq<Envelope>, i: nat) {
    && i < |envs| && Decisive(envs[i].payload)
    && forall j :: i < j < |envs| ==> !Decisive(envs[j].payload)
  }

  /** From `i` on a turn completed without an interrupt. */
  predicate CompletesFrom(envs: seq<Envelope>, i: nat) {
    exists j :: i <= j < |envs| && envs[j].payload.TurnCompleted? && envs[j].payload.stopReason != "interrupt"
  }

  /** The phase an event decides, and what a completed turn after it makes of that. */
  predicate Decided(e: SessionEvent, completes: bool, p: Phase) {
    if e.SessionStarted? then p.Running?
    else if e.SessionCrashed? then (if completes then p.Running? else p.Crashed?)
    else if e.CheckpointReached? && e.interrupt.Some? && e.interrupt.value.Hitl? then p.WaitingHitl?
    else if completes then p.Running? else p.Paused?
  }

  /** `p` is the phase of a session with this history. */
  ghost predicate IsPhase(envs: seq<Envelope>, p: Phase) {
    if exists i :: 0 <= i < |envs| && envs[i].payload.SessionEnded? then p.Ended?
    else if exists i :: 0 <= i < |envs| && Decisive(envs[i].payload)
    then forall i: nat :: LastDecisiveAt(envs, i) ==> Decided(envs[i].payload, CompletesFrom(envs, i + 1), p)
    else if CompletesFrom(envs, 0) then p.Running? else p.Starting?
  }

  lemma CompletesSnoc(envs: seq<Envelope>, env: Envelope, i: nat)
    requires i <= |envs|
    ensures CompletesFrom(envs + [env], i) <==>
      CompletesFrom(envs, i) || (env.payload.TurnCompleted? && env.payload.stopReason != "interrupt")
  {
    var all := envs + [env];
    assert all[|envs|] == env && forall j :: 0 <= j < |envs| ==> all[j] == envs[j];
  }

  lemma LastDecisiveSnoc(envs: seq<Envelope>, env: Envelope, i: nat)
    ensures LastDecisiveAt(envs + [env], i) <==>
      if Decisive(env.payload) then i == |envs| else LastDecisiveAt(envs, i)
  {
    var all := envs + [env];
    assert all[|envs|] == env && forall j :: 0 <= j < |envs| ==> all[j] == envs[j];
  }

  lemma {:induction false} LastDecisive(envs: seq<Envelope>) returns (i: nat)
    requires exists j :: 0 <= j < |envs| && Decisive(envs[j].payload)
    ensures LastDecisiveAt(envs, i)
  {
    var n := |envs| - 1;
    assert envs == envs[..n] + [envs[n]];
    if Decisive(envs[n].payload) {
      i := n;
    } else {
      assert exists j :: 0 <= j < |envs[..n]| && Decisive(envs[..n][j].payload) by {
        var j :| 0 <= j < |envs| && Decisive(envs[j].payload);
        assert envs[..n][j] == envs[j];
      }
      i := LastDecisive(envs[..n]);
    }
  }

  lemma {:induction false} PhaseIsDecided(envs: seq<Envelope>, i: nat)
    requires forall j :: 0 <= j < |envs| ==> !envs[j].payload.SessionEnded?
    requires LastDecisiveAt(envs, i)
    ensures Decided(envs[i].payload, CompletesFrom(envs, i + 1), Replay(DEFAULT, envs).phase)
  {
    var n := |envs| - 1;
    var front := envs[..n];
    assert envs == front + [envs[n]];
    WaitingMeaning(front);
    LastDecisiveSnoc(front, envs[n], i);
    if i < n {
      PhaseIsDecided(front, i);
      CompletesSnoc(front, envs[n], i + 1);
    }
  }

  lemma {:induction false} PhaseUndecided(envs: seq<Envelope>)
    requires forall j :: 0 <= j < |envs| ==> !envs[j].payload.SessionEnded? && !Decisive(envs[j].payload)
    ensures var p := Replay(DEFAULT, envs).phase; if CompletesFrom(envs, 0) then p.Running? else p.Starting?
  {
    if envs != [] {
      var n := |envs| - 1;
      assert envs == envs[..n] + [envs[n]];
      PhaseUndecided(envs[..n]);
      CompletesSnoc(envs[..n], envs[n], 0);
    }
  }

  /** What the phase means: ended after an end; else what the last start, crash, human or
      pause checkpoint or interrupted completion says, except that a turn completed after a
      crash or a pause sets it running again; and starting before any of these. */
  lemma PhaseMeaning(envs: seq<Envelope>)
    ensures IsPhase(envs, Replay(DEFAULT, envs).phase)
    ensures forall p :: IsPhase(envs, p) ==> p == Replay(DEFAULT, envs).phase
  {
    WaitingMeaning(envs);
    if forall i :: 0 <= i < |envs| ==> !envs[i].payload.SessionEnded? {
      if exists i :: 0 <= i < |envs| && Decisive(envs[i].payload) {
        var i := LastDecisive(envs);
        forall j: nat | LastDecisiveAt(envs, j) ensures j == i {}
        PhaseIsDecided(envs, i);
      } else {
        PhaseUndecided(envs);
      }
    }
  }
}
