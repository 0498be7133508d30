/** What a second retention of the same session would store: it replays the events
    the first one kept. */
module SecondRetention {
  import opened Events
  import opened Sessions
  import opened ReplayAgreement
  import opened Snapshots

  /** The events a first retention keeps start here. */
  function RetentionCut(history: seq<Envelope>): (cut: nat)
    ensures cut <= |history|
  {
    if |history| > RETENTION_TAIL then |history| - RETENTION_TAIL else 0
  }

  /** A second retention replays what the first one kept. For every history, that gives
      the session's state if and only if the kept events decide every field the dropped
      ones have changed; always so for a history no longer than the tail. */
  lemma SecondRetentionExactly(history: seq<Envelope>)
    ensures var cut := RetentionCut(history);
      Replay(DEFAULT, history[cut..]) == Replay(DEFAULT, history) <==> Retold(DEFAULT, history[..cut], history[cut..])
    ensures |history| <= RETENTION_TAIL
        ==> Retold(DEFAULT, history[..RetentionCut(history)], history[RetentionCut(history)..])
  {
    CutReplaysExactly(DEFAULT, history, RetentionCut(history));
    if |history| <= RETENTION_TAIL {
      assert history[..0] == [] && history[0..] == history;
      NothingForgotten(DEFAULT, history);
    }
  }

  /** So a session launched once, under a real id, and longer than the tail is forgotten. */
  lemma SecondRetentionForgetsTheSession(history: seq<Envelope>)
    requires |history| > RETENTION_TAIL
    requires history[0].payload.SessionStarted? && history[0].payload.sessionId != 0
    requires forall i :: 1 <= i < |history| ==> !history[i].payload.SessionStarted?
    ensures Replay(DEFAULT, history[RetentionCut(history)..]) != Replay(DEFAULT, history)
  {
    var kept := history[RetentionCut(history)..];
    forall i | 0 <= i < |kept| ensures !kept[i].payload.SessionStarted? {
      assert kept[i] == history[RetentionCut(history) + i];
    }
    FirstStartNamesIt(history);
    IdStays(DEFAULT, kept);
  }

  lemma FirstStartNamesIt(history: seq<Envelope>)
    requires history != [] && history[0].payload.SessionStarted?
    requires forall i :: 1 <= i < |history| ==> !history[i].payload.SessionStarted?
    ensures Replay(DEFAULT, history).id == history[0].payload.sessionId
  {
    var first := history[..1];
    assert history == first + history[1..] && first[..0] == [];
    ReplaySplits(DEFAULT, first, history[1..]);
    assert Replay(DEFAULT, first) == ApplyEnvelope(Replay(DEFAULT, first[..0]), history[0]);
    IdStays(Replay(DEFAULT, first), history[1..]);
  }

  lemma {:induction false} IdStays(s: Session, envs: seq<Envelope>)
    requires forall i :: 0 <= i < |envs| ==> !envs[i].payload.SessionStarted?
    ensures Replay(s, envs).id == s.id
  {
    if envs != [] {
      IdStays(s, envs[..|envs| - 1]);
    }
  }

  predicate ToolEvent(e: SessionEvent) {
    e.ToolCall? || e.ToolResult? || e.AssistantMessage?
  }

  /** And one that was resumed within the tail, with no turn open and no checkpoint
      taken before it, is not: the same id is announced again. */
  lemma ResumeTellsTheSessionAgain(history: seq<Envelope>)
    requires |history| > RETENTION_TAIL
    requires forall i :: 1 <= i < |history| - 1 ==> ToolEvent(history[i].payload)
    requires history[0].payload.SessionStarted? && history[|history| - 1].payload.SessionStarted?
    ensures Replay(DEFAULT, history[RetentionCut(history)..]) == Replay(DEFAULT, history)
  {
    var cut := RetentionCut(history);
    var front, kept := history[..cut], history[cut..];
    SecondRetentionExactly(history);
    FrontIsPlain(front);
    AllLive(kept);
    TellsAgain(front, kept);
  }

  /** A start decides ids and phase, and a plain front has left nothing else to tell. */
  lemma TellsAgain(front: seq<Envelope>, kept: seq<Envelope>)
    requires kept != [] && Starts(kept[|kept| - 1].payload) && LivePart(kept) == kept
    requires forall i :: 0 <= i < |kept| - 1 ==> ToolEvent(kept[i].payload)
    requires var r := Replay(DEFAULT, front); r.openTurn == None && r.lastCheckpoint == None && !r.phase.Ended?
    ensures Meets(DEFAULT, Replay(DEFAULT, front), kept)
  {
    assert SetsPhase(kept[|kept| - 1].payload);
    assert !Any(kept, Marks);
  }

  lemma FrontIsPlain(front: seq<Envelope>)
    requires forall i :: 0 <= i < |front| ==> ToolEvent(front[i].payload) || front[i].payload.SessionStarted?
    ensures var r := Replay(DEFAULT, front);
      r.openTurn == None && r.lastCheckpoint == None && !r.phase.Ended?
  {
    TurnWithoutQueueing(DEFAULT, front);
    CheckpointWithoutMark(DEFAULT, front);
    LiveReplay(DEFAULT, front);
  }

  lemma AllLive(envs: seq<Envelope>)
    requires Live(envs)
    ensures LivePart(envs) == envs
  {
    assert |LivePart(envs)| == |envs|;
  }
}
