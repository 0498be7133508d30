/** When replaying the same events from two different states gives the same state:
    what a replay may be started from without knowing the events before. */
module ReplayAgreement {
  import opened Events
  import opened Sessions

  ghost predicate Any(envs: seq<Envelope>, test: SessionEvent -> bool) {
    exists i :: 0 <= i < |envs| && test(envs[i].payload)
  }

  lemma AnySnoc(envs: seq<Envelope>, env: Envelope, test: SessionEvent -> bool)
    ensures Any(envs + [env], test) <==> Any(envs, test) || test(env.payload)
  {
    var all := envs + [env];
    if Any(envs, test) {
      var i :| 0 <= i < |envs| && test(envs[i].payload);
      assert test(all[i].payload);
    }
    if test(env.payload) {
      assert test(all[|envs|].payload);
    }
    if Any(all, test) {
      var i :| 0 <= i < |all| && test(all[i].payload);
      if i < |envs| {
        assert test(envs[i].payload);
      }
    }
  }

  lemma AnyFirst(envs: seq<Envelope>, test: SessionEvent -> bool)
    requires envs != [] && Any(envs, test)
    ensures test(envs[0].payload) || Any(envs[1..], test)
  {
    var i :| 0 <= i < |envs| && test(envs[i].payload);
    if i > 0 {
      assert envs[1..][i - 1] == envs[i];
    }
  }

  predicate Starts(e: SessionEvent) {
    e.SessionStarted?
  }

  predicate Marks(e: SessionEvent) {
    e.CheckpointReached?
  }

  /** Sets the phase whatever it was. */
  predicate SetsPhase(e: SessionEvent) {
    || e.SessionStarted? || e.SessionCrashed?
    || (e.CheckpointReached? && e.interrupt.Some? && !e.interrupt.value.Drain?)
    || (e.TurnCompleted? && e.stopReason == STOP_REASON_INTERRUPT)
  }

  /** Sets the phase to `Running`, unless a human is awaited. */
  predicate Resumes(e: SessionEvent) {
    e.TurnCompleted? && e.stopReason != STOP_REASON_INTERRUPT
  }

  function CloserOf(t: TurnId): SessionEvent -> bool {
    e => Closes(e, t)
  }

  ghost predicate Live(envs: seq<Envelope>) {
    forall i :: 0 <= i < |envs| ==> !envs[i].payload.SessionEnded?
  }

  // ---- what a live replay keeps and what it decides, field by field ---------

  lemma {:induction false} LiveReplay(s: Session, envs: seq<Envelope>)
    requires Live(envs) && !s.phase.Ended?
    ensures !Replay(s, envs).phase.Ended?
  {
    if envs != [] {
      LiveReplay(s, envs[..|envs| - 1]);
    }
  }

  lemma {:induction false} IdsWithoutStart(s: Session, envs: seq<Envelope>)
    requires Live(envs) && !s.phase.Ended? && !Any(envs, Starts)
    ensures Replay(s, envs).id == s.id && Replay(s, envs).agentId == s.agentId
  {
    if envs != [] {
      var front, last := envs[..|envs| - 1], envs[|envs| - 1];
      assert envs == front + [last];
      AnySnoc(front, last, Starts);
      IdsWithoutStart(s, front);
    }
  }

  lemma {:induction false} IdsOnceStarted(s: Session, r: Session, envs: seq<Envelope>)
    requires Live(envs) && !s.phase.Ended? && !r.phase.Ended? && Any(envs, Starts)
    ensures Replay(s, envs).id == Replay(r, envs).id && Replay(s, envs).agentId == Replay(r, envs).agentId
  {
    var front, last := envs[..|envs| - 1], envs[|envs| - 1];
    assert envs == front + [last];
    AnySnoc(front, last, Starts);
    LiveReplay(s, front);
    LiveReplay(r, front);
    if !Starts(last.payload) {
      IdsOnceStarted(s, r, front);
    }
  }

  /** Nothing sets the phase: a waiting session waits, any other resumes with the first completed turn. */
  lemma {:induction false} PhaseWithoutSetting(s: Session, envs: seq<Envelope>)
    requires Live(envs) && !s.phase.Ended? && !Any(envs, SetsPhase)
    ensures Replay(s, envs).phase == if Any(envs, Resumes) && !s.phase.WaitingHitl? then Running else s.phase
  {
    if envs != [] {
      var front, last := envs[..|envs| - 1], envs[|envs| - 1];
      assert envs == front + [last];
      AnySnoc(front, last, SetsPhase);
      AnySnoc(front, last, Resumes);
      PhaseWithoutSetting(s, front);
    }
  }

  lemma {:induction false} PhaseOnceSet(s: Session, r: Session, envs: seq<Envelope>)
    requires Live(envs) && !s.phase.Ended? && !r.phase.Ended? && Any(envs, SetsPhase)
    ensures Replay(s, envs).phase == Replay(r, envs).phase
  {
    var front, last := envs[..|envs| - 1], envs[|envs| - 1];
    assert envs == front + [last];
    AnySnoc(front, last, SetsPhase);
    LiveReplay(s, front);
    LiveReplay(r, front);
    if !SetsPhase(last.payload) {
      PhaseOnceSet(s, r, front);
    }
  }

  /** Nothing is queued: an open turn stays open until something closes it. */
  lemma {:induction false} TurnWithoutQueueing(s: Session, envs: seq<Envelope>)
    requires Live(envs) && !s.phase.Ended? && !Any(envs, IsQueued)
    ensures Replay(s, envs).openTurn ==
      if s.openTurn.Some? && Any(envs, CloserOf(s.openTurn.value)) then None else s.openTurn
  {
    if envs != [] {
      var front, last := envs[..|envs| - 1], envs[|envs| - 1];
      assert envs == front + [last];
      AnySnoc(front, last, IsQueued);
      LiveReplay(s, front);
      TurnWithoutQueueing(s, front);
      if s.openTurn.Some? {
        AnySnoc(front, last, CloserOf(s.openTurn.value));
      }
    }
  }

  lemma {:induction false} TurnOnceQueued(s: Session, r: Session, envs: seq<Envelope>)
    requires Live(envs) && !s.phase.Ended? && !r.phase.Ended? && Any(envs, IsQueued)
    ensures Replay(s, envs).openTurn == Replay(r, envs).openTurn
  {
    var front, last := envs[..|envs| - 1], envs[|envs| - 1];
    assert envs == front + [last];
    AnySnoc(front, last, IsQueued);
    LiveReplay(s, front);
    LiveReplay(r, front);
    if !IsQueued(last.payload) {
      TurnOnceQueued(s, r, front);
    }
  }

  lemma {:induction false} CheckpointWithoutMark(s: Session, envs: seq<Envelope>)
    requires Live(envs) && !s.phase.Ended? && !Any(envs, Marks)
    ensures Replay(s, envs).lastCheckpoint == s.lastCheckpoint
  {
    if envs != [] {
      var front, last := envs[..|envs| - 1], envs[|envs| - 1];
      assert envs == front + [last];
      AnySnoc(front, last, Marks);
      CheckpointWithoutMark(s, front);
    }
  }

  /** A checkpoint records the sequence before it: from the second event on, that is the log's own. */
  lemma {:induction false} CheckpointOnceMarked(s: Session, r: Session, envs: seq<Envelope>)
    requires Live(envs) && !s.phase.Ended? && !r.phase.Ended? && envs != [] && Any(envs[1..], Marks)
    ensures Replay(s, envs).lastCheckpoint == Replay(r, envs).lastCheckpoint
  {
    var front, last := envs[..|envs| - 1], envs[|envs| - 1];
    assert envs[1..] == front[1..] + [last];
    AnySnoc(front[1..], last, Marks);
    LiveReplay(s, front);
    LiveReplay(r, front);
    LastSeqTracksTheLog(s, front);
    LastSeqTracksTheLog(r, front);
    if !Marks(last.payload) {
      CheckpointOnceMarked(s, r, front);
    }
  }

  /** For the first event it is the one the replay starts with. */
  lemma FirstMarkOnly(s: Session, envs: seq<Envelope>)
    requires Live(envs) && !s.phase.Ended? && envs != [] && Marks(envs[0].payload) && !Any(envs[1..], Marks)
    ensures Replay(s, envs).lastCheckpoint == Some(CheckpointRef(envs[0].payload.checkpointId, s.lastSeq))
  {
    var first := envs[..1];
    assert envs == first + envs[1..] && first[..0] == [];
    ReplaySplits(s, first, envs[1..]);
    assert Replay(s, first) == ApplyEnvelope(Replay(s, first[..0]), envs[0]);
    CheckpointWithoutMark(Replay(s, first), envs[1..]);
  }

  // ---- the condition ---------------------------------------------------------

  ghost predicate PhaseMeets(s: Session, r: Session, live: seq<Envelope>) {
    || s.phase == r.phase
    || Any(live, SetsPhase)
    || (Any(live, Resumes) && !s.phase.WaitingHitl? && !r.phase.WaitingHitl?)
  }

  ghost predicate ClosedIn(open: Option<TurnId>, live: seq<Envelope>) {
    open.Some? ==> Any(live, CloserOf(open.value))
  }

  ghost predicate TurnMeets(s: Session, r: Session, live: seq<Envelope>) {
    || s.openTurn == r.openTurn
    || Any(live, IsQueued)
    || (ClosedIn(s.openTurn, live) && ClosedIn(r.openTurn, live))
  }

  ghost predicate CheckpointMeets(s: Session, r: Session, live: seq<Envelope>) {
    if live == [] || !Any(live, Marks) then s.lastCheckpoint == r.lastCheckpoint
    else Any(live[1..], Marks) || s.lastSeq == r.lastSeq
  }

  /** Each field is decided by the events, or agrees already. */
  ghost predicate Meets(s: Session, r: Session, envs: seq<Envelope>) {
    var live := LivePart(envs);
    && (Any(live, Starts) || (s.id == r.id && s.agentId == r.agentId))
    && (|live| < |envs| || PhaseMeets(s, r, live))
    && TurnMeets(s, r, live)
    && CheckpointMeets(s, r, live)
    && (envs != [] || s.lastSeq == r.lastSeq)
  }

  lemma IdsAgree(s: Session, r: Session, live: seq<Envelope>)
    requires Live(live) && !s.phase.Ended? && !r.phase.Ended?
    ensures var a, b := Replay(s, live), Replay(r, live);
      a.id == b.id && a.agentId == b.agentId <==> Any(live, Starts) || (s.id == r.id && s.agentId == r.agentId)
  {
    if Any(live, Starts) {
      IdsOnceStarted(s, r, live);
    } else {
      IdsWithoutStart(s, live);
      IdsWithoutStart(r, live);
    }
  }

  lemma CheckpointsAgree(s: Session, r: Session, live: seq<Envelope>)
    requires Live(live) && !s.phase.Ended? && !r.phase.Ended?
    ensures Replay(s, live).lastCheckpoint == Replay(r, live).lastCheckpoint <==> CheckpointMeets(s, r, live)
  {
    if live == [] || !Any(live, Marks) {
      CheckpointWithoutMark(s, live);
      CheckpointWithoutMark(r, live);
    } else if Any(live[1..], Marks) {
      CheckpointOnceMarked(s, r, live);
    } else {
      AnyFirst(live, Marks);
      FirstMarkOnly(s, live);
      FirstMarkOnly(r, live);
    }
  }

  lemma PhasesAgree(s: Session, r: Session, live: seq<Envelope>)
    requires Live(live) && !s.phase.Ended? && !r.phase.Ended?
    ensures Replay(s, live).phase == Replay(r, live).phase <==> PhaseMeets(s, r, live)
  {
    if Any(live, SetsPhase) {
      PhaseOnceSet(s, r, live);
    } else {
      PhaseWithoutSetting(s, live);
      PhaseWithoutSetting(r, live);
    }
  }

  lemma TurnsAgree(s: Session, r: Session, live: seq<Envelope>)
    requires Live(live) && !s.phase.Ended? && !r.phase.Ended?
    ensures Replay(s, live).openTurn == Replay(r, live).openTurn <==> TurnMeets(s, r, live)
  {
    if Any(live, IsQueued) {
      TurnOnceQueued(s, r, live);
    } else {
      TurnWithoutQueueing(s, live);
      TurnWithoutQueueing(r, live);
    }
  }

  /** A replay is its live part's replay, frozen if an end follows. */
  lemma ReplayIsLivePart(s: Session, envs: seq<Envelope>)
    requires !s.phase.Ended?
    ensures Live(LivePart(envs))
    ensures Replay(s, envs) == if |LivePart(envs)| == |envs| then Replay(s, LivePart(envs))
      else Replay(s, LivePart(envs)).(phase := Phase.Ended, lastSeq := envs[|envs| - 1].sequence)
  {
    var live := LivePart(envs);
    var rest := envs[|live|..];
    assert envs == live + rest;
    ReplaySplits(s, live, rest);
    if rest != [] {
      EndFreezes(Replay(s, live), rest);
    } else {
      assert live == envs;
    }
  }

  /** Two live states replay to the same state if and only if every field in which
      they differ is decided by the events replayed. */
  lemma ReplaysMeet(s: Session, r: Session, envs: seq<Envelope>)
    requires !s.phase.Ended? && !r.phase.Ended?
    ensures Replay(s, envs) == Replay(r, envs) <==> Meets(s, r, envs)
  {
    var live := LivePart(envs);
    ReplayIsLivePart(s, envs);
    ReplayIsLivePart(r, envs);
    IdsAgree(s, r, live);
    PhasesAgree(s, r, live);
    TurnsAgree(s, r, live);
    CheckpointsAgree(s, r, live);
    if live != [] {
      LastSeqTracksTheLog(s, live);
      LastSeqTracksTheLog(r, live);
    }
  }

  // ---- forgetting the front of a history -------------------------------------

  predicate LastStartAt(envs: seq<Envelope>, i: nat) {
    && i < |envs| && Starts(envs[i].payload)
    && forall j :: i < j < |envs| ==> !Starts(envs[j].payload)
  }

  /** The last start named this session and agent, or there is none and `s` has these ids. */
  ghost predicate Names(s: Session, envs: seq<Envelope>, sid: nat, aid: nat) {
    if Any(envs, Starts) then exists i: nat :: LastStartAt(envs, i) && envs[i].payload == SessionStarted(sid, aid)
    else s.id == sid && s.agentId == aid
  }

  /** Turn `t` was queued and left open, or it is open in `s` and nothing queued or closed a turn. */
  ghost predicate KeepsOpen(s: Session, envs: seq<Envelope>, t: TurnId) {
    if Any(envs, IsQueued) then LeftOpen(envs, t) else s.openTurn == Some(t) && !Any(envs, CloserOf(t))
  }

  /** `c` is the last checkpoint of `envs` and the sequence before it, or there is none and `c` is the one in `s`. */
  ghost predicate Marked(s: Session, envs: seq<Envelope>, c: Option<CheckpointRef>) {
    if Any(envs, Marks) then c.Some? && exists i: nat :: LastCheckpointAt(envs, i) && c.value == RefFrom(s, envs, i)
    else c == s.lastCheckpoint
  }

  function RefFrom(s: Session, envs: seq<Envelope>, i: nat): CheckpointRef
    requires i < |envs| && envs[i].payload.CheckpointReached?
  {
    CheckpointRef(envs[i].payload.checkpointId, if i == 0 then s.lastSeq else envs[i - 1].sequence)
  }

  lemma NamesSnoc(s: Session, front: seq<Envelope>, last: Envelope, sid: nat, aid: nat)
    ensures Names(s, front + [last], sid, aid) <==>
      if Starts(last.payload) then last.payload == SessionStarted(sid, aid) else Names(s, front, sid, aid)
  {
    AnySnoc(front, last, Starts);
    if Starts(last.payload) {
      assert LastStartAt(front + [last], |front|);
    } else {
      StartsSnoc(front, last, sid, aid);
    }
  }

  lemma {:induction false} NamesWhileLive(s: Session, envs: seq<Envelope>, sid: nat, aid: nat)
    requires Live(envs) && !s.phase.Ended?
    ensures Names(s, envs, sid, aid) <==> Replay(s, envs).id == sid && Replay(s, envs).agentId == aid
  {
    if envs != [] {
      var front, last := envs[..|envs| - 1], envs[|envs| - 1];
      assert envs == front + [last];
      NamesSnoc(s, front, last, sid, aid);
      LiveReplay(s, front);
      NamesWhileLive(s, front, sid, aid);
    }
  }

  lemma StartsSnoc(front: seq<Envelope>, last: Envelope, sid: nat, aid: nat)
    requires !Starts(last.payload)
    ensures (exists i: nat :: LastStartAt(front, i) && front[i].payload == SessionStarted(sid, aid))
      <==> (exists i: nat :: LastStartAt(front + [last], i) && (front + [last])[i].payload == SessionStarted(sid, aid))
  {
    var envs := front + [last];
    forall i: nat ensures LastStartAt(front, i) <==> LastStartAt(envs, i) {
      assert envs[|front|] == last && forall j :: 0 <= j < |front| ==> envs[j] == front[j];
    }
  }

  lemma KeepsOpenWhileLive(s: Session, envs: seq<Envelope>, t: TurnId)
    requires Live(envs) && !s.phase.Ended?
    ensures KeepsOpen(s, envs, t) <==> Replay(s, envs).openTurn == Some(t)
  {
    if Any(envs, IsQueued) {
      TurnOnceQueued(s, DEFAULT, envs);
      OpenTurnWhileLive(envs, t);
    } else {
      TurnWithoutQueueing(s, envs);
    }
  }

  lemma MarkedSnoc(s: Session, front: seq<Envelope>, last: Envelope, c: Option<CheckpointRef>)
    ensures Marked(s, front + [last], c) <==>
      if Marks(last.payload) then c == Some(RefFrom(s, front + [last], |front|)) else Marked(s, front, c)
  {
    AnySnoc(front, last, Marks);
    if Marks(last.payload) {
      assert LastCheckpointAt(front + [last], |front|);
    } else if c.Some? {
      MarksSnoc(s, front, last, c);
    }
  }

  lemma {:induction false} MarkedWhileLive(s: Session, envs: seq<Envelope>, c: Option<CheckpointRef>)
    requires Live(envs) && !s.phase.Ended?
    ensures Marked(s, envs, c) <==> Replay(s, envs).lastCheckpoint == c
  {
    if envs != [] {
      var front, last := envs[..|envs| - 1], envs[|envs| - 1];
      assert envs == front + [last];
      LiveReplay(s, front);
      MarkedWhileLive(s, front, c);
      MarkedSnoc(s, front, last, c);
      CheckpointSnoc(s, front, last);
    }
  }

  lemma CheckpointSnoc(s: Session, front: seq<Envelope>, last: Envelope)
    requires !Replay(s, front).phase.Ended? && !last.payload.SessionEnded?
    ensures Replay(s, front + [last]).lastCheckpoint ==
      if Marks(last.payload) then Some(RefFrom(s, front + [last], |front|)) else Replay(s, front).lastCheckpoint
  {
    assert (front + [last])[..|front|] == front;
    if front != [] {
      LastSeqTracksTheLog(s, front);
    }
  }

  lemma MarksSnoc(s: Session, front: seq<Envelope>, last: Envelope, c: Option<CheckpointRef>)
    requires !Marks(last.payload) && c.Some?
    ensures (exists i: nat :: LastCheckpointAt(front, i) && c.value == RefFrom(s, front, i))
      <==> (exists i: nat :: LastCheckpointAt(front + [last], i) && c.value == RefFrom(s, front + [last], i))
  {
    var envs := front + [last];
    forall i: nat ensures LastCheckpointAt(front, i) <==> LastCheckpointAt(envs, i) {
      assert envs[|front|] == last && forall j :: 0 <= j < |front| ==> envs[j] == front[j];
    }
  }

  /** The ids of a session are those its last start before the end announced, if there is one. */
  lemma IdMeaning(envs: seq<Envelope>, sid: nat, aid: nat)
    ensures Names(DEFAULT, LivePart(envs), sid, aid)
      <==> Replay(DEFAULT, envs).id == sid && Replay(DEFAULT, envs).agentId == aid
  {
    ReplayIsLivePart(DEFAULT, envs);
    NamesWhileLive(DEFAULT, LivePart(envs), sid, aid);
  }

  /** Two stretches of events say the same of a session that was in `s`: the same last
      start, the same turn left open and the same last checkpoint. */
  ghost predicate SayTheSame(s: Session, a: seq<Envelope>, b: seq<Envelope>) {
    && (forall sid, aid :: Names(s, a, sid, aid) <==> Names(s, b, sid, aid))
    && (forall t: TurnId :: KeepsOpen(s, a, t) <==> KeepsOpen(s, b, t))
    && (forall c :: Marked(s, a, c) <==> Marked(s, b, c))
  }

  lemma SayingTheSame(s: Session, a: seq<Envelope>, b: seq<Envelope>)
    requires Live(a) && Live(b) && !s.phase.Ended?
    ensures var x, y := Replay(s, a), Replay(s, b);
      SayTheSame(s, a, b) <==>
        x.id == y.id && x.agentId == y.agentId && x.openTurn == y.openTurn && x.lastCheckpoint == y.lastCheckpoint
  {
    var x, y := Replay(s, a), Replay(s, b);
    forall sid, aid ensures Names(s, a, sid, aid) <==> x.id == sid && x.agentId == aid {
      NamesWhileLive(s, a, sid, aid);
    }
    forall sid, aid ensures Names(s, b, sid, aid) <==> y.id == sid && y.agentId == aid {
      NamesWhileLive(s, b, sid, aid);
    }
    forall t: TurnId ensures KeepsOpen(s, a, t) <==> x.openTurn == Some(t) {
      KeepsOpenWhileLive(s, a, t);
    }
    forall t: TurnId ensures KeepsOpen(s, b, t) <==> y.openTurn == Some(t) {
      KeepsOpenWhileLive(s, b, t);
    }
    forall c ensures Marked(s, a, c) <==> x.lastCheckpoint == c {
      MarkedWhileLive(s, a, c);
    }
    forall c ensures Marked(s, b, c) <==> y.lastCheckpoint == c {
      MarkedWhileLive(s, b, c);
    }
    SameTold(s, a, b);
  }

  lemma SameTold(s: Session, a: seq<Envelope>, b: seq<Envelope>)
    requires forall sid, aid :: Names(s, a, sid, aid) <==> Replay(s, a).id == sid && Replay(s, a).agentId == aid
    requires forall sid, aid :: Names(s, b, sid, aid) <==> Replay(s, b).id == sid && Replay(s, b).agentId == aid
    requires forall t: TurnId :: KeepsOpen(s, a, t) <==> Replay(s, a).openTurn == Some(t)
    requires forall t: TurnId :: KeepsOpen(s, b, t) <==> Replay(s, b).openTurn == Some(t)
    requires forall c :: Marked(s, a, c) <==> Replay(s, a).lastCheckpoint == c
    requires forall c :: Marked(s, b, c) <==> Replay(s, b).lastCheckpoint == c
    ensures var x, y := Replay(s, a), Replay(s, b);
      SayTheSame(s, a, b) <==>
        x.id == y.id && x.agentId == y.agentId && x.openTurn == y.openTurn && x.lastCheckpoint == y.lastCheckpoint
  {
    var x, y := Replay(s, a), Replay(s, b);
    if SayTheSame(s, a, b) {
      assert Names(s, a, x.id, x.agentId) && Marked(s, a, x.lastCheckpoint);
      if x.openTurn.Some? {
        assert KeepsOpen(s, a, x.openTurn.value);
      }
      if y.openTurn.Some? {
        assert KeepsOpen(s, b, y.openTurn.value);
      }
    }
  }

  /** A session that ended in the front is told again only if it ends again, and up to
      their ends both parts say the same of it. */
  ghost predicate EndsAgain(s: Session, front: seq<Envelope>, kept: seq<Envelope>) {
    |LivePart(kept)| < |kept| && SayTheSame(s, LivePart(front), LivePart(kept))
  }

  /** What the events after a cut must decide, given the state before the cut's
      front and the front itself. */
  ghost predicate Retold(s: Session, front: seq<Envelope>, kept: seq<Envelope>) {
    var r := Replay(s, front);
    if s.phase.Ended? then kept != [] || s.lastSeq == r.lastSeq
    else if |LivePart(front)| < |front| && kept != [] then EndsAgain(s, front, kept)
    else Meets(s, r, kept)
  }

  lemma EndedFront(s: Session, front: seq<Envelope>, kept: seq<Envelope>)
    requires !s.phase.Ended? && Replay(s, front).phase.Ended? && kept != []
    ensures var r := Replay(s, front);
      Replay(s, kept) == r.(lastSeq := kept[|kept| - 1].sequence) <==> EndsAgain(s, front, kept)
  {
    ReplayIsLivePart(s, front);
    ReplayIsLivePart(s, kept);
    LiveReplay(s, LivePart(front));
    LiveReplay(s, LivePart(kept));
    SayingTheSame(s, LivePart(front), LivePart(kept));
  }

  /** For every start, every history and every cut: replaying only the events from the
      cut on gives the whole history's state if and only if those events decide every
      field the front has changed. */
  lemma CutReplaysExactly(s: Session, history: seq<Envelope>, cut: nat)
    requires cut <= |history|
    ensures Replay(s, history[cut..]) == Replay(s, history) <==> Retold(s, history[..cut], history[cut..])
  {
    var front, kept := history[..cut], history[cut..];
    var r := Replay(s, front);
    assert history == front + kept;
    ReplaySplits(s, front, kept);
    if !s.phase.Ended? {
      ReplayIsLivePart(s, front);
      LiveReplay(s, LivePart(front));
    }
    if s.phase.Ended? {
      EndedIsAbsorbing(s, front);
      EndedIsAbsorbing(s, kept);
      EndedIsAbsorbing(r, kept);
    } else if !r.phase.Ended? {
      ReplaysMeet(s, r, kept);
    } else if kept != [] {
      EndedIsAbsorbing(r, kept);
      EndedFront(s, front, kept);
    } else {
      assert LivePart(kept) == [];
    }
  }

  /** Forgetting nothing is harmless. */
  lemma NothingForgotten(s: Session, kept: seq<Envelope>)
    ensures Retold(s, [], kept)
  {
    assert ([] + kept)[0..] == kept && [] + kept == kept && kept[..0] == [];
    CutReplaysExactly(s, kept, 0);
  }
}
