/** The loop closed: the supervisor reads the log that the writer and reader
    tasks write, and the turns after the first are its prompts and those of an
    operator who sends when no turn is alive. */
module ClosedLoop {
  import opened Events
  import opened Sessions
  import opened TurnProtocol
  import opened TurnSafety
  import TurnTheorems
  import Sup = Supervisor

  /** `cursor` is how much of the log the supervisor has consumed, `live` the
      turn sent last. Delivery to the supervisor is in order and exactly once
      (Subscription.ExactlyOnce). */
  datatype Loop = Loop(conn: Conn, sup: Sup.Loop, cursor: nat, live: TurnId)

  datatype LoopAction =
    | TaskStep(action: Action)
    | Supervise(freshId: TurnId, prompt: string, driverOk: bool)
    | HumanSend(turn: Turn)

  function CallOf(w: Loop, driverOk: bool): Option<Sup.Call>
    requires w.cursor < |w.conn.log|
  {
    Sup.Handle(w.sup, w.conn.log[w.cursor].event, driverOk).1
  }

  predicate Prompts(w: Loop, driverOk: bool)
    requires w.cursor < |w.conn.log|
  {
    driverOk && CallOf(w, driverOk) == Some(Sup.SendAgentPrompt)
  }

  // ---- what a turn can still lead to ----------------------------------------

  /** The supervisor after reading `events`, every call it makes succeeding. */
  function Fold(l: Sup.Loop, events: seq<SessionEvent>): Sup.Loop {
    if events == [] then l else Sup.Handle(Fold(l, events[..|events| - 1]), events[|events| - 1], true).0
  }

  /** Reading `events` it prompts at a completion of `t`. */
  predicate Fires(l: Sup.Loop, events: seq<SessionEvent>, t: TurnId) {
    events != [] &&
    var front, e := events[..|events| - 1], events[|events| - 1];
    Fires(l, front, t)
    || (e.TurnCompleted? && e.turnId == t && Sup.Handle(Fold(l, front), e, true).1 == Some(Sup.SendAgentPrompt))
  }

  function Payloads(entries: seq<Entry>): (r: seq<SessionEvent>)
    ensures |r| == |entries| && forall i :: 0 <= i < |r| ==> r[i] == entries[i].event
  {
    seq(|entries|, i requires 0 <= i < |entries| => entries[i].event)
  }

  /** What the supervisor has yet to read. */
  function Unread(w: Loop): seq<SessionEvent> {
    if w.cursor <= |w.conn.log| then Payloads(w.conn.log[w.cursor..]) else []
  }

  /** The supervisor once it has read it. */
  function CaughtUp(w: Loop): Sup.Loop {
    Fold(w.sup, Unread(w))
  }

  /** The prompt of `t` has yet to be queued. */
  ghost predicate Ahead(s: Conn, t: TurnId) {
    Queued(s.queue, t) || (s.writer.WQueue? && s.writer.turn.id == t)
  }

  predicate MayComplete(r: ReaderPc) {
    r.RIdle? || r.RAppend?
  }

  predicate Delivering(w: WriterPc) {
    w.WSerialize? || w.WPend? || w.WWrite? || w.WFlush? || w.WDeliver?
  }

  predicate Published(s: Conn, t: TurnId) {
    s.open == Some(t) || (s.writer.WPublish? && s.writer.turn.id == t)
  }

  /** The tasks can still log a completion of `t` that a supervisor in state `l` answers
      with a prompt: one in the reader's hand, one of a published turn it awaits, or
      one of a turn still to be delivered. */
  predicate Coming(l: Sup.Loop, s: Conn, t: TurnId) {
    !Sup.IsTerminal(l.phase) &&
    (|| (s.reader.RAppend? && InFlight(s.reader) == Some(t) && Fires(l, Batch(s.reader.frame, s.reader.completed), t))
     || (MayComplete(s.reader) && l.awaiting == Some(t) && Published(s, t))
     || (MayComplete(s.reader) && Delivering(s.writer) && s.writer.turn.id == t))
  }

  /** Turn `t` may still be queued, or the log replays to it as the open turn, or it may
      still make the supervisor prompt. */
  ghost predicate Alive(w: Loop, t: TurnId) {
    || Ahead(w.conn, t)
    || StateOf(w.conn.log).openTurn == Some(t)
    || Fires(w.sup, Unread(w), t)
    || Coming(CaughtUp(w), w.conn, t)
  }

  /** The writer will take nothing more out of the channel. */
  predicate Closing(s: Conn) {
    s.cancelled || s.writer.WDone? || ((s.writer.WClear? || s.writer.WFail?) && s.writer.last)
  }

  /** What a second sender has to check before it sends: the writer is closing, or no
      turn sent so far is alive. */
  ghost predicate SafeToSend(w: Loop) {
    Closing(w.conn) || forall t :: t in w.conn.used ==> !Alive(w, t)
  }

  ghost predicate LoopEnabled(w: Loop, a: LoopAction) {
    match a
    case TaskStep(act) => !act.Send? && Enabled(w.conn, act)
    case Supervise(id, prompt, ok) =>
      w.cursor < |w.conn.log| && (Prompts(w, ok) ==> Enabled(w.conn, Send(Turn(Agent, prompt, id))))
    case HumanSend(turn) => SafeToSend(w) && Enabled(w.conn, Send(turn))
  }

  ghost function LoopDo(w: Loop, a: LoopAction): Loop
    requires LoopEnabled(w, a)
  {
    match a
    case TaskStep(act) => w.(conn := Do(w.conn, act))
    case Supervise(id, prompt, ok) =>
      var sup' := Sup.Handle(w.sup, w.conn.log[w.cursor].event, ok).0;
      if Prompts(w, ok)
      then Loop(Do(w.conn, Send(Turn(Agent, prompt, id))), sup', w.cursor + 1, id)
      else w.(sup := sup', cursor := w.cursor + 1)
    case HumanSend(turn) => w.(conn := Do(w.conn, Send(turn)), live := turn.id)
  }

  ghost function LoopNext(w: Option<Loop>, a: LoopAction): Option<Loop> {
    if w.Some? && LoopEnabled(w.value, a) then Some(LoopDo(w.value, a)) else None
  }

  ghost function LoopExec(w: Loop, acts: seq<LoopAction>): Option<Loop> {
    if acts == [] then Some(w) else LoopNext(LoopExec(w, acts[..|acts| - 1]), acts[|acts| - 1])
  }

  /** A session's first launch, one initial prompt in the channel. */
  function Start(sessionId: nat, agentId: nat, first: Turn): Loop {
    Loop(Launched(sessionId, agentId).(queue := [first], used := {first.id}), Sup.INITIAL, 0, first.id)
  }

  // ---- replaying the log --------------------------------------------------

  /** The log as the store numbers it. */
  function Envelopes(log: seq<Entry>): (r: seq<Envelope>)
    ensures |r| == |log|
  {
    seq(|log|, i requires 0 <= i < |log| => Envelope(Key("session", ""), i + 1, log[i].event))
  }

  function StateOf(log: seq<Entry>): Session {
    Replay(DEFAULT, Envelopes(log))
  }

  lemma StateSnoc(log: seq<Entry>, e: Entry)
    ensures StateOf(log + [e]) == Apply(StateOf(log), e.event).(lastSeq := |log| + 1)
  {
    var envs := Envelopes(log + [e]);
    assert envs[..|envs| - 1] == Envelopes(log);
  }

  ghost predicate NoneQueued(events: seq<SessionEvent>) {
    forall i :: 0 <= i < |events| ==> !IsQueued(events[i]) && !events[i].SessionEnded?
  }

  /** Appending anything but a prompt opens no turn, and a `TurnCompleted` closes its own. */
  lemma {:induction false} AppendClosesOnly(log: seq<Entry>, author: Author, events: seq<SessionEvent>)
    requires NoneQueued(events) && !StateOf(log).phase.Ended?
    ensures var before, after := StateOf(log), StateOf(log + Tag(author, events));
      && !after.phase.Ended?
      && (after.openTurn == before.openTurn || after.openTurn.None?)
      && forall i :: 0 <= i < |events| && events[i].TurnCompleted? ==> after.openTurn != Some(events[i].turnId)
  {
    if events == [] {
      assert log + Tag(author, events) == log;
    } else {
      var n := |events| - 1;
      AppendClosesOnly(log, author, events[..n]);
      StateSnoc(log + Tag(author, events[..n]), Entry(author, events[n]));
      assert log + Tag(author, events) == (log + Tag(author, events[..n])) + [Entry(author, events[n])];
      forall i | 0 <= i < n && events[i].TurnCompleted?
        ensures StateOf(log + Tag(author, events)).openTurn != Some(events[i].turnId)
      {
        assert events[..n][i].TurnCompleted?;
      }
    }
  }

  // ---- the invariant ------------------------------------------------------

  /** Only the turn sent last is alive. */
  ghost predicate OneAlive(w: Loop) {
    forall t :: t in w.conn.used && t != w.live ==> !Alive(w, t)
  }

  /** The reducer's open turn has been queued and has not completed, and the writer queues
      a prompt only while there is none. */
  ghost predicate OpenInv(w: Loop) {
    var s := w.conn;
    var open := StateOf(s.log).openTurn;
    && (open.Some? ==> open.value in s.used && !Ahead(s, open.value))
    && (s.writer.WQueue? ==> open.None?)
    && (forall i :: 0 <= i < |s.log| && s.log[i].event.TurnCompleted? ==> open != Some(s.log[i].event.turnId))
  }

  ghost predicate EndedInv(w: Loop) {
    && (forall i :: 0 <= i < |w.conn.log| && w.conn.log[i].event.SessionEnded? ==> w.conn.log[i].author.ByShutdown?)
    && (StateOf(w.conn.log).phase.Ended? ==> w.conn.writer.WDone? && w.conn.reader.RDone?)
  }

  /** A prompt goes in only where the log before it replays to no open turn. */
  predicate NothingOpen(log: seq<Entry>, i: nat)
    requires i < |log|
  {
    IsQueued(log[i].event) ==> StateOf(log[..i]).openTurn.None?
  }

  /** So at every entry of the log. */
  ghost predicate AssertInv(log: seq<Entry>) {
    forall i :: 0 <= i < |log| ==> NothingOpen(log, i)
  }

  ghost predicate LoopInv(w: Loop) {
    && PlaceInv(w.conn) && EndInv(w.conn) && JoinInv(w.conn)
    && w.cursor <= |w.conn.log| && w.live in w.conn.used
    && OpenInv(w) && EndedInv(w) && AssertInv(w.conn.log)
    && (Closing(w.conn) || OneAlive(w))
  }

  // ---- what is not alive stays so ---------------------------------------------

  lemma {:induction false} FoldSplits(l: Sup.Loop, a: seq<SessionEvent>, b: seq<SessionEvent>, t: TurnId)
    ensures Fold(l, a + b) == Fold(Fold(l, a), b)
    ensures Fires(l, a + b, t) <==> Fires(l, a, t) || Fires(Fold(l, a), b, t)
  {
    if b == [] {
      assert a + b == a;
    } else {
      FoldSplits(l, a, b[..|b| - 1], t);
      assert (a + b)[..|a + b| - 1] == a + b[..|b| - 1];
    }
  }

  /** The supervisor has stopped, or awaits another turn. */
  predicate Deaf(l: Sup.Loop, t: TurnId) {
    Sup.IsTerminal(l.phase) || l.awaiting != Some(t)
  }

  predicate DeliversNot(events: seq<SessionEvent>, t: TurnId) {
    forall i :: 0 <= i < |events| ==> !(IsDelivered(events[i]) && events[i].turnId == t)
  }

  lemma {:induction false} StaysDeaf(l: Sup.Loop, events: seq<SessionEvent>, t: TurnId)
    requires Deaf(l, t) && DeliversNot(events, t)
    ensures Deaf(Fold(l, events), t) && !Fires(l, events, t)
  {
    if events != [] {
      StaysDeaf(l, events[..|events| - 1], t);
    }
  }

  lemma {:induction false} StaysStopped(l: Sup.Loop, events: seq<SessionEvent>, t: TurnId)
    requires Sup.IsTerminal(l.phase)
    ensures Fold(l, events) == l && !Fires(l, events, t)
  {
    if events != [] {
      StaysStopped(l, events[..|events| - 1], t);
    }
  }

  predicate CompletesNot(events: seq<SessionEvent>, t: TurnId) {
    forall i :: 0 <= i < |events| ==> !(events[i].TurnCompleted? && events[i].turnId == t)
  }

  lemma {:induction false} NoCompletionNoPrompt(l: Sup.Loop, events: seq<SessionEvent>, t: TurnId)
    requires CompletesNot(events, t)
    ensures !Fires(l, events, t)
  {
    if events != [] {
      NoCompletionNoPrompt(l, events[..|events| - 1], t);
    }
  }

  /** No completion of `t` that the supervisor would answer is logged or gets nearer. */
  ghost predicate StaysCold(l: Sup.Loop, s: Conn, a: Action, t: TurnId)
    requires Enabled(s, a)
  {
    !Fires(l, StepLogs(s, a), t) && !Coming(Fold(l, StepLogs(s, a)), Do(s, a), t)
  }

  lemma ColdSilent(l: Sup.Loop, s: Conn, a: Action, t: TurnId)
    requires PlaceInv(s) && EndInv(s) && Enabled(s, a) && !a.Send? && !Ahead(s, t) && !Coming(l, s, t)
    requires StepLogs(s, a) == [] && !a.RResult?
    ensures StaysCold(l, s, a, t)
  {
    assert Fold(l, []) == l;
    if IsWriterStep(a) {
      ColdQuietWriter(l, s, a, t);
    } else {
      ColdQuietReader(l, s, a, t);
    }
  }

  lemma ColdQuietWriter(l: Sup.Loop, s: Conn, a: Action, t: TurnId)
    requires Enabled(s, a) && IsWriterStep(a) && !Ahead(s, t) && !Coming(l, s, t)
    ensures !Coming(l, DoWriter(s, a), t)
  {
    assert DoWriter(s, a).reader == s.reader;
  }

  lemma ColdQuietReader(l: Sup.Loop, s: Conn, a: Action, t: TurnId)
    requires Enabled(s, a) && !IsWriterStep(a) && !a.Send? && !a.RResult? && !Coming(l, s, t)
    requires PlaceInv(s)
    ensures !Coming(l, Do(s, a), t)
  {
    var s' := Do(s, a);
    assert s'.writer == s.writer && (s'.open == s.open || s'.reader.RCrash?);
  }

  lemma ColdResult(l: Sup.Loop, s: Conn, a: Action, t: TurnId)
    requires PlaceInv(s) && EndInv(s) && Enabled(s, a) && a.RResult? && !Ahead(s, t) && !Coming(l, s, t)
    ensures StaysCold(l, s, a, t)
  {
    var s' := Do(s, a);
    assert Fold(l, []) == l;
    if InFlight(s'.reader) == Some(t) && !Sup.IsTerminal(l.phase) {
      var events := Batch(s'.reader.frame, s'.reader.completed);
      assert s.open == Some(t) && Deaf(l, t);
      assert forall i :: 0 <= i < |a.flushed| ==> FrameEvent(a.flushed[i]);
      StaysDeaf(l, events, t);
    }
  }

  lemma FoldOne(l: Sup.Loop, e: SessionEvent, t: TurnId)
    requires !e.TurnCompleted?
    ensures Fold(l, [e]) == Sup.Handle(l, e, true).0 && !Fires(l, [e], t)
  {
    assert [e][..0] == [] && Fold(l, []) == l;
    NoCompletionNoPrompt(l, [e], t);
  }

  /** A prompt queued, or a delivery that failed, tells the supervisor nothing. */
  lemma ColdUnheard(l: Sup.Loop, s: Conn, a: Action, t: TurnId)
    requires Enabled(s, a) && (a == WAppendQueued(true) || a == WAppendFailed(true))
    requires !Ahead(s, t) && !Coming(l, s, t)
    ensures StaysCold(l, s, a, t)
  {
    FoldOne(l, StepLogs(s, a)[0], t);
    assert Do(s, a) == DoWriter(s, a);
  }

  lemma ColdDelivery(l: Sup.Loop, s: Conn, a: Action, t: TurnId)
    requires PlaceInv(s) && EndInv(s) && Enabled(s, a) && a == WAppendDelivered(true)
    requires !Ahead(s, t) && !Coming(l, s, t)
    ensures StaysCold(l, s, a, t)
  {
    var e := DeliveredEvent(s.writer.turn);
    assert StepLogs(s, a) == [e] && Do(s, a) == DoWriter(s, a);
    FoldOne(l, e, t);
    var l' := Fold(l, [e]);
    if s.reader.RAppend? && Deaf(l', t) {
      DeafToBatch(l', s, t);
    }
  }

  lemma DeafToBatch(l: Sup.Loop, s: Conn, t: TurnId)
    requires PlaceInv(s) && EndInv(s) && s.reader.RAppend? && Deaf(l, t)
    ensures var batch := Batch(s.reader.frame, s.reader.completed);
      Deaf(Fold(l, batch), t) && !Fires(l, batch, t)
  {
    assert forall i :: 0 <= i < |s.reader.frame| ==> FrameEvent(s.reader.frame[i]);
    StaysDeaf(l, Batch(s.reader.frame, s.reader.completed), t);
  }

  lemma ColdBatch(l: Sup.Loop, s: Conn, a: Action, t: TurnId)
    requires PlaceInv(s) && EndInv(s) && Enabled(s, a) && a == RAppendBatch(true) && !Ahead(s, t) && !Coming(l, s, t)
    ensures StaysCold(l, s, a, t)
  {
    var batch := Batch(s.reader.frame, s.reader.completed);
    assert StepLogs(s, a) == batch && Do(s, a) == DoReader(s, a);
    if Sup.IsTerminal(l.phase) {
      StaysStopped(l, batch, t);
    } else if Deaf(l, t) {
      DeafToBatch(l, s, t);
    } else if InFlight(s.reader) != Some(t) {
      OthersCompletion(l, s, t);
    }
  }

  lemma OthersCompletion(l: Sup.Loop, s: Conn, t: TurnId)
    requires PlaceInv(s) && EndInv(s) && s.reader.RAppend? && InFlight(s.reader) != Some(t)
    ensures !Fires(l, Batch(s.reader.frame, s.reader.completed), t)
  {
    assert forall i :: 0 <= i < |s.reader.frame| ==> FrameEvent(s.reader.frame[i]);
    NoCompletionNoPrompt(l, Batch(s.reader.frame, s.reader.completed), t);
  }

  lemma ColdLastWords(l: Sup.Loop, s: Conn, a: Action, t: TurnId)
    requires Enabled(s, a) && (a == RAppendCrash(true) || a == AppendEnded(true))
    ensures StaysCold(l, s, a, t)
  {
    var events := StepLogs(s, a);
    var front, last := events[..|events| - 1], events[|events| - 1];
    NoCompletionNoPrompt(l, events, t);
    assert last.SessionCrashed? || last.SessionEnded?;
    assert Sup.IsTerminal(Sup.Handle(Fold(l, front), last, true).0.phase);
  }

  lemma ColdConnStep(l: Sup.Loop, s: Conn, a: Action, t: TurnId)
    requires PlaceInv(s) && EndInv(s) && Enabled(s, a) && !a.Send? && !Ahead(s, t) && !Coming(l, s, t)
    ensures StaysCold(l, s, a, t)
  {
    if a.RResult? {
      ColdResult(l, s, a, t);
    } else if StepLogs(s, a) == [] {
      ColdSilent(l, s, a, t);
    } else if a.WAppendDelivered? {
      ColdDelivery(l, s, a, t);
    } else if IsWriterStep(a) {
      ColdUnheard(l, s, a, t);
    } else if a.RAppendBatch? {
      ColdBatch(l, s, a, t);
    } else {
      ColdLastWords(l, s, a, t);
    }
  }

  lemma UnreadGrows(w: Loop, a: Action)
    requires w.cursor <= |w.conn.log| && Enabled(w.conn, a)
    ensures Unread(w.(conn := Do(w.conn, a))) == Unread(w) + StepLogs(w.conn, a)
  {
    StepLogsAll(w.conn, a);
  }

  lemma NotAheadAfter(s: Conn, a: Action, t: TurnId)
    requires Enabled(s, a) && !a.Send? && !Ahead(s, t)
    ensures !Ahead(Do(s, a), t)
  {
    if a.WRecv? {
      assert s.queue[0].id != t;
      forall i | 0 <= i < |s.queue[1..]| ensures s.queue[1..][i].id != t {
        assert s.queue[1..][i] == s.queue[i + 1];
      }
    } else {
      assert Do(s, a).queue == s.queue;
    }
  }

  lemma ColdTaskStep(w: Loop, a: Action, t: TurnId)
    requires LoopInv(w) && Enabled(w.conn, a) && !a.Send? && !Alive(w, t)
    requires StateOf(Do(w.conn, a).log).openTurn != Some(t)
    ensures !Alive(w.(conn := Do(w.conn, a)), t)
  {
    UnreadGrows(w, a);
    FoldSplits(w.sup, Unread(w), StepLogs(w.conn, a), t);
    ColdConnStep(CaughtUp(w), w.conn, a, t);
    NotAheadAfter(w.conn, a, t);
  }

  /** Reading one event, the driver answering `ok`. */
  lemma ReadHead(l: Sup.Loop, e: SessionEvent, ok: bool, rest: seq<SessionEvent>, t: TurnId)
    requires !Fires(l, [e] + rest, t)
    ensures var l' := Sup.Handle(l, e, ok).0;
      && !Fires(l', rest, t)
      && (Fold(l', rest) == Fold(l, [e] + rest) || Sup.IsTerminal(Fold(l', rest).phase))
  {
    var l' := Sup.Handle(l, e, ok).0;
    FoldSplits(l, [e], rest, t);
    assert [e][..0] == [] && Fold(l, []) == l;
    if l' != Sup.Handle(l, e, true).0 {
      StaysStopped(l', rest, t);
    }
  }

  lemma ColdRead(w: Loop, ok: bool, t: TurnId)
    requires w.cursor < |w.conn.log| && !Alive(w, t)
    ensures var w' := w.(sup := Sup.Handle(w.sup, w.conn.log[w.cursor].event, ok).0, cursor := w.cursor + 1);
      !Alive(w', t)
  {
    var e, rest := w.conn.log[w.cursor].event, Payloads(w.conn.log[w.cursor + 1..]);
    assert Unread(w) == [e] + rest;
    ReadHead(w.sup, e, ok, rest, t);
  }

  lemma ColdSend(w: Loop, turn: Turn, t: TurnId, live: TurnId)
    requires Enabled(w.conn, Send(turn)) && t != turn.id && !Alive(w, t)
    ensures !Alive(w.(conn := Do(w.conn, Send(turn)), live := live), t)
  {
    var queue' := w.conn.queue + [turn];
    forall i | 0 <= i < |queue'| ensures queue'[i].id != t {
      assert i < |w.conn.queue| ==> queue'[i] == w.conn.queue[i];
    }
  }

  // ---- the invariant is kept ----------------------------------------------------

  /** The step that queues the live prompt. */
  lemma QueueStep(w: Loop, a: Action)
    requires LoopInv(w) && a == WAppendQueued(true) && Enabled(w.conn, a)
    ensures var w' := w.(conn := Do(w.conn, a)); OpenInv(w') && EndedInv(w') && AssertInv(w'.conn.log)
  {
    var s, s' := w.conn, Do(w.conn, a);
    var e := Entry(ByWriter, QueuedEvent(s.writer.turn));
    assert s'.log == s.log + [e];
    StateSnoc(s.log, e);
    AssertSnoc(s.log, e);
    assert !Queued(s'.queue, s.writer.turn.id);
  }

  lemma AssertSnoc(log: seq<Entry>, e: Entry)
    requires AssertInv(log) && (IsQueued(e.event) ==> StateOf(log).openTurn.None?)
    ensures AssertInv(log + [e])
  {
    forall i | 0 <= i < |log + [e]| ensures NothingOpen(log + [e], i) {
      if i < |log| {
        assert (log + [e])[..i] == log[..i] && NothingOpen(log, i);
      } else {
        assert (log + [e])[..i] == log;
      }
    }
  }

  /** Events that queue nothing cannot trip the assertion. */
  lemma {:induction false} AssertAppend(log: seq<Entry>, author: Author, events: seq<SessionEvent>)
    requires AssertInv(log) && forall i :: 0 <= i < |events| ==> !IsQueued(events[i])
    ensures AssertInv(log + Tag(author, events))
  {
    if events == [] {
      assert log + Tag(author, events) == log;
    } else {
      var n := |events| - 1;
      AssertAppend(log, author, events[..n]);
      AssertSnoc(log + Tag(author, events[..n]), Entry(author, events[n]));
      assert log + Tag(author, events) == (log + Tag(author, events[..n])) + [Entry(author, events[n])];
    }
  }

  lemma StepQueuesNothing(s: Conn, a: Action)
    requires PlaceInv(s) && EndInv(s) && Enabled(s, a) && !(a.WAppendQueued? && a.ok)
    ensures forall i :: 0 <= i < |StepLogs(s, a)| ==> !IsQueued(StepLogs(s, a)[i])
    ensures !a.AppendEnded? ==> NoneQueued(StepLogs(s, a))
  {
    if a.RAppendBatch? {
      assert forall i :: 0 <= i < |s.reader.frame| ==> FrameEvent(s.reader.frame[i]);
    }
  }

  /** Every other task step: the open turn is kept or closed. */
  lemma OpenAfterStep(w: Loop, a: Action)
    requires LoopInv(w) && Enabled(w.conn, a) && !(a.WAppendQueued? && a.ok) && !a.AppendEnded?
    ensures var before, after := StateOf(w.conn.log), StateOf(Do(w.conn, a).log);
      && (after.openTurn == before.openTurn || after.openTurn.None?)
      && (forall i :: 0 <= i < |StepLogs(w.conn, a)| && StepLogs(w.conn, a)[i].TurnCompleted?
            ==> after.openTurn != Some(StepLogs(w.conn, a)[i].turnId))
      && (after.phase.Ended? ==> before.phase.Ended?)
    ensures AssertInv(Do(w.conn, a).log)
  {
    var s, events := w.conn, StepLogs(w.conn, a);
    StepLogsAll(s, a);
    StepQueuesNothing(s, a);
    AssertAppend(s.log, StepAuthor(a), events);
    if events == [] {
      assert Do(s, a).log == s.log;
    } else {
      AppendClosesOnly(s.log, StepAuthor(a), events);
    }
  }

  lemma OtherStep(w: Loop, a: Action)
    requires LoopInv(w) && !a.Send? && Enabled(w.conn, a) && !(a.WAppendQueued? && a.ok) && !a.AppendEnded?
    ensures var w' := w.(conn := Do(w.conn, a)); OpenInv(w') && EndedInv(w') && AssertInv(w'.conn.log)
  {
    var s, s' := w.conn, Do(w.conn, a);
    OpenAfterStep(w, a);
    StepLogsAll(s, a);
    TasksMoveOn(s, a);
    EndedStep(w, a);
    if StateOf(s.log).openTurn.Some? {
      NotAheadAfter(s, a, StateOf(s.log).openTurn.value);
    }
    if a.WRecv? {
      NothingOpenAtRecv(w);
    }
    forall i | 0 <= i < |s'.log| && s'.log[i].event.TurnCompleted?
      ensures StateOf(s'.log).openTurn != Some(s'.log[i].event.turnId)
    {
      if i >= |s.log| {
        assert StepLogs(s, a)[i - |s.log|].TurnCompleted?;
      }
    }
  }

  lemma EndedStep(w: Loop, a: Action)
    requires LoopInv(w) && !a.Send? && Enabled(w.conn, a) && !(a.WAppendQueued? && a.ok) && !a.AppendEnded?
    requires StateOf(Do(w.conn, a).log).phase.Ended? ==> StateOf(w.conn.log).phase.Ended?
    ensures EndedInv(w.(conn := Do(w.conn, a)))
  {
    StepLogsAll(w.conn, a);
    StepQueuesNothing(w.conn, a);
    TasksMoveOn(w.conn, a);
  }

  /** The turn the writer takes up is alive, so the replayed session has no other open. */
  lemma NothingOpenAtRecv(w: Loop)
    requires LoopInv(w) && Enabled(w.conn, WRecv)
    ensures StateOf(w.conn.log).openTurn.None?
  {
    var next, open := w.conn.queue[0].id, StateOf(w.conn.log).openTurn;
    assert Queued(w.conn.queue, next) && Alive(w, next);
    if open.Some? {
      assert Alive(w, open.value);
    }
  }

  /** Nothing new to write, and done stays done. */
  lemma TasksMoveOn(s: Conn, a: Action)
    requires Enabled(s, a) && !a.Send?
    ensures var s' := Do(s, a);
      && (s'.queue != [] || s'.writer.WQueue? ==> s.queue != [] || s.writer.WQueue?)
      && (s.writer.WDone? ==> s'.writer.WDone?) && (s.reader.RDone? ==> s'.reader.RDone?)
  {
  }

  lemma EndLeavesOpen(s: Conn, ok: bool)
    requires Enabled(s, AppendEnded(ok))
    ensures StateOf(Do(s, AppendEnded(ok)).log).openTurn == StateOf(s.log).openTurn
  {
    var e := Entry(ByShutdown, SessionEnded);
    StateSnoc(s.log, e);
    assert Tag(ByShutdown, [SessionEnded]) == [e];
    assert Do(s, AppendEnded(ok)).log == if ok then s.log + [e] else s.log;
  }

  lemma EndStep(w: Loop, ok: bool)
    requires LoopInv(w) && Enabled(w.conn, AppendEnded(ok))
    ensures var w' := w.(conn := Do(w.conn, AppendEnded(ok))); OpenInv(w') && EndedInv(w') && AssertInv(w'.conn.log)
  {
    var log, e := w.conn.log, Entry(ByShutdown, SessionEnded);
    StateSnoc(log, e);
    AssertSnoc(log, e);
    assert Tag(ByShutdown, [SessionEnded]) == [e];
    assert Do(w.conn, AppendEnded(ok)).log == if ok then log + [e] else log;
  }

  lemma AliveStep(w: Loop, a: Action)
    requires LoopInv(w) && !Closing(w.conn) && !a.Send? && Enabled(w.conn, a)
    ensures OneAlive(w.(conn := Do(w.conn, a)))
  {
    var w' := w.(conn := Do(w.conn, a));
    forall t | t in w'.conn.used && t != w.live ensures !Alive(w', t) {
      assert !Alive(w, t);
      OpenTurnAfter(w, a, t);
      ColdTaskStep(w, a, t);
    }
  }

  /** Only a turn that was about to be queued becomes the open one. */
  lemma OpenTurnAfter(w: Loop, a: Action, t: TurnId)
    requires LoopInv(w) && !a.Send? && Enabled(w.conn, a) && !Ahead(w.conn, t)
    requires StateOf(w.conn.log).openTurn != Some(t)
    ensures StateOf(Do(w.conn, a).log).openTurn != Some(t)
  {
    if a == WAppendQueued(true) {
      var e := Entry(ByWriter, QueuedEvent(w.conn.writer.turn));
      assert Do(w.conn, a).log == w.conn.log + [e];
      StateSnoc(w.conn.log, e);
    } else if a.AppendEnded? {
      EndLeavesOpen(w.conn, a.ok);
    } else {
      OpenAfterStep(w, a);
    }
  }

  lemma StaysClosing(s: Conn, a: Action)
    requires Enabled(s, a) && Closing(s)
    ensures Closing(Do(s, a))
  {
  }

  lemma TaskStepKeeps(w: Loop, a: Action)
    requires LoopInv(w) && !a.Send? && Enabled(w.conn, a)
    ensures LoopInv(w.(conn := Do(w.conn, a)))
  {
    PlaceInvStep(w.conn, a);
    EndInvStep(w.conn, a);
    JoinInvStep(w.conn, a);
    StepLogsAll(w.conn, a);
    if Closing(w.conn) {
      StaysClosing(w.conn, a);
    } else {
      AliveStep(w, a);
    }
    LogStep(w, a);
    KeepsSent(w.conn, a);
  }

  lemma KeepsSent(s: Conn, a: Action)
    requires Enabled(s, a) && !a.Send?
    ensures Do(s, a).used == s.used
  {
  }

  lemma LogStep(w: Loop, a: Action)
    requires LoopInv(w) && !a.Send? && Enabled(w.conn, a)
    ensures var w' := w.(conn := Do(w.conn, a)); OpenInv(w') && EndedInv(w') && AssertInv(w'.conn.log)
  {
    if a.WAppendQueued? && a.ok {
      QueueStep(w, a);
    } else if a.AppendEnded? {
      EndStep(w, a.ok);
    } else {
      OtherStep(w, a);
    }
  }

  /** The supervisor has read the next event. */
  function ReadNext(w: Loop, ok: bool): Loop
    requires w.cursor < |w.conn.log|
  {
    w.(sup := Sup.Handle(w.sup, w.conn.log[w.cursor].event, ok).0, cursor := w.cursor + 1)
  }

  /** A completion that makes the supervisor prompt is one of the live turn, and with it
      read no turn is alive: none is queued, open, or able to lead to another prompt. */
  lemma PromptFindsNothingAlive(w: Loop)
    requires LoopInv(w) && w.cursor < |w.conn.log| && Prompts(w, true) && !Closing(w.conn)
    ensures var e := w.conn.log[w.cursor].event; e.TurnCompleted? && e.turnId == w.live
    ensures forall t :: t in w.conn.used ==> !Alive(ReadNext(w, true), t)
    ensures w.conn.queue == [] && !w.conn.writer.WQueue? && StateOf(w.conn.log).openTurn.None?
  {
    var s, w' := w.conn, ReadNext(w, true);
    var e := s.log[w.cursor].event;
    FirstFires(w);
    assert e.turnId in s.used && Alive(w, e.turnId);
    forall t | t in s.used ensures !Alive(w', t) {
      if t == w.live {
        CompletedIsSpent(w);
      } else {
        ColdRead(w, true, t);
      }
    }
    if s.queue != [] {
      assert Queued(s.queue, s.queue[0].id) && Alive(w', s.queue[0].id);
    }
    if StateOf(s.log).openTurn.Some? {
      assert Alive(w', StateOf(s.log).openTurn.value);
    }
    if s.writer.WQueue? {
      assert Alive(w', s.writer.turn.id);
    }
  }

  lemma FirstFires(w: Loop)
    requires w.cursor < |w.conn.log| && Prompts(w, true)
    ensures var e := w.conn.log[w.cursor].event; e.TurnCompleted? && Fires(w.sup, Unread(w), e.turnId)
  {
    var e, rest := w.conn.log[w.cursor].event, Payloads(w.conn.log[w.cursor + 1..]);
    assert Unread(w) == [e] + rest;
    assert [e][..0] == [] && Fold(w.sup, []) == w.sup;
    assert Fires(w.sup, [e], e.turnId);
    FoldSplits(w.sup, [e], rest, e.turnId);
  }

  /** A turn whose completion is read is nowhere any more. */
  lemma CompletedIsSpent(w: Loop)
    requires LoopInv(w) && w.cursor < |w.conn.log|
    requires w.conn.log[w.cursor].event.TurnCompleted? && w.conn.log[w.cursor].event.turnId == w.live
    ensures !Alive(ReadNext(w, true), w.live)
  {
    var s, w', t := w.conn, ReadNext(w, true), w.live;
    assert t in s.taken && Ends(s.log[w.cursor].event, t);
    var rest := Unread(w');
    forall i | 0 <= i < |rest| ensures !(rest[i].TurnCompleted? && rest[i].turnId == t) {
      assert !SameEnd(s.log[w.cursor].event, s.log[w.cursor + 1 + i].event);
    }
    NoCompletionNoPrompt(w'.sup, rest, t);
    assert InFlight(s.reader) != Some(t);
    assert !Queued(s.queue, t);
  }

  lemma ReadKeeps(w: Loop, ok: bool)
    requires LoopInv(w) && w.cursor < |w.conn.log|
    ensures LoopInv(ReadNext(w, ok))
  {
    var w' := ReadNext(w, ok);
    if !Closing(w.conn) {
      forall t | t in w.conn.used && t != w.live ensures !Alive(w', t) {
        ColdRead(w, ok, t);
      }
    }
  }

  /** A turn sent while the writer is closing, or while no turn is alive. */
  lemma SendKeeps(w: Loop, turn: Turn)
    requires LoopInv(w) && SafeToSend(w) && Enabled(w.conn, Send(turn))
    ensures LoopInv(w.(conn := Do(w.conn, Send(turn)), live := turn.id))
  {
    var w' := w.(conn := Do(w.conn, Send(turn)), live := turn.id);
    PlaceInvStep(w.conn, Send(turn));
    EndInvStep(w.conn, Send(turn));
    if StateOf(w.conn.log).openTurn.Some? {
      SendLeavesAhead(w.conn, turn, StateOf(w.conn.log).openTurn.value);
    }
    if !Closing(w.conn) {
      forall t | t in w'.conn.used && t != turn.id ensures !Alive(w', t) {
        ColdSend(w, turn, t, turn.id);
      }
    }
  }

  lemma SendLeavesAhead(s: Conn, turn: Turn, t: TurnId)
    requires Enabled(s, Send(turn)) && t in s.used && !Ahead(s, t)
    ensures !Ahead(Do(s, Send(turn)), t)
  {
    var queue' := s.queue + [turn];
    forall i | 0 <= i < |queue'| ensures queue'[i].id != t {
      assert i < |s.queue| ==> queue'[i] == s.queue[i];
    }
  }

  lemma SuperviseKeeps(w: Loop, id: TurnId, prompt: string, ok: bool)
    requires LoopInv(w) && LoopEnabled(w, Supervise(id, prompt, ok))
    ensures LoopInv(LoopDo(w, Supervise(id, prompt, ok)))
  {
    ReadKeeps(w, ok);
    if Prompts(w, ok) {
      if !Closing(w.conn) {
        PromptFindsNothingAlive(w);
      }
      SendKeeps(ReadNext(w, ok), Turn(Agent, prompt, id));
    }
  }

  lemma {:induction false} LoopKeepsInv(w0: Loop, acts: seq<LoopAction>)
    requires LoopInv(w0) && LoopExec(w0, acts).Some?
    ensures LoopInv(LoopExec(w0, acts).value)
  {
    if acts != [] {
      var n := |acts| - 1;
      LoopKeepsInv(w0, acts[..n]);
      var mid := LoopExec(w0, acts[..n]).value;
      match acts[n]
      case TaskStep(a) => TaskStepKeeps(mid, a);
      case Supervise(id, prompt, ok) => SuperviseKeeps(mid, id, prompt, ok);
      case HumanSend(turn) => SendKeeps(mid, turn);
    }
  }

  lemma StartInv(sessionId: nat, agentId: nat, first: Turn)
    ensures LoopInv(Start(sessionId, agentId, first))
  {
    var log := Launched(sessionId, agentId).log;
    assert log == [] + [log[0]];
    StateSnoc([], log[0]);
    assert log[..0] == [];
  }

  /** In every interleaving of the writer task, the reader task, the supervisor, an
      operator who sends only when that is safe, and shutdown, on a first launch and
      with any appends failing, no prompt is ever queued while the replayed session has
      an open turn: the reducer's assertion cannot fire on any prefix of the log. */
  lemma TwoOpenTurnsNeverHappen(sessionId: nat, agentId: nat, first: Turn, acts: seq<LoopAction>, i: nat)
    requires LoopExec(Start(sessionId, agentId, first), acts).Some?
    requires i < |LoopExec(Start(sessionId, agentId, first), acts).value.conn.log|
    ensures var log := LoopExec(Start(sessionId, agentId, first), acts).value.conn.log;
      IsQueued(log[i].event) ==> StateOf(log[..i]).openTurn.None?
  {
    var w0 := Start(sessionId, agentId, first);
    StartInv(sessionId, agentId, first);
    LoopKeepsInv(w0, acts);
    AssertAt(LoopExec(w0, acts).value.conn.log, i);
  }

  lemma AssertAt(log: seq<Entry>, i: nat)
    requires AssertInv(log) && i < |log|
    ensures IsQueued(log[i].event) ==> StateOf(log[..i]).openTurn.None?
  {
    assert NothingOpen(log, i);
  }

  /** What a frame may log without changing the supervisor's mind. */
  predicate Unremarkable(e: SessionEvent) {
    FrameEvent(e) && !e.SessionCrashed? && (e.CheckpointReached? ==> e.interrupt.None?)
  }

  /** The checkpoint in hand after such events. */
  function InHandAfter(cp: Option<Option<Interrupt>>, events: seq<SessionEvent>): Option<Option<Interrupt>> {
    if events == [] then cp
    else if events[|events| - 1].CheckpointReached? then Some(events[|events| - 1].interrupt)
    else InHandAfter(cp, events[..|events| - 1])
  }

  lemma {:induction false} NothingInterrupts(cp: Option<Option<Interrupt>>, events: seq<SessionEvent>)
    requires forall i :: 0 <= i < |events| ==> Unremarkable(events[i])
    requires cp == None || cp == Some(None)
    ensures Sup.Decide(InHandAfter(cp, events)) == Some(Sup.SendAgentPrompt)
  {
    if events != [] {
      NothingInterrupts(cp, events[..|events| - 1]);
    }
  }

  /** Reading one event after another. */
  function Reading(id: TurnId, prompt: string, n: nat): seq<LoopAction> {
    if n == 0 then [] else Reading(id, prompt, n - 1) + [Supervise(id, prompt, true)]
  }

  /** `events` stand in the log from `from` on, and none of them is remarkable. */
  ghost predicate Stands(log: seq<Entry>, from: nat, events: seq<SessionEvent>) {
    && from + |events| <= |log|
    && forall i :: 0 <= i < |events| ==> log[from + i].event == events[i] && Unremarkable(events[i])
  }

  /** The loop once the supervisor has read `events`. */
  function Past(w: Loop, events: seq<SessionEvent>): Loop {
    w.(cursor := w.cursor + |events|, sup := w.sup.(lastCheckpoint := InHandAfter(w.sup.lastCheckpoint, events)))
  }

  lemma PastSnoc(w: Loop, events: seq<SessionEvent>, id: TurnId, prompt: string)
    requires Stands(w.conn.log, w.cursor, events) && events != [] && !Sup.IsTerminal(w.sup.phase)
    ensures LoopNext(Some(Past(w, events[..|events| - 1])), Supervise(id, prompt, true)) == Some(Past(w, events))
  {
    var mid := Past(w, events[..|events| - 1]);
    assert w.conn.log[mid.cursor].event == events[|events| - 1];
    ReadOne(mid, events[|events| - 1], id, prompt);
  }

  lemma {:induction false} ReadsOn(w: Loop, events: seq<SessionEvent>, id: TurnId, prompt: string)
    requires Stands(w.conn.log, w.cursor, events) && !Sup.IsTerminal(w.sup.phase)
    ensures LoopExec(w, Reading(id, prompt, |events|)) == Some(Past(w, events))
  {
    if events == [] {
      assert LoopExec(w, []) == Some(w);
    } else {
      var n := |events| - 1;
      ReadsOn(w, events[..n], id, prompt);
      PastSnoc(w, events, id, prompt);
      LoopSnoc(w, Reading(id, prompt, n), Past(w, events[..n]), Supervise(id, prompt, true));
    }
  }

  lemma ReadOne(w: Loop, e: SessionEvent, id: TurnId, prompt: string)
    requires w.cursor < |w.conn.log| && w.conn.log[w.cursor].event == e
    requires Unremarkable(e) && !Sup.IsTerminal(w.sup.phase)
    ensures LoopNext(Some(w), Supervise(id, prompt, true)) == Some(w.(cursor := w.cursor + 1,
        sup := if e.CheckpointReached? then w.sup.(lastCheckpoint := Some(e.interrupt)) else w.sup))
  {
  }

  lemma LoopSnoc(w: Loop, acts: seq<LoopAction>, mid: Loop, a: LoopAction)
    requires LoopExec(w, acts) == Some(mid)
    ensures LoopExec(w, acts + [a]) == LoopNext(Some(mid), a)
  {
    assert (acts + [a])[..|acts|] == acts;
  }

  /** The supervisor reads the completion of the turn it awaits and prompts again. */
  lemma ReadsCompletion(w: Loop, t: TurnId, stop: string, id: TurnId, prompt: string)
    requires w.cursor < |w.conn.log|
    requires w.conn.log[w.cursor].event == TurnCompleted(t, stop) && w.sup.awaiting == Some(t)
    requires !Sup.IsTerminal(w.sup.phase) && Sup.Decide(w.sup.lastCheckpoint) == Some(Sup.SendAgentPrompt)
    requires w.conn.queue == [] && !w.conn.writer.WDone? && id !in w.conn.used
    ensures LoopNext(Some(w), Supervise(id, prompt, true))
      == Some(Loop(w.conn.(queue := [Turn(Agent, prompt, id)], used := w.conn.used + {id}),
                   Sup.Loop(w.sup.phase, None, None), w.cursor + 1, id))
  {
    assert w.conn.queue + [Turn(Agent, prompt, id)] == [Turn(Agent, prompt, id)];
  }

  function Awaiting(w: Loop, t: TurnId): Loop {
    w.(cursor := w.cursor + 2, sup := w.sup.(awaiting := Some(t)))
  }

  /** An undisturbed turn's events, with any frame events and checkpoints between delivery
      and completion that interrupt nothing, stand in the log unread. */
  ghost predicate TurnStands(w: Loop, t: Turn, between: seq<SessionEvent>, stop: string) {
    && w.cursor + 2 + |between| < |w.conn.log|
    && w.conn.log[w.cursor].event == QueuedEvent(t) && w.conn.log[w.cursor + 1].event == DeliveredEvent(t)
    && Stands(w.conn.log, w.cursor + 2, between)
    && w.conn.log[w.cursor + 2 + |between|].event == TurnCompleted(t.id, stop)
  }

  lemma ReadsTurn(w: Loop, t: Turn, between: seq<SessionEvent>, stop: string, id: TurnId, prompt: string)
    requires TurnStands(w, t, between, stop) && !Sup.IsTerminal(w.sup.phase)
    ensures LoopExec(w, Reading(id, prompt, 2) + Reading(id, prompt, |between|))
        == Some(Past(Awaiting(w, t.id), between))
  {
    ReadsDelivery(w, t, id, prompt);
    ReadsOn(Awaiting(w, t.id), between, id, prompt);
    LoopThen(w, Reading(id, prompt, 2), Awaiting(w, t.id), Reading(id, prompt, |between|));
  }

  function Prompted(w: Loop, read: nat, id: TurnId, prompt: string): Loop {
    Loop(w.conn.(queue := [Turn(Agent, prompt, id)], used := w.conn.used + {id}),
         Sup.Loop(w.sup.phase, None, None), w.cursor + read, id)
  }

  lemma PastCompletes(w: Loop, t: Turn, between: seq<SessionEvent>, stop: string, id: TurnId, prompt: string)
    requires TurnStands(w, t, between, stop)
    requires !Sup.IsTerminal(w.sup.phase) && (w.sup.lastCheckpoint == None || w.sup.lastCheckpoint == Some(None))
    requires w.conn.queue == [] && !w.conn.writer.WDone? && id !in w.conn.used
    ensures LoopNext(Some(Past(Awaiting(w, t.id), between)), Supervise(id, prompt, true))
         == Some(Prompted(w, 3 + |between|, id, prompt))
  {
    NothingInterrupts(w.sup.lastCheckpoint, between);
    ReadsCompletion(Past(Awaiting(w, t.id), between), t.id, stop, id, prompt);
  }

  lemma LoopLast(w: Loop, acts: seq<LoopAction>, mid: Loop, a: LoopAction, end: Loop)
    requires LoopExec(w, acts) == Some(mid) && LoopNext(Some(mid), a) == Some(end)
    ensures LoopExec(w, acts + [a]) == Some(end)
  {
    LoopSnoc(w, acts, mid, a);
  }

  /** And the loop does go on: reading an undisturbed turn makes the supervisor send
      exactly one next prompt. */
  lemma CompletedTurnLeadsToNextPrompt(w: Loop, t: Turn, between: seq<SessionEvent>, stop: string, id: TurnId,
      prompt: string)
    requires TurnStands(w, t, between, stop)
    requires !Sup.IsTerminal(w.sup.phase) && (w.sup.lastCheckpoint == None || w.sup.lastCheckpoint == Some(None))
    requires w.conn.queue == [] && !w.conn.writer.WDone? && id !in w.conn.used
    ensures LoopExec(w, Reading(id, prompt, 2) + Reading(id, prompt, |between|) + [Supervise(id, prompt, true)])
         == Some(Prompted(w, 3 + |between|, id, prompt))
  {
    ReadsTurn(w, t, between, stop, id, prompt);
    PastCompletes(w, t, between, stop, id, prompt);
    LoopLast(w, Reading(id, prompt, 2) + Reading(id, prompt, |between|), Past(Awaiting(w, t.id), between),
             Supervise(id, prompt, true), Prompted(w, 3 + |between|, id, prompt));
  }

  lemma ReadsDelivery(w: Loop, t: Turn, id: TurnId, prompt: string)
    requires w.cursor + 1 < |w.conn.log| && !Sup.IsTerminal(w.sup.phase)
    requires w.conn.log[w.cursor].event == QueuedEvent(t) && w.conn.log[w.cursor + 1].event == DeliveredEvent(t)
    ensures LoopExec(w, Reading(id, prompt, 2)) == Some(Awaiting(w, t.id))
  {
    var step, w1 := Supervise(id, prompt, true), w.(cursor := w.cursor + 1);
    assert Reading(id, prompt, 0) == [] && Reading(id, prompt, 1) == [] + [step];
    assert LoopExec(w, []) == Some(w);
    ReadsQueued(w, t, id, prompt);
    LoopLast(w, [], w, step, w1);
    ReadsDelivered(w1, t, id, prompt);
    LoopLast(w, Reading(id, prompt, 1), w1, step, Awaiting(w, t.id));
  }

  lemma ReadsQueued(w: Loop, t: Turn, id: TurnId, prompt: string)
    requires w.cursor < |w.conn.log| && w.conn.log[w.cursor].event == QueuedEvent(t)
    ensures LoopNext(Some(w), Supervise(id, prompt, true)) == Some(w.(cursor := w.cursor + 1))
  {
  }

  lemma ReadsDelivered(w: Loop, t: Turn, id: TurnId, prompt: string)
    requires w.cursor < |w.conn.log| && !Sup.IsTerminal(w.sup.phase) && w.conn.log[w.cursor].event == DeliveredEvent(t)
    ensures LoopNext(Some(w), Supervise(id, prompt, true))
      == Some(w.(cursor := w.cursor + 1, sup := w.sup.(awaiting := Some(t.id))))
  {
  }

  lemma {:induction false} LoopThen(w: Loop, a: seq<LoopAction>, mid: Loop, b: seq<LoopAction>)
    requires LoopExec(w, a) == Some(mid)
    ensures LoopExec(w, a + b) == LoopExec(mid, b)
  {
    if b == [] {
      assert a + b == a;
    } else {
      LoopThen(w, a, mid, b[..|b| - 1]);
      assert (a + b)[..|a + b| - 1] == a + b[..|b| - 1];
    }
  }

  /** The loop's runs of task steps alone are the protocol's. */
  function Tasks(acts: seq<Action>): seq<LoopAction> {
    seq(|acts|, i requires 0 <= i < |acts| => TaskStep(acts[i]))
  }

  lemma {:induction false} TasksRun(w: Loop, acts: seq<Action>)
    requires Exec(w.conn, acts).Some? && forall i :: 0 <= i < |acts| ==> !acts[i].Send?
    ensures LoopExec(w, Tasks(acts)) == Some(w.(conn := Exec(w.conn, acts).value))
  {
    if acts != [] {
      var n := |acts| - 1;
      TasksRun(w, acts[..n]);
      assert Tasks(acts)[..n] == Tasks(acts[..n]);
    }
  }
}
