/** Who may send a turn besides the supervisor: exactly which sends can make the
    reducer's assertion fire. */
module SecondSender {
  import opened Events
  import opened Sessions
  import opened TurnProtocol
  import opened TurnSafety
  import opened ClosedLoop
  import TurnTheorems
  import Sup = Supervisor

  /** The loop right after a turn is sent by somebody else, checked or not. */
  function Sent(w: Loop, u: Turn): Loop
    requires Enabled(w.conn, Send(u))
  {
    w.(conn := Do(w.conn, Send(u)), live := u.id)
  }

  /** Some prompt of the log was queued while the replayed session had an open turn. */
  ghost predicate Trips(log: seq<Entry>) {
    exists i: nat :: i < |log| && TripsAt(log, i)
  }

  predicate TripsAt(log: seq<Entry>, i: nat)
    requires i < |log|
  {
    !AssertionHolds(StateOf(log[..i]), log[i].event)
  }

  /** Without another send, the tasks and the supervisor can make the assertion fire. */
  ghost predicate CanTrip(w: Loop) {
    exists acts :: LeadsToTrip(w, acts)
  }

  ghost predicate LeadsToTrip(w: Loop, acts: seq<LoopAction>) {
    NoSender(acts) && LoopExec(w, acts).Some? && Trips(LoopExec(w, acts).value.conn.log)
  }

  ghost predicate NoSender(acts: seq<LoopAction>) {
    forall i :: 0 <= i < |acts| ==> !acts[i].HumanSend?
  }

  lemma CanTripAfter(w: Loop, acts: seq<LoopAction>, mid: Loop)
    requires NoSender(acts) && LoopExec(w, acts) == Some(mid) && CanTrip(mid)
    ensures CanTrip(w)
  {
    var more :| LeadsToTrip(mid, more);
    LoopThen(w, acts, mid, more);
    assert LeadsToTrip(w, acts + more);
  }

  lemma TripsAfterTasks(w: Loop, acts: seq<Action>, end: Conn)
    requires Exec(w.conn, acts) == Some(end) && forall i :: 0 <= i < |acts| ==> !acts[i].Send?
    requires CanTrip(w.(conn := end))
    ensures CanTrip(w)
  {
    TasksRun(w, acts);
    CanTripAfter(w, Tasks(acts), w.(conn := end));
  }

  lemma TripsAfterTask(w: Loop, a: Action)
    requires Enabled(w.conn, a) && !a.Send? && CanTrip(w.(conn := Do(w.conn, a)))
    ensures CanTrip(w)
  {
    TurnTheorems.Exec1(w.conn, a);
    TripsAfterTasks(w, [a], Do(w.conn, a));
  }

  // ---- a send that is not safe ------------------------------------------------

  predicate Going(s: Conn) {
    !Closing(s) && !StateOf(s.log).phase.Ended?
  }

  function Rank(w: WriterPc): nat {
    match w
    case WIdle => 0
    case WDone => 0
    case WFail(_, _, _) => 1
    case WPublish(_) => 1
    case WClear(_, _, _) => 2
    case WDeliver(_) => 2
    case WFlush(_) => 3
    case WWrite(_) => 4
    case WPend(_) => 5
    case WSerialize(_) => 6
    case WQueue(_) => 7
  }

  /** A step by which the writer gets on with its turn and logs nothing. */
  function Silently(w: WriterPc): Action {
    match w
    case WQueue(_) => WAppendQueued(false)
    case WSerialize(_) => WSerialized(false)
    case WPend(_) => WSetPending
    case WWrite(_) => WWritten(true)
    case WFlush(_) => WFlushed(false)
    case WDeliver(_) => WAppendDelivered(false)
    case WPublish(_) => WPublishOpen
    case WClear(_, _, _) => WClearPending
    case WFail(_, _, _) => WAppendFailed(false)
    case _ => WStop
  }

  /** The writer gets back to the channel with the log as it is. */
  lemma {:induction false} FinishHand(s: Conn) returns (acts: seq<Action>, end: Conn)
    requires !Closing(s)
    ensures Exec(s, acts) == Some(end) && forall i :: 0 <= i < |acts| ==> !acts[i].Send?
    ensures end.writer.WIdle? && !end.cancelled && end.queue == s.queue && end.log == s.log
    decreases Rank(s.writer)
  {
    if s.writer.WIdle? {
      acts, end := [], s;
    } else {
      var a := Silently(s.writer);
      var rest;
      TurnTheorems.Exec1(s, a);
      rest, end := FinishHand(Do(s, a));
      TurnTheorems.ExecThen(s, [a], Do(s, a), rest, end);
      acts := [a] + rest;
    }
  }

  /** The next prompt in the channel is queued. */
  function NextQueued(s: Conn): Conn
    requires s.queue != []
  {
    s.(queue := s.queue[1..], writer := WSerialize(s.queue[0]),
       log := s.log + [Entry(ByWriter, QueuedEvent(s.queue[0]))])
  }

  lemma QueueRuns(s: Conn)
    requires s.writer.WIdle? && !s.cancelled && s.queue != []
    ensures Exec(s, [WRecv, WAppendQueued(true)]) == Some(NextQueued(s))
  {
    assert Tag(ByWriter, [QueuedEvent(s.queue[0])]) == [Entry(ByWriter, QueuedEvent(s.queue[0]))];
    TurnTheorems.Exec2(s, WRecv, WAppendQueued(true));
  }

  lemma QueuedOpens(log: seq<Entry>, turn: Turn)
    requires !StateOf(log).phase.Ended?
    ensures var after := StateOf(log + [Entry(ByWriter, QueuedEvent(turn))]);
      after.openTurn == Some(turn.id) && !after.phase.Ended?
  {
    StateSnoc(log, Entry(ByWriter, QueuedEvent(turn)));
  }

  /** With a turn open, whatever is queued next trips the assertion. */
  lemma OpenThenNext(w: Loop)
    requires Going(w.conn) && w.conn.queue != [] && StateOf(w.conn.log).openTurn.Some?
    ensures CanTrip(w)
  {
    var acts, s := FinishHand(w.conn);
    QueueRuns(s);
    var end := NextQueued(s);
    TurnTheorems.ExecThen(w.conn, acts, s, [WRecv, WAppendQueued(true)], end);
    assert end.log[..|s.log|] == s.log;
    assert TripsAt(end.log, |s.log|);
    assert LoopExec(w.(conn := end), []) == Some(w.(conn := end));
    assert LeadsToTrip(w.(conn := end), []);
    TripsAfterTasks(w, acts + [WRecv, WAppendQueued(true)], end);
  }

  /** With a prompt about to be queued and another one behind it, the second one does. */
  lemma QueuedThenNext(w: Loop)
    requires Going(w.conn) && w.conn.writer.WQueue? && w.conn.queue != []
    ensures CanTrip(w)
  {
    var s := Do(w.conn, WAppendQueued(true));
    QueuedOpens(w.conn.log, w.conn.writer.turn);
    assert s.log == w.conn.log + [Entry(ByWriter, QueuedEvent(w.conn.writer.turn))];
    OpenThenNext(w.(conn := s));
    TripsAfterTask(w, WAppendQueued(true));
  }

  lemma TwoAhead(w: Loop)
    requires Going(w.conn) && |w.conn.queue| >= 2
    ensures CanTrip(w)
  {
    var acts, s := FinishHand(w.conn);
    QueueRuns(s);
    var end := NextQueued(s);
    QueuedOpens(s.log, s.queue[0]);
    OpenThenNext(w.(conn := end));
    TurnTheorems.ExecThen(w.conn, acts, s, [WRecv, WAppendQueued(true)], end);
    TripsAfterTasks(w, acts + [WRecv, WAppendQueued(true)], end);
  }

  // ---- and one that a prompt of the supervisor follows --------------------------

  /** The turn sent waits in the channel, with room and a fresh id for another. */
  ghost predicate OneWaits(w: Loop, id: TurnId) {
    Going(w.conn) && 0 < |w.conn.queue| < TURNS_CHANNEL_BOUND && w.cursor <= |w.conn.log| && id !in w.conn.used
  }

  lemma FiresLater(l: Sup.Loop, e: SessionEvent, rest: seq<SessionEvent>, t: TurnId)
    requires Fires(l, [e] + rest, t) && Sup.Handle(l, e, true).1 != Some(Sup.SendAgentPrompt)
    ensures Fires(Sup.Handle(l, e, true).0, rest, t)
  {
    assert [e][..0] == [] && Fold(l, []) == l;
    FoldSplits(l, [e], rest, t);
  }

  /** The supervisor reads on until it prompts. */
  lemma {:induction false} PromptThenTrip(w: Loop, t: TurnId, id: TurnId)
    requires OneWaits(w, id) && Fires(w.sup, Unread(w), t)
    ensures CanTrip(w)
    decreases |w.conn.log| - w.cursor
  {
    var a := Supervise(id, "", true);
    var e, rest := w.conn.log[w.cursor].event, Payloads(w.conn.log[w.cursor + 1..]);
    assert Unread(w) == [e] + rest;
    var w' := LoopDo(w, a);
    if Prompts(w, true) {
      TwoAhead(w');
    } else {
      FiresLater(w.sup, e, rest, t);
      PromptThenTrip(w', t, id);
    }
    assert LoopExec(w, []) == Some(w) && [] + [a] == [a];
    LoopSnoc(w, [], w, a);
    CanTripAfter(w, [a], w');
  }

  /** The reader logs a batch the supervisor answers with a prompt. */
  lemma BatchThenTrip(w: Loop, s: Conn, author: Author, events: seq<SessionEvent>, t: TurnId, id: TurnId)
    requires OneWaits(w, id) && Fires(CaughtUp(w), events, t) && NoneQueued(events)
    requires s.log == w.conn.log + Tag(author, events) && s.queue == w.conn.queue && s.used == w.conn.used
    requires !Closing(s)
    ensures CanTrip(w.(conn := s))
  {
    AppendClosesOnly(w.conn.log, author, events);
    UnreadAfter(w, s, author, events);
    FoldSplits(w.sup, Unread(w), events, t);
    PromptThenTrip(w.(conn := s), t, id);
  }

  lemma UnreadAfter(w: Loop, s: Conn, author: Author, events: seq<SessionEvent>)
    requires w.cursor <= |w.conn.log| && s.log == w.conn.log + Tag(author, events)
    ensures Unread(w.(conn := s)) == Unread(w) + events
  {
  }

  lemma InFlightThenTrip(w: Loop, t: TurnId, id: TurnId)
    requires OneWaits(w, id) && PlaceInv(w.conn) && EndInv(w.conn) && w.conn.reader.RAppend?
    requires Fires(CaughtUp(w), Batch(w.conn.reader.frame, w.conn.reader.completed), t)
    ensures CanTrip(w)
  {
    var frame, completed := w.conn.reader.frame, w.conn.reader.completed;
    assert forall i :: 0 <= i < |frame| ==> FrameEvent(frame[i]);
    BatchThenTrip(w, Do(w.conn, RAppendBatch(true)), ByFrame, Batch(frame, completed), t, id);
    TripsAfterTask(w, RAppendBatch(true));
  }

  const PLAIN := CheckpointReached(0, None)

  /** A checkpoint that asks nothing, and then the completion of the awaited turn. */
  lemma AwaitedFires(l: Sup.Loop, t: TurnId)
    requires !Sup.IsTerminal(l.phase) && l.awaiting == Some(t)
    ensures Fires(l, [PLAIN] + [TurnCompleted(t, "")], t)
  {
    var all := [PLAIN] + [TurnCompleted(t, "")];
    assert all[..1] == [PLAIN] && [PLAIN][..0] == [];
    assert Fold(l, []) == l;
    assert Fold(l, [PLAIN]) == l.(lastCheckpoint := Some(None));
  }

  /** A frame with that checkpoint, and the `Result` frame. */
  function Completing(s: Conn, t: TurnId): Conn {
    s.(log := s.log + Tag(ByFrame, [PLAIN] + [TurnCompleted(t, "")]), open := None, taken := s.taken + {t})
  }

  lemma CompletingRuns(s: Conn, t: TurnId)
    requires s.reader.RIdle? && !s.cancelled && s.open == Some(t)
    ensures Exec(s, [RFrame([PLAIN]), RAppendBatch(true)] + [RResult([], ""), RAppendBatch(true)])
      == Some(Completing(s, t))
  {
    var mid := s.(log := s.log + Tag(ByFrame, [PLAIN]));
    assert Batch([PLAIN], None) == [PLAIN];
    TurnTheorems.Exec2(s, RFrame([PLAIN]), RAppendBatch(true));
    TurnTheorems.ResultRuns(mid, t, [], "");
    assert [] + [TurnCompleted(t, "")] == [TurnCompleted(t, "")];
    assert mid.log + Tag(ByFrame, [TurnCompleted(t, "")]) == Completing(s, t).log;
    TurnTheorems.ExecThen(s, [RFrame([PLAIN]), RAppendBatch(true)], mid,
                          [RResult([], ""), RAppendBatch(true)], Completing(s, t));
  }

  lemma OpenCompletesThenTrip(w: Loop, t: TurnId, id: TurnId)
    requires OneWaits(w, id) && w.conn.reader.RIdle? && w.conn.open == Some(t)
    requires !Sup.IsTerminal(CaughtUp(w).phase) && CaughtUp(w).awaiting == Some(t)
    ensures CanTrip(w)
  {
    AwaitedFires(CaughtUp(w), t);
    CompletingRuns(w.conn, t);
    BatchThenTrip(w, Completing(w.conn, t), ByFrame, [PLAIN] + [TurnCompleted(t, "")], t, id);
    TripsAfterTasks(w, [RFrame([PLAIN]), RAppendBatch(true)] + [RResult([], ""), RAppendBatch(true)],
                    Completing(w.conn, t));
  }

  lemma PublishedThenTrip(w: Loop, t: TurnId, id: TurnId)
    requires OneWaits(w, id) && MayComplete(w.conn.reader) && Published(w.conn, t)
    requires !Sup.IsTerminal(CaughtUp(w).phase) && CaughtUp(w).awaiting == Some(t)
    ensures CanTrip(w)
    decreases w.conn.open != Some(t), w.conn.reader.RAppend?
  {
    if w.conn.open != Some(t) {
      PublishedThenTrip(w.(conn := Do(w.conn, WPublishOpen)), t, id);
      TripsAfterTask(w, WPublishOpen);
    } else if w.conn.reader.RAppend? {
      PublishedThenTrip(w.(conn := Do(w.conn, RAppendBatch(false))), t, id);
      TripsAfterTask(w, RAppendBatch(false));
    } else {
      OpenCompletesThenTrip(w, t, id);
    }
  }

  /** The step by which a turn gets delivered. */
  function Onward(w: WriterPc): Action {
    match w
    case WSerialize(_) => WSerialized(true)
    case WPend(_) => WSetPending
    case WWrite(_) => WWritten(true)
    case WFlush(_) => WFlushed(true)
    case _ => WAppendDelivered(true)
  }

  lemma DeliveryIsHeard(w: Loop, turn: Turn)
    requires w.conn.writer == WDeliver(turn) && w.cursor <= |w.conn.log|
    requires !Sup.IsTerminal(CaughtUp(w).phase) && !StateOf(w.conn.log).phase.Ended?
    ensures var w' := w.(conn := Do(w.conn, WAppendDelivered(true)));
      && CaughtUp(w') == CaughtUp(w).(awaiting := Some(turn.id))
      && !StateOf(w'.conn.log).phase.Ended?
  {
    var e := DeliveredEvent(turn);
    UnreadGrows(w, WAppendDelivered(true));
    FoldSplits(w.sup, Unread(w), [e], turn.id);
    FoldOne(CaughtUp(w), e, turn.id);
    AppendClosesOnly(w.conn.log, ByWriter, [e]);
  }

  lemma StaysDelivering(w: Loop, id: TurnId)
    requires OneWaits(w, id) && MayComplete(w.conn.reader) && Delivering(w.conn.writer) && !w.conn.writer.WDeliver?
    ensures var w' := w.(conn := Do(w.conn, Onward(w.conn.writer)));
      && OneWaits(w', id) && MayComplete(w'.conn.reader) && Delivering(w'.conn.writer)
      && Rank(w'.conn.writer) < Rank(w.conn.writer) && CaughtUp(w') == CaughtUp(w)
  {
    assert Do(w.conn, Onward(w.conn.writer)).log == w.conn.log;
  }

  lemma {:induction false} DeliveringThenTrip(w: Loop, id: TurnId)
    requires OneWaits(w, id) && MayComplete(w.conn.reader) && Delivering(w.conn.writer)
    requires !Sup.IsTerminal(CaughtUp(w).phase)
    ensures CanTrip(w)
    decreases Rank(w.conn.writer)
  {
    var a := Onward(w.conn.writer);
    var w' := w.(conn := Do(w.conn, a));
    if w.conn.writer.WDeliver? {
      DeliveryIsHeard(w, w.conn.writer.turn);
      PublishedThenTrip(w', w.conn.writer.turn.id, id);
    } else {
      StaysDelivering(w, id);
      DeliveringThenTrip(w', id);
    }
    TripsAfterTask(w, a);
  }

  // ---- exactly when ---------------------------------------------------------------

  lemma {:induction false} FreshId(used: set<TurnId>) returns (id: TurnId)
    ensures forall t :: t in used ==> t < id
  {
    if used == {} {
      id := 0;
    } else {
      var t :| t in used;
      var rest := FreshId(used - {t});
      id := if rest > t then rest else t + 1;
      assert used == (used - {t}) + {t};
    }
  }

  lemma AheadThenTrip(w: Loop, u: Turn, t: TurnId)
    requires LoopInv(w) && Enabled(w.conn, Send(u)) && !Closing(w.conn) && Ahead(w.conn, t)
    ensures CanTrip(Sent(w, u))
  {
    if w.conn.writer.WQueue? {
      QueuedThenNext(Sent(w, u));
    } else {
      TwoAhead(Sent(w, u));
    }
  }

  lemma ComingThenTrip(w: Loop, t: TurnId, id: TurnId)
    requires OneWaits(w, id) && PlaceInv(w.conn) && EndInv(w.conn) && Coming(CaughtUp(w), w.conn, t)
    ensures CanTrip(w)
  {
    if MayComplete(w.conn.reader) && CaughtUp(w).awaiting == Some(t) && Published(w.conn, t) {
      PublishedThenTrip(w, t, id);
    } else if MayComplete(w.conn.reader) && Delivering(w.conn.writer) && w.conn.writer.turn.id == t {
      DeliveringThenTrip(w, id);
    } else {
      InFlightThenTrip(w, t, id);
    }
  }

  /** A turn sent while another one is alive can end up queued with that one open, or the
      other way round. */
  lemma AliveThenTrip(w: Loop, u: Turn, t: TurnId)
    requires LoopInv(w) && Enabled(w.conn, Send(u)) && !Closing(w.conn) && Alive(w, t)
    ensures CanTrip(Sent(w, u))
  {
    var sent := Sent(w, u);
    if Ahead(w.conn, t) {
      AheadThenTrip(w, u, t);
    } else if StateOf(w.conn.log).openTurn == Some(t) {
      OpenThenNext(sent);
    } else if w.conn.queue != [] {
      TwoAhead(sent);
    } else {
      var id := FreshId(sent.conn.used);
      PlaceInvStep(w.conn, Send(u));
      EndInvStep(w.conn, Send(u));
      if Fires(w.sup, Unread(w), t) {
        PromptThenTrip(sent, t, id);
      } else {
        ComingThenTrip(sent, t, id);
      }
    }
  }

  lemma SafeNeverTrips(w: Loop, u: Turn, acts: seq<LoopAction>)
    requires LoopInv(w) && Enabled(w.conn, Send(u)) && SafeToSend(w)
    ensures !LeadsToTrip(Sent(w, u), acts)
  {
    SendKeeps(w, u);
    if LoopExec(Sent(w, u), acts).Some? {
      LoopKeepsInv(Sent(w, u), acts);
      var log := LoopExec(Sent(w, u), acts).value.conn.log;
      forall i: nat | i < |log| ensures !TripsAt(log, i) {
        AssertAt(log, i);
      }
    }
  }

  /** In every state of the loop a send can make the assertion fire, in some continuation
      without any further one, if and only if it is not safe: the writer still takes turns
      up and a turn sent before is alive. */
  lemma SendTripsExactly(sessionId: nat, agentId: nat, first: Turn, before: seq<LoopAction>, u: Turn)
    requires LoopExec(Start(sessionId, agentId, first), before).Some?
    requires Enabled(LoopExec(Start(sessionId, agentId, first), before).value.conn, Send(u))
    ensures var w := LoopExec(Start(sessionId, agentId, first), before).value;
      CanTrip(Sent(w, u)) <==> !SafeToSend(w)
  {
    StartInv(sessionId, agentId, first);
    LoopKeepsInv(Start(sessionId, agentId, first), before);
    var w := LoopExec(Start(sessionId, agentId, first), before).value;
    if SafeToSend(w) {
      forall acts ensures !LeadsToTrip(Sent(w, u), acts) {
        SafeNeverTrips(w, u, acts);
      }
    } else {
      var t :| t in w.conn.used && Alive(w, t);
      AliveThenTrip(w, u, t);
    }
  }

  /** It is safe once nothing is going on: the log replays to no open turn, no task holds
      a turn, and the supervisor has no completion left to read. */
  predicate Quiescent(w: Loop) {
    && StateOf(w.conn.log).openTurn.None?
    && w.conn.queue == [] && Current(w.conn.writer).None? && w.conn.open.None? && InFlight(w.conn.reader).None?
    && w.cursor <= |w.conn.log|
    && forall i :: w.cursor <= i < |w.conn.log| ==> !w.conn.log[i].event.TurnCompleted?
  }

  lemma QuiescentIsSafe(w: Loop)
    requires Quiescent(w)
    ensures SafeToSend(w)
  {
    forall t ensures !Alive(w, t) {
      NoCompletionNoPrompt(w.sup, Unread(w), t);
    }
  }

  // ---- concrete sends -----------------------------------------------------------

  /** In any state of the loop in which the log has a turn open and the writer is free, a
      turn sent regardless trips the assertion as soon as it is queued. */
  lemma SendingRegardlessTrips(w: Loop, u: Turn)
    requires LoopInv(w) && StateOf(w.conn.log).openTurn.Some? && !StateOf(w.conn.log).phase.Ended?
    requires TurnTheorems.WriterFree(w.conn) && u.id !in w.conn.used
    ensures var acts := [Send(u)] + [WRecv, WAppendQueued(true)];
      && Exec(w.conn, acts).Some?
      && Exec(w.conn, acts).value.log == w.conn.log + [Entry(ByWriter, QueuedEvent(u))]
      && !AssertionHolds(StateOf(w.conn.log), QueuedEvent(u))
  {
    var sent := Do(w.conn, Send(u));
    assert sent.queue == [u] && [u][1..] == [];
    TurnTheorems.Exec1(w.conn, Send(u));
    TurnTheorems.Exec2(sent, WRecv, WAppendQueued(true));
    TurnTheorems.ExecThen(w.conn, [Send(u)], sent, [WRecv, WAppendQueued(true)],
        Do(Do(sent, WRecv), WAppendQueued(true)));
  }

  /** And such a state is reached: the first turn delivered, its `Result` not yet read. */
  lemma OpenTurnIsReached(sessionId: nat, agentId: nat, first: Turn)
    ensures exists acts :: MayTrip(LoopExec(Start(sessionId, agentId, first), acts))
  {
    var s0, w0 := Launched(sessionId, agentId), Start(sessionId, agentId, first);
    var acts := TurnTheorems.ANNOUNCE + TurnTheorems.HAND;
    TurnTheorems.AnnounceRuns(s0, first);
    TurnTheorems.HandRuns(s0, first);
    TurnTheorems.ExecSplits(s0, [Send(first)], TurnTheorems.ANNOUNCE);
    TurnTheorems.Exec1(s0, Send(first));
    assert s0.queue + [first] == [first];
    assert Do(s0, Send(first)) == w0.conn;
    TurnTheorems.ExecThen(w0.conn, TurnTheorems.ANNOUNCE, TurnTheorems.Announced(s0, first),
                          TurnTheorems.HAND, TurnTheorems.Delivered(s0, first));
    TasksRun(w0, acts);
    DeliveredTurnIsOpen(sessionId, agentId, first);
    assert TurnTheorems.Delivered(s0, first).log
      == FirstThree(sessionId, agentId, first);
    assert MayTrip(LoopExec(w0, Tasks(acts)));
  }

  ghost predicate MayTrip(w: Option<Loop>) {
    && w.Some? && StateOf(w.value.conn.log).openTurn.Some? && !StateOf(w.value.conn.log).phase.Ended?
    && TurnTheorems.WriterFree(w.value.conn)
  }

  /** The log of a launched session whose first turn has been delivered. */
  function FirstThree(sessionId: nat, agentId: nat, t: Turn): seq<Entry> {
    [Entry(ByLaunch, SessionStarted(sessionId, agentId)),
     Entry(ByWriter, QueuedEvent(t)),
     Entry(ByWriter, DeliveredEvent(t))]
  }

  predicate FourthTrips(log: seq<Entry>) {
    |log| == 4 && !AssertionHolds(StateOf(log[..3]), log[3].event)
  }

  lemma DeliveredTurnIsOpen(sessionId: nat, agentId: nat, t: Turn)
    ensures var log := FirstThree(sessionId, agentId, t);
      StateOf(log).openTurn == Some(t.id) && !StateOf(log).phase.Ended?
  {
    var log := FirstThree(sessionId, agentId, t);
    var a, b, c := log[0], log[1], log[2];
    StateSnoc([], a);
    StateSnoc([] + [a], b);
    StateSnoc(([] + [a]) + [b], c);
    assert StateOf([]) == DEFAULT;
    assert (([] + [a]) + [b]) + [c] == [a, b, c];
  }

  /** And the assertion does fire in a run from launch: a second turn sent
      before the first one ends, as an operator may do, is queued while the
      replayed session has its first turn open. */
  lemma SecondSenderTripsTheAssertion(sessionId: nat, agentId: nat, t: Turn, u: Turn)
    requires t.id != u.id
    ensures exists s: Conn :: TurnTheorems.Reached(s) && FourthTrips(s.log)
  {
    var s0 := Launched(sessionId, agentId);
    TurnTheorems.PipelinedTurnsOpenTwice(s0, t, u);
    var acts := ([Send(t)] + TurnTheorems.ANNOUNCE) + TurnTheorems.HAND + [Send(u)] + [WRecv, WAppendQueued(true)];
    var s := Exec(s0, acts).value;
    assert TurnTheorems.Reached(s);
    assert s.log[..3] == FirstThree(sessionId, agentId, t);
    DeliveredTurnIsOpen(sessionId, agentId, t);
    assert s.log[3].event == QueuedEvent(u);
    assert FourthTrips(s.log);
  }
}
