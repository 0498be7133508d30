/** Whose prompts the log holds: every entry of the writer task is of a turn that was
    sent, under its own source, id and text, and turns are written in the order sent. */
module PromptOrder {
  import opened Events
  import opened TurnProtocol
  import opened TurnSafety
  import opened TurnTheorems

  /** The turns sent in a run, in order. */
  function Sent(acts: seq<Action>): seq<Turn> {
    if acts == [] then []
    else Sent(acts[..|acts| - 1]) + if acts[|acts| - 1].Send? then [acts[|acts| - 1].turn] else []
  }

  /** How many of them the writer has taken out of the channel. */
  function Received(acts: seq<Action>): nat {
    if acts == [] then 0
    else Received(acts[..|acts| - 1]) + if acts[|acts| - 1].WRecv? then 1 else 0
  }

  /** The channel holds what was sent and not received, and the writer works on the turn it
      received last. */
  ghost predicate InOrder(s: Conn, sent: seq<Turn>, received: nat) {
    && received <= |sent| && s.queue == sent[received..]
    && (!s.writer.WIdle? && !s.writer.WDone? ==> received > 0 && s.writer.turn == sent[received - 1])
  }

  lemma OrderStep(s: Conn, a: Action, sent: seq<Turn>, received: nat)
    requires InOrder(s, sent, received) && Enabled(s, a)
    ensures InOrder(Do(s, a), sent + (if a.Send? then [a.turn] else []), received + if a.WRecv? then 1 else 0)
  {
    if a.Send? {
      assert (sent + [a.turn])[received..] == sent[received..] + [a.turn];
    } else {
      assert sent + [] == sent;
      if !a.WRecv? {
        assert Do(s, a).queue == s.queue;
      }
    }
  }

  lemma {:induction false} TurnsStayInOrder(sid: nat, aid: nat, acts: seq<Action>)
    requires Exec(Launched(sid, aid), acts).Some?
    ensures InOrder(Exec(Launched(sid, aid), acts).value, Sent(acts), Received(acts))
  {
    if acts != [] {
      var n := |acts| - 1;
      TurnsStayInOrder(sid, aid, acts[..n]);
      OrderStep(Exec(Launched(sid, aid), acts[..n]).value, acts[n], Sent(acts[..n]), Received(acts[..n]));
    }
  }

  /** The channel never holds more than sixteen turns, and takes a new one exactly while it
      holds fewer and the writer has not finished. */
  lemma {:induction false} ChannelHoldsSixteen(sid: nat, aid: nat, acts: seq<Action>, turn: Turn)
    requires Exec(Launched(sid, aid), acts).Some?
    ensures var s := Exec(Launched(sid, aid), acts).value;
      && |s.queue| <= 16
      && (turn.id !in s.used ==> (Enabled(s, Send(turn)) <==> |s.queue| < 16 && !s.writer.WDone?))
  {
    if acts != [] {
      var n := |acts| - 1;
      ChannelHoldsSixteen(sid, aid, acts[..n], turn);
      QueueGrowsByOne(Exec(Launched(sid, aid), acts[..n]).value, acts[n]);
    }
  }

  lemma QueueGrowsByOne(s: Conn, a: Action)
    requires Enabled(s, a)
    ensures a.Send? ==> |Do(s, a).queue| == |s.queue| + 1
    ensures !a.Send? ==> |Do(s, a).queue| <= |s.queue|
  {
  }

  // ---- what the writer writes -----------------------------------------------

  datatype Note = Announced(turn: Turn) | HandedOver(turn: Turn) | GivenUp(turn: Turn)

  /** The turn last received. */
  function InHand(acts: seq<Action>): Option<Turn> {
    if 0 < Received(acts) <= |Sent(acts)| then Some(Sent(acts)[Received(acts) - 1]) else None
  }

  function NoteOf(a: Action, turn: Turn): seq<Note> {
    if a == WAppendQueued(true) then [Announced(turn)]
    else if a == WAppendDelivered(true) then [HandedOver(turn)]
    else if a == WAppendFailed(true) then [GivenUp(turn)]
    else []
  }

  /** What a run's successful appends should have noted, told from the run alone. */
  function Notes(acts: seq<Action>): seq<Note> {
    if acts == [] then []
    else
      var front := acts[..|acts| - 1];
      Notes(front) + if InHand(front).Some? then NoteOf(acts[|acts| - 1], InHand(front).value) else []
  }

  /** The event says what the note says, under the turn's own source. */
  predicate Says(e: SessionEvent, note: Note) {
    match note
    case Announced(Turn(Human, text, id)) => e == HumanPromptQueued(id, text)
    case Announced(Turn(Agent, text, id)) => e == AgentPromptQueued(id, text)
    case HandedOver(Turn(Human, _, id)) => e == HumanPromptDelivered(id)
    case HandedOver(Turn(Agent, _, id)) => e == AgentPromptDelivered(id)
    case GivenUp(Turn(_, _, id)) => e.PromptDeliveryFailed? && e.turnId == id
  }

  function WriterPart(log: seq<Entry>): seq<SessionEvent> {
    if log == [] then []
    else WriterPart(log[..|log| - 1]) + if log[|log| - 1].author.ByWriter? then [log[|log| - 1].event] else []
  }

  lemma {:induction false} WriterPartSplits(log: seq<Entry>, author: Author, events: seq<SessionEvent>)
    ensures WriterPart(log + Tag(author, events)) == WriterPart(log) + if author.ByWriter? then events else []
  {
    if events == [] {
      assert log + Tag(author, events) == log;
      assert WriterPart(log) + [] == WriterPart(log);
    } else {
      var n := |events| - 1;
      WriterPartSplits(log, author, events[..n]);
      var all := log + Tag(author, events);
      assert all[..|all| - 1] == log + Tag(author, events[..n]);
      assert events == events[..n] + [events[n]];
    }
  }

  ghost predicate Matches(events: seq<SessionEvent>, notes: seq<Note>) {
    |events| == |notes| && forall i :: 0 <= i < |events| ==> Says(events[i], notes[i])
  }

  lemma MatchesBoth(a: seq<SessionEvent>, m: seq<Note>, b: seq<SessionEvent>, n: seq<Note>)
    requires Matches(a, m) && Matches(b, n)
    ensures Matches(a + b, m + n)
  {
  }

  lemma StepSays(s: Conn, a: Action, turn: Turn)
    requires Enabled(s, a) && IsWriterStep(a) && (!s.writer.WIdle? && !s.writer.WDone? ==> s.writer.turn == turn)
    ensures Matches(WriterLogs(s, a), NoteOf(a, turn))
  {
  }

  /** The writer's entries are, one for one and in order, those its successful appends
      should have made: the turns in the order sent, each queued, delivered or given up
      under its own source, id and text. */
  lemma {:induction false} WriterWritesTheTurnsSent(sid: nat, aid: nat, acts: seq<Action>)
    requires Exec(Launched(sid, aid), acts).Some?
    ensures Matches(WriterPart(Exec(Launched(sid, aid), acts).value.log), Notes(acts))
  {
    if acts == [] {
      var log := Launched(sid, aid).log;
      assert log[..0] == [];
    } else {
      var n := |acts| - 1;
      var s, a := Exec(Launched(sid, aid), acts[..n]).value, acts[n];
      WriterWritesTheTurnsSent(sid, aid, acts[..n]);
      TurnsStayInOrder(sid, aid, acts[..n]);
      StepLogsAll(s, a);
      WriterPartSplits(s.log, StepAuthor(a), StepLogs(s, a));
      NotesStep(s, a, acts[..n]);
      assert Notes(acts) == Notes(acts[..n]) + LastNote(a, acts[..n]);
      MatchesBoth(WriterPart(s.log), Notes(acts[..n]), if IsWriterStep(a) then StepLogs(s, a) else [],
                  LastNote(a, acts[..n]));
    }
  }

  function LastNote(a: Action, front: seq<Action>): seq<Note> {
    if InHand(front).Some? then NoteOf(a, InHand(front).value) else []
  }

  lemma NotesStep(s: Conn, a: Action, front: seq<Action>)
    requires Enabled(s, a) && InOrder(s, Sent(front), Received(front))
    ensures Matches(if IsWriterStep(a) then StepLogs(s, a) else [], LastNote(a, front))
  {
    if IsWriterStep(a) {
      if InHand(front).Some? {
        StepSays(s, a, InHand(front).value);
      } else {
        assert s.writer.WIdle? || s.writer.WDone?;
      }
    }
  }

  // ---- every prompt in the log was sent -----------------------------------------

  predicate WasSent(e: SessionEvent, sent: seq<Turn>) {
    match e
    case HumanPromptQueued(id, text) => Turn(Human, text, id) in sent
    case AgentPromptQueued(id, text) => Turn(Agent, text, id) in sent
    case HumanPromptDelivered(id) => exists i :: 0 <= i < |sent| && sent[i].source.Human? && sent[i].id == id
    case AgentPromptDelivered(id) => exists i :: 0 <= i < |sent| && sent[i].source.Agent? && sent[i].id == id
    case PromptDeliveryFailed(id, _) => exists i :: 0 <= i < |sent| && sent[i].id == id
    case _ => true
  }

  lemma SentGrows(e: SessionEvent, sent: seq<Turn>, more: seq<Turn>)
    requires WasSent(e, sent)
    ensures WasSent(e, sent + more)
  {
    var all := sent + more;
    assert forall i :: 0 <= i < |sent| ==> all[i] == sent[i];
  }

  lemma StepWasSent(s: Conn, a: Action, sent: seq<Turn>, received: nat)
    requires PlaceInv(s) && EndInv(s) && Enabled(s, a) && InOrder(s, sent, received)
    ensures forall i :: 0 <= i < |StepLogs(s, a)| ==> WasSent(StepLogs(s, a)[i], sent)
  {
    if !s.writer.WIdle? && !s.writer.WDone? {
      assert sent[received - 1] == s.writer.turn;
    }
    if a.RAppendBatch? {
      assert forall i :: 0 <= i < |s.reader.frame| ==> FrameEvent(s.reader.frame[i]);
    }
  }

  /** Every prompt in a reached log, queued, delivered or failed, is of a turn that was sent,
      a human one exactly if a human sent it, with the text it was sent with. */
  lemma {:induction false} EveryPromptWasSent(sid: nat, aid: nat, acts: seq<Action>)
    requires Exec(Launched(sid, aid), acts).Some?
    ensures var log := Exec(Launched(sid, aid), acts).value.log;
      forall i :: 0 <= i < |log| ==> WasSent(log[i].event, Sent(acts))
  {
    if acts != [] {
      var n := |acts| - 1;
      var s, a := Exec(Launched(sid, aid), acts[..n]).value, acts[n];
      EveryPromptWasSent(sid, aid, acts[..n]);
      TurnsStayInOrder(sid, aid, acts[..n]);
      RunKeepsInv(Launched(sid, aid), acts[..n]);
      StepWasSent(s, a, Sent(acts[..n]), Received(acts[..n]));
      AllSent(s, a, Sent(acts[..n]), if a.Send? then [a.turn] else []);
    }
  }

  lemma AllSent(s: Conn, a: Action, sent: seq<Turn>, more: seq<Turn>)
    requires Enabled(s, a)
    requires forall i :: 0 <= i < |s.log| ==> WasSent(s.log[i].event, sent)
    requires forall i :: 0 <= i < |StepLogs(s, a)| ==> WasSent(StepLogs(s, a)[i], sent)
    ensures forall i :: 0 <= i < |Do(s, a).log| ==> WasSent(Do(s, a).log[i].event, sent + more)
  {
    StepLogsAll(s, a);
    var log := Do(s, a).log;
    forall i | 0 <= i < |log| ensures WasSent(log[i].event, sent + more) {
      assert log[i].event == if i < |s.log| then s.log[i].event else StepLogs(s, a)[i - |s.log|];
      SentGrows(log[i].event, sent, more);
    }
  }

  // ---- what a failed hand-over leads to -----------------------------------------

  /** A turn that cannot be serialised or flushed is given up and the writer goes on; one
      that cannot be written ends the writer. Either way `pending` is clear. */
  lemma FailedHandOver(s: Conn, turn: Turn, ok: bool)
    requires s.writer == WSerialize(turn) || s.writer == WWrite(turn) || s.writer == WFlush(turn)
    requires s.writer.WSerialize? ==> s.pending.None?
    ensures var fails := match s.writer
        case WSerialize(_) => [WSerialized(false), WAppendFailed(ok)]
        case WWrite(_) => [WWritten(false)] + [WClearPending, WAppendFailed(ok)]
        case _ => [WFlushed(false)] + [WClearPending, WAppendFailed(ok)];
      var end := Exec(s, fails);
      && end.Some? && end.value.pending.None? && end.value.open == s.open
      && (if s.writer.WWrite? then end.value.writer.WDone? else end.value.writer.WIdle?)
      && |end.value.log| == |s.log| + (if ok then 1 else 0) && s.log <= end.value.log
      && (ok ==> end.value.log[|s.log|].author.ByWriter? && Says(end.value.log[|s.log|].event, GivenUp(turn)))
  {
    if s.writer.WSerialize? {
      Exec2(s, WSerialized(false), WAppendFailed(ok));
    } else {
      var first := if s.writer.WWrite? then WWritten(false) else WFlushed(false);
      Exec1(s, first);
      Exec2(Do(s, first), WClearPending, WAppendFailed(ok));
      ExecThen(s, [first], Do(s, first), [WClearPending, WAppendFailed(ok)],
               Do(Do(Do(s, first), WClearPending), WAppendFailed(ok)));
    }
  }
}
