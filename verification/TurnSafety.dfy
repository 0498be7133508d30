/** What every interleaving of the writer task, the reader task and one
    shutdown call keeps. */
module TurnSafety {
  import opened Events
  import opened TurnProtocol

  /** The turn the writer task is working on. */
  function Current(w: WriterPc): Option<TurnId> {
    if w.WIdle? || w.WDone? then None else Some(w.turn.id)
  }

  predicate HoldsPending(w: WriterPc) {
    w.WWrite? || w.WFlush? || w.WDeliver? || w.WPublish? || w.WClear?
  }

  predicate Ends(e: SessionEvent, t: TurnId) {
    (e.TurnCompleted? || e.TurnAborted?) && e.turnId == t
  }

  /** The turn end the reader has taken but not yet logged. */
  function InFlight(r: ReaderPc): Option<TurnId> {
    match r
    case RAppend(_, completed) =>
      if completed.Some? && completed.value.TurnCompleted? then Some(completed.value.turnId) else None
    case RCrash(aborted) => aborted
    case _ => None
  }

  predicate ReaderTerminating(r: ReaderPc) {
    r.RCrash? || r.RDone?
  }

  // ---- one turn id is in one place ----------------------------------------

  ghost predicate Distinct(queue: seq<Turn>) {
    forall i, j :: 0 <= i < j < |queue| ==> queue[i].id != queue[j].id
  }

  ghost predicate Queued(queue: seq<Turn>, t: TurnId) {
    exists i :: 0 <= i < |queue| && queue[i].id == t
  }

  /** A turn is queued, or being written, or open, or taken: never two of them.
      The one exception is a turn taken out of `pending` by a terminating reader. */
  ghost predicate PlaceInv(s: Conn) {
    && Distinct(s.queue)
    && (forall i :: 0 <= i < |s.queue| ==> s.queue[i].id in s.used && s.queue[i].id !in s.taken)
    && (Current(s.writer).Some? ==>
          var c := Current(s.writer).value; c in s.used && c !in s.taken && !Queued(s.queue, c))
    && (s.open.Some? ==>
          var o := s.open.value; o in s.used && o !in s.taken && !Queued(s.queue, o) && Current(s.writer) != Some(o))
    && (s.pending.Some? ==> HoldsPending(s.writer) && Current(s.writer) == s.pending)
    && s.taken <= s.used
    && (s.takenPending.Some? ==>
          var p := s.takenPending.value;
          ReaderTerminating(s.reader) && p in s.used && p !in s.taken && !Queued(s.queue, p))
    && (s.reader.RAppend? && s.reader.completed.Some? ==> s.reader.completed.value.TurnCompleted?)
  }

  lemma PlaceRecv(s: Conn)
    requires PlaceInv(s) && Enabled(s, WRecv)
    ensures PlaceInv(Do(s, WRecv))
  {
    var queue' := s.queue[1..];
    assert Queued(s.queue, s.queue[0].id);
    forall t: TurnId | Queued(queue', t) ensures Queued(s.queue, t) && t != s.queue[0].id {
      var i :| 0 <= i < |queue'| && queue'[i].id == t;
      assert s.queue[i + 1].id == t;
    }
  }

  /** Steps on which the writer keeps its turn and its hold on `pending`. */
  predicate KeepsTurn(a: Action) {
    a.WAppendQueued? || a.WSerialized? || a.WWritten? || a.WFlushed? || a.WAppendDelivered?
  }

  lemma PlaceKeepsTurn(s: Conn, a: Action)
    requires PlaceInv(s) && Enabled(s, a) && KeepsTurn(a)
    ensures PlaceInv(DoWriter(s, a))
  {
    var s' := DoWriter(s, a);
    WriterHolds(s, a);
    assert s'.(writer := s.writer, log := s.log, lost := s.lost) == s;
  }

  lemma WriterHolds(s: Conn, a: Action)
    requires Enabled(s, a) && KeepsTurn(a)
    ensures var s' := DoWriter(s, a);
      Current(s'.writer) == Current(s.writer) && (HoldsPending(s.writer) ==> HoldsPending(s'.writer))
  {
  }

  lemma PlaceWriter(s: Conn, a: Action)
    requires PlaceInv(s) && Enabled(s, a) && IsWriterStep(a) && !a.WRecv? && !KeepsTurn(a)
    ensures PlaceInv(DoWriter(s, a))
  {
    var s' := DoWriter(s, a);
    assert s'.(writer := s.writer, log := s.log, open := s.open, pending := s.pending) == s;
  }

  /** The reader takes the open turn, or the pending one. */
  lemma PlaceTake(s: Conn, a: Action)
    requires PlaceInv(s) && Enabled(s, a) && (a.RResult? || a.RTakeTurn?)
    ensures PlaceInv(DoReader(s, a))
  {
    assert DoReader(s, a).queue == s.queue && DoReader(s, a).writer == s.writer;
  }

  lemma PlaceReader(s: Conn, a: Action)
    requires PlaceInv(s) && Enabled(s, a) && !a.RResult? && !a.RTakeTurn?
    ensures PlaceInv(DoReader(s, a))
  {
    var s' := DoReader(s, a);
    assert s'.(reader := s.reader, log := s.log, crashFallbacks := s.crashFallbacks) == s;
    assert s'.reader.RAppend? && s'.reader.completed.Some? ==> s'.reader == s.reader;
    assert ReaderTerminating(s.reader) ==> ReaderTerminating(s'.reader);
  }

  lemma PlaceShutdown(s: Conn, a: Action)
    requires PlaceInv(s) && Enabled(s, a) && IsShutdownStep(a)
    ensures PlaceInv(Do(s, a))
  {
    var s' := Do(s, a);
    assert s'.(log := s.log, shutdown := s.shutdown, shuttingDown := s.shuttingDown, cancelled := s.cancelled) == s;
  }

  lemma PlaceSend(s: Conn, turn: Turn)
    requires PlaceInv(s) && Enabled(s, Send(turn))
    ensures PlaceInv(Do(s, Send(turn)))
  {
    var queue' := s.queue + [turn];
    forall t: TurnId | Queued(queue', t) ensures Queued(s.queue, t) || t == turn.id {
      var i :| 0 <= i < |queue'| && queue'[i].id == t;
      assert i < |s.queue| ==> s.queue[i].id == t;
    }
  }

  lemma PlaceInvStep(s: Conn, a: Action)
    requires PlaceInv(s) && Enabled(s, a)
    ensures PlaceInv(Do(s, a))
  {
    if a.WRecv? {
      PlaceRecv(s);
    } else if KeepsTurn(a) {
      PlaceKeepsTurn(s, a);
    } else if IsWriterStep(a) {
      PlaceWriter(s, a);
    } else if a.Send? {
      PlaceSend(s, a.turn);
    } else if IsShutdownStep(a) {
      PlaceShutdown(s, a);
    } else if a.RResult? || a.RTakeTurn? {
      PlaceTake(s, a);
    } else {
      PlaceReader(s, a);
    }
  }

  // ---- at most one end per turn -------------------------------------------

  ghost predicate NoEnd(log: seq<Entry>, t: TurnId) {
    forall i :: 0 <= i < |log| ==> !Ends(log[i].event, t)
  }

  predicate SameEnd(e: SessionEvent, f: SessionEvent) {
    (e.TurnCompleted? || e.TurnAborted?) && (f.TurnCompleted? || f.TurnAborted?) && e.turnId == f.turnId
  }

  /** Ends in the log are of taken turns, and no turn ends twice. */
  ghost predicate EndInv(s: Conn) {
    && AllFrame(if s.reader.RAppend? then s.reader.frame else [])
    && (forall i :: 0 <= i < |s.log| && s.log[i].event.TurnCompleted? ==> s.log[i].event.turnId in s.taken)
    && (forall i :: 0 <= i < |s.log| && s.log[i].event.TurnAborted? ==>
          s.log[i].event.turnId in s.taken || s.takenPending == Some(s.log[i].event.turnId))
    && (InFlight(s.reader).Some? ==>
          var t := InFlight(s.reader).value;
          && (t in s.taken || (s.reader.RCrash? && s.takenPending == Some(t)))
          && NoEnd(s.log, t))
    && (forall i, j :: 0 <= i < j < |s.log| ==> !SameEnd(s.log[i].event, s.log[j].event))
  }

  /** Appending events that end no turn, while the reader keeps what it holds or drops it. */
  lemma EndInvNeutral(s: Conn, s': Conn, author: Author, events: seq<SessionEvent>)
    requires EndInv(s) && (s'.log == s.log || s'.log == s.log + Tag(author, events))
    requires forall i :: 0 <= i < |events| ==> !events[i].TurnCompleted? && !events[i].TurnAborted?
    requires s'.taken == s.taken && s'.takenPending == s.takenPending
    requires s'.reader == s.reader || (InFlight(s'.reader).None? && (s'.reader.RAppend? ==> AllFrame(s'.reader.frame)))
    ensures EndInv(s')
  {
  }

  /** The reader takes a turn that was in `open`, or in `pending` when it terminates. */
  lemma EndInvTake(s: Conn, a: Action)
    requires PlaceInv(s) && EndInv(s) && Enabled(s, a) && (a.RResult? || a.RTakeTurn?)
    ensures EndInv(Do(s, a))
  {
    var s' := Do(s, a);
    assert s'.log == s.log && s.taken <= s'.taken;
    if a.RTakeTurn? && s.open.None? && s.pending.Some? {
      assert s.pending.value !in s.taken && s.takenPending.None?;
    }
  }

  /** The reader logs the turn end it holds, which the log does not have yet. */
  lemma EndInvLogOne(s: Conn, s': Conn, author: Author, e: SessionEvent)
    requires EndInv(s) && s'.log == s.log + [Entry(author, e)]
    requires e.TurnCompleted? || (e.TurnAborted? && s.reader.RCrash?)
    requires InFlight(s.reader) == Some(e.turnId)
    requires e.TurnCompleted? ==> s.reader.RAppend?
    requires s'.taken == s.taken && s'.takenPending == s.takenPending
    requires InFlight(s'.reader).None? && !s'.reader.RAppend?
    ensures EndInv(s')
  {
  }

  lemma EndInvBatch(s: Conn)
    requires PlaceInv(s) && EndInv(s) && Enabled(s, RAppendBatch(true))
    ensures EndInv(Do(s, RAppendBatch(true)))
  {
    var RAppend(frame, completed) := s.reader;
    var s' := Do(s, RAppendBatch(true));
    if completed.None? {
      assert Batch(frame, completed) == frame;
      EndInvNeutral(s, s', ByFrame, frame);
    } else {
      EndInvCompleted(s, frame, completed.value);
    }
  }

  lemma EndInvCompleted(s: Conn, frame: seq<SessionEvent>, completion: SessionEvent)
    requires EndInv(s) && s.reader == RAppend(frame, Some(completion)) && completion.TurnCompleted?
    ensures EndInv(Do(s, RAppendBatch(true)))
  {
    var mid, s' := s.(log := s.log + Tag(ByFrame, frame)), Do(s, RAppendBatch(true));
    EndInvNeutral(s, mid, ByFrame, frame);
    assert s'.log == mid.log + [Entry(ByFrame, completion)];
    EndInvLogOne(mid, s', ByFrame, completion);
  }

  lemma EndInvCrash(s: Conn)
    requires EndInv(s) && Enabled(s, RAppendCrash(true))
    ensures EndInv(Do(s, RAppendCrash(true)))
  {
    var s' := Do(s, RAppendCrash(true));
    var crash := SessionCrashed("EOF");
    if s.reader.aborted.None? {
      assert CrashBatch(s.reader.aborted) == [crash];
      EndInvNeutral(s, s', ByTerminal, [crash]);
    } else {
      var abort := TurnAborted(s.reader.aborted.value, "session_crashed");
      var mid := s.(log := s.log + [Entry(ByTerminal, abort)], reader := RDone);
      EndInvLogOne(s, mid, ByTerminal, abort);
      assert s'.log == mid.log + Tag(ByTerminal, [crash]);
      EndInvNeutral(mid, s', ByTerminal, [crash]);
    }
  }

  lemma EndInvReader(s: Conn, a: Action)
    requires PlaceInv(s) && EndInv(s) && Enabled(s, a) && !IsWriterStep(a)
    ensures EndInv(Do(s, a))
  {
    if a.RResult? || a.RTakeTurn? {
      EndInvTake(s, a);
    } else if a.RAppendBatch? && a.ok {
      EndInvBatch(s);
    } else if a.RAppendCrash? && a.ok {
      EndInvCrash(s);
    } else {
      EndInvOther(s, a);
    }
  }

  /** Steps after which the reader holds what it held, or nothing. */
  lemma EndInvOther(s: Conn, a: Action)
    requires EndInv(s) && Enabled(s, a) && !IsWriterStep(a) && !a.RResult? && !a.RTakeTurn?
    requires (a.RAppendBatch? || a.RAppendCrash?) ==> !a.ok
    ensures EndInv(Do(s, a))
  {
    var s' := Do(s, a);
    assert s'.reader == s.reader || InFlight(s'.reader).None?;
    EndInvNeutral(s, s', ByShutdown, [SessionEnded]);
  }

  /** What the writer task logs in one step. */
  function WriterLogs(s: Conn, a: Action): seq<SessionEvent>
    requires Enabled(s, a)
  {
    match a
    case WAppendQueued(ok) => if ok then [QueuedEvent(s.writer.turn)] else []
    case WAppendDelivered(ok) => if ok then [DeliveredEvent(s.writer.turn)] else []
    case WAppendFailed(ok) => if ok then [PromptDeliveryFailed(s.writer.turn.id, s.writer.reason)] else []
    case _ => []
  }

  lemma WriterStepLogs(s: Conn, a: Action)
    requires Enabled(s, a) && IsWriterStep(a)
    ensures var s' := Do(s, a);
      && s'.log == s.log + Tag(ByWriter, WriterLogs(s, a))
      && s'.reader == s.reader && s'.taken == s.taken && s'.takenPending == s.takenPending
      && s'.shutdown == s.shutdown && s'.shuttingDown == s.shuttingDown
  {
  }

  /** What a task step logs: the writer its events, the reader its batch, shutdown the end. */
  function StepLogs(s: Conn, a: Action): seq<SessionEvent>
    requires Enabled(s, a)
  {
    if IsWriterStep(a) then WriterLogs(s, a)
    else match a
      case RAppendBatch(ok) => if ok then Batch(s.reader.frame, s.reader.completed) else []
      case RAppendCrash(ok) => if ok then CrashBatch(s.reader.aborted) else []
      case AppendEnded(ok) => if ok then [SessionEnded] else []
      case _ => []
  }

  function StepAuthor(a: Action): Author {
    if IsWriterStep(a) then ByWriter
    else if a.RAppendBatch? then ByFrame
    else if a.RAppendCrash? then ByTerminal
    else ByShutdown
  }

  lemma StepLogsAll(s: Conn, a: Action)
    requires Enabled(s, a)
    ensures Do(s, a).log == s.log + Tag(StepAuthor(a), StepLogs(s, a))
  {
    if IsWriterStep(a) {
      WriterStepLogs(s, a);
    }
  }

  lemma EndInvStep(s: Conn, a: Action)
    requires PlaceInv(s) && EndInv(s) && Enabled(s, a)
    ensures EndInv(Do(s, a))
  {
    if IsWriterStep(a) {
      WriterStepLogs(s, a);
      EndInvNeutral(s, Do(s, a), ByWriter, WriterLogs(s, a));
    } else {
      EndInvReader(s, a);
    }
  }

  ghost predicate Inv(s: Conn) {
    PlaceInv(s) && EndInv(s) && DeliveryInv(s) && AuthorInv(s) && FailInv(s)
  }

  // ---- completion follows delivery ----------------------------------------

  ghost predicate DeliveredBefore(s: Conn, t: TurnId, n: nat)
    requires n <= |s.log|
  {
    t in s.lost || exists i :: 0 <= i < n && IsDelivered(s.log[i].event) && s.log[i].event.turnId == t
  }

  ghost predicate DeliveryInv(s: Conn) {
    && (s.writer.WPublish? ==> DeliveredBefore(s, s.writer.turn.id, |s.log|))
    && (s.open.Some? ==> DeliveredBefore(s, s.open.value, |s.log|))
    && (s.reader.RAppend? && InFlight(s.reader).Some? ==> DeliveredBefore(s, InFlight(s.reader).value, |s.log|))
    && (forall i :: 0 <= i < |s.log| && s.log[i].event.TurnCompleted? ==> DeliveredBefore(s, s.log[i].event.turnId, i))
  }

  /** More log and more losses keep what was delivered delivered. */
  lemma {:induction false} DeliveredGrows(s: Conn, s': Conn, t: TurnId, n: nat, n': nat)
    requires n <= |s.log| && n <= n' <= |s'.log| && s.log <= s'.log && s.lost <= s'.lost
    requires DeliveredBefore(s, t, n)
    ensures DeliveredBefore(s', t, n')
  {
    if t !in s.lost {
      var i :| 0 <= i < n && IsDelivered(s.log[i].event) && s.log[i].event.turnId == t;
      assert IsDelivered(s'.log[i].event) && s'.log[i].event.turnId == t;
    }
  }

  /** Everything already logged, open or in flight stays delivered. */
  lemma DeliveryCarries(s: Conn, s': Conn)
    requires DeliveryInv(s) && s.log <= s'.log && s.lost <= s'.lost
    ensures var log := s.log;
      forall i :: 0 <= i < |log| && log[i].event.TurnCompleted? ==> DeliveredBefore(s', log[i].event.turnId, i)
    ensures s.writer.WPublish? ==> DeliveredBefore(s', s.writer.turn.id, |s'.log|)
    ensures s.open.Some? ==> DeliveredBefore(s', s.open.value, |s'.log|)
    ensures s.reader.RAppend? && InFlight(s.reader).Some?
      ==> forall n :: |s.log| <= n <= |s'.log| ==> DeliveredBefore(s', InFlight(s.reader).value, n)
  {
    forall i | 0 <= i < |s.log| && s.log[i].event.TurnCompleted? ensures DeliveredBefore(s', s.log[i].event.turnId, i) {
      DeliveredGrows(s, s', s.log[i].event.turnId, i, i);
    }
    if s.writer.WPublish? { DeliveredGrows(s, s', s.writer.turn.id, |s.log|, |s'.log|); }
    if s.open.Some? { DeliveredGrows(s, s', s.open.value, |s.log|, |s'.log|); }
    if s.reader.RAppend? && InFlight(s.reader).Some? {
      forall n | |s.log| <= n <= |s'.log| ensures DeliveredBefore(s', InFlight(s.reader).value, n) {
        DeliveredGrows(s, s', InFlight(s.reader).value, |s.log|, n);
      }
    }
  }

  lemma DeliveryWriter(s: Conn, a: Action)
    requires DeliveryInv(s) && Enabled(s, a) && IsWriterStep(a)
    ensures DeliveryInv(Do(s, a))
  {
    var s' := Do(s, a);
    WriterStepLogs(s, a);
    DeliveryCarries(s, s');
    if a.WAppendDelivered? {
      if a.ok {
        assert IsDelivered(s'.log[|s.log|].event) && s'.log[|s.log|].event.turnId == s.writer.turn.id;
      }
      assert DeliveredBefore(s', s.writer.turn.id, |s'.log|);
    }
  }

  lemma DeliveryBatch(s: Conn)
    requires PlaceInv(s) && EndInv(s) && DeliveryInv(s) && Enabled(s, RAppendBatch(true))
    ensures DeliveryInv(Do(s, RAppendBatch(true)))
  {
    var s' := Do(s, RAppendBatch(true));
    var RAppend(frame, completed) := s.reader;
    DeliveryCarries(s, s');
    assert s'.log == s.log + Tag(ByFrame, Batch(frame, completed));
    forall i | |s.log| <= i < |s'.log| && s'.log[i].event.TurnCompleted?
      ensures DeliveredBefore(s', s'.log[i].event.turnId, i)
    {
      assert s'.log[i].event == Batch(frame, completed)[i - |s.log|];
      assert completed == Some(s'.log[i].event);
    }
  }

  lemma DeliveryReader(s: Conn, a: Action)
    requires DeliveryInv(s) && Enabled(s, a) && !IsWriterStep(a) && !(a.RAppendBatch? && a.ok)
    ensures DeliveryInv(Do(s, a))
  {
    var s' := Do(s, a);
    assert s'.lost == s.lost && s'.writer == s.writer;
    assert s.log <= s'.log && forall i :: |s.log| <= i < |s'.log| ==> !s'.log[i].event.TurnCompleted?;
    DeliveryCarries(s, s');
  }

  lemma DeliveryInvStep(s: Conn, a: Action)
    requires PlaceInv(s) && EndInv(s) && DeliveryInv(s) && Enabled(s, a)
    ensures DeliveryInv(Do(s, a))
  {
    if IsWriterStep(a) {
      DeliveryWriter(s, a);
    } else if a.RAppendBatch? && a.ok {
      DeliveryBatch(s);
    } else {
      DeliveryReader(s, a);
    }
  }

  // ---- who writes after whom ----------------------------------------------

  /** An abort by the terminal handler is followed at once by its crash, and that crash is its last word. */
  ghost predicate CrashShape(log: seq<Entry>, i: nat)
    requires i < |log|
  {
    if log[i].event.TurnAborted?
    then i + 1 < |log| && log[i + 1].author.ByTerminal? && log[i + 1].event.SessionCrashed?
    else log[i].event.SessionCrashed? && forall j :: i < j < |log| ==> !log[j].author.ByTerminal?
  }

  /** Shutdown gets past a join only when that task is done. */
  predicate JoinInv(s: Conn) {
    && (s.shutdown.SWriterJoined? || s.shutdown.SReaderJoined? || s.shutdown.SEnded? ==> s.writer.WDone?)
    && (s.shutdown.SReaderJoined? || s.shutdown.SEnded? ==> s.reader.RDone?)
  }

  lemma JoinInvStep(s: Conn, a: Action)
    requires JoinInv(s) && Enabled(s, a)
    ensures JoinInv(Do(s, a))
  {
  }

  ghost predicate AuthorInv(s: Conn) {
    && (forall i, j :: 0 <= i < j < |s.log| && s.log[i].author.ByTerminal? ==> !s.log[j].author.ByFrame?)
    && (forall i :: 0 <= i < |s.log| && s.log[i].author.ByTerminal? ==> s.reader.RDone? && CrashShape(s.log, i))
    && (forall i :: 0 <= i < |s.log| && s.log[i].author.ByShutdown? ==> i == |s.log| - 1 && s.shutdown.SEnded?)
    && JoinInv(s)
    && (!s.shutdown.SNone? ==> s.shuttingDown)
  }

  lemma AuthorAppend(s: Conn, s': Conn, author: Author, events: seq<SessionEvent>)
    requires AuthorInv(s) && s'.log == s.log + Tag(author, events) && |events| > 0
    requires s'.shutdown == s.shutdown && s'.shuttingDown == s.shuttingDown
    requires (author.ByWriter? && !s.writer.WDone? && s'.reader == s.reader)
      || (author.ByFrame? && !s.reader.RDone? && s'.writer == s.writer)
    ensures AuthorInv(s')
  {
    forall i | 0 <= i < |s'.log| && s'.log[i].author.ByTerminal? ensures s'.reader.RDone? && CrashShape(s'.log, i) {
      assert i < |s.log| && s'.log[i] == s.log[i] && CrashShape(s.log, i);
    }
  }

  lemma AuthorCrash(s: Conn)
    requires AuthorInv(s) && Enabled(s, RAppendCrash(true))
    ensures AuthorInv(Do(s, RAppendCrash(true)))
  {
    var s' := Do(s, RAppendCrash(true));
    var n := |s.log|;
    assert s'.log[|s'.log| - 1] == Entry(ByTerminal, SessionCrashed("EOF"));
    assert forall i :: 0 <= i < n ==> !s.log[i].author.ByTerminal?;
  }

  lemma AuthorInvStep(s: Conn, a: Action)
    requires AuthorInv(s) && Enabled(s, a)
    ensures AuthorInv(Do(s, a))
  {
    var s' := Do(s, a);
    if IsWriterStep(a) {
      WriterStepLogs(s, a);
      if WriterLogs(s, a) != [] {
        AuthorAppend(s, s', ByWriter, WriterLogs(s, a));
      }
    } else if a.RAppendBatch? && a.ok && Batch(s.reader.frame, s.reader.completed) != [] {
      AuthorAppend(s, s', ByFrame, Batch(s.reader.frame, s.reader.completed));
    } else if a.RAppendCrash? && a.ok {
      AuthorCrash(s);
    } else if a.AppendEnded? {
      AuthorEnded(s, a.ok);
    } else {
      AuthorSilent(s, a);
    }
  }

  lemma AuthorEnded(s: Conn, ok: bool)
    requires AuthorInv(s) && Enabled(s, AppendEnded(ok))
    ensures AuthorInv(Do(s, AppendEnded(ok)))
  {
    var s' := Do(s, AppendEnded(ok));
    forall i | 0 <= i < |s'.log| && s'.log[i].author.ByTerminal? ensures CrashShape(s'.log, i) {
      assert i < |s.log| && CrashShape(s.log, i);
    }
  }

  lemma AuthorSilent(s: Conn, a: Action)
    requires AuthorInv(s) && Enabled(s, a) && !a.AppendEnded? && Do(s, a).log == s.log
    ensures AuthorInv(Do(s, a))
  {
    JoinInvStep(s, a);
  }

  // ---- a failed delivery is final ------------------------------------------

  predicate TerminalFor(e: SessionEvent, t: TurnId) {
    Ends(e, t) || (e.PromptDeliveryFailed? && e.turnId == t)
  }

  /** A turn whose delivery failed is nowhere any more. */
  ghost predicate Gone(s: Conn, t: TurnId) {
    t in s.used && t !in s.taken && !Queued(s.queue, t) && Current(s.writer) != Some(t) && s.open != Some(t)
  }

  ghost predicate FailInv(s: Conn) {
    && (forall i :: 0 <= i < |s.log| && s.log[i].event.PromptDeliveryFailed? ==> Gone(s, s.log[i].event.turnId))
    && (forall i, j :: 0 <= i < j < |s.log| ==> !SameFailure(s.log[i].event, s.log[j].event))
  }

  predicate SameFailure(e: SessionEvent, f: SessionEvent) {
    e.PromptDeliveryFailed? && f.PromptDeliveryFailed? && e.turnId == f.turnId
  }

  lemma StaysGoneSend(s: Conn, turn: Turn, t: TurnId)
    requires Enabled(s, Send(turn)) && Gone(s, t)
    ensures Gone(Do(s, Send(turn)), t)
  {
    var queue' := s.queue + [turn];
    forall i | 0 <= i < |queue'| ensures queue'[i].id != t {
      assert i < |s.queue| ==> queue'[i] == s.queue[i];
    }
  }

  lemma StaysGoneWriter(s: Conn, a: Action, t: TurnId)
    requires PlaceInv(s) && Enabled(s, a) && Gone(s, t) && IsWriterStep(a)
    ensures Gone(DoWriter(s, a), t)
  {
    if a.WRecv? {
      assert Queued(s.queue, s.queue[0].id);
      forall i | 0 <= i < |s.queue[1..]| ensures s.queue[1..][i].id != t {
        assert s.queue[1..][i] == s.queue[i + 1];
      }
    } else {
      assert DoWriter(s, a).queue == s.queue;
    }
  }

  lemma StaysGoneReader(s: Conn, a: Action, t: TurnId)
    requires Enabled(s, a) && Gone(s, t)
    ensures Gone(DoReader(s, a), t)
  {
    assert DoReader(s, a).queue == s.queue;
  }

  lemma StaysGone(s: Conn, a: Action, t: TurnId)
    requires PlaceInv(s) && Enabled(s, a) && Gone(s, t)
    ensures Gone(Do(s, a), t)
  {
    if a.Send? {
      StaysGoneSend(s, a.turn, t);
    } else if IsWriterStep(a) {
      StaysGoneWriter(s, a, t);
    } else {
      StaysGoneReader(s, a, t);
    }
  }

  /** Old failures stay final, and a new one names a turn no old one names. */
  lemma FailCarries(s: Conn, s': Conn)
    requires FailInv(s) && s.log <= s'.log
    requires forall t :: Gone(s, t) ==> Gone(s', t)
    requires forall i :: |s.log| <= i < |s'.log| ==> !s'.log[i].event.PromptDeliveryFailed?
    ensures FailInv(s')
  {
  }

  lemma FailLogged(s: Conn)
    requires PlaceInv(s) && FailInv(s) && Enabled(s, WAppendFailed(true))
    ensures FailInv(Do(s, WAppendFailed(true)))
  {
    var s' := Do(s, WAppendFailed(true));
    forall i | 0 <= i < |s.log| && s.log[i].event.PromptDeliveryFailed? ensures Gone(s', s.log[i].event.turnId) {
      StaysGone(s, WAppendFailed(true), s.log[i].event.turnId);
    }
    assert s'.log == s.log + [Entry(ByWriter, PromptDeliveryFailed(s.writer.turn.id, s.writer.reason))];
  }

  lemma FailInvStep(s: Conn, a: Action)
    requires PlaceInv(s) && EndInv(s) && FailInv(s) && Enabled(s, a)
    ensures FailInv(Do(s, a))
  {
    if a.WAppendFailed? && a.ok {
      FailLogged(s);
    } else {
      NoFailureLogged(s, a);
      forall t | Gone(s, t) ensures Gone(Do(s, a), t) {
        StaysGone(s, a, t);
      }
      FailCarries(s, Do(s, a));
    }
  }

  lemma NoFailureLogged(s: Conn, a: Action)
    requires PlaceInv(s) && Enabled(s, a) && !(a.WAppendFailed? && a.ok)
    requires s.reader.RAppend? ==> AllFrame(s.reader.frame)
    ensures s.log <= Do(s, a).log
    ensures forall i :: |s.log| <= i < |Do(s, a).log| ==> !Do(s, a).log[i].event.PromptDeliveryFailed?
  {
    StepLogsAll(s, a);
    NoFailureIn(s, a);
    assert forall i :: |s.log| <= i < |Do(s, a).log| ==> Do(s, a).log[i].event == StepLogs(s, a)[i - |s.log|];
  }

  lemma NoFailureIn(s: Conn, a: Action)
    requires PlaceInv(s) && Enabled(s, a) && !(a.WAppendFailed? && a.ok)
    requires s.reader.RAppend? ==> AllFrame(s.reader.frame)
    ensures forall i :: 0 <= i < |StepLogs(s, a)| ==> !StepLogs(s, a)[i].PromptDeliveryFailed?
  {
  }
}
