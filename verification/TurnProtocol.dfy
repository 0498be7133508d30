/** One launched session: the writer task, the reader task and a shutdown call
    share `TurnState`, the shutdown flag and the session's event log. Every
    action is one atomic step; an append commits its whole batch or nothing. */
module TurnProtocol {
  import opened Events

  const TURNS_CHANNEL_BOUND := 16

  datatype Source = Agent | Human

  datatype Turn = Turn(source: Source, text: string, id: TurnId)

  /** The writer task, between two awaits. `last` says that the task breaks
      out of its loop once the failure has been recorded. */
  datatype WriterPc =
    | WIdle
    | WQueue(turn: Turn)
    | WSerialize(turn: Turn)
    | WPend(turn: Turn)
    | WWrite(turn: Turn)
    | WFlush(turn: Turn)
    | WDeliver(turn: Turn)
    | WPublish(turn: Turn)
    | WClear(turn: Turn, reason: string, last: bool)
    | WFail(turn: Turn, reason: string, last: bool)
    | WDone

  /** The reader task: a batch is its frame's events and at most one turn end. */
  datatype ReaderPc =
    | RIdle
    | RAppend(frame: seq<SessionEvent>, completed: Option<SessionEvent>)
    | RCheck
    | RTake
    | RCrash(aborted: Option<TurnId>)
    | RDone

  datatype ShutdownPc = SNone | SFlagged | SCancelled | SWriterJoined | SReaderJoined | SEnded

  datatype Author = ByLaunch | ByWriter | ByFrame | ByTerminal | ByShutdown

  datatype Entry = Entry(author: Author, event: SessionEvent)

  /** `used`, `taken`, `takenPending` and `lost` record what happened: ids ever
      minted, ids the reader took out of `open` and out of `pending`, and turns
      whose `*PromptDelivered` append failed. */
  datatype Conn = Conn(
    queue: seq<Turn>, writer: WriterPc, reader: ReaderPc, shutdown: ShutdownPc,
    shuttingDown: bool, cancelled: bool,
    pending: Option<TurnId>, open: Option<TurnId>,
    log: seq<Entry>, crashFallbacks: nat,
    used: set<TurnId>, taken: set<TurnId>, takenPending: Option<TurnId>, lost: set<TurnId>)

  datatype Action =
    | Send(turn: Turn)
    | WRecv
    | WStop
    | WAppendQueued(ok: bool)
    | WSerialized(ok: bool)
    | WSetPending
    | WWritten(ok: bool)
    | WFlushed(ok: bool)
    | WAppendDelivered(ok: bool)
    | WPublishOpen
    | WClearPending
    | WAppendFailed(ok: bool)
    | RFrame(events: seq<SessionEvent>)
    | RResult(flushed: seq<SessionEvent>, stopReason: string)
    | REnd
    | RStop
    | RAppendBatch(ok: bool)
    | RCheckFlag
    | RTakeTurn
    | RAppendCrash(ok: bool)
    | SetFlag
    | Cancel
    | JoinWriter
    | JoinReader
    | AppendEnded(ok: bool)

  /** What a frame may put in the log besides a turn end (see FrameReader.dfy). */
  predicate FrameEvent(e: SessionEvent) {
    e.AssistantMessage? || e.ToolCall? || e.ToolResult? || e.CheckpointReached? || e.SessionCrashed?
  }

  predicate AllFrame(events: seq<SessionEvent>) {
    forall i :: 0 <= i < |events| ==> FrameEvent(events[i])
  }

  predicate Enabled(s: Conn, a: Action) {
    match a
    case Send(t) => t.id !in s.used && |s.queue| < TURNS_CHANNEL_BOUND && !s.writer.WDone?
    case WRecv => s.writer.WIdle? && s.queue != [] && !s.cancelled
    case WStop => s.writer.WIdle? && (s.cancelled || s.queue == [])
    case WAppendQueued(_) => s.writer.WQueue?
    case WSerialized(_) => s.writer.WSerialize?
    case WSetPending => s.writer.WPend?
    case WWritten(_) => s.writer.WWrite?
    case WFlushed(_) => s.writer.WFlush?
    case WAppendDelivered(_) => s.writer.WDeliver?
    case WPublishOpen => s.writer.WPublish?
    case WClearPending => s.writer.WClear?
    case WAppendFailed(_) => s.writer.WFail?
    case RFrame(events) => s.reader.RIdle? && !s.cancelled && AllFrame(events)
    case RResult(flushed, _) => s.reader.RIdle? && !s.cancelled && AllFrame(flushed)
    case REnd => s.reader.RIdle? && !s.cancelled
    case RStop => s.reader.RIdle? && s.cancelled
    case RAppendBatch(_) => s.reader.RAppend?
    case RCheckFlag => s.reader.RCheck?
    case RTakeTurn => s.reader.RTake?
    case RAppendCrash(_) => s.reader.RCrash?
    case SetFlag => s.shutdown.SNone?
    case Cancel => s.shutdown.SFlagged?
    case JoinWriter => s.shutdown.SCancelled? && s.writer.WDone?
    case JoinReader => s.shutdown.SWriterJoined? && s.reader.RDone?
    case AppendEnded(_) => s.shutdown.SReaderJoined?
  }

  function Tag(author: Author, events: seq<SessionEvent>): (r: seq<Entry>)
    ensures |r| == |events|
    ensures forall i :: 0 <= i < |r| ==> r[i] == Entry(author, events[i])
  {
    seq(|events|, i requires 0 <= i < |events| => Entry(author, events[i]))
  }

  /** An append of one batch: all of it or nothing. */
  function Logged(s: Conn, author: Author, events: seq<SessionEvent>, ok: bool): Conn {
    if ok then s.(log := s.log + Tag(author, events)) else s
  }

  function QueuedEvent(t: Turn): SessionEvent {
    if t.source.Human? then HumanPromptQueued(t.id, t.text) else AgentPromptQueued(t.id, t.text)
  }

  function DeliveredEvent(t: Turn): SessionEvent {
    if t.source.Human? then HumanPromptDelivered(t.id) else AgentPromptDelivered(t.id)
  }

  function Batch(frame: seq<SessionEvent>, completed: Option<SessionEvent>): seq<SessionEvent> {
    frame + if completed.Some? then [completed.value] else []
  }

  function CrashBatch(aborted: Option<TurnId>): seq<SessionEvent> {
    (if aborted.Some? then [TurnAborted(aborted.value, "session_crashed")] else []) + [SessionCrashed("EOF")]
  }

  /** The writer task's steps. */
  function DoWriter(s: Conn, a: Action): Conn
    requires Enabled(s, a)
  {
    match a
    case WRecv => s.(queue := s.queue[1..], writer := WQueue(s.queue[0]))
    case WStop => s.(writer := WDone)
    case WAppendQueued(ok) =>
      Logged(s, ByWriter, [QueuedEvent(s.writer.turn)], ok).(writer := WSerialize(s.writer.turn))
    case WSerialized(ok) =>
      s.(writer := if ok then WPend(s.writer.turn) else WFail(s.writer.turn, "serialize", false))
    case WSetPending => s.(pending := Some(s.writer.turn.id), writer := WWrite(s.writer.turn))
    case WWritten(ok) =>
      s.(writer := if ok then WFlush(s.writer.turn) else WClear(s.writer.turn, "stdin write", true))
    case WFlushed(ok) =>
      s.(writer := if ok then WDeliver(s.writer.turn) else WClear(s.writer.turn, "stdin flush", false))
    case WAppendDelivered(ok) =>
      Logged(s, ByWriter, [DeliveredEvent(s.writer.turn)], ok).(
        writer := WPublish(s.writer.turn),
        lost := if ok then s.lost else s.lost + {s.writer.turn.id})
    case WPublishOpen => s.(open := Some(s.writer.turn.id), pending := None, writer := WIdle)
    case WClearPending =>
      s.(pending := None, writer := WFail(s.writer.turn, s.writer.reason, s.writer.last))
    case WAppendFailed(ok) =>
      Logged(s, ByWriter, [PromptDeliveryFailed(s.writer.turn.id, s.writer.reason)], ok).(
        writer := if s.writer.last then WDone else WIdle)
    case _ => s
  }

  /** The reader task's steps. */
  function DoReader(s: Conn, a: Action): Conn
    requires Enabled(s, a)
  {
    match a
    case RFrame(events) => if events == [] then s else s.(reader := RAppend(events, None))
    case RResult(flushed, stop) =>
      var completed := if s.open.Some? then Some(TurnCompleted(s.open.value, stop)) else None;
      s.(open := None,
         taken := if s.open.Some? then s.taken + {s.open.value} else s.taken,
         reader := if flushed == [] && completed.None? then RIdle else RAppend(flushed, completed))
    case REnd => s.(reader := RCheck)
    case RStop => s.(reader := RDone)
    case RAppendBatch(ok) => Logged(s, ByFrame, Batch(s.reader.frame, s.reader.completed), ok).(reader := RIdle)
    case RCheckFlag => s.(reader := if s.shuttingDown then RDone else RTake)
    case RTakeTurn =>
      if s.open.Some? then
        s.(open := None, taken := s.taken + {s.open.value}, reader := RCrash(s.open))
      else
        s.(pending := None, takenPending := s.pending, reader := RCrash(s.pending))
    case RAppendCrash(ok) =>
      Logged(s, ByTerminal, CrashBatch(s.reader.aborted), ok).(
        reader := RDone,
        crashFallbacks := if ok then s.crashFallbacks else s.crashFallbacks + 1)
    case _ => s
  }

  predicate IsWriterStep(a: Action) {
    a.WRecv? || a.WStop? || a.WAppendQueued? || a.WSerialized? || a.WSetPending? || a.WWritten? || a.WFlushed?
    || a.WAppendDelivered? || a.WPublishOpen? || a.WClearPending? || a.WAppendFailed?
  }

  predicate IsShutdownStep(a: Action) {
    a.SetFlag? || a.Cancel? || a.JoinWriter? || a.JoinReader? || a.AppendEnded?
  }

  function Do(s: Conn, a: Action): Conn
    requires Enabled(s, a)
  {
    match a
    case Send(t) => s.(queue := s.queue + [t], used := s.used + {t.id})
    case SetFlag => s.(shuttingDown := true, shutdown := SFlagged)
    case Cancel => s.(cancelled := true, shutdown := SCancelled)
    case JoinWriter => s.(shutdown := SWriterJoined)
    case JoinReader => s.(shutdown := SReaderJoined)
    case AppendEnded(ok) => Logged(s, ByShutdown, [SessionEnded], ok).(shutdown := SEnded)
    case _ => if IsWriterStep(a) then DoWriter(s, a) else DoReader(s, a)
  }

  function Exec(s: Conn, acts: seq<Action>): Option<Conn> {
    if acts == [] then Some(s)
    else
      var before := Exec(s, acts[..|acts| - 1]);
      var a := acts[|acts| - 1];
      if before.Some? && Enabled(before.value, a) then Some(Do(before.value, a)) else None
  }

  /** Just launched: `SessionStarted` is in the log and nothing has been sent. */
  function Launched(sessionId: nat, agentId: nat): Conn {
    Conn([], WIdle, RIdle, SNone, false, false, None, None,
         [Entry(ByLaunch, SessionStarted(sessionId, agentId))], 0, {}, {}, None, {})
  }
}
