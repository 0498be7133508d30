/** Values shared by every part of the model: the session events and the
    envelopes the event store stamps and keeps. */
module Events {

  datatype Option<+T> = None | Some(value: T)

  /** What an option holds, as a set. */
  function Just<T(==)>(o: Option<T>): set<T> {
    if o.Some? then {o.value} else {}
  }

  type TurnId = nat

  /** The interrupt a checkpoint may carry. */
  datatype Interrupt =
    | Hitl(question: string, options: seq<string>)
    | Pause
    | Drain

  datatype SessionEvent =
    | SessionStarted(sessionId: nat, agentId: nat)
    | AgentPromptQueued(turnId: TurnId, text: string)
    | AgentPromptDelivered(turnId: TurnId)
    | HumanPromptQueued(turnId: TurnId, text: string)
    | HumanPromptDelivered(turnId: TurnId)
    | PromptDeliveryFailed(turnId: TurnId, reason: string)
    | AssistantMessage(messageId: string, seqInMessage: nat, deltaText: string, isFinal: bool)
    | ToolCall(toolUseId: string, toolName: string)
    | ToolResult(toolUseId: string, spilled: bool, isError: bool)
    | CheckpointReached(checkpointId: nat, interrupt: Option<Interrupt>)
    | TurnCompleted(turnId: TurnId, stopReason: string)
    | TurnAborted(turnId: TurnId, reason: string)
    | SessionCrashed(reason: string)
    | SessionEnded

  predicate IsQueued(e: SessionEvent) {
    e.AgentPromptQueued? || e.HumanPromptQueued?
  }

  predicate IsDelivered(e: SessionEvent) {
    e.AgentPromptDelivered? || e.HumanPromptDelivered?
  }

  /** An aggregate: its type and its id. */
  datatype Key = Key(aggType: string, aggId: string)

  /** An envelope; `sequence` is 0 until the writer thread stamps it. */
  datatype Envelope = Envelope(key: Key, sequence: nat, payload: SessionEvent)
}
