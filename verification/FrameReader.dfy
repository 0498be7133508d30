/** The reader task's frame handler: assistant text is coalesced per message,
    tool calls and results become events, checkpoint results are recognised, and
    everything one frame yields is appended as one batch. */
module FrameReader {
  import opened Events
  import C = Channels
  import TurnProtocol

  const MAX_DELTAS := 5
  const MAX_BUFFERED_BYTES := 200 * 1024
  const FLUSH_INTERVAL := 250
  const TOOL_RESULT_INLINE_MAX := 256 * 1024

  /** UTF-8 length of a text. */
  function ByteLen(s: string): nat {
    if s == "" then 0
    else
      var c := s[|s| - 1] as int;
      ByteLen(s[..|s| - 1]) + if c < 0x80 then 1 else if c < 0x800 then 2 else if c < 0x10000 then 3 else 4
  }

  /** `n` bytes of UTF-8 can carry the code point. */
  predicate Carries(n: nat, c: char) {
    && 1 <= n <= 4
    && (c as int) < (if n == 1 then 128 else if n == 2 then 2048 else if n == 3 then 65536 else 1114112)
  }

  /** Every character takes the fewest bytes that can carry it. */
  lemma ByteLenMeaning(s: string, c: char)
    ensures var n := ByteLen(s + [c]) - ByteLen(s);
      n >= 1 && Carries(n, c) && forall k :: 1 <= k < n ==> !Carries(k, c)
    ensures ByteLen("") == 0
  {
    assert (s + [c])[..|s|] == s;
  }

  /** The checkpoint id parser. */
  type UuidParser = string -> Option<nat>

  // ---------- the coalescer ----------

  datatype Buffer = Buffer(seqInMessage: nat, pendingText: string, pendingCount: nat, lastFlush: nat)

  type Buffers = map<string, Buffer>

  function Message(id: string, buf: Buffer, isFinal: bool): SessionEvent {
    AssistantMessage(id, buf.seqInMessage, buf.pendingText, isFinal)
  }

  function Flushed(buf: Buffer, now: nat): Buffer {
    Buffer(buf.seqInMessage + 1, "", 0, now)
  }

  /** The buffer of a message once `text` has been added to it. */
  function Filled(bs: Buffers, id: string, text: string, now: nat): Buffer {
    var buf := if id in bs then bs[id] else Buffer(0, "", 0, now);
    buf.(pendingText := buf.pendingText + text, pendingCount := buf.pendingCount + 1)
  }

  predicate Full(buf: Buffer) {
    buf.pendingCount >= MAX_DELTAS || ByteLen(buf.pendingText) >= MAX_BUFFERED_BYTES
  }

  predicate Overdue(buf: Buffer, now: nat) {
    now >= buf.lastFlush + FLUSH_INTERVAL
  }

  predicate OverdueWithText(buf: Buffer, now: nat) {
    buf.pendingText != "" && Overdue(buf, now)
  }

  function Push(bs: Buffers, id: string, text: string, now: nat): (Buffers, Option<SessionEvent>) {
    var buf := Filled(bs, id, text, now);
    if Full(buf) || Overdue(buf, now) then (bs[id := Flushed(buf, now)], Some(Message(id, buf, false)))
    else (bs[id := buf], None)
  }

  function Close(bs: Buffers, id: string): (Buffers, Option<SessionEvent>) {
    if id in bs then (bs - {id}, Some(Message(id, bs[id], true))) else (bs, None)
  }

  function Listed(e: Option<SessionEvent>): seq<SessionEvent> {
    if e.Some? then [e.value] else []
  }

  /** A buffer with text that has waited 250 ms starts afresh; any other is left alone. */
  predicate Ticked(was: Buffers, bs: Buffers, id: string, now: nat)
    requires id in was.Keys && was.Keys == bs.Keys
  {
    if was[id].pendingText != "" && now >= was[id].lastFlush + 250
    then bs[id] == Buffer(was[id].seqInMessage + 1, "", 0, now)
    else bs[id] == was[id]
  }

  class Coalescer {
    var buffers: Buffers

    constructor ()
      ensures buffers == map[]
    {
      buffers := map[];
    }

    method PushDelta(id: string, text: string, now: nat) returns (event: Option<SessionEvent>)
      modifies this
      ensures (buffers, event) == Push(old(buffers), id, text, now)
    {
      var buf := if id in buffers then buffers[id] else Buffer(0, "", 0, now);
      buf := buf.(pendingText := buf.pendingText + text);
      buf := buf.(pendingCount := buf.pendingCount + 1);
      buffers := buffers[id := buf];
      if buf.pendingCount >= MAX_DELTAS || ByteLen(buf.pendingText) >= MAX_BUFFERED_BYTES || Overdue(buf, now) {
        var message := Emit(id, now, false);
        event := Some(message);
        assert buffers == old(buffers)[id := Flushed(buf, now)];
      } else {
        event := None;
      }
    }

    method Emit(id: string, now: nat, isFinal: bool) returns (event: SessionEvent)
      requires id in buffers
      modifies this
      ensures event == Message(id, old(buffers[id]), isFinal)
      ensures buffers == old(buffers)[id := Flushed(old(buffers[id]), now)]
    {
      var buf := buffers[id];
      event := AssistantMessage(id, buf.seqInMessage, buf.pendingText, isFinal);
      buffers := buffers[id := Buffer(buf.seqInMessage + 1, "", 0, now)];
    }

    method Finalize(id: string) returns (event: Option<SessionEvent>)
      modifies this
      ensures (buffers, event) == Close(old(buffers), id)
    {
      if id !in buffers {
        return None;
      }
      event := Some(AssistantMessage(id, buffers[id].seqInMessage, buffers[id].pendingText, true));
      buffers := buffers - {id};
    }

    /** Flushes the overdue buffers that hold text, in whatever order the map
        yields them: the ledger of every message is kept, and none of them is
        left overdue with text. */
    method Tick(now: nat) returns (out: seq<SessionEvent>)
      modifies this
      ensures buffers.Keys == old(buffers).Keys
      ensures forall id :: id in buffers ==> !OverdueWithText(buffers[id], now)
      ensures forall id :: id in buffers ==> Ticked(old(buffers), buffers, id, now)
      ensures forall log, id, pushed :: Ledger(old(buffers), log, id, pushed) ==> Ledger(buffers, log + out, id, pushed)
    {
      out := [];
      var todo := buffers.Keys;
      ghost var before := buffers;
      assert forall log: seq<SessionEvent> :: log + [] == log;
      while todo != {}
        invariant todo <= buffers.Keys == before.Keys
        invariant forall id :: id in buffers && id !in todo ==> !OverdueWithText(buffers[id], now)
        invariant forall id :: id in todo ==> buffers[id] == before[id]
        invariant forall id :: id in buffers && id !in todo ==> Ticked(before, buffers, id, now)
        invariant forall log, id, pushed :: Ledger(before, log, id, pushed) ==> Ledger(buffers, log + out, id, pushed)
        decreases |todo|
      {
        var id :| id in todo;
        todo := todo - {id};
        if OverdueWithText(buffers[id], now) {
          ghost var was, done := buffers, out;
          var event := Emit(id, now, false);
          out := out + [event];
          forall log, m, pushed | Ledger(before, log, m, pushed) ensures Ledger(buffers, log + out, m, pushed) {
            EmitKeepsLedger(was, log + done, m, pushed, id, now);
            assert log + out == (log + done) + [event];
          }
        }
      }
    }
  }

  // ---------- the ledger of one message ----------

  predicate Of(e: SessionEvent, id: string) {
    e.AssistantMessage? && e.messageId == id
  }

  /** A message's text in a log. */
  function TextOf(log: seq<SessionEvent>, id: string): string {
    if log == [] then ""
    else
      var e := log[|log| - 1];
      TextOf(log[..|log| - 1], id) + if Of(e, id) then e.deltaText else ""
  }

  /** The index its next delta must carry: a final delta starts the count again. */
  function NextIndex(log: seq<SessionEvent>, id: string): nat {
    if log == [] then 0
    else
      var e := log[|log| - 1];
      if !Of(e, id) then NextIndex(log[..|log| - 1], id) else if e.isFinal then 0 else e.seqInMessage + 1
  }

  /** Its deltas are numbered 0, 1, 2, ... up to each final one. */
  predicate Numbered(log: seq<SessionEvent>, id: string) {
    log == [] ||
    var e := log[|log| - 1];
    && Numbered(log[..|log| - 1], id)
    && (Of(e, id) ==> e.seqInMessage == NextIndex(log[..|log| - 1], id))
  }

  function Pending(bs: Buffers, id: string): string {
    if id in bs then bs[id].pendingText else ""
  }

  /** What is in the log and what is pending make up what was pushed, the deltas
      are numbered without gaps, and a pending buffer is below both limits. */
  predicate Ledger(bs: Buffers, log: seq<SessionEvent>, id: string, pushed: string) {
    && TextOf(log, id) + Pending(bs, id) == pushed
    && Numbered(log, id)
    && NextIndex(log, id) == (if id in bs then bs[id].seqInMessage else 0)
    && (id in bs ==> !Full(bs[id]))
  }

  lemma Appended(log: seq<SessionEvent>, e: SessionEvent, id: string)
    ensures TextOf(log + [e], id) == TextOf(log, id) + if Of(e, id) then e.deltaText else ""
    ensures NextIndex(log + [e], id)
        == if !Of(e, id) then NextIndex(log, id) else if e.isFinal then 0 else e.seqInMessage + 1
    ensures Numbered(log + [e], id) <==> Numbered(log, id) && (Of(e, id) ==> e.seqInMessage == NextIndex(log, id))
  {
    assert (log + [e])[..|log|] == log;
  }

  lemma EmitKeepsLedger(bs: Buffers, log: seq<SessionEvent>, id: string, pushed: string, m: string, now: nat)
    requires Ledger(bs, log, id, pushed) && m in bs
    ensures Ledger(bs[m := Flushed(bs[m], now)], log + [Message(m, bs[m], false)], id, pushed)
  {
    Appended(log, Message(m, bs[m], false), id);
  }

  lemma PushElsewhere(bs: Buffers, log: seq<SessionEvent>, id: string, pushed: string, m: string, text: string,
      now: nat)
    requires Ledger(bs, log, id, pushed) && m != id
    ensures var r := Push(bs, m, text, now);
            Ledger(r.0, log + Listed(r.1), id, pushed)
  {
    var buf := Filled(bs, m, text, now);
    if Full(buf) || Overdue(buf, now) {
      Appended(log, Message(m, buf, false), id);
      OtherBuffer(bs, log + [Message(m, buf, false)], id, pushed, m, Flushed(buf, now));
    } else {
      assert log + [] == log;
      OtherBuffer(bs, log, id, pushed, m, buf);
    }
  }

  lemma OtherBuffer(bs: Buffers, log: seq<SessionEvent>, id: string, pushed: string, m: string, buf: Buffer)
    requires Ledger(bs, log, id, pushed) && m != id
    ensures Ledger(bs[m := buf], log, id, pushed)
  {
  }

  lemma PushEmits(bs: Buffers, log: seq<SessionEvent>, id: string, pushed: string, buf: Buffer, now: nat)
    requires TextOf(log, id) + buf.pendingText == pushed
    requires Numbered(log, id) && NextIndex(log, id) == buf.seqInMessage
    ensures Ledger(bs[id := Flushed(buf, now)], log + [Message(id, buf, false)], id, pushed)
  {
    Appended(log, Message(id, buf, false), id);
    assert pushed + "" == pushed;
    assert ByteLen("") == 0;
  }

  lemma PushHere(bs: Buffers, log: seq<SessionEvent>, id: string, pushed: string, text: string, now: nat)
    requires Ledger(bs, log, id, pushed)
    ensures var r := Push(bs, id, text, now);
            Ledger(r.0, log + Listed(r.1), id, pushed + text)
  {
    var buf := Filled(bs, id, text, now);
    assert buf.pendingText == Pending(bs, id) + text;
    Associative(TextOf(log, id), Pending(bs, id), text);
    if Full(buf) || Overdue(buf, now) {
      PushEmits(bs, log, id, pushed + text, buf, now);
    } else {
      assert log + [] == log;
    }
  }

  lemma PushKeepsLedger(bs: Buffers, log: seq<SessionEvent>, id: string, pushed: string, m: string, text: string,
      now: nat)
    requires Ledger(bs, log, id, pushed)
    ensures var r := Push(bs, m, text, now);
            Ledger(r.0, log + Listed(r.1), id, pushed + if m == id then text else "")
  {
    if m == id {
      PushHere(bs, log, id, pushed, text, now);
    } else {
      PushElsewhere(bs, log, id, pushed, m, text, now);
      assert pushed + "" == pushed;
    }
  }

  lemma CloseKeepsLedger(bs: Buffers, log: seq<SessionEvent>, id: string, pushed: string, m: string)
    requires Ledger(bs, log, id, pushed)
    ensures var r := Close(bs, m);
            Ledger(r.0, log + Listed(r.1), id, pushed)
  {
    if m in bs {
      Appended(log, Message(m, bs[m], true), id);
    }
    assert log + [] == log;
  }

  lemma OtherKeepsLedger(bs: Buffers, log: seq<SessionEvent>, id: string, pushed: string, e: SessionEvent)
    requires Ledger(bs, log, id, pushed) && !e.AssistantMessage?
    ensures Ledger(bs, log + [e], id, pushed)
  {
    Appended(log, e, id);
  }

  // ---------- frames ----------

  /** A tool result's content and its serialized size. */
  datatype Payload = Payload(content: C.Json, size: nat)

  datatype Block =
    | TextBlock(text: string, at: nat)
    | ToolUse(id: string, name: string)
    | ToolOutput(useId: string, output: Payload, isError: bool)
    | McpOutput(useId: string, output: Payload, isError: bool)
    | OtherBlock

  datatype Frame =
    | Observed
    | Assistant(messageId: string, blocks: seq<Block>, stopped: bool)
    | TurnResult(stopReason: Option<string>)

  datatype Derived = Checkpoint(event: SessionEvent) | Absent | Malformed(reason: string)

  function Field(content: C.Json, name: string): Option<C.Json> {
    if content.Object? && name in content.fields then Some(content.fields[name]) else None
  }

  function Texts(items: seq<C.Json>): seq<string> {
    if items == [] then []
    else
      var last := items[|items| - 1];
      Texts(items[..|items| - 1]) + if last.Text? then [last.s] else []
  }

  function ExtractHitl(content: C.Json): Option<Interrupt> {
    var question := Field(content, "question");
    var options := Field(content, "options");
    if question.Some? && question.value.Text? then
      Some(Hitl(question.value.s, if options.Some? then Texts(C.ItemsOf(options.value)) else []))
    else None
  }

  /** `parseUuid` is the id parser. */
  function DeriveCheckpoint(content: C.Json, tool: string, parseUuid: UuidParser): Derived {
    var id := Field(content, "checkpoint_id");
    if id.None? then Absent
    else if !id.value.Text? then Malformed("checkpoint_id is not a string")
    else
      var uuid := parseUuid(id.value.s);
      if uuid.None? then Malformed(id.value.s)
      else
        var interrupt := if tool == "request_human_input" then ExtractHitl(content) else None;
        Checkpoint(CheckpointReached(uuid.value, interrupt))
  }

  predicate Checkpoints(tool: Option<string>) {
    tool == Some("serialize_and_persist") || tool == Some("request_human_input")
  }

  /** What an output block yields besides its `ToolResult`. */
  function DerivedFrom(b: Block, names: map<string, string>, parseUuid: UuidParser): Derived {
    if b.McpOutput? && !b.isError && b.useId in names && Checkpoints(Some(names[b.useId])) then
      DeriveCheckpoint(b.output.content, names[b.useId], parseUuid)
    else Absent
  }

  predicate IsOutput(b: Block) {
    b.ToolOutput? || b.McpOutput?
  }

  predicate Spills(b: Block) {
    IsOutput(b) && b.output.size > TOOL_RESULT_INLINE_MAX
  }

  /** A frame in progress. `lost` records the events a malformed checkpoint id
      has thrown away. */
  datatype Pass = Pass(buffers: Buffers, names: map<string, string>, events: seq<SessionEvent>, blobs: seq<string>,
      lost: seq<SessionEvent>)

  function OneOutput(p: Pass, b: Block, parseUuid: UuidParser): Pass
    requires IsOutput(b)
  {
    var result := p.events + [ToolResult(b.useId, Spills(b), b.isError)];
    var blobs := p.blobs + if Spills(b) then [b.useId] else [];
    var names := p.names - {b.useId};
    match DerivedFrom(b, p.names, parseUuid)
    case Absent => p.(names := names, events := result, blobs := blobs)
    case Checkpoint(event) => p.(names := names, events := result + [event], blobs := blobs)
    case Malformed(reason) =>
      p.(names := names, events := [SessionCrashed(reason)], blobs := [], lost := p.lost + result)
  }

  function OneBlock(p: Pass, m: string, b: Block, parseUuid: UuidParser): Pass {
    if b.TextBlock? then
      var r := Push(p.buffers, m, b.text, b.at);
      p.(buffers := r.0, events := p.events + Listed(r.1))
    else if b.ToolUse? then p.(names := p.names[b.id := b.name], events := p.events + [ToolCall(b.id, b.name)])
    else if IsOutput(b) then OneOutput(p, b, parseUuid)
    else p
  }

  function Blocks(p: Pass, m: string, bs: seq<Block>, parseUuid: UuidParser): Pass {
    if bs == [] then p
    else OneBlock(Blocks(p, m, bs[..|bs| - 1], parseUuid), m, bs[|bs| - 1], parseUuid)
  }

  function DrainAll(bs: Buffers, ids: seq<string>): (Buffers, seq<SessionEvent>) {
    if ids == [] then (bs, [])
    else
      var before := DrainAll(bs, ids[..|ids| - 1]);
      var r := Close(before.0, ids[|ids| - 1]);
      (r.0, before.1 + Listed(r.1))
  }

  datatype Reader = Reader(buffers: Buffers, active: seq<string>, names: map<string, string>, open: Option<TurnId>)

  function Remove(ids: seq<string>, id: string): seq<string> {
    if ids == [] then []
    else
      var last := ids[|ids| - 1];
      Remove(ids[..|ids| - 1], id) + if last == id then [] else [last]
  }

  /** One frame: the reader after it, the batch it appends, the blobs that go with
      the batch and the events it dropped. */
  datatype Step = Step(reader: Reader, batch: seq<SessionEvent>, blobs: seq<string>, lost: seq<SessionEvent>)

  function Completed(open: Option<TurnId>, stopReason: Option<string>): seq<SessionEvent> {
    if open.None? then []
    else [TurnCompleted(open.value, if stopReason.Some? then stopReason.value else "end_turn")]
  }

  function OneFrame(r: Reader, f: Frame, parseUuid: UuidParser): Step {
    match f
    case Observed => Step(r, [], [], [])
    case Assistant(m, blocks, stopped) =>
      var active := if m in r.active then r.active else r.active + [m];
      var p := Blocks(Pass(r.buffers, r.names, [], [], []), m, blocks, parseUuid);
      if stopped then
        var closed := Close(p.buffers, m);
        Step(r.(buffers := closed.0, active := Remove(active, m), names := p.names),
             p.events + Listed(closed.1), p.blobs, p.lost)
      else Step(r.(buffers := p.buffers, active := active, names := p.names), p.events, p.blobs, p.lost)
    case TurnResult(stopReason) =>
      var drained := DrainAll(r.buffers, r.active);
      Step(r.(buffers := drained.0, active := [], open := None), drained.1 + Completed(r.open, stopReason), [], [])
  }

  class FrameHandler {
    const coalescer: Coalescer
    const parseUuid: UuidParser
    var activeIds: seq<string>
    var toolNames: map<string, string>
    var openTurn: Option<TurnId>

    ghost function State(): Reader
      reads this, coalescer
    {
      Reader(coalescer.buffers, activeIds, toolNames, openTurn)
    }

    constructor (parseUuid: UuidParser)
      ensures fresh(coalescer) && this.parseUuid == parseUuid
      ensures State() == Reader(map[], [], map[], None)
    {
      coalescer := new Coalescer();
      this.parseUuid := parseUuid;
      activeIds, toolNames, openTurn := [], map[], None;
    }

    /** Appends the `ToolResult`, taking the tool's name out of the map. */
    method BuildToolResult(b: Block, events: seq<SessionEvent>)
        returns (name: Option<string>, grown: seq<SessionEvent>, blob: Option<string>)
      requires IsOutput(b)
      modifies this`toolNames
      ensures name == (if b.useId in old(toolNames) then Some(old(toolNames)[b.useId]) else None)
      ensures toolNames == old(toolNames) - {b.useId}
      ensures grown == events + [ToolResult(b.useId, Spills(b), b.isError)]
      ensures blob == if Spills(b) then Some(b.useId) else None
    {
      name := if b.useId in toolNames then Some(toolNames[b.useId]) else None;
      toolNames := toolNames - {b.useId};
      if b.output.size <= TOOL_RESULT_INLINE_MAX {
        return name, events + [ToolResult(b.useId, false, b.isError)], None;
      }
      grown := events + [ToolResult(b.useId, true, b.isError)];
      blob := Some(b.useId);
    }

    method HandleOutput(b: Block, events: seq<SessionEvent>, blobs: seq<string>, ghost lost: seq<SessionEvent>)
      returns (grown: seq<SessionEvent>, stored: seq<string>, ghost dropped: seq<SessionEvent>)
      requires IsOutput(b)
      modifies this`toolNames
      ensures Pass(coalescer.buffers, toolNames, grown, stored, dropped) ==
              OneOutput(Pass(coalescer.buffers, old(toolNames), events, blobs, lost), b, parseUuid)
    {
      var name, result, blob := BuildToolResult(b, events);
      grown, stored, dropped := result, blobs, lost;
      if blob.Some? {
        stored := blobs + [blob.value];
      } else {
        assert blobs + [] == blobs;
      }
      if b.McpOutput? && !b.isError && Checkpoints(name) {
        match DeriveCheckpoint(b.output.content, name.value, parseUuid) {
          case Checkpoint(event) => grown := result + [event];
          case Absent =>
          case Malformed(reason) =>
            grown, stored, dropped := [SessionCrashed(reason)], [], lost + result;
        }
      }
    }

    method HandleBlock(m: string, b: Block, events: seq<SessionEvent>, blobs: seq<string>,
        ghost lost: seq<SessionEvent>)
      returns (grown: seq<SessionEvent>, stored: seq<string>, ghost dropped: seq<SessionEvent>)
      modifies coalescer, this`toolNames
      ensures Pass(coalescer.buffers, toolNames, grown, stored, dropped) ==
              OneBlock(Pass(old(coalescer.buffers), old(toolNames), events, blobs, lost), m, b, parseUuid)
    {
      grown, stored, dropped := events, blobs, lost;
      if b.TextBlock? {
        var event := coalescer.PushDelta(m, b.text, b.at);
        grown := events + Listed(event);
      } else if b.ToolUse? {
        toolNames := toolNames[b.id := b.name];
        grown := events + [ToolCall(b.id, b.name)];
      } else if IsOutput(b) {
        grown, stored, dropped := HandleOutput(b, events, blobs, lost);
      }
    }

    method HandleAssistant(m: string, blocks: seq<Block>, stopped: bool)
      returns (batch: seq<SessionEvent>, blobs: seq<string>, ghost lost: seq<SessionEvent>)
      modifies coalescer, this`toolNames, this`activeIds
      ensures Step(State(), batch, blobs, lost) == OneFrame(old(State()), Assistant(m, blocks, stopped), parseUuid)
    {
      batch, blobs, lost := [], [], [];
      ghost var start := Pass(coalescer.buffers, toolNames, [], [], []);
      if m !in activeIds {
        activeIds := activeIds + [m];
      }
      ghost var active := activeIds;
      for k := 0 to |blocks|
        invariant Pass(coalescer.buffers, toolNames, batch, blobs, lost) == Blocks(start, m, blocks[..k], parseUuid)
        invariant activeIds == active
      {
        assert blocks[..k + 1][..k] == blocks[..k];
        batch, blobs, lost := HandleBlock(m, blocks[k], batch, blobs, lost);
      }
      assert blocks[..|blocks|] == blocks;
      if stopped {
        var event := coalescer.Finalize(m);
        batch := batch + Listed(event);
        activeIds := Remove(activeIds, m);
      }
    }

    method HandleResult(stopReason: Option<string>) returns (batch: seq<SessionEvent>)
      modifies coalescer, this`activeIds, this`openTurn
      ensures Step(State(), batch, [], []) == OneFrame(old(State()), TurnResult(stopReason), parseUuid)
    {
      batch := [];
      ghost var start := coalescer.buffers;
      var ids := activeIds;
      activeIds := [];
      for k := 0 to |ids|
        invariant (coalescer.buffers, batch) == DrainAll(start, ids[..k])
        invariant activeIds == [] && openTurn == old(openTurn)
      {
        assert ids[..k + 1][..k] == ids[..k];
        var event := coalescer.Finalize(ids[k]);
        batch := batch + Listed(event);
      }
      assert ids[..|ids|] == ids;
      var reason := if stopReason.Some? then stopReason.value else "end_turn";
      var turn := openTurn;
      openTurn := None;
      if turn.Some? {
        batch := batch + [TurnCompleted(turn.value, reason)];
      } else {
        assert batch + [] == batch;
      }
    }

    /** One frame: what it appends to the log, if anything. */
    method ProcessFrame(f: Frame) returns (batch: seq<SessionEvent>, blobs: seq<string>, ghost lost: seq<SessionEvent>)
      modifies this, coalescer
      ensures Step(State(), batch, blobs, lost) == OneFrame(old(State()), f, parseUuid)
    {
      batch, blobs, lost := [], [], [];
      match f {
        case Observed =>
        case Assistant(m, blocks, stopped) => batch, blobs, lost := HandleAssistant(m, blocks, stopped);
        case TurnResult(stopReason) => batch := HandleResult(stopReason);
      }
    }
  }

  // ---------- one frame ----------

  function Said(m: string, b: Block, id: string): string {
    if m == id && b.TextBlock? then b.text else ""
  }

  function Pushed(m: string, bs: seq<Block>, id: string): string {
    if bs == [] then "" else Pushed(m, bs[..|bs| - 1], id) + Said(m, bs[|bs| - 1], id)
  }

  function PushedBy(f: Frame, id: string): string {
    if f.Assistant? then Pushed(f.messageId, f.blocks, id) else ""
  }

  /** Everything the frame produced so far, dropped or not, after `log`. */
  function Whole(log: seq<SessionEvent>, p: Pass): seq<SessionEvent> {
    log + (p.lost + p.events)
  }

  lemma OutputKeepsLedger(p: Pass, log: seq<SessionEvent>, b: Block, parseUuid: UuidParser, id: string, pushed: string)
    requires IsOutput(b) && Ledger(p.buffers, Whole(log, p), id, pushed)
    ensures var q := OneOutput(p, b, parseUuid);
            Ledger(q.buffers, Whole(log, q), id, pushed)
  {
    var q, w := OneOutput(p, b, parseUuid), Whole(log, p);
    var result := ToolResult(b.useId, Spills(b), b.isError);
    OtherKeepsLedger(p.buffers, w, id, pushed, result);
    match DerivedFrom(b, p.names, parseUuid)
    case Absent => assert Whole(log, q) == w + [result];
    case Checkpoint(event) =>
      OtherKeepsLedger(p.buffers, w + [result], id, pushed, event);
      assert Whole(log, q) == w + [result] + [event];
    case Malformed(reason) =>
      OtherKeepsLedger(p.buffers, w + [result], id, pushed, SessionCrashed(reason));
      assert Whole(log, q) == w + [result] + [SessionCrashed(reason)];
  }

  lemma BlockKeepsLedger(p: Pass, log: seq<SessionEvent>, m: string, b: Block, parseUuid: UuidParser, id: string,
      pushed: string)
    requires Ledger(p.buffers, Whole(log, p), id, pushed)
    ensures var q := OneBlock(p, m, b, parseUuid);
            Ledger(q.buffers, Whole(log, q), id, pushed + Said(m, b, id))
  {
    var q, w := OneBlock(p, m, b, parseUuid), Whole(log, p);
    assert pushed + "" == pushed;
    if b.TextBlock? {
      PushKeepsLedger(p.buffers, w, id, pushed, m, b.text, b.at);
      assert Whole(log, q) == w + Listed(Push(p.buffers, m, b.text, b.at).1);
    } else if b.ToolUse? {
      OtherKeepsLedger(p.buffers, w, id, pushed, ToolCall(b.id, b.name));
      assert Whole(log, q) == w + [ToolCall(b.id, b.name)];
    } else if IsOutput(b) {
      OutputKeepsLedger(p, log, b, parseUuid, id, pushed);
    }
  }

  lemma {:induction false} BlocksKeepLedger(p: Pass, log: seq<SessionEvent>, m: string, bs: seq<Block>,
      parseUuid: UuidParser, id: string, pushed: string)
    requires Ledger(p.buffers, Whole(log, p), id, pushed)
    ensures var q := Blocks(p, m, bs, parseUuid);
            Ledger(q.buffers, Whole(log, q), id, pushed + Pushed(m, bs, id))
  {
    if bs == [] {
      assert pushed + "" == pushed;
    } else {
      var front, last := bs[..|bs| - 1], bs[|bs| - 1];
      BlocksKeepLedger(p, log, m, front, parseUuid, id, pushed);
      BlockKeepsLedger(Blocks(p, m, front, parseUuid), log, m, last, parseUuid, id, pushed + Pushed(m, front, id));
      Associative(pushed, Pushed(m, front, id), Said(m, last, id));
    }
  }

  lemma Associative(a: string, b: string, c: string)
    ensures (a + b) + c == a + (b + c)
  {
  }

  lemma {:induction false} DrainKeepsLedger(bs: Buffers, log: seq<SessionEvent>, ids: seq<string>, id: string,
      pushed: string)
    requires Ledger(bs, log, id, pushed)
    ensures Ledger(DrainAll(bs, ids).0, log + DrainAll(bs, ids).1, id, pushed)
  {
    if ids == [] {
      assert log + [] == log;
    } else {
      var before := DrainAll(bs, ids[..|ids| - 1]);
      DrainKeepsLedger(bs, log, ids[..|ids| - 1], id, pushed);
      CloseKeepsLedger(before.0, log + before.1, id, pushed, ids[|ids| - 1]);
      ThenEnding(log, before.1, Listed(Close(before.0, ids[|ids| - 1]).1));
      assert [] + DrainAll(bs, ids).1 == DrainAll(bs, ids).1;
    }
  }

  lemma AssistantKeepsLedger(r: Reader, log: seq<SessionEvent>, f: Frame, parseUuid: UuidParser, id: string,
      pushed: string)
    requires f.Assistant? && Ledger(r.buffers, log, id, pushed)
    ensures var s := OneFrame(r, f, parseUuid);
            Ledger(s.reader.buffers, log + (s.lost + s.batch), id, pushed + PushedBy(f, id))
  {
    var s := OneFrame(r, f, parseUuid);
    var start := Pass(r.buffers, r.names, [], [], []);
    assert Whole(log, start) == log;
    BlocksKeepLedger(start, log, f.messageId, f.blocks, parseUuid, id, pushed);
    var p := Blocks(start, f.messageId, f.blocks, parseUuid);
    if f.stopped {
      CloseKeepsLedger(p.buffers, Whole(log, p), id, pushed + PushedBy(f, id), f.messageId);
      assert log + (s.lost + s.batch) == Whole(log, p) + Listed(Close(p.buffers, f.messageId).1);
    }
  }

  lemma ResultKeepsLedger(r: Reader, log: seq<SessionEvent>, f: Frame, parseUuid: UuidParser, id: string,
      pushed: string)
    requires f.TurnResult? && Ledger(r.buffers, log, id, pushed)
    ensures var s := OneFrame(r, f, parseUuid);
            Ledger(s.reader.buffers, log + (s.lost + s.batch), id, pushed)
  {
    var s := OneFrame(r, f, parseUuid);
    var drained, ending := DrainAll(r.buffers, r.active), Completed(r.open, f.stopReason);
    DrainKeepsLedger(r.buffers, log, r.active, id, pushed);
    EndingKeepsLedger(drained.0, log + drained.1, id, pushed, r.open, f.stopReason);
    ThenEnding(log, drained.1, ending);
    assert s.lost == [] && s.batch == drained.1 + ending && s.reader.buffers == drained.0;
  }

  lemma EndingKeepsLedger(bs: Buffers, log: seq<SessionEvent>, id: string, pushed: string, open: Option<TurnId>,
      stopReason: Option<string>)
    requires Ledger(bs, log, id, pushed)
    ensures Ledger(bs, log + Completed(open, stopReason), id, pushed)
  {
    if open.Some? {
      OtherKeepsLedger(bs, log, id, pushed, Completed(open, stopReason)[0]);
    } else {
      assert log + [] == log;
    }
  }

  lemma ThenEnding(log: seq<SessionEvent>, flushed: seq<SessionEvent>, ending: seq<SessionEvent>)
    ensures log + ([] + (flushed + ending)) == (log + flushed) + ending
  {
  }

  lemma FrameKeepsLedger(r: Reader, log: seq<SessionEvent>, f: Frame, parseUuid: UuidParser, id: string, pushed: string)
    requires Ledger(r.buffers, log, id, pushed)
    ensures var s := OneFrame(r, f, parseUuid);
            Ledger(s.reader.buffers, log + (s.lost + s.batch), id, pushed + PushedBy(f, id))
  {
    match f
    case Observed => assert log + ([] + []) == log && pushed + "" == pushed;
    case Assistant(_, _, _) => AssistantKeepsLedger(r, log, f, parseUuid, id, pushed);
    case TurnResult(_) =>
      ResultKeepsLedger(r, log, f, parseUuid, id, pushed);
      assert pushed + "" == pushed;
  }

  /** The list of open messages covers every buffer. */
  predicate Covered(r: Reader) {
    forall id :: id in r.buffers ==> id in r.active
  }

  lemma {:induction false} BlocksTouchOneMessage(p: Pass, m: string, bs: seq<Block>, parseUuid: UuidParser)
    ensures Blocks(p, m, bs, parseUuid).buffers.Keys <= p.buffers.Keys + {m}
  {
    if bs != [] {
      BlocksTouchOneMessage(p, m, bs[..|bs| - 1], parseUuid);
    }
  }

  lemma {:induction false} RemoveMembers(ids: seq<string>, id: string, x: string)
    ensures x in Remove(ids, id) <==> x in ids && x != id
  {
    if ids != [] {
      RemoveMembers(ids[..|ids| - 1], id, x);
    }
  }

  lemma {:induction false} DrainCloses(bs: Buffers, ids: seq<string>)
    ensures DrainAll(bs, ids).0.Keys == bs.Keys - set id | id in ids
  {
    if ids != [] {
      DrainCloses(bs, ids[..|ids| - 1]);
      assert ids == ids[..|ids| - 1] + [ids[|ids| - 1]];
    }
  }

  lemma FrameKeepsCover(r: Reader, f: Frame, parseUuid: UuidParser)
    requires Covered(r)
    ensures Covered(OneFrame(r, f, parseUuid).reader)
  {
    match f
    case Observed =>
    case Assistant(m, blocks, stopped) =>
      var s := OneFrame(r, f, parseUuid).reader;
      BlocksTouchOneMessage(Pass(r.buffers, r.names, [], [], []), m, blocks, parseUuid);
      forall id | id in s.buffers ensures id in s.active {
        RemoveMembers(if m in r.active then r.active else r.active + [m], m, id);
      }
    case TurnResult(_) => DrainCloses(r.buffers, r.active);
  }

  // ---------- whole runs ----------

  /** A run's reader, the log its batches make, what it dropped, and the log as it
      would be with the dropped events in place. */
  datatype History = History(reader: Reader, log: seq<SessionEvent>, lost: seq<SessionEvent>, whole: seq<SessionEvent>)

  /** A frame, and the turn the writer publishes in `open` before it, if any. */
  datatype Input = Input(published: Option<TurnId>, frame: Frame)

  /** The reader as a frame finds it. */
  function Published(r: Reader, input: Input): Reader {
    if input.published.Some? then r.(open := input.published) else r
  }

  function After(inputs: seq<Input>, parseUuid: UuidParser): History {
    if inputs == [] then History(Reader(map[], [], map[], None), [], [], [])
    else
      var h := After(inputs[..|inputs| - 1], parseUuid);
      var last := inputs[|inputs| - 1];
      var s := OneFrame(Published(h.reader, last), last.frame, parseUuid);
      History(s.reader, h.log + s.batch, h.lost + s.lost, h.whole + (s.lost + s.batch))
  }

  function PushedIn(inputs: seq<Input>, id: string): string {
    if inputs == [] then "" else PushedIn(inputs[..|inputs| - 1], id) + PushedBy(inputs[|inputs| - 1].frame, id)
  }

  lemma {:induction false} RunKeepsLedger(inputs: seq<Input>, parseUuid: UuidParser, id: string)
    ensures var h := After(inputs, parseUuid);
            Ledger(h.reader.buffers, h.whole, id, PushedIn(inputs, id)) && Covered(h.reader)
  {
    if inputs != [] {
      var front, last := inputs[..|inputs| - 1], inputs[|inputs| - 1];
      RunKeepsLedger(front, parseUuid, id);
      var h := After(front, parseUuid);
      var r := Published(h.reader, last);
      FrameKeepsLedger(r, h.whole, last.frame, parseUuid, id, PushedIn(front, id));
      FrameKeepsCover(r, last.frame, parseUuid);
    }
  }

  lemma {:induction false} TextSplits(a: seq<SessionEvent>, b: seq<SessionEvent>, id: string)
    ensures TextOf(a + b, id) == TextOf(a, id) + TextOf(b, id)
  {
    if b == [] {
      assert a + b == a;
      assert TextOf(a, id) + "" == TextOf(a, id);
    } else {
      var front, last := b[..|b| - 1], b[|b| - 1];
      TextSplits(a, front, id);
      Appended(a + front, last, id);
      assert a + b == (a + front) + [last];
      Associative(TextOf(a, id), TextOf(front, id), if Of(last, id) then last.deltaText else "");
    }
  }

  lemma {:induction false} LostTextIsMissing(inputs: seq<Input>, parseUuid: UuidParser, id: string)
    ensures var h := After(inputs, parseUuid);
            && |TextOf(h.whole, id)| == |TextOf(h.log, id)| + |TextOf(h.lost, id)|
            && (h.lost == [] ==> h.whole == h.log)
  {
    if inputs != [] {
      var front, last := inputs[..|inputs| - 1], inputs[|inputs| - 1];
      LostTextIsMissing(front, parseUuid, id);
      var h := After(front, parseUuid);
      var s := OneFrame(Published(h.reader, last), last.frame, parseUuid);
      LengthsAdd(h, s.lost, s.batch, id);
      if h.lost + s.lost == [] {
        NothingLost(h.lost, s.lost, s.batch);
      }
    }
  }

  lemma LengthsAdd(h: History, lost: seq<SessionEvent>, batch: seq<SessionEvent>, id: string)
    requires |TextOf(h.whole, id)| == |TextOf(h.log, id)| + |TextOf(h.lost, id)|
    ensures |TextOf(h.whole + (lost + batch), id)| == |TextOf(h.log + batch, id)| + |TextOf(h.lost + lost, id)|
  {
    TextSplits(h.log, batch, id);
    TextSplits(h.lost, lost, id);
    TextSplits(h.whole, lost + batch, id);
    TextSplits(lost, batch, id);
  }

  lemma NothingLost(a: seq<SessionEvent>, b: seq<SessionEvent>, batch: seq<SessionEvent>)
    requires a + b == []
    ensures a == [] && b + batch == batch
  {
    assert |a| + |b| == |a + b|;
  }

  // ---------- batches ----------

  function SpilledIn(events: seq<SessionEvent>): seq<string> {
    if events == [] then []
    else
      var e := events[|events| - 1];
      SpilledIn(events[..|events| - 1]) + if e.ToolResult? && e.spilled then [e.toolUseId] else []
  }

  predicate FollowsResult(events: seq<SessionEvent>, k: nat)
    requires k < |events|
  {
    k > 0 && events[k - 1].ToolResult? && !events[k - 1].isError
  }

  predicate CheckpointsFollowResults(events: seq<SessionEvent>) {
    forall k :: 0 <= k < |events| && events[k].CheckpointReached? ==> FollowsResult(events, k)
  }

  /** What every batch looks like: a blob for each spilled result, in order and for
      nothing else, even when a malformed id has cleared both; each checkpoint right
      behind the successful result it was read from; and only events a frame may log. */
  predicate BatchShape(events: seq<SessionEvent>, blobs: seq<string>) {
    && SpilledIn(events) == blobs
    && CheckpointsFollowResults(events)
    && TurnProtocol.AllFrame(events)
  }

  lemma AppendKeepsShape(events: seq<SessionEvent>, blobs: seq<string>, e: SessionEvent)
    requires BatchShape(events, blobs) && TurnProtocol.FrameEvent(e)
    requires e.CheckpointReached? ==> |events| > 0 && events[|events| - 1].ToolResult? && !events[|events| - 1].isError
    ensures BatchShape(events + [e], blobs + if e.ToolResult? && e.spilled then [e.toolUseId] else [])
  {
    var grown := events + [e];
    assert grown[..|events|] == events;
    forall k | 0 <= k < |grown| && grown[k].CheckpointReached? ensures FollowsResult(grown, k) {
      if k < |events| {
        assert FollowsResult(events, k);
      }
    }
  }

  lemma OutputKeepsShape(p: Pass, b: Block, parseUuid: UuidParser)
    requires IsOutput(b) && BatchShape(p.events, p.blobs)
    ensures BatchShape(OneOutput(p, b, parseUuid).events, OneOutput(p, b, parseUuid).blobs)
  {
    var result := ToolResult(b.useId, Spills(b), b.isError);
    var blobs := p.blobs + if Spills(b) then [b.useId] else [];
    AppendKeepsShape(p.events, p.blobs, result);
    match DerivedFrom(b, p.names, parseUuid)
    case Absent =>
    case Checkpoint(event) =>
      AppendKeepsShape(p.events + [result], blobs, event);
      assert blobs + [] == blobs;
    case Malformed(reason) =>
      AppendKeepsShape([], [], SessionCrashed(reason));
      assert [] + [SessionCrashed(reason)] == [SessionCrashed(reason)];
  }

  lemma BlockKeepsShape(p: Pass, m: string, b: Block, parseUuid: UuidParser)
    requires BatchShape(p.events, p.blobs)
    ensures BatchShape(OneBlock(p, m, b, parseUuid).events, OneBlock(p, m, b, parseUuid).blobs)
  {
    assert p.blobs + [] == p.blobs && p.events + [] == p.events;
    if b.TextBlock? {
      AppendKeepsShape(p.events, p.blobs, Message(m, Filled(p.buffers, m, b.text, b.at), false));
    } else if b.ToolUse? {
      AppendKeepsShape(p.events, p.blobs, ToolCall(b.id, b.name));
    } else if IsOutput(b) {
      OutputKeepsShape(p, b, parseUuid);
    }
  }

  lemma {:induction false} BlocksKeepShape(p: Pass, m: string, bs: seq<Block>, parseUuid: UuidParser)
    requires BatchShape(p.events, p.blobs)
    ensures BatchShape(Blocks(p, m, bs, parseUuid).events, Blocks(p, m, bs, parseUuid).blobs)
  {
    if bs != [] {
      BlocksKeepShape(p, m, bs[..|bs| - 1], parseUuid);
      BlockKeepsShape(Blocks(p, m, bs[..|bs| - 1], parseUuid), m, bs[|bs| - 1], parseUuid);
    }
  }

  lemma {:induction false} DrainShape(bs: Buffers, ids: seq<string>)
    ensures BatchShape(DrainAll(bs, ids).1, [])
  {
    if ids != [] {
      var before := DrainAll(bs, ids[..|ids| - 1]);
      DrainShape(bs, ids[..|ids| - 1]);
      var id := ids[|ids| - 1];
      if id in before.0 {
        AppendKeepsShape(before.1, [], Message(id, before.0[id], true));
      }
      assert before.1 + [] == before.1;
    }
  }

  /** Every frame's batch is one the turn protocol allows its reader: a frame other
      than `Result` logs no turn end, and a `Result` logs the flushed text and then the
      completion of the turn it took out of `open`, if there was one. */
  lemma FramesObeyTheTurnProtocol(r: Reader, f: Frame, parseUuid: UuidParser)
    ensures var s := OneFrame(r, f, parseUuid);
            && (!f.TurnResult? ==> BatchShape(s.batch, s.blobs) && s.reader.open == r.open)
            && (f.TurnResult?
                ==> exists flushed :: BatchShape(flushed, []) && s.batch == flushed + Completed(r.open, f.stopReason))
  {
    match f
    case Observed =>
    case Assistant(m, blocks, stopped) =>
      BlocksKeepShape(Pass(r.buffers, r.names, [], [], []), m, blocks, parseUuid);
      var p := Blocks(Pass(r.buffers, r.names, [], [], []), m, blocks, parseUuid);
      assert p.blobs + [] == p.blobs && p.events + [] == p.events;
      if stopped && m in p.buffers {
        AppendKeepsShape(p.events, p.blobs, Message(m, p.buffers[m], true));
      }
    case TurnResult(stopReason) =>
      DrainShape(r.buffers, r.active);
      var flushed := DrainAll(r.buffers, r.active).1;
      assert BatchShape(flushed, []) && OneFrame(r, f, parseUuid).batch == flushed + Completed(r.open, stopReason);
  }

  /** `texts` are the text items of `items`, each once and in order: `places` says where. */
  ghost predicate TextsAt(items: seq<C.Json>, places: seq<nat>, texts: seq<string>) {
    && |places| == |texts|
    && (forall k :: 0 <= k < |places| ==> places[k] < |items| && items[places[k]] == C.Text(texts[k]))
    && (forall j, k :: 0 <= j < k < |places| ==> places[j] < places[k])
    && (forall i: nat :: i < |items| && items[i].Text? ==> i in places)
  }

  ghost predicate AreTheTexts(items: seq<C.Json>, texts: seq<string>) {
    exists places :: TextsAt(items, places, texts)
  }

  /** The options of a content, if it has any. */
  function OptionItems(content: C.Json): seq<C.Json> {
    if content.Object? && "options" in content.fields && content.fields["options"].Array?
    then content.fields["options"].items else []
  }

  /** What a checkpoint says about an interrupt: a question to a human exactly when the
      tool asks for human input and the content has a question, with the content's own
      question and exactly the texts among its options, in their order. */
  lemma CheckpointAsksExactlyWhen(content: C.Json, tool: string, parseUuid: UuidParser)
    requires DeriveCheckpoint(content, tool, parseUuid).Checkpoint?
    ensures var interrupt := DeriveCheckpoint(content, tool, parseUuid).event.interrupt;
            && content.Object?
            && (interrupt.Some? <==>
                  tool == "request_human_input" && "question" in content.fields && content.fields["question"].Text?)
            && (interrupt.Some? ==>
                  && interrupt.value.Hitl? && interrupt.value.question == content.fields["question"].s
                  && AreTheTexts(OptionItems(content), interrupt.value.options))
  {
    TextsAreTheTexts(OptionItems(content));
  }

  lemma {:induction false} TextsAreTheTexts(items: seq<C.Json>)
    ensures AreTheTexts(items, Texts(items))
  {
    if items == [] {
      assert TextsAt(items, [], []);
    } else {
      var n := |items| - 1;
      TextsAreTheTexts(items[..n]);
      assert items == items[..n] + [items[n]];
      OneMore(items[..n], Texts(items[..n]), items[n]);
    }
  }

  lemma OneMore(items: seq<C.Json>, texts: seq<string>, item: C.Json)
    requires AreTheTexts(items, texts)
    ensures AreTheTexts(items + [item], texts + if item.Text? then [item.s] else [])
  {
    var places :| TextsAt(items, places, texts);
    if item.Text? {
      OneTextMore(items, places, texts, item.s);
    } else {
      OneOtherMore(items, places, texts, item);
      assert texts + [] == texts;
    }
  }

  lemma OneTextMore(items: seq<C.Json>, places: seq<nat>, texts: seq<string>, s: string)
    requires TextsAt(items, places, texts)
    ensures TextsAt(items + [C.Text(s)], places + [|items|], texts + [s])
  {
    var all := places + [|items|];
    assert all[|places|] == |items| && forall k :: 0 <= k < |places| ==> all[k] == places[k];
    forall i: nat | i < |items| && items[i].Text? ensures i in all {
      assert i in places;
    }
  }

  lemma OneOtherMore(items: seq<C.Json>, places: seq<nat>, texts: seq<string>, item: C.Json)
    requires TextsAt(items, places, texts) && !item.Text?
    ensures TextsAt(items + [item], places, texts)
  {
  }

  function ToolPart(events: seq<SessionEvent>): seq<SessionEvent> {
    if events == [] then []
    else
      var e := events[|events| - 1];
      ToolPart(events[..|events| - 1]) + if e.ToolCall? || e.ToolResult? then [e] else []
  }

  function Tools(b: Block): seq<SessionEvent> {
    if b.ToolUse? then [ToolCall(b.id, b.name)]
    else if IsOutput(b) then [ToolResult(b.useId, b.output.size > 262144, b.isError)]
    else []
  }

  /** A frame's tool calls and results, as its blocks give them. */
  function ToolsOf(bs: seq<Block>): seq<SessionEvent> {
    if bs == [] then [] else ToolsOf(bs[..|bs| - 1]) + Tools(bs[|bs| - 1])
  }

  lemma {:induction false} ToolPartSplits(a: seq<SessionEvent>, b: seq<SessionEvent>)
    ensures ToolPart(a + b) == ToolPart(a) + ToolPart(b)
  {
    if b == [] {
      assert a + b == a;
    } else {
      ToolPartSplits(a, b[..|b| - 1]);
      assert (a + b)[..|a + b| - 1] == a + b[..|b| - 1];
    }
  }

  lemma ToolPartSnoc(events: seq<SessionEvent>, e: SessionEvent)
    ensures ToolPart(events + [e]) == ToolPart(events) + if e.ToolCall? || e.ToolResult? then [e] else []
  {
    assert (events + [e])[..|events|] == events;
  }

  /** The tool events a frame has given so far, dropped ones first. */
  function ToolLog(p: Pass): seq<SessionEvent> {
    ToolPart(p.lost) + ToolPart(p.events)
  }

  lemma ToolLogGrows(p: Pass, q: Pass, t: seq<SessionEvent>)
    requires q.lost == p.lost && ToolPart(q.events) == ToolPart(p.events) + t
    ensures ToolLog(q) == ToolLog(p) + t
  {
  }

  lemma ToolLogDrops(p: Pass, q: Pass, grown: seq<SessionEvent>, t: seq<SessionEvent>)
    requires q.lost == p.lost + grown && ToolPart(q.events) == [] && ToolPart(grown) == ToolPart(p.events) + t
    ensures ToolLog(q) == ToolLog(p) + t
  {
    ToolPartSplits(p.lost, grown);
  }

  lemma OutputLogsItsTool(p: Pass, b: Block, parseUuid: UuidParser)
    requires IsOutput(b)
    ensures ToolLog(OneOutput(p, b, parseUuid)) == ToolLog(p) + Tools(b)
  {
    var q := OneOutput(p, b, parseUuid);
    var grown := p.events + [ToolResult(b.useId, Spills(b), b.isError)];
    ToolPartSnoc(p.events, grown[|p.events|]);
    match DerivedFrom(b, p.names, parseUuid)
    case Absent => ToolLogGrows(p, q, Tools(b));
    case Checkpoint(event) =>
      ToolPartSnoc(grown, event);
      ToolLogGrows(p, q, Tools(b));
    case Malformed(reason) =>
      ToolPartSnoc([], SessionCrashed(reason));
      assert [] + [SessionCrashed(reason)] == q.events;
      ToolLogDrops(p, q, grown, Tools(b));
  }

  lemma BlockLogsItsTool(p: Pass, m: string, b: Block, parseUuid: UuidParser)
    ensures ToolLog(OneBlock(p, m, b, parseUuid)) == ToolLog(p) + Tools(b)
  {
    var q := OneBlock(p, m, b, parseUuid);
    assert p.events + [] == p.events && ToolPart(p.events) + [] == ToolPart(p.events);
    if b.TextBlock? {
      ToolPartSnoc(p.events, Message(m, Filled(p.buffers, m, b.text, b.at), false));
      ToolLogGrows(p, q, []);
    } else if b.ToolUse? {
      ToolPartSnoc(p.events, ToolCall(b.id, b.name));
      ToolLogGrows(p, q, Tools(b));
    } else if IsOutput(b) {
      OutputLogsItsTool(p, b, parseUuid);
    }
  }

  /** Every tool call and tool result of a frame is logged once, in block order, except
      those a malformed checkpoint id dropped, which come first. */
  lemma {:induction false} ToolEventsAreConserved(p: Pass, m: string, bs: seq<Block>, parseUuid: UuidParser)
    requires p.events == [] && p.lost == []
    ensures ToolLog(Blocks(p, m, bs, parseUuid)) == ToolsOf(bs)
  {
    if bs != [] {
      ToolEventsAreConserved(p, m, bs[..|bs| - 1], parseUuid);
      BlockLogsItsTool(Blocks(p, m, bs[..|bs| - 1], parseUuid), m, bs[|bs| - 1], parseUuid);
    }
  }

  // ---------- what a malformed id costs ----------

  function NoUuid(s: string): Option<nat> {
    None
  }

  lemma BlocksSnoc(p: Pass, m: string, bs: seq<Block>, b: Block, parseUuid: UuidParser)
    ensures Blocks(p, m, bs + [b], parseUuid) == OneBlock(Blocks(p, m, bs, parseUuid), m, b, parseUuid)
  {
    assert (bs + [b])[..|bs|] == bs;
  }

  lemma TwoBlocks(p: Pass, m: string, a: Block, b: Block, parseUuid: UuidParser)
    ensures Blocks(p, m, [a, b], parseUuid) == OneBlock(OneBlock(p, m, a, parseUuid), m, b, parseUuid)
  {
    BlocksSnoc(p, m, [], a, parseUuid);
    BlocksSnoc(p, m, [a], b, parseUuid);
    assert [] + [a] == [a] && [a] + [b] == [a, b];
  }

  lemma TwoPushed(m: string, a: Block, b: Block, id: string)
    ensures Pushed(m, [a, b], id) == Said(m, a, id) + Said(m, b, id)
  {
    assert [a, b][..1] == [a] && [a][..0] == [];
    assert Pushed(m, [a], id) == "" + Said(m, a, id) == Said(m, a, id);
  }

  const USE := ToolUse("u", "serialize_and_persist")
  const BAD := McpOutput("u", Payload(C.Object(map["checkpoint_id" := C.Text("?")]), 0), false)
  const FRAME_A := Assistant("m", [USE, TextBlock("x", 0)], false)
  const FRAME_B := Assistant("m", [TextBlock("y", 250), BAD], false)
  const HALFWAY := Reader(map["m" := Buffer(0, "x", 1, 0)], ["m"], map["u" := "serialize_and_persist"], None)

  const BLANK := Pass(map[], map[], [], [], [])

  lemma XIsBuffered()
    ensures Push(map[], "m", "x", 0) == (HALFWAY.buffers, None)
  {
    assert ByteLen("x") == 1 by {
      assert ByteLen("x"[..0]) == 0;
    }
    var filled := Filled(map[], "m", "x", 0);
    assert "" + "x" == "x";
    assert filled == Buffer(0, "x", 1, 0) && !Full(filled) && !Overdue(filled, 0);
  }

  lemma FrameABlocks()
    ensures Blocks(BLANK, "m", [USE, TextBlock("x", 0)], NoUuid) ==
            Pass(HALFWAY.buffers, HALFWAY.names, [ToolCall("u", "serialize_and_persist")], [], [])
  {
    TwoBlocks(BLANK, "m", USE, TextBlock("x", 0), NoUuid);
    XIsBuffered();
    assert [] + [ToolCall("u", "serialize_and_persist")] + [] == [ToolCall("u", "serialize_and_persist")];
  }

  lemma FrameAKeepsX()
    ensures OneFrame(Reader(map[], [], map[], None), FRAME_A, NoUuid) ==
            Step(HALFWAY, [ToolCall("u", "serialize_and_persist")], [], [])
  {
    FrameABlocks();
    assert [] + ["m"] == ["m"];
  }

  lemma YFlushes()
    ensures Push(HALFWAY.buffers, "m", "y", 250).0 == HALFWAY.buffers["m" := Buffer(1, "", 0, 250)]
  {
    assert Overdue(Filled(HALFWAY.buffers, "m", "y", 250), 250);
  }

  lemma BadClears(p: Pass)
    requires "u" in p.names && p.names["u"] == "serialize_and_persist"
    ensures OneBlock(p, "m", BAD, NoUuid).events == [SessionCrashed("?")]
    ensures OneBlock(p, "m", BAD, NoUuid).buffers == p.buffers
  {
    assert DerivedFrom(BAD, p.names, NoUuid) == Malformed("?");
  }

  lemma FrameBDropsIt()
    ensures var s := OneFrame(HALFWAY, FRAME_B, NoUuid);
            s.batch == [SessionCrashed("?")] && Pending(s.reader.buffers, "m") == ""
  {
    var start := Pass(HALFWAY.buffers, HALFWAY.names, [], [], []);
    TwoBlocks(start, "m", TextBlock("y", 250), BAD, NoUuid);
    YFlushes();
    BadClears(OneBlock(start, "m", TextBlock("y", 250), NoUuid));
  }

  lemma PushedXY()
    ensures PushedIn([Input(None, FRAME_A), Input(None, FRAME_B)], "m") == "xy"
  {
    var first, second := Input(None, FRAME_A), Input(None, FRAME_B);
    assert [first, second][..1] == [first] && [first][..0] == [];
    TwoPushed("m", USE, TextBlock("x", 0), "m");
    TwoPushed("m", TextBlock("y", 250), BAD, "m");
    assert PushedBy(FRAME_A, "m") == "" + "x" == "x";
    assert PushedBy(FRAME_B, "m") == "y" + "" == "y";
    assert PushedIn([first], "m") == "" + "x" == "x";
    assert "x" + "y" == "xy";
  }

  lemma AfterOne()
    ensures After([Input(None, FRAME_A)], NoUuid).reader == HALFWAY
    ensures TextOf(After([Input(None, FRAME_A)], NoUuid).log, "m") == ""
  {
    var first, call := Input(None, FRAME_A), ToolCall("u", "serialize_and_persist");
    assert [first][..0] == [];
    FrameAKeepsX();
    assert After([first], NoUuid).log == [] + [call];
    Appended([], call, "m");
  }

  /** A flush in the frame that carries a malformed checkpoint id is gone: the text is
      in no event of the log and no longer pending. */
  lemma MalformedCheckpointDropsText()
    ensures var inputs := [Input(None, FRAME_A), Input(None, FRAME_B)];
            var h := After(inputs, NoUuid);
            && PushedIn(inputs, "m") == "xy"
            && TextOf(h.log, "m") + Pending(h.reader.buffers, "m") == ""
  {
    var first, second := Input(None, FRAME_A), Input(None, FRAME_B);
    assert [first, second][..1] == [first];
    PushedXY();
    AfterOne();
    FrameBDropsIt();
    var log := After([first], NoUuid).log;
    assert After([first, second], NoUuid).log == log + [SessionCrashed("?")];
    Appended(log, SessionCrashed("?"), "m");
  }
}
