/** What a run of frames puts in the log, told from the frames alone: which
    checkpoints are logged, and when text and delta numbering survive. */
module FrameHistory {
  import opened Events
  import opened FrameReader
  import C = Channels

  // ---- tool names ------------------------------------------------------------

  function BlocksOf(f: Frame): seq<Block> {
    if f.Assistant? then f.blocks else []
  }

  /** Every block of every frame so far. */
  function Told(inputs: seq<Input>): seq<Block> {
    if inputs == [] then [] else Told(inputs[..|inputs| - 1]) + BlocksOf(inputs[|inputs| - 1].frame)
  }

  predicate Touches(b: Block, id: string) {
    (b.ToolUse? && b.id == id) || (IsOutput(b) && b.useId == id)
  }

  /** Block `j` is the latest call with this use id, and nothing has answered it. */
  predicate OpenCall(told: seq<Block>, j: nat, id: string) {
    && j < |told| && told[j].ToolUse? && told[j].id == id
    && forall k :: j < k < |told| ==> !Touches(told[k], id)
  }

  /** The tool an answer to `id` would be an answer of. */
  ghost function Caller(told: seq<Block>, id: string): Option<string> {
    if exists j: nat :: OpenCall(told, j, id) then
      var j: nat :| OpenCall(told, j, id);
      Some(told[j].name)
    else None
  }

  ghost predicate NamesMean(names: map<string, string>, told: seq<Block>) {
    forall id :: Caller(told, id) == if id in names then Some(names[id]) else None
  }

  lemma CallerIs(told: seq<Block>, j: nat, id: string)
    requires OpenCall(told, j, id)
    ensures Caller(told, id) == Some(told[j].name)
  {
    forall i: nat | OpenCall(told, i, id) ensures i == j {
      assert Touches(told[i], id) && Touches(told[j], id);
    }
  }

  lemma CallerSnoc(told: seq<Block>, b: Block, id: string)
    ensures Caller(told + [b], id) ==
      if b.ToolUse? && b.id == id then Some(b.name) else if Touches(b, id) then None else Caller(told, id)
  {
    var all, n := told + [b], |told|;
    assert all[n] == b && forall k :: 0 <= k < n ==> all[k] == told[k];
    if b.ToolUse? && b.id == id {
      CallerIs(all, n, id);
    } else if Touches(b, id) {
      forall j: nat ensures !OpenCall(all, j, id) {
        assert j < n ==> Touches(all[n], id);
      }
    } else {
      if j: nat :| OpenCall(told, j, id) {
        assert OpenCall(all, j, id);
        CallerIs(told, j, id);
        CallerIs(all, j, id);
      } else {
        forall j: nat ensures !OpenCall(all, j, id) {
          assert !OpenCall(told, j, id);
        }
      }
    }
  }

  lemma BlockKeepsNames(p: Pass, m: string, b: Block, parseUuid: UuidParser, told: seq<Block>)
    requires NamesMean(p.names, told)
    ensures NamesMean(OneBlock(p, m, b, parseUuid).names, told + [b])
  {
    var names := OneBlock(p, m, b, parseUuid).names;
    forall id ensures Caller(told + [b], id) == if id in names then Some(names[id]) else None {
      CallerSnoc(told, b, id);
    }
  }

  lemma {:induction false} BlocksKeepNames(p: Pass, m: string, bs: seq<Block>, parseUuid: UuidParser, told: seq<Block>)
    requires NamesMean(p.names, told)
    ensures NamesMean(Blocks(p, m, bs, parseUuid).names, told + bs)
  {
    if bs == [] {
      assert told + [] == told;
    } else {
      var front, b := bs[..|bs| - 1], bs[|bs| - 1];
      BlocksKeepNames(p, m, front, parseUuid, told);
      BlockKeepsNames(Blocks(p, m, front, parseUuid), m, b, parseUuid, told + front);
      assert told + bs == (told + front) + [b];
    }
  }

  /** The reader's state before a frame is handled. */
  function Before(inputs: seq<Input>, i: nat, parseUuid: UuidParser): Reader
    requires i < |inputs|
  {
    Published(After(inputs[..i], parseUuid).reader, inputs[i])
  }

  function StartOf(r: Reader): Pass {
    Pass(r.buffers, r.names, [], [], [])
  }

  /** What the tool-name map means: for every use id the name of the latest call with
      that id which nothing has answered yet. */
  lemma {:induction false} NamesMeaning(inputs: seq<Input>, parseUuid: UuidParser)
    ensures NamesMean(After(inputs, parseUuid).reader.names, Told(inputs))
  {
    if inputs == [] {
      forall id ensures Caller([], id) == None {}
    } else {
      var n := |inputs| - 1;
      NamesMeaning(inputs[..n], parseUuid);
      var r, f := Before(inputs, n, parseUuid), inputs[n].frame;
      if f.Assistant? {
        BlocksKeepNames(StartOf(r), f.messageId, f.blocks, parseUuid, Told(inputs[..n]));
      } else {
        assert Told(inputs[..n]) + [] == Told(inputs[..n]);
      }
    }
  }

  // ---- checkpoints -------------------------------------------------------------

  /** A successful answer to a checkpointing tool. */
  ghost predicate AnswersCheckpoint(told: seq<Block>, b: Block) {
    b.McpOutput? && !b.isError
    && (Caller(told, b.useId) == Some("serialize_and_persist") || Caller(told, b.useId) == Some("request_human_input"))
  }

  predicate Parses(content: C.Json, parseUuid: UuidParser) {
    Present(content) && content.fields["checkpoint_id"].Text? && parseUuid(content.fields["checkpoint_id"].s).Some?
  }

  predicate Present(content: C.Json) {
    content.Object? && "checkpoint_id" in content.fields
  }

  /** Its id is there and does not parse: the guard of the branch that clears the frame. */
  ghost predicate MalformedBlock(told: seq<Block>, b: Block, parseUuid: UuidParser) {
    AnswersCheckpoint(told, b) && Present(b.output.content) && !Parses(b.output.content, parseUuid)
  }

  ghost predicate CheckpointBlock(told: seq<Block>, b: Block, parseUuid: UuidParser) {
    AnswersCheckpoint(told, b) && Parses(b.output.content, parseUuid)
  }

  ghost function CheckpointOf(told: seq<Block>, b: Block, parseUuid: UuidParser): SessionEvent
    requires CheckpointBlock(told, b, parseUuid)
  {
    var uuid := parseUuid(b.output.content.fields["checkpoint_id"].s).value;
    var asks := Caller(told, b.useId) == Some("request_human_input");
    CheckpointReached(uuid, if asks then ExtractHitl(b.output.content) else None)
  }

  function WhyMalformed(content: C.Json): string
    requires Present(content)
  {
    var id := content.fields["checkpoint_id"];
    if id.Text? then id.s else "checkpoint_id is not a string"
  }

  lemma DerivedMeaning(names: map<string, string>, told: seq<Block>, b: Block, parseUuid: UuidParser)
    requires NamesMean(names, told)
    ensures DerivedFrom(b, names, parseUuid).Malformed? <==> MalformedBlock(told, b, parseUuid)
    ensures MalformedBlock(told, b, parseUuid)
        ==> DerivedFrom(b, names, parseUuid) == Malformed(WhyMalformed(b.output.content))
    ensures DerivedFrom(b, names, parseUuid).Checkpoint? <==> CheckpointBlock(told, b, parseUuid)
    ensures CheckpointBlock(told, b, parseUuid)
        ==> DerivedFrom(b, names, parseUuid) == Checkpoint(CheckpointOf(told, b, parseUuid))
  {
    if b.McpOutput? {
      assert Caller(told, b.useId) == if b.useId in names then Some(names[b.useId]) else None;
    }
  }

  predicate Signals(e: SessionEvent) {
    e.CheckpointReached? || e.SessionCrashed?
  }

  /** The checkpoints and crashes among a frame's events. */
  function SignalPart(events: seq<SessionEvent>): seq<SessionEvent> {
    if events == [] then []
    else
      var e := events[|events| - 1];
      SignalPart(events[..|events| - 1]) + if Signals(e) then [e] else []
  }

  lemma {:induction false} SignalPartSplits(a: seq<SessionEvent>, b: seq<SessionEvent>)
    ensures SignalPart(a + b) == SignalPart(a) + SignalPart(b)
  {
    if b == [] {
      assert a + b == a;
    } else {
      SignalPartSplits(a, b[..|b| - 1]);
      assert (a + b)[..|a + b| - 1] == a + b[..|b| - 1];
    }
  }

  lemma SignalPartSnoc(events: seq<SessionEvent>, e: SessionEvent)
    ensures SignalPart(events + [e]) == SignalPart(events) + if Signals(e) then [e] else []
  {
    assert (events + [e])[..|events|] == events;
  }

  /** The checkpoints and crashes one frame logs: a crash for the last malformed id, if
      there is one, and the checkpoints of the blocks after it. */
  ghost function FrameSignals(told: seq<Block>, bs: seq<Block>, parseUuid: UuidParser): seq<SessionEvent> {
    if bs == [] then []
    else
      var front, b := bs[..|bs| - 1], bs[|bs| - 1];
      if MalformedBlock(told + front, b, parseUuid) then [SessionCrashed(WhyMalformed(b.output.content))]
      else
        FrameSignals(told, front, parseUuid)
        + if CheckpointBlock(told + front, b, parseUuid) then [CheckpointOf(told + front, b, parseUuid)] else []
  }

  lemma OutputSignals(p: Pass, b: Block, parseUuid: UuidParser, told: seq<Block>)
    requires IsOutput(b) && NamesMean(p.names, told)
    ensures SignalPart(OneOutput(p, b, parseUuid).events) ==
      if MalformedBlock(told, b, parseUuid) then [SessionCrashed(WhyMalformed(b.output.content))]
      else SignalPart(p.events) + if CheckpointBlock(told, b, parseUuid) then [CheckpointOf(told, b, parseUuid)]
          else []
  {
    DerivedMeaning(p.names, told, b, parseUuid);
    var result := ToolResult(b.useId, Spills(b), b.isError);
    SignalPartSnoc(p.events, result);
    match DerivedFrom(b, p.names, parseUuid)
    case Absent =>
    case Checkpoint(event) => SignalPartSnoc(p.events + [result], event);
    case Malformed(reason) =>
      SignalPartSnoc([], SessionCrashed(reason));
      assert [] + [SessionCrashed(reason)] == [SessionCrashed(reason)];
  }

  lemma BlockSignals(p: Pass, m: string, b: Block, parseUuid: UuidParser, told: seq<Block>)
    requires NamesMean(p.names, told)
    ensures SignalPart(OneBlock(p, m, b, parseUuid).events) ==
      if MalformedBlock(told, b, parseUuid) then [SessionCrashed(WhyMalformed(b.output.content))]
      else SignalPart(p.events) + if CheckpointBlock(told, b, parseUuid) then [CheckpointOf(told, b, parseUuid)]
          else []
  {
    if IsOutput(b) {
      OutputSignals(p, b, parseUuid, told);
    } else if b.TextBlock? {
      SignalPartSnoc(p.events, Message(m, Filled(p.buffers, m, b.text, b.at), false));
      assert p.events + [] == p.events;
    } else if b.ToolUse? {
      SignalPartSnoc(p.events, ToolCall(b.id, b.name));
    }
  }

  lemma {:induction false} BlocksSignal(p: Pass, m: string, bs: seq<Block>, parseUuid: UuidParser,
      told: seq<Block>)
    requires NamesMean(p.names, told) && p.events == []
    ensures SignalPart(Blocks(p, m, bs, parseUuid).events) == FrameSignals(told, bs, parseUuid)
  {
    if bs != [] {
      var front, b := bs[..|bs| - 1], bs[|bs| - 1];
      BlocksSignal(p, m, front, parseUuid, told);
      BlocksKeepNames(p, m, front, parseUuid, told);
      BlockSignals(Blocks(p, m, front, parseUuid), m, b, parseUuid, told + front);
    }
  }

  /** The checkpoints and crashes a run logs. */
  ghost function RunSignals(inputs: seq<Input>, parseUuid: UuidParser): seq<SessionEvent> {
    if inputs == [] then []
    else
      var n := |inputs| - 1;
      RunSignals(inputs[..n], parseUuid) + FrameSignals(Told(inputs[..n]), BlocksOf(inputs[n].frame), parseUuid)
  }

  lemma CloseHasNoSignal(bs: Buffers, id: string)
    ensures SignalPart(Listed(Close(bs, id).1)) == []
  {
    if id in bs {
      SignalPartSnoc([], Message(id, bs[id], true));
      assert [] + [Message(id, bs[id], true)] == [Message(id, bs[id], true)];
    }
  }

  lemma {:induction false} DrainHasNoSignal(bs: Buffers, ids: seq<string>)
    ensures SignalPart(DrainAll(bs, ids).1) == []
  {
    if ids != [] {
      var before := DrainAll(bs, ids[..|ids| - 1]);
      DrainHasNoSignal(bs, ids[..|ids| - 1]);
      CloseHasNoSignal(before.0, ids[|ids| - 1]);
      SignalPartSplits(before.1, Listed(Close(before.0, ids[|ids| - 1]).1));
    }
  }

  lemma FrameLogsSignals(r: Reader, f: Frame, parseUuid: UuidParser, told: seq<Block>)
    requires NamesMean(r.names, told)
    ensures SignalPart(OneFrame(r, f, parseUuid).batch) == FrameSignals(told, BlocksOf(f), parseUuid)
  {
    if f.Assistant? {
      BlocksSignal(StartOf(r), f.messageId, f.blocks, parseUuid, told);
      var p := Blocks(StartOf(r), f.messageId, f.blocks, parseUuid);
      if f.stopped {
        CloseHasNoSignal(p.buffers, f.messageId);
        SignalPartSplits(p.events, Listed(Close(p.buffers, f.messageId).1));
      }
    } else if f.TurnResult? {
      ResultHasNoSignal(r, f.stopReason);
    }
  }

  lemma ResultHasNoSignal(r: Reader, stopReason: Option<string>)
    ensures SignalPart(DrainAll(r.buffers, r.active).1 + Completed(r.open, stopReason)) == []
  {
    var flushed, ending := DrainAll(r.buffers, r.active).1, Completed(r.open, stopReason);
    DrainHasNoSignal(r.buffers, r.active);
    if r.open.Some? {
      SignalPartSnoc(flushed, ending[0]);
    } else {
      assert flushed + [] == flushed;
    }
  }

  /** Over every run the log's checkpoints are, in order, those of the MCP results that
      answer successfully the latest unanswered call of `serialize_and_persist` or of
      `request_human_input` with an id that parses, except those a malformed id later in
      the same frame has cleared and recorded as a crash. */
  lemma {:induction false} CheckpointExactlyWhen(inputs: seq<Input>, parseUuid: UuidParser)
    ensures SignalPart(After(inputs, parseUuid).log) == RunSignals(inputs, parseUuid)
  {
    if inputs != [] {
      var n := |inputs| - 1;
      CheckpointExactlyWhen(inputs[..n], parseUuid);
      NamesMeaning(inputs[..n], parseUuid);
      var r := Before(inputs, n, parseUuid);
      FrameLogsSignals(r, inputs[n].frame, parseUuid, Told(inputs[..n]));
      SignalPartSplits(After(inputs[..n], parseUuid).log, OneFrame(r, inputs[n].frame, parseUuid).batch);
    }
  }

  // ---- what a malformed id drops -------------------------------------------------

  function MessageCount(events: seq<SessionEvent>, id: string): nat {
    if events == [] then 0
    else MessageCount(events[..|events| - 1], id) + if Of(events[|events| - 1], id) then 1 else 0
  }

  lemma {:induction false} MessagesSplit(a: seq<SessionEvent>, b: seq<SessionEvent>, id: string)
    ensures MessageCount(a + b, id) == MessageCount(a, id) + MessageCount(b, id)
  {
    if b == [] {
      assert a + b == a;
    } else {
      MessagesSplit(a, b[..|b| - 1], id);
      assert (a + b)[..|a + b| - 1] == a + b[..|b| - 1];
    }
  }

  /** `events` hold text of the message, or any delta of it at all. */
  datatype Loss = OfText | OfDeltas

  predicate Holds(events: seq<SessionEvent>, id: string, what: Loss) {
    if what.OfText? then TextOf(events, id) != "" else MessageCount(events, id) > 0
  }

  lemma HoldsSplits(a: seq<SessionEvent>, b: seq<SessionEvent>, id: string, what: Loss)
    ensures Holds(a + b, id, what) <==> Holds(a, id, what) || Holds(b, id, what)
  {
    TextSplits(a, b, id);
    MessagesSplit(a, b, id);
  }

  /** Block `k` of a frame meets the malformed guard while the frame's events so far hold
      something of the message. */
  ghost predicate Drops(start: Pass, told: seq<Block>, m: string, bs: seq<Block>, k: nat, parseUuid: UuidParser,
      id: string, what: Loss)
    requires k < |bs|
  {
    MalformedBlock(told + bs[..k], bs[k], parseUuid) && Holds(Blocks(start, m, bs[..k], parseUuid).events, id, what)
  }

  lemma LostGrows(p: Pass, m: string, b: Block, parseUuid: UuidParser, told: seq<Block>, id: string, what: Loss)
    requires NamesMean(p.names, told)
    ensures Holds(OneBlock(p, m, b, parseUuid).lost, id, what) <==>
      Holds(p.lost, id, what) || (MalformedBlock(told, b, parseUuid) && Holds(p.events, id, what))
  {
    DerivedMeaning(p.names, told, b, parseUuid);
    if MalformedBlock(told, b, parseUuid) {
      var result := [ToolResult(b.useId, Spills(b), b.isError)];
      HoldsSplits(p.events, result, id, what);
      HoldsSplits(p.lost, p.events + result, id, what);
      assert result[..0] == [];
    }
  }

  ghost predicate DropsSome(start: Pass, told: seq<Block>, m: string, bs: seq<Block>, parseUuid: UuidParser,
      id: string, what: Loss) {
    exists k: nat :: k < |bs| && Drops(start, told, m, bs, k, parseUuid, id, what)
  }

  lemma DropsSnoc(start: Pass, told: seq<Block>, m: string, bs: seq<Block>, parseUuid: UuidParser, id: string,
      what: Loss)
    requires bs != []
    ensures DropsSome(start, told, m, bs, parseUuid, id, what) <==>
      DropsSome(start, told, m, bs[..|bs| - 1], parseUuid, id, what)
          || Drops(start, told, m, bs, |bs| - 1, parseUuid, id, what)
  {
    var n := |bs| - 1;
    var front := bs[..n];
    forall k: nat | k < n
        ensures Drops(start, told, m, bs, k, parseUuid, id, what)
            <==> Drops(start, told, m, front, k, parseUuid, id, what) {
      assert bs[..k] == front[..k];
    }
    if k: nat :| k < n && Drops(start, told, m, front, k, parseUuid, id, what) {
      assert Drops(start, told, m, bs, k, parseUuid, id, what);
    }
  }

  lemma {:induction false} FrameDrops(start: Pass, m: string, bs: seq<Block>, parseUuid: UuidParser, told: seq<Block>,
      id: string, what: Loss)
    requires NamesMean(start.names, told) && start.lost == []
    ensures Holds(Blocks(start, m, bs, parseUuid).lost, id, what)
        <==> DropsSome(start, told, m, bs, parseUuid, id, what)
  {
    if bs != [] {
      var front, b := bs[..|bs| - 1], bs[|bs| - 1];
      FrameDrops(start, m, front, parseUuid, told, id, what);
      BlocksKeepNames(start, m, front, parseUuid, told);
      LostGrows(Blocks(start, m, front, parseUuid), m, b, parseUuid, told + front, id, what);
      DropsSnoc(start, told, m, bs, parseUuid, id, what);
    }
  }

  /** Block `k` of frame `i` of a run. */
  ghost predicate DropsAt(inputs: seq<Input>, i: nat, k: nat, parseUuid: UuidParser, id: string, what: Loss) {
    && i < |inputs| && inputs[i].frame.Assistant? && k < |inputs[i].frame.blocks|
    && Drops(StartOf(Before(inputs, i, parseUuid)), Told(inputs[..i]), inputs[i].frame.messageId,
        inputs[i].frame.blocks, k, parseUuid, id, what)
  }

  ghost predicate NothingDropped(inputs: seq<Input>, parseUuid: UuidParser, id: string, what: Loss) {
    forall i: nat, k: nat :: !DropsAt(inputs, i, k, parseUuid, id, what)
  }

  lemma DropsInPrefix(inputs: seq<Input>, i: nat, k: nat, parseUuid: UuidParser, id: string, what: Loss)
    requires inputs != [] && i < |inputs| - 1
    ensures DropsAt(inputs, i, k, parseUuid, id, what) <==> DropsAt(inputs[..|inputs| - 1], i, k, parseUuid, id, what)
  {
    assert inputs[..|inputs| - 1][..i] == inputs[..i];
  }

  lemma LastFrameDrops(inputs: seq<Input>, parseUuid: UuidParser, id: string, what: Loss)
    requires inputs != []
    ensures var n := |inputs| - 1;
      Holds(OneFrame(Before(inputs, n, parseUuid), inputs[n].frame, parseUuid).lost, id, what)
      <==> LastDrops(inputs, parseUuid, id, what)
  {
    var n := |inputs| - 1;
    var f, r := inputs[n].frame, Before(inputs, n, parseUuid);
    NamesMeaning(inputs[..n], parseUuid);
    if f.Assistant? {
      FrameDrops(StartOf(r), f.messageId, f.blocks, parseUuid, Told(inputs[..n]), id, what);
      forall k: nat ensures DropsAt(inputs, n, k, parseUuid, id, what) <==>
        k < |f.blocks| && Drops(StartOf(r), Told(inputs[..n]), f.messageId, f.blocks, k, parseUuid, id, what) {}
    }
  }

  ghost predicate LastDrops(inputs: seq<Input>, parseUuid: UuidParser, id: string, what: Loss)
    requires inputs != []
  {
    var n := |inputs| - 1;
    exists k: nat :: DropsAt(inputs, n, k, parseUuid, id, what)
  }

  lemma NothingDroppedBefore(inputs: seq<Input>, parseUuid: UuidParser, id: string, what: Loss)
    requires inputs != [] && NothingDropped(inputs, parseUuid, id, what)
    ensures NothingDropped(inputs[..|inputs| - 1], parseUuid, id, what) && !LastDrops(inputs, parseUuid, id, what)
  {
    var front := inputs[..|inputs| - 1];
    forall i: nat, k: nat ensures !DropsAt(front, i, k, parseUuid, id, what) {
      if i < |front| {
        DropsInPrefix(inputs, i, k, parseUuid, id, what);
      }
    }
  }

  lemma NothingDroppedSnoc(inputs: seq<Input>, parseUuid: UuidParser, id: string, what: Loss)
    requires inputs != []
    requires NothingDropped(inputs[..|inputs| - 1], parseUuid, id, what) && !LastDrops(inputs, parseUuid, id, what)
    ensures NothingDropped(inputs, parseUuid, id, what)
  {
    forall i: nat, k: nat ensures !DropsAt(inputs, i, k, parseUuid, id, what) {
      if i < |inputs| - 1 {
        DropsInPrefix(inputs, i, k, parseUuid, id, what);
      }
    }
  }

  /** The events a run has dropped hold nothing of a message if and only if no block of any
      of its frames dropped anything of it. */
  lemma {:induction false} LostExactly(inputs: seq<Input>, parseUuid: UuidParser, id: string, what: Loss)
    ensures Holds(After(inputs, parseUuid).lost, id, what) <==> !NothingDropped(inputs, parseUuid, id, what)
  {
    if inputs != [] {
      var n := |inputs| - 1;
      LostExactly(inputs[..n], parseUuid, id, what);
      LastFrameDrops(inputs, parseUuid, id, what);
      if NothingDropped(inputs, parseUuid, id, what) {
        NothingDroppedBefore(inputs, parseUuid, id, what);
      } else if NothingDropped(inputs[..n], parseUuid, id, what) && !LastDrops(inputs, parseUuid, id, what) {
        NothingDroppedSnoc(inputs, parseUuid, id, what);
      }
      HoldsSplits(After(inputs[..n], parseUuid).lost,
          OneFrame(Before(inputs, n, parseUuid), inputs[n].frame, parseUuid).lost, id, what);
    }
  }

  // ---- text ------------------------------------------------------------------------

  /** Coalescing conserves text over every run: a message's deltas in the log, followed by
      what is pending for it, are what was pushed if and only if no block of any frame met
      the malformed guard while the frame's events so far held text of the message. */
  lemma TextIsConserved(inputs: seq<Input>, parseUuid: UuidParser, id: string)
    ensures var h := After(inputs, parseUuid);
      TextOf(h.log, id) + Pending(h.reader.buffers, id) == PushedIn(inputs, id)
      <==> NothingDropped(inputs, parseUuid, id, OfText)
  {
    var h := After(inputs, parseUuid);
    RunKeepsLedger(inputs, parseUuid, id);
    LostTextIsMissing(inputs, parseUuid, id);
    LostExactly(inputs, parseUuid, id, OfText);
    if TextOf(h.lost, id) == "" {
      TextWithoutLost(inputs, parseUuid, id);
    }
  }

  lemma {:induction false} TextWithoutLost(inputs: seq<Input>, parseUuid: UuidParser, id: string)
    requires TextOf(After(inputs, parseUuid).lost, id) == ""
    ensures TextOf(After(inputs, parseUuid).whole, id) == TextOf(After(inputs, parseUuid).log, id)
  {
    if inputs != [] {
      var n := |inputs| - 1;
      var h := After(inputs[..n], parseUuid);
      var s := OneFrame(Before(inputs, n, parseUuid), inputs[n].frame, parseUuid);
      TextSplits(h.lost, s.lost, id);
      assert |TextOf(h.lost, id)| == 0 && |TextOf(s.lost, id)| == 0;
      TextWithoutLost(inputs[..n], parseUuid, id);
      TextSplits(h.log, s.batch, id);
      TextSplits(h.whole, s.lost + s.batch, id);
      TextSplits(s.lost, s.batch, id);
      assert "" + TextOf(s.batch, id) == TextOf(s.batch, id);
    }
  }

  /** Block `k` of frame `i` meets the malformed guard. */
  ghost predicate MalformedAt(inputs: seq<Input>, i: nat, k: nat, parseUuid: UuidParser) {
    && i < |inputs| && k < |BlocksOf(inputs[i].frame)|
    && MalformedBlock(Told(inputs[..i]) + BlocksOf(inputs[i].frame)[..k], BlocksOf(inputs[i].frame)[k], parseUuid)
  }

  ghost predicate WellFormed(inputs: seq<Input>, parseUuid: UuidParser) {
    forall i: nat, k: nat :: !MalformedAt(inputs, i, k, parseUuid)
  }

  lemma {:induction false} FrameLosesNothing(p: Pass, m: string, bs: seq<Block>, parseUuid: UuidParser,
      told: seq<Block>)
    requires NamesMean(p.names, told) && p.lost == []
    requires forall k: nat :: k < |bs| ==> !MalformedBlock(told + bs[..k], bs[k], parseUuid)
    ensures Blocks(p, m, bs, parseUuid).lost == []
  {
    if bs != [] {
      var front, b := bs[..|bs| - 1], bs[|bs| - 1];
      forall k: nat | k < |front| ensures !MalformedBlock(told + front[..k], front[k], parseUuid) {
        assert front[..k] == bs[..k] && front[k] == bs[k];
      }
      FrameLosesNothing(p, m, front, parseUuid, told);
      BlocksKeepNames(p, m, front, parseUuid, told);
      DerivedMeaning(Blocks(p, m, front, parseUuid).names, told + front, b, parseUuid);
    }
  }

  lemma WellFormedBefore(inputs: seq<Input>, parseUuid: UuidParser)
    requires inputs != [] && WellFormed(inputs, parseUuid)
    ensures WellFormed(inputs[..|inputs| - 1], parseUuid)
  {
    var front := inputs[..|inputs| - 1];
    forall i: nat, k: nat ensures !MalformedAt(front, i, k, parseUuid) {
      if i < |front| {
        assert front[..i] == inputs[..i];
        assert !MalformedAt(inputs, i, k, parseUuid);
      }
    }
  }

  /** A run none of whose blocks has a malformed id drops nothing at all. */
  lemma {:induction false} WellFormedRunsLoseNothing(inputs: seq<Input>, parseUuid: UuidParser)
    requires WellFormed(inputs, parseUuid)
    ensures After(inputs, parseUuid).lost == []
  {
    if inputs != [] {
      var n := |inputs| - 1;
      var f := inputs[n].frame;
      WellFormedBefore(inputs, parseUuid);
      WellFormedRunsLoseNothing(inputs[..n], parseUuid);
      NamesMeaning(inputs[..n], parseUuid);
      if f.Assistant? {
        forall k: nat | k < |f.blocks|
            ensures !MalformedBlock(Told(inputs[..n]) + f.blocks[..k], f.blocks[k], parseUuid) {
          assert !MalformedAt(inputs, n, k, parseUuid);
        }
        FrameLosesNothing(StartOf(Before(inputs, n, parseUuid)), f.messageId, f.blocks, parseUuid, Told(inputs[..n]));
      }
    }
  }

  // ---- numbering -----------------------------------------------------------------------

  /** The index a buffer's next delta will carry. */
  function IndexOf(bs: Buffers, id: string): nat {
    if id in bs then bs[id].seqInMessage else 0
  }

  /** The log's deltas of a message are numbered 0, 1, 2, ... up to each final one, and the
      buffer goes on from there. */
  predicate Synced(log: seq<SessionEvent>, bs: Buffers, id: string) {
    Numbered(log, id) && NextIndex(log, id) == IndexOf(bs, id)
  }

  /** A log that lacks deltas is never ahead of the buffer. */
  predicate NotAhead(log: seq<SessionEvent>, bs: Buffers, id: string) {
    Numbered(log, id) ==> NextIndex(log, id) <= IndexOf(bs, id)
  }

  lemma PushSyncs(log: seq<SessionEvent>, bs: Buffers, m: string, text: string, now: nat, id: string)
    ensures var r := Push(bs, m, text, now);
      && (Synced(log + Listed(r.1), r.0, id) <==> Synced(log, bs, id))
      && (NotAhead(log, bs, id) ==> NotAhead(log + Listed(r.1), r.0, id))
      && IndexOf(r.0, id) == IndexOf(bs, id) + MessageCount(Listed(r.1), id)
  {
    var e := Message(m, Filled(bs, m, text, now), false);
    Appended(log, e, id);
    assert log + [] == log;
    assert [e][..0] == [];
  }

  lemma CloseSyncs(log: seq<SessionEvent>, bs: Buffers, m: string, id: string)
    ensures var r := Close(bs, m);
      && (Synced(log + Listed(r.1), r.0, id) <==> Synced(log, bs, id))
      && (NotAhead(log, bs, id) ==> NotAhead(log + Listed(r.1), r.0, id))
  {
    if m in bs {
      Appended(log, Message(m, bs[m], true), id);
    }
    assert log + [] == log;
  }

  lemma OtherSyncs(log: seq<SessionEvent>, bs: Buffers, e: SessionEvent, id: string)
    requires !e.AssistantMessage?
    ensures Synced(log + [e], bs, id) <==> Synced(log, bs, id)
    ensures NotAhead(log, bs, id) ==> NotAhead(log + [e], bs, id)
  {
    Appended(log, e, id);
  }

  /** A frame in progress on top of a log: the buffer has moved on by every delta of the
      frame, logged or dropped, and the log is in step exactly while none was dropped. */
  predicate InStep(base: seq<SessionEvent>, start: Buffers, p: Pass, id: string) {
    && IndexOf(p.buffers, id) == IndexOf(start, id) + MessageCount(p.lost, id) + MessageCount(p.events, id)
    && (Synced(base + p.events, p.buffers, id) <==> Synced(base, start, id) && MessageCount(p.lost, id) == 0)
    && NotAhead(base + p.events, p.buffers, id)
  }

  lemma CountOne(events: seq<SessionEvent>, e: SessionEvent, id: string)
    ensures MessageCount(events + [e], id) == MessageCount(events, id) + if Of(e, id) then 1 else 0
  {
    assert (events + [e])[..|events|] == events;
  }

  lemma TextKeepsStep(base: seq<SessionEvent>, start: Buffers, p: Pass, m: string, b: Block, parseUuid: UuidParser,
      id: string)
    requires InStep(base, start, p, id) && b.TextBlock?
    ensures InStep(base, start, OneBlock(p, m, b, parseUuid), id)
  {
    var r := Push(p.buffers, m, b.text, b.at);
    PushSyncs(base + p.events, p.buffers, m, b.text, b.at, id);
    MessagesSplit(p.events, Listed(r.1), id);
    assert (base + p.events) + Listed(r.1) == base + (p.events + Listed(r.1));
  }

  /** A block that only appends events other than deltas. */
  lemma AppendKeepsStep(base: seq<SessionEvent>, start: Buffers, p: Pass, q: Pass, e: SessionEvent, id: string)
    requires InStep(base, start, p, id) && !e.AssistantMessage?
    requires q.buffers == p.buffers && q.lost == p.lost && q.events == p.events + [e]
    ensures InStep(base, start, q, id)
  {
    OtherSyncs(base + p.events, p.buffers, e, id);
    CountOne(p.events, e, id);
    assert (base + p.events) + [e] == base + (p.events + [e]);
  }

  /** A malformed id takes the log back to where the frame began. */
  lemma ClearKeepsStep(base: seq<SessionEvent>, start: Buffers, p: Pass, q: Pass, result: SessionEvent,
      crash: SessionEvent, id: string)
    requires InStep(base, start, p, id) && NotAhead(base, start, id) && !result.AssistantMessage?
        && !crash.AssistantMessage?
    requires q.buffers == p.buffers && q.lost == p.lost + (p.events + [result]) && q.events == [crash]
    ensures InStep(base, start, q, id)
  {
    CountOne(p.events, result, id);
    MessagesSplit(p.lost, p.events + [result], id);
    CountOne([], crash, id);
    assert [] + [crash] == [crash];
    OtherSyncs(base, p.buffers, crash, id);
  }

  lemma OutputKeepsStep(base: seq<SessionEvent>, start: Buffers, p: Pass, b: Block, parseUuid: UuidParser, id: string)
    requires InStep(base, start, p, id) && NotAhead(base, start, id) && IsOutput(b)
    ensures InStep(base, start, OneOutput(p, b, parseUuid), id)
  {
    var q := OneOutput(p, b, parseUuid);
    var result := ToolResult(b.useId, Spills(b), b.isError);
    var answered := p.(events := p.events + [result]);
    AppendKeepsStep(base, start, p, answered, result, id);
    match DerivedFrom(b, p.names, parseUuid)
    case Absent => AppendKeepsStep(base, start, p, q, result, id);
    case Checkpoint(event) => AppendKeepsStep(base, start, answered, q, event, id);
    case Malformed(reason) => ClearKeepsStep(base, start, p, q, result, SessionCrashed(reason), id);
  }

  lemma {:induction false} BlocksKeepStep(base: seq<SessionEvent>, start: Pass, m: string, bs: seq<Block>,
      parseUuid: UuidParser, id: string)
    requires NotAhead(base, start.buffers, id) && start.events == [] && start.lost == []
    ensures InStep(base, start.buffers, Blocks(start, m, bs, parseUuid), id)
  {
    if bs == [] {
      assert base + [] == base;
    } else {
      var p, b := Blocks(start, m, bs[..|bs| - 1], parseUuid), bs[|bs| - 1];
      BlocksKeepStep(base, start, m, bs[..|bs| - 1], parseUuid, id);
      if b.TextBlock? {
        TextKeepsStep(base, start.buffers, p, m, b, parseUuid, id);
      } else if b.ToolUse? {
        AppendKeepsStep(base, start.buffers, p, OneBlock(p, m, b, parseUuid), ToolCall(b.id, b.name), id);
      } else if IsOutput(b) {
        OutputKeepsStep(base, start.buffers, p, b, parseUuid, id);
      }
    }
  }

  lemma {:induction false} DrainSyncs(log: seq<SessionEvent>, bs: Buffers, ids: seq<string>, id: string)
    ensures var r := DrainAll(bs, ids);
      && (Synced(log + r.1, r.0, id) <==> Synced(log, bs, id))
      && (NotAhead(log, bs, id) ==> NotAhead(log + r.1, r.0, id))
  {
    if ids == [] {
      assert log + [] == log;
    } else {
      var before, last := DrainAll(bs, ids[..|ids| - 1]), ids[|ids| - 1];
      DrainSyncs(log, bs, ids[..|ids| - 1], id);
      CloseSyncs(log + before.1, before.0, last, id);
      assert (log + before.1) + Listed(Close(before.0, last).1) == log + (before.1 + Listed(Close(before.0, last).1));
    }
  }

  ghost predicate FrameSynced(r: Reader, log: seq<SessionEvent>, f: Frame, parseUuid: UuidParser, id: string) {
    var s := OneFrame(r, f, parseUuid);
    && (Synced(log + s.batch, s.reader.buffers, id) <==> Synced(log, r.buffers, id) && MessageCount(s.lost, id) == 0)
    && NotAhead(log + s.batch, s.reader.buffers, id)
  }

  lemma AssistantSyncs(r: Reader, log: seq<SessionEvent>, f: Frame, parseUuid: UuidParser, id: string)
    requires NotAhead(log, r.buffers, id) && f.Assistant?
    ensures FrameSynced(r, log, f, parseUuid, id)
  {
    var p := Blocks(StartOf(r), f.messageId, f.blocks, parseUuid);
    BlocksKeepStep(log, StartOf(r), f.messageId, f.blocks, parseUuid, id);
    if f.stopped {
      CloseSyncs(log + p.events, p.buffers, f.messageId, id);
      assert (log + p.events) + Listed(Close(p.buffers, f.messageId).1) == log + OneFrame(r, f, parseUuid).batch;
    }
  }

  lemma ResultSyncs(r: Reader, log: seq<SessionEvent>, f: Frame, parseUuid: UuidParser, id: string)
    requires NotAhead(log, r.buffers, id) && f.TurnResult?
    ensures FrameSynced(r, log, f, parseUuid, id)
  {
    var drained, ending := DrainAll(r.buffers, r.active), Completed(r.open, f.stopReason);
    var s := OneFrame(r, f, parseUuid);
    DrainSyncs(log, r.buffers, r.active, id);
    EndingSyncs(log + drained.1, drained.0, r.open, f.stopReason, id);
    assert log + (drained.1 + ending) == (log + drained.1) + ending;
    assert s.lost == [] && s.batch == drained.1 + ending && s.reader.buffers == drained.0;
  }

  lemma EndingSyncs(log: seq<SessionEvent>, bs: Buffers, open: Option<TurnId>, stopReason: Option<string>, id: string)
    ensures Synced(log + Completed(open, stopReason), bs, id) <==> Synced(log, bs, id)
    ensures NotAhead(log, bs, id) ==> NotAhead(log + Completed(open, stopReason), bs, id)
  {
    if open.Some? {
      OtherSyncs(log, bs, Completed(open, stopReason)[0], id);
    } else {
      assert log + [] == log;
    }
  }

  lemma {:induction false} RunSyncs(inputs: seq<Input>, parseUuid: UuidParser, id: string)
    ensures var h := After(inputs, parseUuid);
      && (Synced(h.log, h.reader.buffers, id) <==> MessageCount(h.lost, id) == 0)
      && NotAhead(h.log, h.reader.buffers, id)
  {
    if inputs != [] {
      var n := |inputs| - 1;
      RunSyncs(inputs[..n], parseUuid, id);
      var h, r, f := After(inputs[..n], parseUuid), Before(inputs, n, parseUuid), inputs[n].frame;
      if f.Assistant? {
        AssistantSyncs(r, h.log, f, parseUuid, id);
      } else if f.TurnResult? {
        ResultSyncs(r, h.log, f, parseUuid, id);
      } else {
        assert h.log + [] == h.log;
      }
      MessagesSplit(h.lost, OneFrame(r, f, parseUuid).lost, id);
    }
  }

  /** In every run a message's deltas in the log are numbered 0, 1, 2, ... up to each final
      one, with the buffer going on from there, if and only if no block of any frame dropped
      a delta of that message; and a waiting buffer is below both limits in any case. */
  lemma DeltasAreNumbered(inputs: seq<Input>, parseUuid: UuidParser, id: string)
    ensures var h := After(inputs, parseUuid);
      && (Synced(h.log, h.reader.buffers, id) <==> NothingDropped(inputs, parseUuid, id, OfDeltas))
      && (id in h.reader.buffers ==> !Full(h.reader.buffers[id]))
  {
    RunKeepsLedger(inputs, parseUuid, id);
    RunSyncs(inputs, parseUuid, id);
    LostExactly(inputs, parseUuid, id, OfDeltas);
  }

  /** A `Result` frame leaves nothing behind: every message is closed before the turn's
      completion, which comes last. For each message by itself, the whole of what was
      pushed is by then in the log if and only if no block dropped text of it, and its
      deltas are numbered through if and only if no block dropped one. */
  lemma ResultFlushesEverything(inputs: seq<Input>, parseUuid: UuidParser, stopReason: Option<string>, id: string)
    ensures var h := After(inputs, parseUuid);
      var s := OneFrame(h.reader, TurnResult(stopReason), parseUuid);
      var flushed := DrainAll(h.reader.buffers, h.reader.active).1;
      && s.batch == flushed + (match h.reader.open
           case None => []
           case Some(t) => [TurnCompleted(t, if stopReason.Some? then stopReason.value else "end_turn")])
      && s.reader.buffers == map[] && s.reader.active == [] && s.reader.open.None?
      && (TextOf(h.log + flushed, id) == PushedIn(inputs, id) <==> NothingDropped(inputs, parseUuid, id, OfText))
      && (Numbered(h.log + flushed, id) && NextIndex(h.log + flushed, id) == 0
          <==> NothingDropped(inputs, parseUuid, id, OfDeltas))
  {
    var h := After(inputs, parseUuid);
    var drained := DrainAll(h.reader.buffers, h.reader.active);
    RunKeepsLedger(inputs, parseUuid, id);
    DrainCloses(h.reader.buffers, h.reader.active);
    assert drained.0.Keys == {};
    assert drained.0 == map[];
    DrainSyncs(h.log, h.reader.buffers, h.reader.active, id);
    DeltasAreNumbered(inputs, parseUuid, id);
    FlushedText(h.reader, h.log, id);
    TextIsConserved(inputs, parseUuid, id);
  }

  lemma ClosedText(bs: Buffers, m: string, id: string)
    ensures TextOf(Listed(Close(bs, m).1), id) + Pending(Close(bs, m).0, id) == Pending(bs, id)
  {
    if m in bs {
      var e := Message(m, bs[m], true);
      Appended([], e, id);
      assert [] + [e] == [e];
      assert "" + bs[m].pendingText + "" == bs[m].pendingText;
    }
  }

  /** The drained deltas carry exactly what was pending. */
  lemma {:induction false} DrainedText(bs: Buffers, ids: seq<string>, id: string)
    ensures TextOf(DrainAll(bs, ids).1, id) + Pending(DrainAll(bs, ids).0, id) == Pending(bs, id)
  {
    if ids != [] {
      var before, last := DrainAll(bs, ids[..|ids| - 1]), ids[|ids| - 1];
      var closed := Close(before.0, last);
      DrainedText(bs, ids[..|ids| - 1], id);
      ClosedText(before.0, last, id);
      TextSplits(before.1, Listed(closed.1), id);
      Associative(TextOf(before.1, id), TextOf(Listed(closed.1), id), Pending(closed.0, id));
    }
  }

  lemma FlushedText(r: Reader, log: seq<SessionEvent>, id: string)
    requires Covered(r)
    ensures TextOf(log + DrainAll(r.buffers, r.active).1, id) == TextOf(log, id) + Pending(r.buffers, id)
  {
    var drained := DrainAll(r.buffers, r.active);
    DrainCloses(r.buffers, r.active);
    assert id !in drained.0;
    DrainedText(r.buffers, r.active, id);
    TextSplits(log, drained.1, id);
    assert TextOf(drained.1, id) + "" == TextOf(drained.1, id);
  }

  // ---- a message that stops ---------------------------------------------------------

  lemma {:induction false} RemovedIsGone(ids: seq<string>, id: string)
    ensures id !in Remove(ids, id)
  {
    if ids != [] {
      RemovedIsGone(ids[..|ids| - 1], id);
    }
  }

  /** A frame that ends its message closes it: nothing of it is pending, and by then the
      whole of what was pushed is logged, its last delta final, if and only if no block
      dropped any of it. */
  lemma StopClosesTheMessage(inputs: seq<Input>, parseUuid: UuidParser, published: Option<TurnId>, m: string,
      blocks: seq<Block>)
    ensures var all := inputs + [Input(published, Assistant(m, blocks, true))];
      var h := After(all, parseUuid);
      && m !in h.reader.buffers && m !in h.reader.active
      && (TextOf(h.log, m) == PushedIn(all, m) <==> NothingDropped(all, parseUuid, m, OfText))
      && (Numbered(h.log, m) && NextIndex(h.log, m) == 0 <==> NothingDropped(all, parseUuid, m, OfDeltas))
  {
    var all := inputs + [Input(published, Assistant(m, blocks, true))];
    assert all[..|all| - 1] == inputs;
    var r := Published(After(inputs, parseUuid).reader, all[|inputs|]);
    RemovedIsGone(if m in r.active then r.active else r.active + [m], m);
    var h := After(all, parseUuid);
    assert m !in h.reader.buffers;
    TextIsConserved(all, parseUuid, m);
    DeltasAreNumbered(all, parseUuid, m);
    assert TextOf(h.log, m) + "" == TextOf(h.log, m);
  }
}
