/** When assistant text is flushed, told from the deltas alone: a reference for the
    coalescer that keeps no buffer. */
module Coalescing {
  import opened Events
  import opened FrameReader
  import opened FrameHistory

  datatype Delta = Delta(text: string, at: nat)

  function Concat(ds: seq<Delta>): string {
    if ds == [] then "" else Concat(ds[..|ds| - 1]) + ds[|ds| - 1].text
  }

  /** When the deltas from `k` on began to wait: at the flush before them, or when the
      message's first delta came. */
  function WaitingSince(ds: seq<Delta>, k: nat): nat
    requires ds != [] && k < |ds|
  {
    if k == 0 then ds[0].at else ds[k - 1].at
  }

  /** With everything before `k` flushed, the last delta flushes the rest: five of them
      wait, or 200 KiB, or they have waited 250 ms. */
  predicate Due(ds: seq<Delta>, k: nat)
    requires ds != [] && k < |ds|
  {
    || |ds| - k >= 5
    || ByteLen(Concat(ds[k..])) >= 204800
    || ds[|ds| - 1].at >= WaitingSince(ds, k) + 250
  }

  /** How many of a message's deltas have been flushed. */
  function FlushedUpTo(ds: seq<Delta>): (k: nat)
    ensures k <= |ds|
  {
    if ds == [] then 0
    else
      var k := FlushedUpTo(ds[..|ds| - 1]);
      if Due(ds, k) then |ds| else k
  }

  /** The texts they were flushed in. */
  function Pieces(ds: seq<Delta>): seq<string> {
    if ds == [] then []
    else
      var front := ds[..|ds| - 1];
      Pieces(front) + if FlushedUpTo(ds) == |ds| then [Concat(ds[FlushedUpTo(front)..])] else []
  }

  /** Feeding one message's deltas to the coalescer. */
  function Fed(bs: Buffers, id: string, ds: seq<Delta>): (Buffers, seq<SessionEvent>) {
    if ds == [] then (bs, [])
    else
      var before := Fed(bs, id, ds[..|ds| - 1]);
      var r := Push(before.0, id, ds[|ds| - 1].text, ds[|ds| - 1].at);
      (r.0, before.1 + Listed(r.1))
  }

  function Logged(id: string, pieces: seq<string>): seq<SessionEvent> {
    seq(|pieces|, i requires 0 <= i < |pieces| => AssistantMessage(id, i, pieces[i], false))
  }

  /** The buffer of a message whose deltas from `k` on wait. */
  predicate Waits(bs: Buffers, id: string, ds: seq<Delta>, k: nat, pieces: nat)
    requires k <= |ds|
  {
    if ds == [] then id !in bs && pieces == 0
    else
      && id in bs
      && bs[id] == Buffer(pieces, Concat(ds[k..]), |ds| - k, if k == 0 then ds[0].at else ds[k - 1].at)
  }

  lemma ConcatSnoc(ds: seq<Delta>, d: Delta, k: nat)
    requires k <= |ds|
    ensures Concat((ds + [d])[k..]) == Concat(ds[k..]) + d.text
  {
    assert (ds + [d])[k..] == ds[k..] + [d];
    assert (ds[k..] + [d])[..|ds[k..]|] == ds[k..];
  }

  /** One more delta. */
  lemma FedOne(bs: Buffers, id: string, ds: seq<Delta>, d: Delta, k: nat, pieces: nat)
    requires k <= |ds| && Waits(bs, id, ds, k, pieces)
    ensures var all := ds + [d];
      var r := Push(bs, id, d.text, d.at);
      var piece := Concat(all[k..]);
      && (Due(all, k) ==>
            Waits(r.0, id, all, |all|, pieces + 1) && r.1 == Some(AssistantMessage(id, pieces, piece, false)))
      && (!Due(all, k) ==> Waits(r.0, id, all, k, pieces) && r.1 == None)
  {
    var all := ds + [d];
    ConcatSnoc(ds, d, k);
    assert all[|all|..] == [] && Concat([]) == "";
    if ds == [] {
      assert Concat(ds[k..]) == "" && "" + d.text == d.text;
    }
    var buf := Filled(bs, id, d.text, d.at);
    assert buf == Buffer(pieces, Concat(all[k..]), |all| - k, WaitingSince(all, k));
    assert Full(buf) || Overdue(buf, d.at) <==> Due(all, k);
  }

  /** The buffer is what feeding these deltas leaves. */
  predicate IsFed(bs: Buffers, id: string, ds: seq<Delta>) {
    Waits(bs, id, ds, FlushedUpTo(ds), |Pieces(ds)|)
  }

  lemma FedStep(bs: Buffers, id: string, ds: seq<Delta>, d: Delta)
    requires IsFed(bs, id, ds)
    ensures var r := Push(bs, id, d.text, d.at);
      && IsFed(r.0, id, ds + [d])
      && Logged(id, Pieces(ds + [d])) == Logged(id, Pieces(ds)) + Listed(r.1)
  {
    var all, k := ds + [d], FlushedUpTo(ds);
    assert all[..|all| - 1] == ds;
    FedOne(bs, id, ds, d, k, |Pieces(ds)|);
    if Due(all, k) {
      LoggedSnoc(id, Pieces(ds), Concat(all[k..]));
    } else {
      assert Pieces(ds) + [] == Pieces(ds) && Logged(id, Pieces(ds)) + [] == Logged(id, Pieces(ds));
    }
  }

  /** Fewer than five deltas wait, and less than 200 KiB. */
  lemma {:induction false} FewWait(ds: seq<Delta>)
    ensures |ds| - FlushedUpTo(ds) < 5 && ByteLen(Concat(ds[FlushedUpTo(ds)..])) < 204800
  {
    if FlushedUpTo(ds) == |ds| {
      assert ds[|ds|..] == [] && Concat([]) == "" && ByteLen("") == 0;
    }
  }

  /** A message's deltas are logged in exactly those pieces, numbered from 0, and what
      waits is exactly the rest. */
  lemma {:induction false} CoalescesExactly(bs: Buffers, id: string, ds: seq<Delta>)
    requires id !in bs
    ensures var (after, out) := Fed(bs, id, ds);
      && out == Logged(id, Pieces(ds))
      && Waits(after, id, ds, FlushedUpTo(ds), |Pieces(ds)|)
  {
    if ds != [] {
      var front, d := ds[..|ds| - 1], ds[|ds| - 1];
      CoalescesExactly(bs, id, front);
      FedStep(Fed(bs, id, front).0, id, front, d);
      assert ds == front + [d];
    }
  }

  lemma LoggedSnoc(id: string, pieces: seq<string>, piece: string)
    ensures Logged(id, pieces + [piece]) == Logged(id, pieces) + [AssistantMessage(id, |pieces|, piece, false)]
  {
  }

  // ---- the deltas of a run --------------------------------------------------------------

  function TextDeltas(bs: seq<Block>): seq<Delta> {
    if bs == [] then []
    else
      var b := bs[|bs| - 1];
      TextDeltas(bs[..|bs| - 1]) + DeltaOf(b)
  }

  /** A message's deltas since it was last closed, by a frame that ends it or by a `Result`. */
  function OpenDeltas(inputs: seq<Input>, id: string): seq<Delta> {
    if inputs == [] then []
    else Onward(OpenDeltas(inputs[..|inputs| - 1], id), inputs[|inputs| - 1].frame, id)
  }

  function Onward(ds: seq<Delta>, f: Frame, id: string): seq<Delta> {
    match f
    case Observed => ds
    case TurnResult(_) => []
    case Assistant(m, blocks, stopped) => if m != id then ds else if stopped then [] else ds + TextDeltas(blocks)
  }

  /** The message's deltas with those of a frame's blocks. */
  function With(ds: seq<Delta>, m: string, bs: seq<Block>, id: string): seq<Delta> {
    ds + if m == id then TextDeltas(bs) else []
  }

  lemma {:induction false} BlocksFeed(p: Pass, m: string, bs: seq<Block>, parseUuid: UuidParser, id: string,
      ds: seq<Delta>)
    requires IsFed(p.buffers, id, ds)
    ensures IsFed(Blocks(p, m, bs, parseUuid).buffers, id, With(ds, m, bs, id))
  {
    if bs == [] {
      assert ds + [] == ds;
    } else {
      var front, b := bs[..|bs| - 1], bs[|bs| - 1];
      BlocksFeed(p, m, front, parseUuid, id, ds);
      assert bs == front + [b];
      BlockFeeds(Blocks(p, m, front, parseUuid), m, b, parseUuid, id, With(ds, m, front, id));
      TextsSnoc(ds, m, front, b, id);
    }
  }

  function DeltaOf(b: Block): seq<Delta> {
    if b.TextBlock? then [Delta(b.text, b.at)] else []
  }

  lemma TextsSnoc(ds: seq<Delta>, m: string, front: seq<Block>, b: Block, id: string)
    ensures With(ds, m, front + [b], id) == With(ds, m, front, id) + if m == id then DeltaOf(b) else []
  {
    assert (front + [b])[..|front|] == front;
  }

  lemma BlockFeeds(p: Pass, m: string, b: Block, parseUuid: UuidParser, id: string, ds: seq<Delta>)
    requires IsFed(p.buffers, id, ds)
    ensures IsFed(OneBlock(p, m, b, parseUuid).buffers, id, ds + if m == id then DeltaOf(b) else [])
  {
    if b.TextBlock? && m == id {
      FedStep(p.buffers, id, ds, Delta(b.text, b.at));
    } else {
      assert ds + [] == ds;
      BlockLeaves(p, m, b, parseUuid, id);
    }
  }

  /** No other block touches the message's buffer. */
  lemma BlockLeaves(p: Pass, m: string, b: Block, parseUuid: UuidParser, id: string)
    requires !(b.TextBlock? && m == id)
    ensures var q := OneBlock(p, m, b, parseUuid);
      id in q.buffers <==> id in p.buffers
    ensures var q := OneBlock(p, m, b, parseUuid);
      id in p.buffers ==> q.buffers[id] == p.buffers[id]
  {
  }

  /** In every run a message's buffer holds exactly the deltas that wait, counted from the
      frames: fewer than five of them, less than 200 KiB. */
  lemma FewDeltasWait(inputs: seq<Input>, parseUuid: UuidParser, id: string)
    ensures var ds, bs := OpenDeltas(inputs, id), After(inputs, parseUuid).reader.buffers;
      && IsFed(bs, id, ds)
      && (id in bs ==> bs[id].pendingCount == |ds| - FlushedUpTo(ds) < 5 && ByteLen(bs[id].pendingText) < 204800)
  {
    RunFeeds(inputs, parseUuid, id);
    FewWait(OpenDeltas(inputs, id));
  }

  lemma {:induction false} RunFeeds(inputs: seq<Input>, parseUuid: UuidParser, id: string)
    ensures IsFed(After(inputs, parseUuid).reader.buffers, id, OpenDeltas(inputs, id))
  {
    if inputs != [] {
      var n := |inputs| - 1;
      RunFeeds(inputs[..n], parseUuid, id);
      RunKeepsLedger(inputs[..n], parseUuid, id);
      FrameFeeds(Before(inputs, n, parseUuid), inputs[n].frame, parseUuid, id, OpenDeltas(inputs[..n], id));
    }
  }

  lemma FrameFeeds(r: Reader, f: Frame, parseUuid: UuidParser, id: string, ds: seq<Delta>)
    requires IsFed(r.buffers, id, ds) && Covered(r)
    ensures IsFed(OneFrame(r, f, parseUuid).reader.buffers, id, Onward(ds, f, id))
  {
    match f
    case Observed =>
    case Assistant(m, blocks, stopped) =>
      var p := Blocks(StartOf(r), m, blocks, parseUuid);
      BlocksFeed(StartOf(r), m, blocks, parseUuid, id, ds);
      assert ds + [] == ds;
      if stopped {
        CloseFeeds(p.buffers, m, id, With(ds, m, blocks, id));
      }
    case TurnResult(_) =>
      DrainCloses(r.buffers, r.active);
      assert id !in DrainAll(r.buffers, r.active).0;
  }

  lemma CloseFeeds(bs: Buffers, m: string, id: string, ds: seq<Delta>)
    requires IsFed(bs, id, ds)
    ensures IsFed(Close(bs, m).0, id, if m == id then [] else ds)
  {
  }
}
