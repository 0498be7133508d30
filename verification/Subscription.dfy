/** One resilient subscription to one aggregate, running beside the writer
    thread: attach the listener, read the head, backfill from disk, then follow
    the bounded broadcast; on `Lagged`, start over from the last sequence seen.
    Every action is one atomic step and any interleaving of them is a run. */
module Subscription {
  import opened Arithmetic
  import opened Events
  import opened EventStore
  import opened RetryBudget

  /** What a run is about: the aggregate, the broadcast capacity, the retry
      knobs, where the consumer starts, and how long the log already was. */
  datatype Setup = Setup(key: Key, capacity: nat, cfg: RetryConfig, since: nat, base: nat, start: nat)

  datatype StopReason = StoreError | PersistentLag(retries: nat) | ConsumerGone

  /** `pos` is the receiver's position in the broadcast. */
  datatype Phase =
    | Opening
    | Attached(pos: nat)
    | HeadRead(pos: nat, head: nat)
    | Streaming(pos: nat, head: nat, backfill: seq<Envelope>)
    | Stopped(why: StopReason)

  /** `opens`, `hist`, `openedAt`, `back` and `live` record what happened:
      subscriptions opened, receipts, and what the current stream yielded from
      disk and from the broadcast. */
  datatype Client = Client(
    phase: Phase, lastSeq: nat, retry: Retry, forwarded: seq<Envelope>,
    opens: nat, hist: seq<Receipt>, openedAt: nat, back: seq<Envelope>, live: seq<Envelope>)

  /** `outbox` holds committed envelopes the writer has not published yet;
      `channel` is everything ever sent to the aggregate's broadcast. */
  datatype World = World(
    rows: seq<Envelope>, outbox: seq<Envelope>, channel: seq<Envelope>, now: nat, client: Client)

  datatype Action =
    | Commit(envs: seq<Envelope>)
    | CommitFails(envs: seq<Envelope>, fault: Fault)
    | Publish
    | PruneOther(key: Key, before: nat)
    | Tick(to: nat)
    | Attach
    | ReadHead
    | ReadBackfill
    | StreamNext
    | SubscribeFails
    | ConsumerLeaves

  predicate Enabled(p: Setup, w: World, a: Action) {
    match a
    case Commit(_) => w.outbox == []
    case CommitFails(envs, fault) => w.outbox == [] && Faulty(fault, envs)
    case Publish => w.outbox != []
    case PruneOther(k, _) => w.outbox == [] && k != p.key
    case Tick(to) => to >= w.now
    case Attach => w.client.phase.Opening?
    case ReadHead => w.client.phase.Attached? && w.outbox == []
    case ReadBackfill => w.client.phase.HeadRead?
    case StreamNext =>
      w.client.phase.Streaming? && (w.client.phase.backfill != [] || w.client.phase.pos < |w.channel|)
    case SubscribeFails => w.client.phase.Attached? || w.client.phase.HeadRead?
    case ConsumerLeaves => w.client.phase.Streaming?
  }

  /** The consumer loop's arm for an envelope. */
  function Forward(p: Setup, c: Client, env: Envelope, now: nat): Client {
    c.(lastSeq := env.sequence,
       retry := NoteCleanRecv(c.retry, p.cfg, now),
       hist := c.hist + [Clean(now)],
       forwarded := c.forwarded + [env])
  }

  /** The consumer loop's arm for `Lagged`. */
  function OnLagged(p: Setup, c: Client, now: nat): Client {
    var retry := NoteLagged(c.retry, p.cfg, now);
    c.(retry := retry,
       hist := c.hist + [Lag(now)],
       phase := if retry.laggedRetries >= p.cfg.hardLimit then Stopped(PersistentLag(retry.laggedRetries)) else Opening)
  }

  /** One poll of the merged stream: backfill first, then the broadcast, where
      falling more than `capacity` behind is reported instead of delivered. */
  function Poll(p: Setup, w: World): Client
    requires Enabled(p, w, StreamNext)
  {
    var c := w.client;
    var Streaming(pos, head, backfill) := c.phase;
    if backfill != [] then
      Forward(p, c, backfill[0], w.now).(phase := Streaming(pos, head, backfill[1..]), back := c.back + [backfill[0]])
    else if |w.channel| - pos > p.capacity then OnLagged(p, c, w.now)
    else
      var env := w.channel[pos];
      var moved := c.(phase := Streaming(pos + 1, head, []));
      if env.sequence > head then Forward(p, moved, env, w.now).(live := c.live + [env]) else moved
  }

  function Do(p: Setup, w: World, a: Action): World
    requires Enabled(p, w, a)
  {
    var c := w.client;
    match a
    case Commit(envs) =>
      var stamped := Stamp(w.rows, envs);
      w.(rows := w.rows + stamped, outbox := stamped)
    case CommitFails(_, _) => w
    case Publish =>
      var env := w.outbox[0];
      w.(outbox := w.outbox[1..], channel := w.channel + if env.key == p.key then [env] else [])
    case PruneOther(k, before) => w.(rows := Delete(w.rows, k, before))
    case Tick(to) => w.(now := to)
    case Attach =>
      w.(client := c.(phase := Attached(|w.channel|), opens := c.opens + 1,
                      openedAt := c.lastSeq, back := [], live := []))
    case ReadHead => w.(client := c.(phase := HeadRead(c.phase.pos, MaxSeq(w.rows, p.key))))
    case ReadBackfill =>
      var HeadRead(pos, head) := c.phase;
      w.(client := c.(phase := Streaming(pos, head, Select(w.rows, p.key, c.lastSeq, head))))
    case StreamNext => w.(client := Poll(p, w))
    case SubscribeFails => w.(client := c.(phase := Stopped(StoreError)))
    case ConsumerLeaves => w.(client := c.(phase := Stopped(ConsumerGone)))
  }

  function Exec(p: Setup, w: World, acts: seq<Action>): Option<World> {
    if acts == [] then Some(w)
    else
      var before := Exec(p, w, acts[..|acts| - 1]);
      var a := acts[|acts| - 1];
      if before.Some? && Enabled(p, before.value, a) then Some(Do(p, before.value, a)) else None
  }

  function Log(p: Setup, w: World): seq<Envelope> {
    ForKey(w.rows, p.key)
  }

  /** The process starts over an existing gap-free log and a fresh broadcast;
      the consumer asks for a sequence no later than the head. */
  ghost predicate Init(p: Setup, w: World) {
    && Ascending(w.rows) && Dense(Log(p, w))
    && p.base == |Log(p, w)| && p.since <= p.base && p.capacity > 0
    && w.outbox == [] && w.channel == []
    && w.client == Client(Opening, p.since, Retry(0, p.start, None), [], 0, [], p.since, [], [])
  }

  // ---- the invariant ------------------------------------------------------

  /** What has been committed since start-up is what was published plus what waits in the outbox. */
  ghost predicate LogInv(p: Setup, w: World) {
    && Ascending(w.rows) && Dense(Log(p, w))
    && p.base <= |Log(p, w)|
    && Log(p, w)[p.base..] == w.channel + ForKey(w.outbox, p.key)
  }

  /** `log` is the aggregate's log, `sent` how much of it has been published. */
  ghost predicate PhaseInv(p: Setup, c: Client, log: seq<Envelope>, sent: nat) {
    match c.phase
    case Opening => true
    case Stopped(_) => true
    case Attached(pos) => p.base + pos <= sent && c.openedAt == c.lastSeq && c.back == [] && c.live == []
    case HeadRead(pos, head) =>
      p.base + pos <= head && p.base + pos <= sent && c.lastSeq <= head <= |log|
      && c.openedAt == c.lastSeq && c.back == [] && c.live == []
    case Streaming(pos, head, backfill) =>
      && c.openedAt <= c.lastSeq <= |log| && c.openedAt <= head <= |log| && p.base + pos <= sent
      && (if backfill != [] then p.base + pos <= head && c.lastSeq <= head && backfill == log[c.lastSeq..head]
          else c.lastSeq == Max(head, p.base + pos))
      && c.back == log[c.openedAt..Min(c.lastSeq, head)]
      && c.live == log[Min(c.lastSeq, head)..c.lastSeq]
  }

  ghost predicate ClientInv(p: Setup, c: Client, log: seq<Envelope>, sent: nat) {
    && p.since <= c.lastSeq <= |log|
    && c.forwarded == log[p.since..c.lastSeq]
    && PhaseInv(p, c, log, sent)
  }

  function Sent(p: Setup, w: World): nat {
    p.base + |w.channel|
  }

  ghost predicate Inv(p: Setup, w: World) {
    LogInv(p, w) && Sent(p, w) <= |Log(p, w)| && ClientInv(p, w.client, Log(p, w), Sent(p, w))
  }

  /** The client's view survives the log and the broadcast growing. */
  lemma ClientInvGrows(p: Setup, c: Client, log: seq<Envelope>, sent: nat, log': seq<Envelope>, sent': nat)
    requires ClientInv(p, c, log, sent) && log <= log' && sent <= sent'
    ensures ClientInv(p, c, log', sent')
  {
    assert log'[p.since..c.lastSeq] == log[p.since..c.lastSeq];
    if c.phase.Streaming? {
      var Streaming(pos, head, backfill) := c.phase;
      var cut := Min(c.lastSeq, head);
      assert log'[c.openedAt..cut] == log[c.openedAt..cut];
      assert log'[cut..c.lastSeq] == log[cut..c.lastSeq];
      if c.lastSeq <= head {
        assert log'[c.lastSeq..head] == log[c.lastSeq..head];
      }
    }
  }

  lemma CommitExtendsLog(p: Setup, w: World, envs: seq<Envelope>)
    requires LogInv(p, w) && w.outbox == []
    ensures var w' := Do(p, w, Commit(envs)); LogInv(p, w') && Log(p, w) <= Log(p, w')
  {
    var stamped := Stamp(w.rows, envs);
    StampKeepsAscending(w.rows, envs);
    StampExtendsDense(w.rows, envs, p.key);
    var log, tail := ForKey(w.rows, p.key), ForKey(stamped, p.key);
    assert w.channel + ForKey(w.outbox, p.key) == w.channel;
    assert (log + tail)[p.base..] == log[p.base..] + tail;
  }

  lemma CommitKeepsInv(p: Setup, w: World, envs: seq<Envelope>)
    requires Inv(p, w) && w.outbox == []
    ensures Inv(p, Do(p, w, Commit(envs))) && Log(p, w) <= Log(p, Do(p, w, Commit(envs)))
  {
    CommitExtendsLog(p, w, envs);
    ClientInvGrows(p, w.client, Log(p, w), Sent(p, w), Log(p, Do(p, w, Commit(envs))), Sent(p, w));
  }

  lemma PublishKeepsInv(p: Setup, w: World)
    requires Inv(p, w) && Enabled(p, w, Publish)
    ensures Inv(p, Do(p, w, Publish))
  {
    var w' := Do(p, w, Publish);
    var env := w.outbox[0];
    assert w.outbox == [env] + w'.outbox;
    ForKeyConcat([env], w'.outbox, p.key);
    Snoc([], env, p.key, 0, 0);
    assert [] + [env] == [env];
    assert ForKey([], p.key) == [];
    assert w.channel + ForKey(w.outbox, p.key) == w'.channel + ForKey(w'.outbox, p.key);
    assert |Log(p, w)[p.base..]| == |w'.channel| + |ForKey(w'.outbox, p.key)|;
    ClientInvGrows(p, w.client, Log(p, w), Sent(p, w), Log(p, w'), Sent(p, w'));
  }

  lemma PruneKeepsInv(p: Setup, w: World, k: Key, before: nat)
    requires Inv(p, w) && Enabled(p, w, PruneOther(k, before))
    ensures Inv(p, Do(p, w, PruneOther(k, before)))
  {
    DeleteOther(w.rows, p.key, k, before);
    DeleteKeepsAscending(w.rows, k, before);
  }

  /** The head is read while the outbox is empty, so it covers everything published. */
  lemma ReadHeadKeepsInv(p: Setup, w: World)
    requires Inv(p, w) && Enabled(p, w, ReadHead)
    ensures Inv(p, Do(p, w, ReadHead))
    ensures Do(p, w, ReadHead).client.phase.head == |Log(p, w)| == Sent(p, w)
  {
    MaxSeqIsLast(w.rows, p.key);
    assert ForKey(w.outbox, p.key) == [];
    assert |Log(p, w)[p.base..]| == |w.channel|;
  }

  lemma ReadBackfillKeepsInv(p: Setup, w: World)
    requires Inv(p, w) && Enabled(p, w, ReadBackfill)
    ensures Inv(p, Do(p, w, ReadBackfill))
  {
    var HeadRead(pos, head) := w.client.phase;
    BackfillIsSlice(w.rows, p.key, w.client.lastSeq, head);
  }

  lemma SliceGrows(log: seq<Envelope>, lo: nat, hi: nat)
    requires lo <= hi < |log|
    ensures log[lo..hi + 1] == log[lo..hi] + [log[hi]]
  {
  }

  /** A backfilled envelope is the next one of the log. */
  lemma YieldBackfill(p: Setup, w: World)
    requires Inv(p, w) && Enabled(p, w, StreamNext) && w.client.phase.backfill != []
    ensures Inv(p, w.(client := Poll(p, w)))
  {
    var c, log := w.client, Log(p, w);
    var Streaming(pos, head, backfill) := c.phase;
    var c' := Poll(p, w);
    assert backfill[0] == log[c.lastSeq];
    assert backfill[1..] == log[c.lastSeq + 1..head];
    SliceGrows(log, p.since, c.lastSeq);
    SliceGrows(log, c.openedAt, c.lastSeq);
    assert c'.live == log[c.lastSeq + 1..c.lastSeq + 1];
    assert ClientInv(p, c', log, Sent(p, w));
  }

  /** The broadcast carries the log from where the process started. */
  lemma ChannelIsLog(p: Setup, w: World, pos: nat)
    requires LogInv(p, w) && pos < |w.channel|
    ensures p.base + pos < |Log(p, w)|
    ensures w.channel[pos] == Log(p, w)[p.base + pos] && w.channel[pos].sequence == p.base + pos + 1
  {
    assert w.channel[pos] == Log(p, w)[p.base..][pos];
  }

  /** What the client becomes with the next envelope of the log. */
  lemma NextLive(p: Setup, c: Client, log: seq<Envelope>, sent: nat, now: nat)
    requires ClientInv(p, c, log, sent) && Dense(log) && sent <= |log|
    requires c.phase.Streaming? && c.phase.backfill == [] && p.base + c.phase.pos < sent
    requires c.phase.head <= p.base + c.phase.pos
    ensures var Streaming(pos, head, _) := c.phase;
      var env := log[p.base + pos];
      var moved := c.(phase := Streaming(pos + 1, head, []));
      ClientInv(p, Forward(p, moved, env, now).(live := c.live + [env]), log, sent)
  {
    var Streaming(pos, head, _) := c.phase;
    assert c.lastSeq == p.base + pos && log[p.base + pos].sequence == p.base + pos + 1;
    SliceGrows(log, p.since, c.lastSeq);
    SliceGrows(log, head, c.lastSeq);
  }

  /** A broadcast envelope is either at or below the head, and skipped, or the next one of the log. */
  lemma YieldLive(p: Setup, w: World)
    requires Inv(p, w) && Enabled(p, w, StreamNext) && w.client.phase.backfill == []
    requires |w.channel| - w.client.phase.pos <= p.capacity
    ensures Inv(p, w.(client := Poll(p, w)))
  {
    var c, log := w.client, Log(p, w);
    var Streaming(pos, head, _) := c.phase;
    ChannelIsLog(p, w, pos);
    if p.base + pos >= head {
      NextLive(p, c, log, Sent(p, w), w.now);
    } else {
      assert ClientInv(p, c.(phase := Streaming(pos + 1, head, [])), log, Sent(p, w));
    }
  }

  lemma StreamNextKeepsInv(p: Setup, w: World)
    requires Inv(p, w) && Enabled(p, w, StreamNext)
    ensures Inv(p, Do(p, w, StreamNext))
  {
    if w.client.phase.backfill != [] {
      YieldBackfill(p, w);
    } else if |w.channel| - w.client.phase.pos <= p.capacity {
      YieldLive(p, w);
    }
  }

  lemma StepKeepsInv(p: Setup, w: World, a: Action)
    requires Inv(p, w) && Enabled(p, w, a)
    ensures Inv(p, Do(p, w, a))
    ensures Log(p, w) <= Log(p, Do(p, w, a))
  {
    match a
    case Commit(envs) =>
      CommitKeepsInv(p, w, envs);
    case Publish => PublishKeepsInv(p, w);
    case PruneOther(k, before) =>
      PruneKeepsInv(p, w, k, before);
      DeleteOther(w.rows, p.key, k, before);
    case ReadHead => ReadHeadKeepsInv(p, w);
    case ReadBackfill => ReadBackfillKeepsInv(p, w);
    case StreamNext => StreamNextKeepsInv(p, w);
    case _ =>
  }

  lemma {:induction false} RunKeepsInv(p: Setup, w: World, acts: seq<Action>)
    requires Init(p, w) && Exec(p, w, acts).Some?
    ensures Inv(p, Exec(p, w, acts).value)
    ensures Log(p, w) <= Log(p, Exec(p, w, acts).value)
  {
    if acts == [] {
      assert Log(p, w)[p.base..] == [];
    } else {
      var n := |acts| - 1;
      RunKeepsInv(p, w, acts[..n]);
      StepKeepsInv(p, Exec(p, w, acts[..n]).value, acts[n]);
    }
  }

  // ---- what the consumer may rely on --------------------------------------

  /** In every run, what has been forwarded is exactly the committed envelopes
      with `since < sequence <= last_seq`: in order, no gap, no duplicate. */
  lemma ExactlyOnce(p: Setup, w0: World, acts: seq<Action>)
    requires Init(p, w0) && Exec(p, w0, acts).Some?
    ensures var w := Exec(p, w0, acts).value; var c := w.client;
      && p.since <= c.lastSeq <= |Log(p, w)|
      && c.forwarded == Log(p, w)[p.since..c.lastSeq]
      && c.forwarded == Select(w.rows, p.key, p.since, c.lastSeq)
      && forall i :: 0 <= i < |c.forwarded| ==> c.forwarded[i].sequence == p.since + i + 1
  {
    RunKeepsInv(p, w0, acts);
    var w := Exec(p, w0, acts).value;
    BackfillIsSlice(w.rows, p.key, p.since, w.client.lastSeq);
  }

  /** One `subscribe_after`, up to its first `Lagged`: every event after the
      requested sequence came from exactly one side. Disk gave those up to the
      head, the broadcast those above it, each once and in order. */
  lemma BackfillAndLiveJoin(p: Setup, w0: World, acts: seq<Action>)
    requires Init(p, w0) && Exec(p, w0, acts).Some? && Exec(p, w0, acts).value.client.phase.Streaming?
    ensures var w := Exec(p, w0, acts).value; var c := w.client; var head := c.phase.head;
      && c.back + c.live == Select(w.rows, p.key, c.openedAt, c.lastSeq)
      && (forall e :: e in c.back ==> e.sequence <= head)
      && (forall e :: e in c.live ==> e.sequence > head)
      && (c.live != [] ==> c.phase.backfill == [] && |c.back| == head - c.openedAt)
  {
    RunKeepsInv(p, w0, acts);
    var w := Exec(p, w0, acts).value;
    var c, log := w.client, Log(p, w);
    BackfillIsSlice(w.rows, p.key, c.openedAt, c.lastSeq);
    var cut := Min(c.lastSeq, c.phase.head);
    assert log[c.openedAt..cut] + log[cut..c.lastSeq] == log[c.openedAt..c.lastSeq];
  }

  /** Follow the stream until it has nothing ready. */
  function Drain(p: Setup, w: World): World
    decreases if w.client.phase.Streaming?
        then |w.client.phase.backfill| + Max(|w.channel|, w.client.phase.pos) - w.client.phase.pos else 0
  {
    if Enabled(p, w, StreamNext) && |w.channel| - w.client.phase.pos <= p.capacity
    then Drain(p, Do(p, w, StreamNext)) else w
  }

  lemma {:induction false} DrainReachesTheHead(p: Setup, w: World)
    requires Inv(p, w) && w.outbox == [] && w.client.phase.Streaming?
    requires |w.channel| - w.client.phase.pos <= p.capacity
    ensures Drain(p, w).client.forwarded == Log(p, w)[p.since..]
    decreases |w.client.phase.backfill| + |w.channel| - w.client.phase.pos
  {
    if Enabled(p, w, StreamNext) {
      StreamNextKeepsInv(p, w);
      DrainReachesTheHead(p, Do(p, w, StreamNext));
    } else {
      assert ForKey(w.outbox, p.key) == [];
      assert |Log(p, w)[p.base..]| == |w.channel|;
    }
  }

  function Resubscribe(p: Setup, w: World): World
    requires w.client.phase.Opening? && w.outbox == []
  {
    Do(p, Do(p, Do(p, w, Attach), ReadHead), ReadBackfill)
  }

  lemma ResubscribeKeepsInv(p: Setup, w: World)
    requires Inv(p, w) && w.client.phase.Opening? && w.outbox == []
    ensures var r := Resubscribe(p, w);
      Inv(p, r) && r.rows == w.rows && r.outbox == [] && r.client.phase.Streaming? && r.client.phase.pos == |r.channel|
  {
    var attached := Do(p, w, Attach);
    StepKeepsInv(p, w, Attach);
    StepKeepsInv(p, attached, ReadHead);
    StepKeepsInv(p, Do(p, attached, ReadHead), ReadBackfill);
  }

  lemma CatchesUp(p: Setup, w: World)
    requires Inv(p, w) && w.client.phase.Opening? && w.outbox == []
    ensures Drain(p, Resubscribe(p, w)).client.forwarded == Log(p, w)[p.since..]
  {
    ResubscribeKeepsInv(p, w);
    DrainReachesTheHead(p, Resubscribe(p, w));
  }

  lemma RestOfTheLog(rows: seq<Envelope>, k: Key, since: nat)
    requires Ascending(rows) && Dense(ForKey(rows, k)) && since <= |ForKey(rows, k)|
    ensures Select(rows, k, since, MaxSeq(rows, k)) == ForKey(rows, k)[since..]
  {
    MaxSeqIsLast(rows, k);
    BackfillIsSlice(rows, k, since, |ForKey(rows, k)|);
  }

  /** Nothing is withheld: from any reachable moment at which the consumer is
      about to (re-)subscribe and the writer is idle, one undisturbed
      subscription delivers the whole rest of the log. */
  lemma QuiescentSubscriptionCatchesUp(p: Setup, w0: World, acts: seq<Action>)
    requires Init(p, w0) && Exec(p, w0, acts).Some?
    requires Exec(p, w0, acts).value.client.phase.Opening? && Exec(p, w0, acts).value.outbox == []
    ensures var w := Exec(p, w0, acts).value;
      Drain(p, Resubscribe(p, w)).client.forwarded == Select(w.rows, p.key, p.since, MaxSeq(w.rows, p.key))
  {
    RunKeepsInv(p, w0, acts);
    var w := Exec(p, w0, acts).value;
    CatchesUp(p, w);
    RestOfTheLog(w.rows, p.key, p.since);
  }

  /** A poll reports a lag exactly when the backfill is used up and the broadcast is more
      than its capacity ahead; then nothing is forwarded and the stream is given up. */
  lemma LagExactlyOnOverflow(p: Setup, w: World)
    requires Enabled(p, w, StreamNext)
    ensures var c, c' := w.client, Do(p, w, StreamNext).client;
      var overflown := c.phase.backfill == [] && |w.channel| - c.phase.pos > p.capacity;
      && (overflown ==>
            && c'.hist == c.hist + [Lag(w.now)] && c'.forwarded == c.forwarded && c'.lastSeq == c.lastSeq
            && (c'.phase.Opening? || c'.phase.Stopped?))
      && (!overflown ==> c'.phase.Streaming? && (c'.hist == c.hist || c'.hist == c.hist + [Clean(w.now)]))
  {
  }

  // ---- the retry budget over runs -----------------------------------------

  ghost predicate BudgetInv(p: Setup, c: Client) {
    && c.retry == RetryAfter(p.cfg, p.start, c.hist)
    && c.opens == Lags(c.hist) + (if c.phase.Opening? || (c.phase.Stopped? && c.phase.why.PersistentLag?) then 0 else 1)
    && (if c.phase.Stopped? && c.phase.why.PersistentLag?
        then c.phase.why.retries == c.retry.laggedRetries == Max(1, p.cfg.hardLimit)
        else c.retry.laggedRetries < Max(1, p.cfg.hardLimit))
  }

  lemma HistSnoc(cfg: RetryConfig, start: nat, hist: seq<Receipt>, r: Receipt)
    ensures RetryAfter(cfg, start, hist + [r]) == Note(RetryAfter(cfg, start, hist), cfg, r)
    ensures Lags(hist + [r]) == Lags(hist) + if r.Lag? then 1 else 0
  {
    assert (hist + [r])[..|hist + [r]| - 1] == hist;
  }

  lemma ForwardKeepsBudget(p: Setup, c: Client, env: Envelope, now: nat)
    requires BudgetInv(p, c) && c.phase.Streaming?
    ensures BudgetInv(p, Forward(p, c, env, now)) && Forward(p, c, env, now).phase == c.phase
  {
    HistSnoc(p.cfg, p.start, c.hist, Clean(now));
  }

  lemma LagKeepsBudget(p: Setup, c: Client, now: nat)
    requires BudgetInv(p, c) && c.phase.Streaming?
    ensures BudgetInv(p, OnLagged(p, c, now))
  {
    HistSnoc(p.cfg, p.start, c.hist, Lag(now));
  }

  /** Where a stream stands does not matter to the budget. */
  lemma StreamKeepsBudget(p: Setup, c: Client, c': Client)
    requires BudgetInv(p, c) && c.phase.Streaming? && c'.phase.Streaming?
    requires c'.retry == c.retry && c'.hist == c.hist && c'.opens == c.opens
    ensures BudgetInv(p, c')
  {
  }

  lemma PollKeepsBudget(p: Setup, w: World)
    requires BudgetInv(p, w.client) && Enabled(p, w, StreamNext)
    ensures BudgetInv(p, Poll(p, w))
  {
    var c := w.client;
    var Streaming(pos, head, backfill) := c.phase;
    if backfill != [] {
      ForwardKeepsBudget(p, c, backfill[0], w.now);
      StreamKeepsBudget(p, Forward(p, c, backfill[0], w.now), Poll(p, w));
    } else if |w.channel| - pos > p.capacity {
      LagKeepsBudget(p, c, w.now);
    } else {
      var moved := c.(phase := Streaming(pos + 1, head, []));
      StreamKeepsBudget(p, c, moved);
      if w.channel[pos].sequence > head {
        ForwardKeepsBudget(p, moved, w.channel[pos], w.now);
        StreamKeepsBudget(p, Forward(p, moved, w.channel[pos], w.now), Poll(p, w));
      }
    }
  }

  lemma StepKeepsBudget(p: Setup, w: World, a: Action)
    requires BudgetInv(p, w.client) && Enabled(p, w, a)
    ensures BudgetInv(p, Do(p, w, a).client)
  {
    if a.StreamNext? {
      PollKeepsBudget(p, w);
    } else {
      assert Do(p, w, a).client.retry == w.client.retry && Do(p, w, a).client.hist == w.client.hist;
    }
  }

  lemma {:induction false} RunKeepsBudget(p: Setup, w: World, acts: seq<Action>)
    requires Init(p, w) && Exec(p, w, acts).Some?
    ensures BudgetInv(p, Exec(p, w, acts).value.client)
  {
    if acts != [] {
      var n := |acts| - 1;
      RunKeepsBudget(p, w, acts[..n]);
      StepKeepsBudget(p, Exec(p, w, acts[..n]).value, acts[n]);
    }
  }

  /** `PersistentLag` is raised exactly when the sticky counter first reaches
      the hard limit. */
  lemma {:induction false} PersistentLagAtTheLimit(p: Setup, w0: World, acts: seq<Action>)
    requires Init(p, w0) && Exec(p, w0, acts).Some?
    ensures var c := Exec(p, w0, acts).value.client; var limit := Max(1, p.cfg.hardLimit);
      && (c.phase.Stopped? && c.phase.why.PersistentLag? <==> c.retry.laggedRetries >= limit)
      && (c.phase.Stopped? && c.phase.why.PersistentLag? ==> c.phase.why.retries == limit)
      && c.retry == RetryAfter(p.cfg, p.start, c.hist)
  {
    RunKeepsBudget(p, w0, acts);
  }

  /** With no quiet gap between clean receives, at most `max(1, hard_limit)`
      subscriptions are ever opened, however often the window rolls over. */
  lemma BoundedResubscription(p: Setup, w0: World, acts: seq<Action>)
    requires Init(p, w0) && Exec(p, w0, acts).Some?
    requires var hist := Exec(p, w0, acts).value.client.hist;
      forall i :: 0 <= i < |hist| ==> !EndsQuiet(hist, p.cfg.quietPeriod, i)
    ensures var c := Exec(p, w0, acts).value.client; var limit := Max(1, p.cfg.hardLimit);
      && c.opens <= limit
      && (c.phase.Stopped? && c.phase.why.PersistentLag? <==> Lags(c.hist) == limit)
  {
    RunKeepsBudget(p, w0, acts);
    NoQuietGapCountsEveryLag(p.cfg, p.start, Exec(p, w0, acts).value.client.hist);
  }
}
