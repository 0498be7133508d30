/** Any number of snapshot tasks interleaved with appends and with retention's
    prune. `history` is every event ever appended, `cut` how many of them the prune
    has removed from the front. */
module SnapshotRuns {
  import opened Arithmetic
  import opened Events
  import opened Sessions
  import opened EventStore
  import opened Snapshots
  import opened ReplayAgreement
  import opened SecondRetention

  /** Where a task stands between two awaits. */
  datatype Task =
    | SubscribeStart(head: nat)
    | SubscribeLoad(head: nat, latest: Snap)
    | FullLoad(retain: bool)
    | Save(from: Snap, events: seq<Envelope>, retain: bool)
    | PruneNext(lastSeq: nat)
    | Done

  datatype World = World(key: Key, history: seq<Envelope>, cut: nat, snaps: map<nat, Session>, tasks: seq<Task>)

  datatype Action =
    | AppendEvents(events: seq<Envelope>)
    | Spawn(task: Task)
    | Advance(index: nat, latest: Snap)

  /** The rows a reader still finds. */
  function Rows(w: World): seq<Envelope>
    requires w.cut <= |w.history|
  {
    w.history[w.cut..]
  }

  /** Where a load that should start after `from` really starts, once rows are pruned. */
  function FirstRow(w: World, from: Snap, head: nat): nat {
    Min(Max(w.cut, from.sequence), head)
  }

  /** A load loses nothing that matters: the rows it still finds decide every field
      the pruned ones after `from` have changed. */
  ghost predicate HarmlessLoad(w: World, from: Snap, head: nat)
    requires from.sequence <= head <= |w.history|
  {
    var first := FirstRow(w, from, head);
    first == head || Retold(from.state, w.history[from.sequence..first], w.history[first..head])
  }

  ghost predicate Harmless(w: World, t: Task) {
    match t
    case SubscribeLoad(head, latest) => latest.sequence <= head <= |w.history| ==> HarmlessLoad(w, latest, head)
    case FullLoad(_) => HarmlessLoad(w, Snap(0, DEFAULT), |w.history|)
    case _ => true
  }

  /** Numbered on from `last` without gaps. */
  ghost predicate Follows(events: seq<Envelope>, last: nat) {
    forall i :: 0 <= i < |events| ==> events[i].sequence == last + i + 1
  }

  ghost predicate Enabled(w: World, a: Action) {
    match a
    case AppendEvents(events) => Only(events, w.key) && Follows(events, |w.history|)
    case Spawn(t) => (t.SubscribeStart? && t.head <= |w.history|) || t.FullLoad?
    case Advance(i, latest) =>
      i < |w.tasks| && !w.tasks[i].Done?
      && (w.tasks[i].SubscribeStart? ==> IsLatest(w.snaps, latest))
      && w.cut <= |w.history|
  }

  /** One step of one task, as the task code performs it between two awaits. */
  ghost function TaskStep(w: World, t: Task, latest: Snap): World
    requires w.cut <= |w.history|
  {
    match t
    case SubscribeStart(head) => w
    case SubscribeLoad(_, _) => w
    case FullLoad(_) => w
    case Save(from, events, _) =>
      if events == [] then w
      else w.(snaps := w.snaps[events[|events| - 1].sequence := Replay(from.state, events)])
    case PruneNext(lastSeq) =>
      var keepFrom := if lastSeq >= RETENTION_TAIL then lastSeq - RETENTION_TAIL else 0;
      if keepFrom <= w.cut then w else w.(cut := Min(keepFrom, |w.history|))
    case Done => w
  }

  ghost function NextTask(w: World, t: Task, latest: Snap): Task
    requires w.cut <= |w.history|
  {
    match t
    case SubscribeStart(head) =>
      if head < latest.sequence + SNAPSHOT_INTERVAL then Done else SubscribeLoad(head, latest)
    case SubscribeLoad(head, snap) => Save(snap, Select(Rows(w), w.key, snap.sequence, head), false)
    case FullLoad(retain) => Save(Snap(0, DEFAULT), Rows(w), retain)
    case Save(_, events, retain) =>
      if retain && events != [] then PruneNext(events[|events| - 1].sequence) else Done
    case PruneNext(_) => Done
    case Done => Done
  }

  ghost function Do(w: World, a: Action): World
    requires Enabled(w, a)
  {
    match a
    case AppendEvents(events) => w.(history := w.history + events)
    case Spawn(t) => w.(tasks := w.tasks + [t])
    case Advance(i, latest) =>
      var t := w.tasks[i];
      TaskStep(w, t, latest).(tasks := w.tasks[i := NextTask(w, t, latest)])
  }

  ghost function Exec(w: World, acts: seq<Action>): Option<World> {
    if acts == [] then Some(w)
    else
      var before := Exec(w, acts[..|acts| - 1]);
      var a := acts[|acts| - 1];
      if before.Some? && Enabled(before.value, a) then Some(Do(before.value, a)) else None
  }

  /** What a save will store is the replay of everything up to its sequence. */
  ghost predicate SaveGood(from: Snap, events: seq<Envelope>, history: seq<Envelope>) {
    events != [] ==> GoodAt(events[|events| - 1].sequence, Replay(from.state, events), history)
  }

  ghost predicate TaskGood(w: World, t: Task) {
    match t
    case SubscribeStart(head) => head <= |w.history|
    case SubscribeLoad(head, latest) =>
      head <= |w.history| && latest.sequence <= head && GoodAt(latest.sequence, latest.state, w.history)
    case Save(from, events, _) => SaveGood(from, events, w.history)
    case PruneNext(lastSeq) => lastSeq in w.snaps && lastSeq <= |w.history|
    case _ => true
  }

  /** Everything stored is good, and a snapshot covers whatever was pruned. */
  ghost predicate Inv(w: World) {
    && Dense(w.history) && Only(w.history, w.key) && w.cut <= |w.history|
    && Good(w.snaps, w.history)
    && (w.cut > 0 ==> exists n :: n in w.snaps && w.cut <= n)
    && forall i :: 0 <= i < |w.tasks| ==> TaskGood(w, w.tasks[i])
  }

  /** What of a range is left in the first `n` events once the first `cut` are gone. */
  function Found(history: seq<Envelope>, cut: nat, n: nat, lo: nat, hi: nat): seq<Envelope>
    requires cut <= n <= |history| && lo <= hi
  {
    history[Max(cut, Min(lo, n))..Max(cut, Min(hi, n))]
  }

  lemma FoundStep(history: seq<Envelope>, cut: nat, n: nat, lo: nat, hi: nat)
    requires cut < n <= |history| && lo <= hi
    ensures Found(history, cut, n, lo, hi)
         == Found(history, cut, n - 1, lo, hi) + if lo < n <= hi then [history[n - 1]] else []
  {
    if lo < n <= hi {
      var first := Max(cut, lo);
      assert history[first..n] == history[first..n - 1] + [history[n - 1]];
    }
  }

  /** A range read of what a prune left. */
  lemma {:induction false} SelectAfterCut(history: seq<Envelope>, k: Key, cut: nat, n: nat, lo: nat, hi: nat)
    requires Dense(history) && Only(history, k) && cut <= n <= |history| && lo <= hi
    ensures Select(history[cut..n], k, lo, hi) == Found(history, cut, n, lo, hi)
  {
    if cut < n {
      var pre, e := history[cut..n - 1], history[n - 1];
      assert e.sequence == n && e.key == k;
      SelectAfterCut(history, k, cut, n - 1, lo, hi);
      assert history[cut..n] == pre + [e];
      SelectNext(pre, e, lo, hi);
      FoundStep(history, cut, n, lo, hi);
    }
  }

  lemma SelectNext(rows: seq<Envelope>, e: Envelope, lo: nat, hi: nat)
    ensures Select(rows + [e], e.key, lo, hi) == Select(rows, e.key, lo, hi) + if lo < e.sequence <= hi then [e] else []
  {
    Snoc(rows, e, e.key, lo, hi);
  }

  lemma FoundIsRest(history: seq<Envelope>, cut: nat, lo: nat, hi: nat)
    requires cut <= |history| && lo <= hi <= |history|
    ensures Found(history, cut, |history|, lo, hi) == history[Min(Max(cut, lo), hi)..hi]
  {
    if hi <= cut {
      assert history[hi..hi] == [] == history[cut..cut];
    }
  }

  lemma LoadReads(w: World, from: Snap, head: nat)
    requires Inv(w) && from.sequence <= head <= |w.history|
    ensures Select(Rows(w), w.key, from.sequence, head) == w.history[FirstRow(w, from, head)..head]
  {
    assert w.history[w.cut..|w.history|] == Rows(w);
    SelectAfterCut(w.history, w.key, w.cut, |w.history|, from.sequence, head);
    FoundIsRest(w.history, w.cut, from.sequence, head);
  }

  lemma LoadAfterCut(w: World, lo: nat, hi: nat)
    requires Inv(w) && w.cut <= lo <= hi <= |w.history|
    ensures Select(Rows(w), w.key, lo, hi) == w.history[lo..hi]
  {
    LoadReads(w, Snap(lo, DEFAULT), hi);
  }

  lemma GoodIsReplay(n: nat, state: Session, history: seq<Envelope>)
    requires Dense(history) && n <= |history|
    ensures GoodAt(n, state, history) <==> state == Replay(DEFAULT, history[..n])
  {
    PrefixIsGood(history, n);
  }

  lemma CutOfAPart(history: seq<Envelope>, from: Snap, first: nat, head: nat)
    requires GoodAt(from.sequence, from.state, history) && from.sequence <= first <= head <= |history|
    ensures Replay(from.state, history[first..head]) == Replay(DEFAULT, history[..head])
      <==> Retold(from.state, history[from.sequence..first], history[first..head])
  {
    var all, cut := history[from.sequence..head], first - from.sequence;
    CutReplaysExactly(from.state, all, cut);
    assert all[cut..] == history[first..head] && all[..cut] == history[from.sequence..first];
    SnapshotPlusTail(from, history, head);
  }

  /** A load leads to a good snapshot if and only if it is harmless. */
  lemma LoadIsGoodExactly(w: World, from: Snap, head: nat)
    requires Inv(w) && from.sequence <= head <= |w.history| && GoodAt(from.sequence, from.state, w.history)
    ensures SaveGood(from, w.history[FirstRow(w, from, head)..head], w.history) <==> HarmlessLoad(w, from, head)
  {
    var first := FirstRow(w, from, head);
    if first < head {
      var kept := w.history[first..head];
      assert kept[|kept| - 1] == w.history[head - 1] && w.history[head - 1].sequence == head;
      CutOfAPart(w.history, from, first, head);
      GoodIsReplay(head, Replay(from.state, kept), w.history);
    }
  }

  lemma GoodGrows(n: nat, state: Session, history: seq<Envelope>, more: seq<Envelope>)
    requires GoodAt(n, state, history)
    ensures GoodAt(n, state, history + more)
  {
    assert (history + more)[..n] == history[..n];
  }

  lemma AppendKeepsInv(w: World, events: seq<Envelope>)
    requires Inv(w) && Enabled(w, AppendEvents(events))
    ensures Inv(Do(w, AppendEvents(events)))
  {
    var w' := Do(w, AppendEvents(events));
    forall n | n in w'.snaps ensures GoodAt(n, w'.snaps[n], w'.history) {
      GoodGrows(n, w.snaps[n], w.history, events);
    }
    forall i | 0 <= i < |w'.tasks| ensures TaskGood(w', w'.tasks[i]) {
      match w.tasks[i]
      case SubscribeLoad(_, latest) => GoodGrows(latest.sequence, latest.state, w.history, events);
      case Save(from, read, _) =>
        if read != [] {
          GoodGrows(read[|read| - 1].sequence, Replay(from.state, read), w.history, events);
        }
      case _ =>
    }
  }

  /** What a task carries out of its step is good. */
  lemma NextTaskIsGood(w: World, t: Task, latest: Snap)
    requires Inv(w) && TaskGood(w, t) && Harmless(w, t) && (t.SubscribeStart? ==> IsLatest(w.snaps, latest))
    requires !t.Save?
    ensures TaskGood(w, NextTask(w, t, latest))
  {
    match t
    case SubscribeStart(head) => LatestIsGood(w.snaps, latest, w.history);
    case SubscribeLoad(head, snap) =>
      LoadReads(w, snap, head);
      LoadIsGoodExactly(w, snap, head);
    case FullLoad(_) =>
      PrefixIsGood(w.history, 0);
      LoadIsGoodExactly(w, Snap(0, DEFAULT), |w.history|);
      assert Rows(w) == w.history[w.cut..|w.history|];
    case _ =>
  }

  /** What a task does to the store keeps it good. */
  lemma TaskStepIsGood(w: World, t: Task, latest: Snap)
    requires Inv(w) && TaskGood(w, t)
    ensures var w' := TaskStep(w, t, latest);
      && Good(w'.snaps, w.history) && w.snaps.Keys <= w'.snaps.Keys && w'.cut <= |w.history|
      && (w'.cut > 0 ==> exists n :: n in w'.snaps && w'.cut <= n)
      && w'.history == w.history
  {
    match t
    case Save(from, events, _) =>
      var w' := TaskStep(w, t, latest);
      if w.cut > 0 {
        var n :| n in w.snaps && w.cut <= n;
        assert n in w'.snaps;
      }
    case _ =>
  }

  lemma AdvanceKeepsInv(w: World, i: nat, latest: Snap)
    requires Inv(w) && Enabled(w, Advance(i, latest)) && Harmless(w, w.tasks[i])
    ensures Inv(Do(w, Advance(i, latest)))
  {
    var t := w.tasks[i];
    var w' := Do(w, Advance(i, latest));
    assert TaskGood(w, t);
    TaskStepIsGood(w, t, latest);
    if !t.Save? {
      NextTaskIsGood(w, t, latest);
    }
    forall j | 0 <= j < |w'.tasks| ensures TaskGood(w', w'.tasks[j]) {
      if j != i {
        assert TaskGood(w, w.tasks[j]);
      }
    }
  }

  /** No load of the run finds rows missing that matter. */
  ghost predicate AllHarmless(w0: World, acts: seq<Action>)
    requires Exec(w0, acts).Some?
  {
    acts == [] ||
    var mid, a := Exec(w0, acts[..|acts| - 1]).value, acts[|acts| - 1];
    AllHarmless(w0, acts[..|acts| - 1]) && (a.Advance? ==> Harmless(mid, mid.tasks[a.index]))
  }

  lemma {:induction false} RunKeepsInv(w0: World, acts: seq<Action>)
    requires Inv(w0) && Exec(w0, acts).Some? && AllHarmless(w0, acts)
    ensures Inv(Exec(w0, acts).value)
  {
    if acts != [] {
      var n := |acts| - 1;
      RunKeepsInv(w0, acts[..n]);
      var mid := Exec(w0, acts[..n]).value;
      match acts[n]
      case AppendEvents(events) => AppendKeepsInv(mid, events);
      case Spawn(_) =>
      case Advance(i, latest) => AdvanceKeepsInv(mid, i, latest);
    }
  }

  /** Recovery: the latest snapshot, and the rows still there after it. */
  lemma LatestRecovers(w: World, latest: Snap)
    requires Inv(w) && IsLatest(w.snaps, latest)
    ensures w.cut <= latest.sequence <= |w.history|
    ensures Replay(latest.state, Select(Rows(w), w.key, latest.sequence, |w.history|)) == Replay(DEFAULT, w.history)
  {
    LatestIsGood(w.snaps, latest, w.history);
    LoadAfterCut(w, latest.sequence, |w.history|);
    SnapshotPlusTail(latest, w.history, |w.history|);
    assert w.history[..|w.history|] == w.history;
  }

  function Empty(k: Key): World {
    World(k, [], 0, map[], [])
  }

  /** Every stored snapshot is the replay of all events up to its sequence, and the latest
      one plus the rows after it, pruned or not, replays to the whole history's state. */
  ghost predicate AgreesWithReplay(w: World) {
    && (forall n :: n in w.snaps ==> GoodAt(n, w.snaps[n], w.history))
    && w.cut <= |w.history|
    && forall latest :: IsLatest(w.snaps, latest) ==> Recovers(w, latest)
  }

  ghost predicate Recovers(w: World, latest: Snap)
    requires w.cut <= |w.history|
  {
    && latest.sequence <= |w.history|
    && Replay(latest.state, Select(Rows(w), w.key, latest.sequence, |w.history|)) == Replay(DEFAULT, w.history)
  }

  /** So in every run from the empty log whose loads are harmless. */
  lemma HarmlessRunsAgree(k: Key, acts: seq<Action>)
    requires Exec(Empty(k), acts).Some? && AllHarmless(Empty(k), acts)
    ensures AgreesWithReplay(Exec(Empty(k), acts).value)
  {
    var w := Exec(Empty(k), acts).value;
    assert Inv(Empty(k));
    RunKeepsInv(Empty(k), acts);
    forall latest | IsLatest(w.snaps, latest) ensures Recovers(w, latest) {
      LatestRecovers(w, latest);
    }
  }

  // ---- which runs those are ---------------------------------------------------

  /** What a task can check before it loads: the first row it needs is still there. */
  predicate Timely(w: World, t: Task) {
    match t
    case SubscribeLoad(_, latest) => w.cut <= latest.sequence
    case FullLoad(_) => w.cut == 0
    case _ => true
  }

  lemma TimelyLoadIsHarmless(w: World, from: Snap, head: nat)
    requires from.sequence <= head <= |w.history| && w.cut <= from.sequence
    ensures HarmlessLoad(w, from, head)
  {
    if from.sequence < head {
      assert w.history[from.sequence..from.sequence] == [];
      NothingForgotten(from.state, w.history[from.sequence..head]);
    }
  }

  lemma TimelyIsHarmless(w: World, t: Task)
    requires Timely(w, t) && w.cut <= |w.history|
    ensures Harmless(w, t)
  {
    match t
    case SubscribeLoad(head, latest) =>
      if latest.sequence <= head <= |w.history| {
        TimelyLoadIsHarmless(w, latest, head);
      }
    case FullLoad(_) => TimelyLoadIsHarmless(w, Snap(0, DEFAULT), |w.history|);
    case _ =>
  }

  ghost predicate AllTimely(w0: World, acts: seq<Action>)
    requires Exec(w0, acts).Some?
  {
    acts == [] ||
    var mid, a := Exec(w0, acts[..|acts| - 1]).value, acts[|acts| - 1];
    AllTimely(w0, acts[..|acts| - 1]) && (a.Advance? ==> Timely(mid, mid.tasks[a.index]))
  }

  lemma {:induction false} TimelyRunsAreHarmless(w0: World, acts: seq<Action>)
    requires Exec(w0, acts).Some? && AllTimely(w0, acts)
    ensures AllHarmless(w0, acts)
  {
    if acts != [] {
      var n := |acts| - 1;
      TimelyRunsAreHarmless(w0, acts[..n]);
      if acts[n].Advance? {
        var mid := Exec(w0, acts[..n]).value;
        TimelyIsHarmless(mid, mid.tasks[acts[n].index]);
      }
    }
  }

  /** From an empty log, in every interleaving of appends, subscribe-time tasks, shutdowns
      and retentions in which each task that loads finds the first row it needs: every
      stored snapshot is a replay, and the latest one recovers the session. */
  lemma SnapshotsAgreeWithReplay(k: Key, acts: seq<Action>)
    requires Exec(Empty(k), acts).Some? && AllTimely(Empty(k), acts)
    ensures AgreesWithReplay(Exec(Empty(k), acts).value)
  {
    TimelyRunsAreHarmless(Empty(k), acts);
    HarmlessRunsAgree(k, acts);
  }

  predicate NoRetention(acts: seq<Action>) {
    forall i :: 0 <= i < |acts| ==> acts[i] != Spawn(FullLoad(true))
  }

  predicate Retains(t: Task) {
    (t.FullLoad? && t.retain) || (t.Save? && t.retain) || t.PruneNext?
  }

  lemma {:induction false} NothingPruned(k: Key, acts: seq<Action>)
    requires Exec(Empty(k), acts).Some? && NoRetention(acts)
    ensures AllTimely(Empty(k), acts)
    ensures var w := Exec(Empty(k), acts).value;
      w.cut == 0 && forall i :: 0 <= i < |w.tasks| ==> !Retains(w.tasks[i])
  {
    if acts != [] {
      var n := |acts| - 1;
      assert acts[n] != Spawn(FullLoad(true));
      NothingPruned(k, acts[..n]);
    }
  }

  /** A run without retention, whatever its interleaving. */
  lemma NeverPrunedRunsAgree(k: Key, acts: seq<Action>)
    requires Exec(Empty(k), acts).Some? && NoRetention(acts)
    ensures AgreesWithReplay(Exec(Empty(k), acts).value)
  {
    NothingPruned(k, acts);
    SnapshotsAgreeWithReplay(k, acts);
  }

  /** No load under way needs a row below `cut`. */
  predicate NoneBelow(tasks: seq<Task>, cut: nat) {
    forall i :: 0 <= i < |tasks| && tasks[i].SubscribeLoad? ==> cut <= tasks[i].latest.sequence
  }

  /** A prune that waits for the loads under way, and a full load before any prune. */
  ghost predicate Waits(w: World, a: Action)
    requires Enabled(w, a)
  {
    a.Advance? ==>
      && (w.tasks[a.index].FullLoad? ==> w.cut == 0)
      && (w.tasks[a.index].PruneNext? ==> NoneBelow(w.tasks, Do(w, a).cut))
  }

  ghost predicate PrunesWait(w0: World, acts: seq<Action>)
    requires Exec(w0, acts).Some?
  {
    acts == [] ||
    (PrunesWait(w0, acts[..|acts| - 1]) && Waits(Exec(w0, acts[..|acts| - 1]).value, acts[|acts| - 1]))
  }

  /** A task that starts now finds a snapshot that covers whatever was pruned. */
  lemma StepStaysTimely(w: World, a: Action)
    requires Inv(w) && NoneBelow(w.tasks, w.cut) && Enabled(w, a) && Waits(w, a)
    ensures NoneBelow(Do(w, a).tasks, Do(w, a).cut)
  {
    var w' := Do(w, a);
    if a.Advance? && w.tasks[a.index].SubscribeStart? {
      LatestIsGood(w.snaps, a.latest, w.history);
      assert w.cut <= a.latest.sequence;
    } else if !(a.Advance? && w.tasks[a.index].PruneNext?) {
      assert w'.cut == w.cut;
    }
  }

  lemma {:induction false} WaitingPrunesAreTimely(k: Key, acts: seq<Action>)
    requires Exec(Empty(k), acts).Some? && PrunesWait(Empty(k), acts)
    ensures AllTimely(Empty(k), acts)
    ensures NoneBelow(Exec(Empty(k), acts).value.tasks, Exec(Empty(k), acts).value.cut)
  {
    if acts != [] {
      var n := |acts| - 1;
      WaitingPrunesAreTimely(k, acts[..n]);
      TimelyRunsAreHarmless(Empty(k), acts[..n]);
      assert Inv(Empty(k));
      RunKeepsInv(Empty(k), acts[..n]);
      StepStaysTimely(Exec(Empty(k), acts[..n]).value, acts[n]);
    }
  }

  /** Retentions that load before the first prune, with prunes that wait for the
      subscribe-time loads under way: any interleaving with appends, subscriptions and
      shutdowns keeps every snapshot a replay. */
  lemma FirstRetentionsAgree(k: Key, acts: seq<Action>)
    requires Exec(Empty(k), acts).Some? && PrunesWait(Empty(k), acts)
    ensures AgreesWithReplay(Exec(Empty(k), acts).value)
  {
    WaitingPrunesAreTimely(k, acts);
    SnapshotsAgreeWithReplay(k, acts);
  }

  // ---- and what the others store ---------------------------------------------

  predicate IsLoad(t: Task) {
    t.SubscribeLoad? || t.FullLoad?
  }

  /** Where a load reads from, and how far. */
  function LoadRange(w: World, t: Task): (Snap, nat)
    requires IsLoad(t)
  {
    if t.SubscribeLoad? then (t.latest, t.head) else (Snap(0, DEFAULT), |w.history|)
  }

  lemma LoadIsASave(w: World, t: Task, latest: Snap)
    requires Inv(w) && TaskGood(w, t) && IsLoad(t)
    ensures var (from, head) := LoadRange(w, t);
      && from.sequence <= head <= |w.history| && GoodAt(from.sequence, from.state, w.history)
      && NextTask(w, t, latest).Save? && NextTask(w, t, latest).from == from
      && NextTask(w, t, latest).events == w.history[FirstRow(w, from, head)..head]
      && (Harmless(w, t) <==> HarmlessLoad(w, from, head))
  {
    var (from, head) := LoadRange(w, t);
    PrefixIsGood(w.history, 0);
    LoadReads(w, from, head);
    assert t.FullLoad? ==> Rows(w) == w.history[FirstRow(w, from, head)..head];
  }

  lemma SavingStores(w: World, from: Snap, events: seq<Envelope>)
    requires w.cut <= |w.history| && !SaveGood(from, events, w.history)
    ensures forall retain, latest :: !Good(TaskStep(w, Save(from, events, retain), latest).snaps, w.history)
  {
    var n := events[|events| - 1].sequence;
    forall retain, latest ensures !Good(TaskStep(w, Save(from, events, retain), latest).snaps, w.history) {
      assert n in TaskStep(w, Save(from, events, retain), latest).snaps;
    }
  }

  /** A load that is not harmless, in any state the tasks can be in, stores a snapshot
      that is not the replay of the events up to its sequence. */
  lemma HarmfulLoadStoresABadSnapshot(w: World, i: nat, latest: Snap)
    requires Inv(w) && Enabled(w, Advance(i, latest)) && IsLoad(w.tasks[i]) && !Harmless(w, w.tasks[i])
    ensures var loaded := Do(w, Advance(i, latest));
      Enabled(loaded, Advance(i, latest)) && !Good(Do(loaded, Advance(i, latest)).snaps, w.history)
  {
    var t := w.tasks[i];
    assert TaskGood(w, t);
    LoadIsASave(w, t, latest);
    var (from, head) := LoadRange(w, t);
    LoadIsGoodExactly(w, from, head);
    var loaded := Do(w, Advance(i, latest));
    assert loaded.tasks[i] == NextTask(w, t, latest) && loaded.history == w.history;
    SavingStores(loaded, from, loaded.tasks[i].events);
  }

  // ---- a subscribe-time task on its own -----------------------------------------

  /** Undisturbed, a subscribe-time task stores the replay up to its head if that is 1000
      events or more past the latest snapshot, and does nothing otherwise. */
  lemma UndisturbedSubscribeTask(w: World, i: nat, head: nat, latest: Snap)
    requires Inv(w) && IsLatest(w.snaps, latest)
    requires i < |w.tasks| && w.tasks[i] == SubscribeStart(head) && head <= |w.history|
    ensures var a := Advance(i, latest);
      && Enabled(w, a)
      && (head < latest.sequence + 1000 ==> Do(w, a) == w.(tasks := w.tasks[i := Done]))
      && (head >= latest.sequence + 1000 ==>
            var loaded := Do(w, a);
            && Exec(loaded, [a, a]) == Some(w.(
                 snaps := w.snaps[head := Replay(DEFAULT, w.history[..head])], tasks := w.tasks[i := Done])))
  {
    LatestIsGood(w.snaps, latest, w.history);
    if head >= latest.sequence + 1000 {
      TaskLoads(w, i, head, latest);
      TaskSaves(w, i, head, latest);
      var start := Do(w, Advance(i, latest));
      Exec2(start, Advance(i, latest), Advance(i, latest));
    }
  }

  /** What the task has in hand when it has read its events. */
  function Loaded(w: World, i: nat, head: nat, latest: Snap): World
    requires i < |w.tasks| && latest.sequence <= head <= |w.history|
  {
    w.(tasks := w.tasks[i := Save(latest, w.history[latest.sequence..head], false)])
  }

  lemma TaskLoads(w: World, i: nat, head: nat, latest: Snap)
    requires Inv(w) && IsLatest(w.snaps, latest) && GoodAt(latest.sequence, latest.state, w.history)
    requires i < |w.tasks| && w.tasks[i] == SubscribeStart(head) && latest.sequence + 1000 <= head <= |w.history|
    ensures var start := Do(w, Advance(i, latest));
      && Enabled(start, Advance(i, latest))
      && Do(start, Advance(i, latest)) == Loaded(w, i, head, latest)
  {
    var start := Do(w, Advance(i, latest));
    assert start == w.(tasks := w.tasks[i := SubscribeLoad(head, latest)]);
    LoadAfterCut(w, latest.sequence, head);
    assert start.tasks[i := Save(latest, w.history[latest.sequence..head], false)]
      == w.tasks[i := Save(latest, w.history[latest.sequence..head], false)];
  }

  lemma TaskSaves(w: World, i: nat, head: nat, latest: Snap)
    requires Inv(w) && GoodAt(latest.sequence, latest.state, w.history)
    requires i < |w.tasks| && latest.sequence < head <= |w.history|
    ensures var loaded := Loaded(w, i, head, latest);
      && Enabled(loaded, Advance(i, latest))
      && Do(loaded, Advance(i, latest))
        == w.(snaps := w.snaps[head := Replay(DEFAULT, w.history[..head])], tasks := w.tasks[i := Done])
  {
    var loaded, events := Loaded(w, i, head, latest), w.history[latest.sequence..head];
    assert events[|events| - 1] == w.history[head - 1] && events[|events| - 1].sequence == head;
    SnapshotPlusTail(latest, w.history, head);
    assert loaded.tasks[i := Done] == w.tasks[i := Done];
  }

  // ---- a second retention, from the empty log ----------------------------------

  const NO_SNAP := Snap(0, DEFAULT)

  lemma Exec2(w: World, a: Action, b: Action)
    requires Enabled(w, a) && Enabled(Do(w, a), b)
    ensures Exec(w, [a, b]) == Some(Do(Do(w, a), b))
  {
    assert [a, b][..1] == [a] && [a][..0] == [];
    assert Exec(w, []) == Some(w);
    assert Exec(w, [a]) == Some(Do(w, a));
  }

  lemma {:induction false} ExecThen(w: World, a: seq<Action>, mid: World, b: seq<Action>)
    requires Exec(w, a) == Some(mid)
    ensures Exec(w, a + b) == Exec(mid, b)
  {
    if b == [] {
      assert a + b == a;
    } else {
      ExecThen(w, a, mid, b[..|b| - 1]);
      assert (a + b)[..|a + b| - 1] == a + b[..|b| - 1];
    }
  }

  /** A log appended at once, and its first retention. */
  function Appended(k: Key, history: seq<Envelope>): World {
    World(k, history, 0, map[], [FullLoad(true)])
  }

  function Saved(k: Key, history: seq<Envelope>): World {
    World(k, history, 0, map[|history| := Replay(DEFAULT, history)], [PruneNext(|history|)])
  }

  /** The first retention done, the second about to start. */
  function Again(k: Key, history: seq<Envelope>): World {
    World(k, history, RetentionCut(history), map[|history| := Replay(DEFAULT, history)], [Done, FullLoad(true)])
  }

  function Launch(history: seq<Envelope>): seq<Action> {
    [AppendEvents(history), Spawn(FullLoad(true))]
  }

  lemma AppendRuns(k: Key, history: seq<Envelope>)
    requires Only(history, k) && Follows(history, 0)
    ensures Exec(Empty(k), Launch(history)) == Some(Appended(k, history))
  {
    Exec2(Empty(k), AppendEvents(history), Spawn(FullLoad(true)));
    assert [] + history == history && [] + [FullLoad(true)] == [FullLoad(true)];
  }

  function Twice(i: nat, latest: Snap): seq<Action> {
    [Advance(i, latest), Advance(i, latest)]
  }

  /** A retention loads and saves. */
  lemma SaveRuns(w: World, i: nat, latest: Snap)
    requires w.cut < |w.history| && i < |w.tasks| && w.tasks[i] == FullLoad(true)
    ensures Exec(w, Twice(i, latest)) == Some(w.(
      snaps := w.snaps[w.history[|w.history| - 1].sequence := Replay(DEFAULT, Rows(w))],
      tasks := w.tasks[i := PruneNext(w.history[|w.history| - 1].sequence)]))
  {
    var kept, n := Rows(w), w.history[|w.history| - 1].sequence;
    var loading := w.(tasks := w.tasks[i := Save(NO_SNAP, kept, true)]);
    assert kept[|kept| - 1] == w.history[|w.history| - 1];
    assert Do(w, Advance(i, latest)) == loading;
    SaveStep(loading, i, latest, kept);
    Exec2(w, Advance(i, latest), Advance(i, latest));
    assert w.tasks[i := Save(NO_SNAP, kept, true)][i := PruneNext(n)] == w.tasks[i := PruneNext(n)];
  }

  lemma SaveStep(w: World, i: nat, latest: Snap, kept: seq<Envelope>)
    requires w.cut <= |w.history| && i < |w.tasks| && w.tasks[i] == Save(NO_SNAP, kept, true) && kept != []
    ensures Enabled(w, Advance(i, latest))
    ensures var n := kept[|kept| - 1].sequence;
      Do(w, Advance(i, latest)) ==
        w.(snaps := w.snaps[n := Replay(DEFAULT, kept)], tasks := w.tasks[i := PruneNext(n)])
  {
  }

  function Prune(latest: Snap): seq<Action> {
    [Advance(0, latest), Spawn(FullLoad(true))]
  }

  lemma PruneRuns(k: Key, history: seq<Envelope>, latest: Snap)
    requires history != []
    ensures Exec(Saved(k, history), Prune(latest)) == Some(Again(k, history))
  {
    var w := Saved(k, history);
    Exec2(w, Advance(0, latest), Spawn(FullLoad(true)));
    assert w.tasks[0 := Done] + [FullLoad(true)] == [Done, FullLoad(true)];
  }

  /** A second retention replaces the good snapshot by one that is not the replay. */
  lemma SecondRetentionStoresABadSnapshot(k: Key, history: seq<Envelope>)
    requires Only(history, k) && Follows(history, 0)
    requires |history| > RETENTION_TAIL
    requires history[0].payload.SessionStarted? && history[0].payload.sessionId != 0
    requires forall i :: 1 <= i < |history| ==> !history[i].payload.SessionStarted?
    ensures exists acts :: StoresBad(Exec(Empty(k), acts), history)
  {
    AppendRuns(k, history);
    var once := FirstRetention(k, history, Launch(history), NO_SNAP);
    SecondLoadRuns(k, history, NO_SNAP);
    ExecThen(Empty(k), once, Again(k, history), Twice(1, NO_SNAP));
    SecondRetentionForgetsTheSession(history);
    assert StoresBad(Exec(Empty(k), once + Twice(1, NO_SNAP)), history);
  }

  function Forgotten(k: Key, history: seq<Envelope>): World {
    Again(k, history).(snaps := map[|history| := Replay(DEFAULT, history[RetentionCut(history)..])],
                       tasks := [Done, PruneNext(|history|)])
  }

  lemma SecondLoadRuns(k: Key, history: seq<Envelope>, latest: Snap)
    requires |history| > RETENTION_TAIL && Follows(history, 0)
    ensures Exec(Again(k, history), Twice(1, latest)) == Some(Forgotten(k, history))
  {
    SaveRuns(Again(k, history), 1, latest);
    SecondSave(|history|, Replay(DEFAULT, history), Replay(DEFAULT, history[RetentionCut(history)..]));
  }

  lemma SecondSave(n: nat, before: Session, after: Session)
    ensures map[n := before][n := after] == map[n := after]
    ensures [Done, FullLoad(true)][1 := PruneNext(n)] == [Done, PruneNext(n)]
  {
  }

  lemma FirstRetention(k: Key, history: seq<Envelope>, append: seq<Action>, latest: Snap) returns (acts: seq<Action>)
    requires history != [] && Only(history, k) && Follows(history, 0)
    requires Exec(Empty(k), append) == Some(Appended(k, history))
    ensures Exec(Empty(k), acts) == Some(Again(k, history))
  {
    LoadRuns(k, history, latest);
    PruneRuns(k, history, latest);
    ExecThen(Empty(k), append, Appended(k, history), Twice(0, latest));
    ExecThen(Empty(k), append + Twice(0, latest), Saved(k, history), Prune(latest));
    acts := append + Twice(0, latest) + Prune(latest);
  }

  lemma LoadRuns(k: Key, history: seq<Envelope>, latest: Snap)
    requires history != [] && Follows(history, 0)
    ensures Exec(Appended(k, history), Twice(0, latest)) == Some(Saved(k, history))
  {
    var w := Appended(k, history);
    SaveRuns(w, 0, latest);
    assert history[0..] == history && w.tasks[0 := PruneNext(|history|)] == [PruneNext(|history|)];
  }

  ghost predicate StoresBad(w: Option<World>, history: seq<Envelope>) {
    && w.Some? && w.value.history == history
    && |history| in w.value.snaps && w.value.snaps[|history|] != Replay(DEFAULT, history)
    && forall n :: n in w.value.snaps ==> n == |history|
  }

  /** A session launched once and longer than the tail. */
  function Plain(k: Key): seq<Envelope> {
    seq(RETENTION_TAIL + 1,
        i requires 0 <= i => Envelope(k, i + 1, if i == 0 then SessionStarted(1, 1) else ToolCall("", "")))
  }

  lemma SecondRetentionCanGoWrong(k: Key)
    ensures exists acts :: StoresBad(Exec(Empty(k), acts), Plain(k))
  {
    SecondRetentionStoresABadSnapshot(k, Plain(k));
  }
}
