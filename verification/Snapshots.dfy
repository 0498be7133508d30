/** Snapshots of a session and first retention: the three tasks that store a
    snapshot, run against the writer thread's table. */
module Snapshots {
  import opened Events
  import opened Sessions
  import opened EventStore
  import opened WriterThread

  const SNAPSHOT_INTERVAL := 1000
  const RETENTION_TAIL := 200

  /** A snapshot; `Snap(0, DEFAULT)` stands for having none. */
  datatype Snap = Snap(sequence: nat, state: Session)

  /** Every stored snapshot is the replay of the history up to its sequence,
      and its state's `last_seq` is that sequence. */
  ghost predicate Good(snaps: map<nat, Session>, history: seq<Envelope>) {
    forall n :: n in snaps ==> GoodAt(n, snaps[n], history)
  }

  ghost predicate GoodAt(n: nat, state: Session, history: seq<Envelope>) {
    n <= |history| && state == Replay(DEFAULT, history[..n]) && state.lastSeq == n
  }

  ghost predicate IsLatest(snaps: map<nat, Session>, s: Snap) {
    if snaps == map[] then s == Snap(0, DEFAULT)
    else s.sequence in snaps && snaps[s.sequence] == s.state && forall n :: n in snaps ==> n <= s.sequence
  }

  /** A replayed prefix of a gap-free history is a good snapshot. */
  lemma PrefixIsGood(history: seq<Envelope>, n: nat)
    requires Dense(history) && n <= |history|
    ensures GoodAt(n, Replay(DEFAULT, history[..n]), history)
  {
    if n > 0 {
      LastSeqTracksTheLog(DEFAULT, history[..n]);
    }
  }

  /** Replaying on from a good snapshot is replaying everything. */
  lemma SnapshotPlusTail(s: Snap, history: seq<Envelope>, n: nat)
    requires GoodAt(s.sequence, s.state, history) && s.sequence <= n <= |history|
    ensures Replay(s.state, history[s.sequence..n]) == Replay(DEFAULT, history[..n])
  {
    ReplaySplits(DEFAULT, history[..s.sequence], history[s.sequence..n]);
    assert history[..s.sequence] + history[s.sequence..n] == history[..n];
  }

  lemma LatestIsGood(snaps: map<nat, Session>, s: Snap, history: seq<Envelope>)
    requires Good(snaps, history) && IsLatest(snaps, s)
    ensures GoodAt(s.sequence, s.state, history)
  {
  }

  /** One session's events and snapshots, with no other task running. The
      interleaved version is the state machine in SnapshotRuns.dfy. */
  class SessionStore {
    const key: Key
    const writer: Writer
    var snapshots: map<nat, Session>

    constructor (key: Key, writer: Writer, snapshots: map<nat, Session>)
      ensures this.key == key && this.writer == writer && this.snapshots == snapshots
    {
      this.key, this.writer, this.snapshots := key, writer, snapshots;
    }

    ghost function Log(): seq<Envelope>
      reads this, writer
    {
      ForKey(writer.rows, key)
    }

    /** ORDER BY sequence DESC LIMIT 1. */
    method LoadLatestSnapshot() returns (s: Snap)
      ensures IsLatest(snapshots, s)
    {
      s := Snap(0, DEFAULT);
      var todo := snapshots.Keys;
      ghost var seen: set<nat> := {};
      while todo != {}
        invariant seen + todo == snapshots.Keys
        invariant if seen == {} then s == Snap(0, DEFAULT)
          else s.sequence in seen && snapshots[s.sequence] == s.state
        invariant forall n :: n in seen ==> n <= s.sequence
        decreases todo
      {
        var n :| n in todo;
        if n >= s.sequence {
          s := Snap(n, snapshots[n]);
        }
        todo, seen := todo - {n}, seen + {n};
      }
      assert seen == snapshots.Keys;
      assert snapshots == map[] <==> seen == {};
    }

    /** The consumer-side trigger: act only when `head` has drifted a whole
        interval past the latest snapshot, and then extend that snapshot. */
    method RunSessionSnapshotTask(head: nat)
      requires Dense(Log()) && head <= |Log()| && Good(snapshots, Log())
      modifies this`snapshots
      ensures Good(snapshots, Log())
      ensures (exists n :: n in old(snapshots) && head < n + 1000) || head < 1000
        ==> snapshots == old(snapshots)
      ensures 1000 <= head && (forall n :: n in old(snapshots) ==> n + 1000 <= head)
        ==> snapshots == old(snapshots)[head := Replay(DEFAULT, Log()[..head])]
    {
      var latest := LoadLatestSnapshot();
      LatestIsGood(snapshots, latest, Log());
      if head < latest.sequence + SNAPSHOT_INTERVAL {
        return;
      }
      var events := Select(writer.rows, key, latest.sequence, head);
      BackfillIsSlice(writer.rows, key, latest.sequence, head);
      var state, lastSeq := ReplayLoop(latest.state, latest.sequence, events);
      if lastSeq <= latest.sequence {
        return;
      }
      SnapshotPlusTail(latest, Log(), head);
      PrefixIsGood(Log(), head);
      snapshots := snapshots[lastSeq := state];
    }

    /** Load everything and replay it from the default state. */
    method ReplayAll() returns (state: Session, lastSeq: nat)
      requires writer.Valid() && Dense(Log())
      ensures state == Replay(DEFAULT, Log()) && lastSeq == |Log()| && GoodAt(lastSeq, state, Log())
    {
      var events := Select(writer.rows, key, 0, MaxSeq(writer.rows, key));
      ReadAll(writer.rows, key);
      state, lastSeq := ReplayLoop(DEFAULT, 0, events);
      assert Log()[..|Log()|] == Log();
      PrefixIsGood(Log(), |Log()|);
    }

    /** The producer-side trigger at shutdown: replay everything from scratch. */
    method SaveTerminalSnapshot()
      requires writer.Valid() && Dense(Log()) && Good(snapshots, Log())
      modifies this`snapshots
      ensures Good(snapshots, Log())
      ensures snapshots == if Log() == [] then old(snapshots) else old(snapshots)[|Log()| := Replay(DEFAULT, Log())]
    {
      var state, lastSeq := ReplayAll();
      if lastSeq > 0 {
        snapshots := snapshots[lastSeq := state];
      }
    }

    /** Ask the writer thread to delete everything before the last `RETENTION_TAIL` events. */
    method PruneBeforeTail(lastSeq: nat, pruneOk: bool) returns (pruned: Option<nat>)
      requires writer.Valid() && Dense(Log()) && lastSeq == |Log()| == MaxSeq(writer.rows, key)
      modifies writer`rows, writer`nextSequence
      ensures writer.Valid()
      ensures MaxSeq(writer.rows, key) == lastSeq
      ensures lastSeq <= 200 ==> pruned == Some(0) && writer.rows == old(writer.rows)
      ensures lastSeq > 200 && !pruneOk ==> pruned == None && writer.rows == old(writer.rows)
      ensures lastSeq > 200 && pruneOk
        ==> pruned == Some(lastSeq - 200) && Log() == old(Log())[lastSeq - 200..]
    {
      var saturated := if lastSeq >= RETENTION_TAIL then lastSeq - RETENTION_TAIL else 0;
      var pruneBelow := saturated + 1;
      if pruneBelow <= 1 {
        return Some(0);
      }
      ghost var rows := writer.rows;
      PruneToTail(rows, key, RETENTION_TAIL);
      var reply := writer.HandlePrune(key, pruneBelow, pruneOk);
      assert writer.rows == if pruneOk then Delete(rows, key, lastSeq - RETENTION_TAIL + 1) else rows;
      pruned := if reply.Pruned? then Some(reply.count) else None;
    }

    /** First retention of a gap-free log 1..n: it stores the final state, keeps
        exactly the last min(n, 200) events, and never loses the head, so the
        next append still gets n + 1 although the writer's cache is evicted. */
    method ApplySessionRetention(pruneOk: bool) returns (pruned: Option<nat>)
      requires writer.Valid() && Dense(Log()) && Good(snapshots, Log())
      modifies this`snapshots, writer`rows, writer`nextSequence
      ensures writer.Valid()
      ensures Good(snapshots, old(Log()))
      ensures snapshots == if old(Log()) == [] then old(snapshots)
        else old(snapshots)[|old(Log())| := Replay(DEFAULT, old(Log()))]
      ensures MaxSeq(writer.rows, key) == |old(Log())|
      ensures |old(Log())| <= 200 ==> pruned == Some(0) && writer.rows == old(writer.rows)
      ensures |old(Log())| > 200 && !pruneOk ==> pruned == None && writer.rows == old(writer.rows)
      ensures |old(Log())| > 200 && pruneOk
        ==> pruned == Some(|old(Log())| - 200) && Log() == old(Log())[|old(Log())| - 200..]
    {
      var state, lastSeq := ReplayAll();
      if lastSeq > 0 {
        snapshots := snapshots[lastSeq := state];
      }
      ReadAll(writer.rows, key);
      pruned := PruneBeforeTail(lastSeq, pruneOk);
    }
  }
}
