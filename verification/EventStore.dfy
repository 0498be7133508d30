/** The table of domain events, read and written by pure functions, and the
    simple writer they define: it recomputes `MAX(sequence) + 1` for every row.
    The cached writer thread in WriterThread.dfy is proved to refine it. */
module EventStore {
  import opened Arithmetic
  import opened Events

  /** Rows of one aggregate, in table order. */
  function ForKey(rows: seq<Envelope>, k: Key): seq<Envelope> {
    if rows == [] then []
    else ForKey(rows[..|rows| - 1], k) + if rows[|rows| - 1].key == k then [rows[|rows| - 1]] else []
  }

  /** SELECT COALESCE(MAX(sequence), 0) for one aggregate. */
  function MaxSeq(rows: seq<Envelope>, k: Key): nat {
    if rows == [] then 0
    else
      var rest := MaxSeq(rows[..|rows| - 1], k);
      var last := rows[|rows| - 1];
      if last.key == k && last.sequence > rest then last.sequence else rest
  }

  /** SELECT with `lo < sequence <= hi`. Table order is sequence order on every
      valid table (lemma SelectIsSorted), so ORDER BY changes nothing. */
  function Select(rows: seq<Envelope>, k: Key, lo: nat, hi: nat): seq<Envelope> {
    if rows == [] then []
    else
      var last := rows[|rows| - 1];
      Select(rows[..|rows| - 1], k, lo, hi)
      + if last.key == k && lo < last.sequence <= hi then [last] else []
  }

  /** DELETE of one aggregate's rows with `sequence < before`. */
  function Delete(rows: seq<Envelope>, k: Key, before: nat): (r: seq<Envelope>)
    ensures |r| <= |rows|
  {
    if rows == [] then []
    else
      var last := rows[|rows| - 1];
      Delete(rows[..|rows| - 1], k, before)
      + if last.key == k && last.sequence < before then [] else [last]
  }

  /** The row a further envelope gets after `pre` has been stamped. */
  function NextRow(rows: seq<Envelope>, pre: seq<Envelope>, env: Envelope): Envelope {
    env.(sequence := MaxSeq(rows + pre, env.key) + 1)
  }

  /** Stamp a batch: each envelope gets MAX + 1 over the table and the batch so far. */
  function Stamp(rows: seq<Envelope>, envs: seq<Envelope>): (r: seq<Envelope>)
    ensures |r| == |envs|
  {
    if envs == [] then []
    else
      var n := |envs| - 1;
      var pre := Stamp(rows, envs[..n]);
      pre + [NextRow(rows, pre, envs[n])]
  }

  /** The UNIQUE(aggregate_type, aggregate_id, sequence) constraint. */
  ghost predicate Unique(rows: seq<Envelope>) {
    forall i, j :: 0 <= i < j < |rows| && rows[i].key == rows[j].key ==> rows[i].sequence != rows[j].sequence
  }

  /** Within an aggregate, table order is sequence order. */
  ghost predicate Ascending(rows: seq<Envelope>) {
    forall i, j :: 0 <= i < j < |rows| && rows[i].key == rows[j].key ==> rows[i].sequence < rows[j].sequence
  }

  /** A log numbered 1, 2, 3, ... without gaps. */
  ghost predicate Dense(log: seq<Envelope>) {
    forall i :: 0 <= i < |log| ==> log[i].sequence == i + 1
  }

  // ---- commands and the uncached writer -----------------------------------

  /** Where a batch fails, if it does: opening the transaction, a blob insert,
      serialising or inserting row `at`, or the commit. */
  datatype Fault = NoFault | BeginFault | BlobFault | RowFault(at: nat) | CommitFault

  predicate Faulty(fault: Fault, envs: seq<Envelope>) {
    match fault
    case NoFault => false
    case RowFault(at) => at < |envs|
    case _ => true
  }

  datatype Cmd =
    | Generic
    | Append(envelopes: seq<Envelope>, fault: Fault)
    | HeadSequence(key: Key, ok: bool)
    | Prune(key: Key, before: nat, ok: bool)

  datatype Reply = Nothing | Failed | Appended(seqs: seq<nat>) | Head(max: nat) | Pruned(count: nat)

  /** The durable table, and everything ever sent to the broadcasts. */
  datatype Store = Store(rows: seq<Envelope>, published: seq<Envelope>)

  function Seqs(envs: seq<Envelope>): (r: seq<nat>)
    ensures |r| == |envs| && forall i :: 0 <= i < |r| ==> r[i] == envs[i].sequence
  {
    seq(|envs|, i requires 0 <= i < |envs| => envs[i].sequence)
  }

  function Step(st: Store, cmd: Cmd): (Store, Reply) {
    match cmd
    case Generic => (st, Nothing)
    case Append(envs, fault) =>
      if Faulty(fault, envs) then (st, Failed)
      else
        var stamped := Stamp(st.rows, envs);
        (Store(st.rows + stamped, st.published + stamped), Appended(Seqs(stamped)))
    case HeadSequence(k, ok) => (st, if ok then Head(MaxSeq(st.rows, k)) else Failed)
    case Prune(k, before, ok) =>
      if !ok then (st, Failed)
      else
        var kept := Delete(st.rows, k, before);
        (st.(rows := kept), Pruned(|st.rows| - |kept|))
  }

  function Run(st: Store, cmds: seq<Cmd>): (r: (Store, seq<Reply>))
    ensures |r.1| == |cmds|
  {
    if cmds == [] then (st, [])
    else
      var (before, replies) := Run(st, cmds[..|cmds| - 1]);
      var (after, reply) := Step(before, cmds[|cmds| - 1]);
      (after, replies + [reply])
  }

  // ---- facts about the table functions ------------------------------------

  /** Each table function, one row further. */
  lemma Snoc(rows: seq<Envelope>, e: Envelope, k: Key, lo: nat, hi: nat)
    ensures ForKey(rows + [e], k) == ForKey(rows, k) + if e.key == k then [e] else []
    ensures MaxSeq(rows + [e], k)
         == if e.key == k && e.sequence > MaxSeq(rows, k) then e.sequence else MaxSeq(rows, k)
    ensures Select(rows + [e], k, lo, hi)
         == Select(rows, k, lo, hi) + if e.key == k && lo < e.sequence <= hi then [e] else []
    ensures Delete(rows + [e], k, hi)
         == Delete(rows, k, hi) + if e.key == k && e.sequence < hi then [] else [e]
  {
    assert (rows + [e])[..|rows + [e]| - 1] == rows;
  }

  lemma StampLast(rows: seq<Envelope>, envs: seq<Envelope>)
    requires envs != []
    ensures var pre := Stamp(rows, envs[..|envs| - 1]);
      Stamp(rows, envs) == pre + [NextRow(rows, pre, envs[|envs| - 1])]
  {
  }

  lemma StampSnoc(rows: seq<Envelope>, envs: seq<Envelope>)
    requires envs != []
    ensures var pre := Stamp(rows, envs[..|envs| - 1]);
      var row := NextRow(rows, pre, envs[|envs| - 1]);
      Stamp(rows, envs) == pre + [row] && rows + Stamp(rows, envs) == (rows + pre) + [row]
  {
    var pre := Stamp(rows, envs[..|envs| - 1]);
    StampLast(rows, envs);
    Reassociate(rows, pre, NextRow(rows, pre, envs[|envs| - 1]));
  }

  lemma Reassociate(a: seq<Envelope>, b: seq<Envelope>, e: Envelope)
    ensures a + (b + [e]) == (a + b) + [e]
  {
  }

  lemma {:induction false} ForKeyConcat(a: seq<Envelope>, b: seq<Envelope>, k: Key)
    ensures ForKey(a + b, k) == ForKey(a, k) + ForKey(b, k)
  {
    if b == [] {
      assert a + b == a;
    } else {
      var n := |b| - 1;
      ForKeyConcat(a, b[..n], k);
      Snoc(a + b[..n], b[n], k, 0, 0);
      assert a + b == (a + b[..n]) + [b[n]];
    }
  }

  /** `ForKey` keeps exactly the rows of `k`. */
  lemma {:induction false} ForKeyMembers(rows: seq<Envelope>, k: Key)
    ensures forall e :: e in ForKey(rows, k) <==> e in rows && e.key == k
  {
    if rows != [] {
      var n := |rows| - 1;
      ForKeyMembers(rows[..n], k);
      assert rows == rows[..n] + [rows[n]];
    }
  }

  /** Extending an ascending table by a row above every row of its aggregate. */
  lemma AscendingSnoc(rows: seq<Envelope>, e: Envelope)
    requires Ascending(rows) && forall r :: r in rows && r.key == e.key ==> r.sequence < e.sequence
    ensures Ascending(rows + [e])
  {
  }

  lemma {:induction false} AscendingForKey(rows: seq<Envelope>, k: Key)
    requires Ascending(rows)
    ensures Ascending(ForKey(rows, k))
  {
    if rows != [] {
      var n := |rows| - 1;
      AscendingForKey(rows[..n], k);
      ForKeyMembers(rows[..n], k);
      if rows[n].key == k {
        AscendingSnoc(ForKey(rows[..n], k), rows[n]);
      }
    }
  }

  /** MAX bounds every row of the aggregate and, unless 0, is one of them. */
  lemma {:induction false} MaxSeqBounds(rows: seq<Envelope>, k: Key)
    ensures forall e :: e in rows && e.key == k ==> e.sequence <= MaxSeq(rows, k)
    ensures MaxSeq(rows, k) == 0 || exists e :: e in rows && e.key == k && e.sequence == MaxSeq(rows, k)
  {
    if rows != [] {
      var n := |rows| - 1;
      MaxSeqBounds(rows[..n], k);
      assert rows == rows[..n] + [rows[n]];
      assert rows[n] in rows;
    }
  }

  /** On an ascending table MAX is the sequence of the aggregate's last row. */
  lemma {:induction false} MaxSeqIsLast(rows: seq<Envelope>, k: Key)
    requires Ascending(rows)
    ensures var log := ForKey(rows, k);
      MaxSeq(rows, k) == if log == [] then 0 else log[|log| - 1].sequence
  {
    if rows != [] {
      var n := |rows| - 1;
      MaxSeqIsLast(rows[..n], k);
      var log := ForKey(rows[..n], k);
      if rows[n].key == k && log != [] {
        ForKeyMembers(rows[..n], k);
        var last := log[|log| - 1];
        assert last in log;
        var j :| 0 <= j < n && rows[..n][j] == last;
        assert rows[j].sequence < rows[n].sequence;
      }
    }
  }

  /** A range read sees only the aggregate's own rows. */
  lemma {:induction false} SelectForKey(rows: seq<Envelope>, k: Key, lo: nat, hi: nat)
    ensures Select(rows, k, lo, hi) == Select(ForKey(rows, k), k, lo, hi)
  {
    if rows != [] {
      var n := |rows| - 1;
      SelectForKey(rows[..n], k, lo, hi);
      Snoc(ForKey(rows[..n], k), rows[n], k, lo, hi);
      assert rows[n].key != k ==> ForKey(rows, k) == ForKey(rows[..n], k);
    }
  }

  /** A range read returns exactly the rows in range, in ascending sequence
      order, so ORDER BY changes nothing. */
  lemma {:induction false} SelectIsSorted(rows: seq<Envelope>, k: Key, lo: nat, hi: nat)
    requires Ascending(rows)
    ensures Ascending(Select(rows, k, lo, hi))
    ensures forall e :: e in Select(rows, k, lo, hi) <==> e in rows && e.key == k && lo < e.sequence <= hi
  {
    if rows != [] {
      var n := |rows| - 1;
      SelectIsSorted(rows[..n], k, lo, hi);
      assert rows == rows[..n] + [rows[n]];
      if rows[n].key == k && lo < rows[n].sequence <= hi {
        AscendingSnoc(Select(rows[..n], k, lo, hi), rows[n]);
      }
    }
  }

  ghost predicate Only(log: seq<Envelope>, k: Key) {
    forall i :: 0 <= i < |log| ==> log[i].key == k
  }

  /** On a gap-free log a range read is a slice. */
  lemma {:induction false} SelectOnDense(log: seq<Envelope>, k: Key, lo: nat, hi: nat)
    requires Dense(log) && Only(log, k) && lo <= hi
    ensures Select(log, k, lo, hi) == log[Min(lo, |log|)..Min(hi, |log|)]
  {
    if log != [] {
      var n := |log| - 1;
      SelectOnDense(log[..n], k, lo, hi);
      assert log[n].sequence == |log|;
      SliceStep(log, lo, hi);
    }
  }

  /** A slice of a log, one envelope further. */
  lemma SliceStep(log: seq<Envelope>, lo: nat, hi: nat)
    requires log != [] && lo <= hi
    ensures var n := |log| - 1;
      log[Min(lo, n + 1)..Min(hi, n + 1)]
          == log[..n][Min(lo, n)..Min(hi, n)] + if lo < n + 1 <= hi then [log[n]] else []
  {
    var n := |log| - 1;
    if lo <= n < hi {
      assert log[lo..n + 1] == log[..n][lo..n] + [log[n]];
    } else if hi <= n {
      assert log[..n][lo..hi] == log[lo..hi];
    }
  }

  /** The same, read through the whole table. */
  lemma BackfillIsSlice(rows: seq<Envelope>, k: Key, lo: nat, hi: nat)
    requires Dense(ForKey(rows, k)) && lo <= hi <= |ForKey(rows, k)|
    ensures Select(rows, k, lo, hi) == ForKey(rows, k)[lo..hi]
  {
    SelectForKey(rows, k, lo, hi);
    ForKeyMembers(rows, k);
    var log := ForKey(rows, k);
    forall i | 0 <= i < |log| ensures log[i].key == k { assert log[i] in log; }
    SelectOnDense(log, k, lo, hi);
  }

  /** On a gap-free log MAX is its length, and an unbounded read returns all of it. */
  lemma ReadAll(rows: seq<Envelope>, k: Key)
    requires Ascending(rows) && Dense(ForKey(rows, k))
    ensures MaxSeq(rows, k) == |ForKey(rows, k)|
    ensures Select(rows, k, 0, MaxSeq(rows, k)) == ForKey(rows, k)
  {
    MaxSeqIsLast(rows, k);
    BackfillIsSlice(rows, k, 0, |ForKey(rows, k)|);
  }

  // ---- what stamping does -------------------------------------------------

  /** Stamping keeps every aggregate's rows in sequence order, so a UNIQUE
      violation cannot happen on any row of any batch. */
  lemma {:induction false} StampKeepsAscending(rows: seq<Envelope>, envs: seq<Envelope>)
    requires Ascending(rows)
    ensures Ascending(rows + Stamp(rows, envs)) && Unique(rows + Stamp(rows, envs))
  {
    if envs == [] {
      assert rows + Stamp(rows, envs) == rows;
    } else {
      var n := |envs| - 1;
      StampKeepsAscending(rows, envs[..n]);
      StampSnoc(rows, envs);
      var mid := rows + Stamp(rows, envs[..n]);
      MaxSeqBounds(mid, envs[n].key);
      AscendingSnoc(mid, envs[n].(sequence := MaxSeq(mid, envs[n].key) + 1));
    }
  }

  function Count(envs: seq<Envelope>, k: Key): nat {
    |ForKey(envs, k)|
  }

  /** MAX after a stamped batch is MAX before plus the aggregate's share of the batch. */
  lemma {:induction false} MaxAfterStamp(rows: seq<Envelope>, envs: seq<Envelope>, k: Key)
    ensures MaxSeq(rows + Stamp(rows, envs), k) == MaxSeq(rows, k) + Count(envs, k)
  {
    if envs == [] {
      assert rows + Stamp(rows, envs) == rows;
    } else {
      var n := |envs| - 1;
      MaxAfterStamp(rows, envs[..n], k);
      StampSnoc(rows, envs);
      var mid := rows + Stamp(rows, envs[..n]);
      Snoc(mid, envs[n].(sequence := MaxSeq(mid, envs[n].key) + 1), k, 0, 0);
    }
  }

  /** Each aggregate's rows in a batch are contiguous from MAX + 1, in input order. */
  lemma {:induction false} BatchIsContiguous(rows: seq<Envelope>, envs: seq<Envelope>, i: nat)
    requires i < |envs|
    ensures Stamp(rows, envs)[i]
         == envs[i].(sequence := MaxSeq(rows, envs[i].key) + Count(envs[..i], envs[i].key) + 1)
  {
    var n := |envs| - 1;
    StampSnoc(rows, envs);
    if i < n {
      BatchIsContiguous(rows, envs[..n], i);
      assert envs[..n][..i] == envs[..i];
    } else {
      MaxAfterStamp(rows, envs[..n], envs[n].key);
    }
  }

  /** A batch extends a gap-free log of any aggregate by a gap-free tail. */
  lemma {:induction false} StampExtendsDense(rows: seq<Envelope>, envs: seq<Envelope>, k: Key)
    requires Ascending(rows) && Dense(ForKey(rows, k))
    ensures Dense(ForKey(rows + Stamp(rows, envs), k))
    ensures ForKey(rows + Stamp(rows, envs), k) == ForKey(rows, k) + ForKey(Stamp(rows, envs), k)
  {
    ForKeyConcat(rows, Stamp(rows, envs), k);
    if envs == [] {
      assert rows + Stamp(rows, envs) == rows;
    } else {
      var n := |envs| - 1;
      StampExtendsDense(rows, envs[..n], k);
      StampKeepsAscending(rows, envs[..n]);
      StampSnoc(rows, envs);
      var mid := rows + Stamp(rows, envs[..n]);
      MaxSeqIsLast(mid, k);
      Snoc(mid, envs[n].(sequence := MaxSeq(mid, envs[n].key) + 1), k, 0, 0);
    }
  }

  // ---- what pruning does --------------------------------------------------

  lemma {:induction false} DeleteMembers(rows: seq<Envelope>, k: Key, before: nat)
    ensures forall e :: e in Delete(rows, k, before) <==> e in rows && !(e.key == k && e.sequence < before)
  {
    if rows != [] {
      var n := |rows| - 1;
      DeleteMembers(rows[..n], k, before);
      assert rows == rows[..n] + [rows[n]];
    }
  }

  lemma {:induction false} DeleteOther(rows: seq<Envelope>, k: Key, other: Key, before: nat)
    requires k != other
    ensures ForKey(Delete(rows, other, before), k) == ForKey(rows, k)
  {
    if rows != [] {
      var n := |rows| - 1;
      DeleteOther(rows[..n], k, other, before);
      Snoc(Delete(rows[..n], other, before), rows[n], k, 0, 0);
      assert Delete(rows, other, before) == Delete(rows[..n], other, before)
        || Delete(rows, other, before) == Delete(rows[..n], other, before) + [rows[n]];
    }
  }

  lemma {:induction false} DeleteKeepsAscending(rows: seq<Envelope>, k: Key, before: nat)
    requires Ascending(rows)
    ensures Ascending(Delete(rows, k, before))
  {
    if rows != [] {
      var n := |rows| - 1;
      DeleteKeepsAscending(rows[..n], k, before);
      DeleteMembers(rows[..n], k, before);
      AscendingSnoc(Delete(rows[..n], k, before), rows[n]);
    }
  }

  /** Pruning a gap-free log keeps exactly the rows from `before` on. */
  lemma {:induction false} DeleteOnDense(log: seq<Envelope>, k: Key, before: nat)
    requires Dense(log) && Only(log, k) && before >= 1
    ensures Delete(log, k, before) == log[Min(before - 1, |log|)..]
  {
    if log != [] {
      var n := |log| - 1;
      DeleteOnDense(log[..n], k, before);
      assert log[n].sequence == |log|;
      assert log == log[..n] + [log[n]];
    }
  }

  /** Pruning one aggregate, seen from its own log. */
  lemma {:induction false} DeleteForKey(rows: seq<Envelope>, k: Key, before: nat)
    ensures ForKey(Delete(rows, k, before), k) == Delete(ForKey(rows, k), k, before)
    ensures |rows| - |Delete(rows, k, before)| == |ForKey(rows, k)| - |Delete(ForKey(rows, k), k, before)|
  {
    if rows != [] {
      var n := |rows| - 1;
      DeleteForKey(rows[..n], k, before);
      Snoc(Delete(rows[..n], k, before), rows[n], k, 0, before);
      Snoc(ForKey(rows[..n], k), rows[n], k, 0, before);
      assert rows[n].key != k ==> ForKey(rows, k) == ForKey(rows[..n], k);
      assert Delete(rows, k, before) == Delete(rows[..n], k, before)
        || Delete(rows, k, before) == Delete(rows[..n], k, before) + [rows[n]];
    }
  }

  /** Keeping the last `tail` rows of a longer gap-free log. */
  lemma PruneToTail(rows: seq<Envelope>, k: Key, tail: nat)
    requires Ascending(rows) && Dense(ForKey(rows, k)) && 0 < tail < |ForKey(rows, k)|
    ensures var log := ForKey(rows, k); var kept := Delete(rows, k, |log| - tail + 1);
      && ForKey(kept, k) == log[|log| - tail..]
      && |rows| - |kept| == |log| - tail
      && MaxSeq(kept, k) == |log|
  {
    var log := ForKey(rows, k);
    var before := |log| - tail + 1;
    DeleteForKey(rows, k, before);
    ForKeyMembers(rows, k);
    forall i | 0 <= i < |log| ensures log[i].key == k { assert log[i] in log; }
    DeleteOnDense(log, k, before);
    DeleteKeepsAscending(rows, k, before);
    MaxSeqIsLast(Delete(rows, k, before), k);
  }

  // ---- whole runs of the uncached writer ----------------------------------

  lemma {:induction false} RunKeepsAscending(st: Store, cmds: seq<Cmd>)
    requires Ascending(st.rows)
    ensures Ascending(Run(st, cmds).0.rows)
  {
    if cmds != [] {
      var n := |cmds| - 1;
      RunKeepsAscending(st, cmds[..n]);
      StepKeepsAscending(Run(st, cmds[..n]).0, cmds[n]);
    }
  }

  lemma StepKeepsAscending(st: Store, cmd: Cmd)
    requires Ascending(st.rows)
    ensures Ascending(Step(st, cmd).0.rows)
  {
    match cmd
    case Append(envs, _) => StampKeepsAscending(st.rows, envs);
    case Prune(k, before, _) => DeleteKeepsAscending(st.rows, k, before);
    case _ =>
  }

  /** From one store to the next the log of `k` only grew, is still gap-free, and
      its broadcast carried exactly what was committed. */
  ghost predicate Grew(st: Store, end: Store, k: Key) {
    var log := ForKey(st.rows, k);
    && Dense(ForKey(end.rows, k))
    && log <= ForKey(end.rows, k)
    && ForKey(end.published, k) == ForKey(st.published, k) + ForKey(end.rows, k)[|log|..]
  }

  lemma GrewTwice(a: Store, b: Store, c: Store, k: Key)
    requires Grew(a, b, k) && Grew(b, c, k)
    ensures Grew(a, c, k)
  {
    var x, y, z := ForKey(a.rows, k), ForKey(b.rows, k), ForKey(c.rows, k);
    assert z[|x|..] == y[|x|..] + z[|y|..];
    assert (ForKey(a.published, k) + y[|x|..]) + z[|y|..] == ForKey(a.published, k) + (y[|x|..] + z[|y|..]);
  }

  /** What a command that is not a prune of `k` does to the log and the broadcast of `k`. */
  lemma StepGrowsDenseLog(st: Store, cmd: Cmd, k: Key)
    requires Ascending(st.rows) && Dense(ForKey(st.rows, k))
    requires cmd.Prune? ==> cmd.key != k
    ensures Grew(st, Step(st, cmd).0, k)
  {
    match cmd
    case Append(envs, fault) =>
      StampExtendsDense(st.rows, envs, k);
      ForKeyConcat(st.published, Stamp(st.rows, envs), k);
    case Prune(other, before, _) => DeleteOther(st.rows, k, other, before);
    case _ =>
  }

  /** Over any run that never prunes `k`, whatever else it does, the log of `k`
      only grows, stays gap-free, and its broadcast carried exactly what was committed. */
  lemma {:induction false} RunGrowsDenseLog(st: Store, cmds: seq<Cmd>, k: Key)
    requires Ascending(st.rows) && Dense(ForKey(st.rows, k))
    requires forall i :: 0 <= i < |cmds| && cmds[i].Prune? ==> cmds[i].key != k
    ensures Grew(st, Run(st, cmds).0, k)
  {
    if cmds != [] {
      var n := |cmds| - 1;
      var mid := Run(st, cmds[..n]).0;
      RunGrowsDenseLog(st, cmds[..n], k);
      RunKeepsAscending(st, cmds[..n]);
      StepGrowsDenseLog(mid, cmds[n], k);
      GrewTwice(st, mid, Run(st, cmds).0, k);
    }
  }

  // ---- what the writer answers ------------------------------------------------

  lemma {:induction false} RunPrefix(st: Store, cmds: seq<Cmd>, i: nat)
    requires i <= |cmds|
    ensures Run(st, cmds[..i]).1 == Run(st, cmds).1[..i]
  {
    if i < |cmds| {
      var n := |cmds| - 1;
      RunPrefix(st, cmds[..n], i);
      assert cmds[..n][..i] == cmds[..i];
    } else {
      assert cmds[..i] == cmds;
    }
  }

  /** Reply `i` is what the writer answered when it had run the commands before it. */
  lemma RunAt(st: Store, cmds: seq<Cmd>, i: nat)
    requires i < |cmds|
    ensures var (after, reply) := Step(Run(st, cmds[..i]).0, cmds[i]);
      Run(st, cmds[..i + 1]).0 == after && Run(st, cmds).1[i] == reply
  {
    assert cmds[..i + 1][..i] == cmds[..i] && cmds[..i + 1][i] == cmds[i];
    RunPrefix(st, cmds, i + 1);
    assert Run(st, cmds).1[i] == Run(st, cmds).1[..i + 1][i];
  }

  /** Nothing in the batch goes wrong. */
  predicate Clean(fault: Fault, envs: seq<Envelope>) {
    fault.NoFault? || (fault.RowFault? && fault.at >= |envs|)
  }

  /** The batch as the table gets it: each envelope under its assigned sequence. */
  function Numbered(envs: seq<Envelope>, seqs: seq<nat>): seq<Envelope>
    requires |seqs| == |envs|
  {
    seq(|envs|, i requires 0 <= i < |envs| => Envelope(envs[i].key, seqs[i], envs[i].payload))
  }

  /** The sequences an appender is told are those of the rows it added: one past the maximum
      of their aggregate, contiguous, in input order. A batch that fails leaves nothing behind. */
  lemma AppendReply(st: Store, cmds: seq<Cmd>, i: nat)
    requires i < |cmds| && cmds[i].Append?
    ensures var before, after := Run(st, cmds[..i]).0, Run(st, cmds[..i + 1]).0;
      var Append(envs, fault) := cmds[i];
      var reply := Run(st, cmds).1[i];
      if !Clean(fault, envs) then reply == Failed && after == before
      else
        && reply.Appended? && |reply.seqs| == |envs|
        && (forall j :: 0 <= j < |envs|
              ==> reply.seqs[j] == MaxSeq(before.rows, envs[j].key) + Count(envs[..j], envs[j].key) + 1)
        && after.rows == before.rows + Numbered(envs, reply.seqs)
        && after.published == before.published + Numbered(envs, reply.seqs)
  {
    RunAt(st, cmds, i);
    var before := Run(st, cmds[..i]).0;
    var Append(envs, fault) := cmds[i];
    if Clean(fault, envs) {
      forall j | 0 <= j < |envs|
        ensures Stamp(before.rows, envs)[j]
          == envs[j].(sequence := MaxSeq(before.rows, envs[j].key) + Count(envs[..j], envs[j].key) + 1)
      {
        BatchIsContiguous(before.rows, envs, j);
      }
      assert Numbered(envs, Seqs(Stamp(before.rows, envs))) == Stamp(before.rows, envs);
    }
  }

  /** Any other closure the writer runs leaves the events alone and answers elsewhere. */
  lemma GenericReply(st: Store, cmds: seq<Cmd>, i: nat)
    requires i < |cmds| && cmds[i].Generic?
    ensures Run(st, cmds[..i + 1]).0 == Run(st, cmds[..i]).0 && Run(st, cmds).1[i] == Nothing
  {
    RunAt(st, cmds, i);
  }

  /** A head bounds every row of its aggregate and, unless 0, is one of them. */
  lemma HeadReply(st: Store, cmds: seq<Cmd>, i: nat)
    requires i < |cmds| && cmds[i].HeadSequence?
    ensures var before, after := Run(st, cmds[..i]).0, Run(st, cmds[..i + 1]).0;
      var HeadSequence(k, ok) := cmds[i];
      var reply := Run(st, cmds).1[i];
      && after == before
      && (!ok ==> reply == Failed)
      && (ok ==>
            && reply.Head?
            && (forall e :: e in before.rows && e.key == k ==> e.sequence <= reply.max)
            && (reply.max == 0 || exists e :: e in before.rows && e.key == k && e.sequence == reply.max))
  {
    RunAt(st, cmds, i);
    MaxSeqBounds(Run(st, cmds[..i]).0.rows, cmds[i].key);
  }

  /** The places of an aggregate's rows below a bound. */
  function Below(rows: seq<Envelope>, k: Key, bound: nat): set<nat> {
    set i: nat | i < |rows| && rows[i].key == k && rows[i].sequence < bound
  }

  lemma {:induction false} DeleteCounts(rows: seq<Envelope>, k: Key, bound: nat)
    ensures |rows| - |Delete(rows, k, bound)| == |Below(rows, k, bound)|
  {
    if rows == [] {
      assert Below(rows, k, bound) == {};
    } else {
      var n := |rows| - 1;
      DeleteCounts(rows[..n], k, bound);
      var front := Below(rows[..n], k, bound);
      if rows[n].key == k && rows[n].sequence < bound {
        assert Below(rows, k, bound) == front + {n};
      } else {
        assert Below(rows, k, bound) == front;
      }
    }
  }

  /** A prune answers how many rows of the aggregate were below the bound; exactly those are
      gone, and every other aggregate's log is as it was. */
  lemma PruneReply(st: Store, cmds: seq<Cmd>, i: nat)
    requires i < |cmds| && cmds[i].Prune?
    ensures var before, after := Run(st, cmds[..i]).0, Run(st, cmds[..i + 1]).0;
      var Prune(k, bound, ok) := cmds[i];
      var reply := Run(st, cmds).1[i];
      && after.published == before.published
      && (!ok ==> reply == Failed && after == before)
      && (ok ==>
            && reply == Pruned(|Below(before.rows, k, bound)|)
            && |after.rows| == |before.rows| - reply.count
            && (forall e :: e in after.rows <==> e in before.rows && !(e.key == k && e.sequence < bound))
            && forall other :: other != k ==> ForKey(after.rows, other) == ForKey(before.rows, other))
  {
    RunAt(st, cmds, i);
    var rows := Run(st, cmds[..i]).0.rows;
    var Prune(k, bound, ok) := cmds[i];
    DeleteCounts(rows, k, bound);
    DeleteMembers(rows, k, bound);
    forall other | other != k ensures ForKey(Delete(rows, k, bound), other) == ForKey(rows, other) {
      DeleteOther(rows, other, k, bound);
    }
  }
}
