/** The single writer thread: it owns the table and a lazy per-aggregate cache
    of the last sequence, and publishes a batch after committing it. */
module WriterThread {
  import opened Events
  import opened EventStore

  datatype AppendError = StorageError | UniqueViolation

  datatype AppendResult = Ok(seqs: seq<nat>, envelopes: seq<Envelope>) | Err(error: AppendError)

  /** Inserting this row would break UNIQUE(aggregate, sequence). */
  predicate Conflicts(rows: seq<Envelope>, row: Envelope) {
    exists i :: 0 <= i < |rows| && rows[i].key == row.key && rows[i].sequence == row.sequence
  }

  /** The batch maxima describe exactly how the staged table differs from the durable one. */
  ghost predicate Tracks(batchMax: map<Key, nat>, durable: seq<Envelope>, staged: seq<Envelope>) {
    && (forall k :: k in batchMax ==> batchMax[k] == MaxSeq(staged, k))
    && (forall k :: k !in batchMax ==> MaxSeq(durable, k) == MaxSeq(staged, k))
  }

  lemma MaxMoves(staged: seq<Envelope>, row: Envelope, next: seq<Envelope>)
    requires row.sequence == MaxSeq(staged, row.key) + 1 && next == staged + [row]
    ensures forall k :: MaxSeq(next, k) == if k == row.key then row.sequence else MaxSeq(staged, k)
  {
    forall k ensures MaxSeq(next, k) == if k == row.key then row.sequence else MaxSeq(staged, k) {
      Snoc(staged, row, k, 0, 0);
    }
  }

  /** A row one past its aggregate's maximum meets no conflict and keeps the order. */
  lemma NextIsFree(rows: seq<Envelope>, row: Envelope)
    requires Ascending(rows) && row.sequence == MaxSeq(rows, row.key) + 1
    ensures !Conflicts(rows, row) && Ascending(rows + [row])
  {
    MaxSeqBounds(rows, row.key);
    AscendingSnoc(rows, row);
  }

  lemma TracksBatchKeys(batchMax: map<Key, nat>, rows: seq<Envelope>, envs: seq<Envelope>)
    requires Tracks(batchMax, rows, rows + Stamp(rows, envs))
    ensures forall i :: 0 <= i < |envs| ==> envs[i].key in batchMax
  {
    forall i | 0 <= i < |envs| ensures envs[i].key in batchMax {
      MaxAfterStamp(rows, envs, envs[i].key);
      ForKeyMembers(envs, envs[i].key);
      assert envs[i] in ForKey(envs, envs[i].key);
    }
  }

  /** One row of the loop: the next sequence is free, and staging it is one step of `Stamp`. */
  lemma StageStep(rows: seq<Envelope>, envs: seq<Envelope>, i: nat, staged: seq<Envelope>,
                  batchMax: map<Key, nat>, row: Envelope)
    requires i < |envs| && Ascending(staged) && staged == rows + Stamp(rows, envs[..i])
    requires Tracks(batchMax, rows, staged)
    requires row == envs[i].(sequence := MaxSeq(staged, envs[i].key) + 1)
    ensures !Conflicts(staged, row) && Ascending(staged + [row])
    ensures Stamp(rows, envs[..i + 1]) == Stamp(rows, envs[..i]) + [row]
    ensures rows + Stamp(rows, envs[..i + 1]) == staged + [row]
    ensures Tracks(batchMax[row.key := row.sequence], rows, staged + [row])
  {
    NextIsFree(staged, row);
    StampSnoc(rows, envs[..i + 1]);
    assert envs[..i + 1][..i] == envs[..i];
    MaxMoves(staged, row, staged + [row]);
  }

  class Writer {
    var rows: seq<Envelope>
    var nextSequence: map<Key, nat>
    var published: seq<Envelope>

    /** A present cache entry always equals the durable maximum. */
    ghost predicate Valid()
      reads this
    {
      && Ascending(rows)
      && forall k :: k in nextSequence ==> nextSequence[k] == MaxSeq(rows, k)
    }

    ghost function Abs(): Store
      reads this
    {
      Store(rows, published)
    }

    /** Opening the database: a table left by earlier runs, a cold cache. */
    constructor (existing: seq<Envelope>)
      requires Ascending(existing)
      ensures Valid() && Abs() == Store(existing, []) && nextSequence == map[]
    {
      rows, nextSequence, published := existing, map[], [];
    }

    /** The row loop of a transaction: stamp and stage each envelope. A sequence
        comes from the batch, else from the cache, else from the table. */
    method StageRows(envs: seq<Envelope>, fault: Fault)
      returns (result: AppendResult, batchMax: map<Key, nat>)
      requires Valid()
      ensures result.Err? <==> fault.RowFault? && fault.at < |envs|
      ensures result.Err? ==> result.error == StorageError
      ensures result.Ok? ==> result.envelopes == Stamp(rows, envs) && result.seqs == Seqs(result.envelopes)
      ensures result.Ok? ==> Tracks(batchMax, rows, rows + result.envelopes)
    {
      var staged, seqs, stamped := rows, [], [];
      batchMax := map[];
      for i := 0 to |envs|
        invariant stamped == Stamp(rows, envs[..i]) && staged == rows + stamped
        invariant |seqs| == i && forall j :: 0 <= j < i ==> seqs[j] == stamped[j].sequence
        invariant Ascending(staged)
        invariant Tracks(batchMax, rows, staged)
        invariant fault.RowFault? ==> fault.at >= i
      {
        var key := envs[i].key;
        var next :=
          if key in batchMax then batchMax[key] + 1
          else if key in nextSequence then nextSequence[key] + 1
          else MaxSeq(staged, key) + 1;
        var row := envs[i].(sequence := next);
        if fault == RowFault(i) {
          return Err(StorageError), batchMax;
        }
        StageStep(rows, envs, i, staged, batchMax, row);
        if Conflicts(staged, row) {
          return Err(UniqueViolation), batchMax;
        }
        batchMax, seqs := batchMax[key := next], seqs + [next];
        staged, stamped := staged + [row], stamped + [row];
      }
      assert envs[..|envs|] == envs;
      assert seqs == Seqs(stamped);
      result := Ok(seqs, stamped);
    }

    /** One transaction. Rows are staged and become visible only at commit; the
        cache moves only after it. */
    method HandleAppend(envs: seq<Envelope>, fault: Fault) returns (result: AppendResult)
      requires Valid()
      modifies this`rows, this`nextSequence
      ensures Valid()
      ensures result.Err? <==> Faulty(fault, envs)
      ensures result.Err? ==> rows == old(rows) && nextSequence == old(nextSequence) && result.error == StorageError
      ensures result.Ok? ==> result.envelopes == Stamp(old(rows), envs) && result.seqs == Seqs(result.envelopes)
      ensures result.Ok? ==> rows == old(rows) + result.envelopes
      ensures result.Ok? ==> forall i :: 0 <= i < |envs| ==> envs[i].key in nextSequence
    {
      if fault.BeginFault? || fault.BlobFault? {
        return Err(StorageError);
      }
      var batchMax;
      result, batchMax := StageRows(envs, fault);
      if result.Err? {
        return;
      }
      if fault.CommitFault? {
        return Err(StorageError);
      }
      StampKeepsAscending(rows, envs);
      TracksBatchKeys(batchMax, rows, envs);
      rows := rows + result.envelopes;
      nextSequence := nextSequence + batchMax;
    }

    method HandleHeadSequence(k: Key, ok: bool) returns (reply: Reply)
      ensures reply == if ok then Head(MaxSeq(rows, k)) else Failed
    {
      reply := if ok then Head(MaxSeq(rows, k)) else Failed;
    }

    /** DELETE and, only when it succeeded, forget the cached maximum: deleting
        every row moves MAX back to 0. */
    method HandlePrune(k: Key, before: nat, ok: bool) returns (reply: Reply)
      requires Valid()
      modifies this`rows, this`nextSequence
      ensures Valid()
      ensures rows == if ok then Delete(old(rows), k, before) else old(rows)
      ensures nextSequence == if ok then old(nextSequence) - {k} else old(nextSequence)
      ensures reply == if ok then Pruned(|old(rows)| - |rows|) else Failed
    {
      if !ok {
        return Failed;
      }
      var kept := Delete(rows, k, before);
      reply := Pruned(|rows| - |kept|);
      DeleteKeepsAscending(rows, k, before);
      forall other | other in nextSequence && other != k
        ensures MaxSeq(kept, other) == MaxSeq(rows, other)
      {
        DeleteOther(rows, other, k, before);
        MaxSeqIsLast(rows, other);
        MaxSeqIsLast(kept, other);
      }
      rows := kept;
      nextSequence := nextSequence - {k};
    }

    /** The writer thread's loop. For every command sequence it answers and
        leaves behind exactly what the uncached writer does, and by then a
        batch has been published as a whole before the next command is read. */
    method WriterLoop(cmds: seq<Cmd>) returns (replies: seq<Reply>)
      requires Valid()
      modifies this
      ensures Valid() && Unique(rows)
      ensures (Abs(), replies) == Run(old(Abs()), cmds)
    {
      replies := [];
      for i := 0 to |cmds|
        invariant Valid()
        invariant (Abs(), replies) == Run(old(Abs()), cmds[..i])
      {
        assert cmds[..i + 1][..i] == cmds[..i];
        ghost var before := Abs();
        var reply := Nothing;
        match cmds[i] {
          case Generic =>
          case Append(envs, fault) =>
            var result := HandleAppend(envs, fault);
            if result.Ok? {
              Publish(result.envelopes);
            }
            reply := match result case Ok(seqs, _) => Appended(seqs) case Err(_) => Failed;
          case HeadSequence(k, ok) =>
            reply := HandleHeadSequence(k, ok);
          case Prune(k, bound, ok) =>
            reply := HandlePrune(k, bound, ok);
        }
        assert (Abs(), reply) == Step(before, cmds[i]);
        replies := replies + [reply];
      }
      assert cmds[..|cmds|] == cmds;
    }

    /** Send a committed batch, envelope by envelope. */
    method Publish(envs: seq<Envelope>)
      modifies this`published
      ensures published == old(published) + envs
    {
      for i := 0 to |envs|
        invariant published == old(published) + envs[..i]
      {
        published := published + [envs[i]];
        assert envs[..i + 1] == envs[..i] + [envs[i]];
      }
      assert envs[..|envs|] == envs;
    }
  }
}
