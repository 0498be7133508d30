/** Where every turn is, and how many terminal events it gets: a conservation
    law over all interleavings of the writer task, the reader task and shutdown. */
module TurnAccounting {
  import opened Events
  import opened TurnProtocol
  import opened TurnSafety
  import opened TurnTheorems

  /** What a run has thrown away, and which turns failed before delivery:
      `overwritten` turns lost the `open` slot to a later one, `unrecorded` and
      `lostEnds` are failures and ends whose append failed. */
  datatype Books = Books(
    unwritten: set<TurnId>, overwritten: set<TurnId>, unrecorded: set<TurnId>, lostEnds: set<TurnId>)

  const NOTHING_LOST := Books({}, {}, {}, {})

  function Keep(s: Conn, b: Books, a: Action): Books
    requires Enabled(s, a)
  {
    match a
    case WSerialized(ok) => if ok then b else b.(unwritten := b.unwritten + {s.writer.turn.id})
    case WWritten(ok) => if ok then b else b.(unwritten := b.unwritten + {s.writer.turn.id})
    case WFlushed(ok) => if ok then b else b.(unwritten := b.unwritten + {s.writer.turn.id})
    case WPublishOpen => b.(overwritten := b.overwritten + Just(s.open))
    case WAppendFailed(ok) => if ok then b else b.(unrecorded := b.unrecorded + {s.writer.turn.id})
    case RAppendBatch(ok) => if ok then b else b.(lostEnds := b.lostEnds + Just(InFlight(s.reader)))
    case RAppendCrash(ok) => if ok then b else b.(lostEnds := b.lostEnds + Just(s.reader.aborted))
    case _ => b
  }

  function BooksAfter(s: Conn, b: Books, acts: seq<Action>): Books
    requires Exec(s, acts).Some?
  {
    if acts == [] then b
    else Keep(Exec(s, acts[..|acts| - 1]).value, BooksAfter(s, b, acts[..|acts| - 1]), acts[|acts| - 1])
  }

  // ---- counting ------------------------------------------------------------

  function One(c: bool): nat {
    if c then 1 else 0
  }

  function Waiting(queue: seq<Turn>, t: TurnId): nat {
    if queue == [] then 0 else One(queue[0].id == t) + Waiting(queue[1..], t)
  }

  /** How often a log records that turn `t` ended, and that its delivery failed. */
  function EndCount(log: seq<Entry>, t: TurnId): nat {
    if log == [] then 0 else EndCount(log[..|log| - 1], t) + One(Ends(log[|log| - 1].event, t))
  }

  predicate Fails(e: SessionEvent, t: TurnId) {
    e.PromptDeliveryFailed? && e.turnId == t
  }

  function FailCount(log: seq<Entry>, t: TurnId): nat {
    if log == [] then 0 else FailCount(log[..|log| - 1], t) + One(Fails(log[|log| - 1].event, t))
  }

  /** `TurnCompleted`, `TurnAborted` and `PromptDeliveryFailed` together. */
  function TerminalCount(log: seq<Entry>, t: TurnId): nat {
    EndCount(log, t) + FailCount(log, t)
  }

  lemma CountSnoc(log: seq<Entry>, e: Entry, t: TurnId)
    ensures EndCount(log + [e], t) == EndCount(log, t) + One(Ends(e.event, t))
    ensures FailCount(log + [e], t) == FailCount(log, t) + One(Fails(e.event, t))
  {
    assert (log + [e])[..|log|] == log;
  }

  lemma {:induction false} CountNeutral(log: seq<Entry>, author: Author, events: seq<SessionEvent>, t: TurnId)
    requires AllFrame(events)
    ensures EndCount(log + Tag(author, events), t) == EndCount(log, t)
    ensures FailCount(log + Tag(author, events), t) == FailCount(log, t)
  {
    if events == [] {
      assert log + Tag(author, events) == log;
    } else {
      var front, e := events[..|events| - 1], events[|events| - 1];
      CountNeutral(log, author, front, t);
      CountSnoc(log + Tag(author, front), Entry(author, e), t);
      assert log + Tag(author, events) == (log + Tag(author, front)) + [Entry(author, e)];
    }
  }

  lemma {:induction false} WaitingSnoc(queue: seq<Turn>, turn: Turn, t: TurnId)
    ensures Waiting(queue + [turn], t) == Waiting(queue, t) + One(turn.id == t)
  {
    if queue != [] {
      assert (queue + [turn])[1..] == queue[1..] + [turn];
      WaitingSnoc(queue[1..], turn, t);
    } else {
      assert [turn][1..] == [];
    }
  }

  // ---- the conservation law ------------------------------------------------

  /** The places a turn can be on the writer's side, the published `open` included;
      `fails` is how many failures of it are logged. */
  function WriterSide(s: Conn, b: Books, t: TurnId, fails: nat): nat {
    Waiting(s.queue, t) + One(Current(s.writer) == Some(t)) + One(s.open == Some(t))
    + fails + One(t in b.overwritten) + One(t in b.unrecorded)
  }

  /** And on the reader's; `ends` is how many ends of it are logged. */
  function ReaderSide(s: Conn, b: Books, t: TurnId, ends: nat): nat {
    One(InFlight(s.reader) == Some(t)) + ends + One(t in b.lostEnds)
  }

  predicate Failing(w: WriterPc) {
    w.WClear? || w.WFail?
  }

  predicate Level(s: Conn, b: Books, t: TurnId, ends: nat, fails: nat) {
    && (if s.takenPending == Some(t) then WriterSide(s, b, t, fails) == 1 && ReaderSide(s, b, t, ends) == 1
        else WriterSide(s, b, t, fails) + ReaderSide(s, b, t, ends) == One(t in s.used))
    && (t in b.unwritten <==> fails > 0 || t in b.unrecorded || (Current(s.writer) == Some(t) && Failing(s.writer)))
  }

  /** Every turn ever sent is in exactly one place. The one exception is a turn a
      crashing reader took out of `pending`: it is in one place on each side. */
  predicate Balanced(s: Conn, b: Books, t: TurnId) {
    Level(s, b, t, EndCount(s.log, t), FailCount(s.log, t)) && (s.reader.RAppend? ==> AllFrame(s.reader.frame))
  }

  /** How many ends, and how many failures, of `t` a step logs. */
  function EndsLogged(s: Conn, a: Action, t: TurnId): nat
    requires Enabled(s, a)
  {
    match a
    case RAppendBatch(ok) => One(ok && InFlight(s.reader) == Some(t))
    case RAppendCrash(ok) => One(ok && s.reader.aborted == Some(t))
    case _ => 0
  }

  function FailsLogged(s: Conn, a: Action, t: TurnId): nat
    requires Enabled(s, a)
  {
    match a
    case WAppendFailed(ok) => One(ok && s.writer.turn.id == t)
    case _ => 0
  }

  /** The writer goes on with its turn, or gives it up before it is written. */
  lemma LevelHand(s: Conn, b: Books, a: Action, t: TurnId, ends: nat, fails: nat)
    requires Level(s, b, t, ends, fails) && Enabled(s, a) && KeepsTurn(a)
    ensures Level(Do(s, a), Keep(s, b, a), t, ends + EndsLogged(s, a, t), fails + FailsLogged(s, a, t))
  {
    var s', b' := DoWriter(s, a), Keep(s, b, a);
    assert Do(s, a) == s' && EndsLogged(s, a, t) == 0 && FailsLogged(s, a, t) == 0;
    assert Current(s'.writer) == Current(s.writer) == Some(s.writer.turn.id) && !Failing(s.writer);
    assert s'.queue == s.queue && s'.open == s.open && s'.reader == s.reader;
    assert s'.takenPending == s.takenPending && s'.used == s.used;
    assert b'.unwritten == (if Failing(s'.writer) then b.unwritten + {s.writer.turn.id} else b.unwritten);
    assert b'.(unwritten := b.unwritten) == b;
    assert WriterSide(s', b', t, fails) == WriterSide(s, b, t, fails);
    assert ReaderSide(s', b', t, ends) == ReaderSide(s, b, t, ends);
  }

  lemma LevelIdle(s: Conn, b: Books, a: Action, t: TurnId, ends: nat, fails: nat)
    requires PlaceInv(s) && Level(s, b, t, ends, fails) && Enabled(s, a) && (a.WRecv? || a.WStop? || a.WSetPending?)
    ensures Level(Do(s, a), Keep(s, b, a), t, ends + EndsLogged(s, a, t), fails + FailsLogged(s, a, t))
  {
  }

  lemma LevelClear(s: Conn, b: Books, a: Action, t: TurnId, ends: nat, fails: nat)
    requires Level(s, b, t, ends, fails) && Enabled(s, a) && a.WClearPending?
    ensures Level(Do(s, a), Keep(s, b, a), t, ends + EndsLogged(s, a, t), fails + FailsLogged(s, a, t))
  {
    assert Do(s, a) == DoWriter(s, a);
  }

  lemma LevelFail(s: Conn, b: Books, a: Action, t: TurnId, ends: nat, fails: nat)
    requires Level(s, b, t, ends, fails) && Enabled(s, a) && a.WAppendFailed?
    ensures Level(Do(s, a), Keep(s, b, a), t, ends + EndsLogged(s, a, t), fails + FailsLogged(s, a, t))
  {
    assert Do(s, a) == DoWriter(s, a);
  }

  lemma LevelPublish(s: Conn, b: Books, a: Action, t: TurnId, ends: nat, fails: nat)
    requires PlaceInv(s) && Level(s, b, t, ends, fails) && Enabled(s, a) && (a.WPublishOpen?)
    ensures Level(Do(s, a), Keep(s, b, a), t, ends + EndsLogged(s, a, t), fails + FailsLogged(s, a, t))
  {
  }

  lemma LevelWriter(s: Conn, b: Books, a: Action, t: TurnId, ends: nat, fails: nat)
    requires PlaceInv(s) && Level(s, b, t, ends, fails) && Enabled(s, a) && IsWriterStep(a)
    ensures Level(Do(s, a), Keep(s, b, a), t, ends + EndsLogged(s, a, t), fails + FailsLogged(s, a, t))
  {
    if KeepsTurn(a) {
      LevelHand(s, b, a, t, ends, fails);
    } else if a.WRecv? || a.WStop? || a.WSetPending? {
      LevelIdle(s, b, a, t, ends, fails);
    } else if a.WPublishOpen? {
      LevelPublish(s, b, a, t, ends, fails);
    } else if a.WClearPending? {
      LevelClear(s, b, a, t, ends, fails);
    } else {
      LevelFail(s, b, a, t, ends, fails);
    }
  }

  predicate Takes(a: Action) {
    a.RResult? || a.RTakeTurn?
  }

  predicate Closes(a: Action) {
    a.RAppendBatch? || a.RAppendCrash?
  }

  lemma LevelResult(s: Conn, b: Books, a: Action, t: TurnId, ends: nat, fails: nat)
    requires Level(s, b, t, ends, fails) && Enabled(s, a) && a.RResult? && s.takenPending.None?
    ensures Level(Do(s, a), Keep(s, b, a), t, ends + EndsLogged(s, a, t), fails)
  {
    assert Do(s, a) == DoReader(s, a);
  }

  lemma LevelTakeTurn(s: Conn, b: Books, a: Action, t: TurnId, ends: nat, fails: nat)
    requires Level(s, b, t, ends, fails) && Enabled(s, a) && a.RTakeTurn? && s.takenPending.None?
    requires s.pending.Some? ==> Current(s.writer) == s.pending && s.pending.value in s.used
    ensures Level(Do(s, a), Keep(s, b, a), t, ends + EndsLogged(s, a, t), fails)
  {
    assert Do(s, a) == DoReader(s, a);
  }

  lemma LevelBatch(s: Conn, b: Books, a: Action, t: TurnId, ends: nat, fails: nat)
    requires Level(s, b, t, ends, fails) && Enabled(s, a) && a.RAppendBatch?
    ensures Level(Do(s, a), Keep(s, b, a), t, ends + EndsLogged(s, a, t), fails)
  {
    assert Do(s, a) == DoReader(s, a);
  }

  lemma LevelCrash(s: Conn, b: Books, a: Action, t: TurnId, ends: nat, fails: nat)
    requires Level(s, b, t, ends, fails) && Enabled(s, a) && a.RAppendCrash?
    ensures Level(Do(s, a), Keep(s, b, a), t, ends + EndsLogged(s, a, t), fails)
  {
    assert Do(s, a) == DoReader(s, a);
  }

  lemma LevelOther(s: Conn, b: Books, a: Action, t: TurnId, ends: nat, fails: nat)
    requires Level(s, b, t, ends, fails) && Enabled(s, a) && !IsWriterStep(a) && !a.Send? && !Takes(a) && !Closes(a)
    ensures Level(Do(s, a), Keep(s, b, a), t, ends + EndsLogged(s, a, t), fails)
  {
    var s' := Do(s, a);
    assert Keep(s, b, a) == b && EndsLogged(s, a, t) == 0;
    assert s'.queue == s.queue && s'.writer == s.writer && s'.open == s.open;
    assert s'.takenPending == s.takenPending && s'.used == s.used;
    assert InFlight(s'.reader) == InFlight(s.reader);
  }

  lemma LevelSend(s: Conn, b: Books, turn: Turn, t: TurnId, ends: nat, fails: nat)
    requires Level(s, b, t, ends, fails) && Enabled(s, Send(turn)) && s.takenPending != Some(turn.id)
    ensures Level(Do(s, Send(turn)), b, t, ends, fails)
  {
    WaitingSnoc(s.queue, turn, t);
  }

  lemma LevelReader(s: Conn, b: Books, a: Action, t: TurnId, ends: nat, fails: nat)
    requires PlaceInv(s) && Level(s, b, t, ends, fails) && Enabled(s, a) && !IsWriterStep(a) && !a.Send?
    ensures Level(Do(s, a), Keep(s, b, a), t, ends + EndsLogged(s, a, t), fails)
  {
    if a.RResult? {
      LevelResult(s, b, a, t, ends, fails);
    } else if a.RTakeTurn? {
      LevelTakeTurn(s, b, a, t, ends, fails);
    } else if a.RAppendBatch? {
      LevelBatch(s, b, a, t, ends, fails);
    } else if a.RAppendCrash? {
      LevelCrash(s, b, a, t, ends, fails);
    } else {
      LevelOther(s, b, a, t, ends, fails);
    }
  }

  lemma CountOne(log: seq<Entry>, author: Author, e: SessionEvent, t: TurnId)
    ensures EndCount(log + Tag(author, [e]), t) == EndCount(log, t) + One(Ends(e, t))
    ensures FailCount(log + Tag(author, [e]), t) == FailCount(log, t) + One(Fails(e, t))
  {
    assert Tag(author, [e]) == [Entry(author, e)];
    CountSnoc(log, Entry(author, e), t);
  }

  lemma CountBatch(log: seq<Entry>, frame: seq<SessionEvent>, completed: Option<SessionEvent>, t: TurnId)
    requires AllFrame(frame) && (completed.Some? ==> completed.value.TurnCompleted?)
    ensures var grown := log + Tag(ByFrame, Batch(frame, completed));
      && EndCount(grown, t) == EndCount(log, t) + One(InFlight(RAppend(frame, completed)) == Some(t))
      && FailCount(grown, t) == FailCount(log, t)
  {
    CountNeutral(log, ByFrame, frame, t);
    if completed.Some? {
      var e := Entry(ByFrame, completed.value);
      CountSnoc(log + Tag(ByFrame, frame), e, t);
      assert log + Tag(ByFrame, Batch(frame, completed)) == (log + Tag(ByFrame, frame)) + [e];
    } else {
      assert Batch(frame, completed) == frame;
    }
  }

  lemma CountCrash(log: seq<Entry>, aborted: Option<TurnId>, t: TurnId)
    ensures var grown := log + Tag(ByTerminal, CrashBatch(aborted));
      && EndCount(grown, t) == EndCount(log, t) + One(aborted == Some(t))
      && FailCount(grown, t) == FailCount(log, t)
  {
    if aborted.None? {
      assert CrashBatch(aborted) == [SessionCrashed("EOF")];
      CountOne(log, ByTerminal, SessionCrashed("EOF"), t);
    } else {
      var abort := TurnAborted(aborted.value, "session_crashed");
      CountOne(log, ByTerminal, abort, t);
      CountOne(log + Tag(ByTerminal, [abort]), ByTerminal, SessionCrashed("EOF"), t);
      TagTwo(log, abort);
    }
  }

  lemma TagTwo(log: seq<Entry>, abort: SessionEvent)
    ensures log + Tag(ByTerminal, [abort] + [SessionCrashed("EOF")])
         == (log + Tag(ByTerminal, [abort])) + Tag(ByTerminal, [SessionCrashed("EOF")])
  {
  }

  ghost predicate Counted(s: Conn, a: Action, t: TurnId)
    requires Enabled(s, a)
  {
    && EndCount(Do(s, a).log, t) == EndCount(s.log, t) + EndsLogged(s, a, t)
    && FailCount(Do(s, a).log, t) == FailCount(s.log, t) + FailsLogged(s, a, t)
  }

  lemma CountWriter(s: Conn, a: Action, t: TurnId)
    requires Enabled(s, a) && IsWriterStep(a)
    ensures Counted(s, a, t)
  {
    WriterStepLogs(s, a);
    WriterCounts(s, a, t);
    if WriterLogs(s, a) == [] {
      assert s.log + Tag(ByWriter, []) == s.log;
    } else {
      CountOne(s.log, ByWriter, WriterLogs(s, a)[0], t);
    }
  }

  /** The writer logs at most one event a step, and ends no turn. */
  lemma WriterCounts(s: Conn, a: Action, t: TurnId)
    requires Enabled(s, a) && IsWriterStep(a)
    ensures var logs := WriterLogs(s, a);
      && EndsLogged(s, a, t) == 0
      && FailsLogged(s, a, t) == (if logs != [] then One(Fails(logs[0], t)) else 0)
      && (logs != [] ==> logs == [logs[0]] && !Ends(logs[0], t))
  {
  }

  lemma CountBatchStep(s: Conn, a: Action, t: TurnId)
    requires PlaceInv(s) && Enabled(s, a) && a.RAppendBatch? && AllFrame(s.reader.frame)
    ensures Counted(s, a, t)
  {
    CountBatch(s.log, s.reader.frame, s.reader.completed, t);
  }

  lemma CountCrashStep(s: Conn, a: Action, t: TurnId)
    requires Enabled(s, a) && a.RAppendCrash?
    ensures Counted(s, a, t)
  {
    CountCrash(s.log, s.reader.aborted, t);
  }

  lemma CountQuietStep(s: Conn, a: Action, t: TurnId)
    requires Enabled(s, a) && !IsWriterStep(a) && !Closes(a)
    ensures Counted(s, a, t)
  {
    if a.AppendEnded? {
      CountOne(s.log, ByShutdown, SessionEnded, t);
    } else {
      assert Do(s, a).log == s.log;
    }
  }

  lemma CountReader(s: Conn, a: Action, t: TurnId)
    requires PlaceInv(s) && Enabled(s, a) && !IsWriterStep(a)
    requires s.reader.RAppend? ==> AllFrame(s.reader.frame)
    ensures Counted(s, a, t)
  {
    if a.RAppendBatch? {
      CountBatchStep(s, a, t);
    } else if a.RAppendCrash? {
      CountCrashStep(s, a, t);
    } else {
      CountQuietStep(s, a, t);
    }
  }

  lemma BalanceStep(s: Conn, b: Books, a: Action, t: TurnId)
    requires PlaceInv(s) && Balanced(s, b, t) && Enabled(s, a)
    ensures Balanced(Do(s, a), Keep(s, b, a), t)
  {
    LevelStep(s, b, a, t, EndCount(s.log, t), FailCount(s.log, t));
    FramesStayFrames(s, a);
    if IsWriterStep(a) {
      CountWriter(s, a, t);
    } else {
      CountReader(s, a, t);
    }
  }

  lemma LevelStep(s: Conn, b: Books, a: Action, t: TurnId, ends: nat, fails: nat)
    requires PlaceInv(s) && Level(s, b, t, ends, fails) && Enabled(s, a)
    ensures Level(Do(s, a), Keep(s, b, a), t, ends + EndsLogged(s, a, t), fails + FailsLogged(s, a, t))
  {
    if a.Send? {
      LevelSend(s, b, a.turn, t, ends, fails);
    } else if IsWriterStep(a) {
      LevelWriter(s, b, a, t, ends, fails);
    } else {
      LevelReader(s, b, a, t, ends, fails);
    }
  }

  lemma FramesStayFrames(s: Conn, a: Action)
    requires Enabled(s, a) && (s.reader.RAppend? ==> AllFrame(s.reader.frame))
    ensures Do(s, a).reader.RAppend? ==> AllFrame(Do(s, a).reader.frame)
  {
  }

  lemma {:induction false} RunBalances(s: Conn, b: Books, acts: seq<Action>, t: TurnId)
    requires Inv(s) && Balanced(s, b, t) && Exec(s, acts).Some?
    ensures Balanced(Exec(s, acts).value, BooksAfter(s, b, acts), t)
  {
    if acts != [] {
      var n := |acts| - 1;
      RunBalances(s, b, acts[..n], t);
      RunKeepsInv(s, acts[..n]);
      BalanceStep(Exec(s, acts[..n]).value, BooksAfter(s, b, acts[..n]), acts[n], t);
    }
  }

  /** A run from launch, and its books. */
  lemma LaunchBalances(sid: nat, aid: nat, acts: seq<Action>, t: TurnId)
    requires Exec(Launched(sid, aid), acts).Some?
    ensures Balanced(Exec(Launched(sid, aid), acts).value, BooksAfter(Launched(sid, aid), NOTHING_LOST, acts), t)
  {
    var s := Launched(sid, aid);
    assert s.log == [] + [s.log[0]];
    CountSnoc([], s.log[0], t);
    assert Inv(s);
    RunBalances(s, NOTHING_LOST, acts, t);
  }

  /** Its end was taken and appended, and so was its failure's record: the two
      things that can happen to a turn taken out of `pending`. */
  predicate EndLogged(b: Books, t: TurnId) {
    t !in b.lostEnds
  }

  predicate FailureLogged(b: Books, t: TurnId) {
    t in b.unwritten && t !in b.unrecorded
  }

  /** Left in the channel or in `open`, or dropped. */
  predicate Stranded(s: Conn, b: Books, t: TurnId) {
    Waiting(s.queue, t) > 0 || s.open == Some(t) || t in b.overwritten || t in b.unrecorded || t in b.lostEnds
  }

  /** How many of `TurnCompleted`, `TurnAborted` and `PromptDeliveryFailed` a sent
      turn has, in every run whose two tasks are done: exactly one, unless it was
      stranded; and for the one turn a crashing reader took out of `pending`, one
      for the abort that was appended and one for the failed write that was recorded. */
  lemma TerminalEventsExactly(sid: nat, aid: nat, acts: seq<Action>, t: TurnId)
    requires Exec(Launched(sid, aid), acts).Some?
    requires var s := Exec(Launched(sid, aid), acts).value;
      s.writer.WDone? && s.reader.RDone? && t in s.used
    ensures var s := Exec(Launched(sid, aid), acts).value;
      var b := BooksAfter(Launched(sid, aid), NOTHING_LOST, acts);
      TerminalCount(s.log, t) ==
        if s.takenPending == Some(t) then One(EndLogged(b, t)) + One(FailureLogged(b, t))
        else One(!Stranded(s, b, t))
  {
    LaunchBalances(sid, aid, acts, t);
  }

  /** So "exactly one" holds for a turn if and only if it was not stranded, or was
      taken out of `pending` and had exactly one of abort and failure logged. */
  lemma ExactlyOneTerminalEventIff(sid: nat, aid: nat, acts: seq<Action>, t: TurnId)
    requires Exec(Launched(sid, aid), acts).Some?
    requires var s := Exec(Launched(sid, aid), acts).value;
      s.writer.WDone? && s.reader.RDone? && t in s.used
    ensures var s := Exec(Launched(sid, aid), acts).value;
      var b := BooksAfter(Launched(sid, aid), NOTHING_LOST, acts);
      TerminalCount(s.log, t) == 1 <==>
        if s.takenPending == Some(t) then EndLogged(b, t) != FailureLogged(b, t) else !Stranded(s, b, t)
  {
    TerminalEventsExactly(sid, aid, acts, t);
  }

  // ---- a turn that gets none ------------------------------------------------

  /** A turn that has lost the `open` slot has no terminal event and never gets one. */
  ghost predicate Forgotten(s: Conn, b: Books, t: TurnId) {
    Inv(s) && Balanced(s, b, t) && t in b.overwritten && s.takenPending != Some(t)
  }

  lemma StepKeepsInv(s: Conn, a: Action)
    requires Inv(s) && Enabled(s, a)
    ensures Inv(Do(s, a))
  {
    assert Exec(s, [a][..0]) == Some(s);
    RunKeepsInv(s, [a]);
  }

  /** A turn the writer does not hold cannot be taken out of `pending`. */
  lemma NotTaken(s: Conn, a: Action, t: TurnId)
    requires PlaceInv(s) && Enabled(s, a) && s.takenPending != Some(t) && Current(s.writer) != Some(t)
    ensures Do(s, a).takenPending != Some(t)
  {
    if a.RTakeTurn? {
      assert s.pending != Some(t);
    } else {
      assert Do(s, a).takenPending == s.takenPending;
    }
  }

  lemma ForgottenStep(s: Conn, b: Books, a: Action, t: TurnId)
    requires Forgotten(s, b, t) && Enabled(s, a)
    ensures Forgotten(Do(s, a), Keep(s, b, a), t)
  {
    BalanceStep(s, b, a, t);
    StepKeepsInv(s, a);
    NotTaken(s, a, t);
  }

  lemma {:induction false} ForgottenForEver(s: Conn, b: Books, acts: seq<Action>, t: TurnId)
    requires Forgotten(s, b, t) && Exec(s, acts).Some?
    ensures Forgotten(Exec(s, acts).value, BooksAfter(s, b, acts), t)
  {
    if acts != [] {
      var n := |acts| - 1;
      ForgottenForEver(s, b, acts[..n], t);
      ForgottenStep(Exec(s, acts[..n]).value, BooksAfter(s, b, acts[..n]), acts[n], t);
    }
  }

  /** A turn whose `Result` has not come when the next one is published gets no
      terminal event, then or in any continuation. */
  lemma OverwrittenTurnNeverEnds(s: Conn, b: Books, t: TurnId, more: seq<Action>)
    requires Inv(s) && Balanced(s, b, t)
    requires Enabled(s, WPublishOpen) && s.open == Some(t) && s.takenPending != Some(t)
    requires Exec(Do(s, WPublishOpen), more).Some?
    ensures TerminalCount(Exec(Do(s, WPublishOpen), more).value.log, t) == 0
  {
    var s' := Do(s, WPublishOpen);
    BalanceStep(s, b, WPublishOpen, t);
    StepKeepsInv(s, WPublishOpen);
    ForgottenForEver(s', Keep(s, b, WPublishOpen), more, t);
  }

  const WRITE: seq<Action> := [WWritten(true), WFlushed(true)] + [WAppendDelivered(true)]

  /** A turn delivered to the child, its publication in `open` next. */
  function Written(s: Conn, u: Turn): Conn {
    Delivered(s, u).(open := s.open, pending := Some(u.id), writer := WPublish(u))
  }

  lemma WriteRuns(s: Conn, u: Turn)
    requires WriterFree(s) && u.id !in s.used
    ensures Exec(s, ([Send(u)] + ANNOUNCE) + WRITE) == Some(Written(s, u))
  {
    AnnounceRuns(s, u);
    var flushed := Announced(s, u).(writer := WDeliver(u));
    Exec2(Announced(s, u), WWritten(true), WFlushed(true));
    Exec1(flushed, WAppendDelivered(true));
    ExecThen(Announced(s, u), [WWritten(true), WFlushed(true)], flushed, [WAppendDelivered(true)], Written(s, u));
    ExecThen(s, [Send(u)] + ANNOUNCE, Announced(s, u), WRITE, Written(s, u));
  }

  /** Such a turn exists: send one turn, and a second before the first one's `Result`. */
  lemma PipelinedTurnNeverEnds(sid: nat, aid: nat, t: Turn, u: Turn)
    requires t.id != u.id
    ensures exists acts :: NeverEnds(Launched(sid, aid), acts, t.id)
  {
    var s0 := Launched(sid, aid);
    var first := ([Send(t)] + ANNOUNCE) + HAND;
    AnnounceRuns(s0, t);
    HandRuns(s0, t);
    ExecThen(s0, [Send(t)] + ANNOUNCE, Announced(s0, t), HAND, Delivered(s0, t));
    WriteRuns(Delivered(s0, t), u);
    var pre, ready := first + (([Send(u)] + ANNOUNCE) + WRITE), Written(Delivered(s0, t), u);
    ExecThen(s0, first, Delivered(s0, t), ([Send(u)] + ANNOUNCE) + WRITE, ready);
    OverwriteIsForEver(sid, aid, pre, ready, t.id);
  }

  /** Whatever follows `acts`, the turn has been sent and has no terminal event. */
  ghost predicate NeverEnds(s: Conn, acts: seq<Action>, t: TurnId) {
    Exec(s, acts).Some? && t in Exec(s, acts).value.used && forall more :: Endless(s, acts + more, t)
  }

  predicate Endless(s: Conn, acts: seq<Action>, t: TurnId) {
    Exec(s, acts).Some? ==> TerminalCount(Exec(s, acts).value.log, t) == 0
  }

  lemma OverwriteIsForEver(sid: nat, aid: nat, pre: seq<Action>, s: Conn, t: TurnId)
    requires Exec(Launched(sid, aid), pre) == Some(s)
    requires Enabled(s, WPublishOpen) && s.open == Some(t) && s.takenPending != Some(t)
    ensures NeverEnds(Launched(sid, aid), pre + [WPublishOpen], t)
  {
    var s0, acts := Launched(sid, aid), pre + [WPublishOpen];
    LaunchBalances(sid, aid, pre, t);
    assert Inv(s0);
    RunKeepsInv(s0, pre);
    Exec1(s, WPublishOpen);
    ExecThen(s0, pre, s, [WPublishOpen], Do(s, WPublishOpen));
    forall more ensures Endless(s0, acts + more, t) {
      ExecSplits(s0, acts, more);
      if Exec(s0, acts + more).Some? {
        OverwrittenTurnNeverEnds(s, BooksAfter(s0, NOTHING_LOST, pre), t, more);
      }
    }
  }

  // ---- delivered, or failed to be --------------------------------------------

  ghost predicate DeliveredIn(log: seq<Entry>, t: TurnId) {
    exists i :: 0 <= i < |log| && IsDelivered(log[i].event) && log[i].event.turnId == t
  }

  /** A delivered turn is past the point at which its delivery can fail. */
  ghost predicate PastFailing(s: Conn, t: TurnId) {
    DeliveredIn(s.log, t) ==>
      && t in s.used && Waiting(s.queue, t) == 0 && FailCount(s.log, t) == 0
      && (Current(s.writer) == Some(t) ==> s.writer.WPublish?)
  }

  predicate IsDeliveryOf(e: SessionEvent, t: TurnId) {
    IsDelivered(e) && e.turnId == t
  }

  lemma DeliveriesGrow(log: seq<Entry>, author: Author, events: seq<SessionEvent>, t: TurnId)
    ensures DeliveredIn(log + Tag(author, events), t) <==>
            DeliveredIn(log, t) || exists i :: 0 <= i < |events| && IsDeliveryOf(events[i], t)
  {
    var all := log + Tag(author, events);
    if DeliveredIn(log, t) {
      var i :| 0 <= i < |log| && IsDelivered(log[i].event) && log[i].event.turnId == t;
      assert all[i] == log[i];
    }
    if i :| 0 <= i < |events| && IsDeliveryOf(events[i], t) {
      assert all[|log| + i] == Entry(author, events[i]);
    }
    if DeliveredIn(all, t) {
      var i :| 0 <= i < |all| && IsDelivered(all[i].event) && all[i].event.turnId == t;
      if i < |log| {
        assert all[i] == log[i];
      } else {
        assert all[i] == Entry(author, events[i - |log|]) && IsDeliveryOf(events[i - |log|], t);
      }
    }
  }

  /** Only the writer's own append delivers a turn. */
  lemma WhoDelivers(s: Conn, a: Action, t: TurnId)
    requires PlaceInv(s) && Enabled(s, a) && (s.reader.RAppend? ==> AllFrame(s.reader.frame))
    ensures DeliveredIn(Do(s, a).log, t)
        <==> DeliveredIn(s.log, t) || (a == WAppendDelivered(true) && s.writer.turn.id == t)
  {
    StepLogsAll(s, a);
    DeliveriesGrow(s.log, StepAuthor(a), StepLogs(s, a), t);
    if a == WAppendDelivered(true) {
      assert StepLogs(s, a) == [DeliveredEvent(s.writer.turn)];
      assert IsDeliveryOf(StepLogs(s, a)[0], s.writer.turn.id);
    } else {
      OthersDeliverNothing(s, a);
    }
  }

  lemma OthersDeliverNothing(s: Conn, a: Action)
    requires PlaceInv(s) && Enabled(s, a) && (s.reader.RAppend? ==> AllFrame(s.reader.frame))
    requires a != WAppendDelivered(true)
    ensures forall i :: 0 <= i < |StepLogs(s, a)| ==> !IsDelivered(StepLogs(s, a)[i])
  {
  }

  lemma PastFailingSend(s: Conn, turn: Turn, t: TurnId)
    requires PastFailing(s, t) && Enabled(s, Send(turn))
    ensures PastFailing(Do(s, Send(turn)), t)
  {
    WaitingSnoc(s.queue, turn, t);
  }

  /** While the writer holds a turn it is nowhere else, so nothing has failed yet. */
  lemma PastFailingDelivers(s: Conn, b: Books, a: Action, t: TurnId)
    requires PlaceInv(s) && Balanced(s, b, t) && PastFailing(s, t) && Enabled(s, a) && a == WAppendDelivered(true)
    requires DeliveredIn(Do(s, a).log, t) <==> DeliveredIn(s.log, t) || s.writer.turn.id == t
    ensures PastFailing(Do(s, a), t)
  {
    CountWriter(s, a, t);
    assert Do(s, a) == DoWriter(s, a);
    assert Current(s.writer) == Some(t) ==> Waiting(s.queue, t) == 0 && FailCount(s.log, t) == 0 && t in s.used;
  }

  lemma PastFailingWriter(s: Conn, a: Action, t: TurnId)
    requires PastFailing(s, t) && Enabled(s, a) && IsWriterStep(a) && a != WAppendDelivered(true)
    requires DeliveredIn(Do(s, a).log, t) <==> DeliveredIn(s.log, t)
    ensures PastFailing(Do(s, a), t)
  {
    CountWriter(s, a, t);
    assert Do(s, a) == DoWriter(s, a) && Do(s, a).used == s.used;
  }

  lemma ReaderFrame(s: Conn, a: Action)
    requires Enabled(s, a) && !IsWriterStep(a) && !a.Send?
    ensures Do(s, a).queue == s.queue && Do(s, a).writer == s.writer && Do(s, a).used == s.used
  {
  }

  lemma PastFailingSame(s: Conn, s': Conn, t: TurnId)
    requires PastFailing(s, t)
    requires s'.queue == s.queue && s'.writer == s.writer && s'.used == s.used
    requires FailCount(s'.log, t) == FailCount(s.log, t)
    requires DeliveredIn(s'.log, t) <==> DeliveredIn(s.log, t)
    ensures PastFailing(s', t)
  {
  }

  lemma FailsUnchanged(s: Conn, a: Action, t: TurnId)
    requires Enabled(s, a) && !IsWriterStep(a) && Counted(s, a, t)
    ensures FailCount(Do(s, a).log, t) == FailCount(s.log, t)
  {
    assert FailsLogged(s, a, t) == 0;
  }

  lemma PastFailingStep(s: Conn, b: Books, a: Action, t: TurnId)
    requires PlaceInv(s) && Balanced(s, b, t) && PastFailing(s, t) && Enabled(s, a)
    ensures PastFailing(Do(s, a), t)
  {
    if a.Send? {
      PastFailingSend(s, a.turn, t);
    } else {
      WhoDelivers(s, a, t);
      if a == WAppendDelivered(true) {
        PastFailingDelivers(s, b, a, t);
      } else if IsWriterStep(a) {
        PastFailingWriter(s, a, t);
      } else {
        CountReader(s, a, t);
        ReaderFrame(s, a);
        FailsUnchanged(s, a, t);
        PastFailingSame(s, Do(s, a), t);
      }
    }
  }

  lemma {:induction false} RunPastFailing(sid: nat, aid: nat, acts: seq<Action>, t: TurnId)
    requires Exec(Launched(sid, aid), acts).Some?
    ensures PastFailing(Exec(Launched(sid, aid), acts).value, t)
  {
    if acts != [] {
      var n := |acts| - 1;
      RunPastFailing(sid, aid, acts[..n], t);
      LaunchBalances(sid, aid, acts[..n], t);
      RunKeepsInv(Launched(sid, aid), acts[..n]);
      PastFailingStep(Exec(Launched(sid, aid), acts[..n]).value,
          BooksAfter(Launched(sid, aid), NOTHING_LOST, acts[..n]), acts[n], t);
    }
  }

  /** No turn is both delivered and recorded as not delivered, in any reachable log:
      a supervisor awaiting a delivered turn never reads that its delivery failed. */
  lemma DeliveredNeverFails(sid: nat, aid: nat, acts: seq<Action>, i: nat, j: nat)
    requires Exec(Launched(sid, aid), acts).Some?
    requires var log := Exec(Launched(sid, aid), acts).value.log;
      i < |log| && j < |log| && IsDelivered(log[i].event) && log[j].event.PromptDeliveryFailed?
    ensures var log := Exec(Launched(sid, aid), acts).value.log;
      log[i].event.turnId != log[j].event.turnId
  {
    var log := Exec(Launched(sid, aid), acts).value.log;
    RunPastFailing(sid, aid, acts, log[i].event.turnId);
    FailIsCounted(log, log[j].event.turnId, j);
  }

  lemma {:induction false} FailIsCounted(log: seq<Entry>, t: TurnId, j: nat)
    requires j < |log| && Fails(log[j].event, t)
    ensures FailCount(log, t) > 0
  {
    if j < |log| - 1 {
      FailIsCounted(log[..|log| - 1], t, j);
    }
  }

  // ---- a crash is reported once ----------------------------------------------

  /** The fallback channel speaks for a crash only when the log does not. */
  ghost predicate ReportedOnce(s: Conn) {
    && s.crashFallbacks <= 1
    && (s.crashFallbacks == 1 ==> s.reader.RDone? && NoCrash(s))
  }

  lemma ReportStep(s: Conn, a: Action)
    requires AuthorInv(s) && ReportedOnce(s) && Enabled(s, a)
    ensures ReportedOnce(Do(s, a))
  {
    if IsWriterStep(a) {
      WriterStepLogs(s, a);
    }
  }

  lemma {:induction false} RunReportsOnce(sid: nat, aid: nat, acts: seq<Action>)
    requires Exec(Launched(sid, aid), acts).Some?
    ensures ReportedOnce(Exec(Launched(sid, aid), acts).value)
  {
    if acts != [] {
      var n := |acts| - 1;
      RunReportsOnce(sid, aid, acts[..n]);
      RunKeepsInv(Launched(sid, aid), acts[..n]);
      ReportStep(Exec(Launched(sid, aid), acts[..n]).value, acts[n]);
    }
  }

  /** At most one fallback signal is ever sent, and none by a session whose log has
      its crash. */
  lemma CrashIsReportedOnce(sid: nat, aid: nat, acts: seq<Action>, i: nat)
    requires Exec(Launched(sid, aid), acts).Some? && i < |Exec(Launched(sid, aid), acts).value.log|
    ensures var s := Exec(Launched(sid, aid), acts).value;
      s.crashFallbacks + One(s.log[i].author.ByTerminal?) <= 1
  {
    RunReportsOnce(sid, aid, acts);
  }

  /** How often the reader has come to report a crash. */
  function CrashSteps(acts: seq<Action>): nat {
    if acts == [] then 0 else CrashSteps(acts[..|acts| - 1]) + One(acts[|acts| - 1].RAppendCrash?)
  }

  predicate IsReport(e: Entry) {
    e.author.ByTerminal? && e.event.SessionCrashed?
  }

  function Reports(log: seq<Entry>): nat {
    if log == [] then 0 else Reports(log[..|log| - 1]) + One(IsReport(log[|log| - 1]))
  }

  lemma {:induction false} ReportsAfter(log: seq<Entry>, author: Author, events: seq<SessionEvent>)
    requires author.ByTerminal? ==> events != [] && events[|events| - 1].SessionCrashed?
    requires author.ByTerminal? ==> forall i :: 0 <= i < |events| - 1 ==> !events[i].SessionCrashed?
    ensures Reports(log + Tag(author, events)) == Reports(log) + One(author.ByTerminal?)
  {
    if events == [] {
      assert log + Tag(author, events) == log;
    } else {
      var n := |events| - 1;
      ReportsSame(log, author, events[..n]);
      var all := log + Tag(author, events);
      assert all[..|all| - 1] == log + Tag(author, events[..n]);
    }
  }

  lemma {:induction false} ReportsSame(log: seq<Entry>, author: Author, events: seq<SessionEvent>)
    requires author.ByTerminal? ==> forall i :: 0 <= i < |events| ==> !events[i].SessionCrashed?
    ensures Reports(log + Tag(author, events)) == Reports(log)
  {
    if events == [] {
      assert log + Tag(author, events) == log;
    } else {
      var n := |events| - 1;
      ReportsSame(log, author, events[..n]);
      var all := log + Tag(author, events);
      assert all[..|all| - 1] == log + Tag(author, events[..n]);
    }
  }

  lemma ReportedStep(s: Conn, a: Action)
    requires Enabled(s, a)
    ensures Do(s, a).crashFallbacks + Reports(Do(s, a).log)
         == s.crashFallbacks + Reports(s.log) + One(a.RAppendCrash?)
  {
    StepLogsAll(s, a);
    if a == RAppendCrash(true) {
      ReportsAfter(s.log, ByTerminal, StepLogs(s, a));
    } else if a.RAppendCrash? {
      assert Do(s, a).log == s.log;
    } else {
      ReportsSame(s.log, StepAuthor(a), StepLogs(s, a));
    }
  }

  /** Every crash the reader comes to report is reported, in the log or over the fallback
      channel: never both, never neither, and never a second time. */
  lemma {:induction false} CrashIsReportedExactly(sid: nat, aid: nat, acts: seq<Action>)
    requires Exec(Launched(sid, aid), acts).Some?
    ensures var s := Exec(Launched(sid, aid), acts).value;
      && s.crashFallbacks + Reports(s.log) == CrashSteps(acts) <= 1
      && (CrashSteps(acts) == 1 ==> s.reader.RDone?)
  {
    if acts == [] {
      var log := Launched(sid, aid).log;
      assert log[..0] == [];
    } else {
      var n := |acts| - 1;
      CrashIsReportedExactly(sid, aid, acts[..n]);
      ReportedStep(Exec(Launched(sid, aid), acts[..n]).value, acts[n]);
    }
  }
}
