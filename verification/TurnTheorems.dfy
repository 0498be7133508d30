/** What a log of the turn protocol promises its readers, in every run. */
module TurnTheorems {
  import opened Events
  import opened Sessions
  import opened TurnProtocol
  import opened TurnSafety

  lemma {:induction false} RunKeepsInv(s: Conn, acts: seq<Action>)
    requires Inv(s) && Exec(s, acts).Some?
    ensures Inv(Exec(s, acts).value)
  {
    if acts != [] {
      var n := |acts| - 1;
      RunKeepsInv(s, acts[..n]);
      var mid := Exec(s, acts[..n]).value;
      PlaceInvStep(mid, acts[n]);
      EndInvStep(mid, acts[n]);
      DeliveryInvStep(mid, acts[n]);
      AuthorInvStep(mid, acts[n]);
      FailInvStep(mid, acts[n]);
    }
  }

  /** A log some run of the freshly launched session leads to. */
  ghost predicate Reached(s: Conn) {
    exists sid, aid, acts :: Exec(Launched(sid, aid), acts) == Some(s)
  }

  lemma ReachedInv(s: Conn)
    requires Reached(s)
    ensures Inv(s)
  {
    var sid, aid, acts :| Exec(Launched(sid, aid), acts) == Some(s);
    assert Inv(Launched(sid, aid));
    RunKeepsInv(Launched(sid, aid), acts);
  }

  /** Pipelined or not, human or agent: no turn id gets two of `TurnCompleted`
      and `TurnAborted`. */
  lemma AtMostOneEnd(s: Conn, i: nat, j: nat, t: TurnId)
    requires Reached(s) && i < j < |s.log|
    ensures !(Ends(s.log[i].event, t) && Ends(s.log[j].event, t))
  {
    ReachedInv(s);
    assert !SameEnd(s.log[i].event, s.log[j].event);
  }

  /** The same with `PromptDeliveryFailed` counted in, for every turn the
      crashing reader did not take out of `pending`; AbortThenDeliveryFailed
      shows what becomes of one it did take. */
  lemma AtMostOneTerminalEvent(s: Conn, i: nat, j: nat, t: TurnId)
    requires Reached(s) && i < j < |s.log| && s.takenPending != Some(t)
    ensures !(TerminalFor(s.log[i].event, t) && TerminalFor(s.log[j].event, t))
  {
    ReachedInv(s);
    assert !SameEnd(s.log[i].event, s.log[j].event);
  }

  /** `TurnCompleted(t)` is preceded by `*PromptDelivered(t)`, unless exactly
      that append was lost. */
  lemma CompletedFollowsDelivered(s: Conn, i: nat)
    requires Reached(s) && i < |s.log| && s.log[i].event.TurnCompleted?
    requires s.log[i].event.turnId !in s.lost
    ensures exists j :: 0 <= j < i && IsDelivered(s.log[j].event) && s.log[j].event.turnId == s.log[i].event.turnId
  {
    ReachedInv(s);
    assert DeliveredBefore(s, s.log[i].event.turnId, i);
  }

  /** The terminal handler's abort is followed at once by its crash, nothing
      of the reader's comes after that crash, and it happens once. */
  lemma CrashIsTheReadersLastWord(s: Conn, i: nat)
    requires Reached(s) && i < |s.log| && s.log[i].author.ByTerminal?
    ensures s.log[i].event.TurnAborted?
      ==> i + 1 < |s.log| && s.log[i + 1].author.ByTerminal? && s.log[i + 1].event.SessionCrashed?
    ensures s.log[i].event.TurnAborted? || s.log[i].event.SessionCrashed?
    ensures s.log[i].event.SessionCrashed?
      ==> forall j :: i < j < |s.log| ==> !s.log[j].author.ByTerminal? && !s.log[j].author.ByFrame?
  {
    ReachedInv(s);
    assert CrashShape(s.log, i);
  }

  /** Until it logs its crash, a crashing reader only waits. */
  lemma {:induction false} CrashWaits(s: Conn, mid: seq<Action>)
    requires s.reader.RCrash? && Exec(s, mid).Some?
    requires forall i :: 0 <= i < |mid| ==> !mid[i].RAppendCrash?
    ensures Exec(s, mid).value.reader == s.reader
  {
    if mid != [] {
      CrashWaits(s, mid[..|mid| - 1]);
    }
  }

  lemma CrashLogsTwo(s: Conn, turn: TurnId)
    requires s.reader == RCrash(Some(turn))
    ensures Enabled(s, RAppendCrash(true))
    ensures Do(s, RAppendCrash(true)).log
         == s.log + [Entry(ByTerminal, TurnAborted(turn, "session_crashed")), Entry(ByTerminal, SessionCrashed("EOF"))]
  {
    assert CrashBatch(Some(turn)) == [TurnAborted(turn, "session_crashed"), SessionCrashed("EOF")];
  }

  /** A crash with an open turn, or one written but not yet open: whatever
      other tasks do before the append commits, it puts that turn's
      `TurnAborted` and then `SessionCrashed` next to each other. */
  lemma CrashAbortsTheOpenTurn(s: Conn, mid: seq<Action>)
    requires s.reader.RTake? && (s.open.Some? || s.pending.Some?)
    requires Exec(Do(s, RTakeTurn), mid).Some?
    requires forall i :: 0 <= i < |mid| ==> !mid[i].RAppendCrash?
    ensures var before := Exec(Do(s, RTakeTurn), mid).value;
      var turn := if s.open.Some? then s.open.value else s.pending.value;
      && Enabled(before, RAppendCrash(true))
      && Do(before, RAppendCrash(true)).log
         == before.log +
            [Entry(ByTerminal, TurnAborted(turn, "session_crashed")), Entry(ByTerminal, SessionCrashed("EOF"))]
  {
    CrashWaits(Do(s, RTakeTurn), mid);
    CrashLogsTwo(Exec(Do(s, RTakeTurn), mid).value, if s.open.Some? then s.open.value else s.pending.value);
  }

  ghost predicate NoCrash(s: Conn) {
    forall i :: 0 <= i < |s.log| ==> !s.log[i].author.ByTerminal?
  }

  /** If the shutdown flag is up before the reader's terminal check, the reader
      never logs a crash, whatever happens afterwards. */
  lemma {:induction false} FlagSilencesTheReader(s: Conn, acts: seq<Action>)
    requires s.shuttingDown && NoCrash(s) && !s.reader.RTake? && !s.reader.RCrash?
    requires Exec(s, acts).Some?
    ensures var s' := Exec(s, acts).value;
      NoCrash(s') && s'.shuttingDown && !s'.reader.RTake? && !s'.reader.RCrash?
  {
    if acts != [] {
      var n := |acts| - 1;
      FlagSilencesTheReader(s, acts[..n]);
      var mid := Exec(s, acts[..n]).value;
      if IsWriterStep(acts[n]) {
        WriterStepLogs(mid, acts[n]);
      }
    }
  }

  /** A shutdown call's `SessionEnded` comes after every event of both tasks,
      and they never write again. */
  lemma SessionEndedIsLast(s: Conn, i: nat)
    requires Reached(s) && i < |s.log| && s.log[i].author.ByShutdown?
    ensures i == |s.log| - 1 && s.writer.WDone? && s.reader.RDone?
  {
    ReachedInv(s);
  }

  // ---- concrete schedules -------------------------------------------------

  lemma {:induction false} ExecSplits(s: Conn, a: seq<Action>, b: seq<Action>)
    ensures Exec(s, a + b) == if Exec(s, a).Some? then Exec(Exec(s, a).value, b) else None
  {
    if b == [] {
      assert a + b == a;
    } else {
      ExecSplits(s, a, b[..|b| - 1]);
      assert (a + b)[..|a + b| - 1] == a + b[..|b| - 1];
    }
  }

  lemma Exec1(s: Conn, a: Action)
    requires Enabled(s, a)
    ensures Exec(s, [a]) == Some(Do(s, a))
  {
    assert [a][..0] == [];
    assert Exec(s, [a][..0]) == Some(s);
  }

  lemma Exec2(s: Conn, a: Action, b: Action)
    requires Enabled(s, a) && Enabled(Do(s, a), b)
    ensures Exec(s, [a, b]) == Some(Do(Do(s, a), b))
  {
    assert [a, b] == [a] + [b];
    ExecSplits(s, [a], [b]);
    Exec1(s, a);
    Exec1(Do(s, a), b);
  }

  lemma ExecThen(s: Conn, a: seq<Action>, mid: Conn, b: seq<Action>, end: Conn)
    requires Exec(s, a) == Some(mid) && Exec(mid, b) == Some(end)
    ensures Exec(s, a + b) == Some(end)
  {
    ExecSplits(s, a, b);
  }

  ghost predicate Quiet(s: Conn) {
    s.queue == [] && s.writer.WIdle? && s.reader.RIdle? && !s.cancelled && s.open.None? && s.pending.None?
  }

  /** All that sending and writing a turn needs: the last one may still be open. */
  ghost predicate WriterFree(s: Conn) {
    s.queue == [] && s.writer.WIdle? && !s.cancelled && s.pending.None?
  }

  /** From a sent turn to the moment before its bytes are written. */
  const ANNOUNCE: seq<Action> := [WRecv, WAppendQueued(true)] + [WSerialized(true), WSetPending]

  const HAND: seq<Action> := [WWritten(true), WFlushed(true)] + [WAppendDelivered(true), WPublishOpen]

  /** The turn's prompt is queued and `pending` is set; the write comes next. */
  function Announced(s: Conn, t: Turn): Conn {
    s.(log := s.log + Tag(ByWriter, [QueuedEvent(t)]), pending := Some(t.id), writer := WWrite(t),
       used := s.used + {t.id})
  }

  function Delivered(s: Conn, t: Turn): Conn {
    s.(log := s.log + Tag(ByWriter, [QueuedEvent(t)]) + Tag(ByWriter, [DeliveredEvent(t)]),
       open := Some(t.id), used := s.used + {t.id})
  }

  lemma AnnounceRuns(s: Conn, t: Turn)
    requires WriterFree(s) && t.id !in s.used
    ensures Exec(s, [Send(t)] + ANNOUNCE) == Some(Announced(s, t))
  {
    var sent := s.(queue := [t], used := s.used + {t.id});
    var queued := s.(log := s.log + Tag(ByWriter, [QueuedEvent(t)]), writer := WSerialize(t), used := s.used + {t.id});
    assert s.queue + [t] == [t] && [t][1..] == [];
    Exec1(s, Send(t));
    Exec2(sent, WRecv, WAppendQueued(true));
    Exec2(queued, WSerialized(true), WSetPending);
    ExecThen(sent, [WRecv, WAppendQueued(true)], queued, [WSerialized(true), WSetPending], Announced(s, t));
    ExecThen(s, [Send(t)], sent, ANNOUNCE, Announced(s, t));
  }

  lemma HandRuns(s: Conn, t: Turn)
    requires WriterFree(s)
    ensures Exec(Announced(s, t), HAND) == Some(Delivered(s, t))
  {
    var flushed := Announced(s, t).(writer := WDeliver(t));
    Exec2(Announced(s, t), WWritten(true), WFlushed(true));
    Exec2(flushed, WAppendDelivered(true), WPublishOpen);
    ExecThen(Announced(s, t), [WWritten(true), WFlushed(true)], flushed,
             [WAppendDelivered(true), WPublishOpen], Delivered(s, t));
  }

  /** Frames read and appended one after the other. */
  function FrameSteps(frames: seq<seq<SessionEvent>>): seq<Action> {
    if frames == [] then []
    else
      var last := frames[|frames| - 1];
      FrameSteps(frames[..|frames| - 1]) + if last == [] then [RFrame(last)] else [RFrame(last), RAppendBatch(true)]
  }

  function FrameLog(frames: seq<seq<SessionEvent>>): seq<Entry> {
    if frames == [] then [] else FrameLog(frames[..|frames| - 1]) + Tag(ByFrame, frames[|frames| - 1])
  }

  predicate AllFrames(frames: seq<seq<SessionEvent>>) {
    forall i :: 0 <= i < |frames| ==> AllFrame(frames[i])
  }

  lemma {:induction false} FramesRun(s: Conn, frames: seq<seq<SessionEvent>>)
    requires s.reader.RIdle? && !s.cancelled && AllFrames(frames)
    ensures Exec(s, FrameSteps(frames)) == Some(s.(log := s.log + FrameLog(frames)))
  {
    if frames == [] {
      assert s.log + [] == s.log;
    } else {
      var front, last := frames[..|frames| - 1], frames[|frames| - 1];
      FramesRun(s, front);
      var mid := s.(log := s.log + FrameLog(front));
      var end := s.(log := mid.log + Tag(ByFrame, last));
      assert mid.log + Tag(ByFrame, last) == s.log + FrameLog(frames);
      if last == [] {
        Exec1(mid, RFrame(last));
        assert mid.log + Tag(ByFrame, []) == mid.log;
        ExecThen(s, FrameSteps(front), mid, [RFrame(last)], end);
      } else {
        assert Batch(last, None) == last;
        Exec2(mid, RFrame(last), RAppendBatch(true));
        ExecThen(s, FrameSteps(front), mid, [RFrame(last), RAppendBatch(true)], end);
      }
    }
  }

  lemma ResultRuns(s: Conn, t: TurnId, flushed: seq<SessionEvent>, stop: string)
    requires s.reader.RIdle? && !s.cancelled && s.open == Some(t) && AllFrame(flushed)
    ensures Exec(s, [RResult(flushed, stop), RAppendBatch(true)]) == Some(s.(
        log := s.log + Tag(ByFrame, flushed + [TurnCompleted(t, stop)]), open := None, taken := s.taken + {t}))
  {
    Exec2(s, RResult(flushed, stop), RAppendBatch(true));
  }

  /** What an undisturbed turn does, from any quiet state and whatever frames come
      before its `Result`: prompt queued, delivered, the frames' events, completed,
      in that order, and the session is quiet again. */
  lemma UndisturbedTurn(s: Conn, t: Turn, frames: seq<seq<SessionEvent>>, flushed: seq<SessionEvent>, stop: string)
    requires Quiet(s) && t.id !in s.used && AllFrames(frames) && AllFrame(flushed)
    ensures var acts :=
              ([Send(t)] + ANNOUNCE) + HAND + FrameSteps(frames) + [RResult(flushed, stop), RAppendBatch(true)];
      Exec(s, acts) == Some(s.(
        log := s.log + Tag(ByWriter, [QueuedEvent(t)]) + Tag(ByWriter, [DeliveredEvent(t)]) + FrameLog(frames)
             + Tag(ByFrame, flushed + [TurnCompleted(t.id, stop)]),
        used := s.used + {t.id}, taken := s.taken + {t.id}))
  {
    var open := Delivered(s, t);
    AnnounceRuns(s, t);
    HandRuns(s, t);
    ExecThen(s, [Send(t)] + ANNOUNCE, Announced(s, t), HAND, open);
    FramesRun(open, frames);
    var read := open.(log := open.log + FrameLog(frames));
    ExecThen(s, ([Send(t)] + ANNOUNCE) + HAND, open, FrameSteps(frames), read);
    ResultRuns(read, t.id, flushed, stop);
    var end := read.(log := read.log + Tag(ByFrame, flushed + [TurnCompleted(t.id, stop)]), open := None,
                     taken := s.taken + {t.id});
    ExecThen(s, ([Send(t)] + ANNOUNCE) + HAND + FrameSteps(frames), read,
             [RResult(flushed, stop), RAppendBatch(true)], end);
  }

  /** The two prompts of two turns sent one after the other, nothing in between. */
  lemma PipelinedTurnsOpenTwice(s: Conn, t: Turn, u: Turn)
    requires Quiet(s) && t.id !in s.used && u.id !in s.used && t.id != u.id
    ensures var acts := ([Send(t)] + ANNOUNCE) + HAND + [Send(u)] + [WRecv, WAppendQueued(true)];
      && Exec(s, acts).Some?
      && Exec(s, acts).value.log == s.log + Tag(ByWriter, [QueuedEvent(t)]) + Tag(ByWriter, [DeliveredEvent(t)])
         + Tag(ByWriter, [QueuedEvent(u)])
  {
    var open := Delivered(s, t);
    AnnounceRuns(s, t);
    HandRuns(s, t);
    ExecThen(s, [Send(t)] + ANNOUNCE, Announced(s, t), HAND, open);
    var sent := Do(open, Send(u));
    assert s.queue + [u] == [u] && [u][1..] == [];
    Exec1(open, Send(u));
    ExecThen(s, ([Send(t)] + ANNOUNCE) + HAND, open, [Send(u)], sent);
    Exec2(sent, WRecv, WAppendQueued(true));
    ExecThen(s, ([Send(t)] + ANNOUNCE) + HAND + [Send(u)], sent, [WRecv, WAppendQueued(true)],
             Do(Do(sent, WRecv), WAppendQueued(true)));
  }

  /** A `Result` frame read between the commit of `*PromptDelivered` and the writer's
      publishing of `open` completes nothing: the turn is open afterwards as if its
      frame had not come, and TurnAccounting says what becomes of it. */
  lemma EarlyResultCompletesNothing(s: Conn, t: Turn, stop: string)
    requires Quiet(s) && t.id !in s.used
    ensures var acts := ([Send(t)] + ANNOUNCE) + [WWritten(true), WFlushed(true)]
                      + [WAppendDelivered(true), RResult([], stop)] + [WPublishOpen];
      Exec(s, acts) == Some(Delivered(s, t))
  {
    var flushed := Announced(s, t).(writer := WDeliver(t));
    var early := Do(flushed, WAppendDelivered(true));
    AnnounceRuns(s, t);
    Exec2(Announced(s, t), WWritten(true), WFlushed(true));
    ExecThen(s, [Send(t)] + ANNOUNCE, Announced(s, t), [WWritten(true), WFlushed(true)], flushed);
    Exec2(flushed, WAppendDelivered(true), RResult([], stop));
    ExecThen(s, ([Send(t)] + ANNOUNCE) + [WWritten(true), WFlushed(true)], flushed,
             [WAppendDelivered(true), RResult([], stop)], early);
    Exec1(early, WPublishOpen);
    ExecThen(s, ([Send(t)] + ANNOUNCE) + [WWritten(true), WFlushed(true)] + [WAppendDelivered(true), RResult([], stop)],
             early, [WPublishOpen], Delivered(s, t));
  }

  const CRASH: seq<Action> := [REnd, RCheckFlag] + [RTakeTurn, RAppendCrash(true)]

  const FAIL_WRITE: seq<Action> := [WWritten(false), WClearPending] + [WAppendFailed(true)]

  function Crashed(s: Conn, t: Turn): Conn {
    Announced(s, t).(
      log := s.log + Tag(ByWriter, [QueuedEvent(t)]) + Tag(ByTerminal, CrashBatch(Some(t.id))),
      pending := None, takenPending := Some(t.id), reader := RDone)
  }

  lemma CrashRuns(s: Conn, t: Turn)
    requires Quiet(s) && !s.shuttingDown
    ensures Exec(Announced(s, t), CRASH) == Some(Crashed(s, t))
  {
    var checked := Announced(s, t).(reader := RTake);
    Exec2(Announced(s, t), REnd, RCheckFlag);
    Exec2(checked, RTakeTurn, RAppendCrash(true));
    ExecThen(Announced(s, t), [REnd, RCheckFlag], checked, [RTakeTurn, RAppendCrash(true)], Crashed(s, t));
  }

  /** The writer task's comment promises exactly one of `TurnCompleted`,
      `TurnAborted` and `PromptDeliveryFailed` per queued prompt. The code does
      not keep it: from any quiet state, a crash between setting `pending` and
      a failing write gives the turn both of the last two. */
  lemma AbortThenDeliveryFailed(s: Conn, t: Turn)
    requires Quiet(s) && t.id !in s.used && !s.shuttingDown
    ensures var acts := ([Send(t)] + ANNOUNCE) + CRASH + FAIL_WRITE;
      && Exec(s, acts).Some?
      && Exec(s, acts).value.log == s.log + Tag(ByWriter, [QueuedEvent(t)])
         + Tag(ByTerminal, [TurnAborted(t.id, "session_crashed"), SessionCrashed("EOF")])
         + Tag(ByWriter, [PromptDeliveryFailed(t.id, "stdin write")])
  {
    AnnounceRuns(s, t);
    CrashRuns(s, t);
    ExecThen(s, [Send(t)] + ANNOUNCE, Announced(s, t), CRASH, Crashed(s, t));
    var failing := Crashed(s, t).(writer := WFail(t, "stdin write", true));
    Exec2(Crashed(s, t), WWritten(false), WClearPending);
    Exec1(failing, WAppendFailed(true));
    ExecThen(Crashed(s, t), [WWritten(false), WClearPending], failing, [WAppendFailed(true)],
             Do(failing, WAppendFailed(true)));
    ExecThen(s, ([Send(t)] + ANNOUNCE) + CRASH, Crashed(s, t), FAIL_WRITE, Do(failing, WAppendFailed(true)));
    assert CrashBatch(Some(t.id)) == [TurnAborted(t.id, "session_crashed"), SessionCrashed("EOF")];
  }
}
