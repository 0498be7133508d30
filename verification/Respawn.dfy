/** Three-phase crash dedup for one agent: the decision and the commit each
    hold the agent's lock, the respawn between them does not. */
module Respawn {
  import opened Arithmetic
  import opened Events

  const FALLBACK_DEDUP_WINDOW := 2000

  datatype RespawnValue = RespawnValue(lastHandled: Option<nat>, inFlight: bool, lastAttemptAt: Option<nat>)

  /** Phase 1: does this crash start a respawn? `0` marks a fallback signal. */
  predicate Grants(r: RespawnValue, crashSeq: nat, now: nat) {
    && !r.inFlight
    && !(crashSeq != 0 && r.lastHandled.Some? && crashSeq <= r.lastHandled.value)
    && !(crashSeq == 0 && r.lastAttemptAt.Some? && Elapsed(now, r.lastAttemptAt.value) < FALLBACK_DEDUP_WINDOW)
  }

  /** Phase 3: only a success advances the handled sequence. */
  function CommitTo(r: RespawnValue, crashSeq: nat, success: bool, now: nat): RespawnValue {
    RespawnValue(if success then Some(crashSeq) else r.lastHandled, false, Some(now))
  }

  /** The state under the agent's mutex, updated in place. */
  class RespawnState {
    var lastHandledCrashSeq: Option<nat>
    var respawnInFlight: bool
    var lastRespawnAttemptAt: Option<nat>

    function Abs(): RespawnValue
      reads this
    {
      RespawnValue(lastHandledCrashSeq, respawnInFlight, lastRespawnAttemptAt)
    }

    constructor ()
      ensures Abs() == RespawnValue(None, false, None)
    {
      lastHandledCrashSeq, respawnInFlight, lastRespawnAttemptAt := None, false, None;
    }

    method Decide(crashSeq: nat, now: nat) returns (go: bool)
      modifies this
      ensures go == Grants(old(Abs()), crashSeq, now)
      ensures Abs() == if go then old(Abs()).(inFlight := true) else old(Abs())
    {
      if respawnInFlight {
        return false;
      }
      if crashSeq != 0 && lastHandledCrashSeq.Some? && crashSeq <= lastHandledCrashSeq.value {
        return false;
      }
      if crashSeq == 0 && lastRespawnAttemptAt.Some?
         && Elapsed(now, lastRespawnAttemptAt.value) < FALLBACK_DEDUP_WINDOW {
        return false;
      }
      respawnInFlight := true;
      return true;
    }

    method Commit(crashSeq: nat, success: bool, now: nat)
      modifies this
      ensures Abs() == CommitTo(old(Abs()), crashSeq, success, now)
    {
      respawnInFlight := false;
      lastRespawnAttemptAt := Some(now);
      if success {
        lastHandledCrashSeq := Some(crashSeq);
      }
    }
  }

  // ---- concurrent callers -------------------------------------------------

  /** Where a call of `on_crash` stands. `Doomed` has aborted the task it runs on and
      ends at its next suspension; `Aborted` has been ended there; `Failing` has found
      no session id for the agent. */
  datatype Pc = Arrived | Granted | Doomed | Working | Failing | Installed | Aborted | Done

  /** `pump` is the crash-watch task a store-path call runs on; the fallback listener has none. */
  datatype Caller = Caller(crashSeq: nat, pump: Option<nat>, pc: Pc)

  /** `registered` is the pump of the handle in the session map, `known` says that the
      agent's session id is on record, `pumps` counts the pumps spawned and `gone` holds
      those that ended or were aborted; `ensuring` calls of `ensure_session` are past
      their check, `binding` calls of it or of the start-up scan have recorded the id and
      not yet their handle. `starts` and `attempts` are the instants of all
      grants and commits so far, `commits` the sequences of the successful ones. */
  datatype World = World(
    state: RespawnValue, callers: seq<Caller>, now: nat,
    registered: Option<nat>, known: bool, pumps: nat, gone: set<nat>, ensuring: nat, binding: nat,
    starts: seq<(nat, nat)>, attempts: seq<nat>, commits: seq<nat>)

  /** `PumpEnds` has seen the session's end and drops the handle; `PumpLags` gives up on a
      lagging subscription and leaves it. */
  datatype Action =
    | ArriveStore(pump: nat, crashSeq: nat)
    | ArriveFallback
    | Phase1(caller: nat)
    | Remove(caller: nat)
    | Cancel(caller: nat)
    | Install(caller: nat)
    | Phase3(caller: nat, success: bool)
    | PumpEnds(pump: nat)
    | PumpLags(pump: nat)
    | EnsureCheck
    | EnsureBind
    | StartupBind
    | Insert
    | Tick(to: nat)

  /** A pump makes one call at a time. */
  ghost predicate Idle(w: World, pump: nat) {
    && pump < w.pumps && pump !in w.gone
    && forall i :: 0 <= i < |w.callers| && w.callers[i].pump == Some(pump) ==> w.callers[i].pc.Done?
  }

  predicate MayFail(pc: Pc) {
    pc.Working? || pc.Failing? || pc.Doomed?
  }

  ghost predicate Enabled(w: World, a: Action) {
    match a
    case ArriveStore(p, seqNo) => Idle(w, p) && seqNo > 0
    case ArriveFallback => true
    case Phase1(i) => i < |w.callers| && w.callers[i].pc.Arrived?
    case Remove(i) => i < |w.callers| && w.callers[i].pc.Granted?
    case Cancel(i) => i < |w.callers| && w.callers[i].pc.Doomed?
    case Install(i) => i < |w.callers| && w.callers[i].pc.Working?
    case Phase3(i, success) =>
      i < |w.callers|
          && (if success then w.callers[i].pc.Installed? else MayFail(w.callers[i].pc))
    case PumpEnds(p) => Idle(w, p)
    case PumpLags(p) => Idle(w, p)
    case EnsureCheck => w.registered.None?
    case EnsureBind => w.ensuring > 0
    case StartupBind => true
    case Insert => w.binding > 0
    case Tick(to) => to >= w.now
  }

  /** A call waiting for the lock on an aborted pump is never made. */
  function CutOff(c: Caller, pump: Option<nat>): Caller {
    if pump.Some? && c.pump == pump && c.pc.Arrived? then c.(pc := Done) else c
  }

  function AllCutOff(callers: seq<Caller>, pump: Option<nat>): (r: seq<Caller>)
    ensures |r| == |callers| && forall i :: 0 <= i < |r| ==> r[i] == CutOff(callers[i], pump)
  {
    seq(|callers|, i requires 0 <= i < |callers| => CutOff(callers[i], pump))
  }

  ghost function Do(w: World, a: Action): World
    requires Enabled(w, a)
  {
    match a
    case ArriveStore(p, seqNo) => w.(callers := w.callers + [Caller(seqNo, Some(p), Arrived)])
    case ArriveFallback => w.(callers := w.callers + [Caller(0, None, Arrived)])
    case Phase1(i) =>
      var c := w.callers[i];
      if Grants(w.state, c.crashSeq, w.now) then
        w.(state := w.state.(inFlight := true),
           callers := w.callers[i := c.(pc := Granted)],
           starts := w.starts + [(c.crashSeq, w.now)])
      else w.(callers := w.callers[i := c.(pc := Done)], gone := w.gone + Just(c.pump))
    case Remove(i) =>
      var c := w.callers[i];
      var former := w.registered;
      var pc := if former.Some? && c.pump == former then Doomed else if w.known then Working else Failing;
      w.(callers := AllCutOff(w.callers, former)[i := c.(pc := pc)], registered := None, gone := w.gone + Just(former))
    case Cancel(i) => w.(callers := w.callers[i := w.callers[i].(pc := Aborted)])
    case Install(i) =>
      w.(callers := w.callers[i := w.callers[i].(pc := Installed)], registered := Some(w.pumps), pumps := w.pumps + 1)
    case Phase3(i, success) =>
      var c := w.callers[i];
      w.(state := CommitTo(w.state, c.crashSeq, success, w.now),
         callers := w.callers[i := c.(pc := Done)],
         gone := w.gone + Just(c.pump),
         attempts := w.attempts + [w.now],
         commits := if success then w.commits + [c.crashSeq] else w.commits)
    case PumpEnds(p) => w.(registered := None, known := false, gone := w.gone + {p})
    case PumpLags(p) => w.(gone := w.gone + {p})
    case EnsureCheck => w.(ensuring := w.ensuring + 1)
    case EnsureBind => w.(ensuring := w.ensuring - 1, binding := w.binding + 1, known := true)
    case StartupBind => w.(binding := w.binding + 1, known := true)
    case Insert => w.(binding := w.binding - 1, registered := Some(w.pumps), pumps := w.pumps + 1)
    case Tick(to) => w.(now := to)
  }

  ghost function Next(w: Option<World>, a: Action): Option<World> {
    if w.Some? && Enabled(w.value, a) then Some(Do(w.value, a)) else None
  }

  ghost function Exec(w: World, acts: seq<Action>): Option<World> {
    if acts == [] then Some(w) else Next(Exec(w, acts[..|acts| - 1]), acts[|acts| - 1])
  }

  const FRESH := World(RespawnValue(None, false, None), [], 0, None, false, 0, {}, 0, 0, [], [], [])

  /** A caller past its decision and not past its commit, alive or aborted in between. */
  predicate InPhase2(c: Caller) {
    !c.pc.Arrived? && !c.pc.Done?
  }

  ghost predicate OneInFlight(w: World) {
    && (forall i, j :: 0 <= i < j < |w.callers| ==> !(InPhase2(w.callers[i]) && InPhase2(w.callers[j])))
    && (w.state.inFlight <==> exists i :: 0 <= i < |w.callers| && InPhase2(w.callers[i]))
  }

  /** Consecutive successful commits: a real sequence after a real one is larger. */
  ghost predicate Increasing(commits: seq<nat>) {
    forall i :: 1 <= i < |commits| && commits[i - 1] != 0 && commits[i] != 0 ==> commits[i - 1] < commits[i]
  }

  predicate Newer(crashSeq: nat, last: Option<nat>) {
    crashSeq != 0 && last.Some? ==> last.value < crashSeq
  }

  ghost predicate CommitInv(w: World) {
    && w.state.lastHandled == (if w.commits == [] then None else Some(w.commits[|w.commits| - 1]))
    && Increasing(w.commits)
    && forall i :: 0 <= i < |w.callers| && InPhase2(w.callers[i]) ==> Newer(w.callers[i].crashSeq, w.state.lastHandled)
  }

  /** The recorded attempt is the last commit, and commits are in clock order. */
  ghost predicate ClockInv(w: World) {
    && w.state.lastAttemptAt == (if w.attempts == [] then None else Some(w.attempts[|w.attempts| - 1]))
    && (forall i :: 0 <= i < |w.attempts| ==> w.attempts[i] <= w.now)
    && (forall i, j :: 0 <= i < j < |w.attempts| ==> w.attempts[i] <= w.attempts[j])
  }

  ghost predicate Inv(w: World) {
    OneInFlight(w) && CommitInv(w) && ClockInv(w)
  }

  /** Who is in phase 2 afterwards: the same callers, but for the one that steps. */
  lemma OthersKeepPhase(w: World, a: Action, i: nat)
    requires Enabled(w, a) && i < |w.callers|
    requires (a.Phase1? || a.Remove? || a.Cancel? || a.Install? || a.Phase3?) ==> a.caller != i
    ensures InPhase2(Do(w, a).callers[i]) <==> InPhase2(w.callers[i])
    ensures Do(w, a).callers[i].crashSeq == w.callers[i].crashSeq
  {
  }

  /** Steps that leave every caller's phase and the state alone. */
  predicate Background(a: Action) {
    || a.ArriveStore? || a.ArriveFallback? || a.PumpEnds? || a.PumpLags?
    || a.EnsureCheck? || a.EnsureBind? || a.StartupBind? || a.Insert? || a.Tick?
  }

  lemma BackgroundKeepsOne(w: World, a: Action)
    requires OneInFlight(w) && Enabled(w, a) && Background(a)
    ensures OneInFlight(Do(w, a))
  {
    var w' := Do(w, a);
    forall i | 0 <= i < |w.callers| ensures w'.callers[i] == w.callers[i] {}
    if w.state.inFlight {
      var i :| 0 <= i < |w.callers| && InPhase2(w.callers[i]);
      assert InPhase2(w'.callers[i]);
    }
  }

  /** A step of the caller in phase 2 that stays there. */
  lemma WorkKeepsOne(w: World, a: Action)
    requires OneInFlight(w) && Enabled(w, a) && (a.Remove? || a.Cancel? || a.Install?)
    ensures OneInFlight(Do(w, a))
  {
    var w' := Do(w, a);
    assert InPhase2(w.callers[a.caller]) && InPhase2(w'.callers[a.caller]);
    forall j | 0 <= j < |w.callers| && j != a.caller ensures InPhase2(w'.callers[j]) <==> InPhase2(w.callers[j]) {
      OthersKeepPhase(w, a, j);
    }
  }

  lemma StepKeepsOne(w: World, a: Action)
    requires OneInFlight(w) && Enabled(w, a)
    ensures OneInFlight(Do(w, a))
  {
    var w' := Do(w, a);
    if Background(a) {
      BackgroundKeepsOne(w, a);
    } else if a.Phase1? {
      if w.state.inFlight {
        var j :| 0 <= j < |w.callers| && InPhase2(w.callers[j]);
        assert InPhase2(w'.callers[j]);
      } else if w'.state.inFlight {
        assert InPhase2(w'.callers[a.caller]);
      }
    } else if a.Phase3? {
      assert InPhase2(w.callers[a.caller]);
    } else {
      WorkKeepsOne(w, a);
    }
  }

  /** Steps that commit nothing and grant nothing. */
  lemma NoCommitKeepsCommits(w: World, a: Action)
    requires CommitInv(w) && Enabled(w, a) && !a.Phase1? && !a.Phase3?
    ensures CommitInv(Do(w, a))
  {
    var w' := Do(w, a);
    assert w'.state == w.state && w'.commits == w.commits;
    forall i | 0 <= i < |w'.callers| && InPhase2(w'.callers[i])
        ensures Newer(w'.callers[i].crashSeq, w'.state.lastHandled) {
      if i < |w.callers| {
        assert InPhase2(w.callers[i]) && w'.callers[i].crashSeq == w.callers[i].crashSeq;
      }
    }
  }

  lemma StepKeepsCommits(w: World, a: Action)
    requires OneInFlight(w) && CommitInv(w) && Enabled(w, a)
    ensures CommitInv(Do(w, a))
  {
    if a.Phase3? {
      assert InPhase2(w.callers[a.caller]);
    } else if !a.Phase1? {
      NoCommitKeepsCommits(w, a);
    }
  }

  lemma StepKeepsClock(w: World, a: Action)
    requires ClockInv(w) && Enabled(w, a)
    ensures ClockInv(Do(w, a))
  {
  }

  lemma {:induction false} RunKeepsInv(acts: seq<Action>)
    requires Exec(FRESH, acts).Some?
    ensures Inv(Exec(FRESH, acts).value)
  {
    if acts != [] {
      var n := |acts| - 1;
      RunKeepsInv(acts[..n]);
      var mid := Exec(FRESH, acts[..n]).value;
      StepKeepsOne(mid, acts[n]);
      StepKeepsCommits(mid, acts[n]);
      StepKeepsClock(mid, acts[n]);
    }
  }

  predicate Respawning(c: Caller) {
    InPhase2(c) && !c.pc.Aborted?
  }

  /** Whatever the interleaving of store-path and fallback callers, at most one is respawning. */
  lemma AtMostOneRespawn(acts: seq<Action>, i: nat, j: nat)
    requires Exec(FRESH, acts).Some? && i < j < |Exec(FRESH, acts).value.callers|
    ensures var callers := Exec(FRESH, acts).value.callers;
      !(Respawning(callers[i]) && Respawning(callers[j]))
  {
    RunKeepsInv(acts);
    var callers := Exec(FRESH, acts).value.callers;
    assert !(InPhase2(callers[i]) && InPhase2(callers[j]));
  }

  lemma {:induction false} IncreasingSpan(commits: seq<nat>, i: nat, j: nat)
    requires Increasing(commits) && i < j < |commits|
    requires forall k :: i <= k <= j ==> commits[k] != 0
    ensures commits[i] < commits[j]
  {
    if i + 1 < j {
      IncreasingSpan(commits, i, j - 1);
    }
    assert commits[j - 1] < commits[j];
  }

  /** Between successful fallback commits the committed sequences strictly
      increase, so no crash is successfully respawned twice. */
  lemma NoCrashRespawnedTwice(acts: seq<Action>, i: nat, j: nat)
    requires Exec(FRESH, acts).Some? && i < j < |Exec(FRESH, acts).value.commits|
    requires forall k :: i <= k <= j ==> Exec(FRESH, acts).value.commits[k] != 0
    ensures Exec(FRESH, acts).value.commits[i] < Exec(FRESH, acts).value.commits[j]
  {
    RunKeepsInv(acts);
    IncreasingSpan(Exec(FRESH, acts).value.commits, i, j);
  }

  /** A fallback is granted only a whole dedup window after every commit so far, failed ones included. */
  lemma FallbackWaitsOutTheWindow(acts: seq<Action>, i: nat, k: nat)
    requires Exec(FRESH, acts).Some?
    requires var w := Exec(FRESH, acts).value;
      Enabled(w, Phase1(i)) && w.callers[i].crashSeq == 0 && k < |w.attempts|
      && Do(w, Phase1(i)).callers[i].pc.Granted?
    ensures var w := Exec(FRESH, acts).value; w.attempts[k] + FALLBACK_DEDUP_WINDOW <= w.now
  {
    GrantedExactly(acts, i);
    LastAttemptIsLatest(acts, k);
  }

  lemma LastAttemptIsLatest(acts: seq<Action>, k: nat)
    requires Exec(FRESH, acts).Some? && k < |Exec(FRESH, acts).value.attempts|
    ensures var attempts := Exec(FRESH, acts).value.attempts; attempts[k] <= attempts[|attempts| - 1]
  {
    RunKeepsInv(acts);
  }

  /** Exactly when a caller that reaches the lock is granted its respawn: no other caller is
      between its decision and its commit, and a reported crash is newer than the last one
      committed, while a fallback signal comes two seconds after the last attempt. */
  lemma GrantedExactly(acts: seq<Action>, i: nat)
    requires Exec(FRESH, acts).Some? && Enabled(Exec(FRESH, acts).value, Phase1(i))
    ensures var w := Exec(FRESH, acts).value;
      var seqNo := w.callers[i].crashSeq;
      Do(w, Phase1(i)).callers[i].pc.Granted? <==>
        && (forall j :: 0 <= j < |w.callers| ==> !InPhase2(w.callers[j]))
        && (seqNo > 0 && w.commits != [] ==> seqNo > w.commits[|w.commits| - 1])
        && (seqNo == 0 && w.attempts != [] ==> w.now >= w.attempts[|w.attempts| - 1] + 2000)
  {
    RunKeepsInv(acts);
  }

  /** A caller that is not granted its respawn gives up and ends its crash-watch, with the
      agent's state as it was. */
  lemma RefusedCallerGivesUp(w: World, i: nat)
    requires Enabled(w, Phase1(i)) && !Do(w, Phase1(i)).callers[i].pc.Granted?
    ensures var w' := Do(w, Phase1(i));
      && w'.callers[i].pc.Done? && w'.state == w.state && w'.starts == w.starts
      && (w.callers[i].pump.Some? ==> w.callers[i].pump.value in w'.gone)
  {
  }

  /** A crash-watch that has ended or was aborted makes no call any more. */
  ghost predicate OnlyTheLivingCall(w: World) {
    forall i :: 0 <= i < |w.callers| && w.callers[i].pc.Arrived? && w.callers[i].pump.Some?
      ==> w.callers[i].pump.value !in w.gone
  }

  lemma {:induction false} AbortedWatchesNeverCall(acts: seq<Action>)
    requires Exec(FRESH, acts).Some?
    ensures OneCallEach(Exec(FRESH, acts).value) && OnlyTheLivingCall(Exec(FRESH, acts).value)
  {
    if acts != [] {
      var n := |acts| - 1;
      AbortedWatchesNeverCall(acts[..n]);
      var w := Exec(FRESH, acts[..n]).value;
      StaysOneCall(w, acts[n]);
      StaysLiving(w, acts[n]);
    }
  }

  /** A crash-watch waits for one call before it makes the next. */
  ghost predicate OneCallEach(w: World) {
    forall i, j :: 0 <= i < j < |w.callers| && w.callers[i].pump.Some? && w.callers[i].pump == w.callers[j].pump
      ==> w.callers[i].pc.Done? || w.callers[j].pc.Done?
  }

  lemma StaysOneCall(w: World, a: Action)
    requires OneCallEach(w) && Enabled(w, a)
    ensures OneCallEach(Do(w, a))
  {
  }

  lemma StaysLiving(w: World, a: Action)
    requires OneCallEach(w) && OnlyTheLivingCall(w) && Enabled(w, a)
    ensures OnlyTheLivingCall(Do(w, a))
  {
  }

  // ---- a respawn that aborts itself -----------------------------------------

  lemma AbortedStays(w: World, i: nat, a: Action)
    requires OneInFlight(w) && i < |w.callers| && w.callers[i].pc.Aborted? && Enabled(w, a)
    ensures var w' := Do(w, a);
      && OneInFlight(w') && w'.state.inFlight && i < |w'.callers| && w'.callers[i].pc.Aborted?
      && w'.starts == w.starts && w'.commits == w.commits
  {
    StepKeepsOne(w, a);
    assert InPhase2(w.callers[i]) && w.state.inFlight;
    if a.Phase3? || a.Remove? || a.Cancel? || a.Install? {
      assert InPhase2(w.callers[a.caller]);
    }
  }

  /** A caller aborted between its decision and its commit leaves the flag up:
      no crash of this agent is ever granted again, in any continuation. */
  lemma {:induction false} AbortedRespawnBlocksForever(w: World, i: nat, more: seq<Action>)
    requires OneInFlight(w) && i < |w.callers| && w.callers[i].pc.Aborted? && Exec(w, more).Some?
    ensures var w' := Exec(w, more).value;
      && OneInFlight(w') && w'.state.inFlight && i < |w'.callers| && w'.callers[i].pc.Aborted?
      && w'.starts == w.starts && w'.commits == w.commits
  {
    if more == [] {
      assert InPhase2(w.callers[i]);
    } else {
      var n := |more| - 1;
      AbortedRespawnBlocksForever(w, i, more[..n]);
      AbortedStays(Exec(w, more[..n]).value, i, more[n]);
    }
  }

  lemma {:induction false} ExecThen(w: World, a: seq<Action>, mid: World, b: seq<Action>)
    requires Exec(w, a) == Some(mid)
    ensures Exec(w, a + b) == Exec(mid, b)
  {
    if b == [] {
      assert a + b == a;
    } else {
      ExecThen(w, a, mid, b[..|b| - 1]);
      assert (a + b)[..|a + b| - 1] == a + b[..|b| - 1];
    }
  }

  /** One more step. */
  lemma ExecSnoc(w: World, acts: seq<Action>, mid: World, a: Action)
    requires Exec(w, acts) == Some(mid)
    ensures Exec(w, acts + [a]) == Next(Some(mid), a)
  {
    assert (acts + [a])[..|acts|] == acts;
  }

  lemma Exec2(w: World, a: Action, b: Action)
    requires Enabled(w, a)
    ensures Exec(w, [a, b]) == Next(Some(Do(w, a)), b)
  {
    assert [] + [a] == [a] && [a] + [b] == [a, b];
    assert Exec(w, []) == Some(w);
    ExecSnoc(w, [], w, a);
    ExecSnoc(w, [a], Do(w, a), b);
  }

  /** The crash of a registered session, as its own crash-watch reports it: granted, and
      then the respawn aborts the pump it runs on. */
  function OwnCrash(w: World, pump: nat, crashSeq: nat): seq<Action> {
    [ArriveStore(pump, crashSeq), Phase1(|w.callers|)] + [Remove(|w.callers|), Cancel(|w.callers|)]
  }

  lemma OwnCrashAborts(w: World, pump: nat, crashSeq: nat)
    requires Idle(w, pump) && w.registered == Some(pump) && crashSeq > 0 && Grants(w.state, crashSeq, w.now)
    ensures var w' := Exec(w, OwnCrash(w, pump, crashSeq));
      w'.Some? && |w.callers| < |w'.value.callers| && w'.value.callers[|w.callers|].pc.Aborted?
  {
    var n := |w.callers|;
    Exec2(w, ArriveStore(pump, crashSeq), Phase1(n));
    var granted := Do(Do(w, ArriveStore(pump, crashSeq)), Phase1(n));
    assert granted.callers[n] == Caller(crashSeq, Some(pump), Granted);
    Exec2(granted, Remove(n), Cancel(n));
    ExecThen(w, [ArriveStore(pump, crashSeq), Phase1(n)], granted, [Remove(n), Cancel(n)]);
  }

  /** The registry once `ensure_session` has run. */
  const FIRST := FRESH.(registered := Some(0), known := true, pumps := 1)

  const ENSURE: seq<Action> := [EnsureCheck, EnsureBind] + [Insert]

  /** A call that has recorded the session id installs its session. */
  function Installing(w: World): World
    requires w.binding > 0
  {
    w.(binding := w.binding - 1, registered := Some(w.pumps), pumps := w.pumps + 1)
  }

  lemma InsertRuns(w: World)
    requires w.binding > 0
    ensures Enabled(w, Insert) && Do(w, Insert) == Installing(w)
  {
  }

  lemma EnsureRuns(w: World)
    requires w.registered.None?
    ensures Exec(w, ENSURE) == Some(w.(registered := Some(w.pumps), known := true, pumps := w.pumps + 1))
  {
    Exec2(w, EnsureCheck, EnsureBind);
    var bound := w.(known := true, binding := w.binding + 1);
    InsertRuns(bound);
    ExecSnoc(w, [EnsureCheck, EnsureBind], bound, Insert);
  }

  /** So the very first crash of an agent, reported by its registered crash-watch, can be
      the last one ever handled. */
  lemma FirstCrashMayBeTheLast(crashSeq: nat)
    requires crashSeq > 0
    ensures exists acts :: Stuck(acts)
  {
    EnsureRuns(FRESH);
    OwnCrashAborts(FIRST, 0, crashSeq);
    var acts := ENSURE + OwnCrash(FIRST, 0, crashSeq);
    ExecThen(FRESH, ENSURE, FIRST, OwnCrash(FIRST, 0, crashSeq));
    var w := Exec(FRESH, acts).value;
    RunKeepsInv(acts);
    forall more ensures NothingGranted(w, more) {
      if Exec(w, more).Some? {
        AbortedRespawnBlocksForever(w, 0, more);
      }
    }
    assert Stuck(acts);
  }

  ghost predicate NothingGranted(w: World, more: seq<Action>) {
    Exec(w, more).Some? ==> Exec(w, more).value.starts == w.starts
  }

  ghost predicate Stuck(acts: seq<Action>) {
    Exec(FRESH, acts).Some? && forall more :: NothingGranted(Exec(FRESH, acts).value, more)
  }

  ghost predicate SomeAborted(w: World) {
    exists i :: 0 <= i < |w.callers| && w.callers[i].pc.Aborted?
  }

  /** Unless it was aborted, the respawn in flight can come to its commit. */
  lemma CanCommit(w: World) returns (acts: seq<Action>)
    requires OneInFlight(w) && !SomeAborted(w)
    ensures Exec(w, acts).Some? && !Exec(w, acts).value.state.inFlight
  {
    if !w.state.inFlight {
      acts := [];
    } else {
      var i :| 0 <= i < |w.callers| && InPhase2(w.callers[i]);
      assert !w.callers[i].pc.Aborted?;
      if w.callers[i].pc.Granted? {
        Exec2(w, Remove(i), Phase3(i, false));
        acts := [Remove(i), Phase3(i, false)];
      } else {
        var last := Phase3(i, w.callers[i].pc.Installed?);
        assert [] + [last] == [last];
        assert Exec(w, []) == Some(w);
        ExecSnoc(w, [], w, last);
        acts := [last];
      }
    }
  }

  // ---- undisturbed respawns ---------------------------------------------------

  /** The steps of a granted call that is not aborted. */
  function Once(w: World, arrive: Action): seq<Action> {
    var n := |w.callers|;
    [arrive, Phase1(n)] + [Remove(n), Install(n)] + [Phase3(n, true)]
  }

  function ArriveAs(pump: Option<nat>, crashSeq: nat): Action {
    if pump.Some? then ArriveStore(pump.value, crashSeq) else ArriveFallback
  }

  /** Who can respawn the session: the fallback listener, or a crash-watch that is still
      alive although another one is registered. */
  ghost predicate Outsider(w: World, pump: Option<nat>, crashSeq: nat) {
    if pump.None? then crashSeq == 0 else Idle(w, pump.value) && w.registered != pump && crashSeq > 0
  }

  /** An undisturbed crash reported from outside: granted exactly when the dedup says so,
      and then committed, with a new pump registered. */
  lemma UndisturbedRespawn(w: World, pump: Option<nat>, crashSeq: nat)
    requires Grants(w.state, crashSeq, w.now) && Outsider(w, pump, crashSeq) && w.known
    ensures Exec(w, Once(w, ArriveAs(pump, crashSeq))) == Some(Committed(w, pump, crashSeq))
  {
    var n, arrive := |w.callers|, ArriveAs(pump, crashSeq);
    GrantRuns(w, pump, crashSeq);
    InstallRuns(w, pump, crashSeq);
    CommitRuns(w, pump, crashSeq);
    ExecThen(w, [arrive, Phase1(n)], WithCaller(w, pump, crashSeq), [Remove(n), Install(n)]);
    ExecSnoc(w, [arrive, Phase1(n)] + [Remove(n), Install(n)], Replaced(w, pump, crashSeq), Phase3(n, true));
  }

  /** A respawn that fails leaves no session registered and the old crash-watch aborted; the
      crash may be tried again, since only the attempt is recorded. */
  lemma FailedRespawn(w: World, pump: Option<nat>, crashSeq: nat)
    requires Grants(w.state, crashSeq, w.now) && Outsider(w, pump, crashSeq)
    ensures var n := |w.callers|;
      var end := Exec(w, [ArriveAs(pump, crashSeq), Phase1(n)] + [Remove(n), Phase3(n, false)]);
      && end.Some? && end.value.registered == None
      && (w.registered.Some? ==> w.registered.value in end.value.gone)
      && end.value.state == RespawnValue(w.state.lastHandled, false, Some(w.now))
      && end.value.commits == w.commits
  {
    var n, granted := |w.callers|, WithCaller(w, pump, crashSeq);
    GrantRuns(w, pump, crashSeq);
    assert granted.callers[n].pc.Granted? && !(w.registered.Some? && pump == w.registered);
    Exec2(granted, Remove(n), Phase3(n, false));
    ExecThen(w, [ArriveAs(pump, crashSeq), Phase1(n)], granted, [Remove(n), Phase3(n, false)]);
  }

  /** No session is registered and none can be: no id is on record, and no call is about to
      install one. */
  ghost predicate NoSession(w: World) {
    && w.registered.None? && !w.known && w.binding == 0
    && forall i :: 0 <= i < |w.callers| ==> !w.callers[i].pc.Working?
  }

  lemma StaysWithoutSession(w: World, a: Action)
    requires NoSession(w) && Enabled(w, a) && !a.EnsureBind? && !a.StartupBind?
    ensures NoSession(Do(w, a))
  {
  }

  /** When its session ends an agent is unregistered, and until an id is recorded again no
      crash signal brings a session back. */
  lemma {:induction false} EndedSessionStaysEnded(w: World, pump: nat, more: seq<Action>)
    requires Enabled(w, PumpEnds(pump)) && w.binding == 0
    requires forall i :: 0 <= i < |w.callers| ==> !w.callers[i].pc.Working?
    requires forall i :: 0 <= i < |more| ==> !more[i].EnsureBind? && !more[i].StartupBind?
    requires Exec(Do(w, PumpEnds(pump)), more).Some?
    ensures NoSession(Exec(Do(w, PumpEnds(pump)), more).value)
  {
    if more != [] {
      var n := |more| - 1;
      EndedSessionStaysEnded(w, pump, more[..n]);
      StaysWithoutSession(Exec(Do(w, PumpEnds(pump)), more[..n]).value, more[n]);
    }
  }

  /** The session respawned, its new pump registered and the old one aborted. */
  function Committed(w: World, pump: Option<nat>, crashSeq: nat): World {
    World(RespawnValue(Some(crashSeq), false, Some(w.now)),
          AllCutOff(w.callers, w.registered) + [Caller(crashSeq, pump, Done)], w.now,
          Some(w.pumps), true, w.pumps + 1, w.gone + Just(w.registered) + Just(pump), w.ensuring, w.binding,
          w.starts + [(crashSeq, w.now)], w.attempts + [w.now], w.commits + [crashSeq])
  }

  lemma CommitRuns(w: World, pump: Option<nat>, crashSeq: nat)
    requires w.known
    ensures Next(Some(Replaced(w, pump, crashSeq)), Phase3(|w.callers|, true)) == Some(Committed(w, pump, crashSeq))
  {
    var cut := AllCutOff(w.callers, w.registered);
    assert (cut + [Caller(crashSeq, pump, Installed)])[|w.callers| := Caller(crashSeq, pump, Done)]
        == cut + [Caller(crashSeq, pump, Done)];
  }

  function WithCaller(w: World, pump: Option<nat>, crashSeq: nat): World {
    w.(state := w.state.(inFlight := true), callers := w.callers + [Caller(crashSeq, pump, Granted)],
       starts := w.starts + [(crashSeq, w.now)])
  }

  function Replaced(w: World, pump: Option<nat>, crashSeq: nat): World {
    w.(state := w.state.(inFlight := true),
       callers := AllCutOff(w.callers, w.registered) + [Caller(crashSeq, pump, Installed)],
       starts := w.starts + [(crashSeq, w.now)],
       registered := Some(w.pumps), pumps := w.pumps + 1, gone := w.gone + Just(w.registered))
  }

  lemma GrantRuns(w: World, pump: Option<nat>, crashSeq: nat)
    requires Grants(w.state, crashSeq, w.now) && Outsider(w, pump, crashSeq)
    ensures Exec(w, [ArriveAs(pump, crashSeq), Phase1(|w.callers|)]) == Some(WithCaller(w, pump, crashSeq))
  {
    var arrived := w.(callers := w.callers + [Caller(crashSeq, pump, Arrived)]);
    assert arrived.callers[|w.callers| := Caller(crashSeq, pump, Granted)]
        == w.callers + [Caller(crashSeq, pump, Granted)];
    Exec2(w, ArriveAs(pump, crashSeq), Phase1(|w.callers|));
  }

  lemma InstallRuns(w: World, pump: Option<nat>, crashSeq: nat)
    requires w.known && (w.registered.Some? ==> w.registered != pump)
    ensures Exec(WithCaller(w, pump, crashSeq), [Remove(|w.callers|), Install(|w.callers|)])
        == Some(Replaced(w, pump, crashSeq))
  {
    var n, granted := |w.callers|, WithCaller(w, pump, crashSeq);
    var cut := AllCutOff(w.callers, w.registered);
    assert AllCutOff(granted.callers, w.registered)[n := Caller(crashSeq, pump, Working)]
        == cut + [Caller(crashSeq, pump, Working)];
    assert (cut + [Caller(crashSeq, pump, Working)])[n := Caller(crashSeq, pump, Installed)]
        == cut + [Caller(crashSeq, pump, Installed)];
    Exec2(granted, Remove(n), Install(n));
  }

  /** The same, at the end of a run. */
  lemma RespawnAfter(acts: seq<Action>, w: World, pump: Option<nat>, crashSeq: nat) returns (more: seq<Action>)
    requires Exec(FRESH, acts) == Some(w) && w.known && Grants(w.state, crashSeq, w.now) && Outsider(w, pump, crashSeq)
    ensures Exec(FRESH, more) == Some(Committed(w, pump, crashSeq))
  {
    UndisturbedRespawn(w, pump, crashSeq);
    more := acts + Once(w, ArriveAs(pump, crashSeq));
    ExecThen(FRESH, acts, w, Once(w, ArriveAs(pump, crashSeq)));
  }

  // ---- when respawns go on ------------------------------------------------------

  lemma {:induction false} StartsGrow(w: World, acts: seq<Action>)
    requires Exec(w, acts).Some?
    ensures w.starts <= Exec(w, acts).value.starts
  {
    if acts != [] {
      StartsGrow(w, acts[..|acts| - 1]);
    }
  }

  /** The last grant of the run is a later one than `w`'s, and for this crash. */
  ghost predicate GrantsCrash(w: World, acts: seq<Action>, crashSeq: nat) {
    Exec(w, acts).Some? && NewGrant(w, Exec(w, acts).value, crashSeq)
  }

  predicate NewGrant(w: World, w': World, crashSeq: nat) {
    |w'.starts| > |w.starts| && w'.starts[|w'.starts| - 1].0 == crashSeq
  }

  /** Once the session id is on record and the dedup window has passed, a fallback signal
      respawns the session, and the crash-watch it registers can have any crash granted. */
  lemma CanGrant(w: World, crashSeq: nat) returns (acts: seq<Action>)
    requires Ready(w) && crashSeq > 0
    ensures GrantsCrash(w, acts, crashSeq)
  {
    var wait := [StartupBind, Tick(w.now + FALLBACK_DEDUP_WINDOW)];
    var later := Do(Do(w, StartupBind), wait[1]);
    Exec2(w, StartupBind, wait[1]);
    UndisturbedRespawn(later, None, 0);
    var once := Once(later, ArriveFallback);
    var w' := Committed(later, None, 0);
    ExecThen(w, wait, later, once);
    StoreGrant(w', w.pumps, crashSeq);
    var last := [ArriveStore(w.pumps, crashSeq), Phase1(|w'.callers|)];
    ExecThen(w, wait + once, w', last);
    acts := wait + once + last;
  }

  lemma StoreGrant(w: World, pump: nat, crashSeq: nat)
    requires Idle(w, pump) && crashSeq > 0 && Grants(w.state, crashSeq, w.now)
    ensures var end := Exec(w, [ArriveStore(pump, crashSeq), Phase1(|w.callers|)]);
      end.Some? && end.value.starts == w.starts + [(crashSeq, w.now)]
  {
    Exec2(w, ArriveStore(pump, crashSeq), Phase1(|w.callers|));
  }

  /** Pumps are numbered in the order they are spawned. */
  ghost predicate PumpsKnown(w: World) {
    && (forall i :: 0 <= i < |w.callers| && w.callers[i].pump.Some? ==> w.callers[i].pump.value < w.pumps)
    && (w.registered.Some? ==> w.registered.value < w.pumps)
    && (forall p :: p in w.gone ==> p < w.pumps)
  }

  lemma {:induction false} RunKnowsPumps(acts: seq<Action>)
    requires Exec(FRESH, acts).Some?
    ensures PumpsKnown(Exec(FRESH, acts).value)
  {
    if acts != [] {
      var n := |acts| - 1;
      RunKnowsPumps(acts[..n]);
      StepKnowsPumps(Exec(FRESH, acts[..n]).value, acts[n]);
    }
  }

  lemma StepKnowsPumps(w: World, a: Action)
    requires PumpsKnown(w) && Enabled(w, a)
    ensures PumpsKnown(Do(w, a))
  {
  }

  /** Ready for the next crash. */
  ghost predicate Ready(w: World) {
    !w.state.inFlight && (w.state.lastAttemptAt.Some? ==> w.state.lastAttemptAt.value <= w.now) && PumpsKnown(w)
  }

  lemma ReadyAfter(acts: seq<Action>, w: World) returns (finish: seq<Action>, idle: World)
    requires Exec(FRESH, acts) == Some(w) && !SomeAborted(w)
    ensures Exec(w, finish) == Some(idle) && Ready(idle) && w.starts <= idle.starts
  {
    RunKeepsInv(acts);
    finish := CanCommit(w);
    idle := Exec(w, finish).value;
    ExecThen(FRESH, acts, w, finish);
    RunKeepsInv(acts + finish);
    RunKnowsPumps(acts + finish);
    StartsGrow(w, finish);
  }

  lemma GoesOn(acts: seq<Action>, w: World, crashSeq: nat) returns (more: seq<Action>)
    requires Exec(FRESH, acts) == Some(w) && crashSeq > 0 && !SomeAborted(w)
    ensures GrantsCrash(w, more, crashSeq)
  {
    var finish, idle := ReadyAfter(acts, w);
    var grant := CanGrant(idle, crashSeq);
    GrantsLater(w, finish, idle, grant, crashSeq);
    more := finish + grant;
  }

  lemma GrantsLater(w: World, before: seq<Action>, mid: World, acts: seq<Action>, crashSeq: nat)
    requires Exec(w, before) == Some(mid) && w.starts <= mid.starts && GrantsCrash(mid, acts, crashSeq)
    ensures GrantsCrash(w, before + acts, crashSeq)
  {
    var end := Exec(mid, acts).value;
    ExecThen(w, before, mid, acts);
    assert |w.starts| <= |mid.starts| && NewGrant(mid, end, crashSeq);
    assert NewGrant(w, end, crashSeq);
  }

  lemma GoesNoFurther(w: World, more: seq<Action>, crashSeq: nat)
    requires OneInFlight(w) && SomeAborted(w)
    ensures !GrantsCrash(w, more, crashSeq)
  {
    var i :| 0 <= i < |w.callers| && w.callers[i].pc.Aborted?;
    if Exec(w, more).Some? {
      AbortedRespawnBlocksForever(w, i, more);
    }
  }

  /** In every reachable state and for every crash: some continuation grants it a respawn
      if and only if no call was aborted between its decision and its commit. */
  lemma RespawnsGoOnExactly(acts: seq<Action>, crashSeq: nat)
    requires Exec(FRESH, acts).Some? && crashSeq > 0
    ensures (exists more :: GrantsCrash(Exec(FRESH, acts).value, more, crashSeq))
        <==> !SomeAborted(Exec(FRESH, acts).value)
  {
    var w := Exec(FRESH, acts).value;
    if SomeAborted(w) {
      RunKeepsInv(acts);
      forall more ensures !GrantsCrash(w, more, crashSeq) {
        GoesNoFurther(w, more, crashSeq);
      }
    } else {
      var more := GoesOn(acts, w, crashSeq);
    }
  }

  /** Three concurrent `ensure_session` calls, two of which have installed their session. */
  const ENSURED := FRESH.(registered := Some(1), known := true, pumps := 2, binding := 1)

  const BINDING: seq<Action> := [EnsureCheck, EnsureCheck] + [EnsureCheck, EnsureBind] + [EnsureBind, EnsureBind]

  const ENSURING: seq<Action> := BINDING + [Insert, Insert]

  function Bound(w: World, ensuring: nat, binding: nat): World {
    w.(known := true, ensuring := ensuring, binding := binding)
  }

  lemma ThreeBind(w: World)
    requires w.registered.None? && w.ensuring == 0 && w.binding == 0
    ensures Exec(w, BINDING) == Some(Bound(w, 0, 3))
  {
    var two, four := [EnsureCheck, EnsureCheck], [EnsureCheck, EnsureCheck] + [EnsureCheck, EnsureBind];
    var w2 := w.(ensuring := 2);
    Exec2(w, EnsureCheck, EnsureCheck);
    Exec2(w2, EnsureCheck, EnsureBind);
    Exec2(Bound(w, 2, 1), EnsureBind, EnsureBind);
    ExecThen(w, two, w2, [EnsureCheck, EnsureBind]);
    ExecThen(w, four, Bound(w, 2, 1), [EnsureBind, EnsureBind]);
  }

  lemma InsertTwice(w: World)
    requires w.binding >= 2
    ensures Exec(w, [Insert, Insert]) == Some(Installing(Installing(w)))
  {
    InsertRuns(w);
    InsertRuns(Installing(w));
    Exec2(w, Insert, Insert);
  }

  lemma EnsuringRuns()
    ensures Exec(FRESH, ENSURING) == Some(ENSURED)
  {
    ThreeBind(FRESH);
    InsertTwice(Bound(FRESH, 0, 3));
    ExecThen(FRESH, BINDING, Bound(FRESH, 0, 3), [Insert, Insert]);
  }

  /** A crash committed, and the dedup window over. */
  function AfterCrash(crashSeq: nat): World {
    Committed(ENSURED, Some(0), crashSeq).(now := FALLBACK_DEDUP_WINDOW)
  }

  lemma CrashRuns(crashSeq: nat) returns (acts: seq<Action>)
    requires crashSeq > 0
    ensures Exec(FRESH, acts) == Some(AfterCrash(crashSeq))
  {
    EnsuringRuns();
    var first := RespawnAfter(ENSURING, ENSURED, Some(0), crashSeq);
    ExecSnoc(FRESH, first, Committed(ENSURED, Some(0), crashSeq), Tick(FALLBACK_DEDUP_WINDOW));
    acts := first + [Tick(FALLBACK_DEDUP_WINDOW)];
  }

  lemma FallbackRuns(w: World, before: seq<Action>) returns (acts: seq<Action>)
    requires Exec(FRESH, before) == Some(w) && w.known && w.binding > 0 && Grants(w.state, 0, w.now)
    ensures Exec(FRESH, acts) == Some(Installing(Committed(w, None, 0)))
  {
    var second := RespawnAfter(before, w, None, 0);
    ExecSnoc(FRESH, second, Committed(w, None, 0), Insert);
    acts := second + [Insert];
  }

  /** The restriction to stretches without a fallback commit is needed: a fallback commit
      stores sequence 0, and the same crash, replayed by a crash-watch that reads the log
      from its start, is then respawned a second time. */
  lemma FallbackForgetsTheCrash(crashSeq: nat)
    requires crashSeq > 0
    ensures exists acts :: Exec(FRESH, acts).Some? && Exec(FRESH, acts).value.commits == [crashSeq, 0, crashSeq]
  {
    var before := CrashRuns(crashSeq);
    var second := FallbackRuns(AfterCrash(crashSeq), before);
    var w := Installing(Committed(AfterCrash(crashSeq), None, 0));
    WatchIsIdle(crashSeq, w);
    var third := RespawnAfter(second, w, Some(3), crashSeq);
    assert [] + [crashSeq] + [0] + [crashSeq] == [crashSeq, 0, crashSeq];
  }

  /** The fallback's crash-watch is alive, and not the registered one. */
  lemma WatchIsIdle(crashSeq: nat, w: World)
    requires crashSeq > 0 && w == Installing(Committed(AfterCrash(crashSeq), None, 0))
    ensures Outsider(w, Some(3), crashSeq)
  {
  }
}
