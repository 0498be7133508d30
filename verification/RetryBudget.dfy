/** The lag-retry budget of a resilient subscription. */
module RetryBudget {
  import opened Arithmetic
  import opened Events

  datatype RetryConfig = RetryConfig(retryWindow: nat, quietPeriod: nat, softLimit: nat, hardLimit: nat)

  /** Field for field the state the subscription keeps. */
  datatype Retry = Retry(laggedRetries: nat, windowStart: nat, lastCleanRecv: Option<nat>)

  function NoteCleanRecv(r: Retry, cfg: RetryConfig, now: nat): Retry {
    var reset := r.lastCleanRecv.Some? && Elapsed(now, r.lastCleanRecv.value) >= cfg.quietPeriod;
    if reset then Retry(0, now, Some(now)) else r.(lastCleanRecv := Some(now))
  }

  function NoteLagged(r: Retry, cfg: RetryConfig, now: nat): Retry {
    Retry(r.laggedRetries + 1,
          if Elapsed(now, r.windowStart) > cfg.retryWindow then now else r.windowStart,
          r.lastCleanRecv)
  }

  /** The state object updated in place. */
  class RetryState {
    const cfg: RetryConfig
    var laggedRetriesInWindow: nat
    var windowStart: nat
    var lastCleanRecv: Option<nat>

    function Abs(): Retry
      reads this
    {
      Retry(laggedRetriesInWindow, windowStart, lastCleanRecv)
    }

    constructor (cfg: RetryConfig, now: nat)
      ensures this.cfg == cfg && Abs() == Retry(0, now, None)
    {
      this.cfg := cfg;
      laggedRetriesInWindow, windowStart, lastCleanRecv := 0, now, None;
    }

    method CleanRecv(now: nat)
      modifies this
      ensures Abs() == NoteCleanRecv(old(Abs()), cfg, now)
    {
      if lastCleanRecv.Some? && Elapsed(now, lastCleanRecv.value) >= cfg.quietPeriod {
        laggedRetriesInWindow := 0;
        windowStart := now;
      }
      lastCleanRecv := Some(now);
    }

    method Lagged(now: nat)
      modifies this
      ensures Abs() == NoteLagged(old(Abs()), cfg, now)
    {
      if Elapsed(now, windowStart) > cfg.retryWindow {
        windowStart := now;
      }
      laggedRetriesInWindow := laggedRetriesInWindow + 1;
    }
  }

  // ---- the budget as a function of the receipt history --------------------

  datatype Receipt = Clean(at: nat) | Lag(at: nat)

  function Note(r: Retry, cfg: RetryConfig, receipt: Receipt): Retry {
    match receipt
    case Clean(at) => NoteCleanRecv(r, cfg, at)
    case Lag(at) => NoteLagged(r, cfg, at)
  }

  function RetryAfter(cfg: RetryConfig, start: nat, hist: seq<Receipt>): Retry {
    if hist == [] then Retry(0, start, None)
    else Note(RetryAfter(cfg, start, hist[..|hist| - 1]), cfg, hist[|hist| - 1])
  }

  function Lags(hist: seq<Receipt>): nat {
    if hist == [] then 0
    else Lags(hist[..|hist| - 1]) + if hist[|hist| - 1].Lag? then 1 else 0
  }

  /** `j` is the last clean receive among the first `n` receipts. */
  ghost predicate LastClean(hist: seq<Receipt>, j: nat, n: nat)
    requires n <= |hist|
  {
    j < n && hist[j].Clean? && forall l :: j < l < n ==> !hist[l].Clean?
  }

  /** Receive `i` and the clean receive just before it are a quiet period apart. */
  ghost predicate EndsQuiet(hist: seq<Receipt>, quiet: nat, i: nat)
    requires i < |hist|
  {
    hist[i].Clean? && exists j: nat :: LastClean(hist, j, i) && (hist[i].at >= hist[j].at + quiet || quiet == 0)
  }

  lemma EndsQuietInPrefix(hist: seq<Receipt>, quiet: nat, i: nat, n: nat)
    requires i < n <= |hist|
    ensures EndsQuiet(hist[..n], quiet, i) <==> EndsQuiet(hist, quiet, i)
  {
    forall j: nat ensures LastClean(hist[..n], j, i) <==> LastClean(hist, j, i) {}
  }

  lemma {:induction false} LastCleanMeaning(cfg: RetryConfig, start: nat, hist: seq<Receipt>)
    ensures var last := RetryAfter(cfg, start, hist).lastCleanRecv;
      if last.None? then forall i :: 0 <= i < |hist| ==> !hist[i].Clean?
      else exists j: nat :: LastClean(hist, j, |hist|) && hist[j].at == last.value
  {
    if hist != [] {
      var n := |hist| - 1;
      LastCleanMeaning(cfg, start, hist[..n]);
      var last := RetryAfter(cfg, start, hist[..n]).lastCleanRecv;
      if hist[n].Clean? {
        assert LastClean(hist, n, |hist|);
      } else if last.Some? {
        var j: nat :| LastClean(hist[..n], j, n) && hist[..n][j].at == last.value;
        assert LastClean(hist, j, |hist|);
      }
    }
  }

  /** The last receipt ends a quiet gap exactly when the state says so. */
  lemma QuietGap(cfg: RetryConfig, start: nat, hist: seq<Receipt>)
    requires hist != []
    ensures var n := |hist| - 1; var last := RetryAfter(cfg, start, hist[..n]).lastCleanRecv;
      EndsQuiet(hist, cfg.quietPeriod, n) <==>
        hist[n].Clean? && last.Some? && Elapsed(hist[n].at, last.value) >= cfg.quietPeriod
  {
    var n := |hist| - 1;
    var last := RetryAfter(cfg, start, hist[..n]).lastCleanRecv;
    LastCleanMeaning(cfg, start, hist[..n]);
    if last.Some? {
      var j: nat :| LastClean(hist[..n], j, n) && hist[..n][j].at == last.value;
      assert LastClean(hist, j, n);
      forall i: nat | LastClean(hist, i, n) ensures i == j {
        assert hist[..n][j].Clean? && hist[..n][i].Clean?;
      }
    }
  }

  /** The counter is reset by a receipt exactly when that receipt ends a quiet gap. */
  lemma ResetMeaning(cfg: RetryConfig, start: nat, hist: seq<Receipt>)
    requires hist != []
    ensures var n := |hist| - 1; var before := RetryAfter(cfg, start, hist[..n]);
      RetryAfter(cfg, start, hist).laggedRetries
        == if EndsQuiet(hist, cfg.quietPeriod, n) then 0
           else before.laggedRetries + if hist[n].Lag? then 1 else 0
  {
    QuietGap(cfg, start, hist);
  }

  /** The window starts anew at a receipt that ends a quiet gap and at a lag that comes
      more than a window after its start, and stays otherwise. */
  lemma WindowMeaning(cfg: RetryConfig, start: nat, hist: seq<Receipt>)
    requires hist != []
    ensures var n := |hist| - 1; var before := RetryAfter(cfg, start, hist[..n]);
      RetryAfter(cfg, start, hist).windowStart
        == if EndsQuiet(hist, cfg.quietPeriod, n) || (hist[n].Lag? && hist[n].at > before.windowStart + cfg.retryWindow)
           then hist[n].at else before.windowStart
  {
    QuietGap(cfg, start, hist);
  }

  /** The counter is the number of lags since the last quiet gap, and nothing
      else: the retry window rolling over never resets it. */
  lemma {:induction false} CounterMeaning(cfg: RetryConfig, start: nat, hist: seq<Receipt>, m: nat)
    requires m <= |hist|
    requires m > 0 ==> EndsQuiet(hist, cfg.quietPeriod, m - 1)
    requires forall i :: m <= i < |hist| ==> !EndsQuiet(hist, cfg.quietPeriod, i)
    ensures RetryAfter(cfg, start, hist).laggedRetries == Lags(hist[m..])
  {
    if hist == [] || m == |hist| {
      assert hist[m..] == [];
      if hist != [] {
        ResetMeaning(cfg, start, hist);
      }
    } else {
      var n := |hist| - 1;
      forall i | 0 <= i < n
        ensures EndsQuiet(hist[..n], cfg.quietPeriod, i) <==> EndsQuiet(hist, cfg.quietPeriod, i)
      {
        EndsQuietInPrefix(hist, cfg.quietPeriod, i, n);
      }
      CounterMeaning(cfg, start, hist[..n], m);
      ResetMeaning(cfg, start, hist);
      assert hist[m..][..|hist[m..]| - 1] == hist[..n][m..];
    }
  }

  /** With no two successive clean receives a quiet period apart, every lag counts for ever. */
  lemma NoQuietGapCountsEveryLag(cfg: RetryConfig, start: nat, hist: seq<Receipt>)
    requires forall i :: 0 <= i < |hist| ==> !EndsQuiet(hist, cfg.quietPeriod, i)
    ensures RetryAfter(cfg, start, hist).laggedRetries == Lags(hist)
  {
    CounterMeaning(cfg, start, hist, 0);
    assert hist[0..] == hist;
  }
}
