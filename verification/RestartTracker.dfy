/** Counts crashes in a sliding window: a deque of instants, pruned from its
    front only. */
module RestartTracking {

  /** How many of `times` lie in the closed interval [from, to]. */
  function CountIn(times: seq<nat>, from: int, to: int): nat {
    if times == [] then 0
    else CountIn(times[..|times| - 1], from, to) + if from <= times[|times| - 1] <= to then 1 else 0
  }

  ghost predicate Sorted(times: seq<nat>) {
    forall i, j :: 0 <= i < j < |times| ==> times[i] <= times[j]
  }

  predicate Apart(times: seq<nat>, i: nat, max: nat, window: nat)
    requires i + max < |times|
  {
    times[i + max] - times[i] > window
  }

  /** Grants `max` apart in order are more than a window apart in time. */
  ghost predicate Spaced(times: seq<nat>, max: nat, window: nat) {
    forall i :: 0 <= i < |times| - max ==> Apart(times, i, max, window)
  }

  /** Instants of a sorted sequence before `from` come first. */
  lemma {:induction false} CountSuffix(times: seq<nat>, k: nat, from: int, to: int)
    requires k <= |times| && Sorted(times)
    requires forall i :: 0 <= i < k ==> times[i] < from
    requires forall i :: k <= i < |times| ==> from <= times[i] <= to
    ensures CountIn(times, from, to) == |times| - k
  {
    if k < |times| {
      CountSuffix(times[..|times| - 1], k, from, to);
    } else if times != [] {
      CountSuffix(times[..|times| - 1], k - 1, from, to);
    }
  }

  /** Members of the interval sit next to each other, so a count bounds an index gap. */
  lemma {:induction false} CountSpan(times: seq<nat>, from: int, to: int) returns (first: nat)
    requires Sorted(times) && CountIn(times, from, to) > 0
    ensures first + CountIn(times, from, to) <= |times|
    ensures from <= times[first] <= to && from <= times[first + CountIn(times, from, to) - 1] <= to
  {
    var n := |times| - 1;
    if CountIn(times[..n], from, to) == 0 {
      first := n;
    } else {
      first := CountSpan(times[..n], from, to);
      var last := first + CountIn(times[..n], from, to) - 1;
      if from <= times[n] <= to {
        assert times[last] <= times[last + 1] <= times[n];
      }
    }
  }

  lemma SpacedSpan(times: seq<nat>, max: nat, window: nat, i: nat, j: nat)
    requires Sorted(times) && Spaced(times, max, window) && i + max <= j < |times|
    ensures times[j] - times[i] > window
  {
    assert Apart(times, i, max, window);
  }

  /** Any closed interval no longer than the window holds at most `max` spaced instants. */
  lemma WindowBound(times: seq<nat>, max: nat, window: nat, from: int, to: int)
    requires Sorted(times) && Spaced(times, max, window) && to - from <= window
    ensures CountIn(times, from, to) <= max
  {
    if CountIn(times, from, to) > max {
      var first := CountSpan(times, from, to);
      SpacedSpan(times, max, window, first, first + CountIn(times, from, to) - 1);
    }
  }

  /** The deque holds the grants from index `dropped` on; all before it had left the window by `clock`. */
  ghost predicate Follows(timestamps: seq<nat>, grants: seq<nat>, dropped: nat, max: nat, window: nat, clock: nat) {
    && dropped <= |grants| && timestamps == grants[dropped..] && |timestamps| <= max
    && Sorted(grants) && Spaced(grants, max, window)
    && (forall i :: 0 <= i < |grants| ==> grants[i] <= clock)
    && (forall i :: 0 <= i < dropped ==> clock - grants[i] > window)
  }

  lemma FollowsPush(timestamps: seq<nat>, grants: seq<nat>, dropped: nat, max: nat, window: nat, now: nat)
    requires Follows(timestamps, grants, dropped, max, window, now) && |timestamps| < max
    ensures Follows(timestamps + [now], grants + [now], dropped, max, window, now)
  {
    var grants' := grants + [now];
    forall i | 0 <= i < |grants'| - max ensures Apart(grants', i, max, window) {
      if i + max < |grants| {
        assert Apart(grants, i, max, window);
      } else {
        assert i < dropped;
      }
    }
  }

  class RestartTracker {
    const window: nat
    const maxRestarts: nat
    var timestamps: seq<nat>
    /** Every restart granted since construction or the last reset, how many of
        them the deque has dropped, and the latest instant read from the clock. */
    ghost var grants: seq<nat>
    ghost var dropped: nat
    ghost var clock: nat

    ghost predicate Valid()
      reads this
    {
      Follows(timestamps, grants, dropped, maxRestarts, window, clock)
    }

    constructor (window: nat, maxRestarts: nat)
      ensures Valid() && grants == [] && this.window == window && this.maxRestarts == maxRestarts
    {
      this.window, this.maxRestarts := window, maxRestarts;
      timestamps, grants, dropped, clock := [], [], 0, 0;
    }

    method PruneWindow(now: nat)
      requires Valid() && clock <= now
      modifies this`timestamps, this`dropped, this`clock
      ensures Valid() && clock == now
      ensures timestamps != [] ==> now - timestamps[0] <= window
    {
      clock := now;
      while timestamps != [] && now - timestamps[0] > window
        invariant Valid() && clock == now
        decreases |timestamps|
      {
        assert timestamps[0] == grants[dropped];
        timestamps := timestamps[1..];
        dropped := dropped + 1;
      }
    }

    /** A restart is allowed exactly when fewer than the limit were granted in
        the window ending now; NoWindowOverflows draws the consequence. */
    method RecordRestart(now: nat) returns (allowed: bool)
      requires Valid() && clock <= now
      modifies this`timestamps, this`grants, this`dropped, this`clock
      ensures Valid() && clock == now
      ensures allowed <==> CountIn(old(grants), now - window, now) < maxRestarts
      ensures grants == if allowed then old(grants) + [now] else old(grants)
    {
      PruneWindow(now);
      InWindow(now);
      if |timestamps| >= maxRestarts {
        return false;
      }
      FollowsPush(timestamps, grants, dropped, maxRestarts, window, now);
      timestamps := timestamps + [now];
      grants := grants + [now];
      return true;
    }

    lemma InWindow(now: nat)
      requires Valid() && clock == now && (timestamps != [] ==> now - timestamps[0] <= window)
      ensures CountIn(grants, now - window, now) == |timestamps|
    {
      forall i | dropped <= i < |grants| ensures now - window <= grants[i] {
        assert grants[dropped] == timestamps[0];
      }
      CountSuffix(grants, dropped, now - window, now);
    }

    method Reset()
      modifies this`timestamps, this`grants, this`dropped
      ensures Valid() && grants == [] && timestamps == []
    {
      timestamps, grants, dropped := [], [], 0;
    }

    /** At any point of any run on a monotone clock, every closed interval no
        longer than the window, wherever it lies, holds at most the limit. */
    lemma NoWindowOverflows(from: int, to: int)
      requires Valid() && to - from <= window
      ensures CountIn(grants, from, to) <= maxRestarts
    {
      WindowBound(grants, maxRestarts, window, from, to);
    }
  }
}
