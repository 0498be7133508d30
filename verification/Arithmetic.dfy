/** Small arithmetic shared by the modules. */
module Arithmetic {
  function Min(a: nat, b: nat): nat {
    if a < b then a else b
  }

  function Max(a: nat, b: nat): nat {
    if a > b then a else b
  }

  /** The time from `earlier` to `now`, never negative. */
  function Elapsed(now: nat, earlier: nat): nat {
    if now >= earlier then now - earlier else 0
  }
}
