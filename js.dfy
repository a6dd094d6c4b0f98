/**
 * JavaScript truthiness of the JSON values the system handles, and the
 * `a || b` defaulting idiom built on it. A string is falsy when absent or
 * empty, a number when absent or zero (JSON carries no NaN).
 */
module Js {
  import opened Wrappers

  predicate Truthy(s: Option<string>) {
    s.Some? && s.value != ""
  }

  predicate TruthyInt(n: Option<int>) {
    n.Some? && n.value != 0
  }

  predicate TruthyReal(x: Option<real>) {
    x.Some? && x.value != 0.0
  }

  /** `a || b` on two possibly absent strings. */
  function Or(a: Option<string>, b: Option<string>): Option<string> {
    if Truthy(a) then a else b
  }

  /** `s || ''` */
  function OrEmpty(s: Option<string>): string {
    if Truthy(s) then s.value else ""
  }

  /** `n || 0` */
  function OrZero(n: Option<int>): int {
    if TruthyInt(n) then n.value else 0
  }

  /** `n || null` on a number */
  function OrNull(n: Option<int>): Option<int> {
    if TruthyInt(n) then n else None
  }

  /** `x || null` on a float */
  function OrNullReal(x: Option<real>): Option<real> {
    if TruthyReal(x) then x else None
  }
}
