/** Vocabulary shared by the model: optional settings, powers of two for bit widths, and distances in clock cycles. */
module Common {

  datatype Option<+T> = None | Some(value: T)

  /** A timing setting or a depth: the source's settings are at least one cycle. */
  type pos = x: int | 1 <= x witness 1

  /** Two to the power `n`: the number of values of an `n`-bit signal. */
  function Pow2(n: nat): pos {
    if n == 0 then 1 else 2 * Pow2(n - 1)
  }

  function Max(a: int, b: int): int { if a < b then b else a }

  function Min(a: int, b: int): int { if a < b then a else b }

  /** Division rounding up, the source's `math.ceil(a/b)` on integers. */
  function CeilDiv(a: nat, b: pos): nat { (a + b - 1) / b }

  lemma CeilDivIsLeast(a: nat, b: pos, n: nat)
    ensures CeilDiv(a, b) <= n <==> a <= n * b
  {
    var q := CeilDiv(a, b);
    var rest := (a + b - 1) % b;
    assert a + b - 1 == q * b + rest;
    if q <= n { ProductMonotone(q, n, b); } else { ProductMonotone(n + 1, q, b); NextProduct(n, b); }
  }

  lemma NextProduct(n: nat, k: nat)
    ensures (n + 1) * k == n * k + k
  {
  }

  lemma ProductMonotone(a: nat, b: nat, k: nat)
    requires a <= b
    ensures a * k <= b * k
  {
    assert b * k == a * k + (b - a) * k;
  }

  // Distances --------------------------------------------------------------------------------------

  /** Cycles elapsed since some event; `None` when it never happened. */
  type Since = Option<nat>

  /** The distance one clock cycle later, given whether the event happens in this cycle. */
  function Elapse(s: Since, event: bool): Since {
    if event then Some(1) else if s.None? then None else Some(s.value + 1)
  }

  /** The event lies at least `n` cycles back, or never happened. */
  predicate AtLeast(s: Since, n: int) { s.None? || n <= s.value }

  /** Distance from the end of a history to its last event. */
  function SinceLast(h: seq<bool>): (s: Since)
    ensures s.Some? ==> 1 <= s.value <= |h|
  {
    if h == [] then None else Elapse(SinceLast(h[..|h| - 1]), h[|h| - 1])
  }

  /** `SinceLast` is the distance to the most recent event, and `None` exactly when there is no event. */
  lemma {:induction false} SinceLastMeaning(h: seq<bool>)
    ensures SinceLast(h).None? <==> (forall i | 0 <= i < |h| :: !h[i])
    ensures SinceLast(h).Some? ==>
              var k := SinceLast(h).value;
              h[|h| - k] && forall i | |h| - k < i < |h| :: !h[i]
  {
    if h != [] {
      SinceLastMeaning(h[..|h| - 1]);
    }
  }
}
