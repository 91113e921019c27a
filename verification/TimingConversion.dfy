/** litedram/modules.py: times in nanoseconds and in DRAM clocks, converted to controller cycles. */
module TimingConversion {
  import opened Common

  /** `period` is the controller's clock period in nanoseconds; `denom` DRAM clocks make one controller cycle. */
  datatype Clock = Clock(period: real, denom: pos) {
    ghost predicate Valid() { period > 0.0 }
    /** `math.ceil`. */
    static function Ceil(x: real): int { -((-x).Floor) }
    function Margin(): real { period * (1.0 - 1.0 / denom as real) }
    function NsToCycles(t: real, margin: bool): int
      requires Valid()
    {
      Ceil((if margin then t + Margin() else t) / period)
    }
    function CkToCycles(ck: nat): nat { CeilDiv(ck, denom) }
    function CkNsToCycles(ck: nat, ns: real, margin: bool): int
      requires Valid()
    {
      Max(CkToCycles(ck), NsToCycles(ns, margin))
    }
    /** Time from phase `p` of one controller cycle to phase `q` of the cycle `n` later. */
    function Elapsed(n: int, p: nat, q: nat): real { n as real * period + (q - p) as real * (period / denom as real) }
  }

  lemma CeilIsLeast(x: real, n: int)
    ensures Clock.Ceil(x) <= n <==> x <= n as real
  {
  }

  lemma DivideOut(x: real, y: real, n: int)
    requires y > 0.0
    ensures x / y <= n as real <==> x <= n as real * y
  {
    assert x == (x / y) * y;
    if x / y <= n as real { assert (x / y) * y <= n as real * y; }
    if x / y > n as real { assert (x / y) * y > n as real * y; }
  }

  /** The closest pair of phases is the last one and then the first. */
  lemma WorstPhases(c: Clock, n: int, p: nat, q: nat)
    requires c.Valid() && p < c.denom && q < c.denom
    ensures c.Elapsed(n, c.denom - 1, 0) <= c.Elapsed(n, p, q)
    ensures c.Elapsed(n, c.denom - 1, 0) == n as real * c.period - c.Margin()
  {
    var k := c.period / c.denom as real;
    assert k > 0.0;
    var d: int := q - p;
    var least: int := 1 - c.denom;
    assert (d - least) as real * k >= 0.0;
    assert d as real * k == least as real * k + (d - least) as real * k;
    assert c.period == k * c.denom as real;
    assert c.Margin() == c.period - c.period * (1.0 / c.denom as real);
    assert c.period * (1.0 / c.denom as real) == k;
    assert least as real * k == k - k * c.denom as real;
  }

  /** `ns_to_cycles` is exact: `n` controller cycles keep any two commands, issued on any two phases, at least `t`
      nanoseconds apart exactly when `n` is no smaller. */
  lemma NsToCyclesIsLeast(c: Clock, t: real, n: int)
    requires c.Valid()
    ensures c.NsToCycles(t, true) <= n
       <==> forall p: nat, q: nat | p < c.denom && q < c.denom :: t <= c.Elapsed(n, p, q)
  {
    CeilIsLeast((t + c.Margin()) / c.period, n);
    DivideOut(t + c.Margin(), c.period, n);
    WorstPhases(c, n, c.denom - 1, 0);
    forall p: nat, q: nat | p < c.denom && q < c.denom ensures c.Elapsed(n, c.denom - 1, 0) <= c.Elapsed(n, p, q) {
      WorstPhases(c, n, p, q);
    }
  }

  /** Without the margin it is exact for commands on equal phases. */
  lemma NsWithoutMarginIsLeast(c: Clock, t: real, n: int, p: nat)
    requires c.Valid()
    ensures c.NsToCycles(t, false) <= n <==> t <= c.Elapsed(n, p, p)
  {
    CeilIsLeast(t / c.period, n);
    DivideOut(t, c.period, n);
  }

  /** `ck_to_cycles`: the least number of cycles that holds `ck` DRAM clocks. */
  lemma CkToCyclesIsLeast(c: Clock, ck: nat, n: nat)
    ensures c.CkToCycles(ck) <= n <==> ck <= n * c.denom
  {
    CeilDivIsLeast(ck, c.denom, n);
  }

  /** A setting given both ways meets both, and no smaller number of cycles does. */
  lemma CkNsToCyclesIsLeast(c: Clock, ck: nat, ns: real, n: nat)
    requires c.Valid()
    ensures c.CkNsToCycles(ck, ns, true) <= n <==>
            ck <= n * c.denom && forall p: nat, q: nat | p < c.denom && q < c.denom :: ns <= c.Elapsed(n, p, q)
  {
    CkToCyclesIsLeast(c, ck, n);
    NsToCyclesIsLeast(c, ns, n);
  }
}
