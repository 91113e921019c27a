/** The timing counters of litedram/common.py. */
module TimingControllers {
  import opened Common

  // tXXDController ---------------------------------------------------------------------------------

  /** Registers of a `tXXDController`. */
  datatype Txx = Txx(ready: bool, count: nat)

  /** Smallest power of two that is at least `n`: one past the largest value of `Signal(max=n)`. */
  function SignalModulus(n: pos): (m: pos)
    ensures n <= m < 2 * n
  {
    if n == 1 then 1 else 2 * SignalModulus((n + 1) / 2)
  }

  /** Unsigned subtraction of one, wrapping below zero. */
  function Decrement(count: nat, modulus: pos): nat { if count == 0 then modulus - 1 else count - 1 }

  /** Truncation of a value to a signal's width. */
  function Truncate(x: nat, modulus: pos): nat { if x < modulus then x else Truncate(x - modulus, modulus) }

  function TxxReset(txxd: Option<pos>): Txx { Txx(txxd.None?, 0) }

  /** One clock edge. With no delay configured the controller is a constant `ready`. */
  function TxxStep(txxd: Option<pos>, s: Txx, valid: bool): Txx {
    if txxd.None? then s
    else if valid then Txx(txxd.value == 1, txxd.value - 1)
    else if s.ready then s
    else Txx(s.count == 1, Decrement(s.count, SignalModulus(Max(txxd.value, 2))))
  }

  /** What the registers hold `since` cycles after the last `valid`. */
  ghost predicate TxxTracks(txxd: Option<pos>, s: Txx, since: Since) {
    match txxd
    case None => s.ready
    case Some(n) =>
      since.Some? ==>
        && 1 <= since.value
        && s.ready == (n <= since.value)
        && (!s.ready ==> s.count == n - since.value)
  }

  lemma TxxStepTracks(txxd: Option<pos>, s: Txx, since: Since, valid: bool)
    requires TxxTracks(txxd, s, since)
    ensures TxxTracks(txxd, TxxStep(txxd, s, valid), Elapse(since, valid))
  {
  }

  /** Registers after a history of `valid` inputs, from reset. */
  function TxxRun(txxd: Option<pos>, h: seq<bool>): Txx {
    if h == [] then TxxReset(txxd)
    else TxxStep(txxd, TxxRun(txxd, h[..|h| - 1]), h[|h| - 1])
  }

  /** The controller in closed form: after any history it is ready exactly when the last `valid` is at least `n`
      cycles old or, when there was none, when the wrapped reset count has run out. */
  lemma {:induction false} TxxExact(n: pos, h: seq<bool>)
    ensures TxxRun(Some(n), h).ready <==>
              match SinceLast(h)
              case Some(k) => n <= k
              case None => SignalModulus(Max(n, 2)) <= |h|
    ensures TxxTracks(Some(n), TxxRun(Some(n), h), SinceLast(h))
  {
    TxxExactCount(n, h);
  }

  lemma {:induction false} TxxExactCount(n: pos, h: seq<bool>)
    ensures TxxTracks(Some(n), TxxRun(Some(n), h), SinceLast(h))
    ensures SinceLast(h).None? ==>
              var m := SignalModulus(Max(n, 2));
              var s := TxxRun(Some(n), h);
              s.ready == (m <= |h|) && (!s.ready ==> s.count == (if |h| == 0 then 0 else m - |h|))
  {
    if h != [] {
      var before, valid := h[..|h| - 1], h[|h| - 1];
      TxxExactCount(n, before);
      TxxStepTracks(Some(n), TxxRun(Some(n), before), SinceLast(before), valid);
      if SinceLast(h).None? {
        var m := SignalModulus(Max(n, 2));
      }
    }
  }

  /** The counter as a clocked object. */
  class TxxController {
    const txxd: Option<pos>
    var ready: bool
    var count: nat

    function State(): Txx reads this { Txx(ready, count) }

    constructor (txxd: Option<pos>)
      ensures this.txxd == txxd && State() == TxxReset(txxd)
    {
      this.txxd := txxd;
      ready, count := txxd.None?, 0;
    }

    method Tick(valid: bool)
      modifies this
      ensures State() == TxxStep(txxd, old(State()), valid)
    {
      if txxd.Some? {
        if valid {
          count := txxd.value - 1;
          ready := txxd.value - 1 == 0;
        } else if !ready {
          var was := count;
          count := Decrement(was, SignalModulus(Max(txxd.value, 2)));
          if was == 1 { ready := true; }
        }
      }
    }
  }

  // tFAWController ---------------------------------------------------------------------------------

  /** Registers of a `tFAWController`; `window[0]` is the previous cycle's activate. */
  datatype Tfaw = Tfaw(ready: bool, window: seq<bool>)

  function Ones(w: seq<bool>): nat {
    if w == [] then 0 else (if w[0] then 1 else 0) + Ones(w[1..])
  }

  function TfawReset(tfaw: Option<pos>): Tfaw {
    Tfaw(true, if tfaw.None? then [] else seq(tfaw.value, _ => false))
  }

  /** One clock edge. The count is truncated to the width of `Signal(max=max(tfaw, 2))`. */
  function TfawStep(tfaw: Option<pos>, s: Tfaw, valid: bool): Tfaw
    requires tfaw.Some? ==> |s.window| == tfaw.value
  {
    if tfaw.None? then s else
    var count := Truncate(Ones(s.window), SignalModulus(Max(tfaw.value, 2)));
    Tfaw(if count < 4 then (if count == 3 then !valid else true) else s.ready,
         [valid] + s.window[..tfaw.value - 1])
  }

  lemma OnesBounds(w: seq<bool>)
    ensures Ones(w) <= |w|
    ensures Ones(w) == |w| ==> forall i | 0 <= i < |w| :: w[i]
    ensures (forall i | 0 <= i < |w| :: !w[i]) ==> Ones(w) == 0
  {
    if w != [] { OnesBounds(w[1..]); }
  }

  lemma {:induction false} OnesAppend(a: seq<bool>, b: seq<bool>)
    ensures Ones(a + b) == Ones(a) + Ones(b)
  {
    if a == [] {
      assert a + b == b;
    } else {
      OnesAppend(a[1..], b);
      assert (a + b)[1..] == a[1..] + b;
    }
  }

  lemma OnesShift(w: seq<bool>, v: bool)
    requires w != []
    ensures Ones([v] + w[..|w| - 1]) + (if w[|w| - 1] then 1 else 0) == Ones(w) + (if v then 1 else 0)
  {
    OnesAppend(w[..|w| - 1], [w[|w| - 1]]);
    assert w[..|w| - 1] + [w[|w| - 1]] == w;
    OnesAppend([v], w[..|w| - 1]);
  }

  /** At most four activates in the window, and a full window blocks a fifth. */
  ghost predicate TfawInv(tfaw: Option<pos>, s: Tfaw) {
    match tfaw
    case None => s.ready
    case Some(n) => |s.window| == n && Ones(s.window) <= 4 && (Ones(s.window) == 4 ==> !s.ready)
  }

  lemma TfawStepInv(tfaw: Option<pos>, s: Tfaw, valid: bool)
    requires TfawInv(tfaw, s)
    requires valid ==> s.ready
    ensures TfawInv(tfaw, TfawStep(tfaw, s, valid))
  {
    if tfaw.Some? {
      var n, w := tfaw.value, s.window;
      OnesShift(w, valid);
      OnesBounds(w);
      if n >= 5 {
        assert SignalModulus(n) >= 5;
      } else if n == 4 {
        assert SignalModulus(4) == 4;
        assert Ones(w) == 4 ==> w[3];
      } else {
        OnesBounds([valid] + w[..n - 1]);
      }
    }
  }

  /** The counter as a clocked object. */
  class TfawController {
    const tfaw: Option<pos>
    var ready: bool
    var window: seq<bool>

    function State(): Tfaw reads this { Tfaw(ready, window) }

    ghost predicate Valid() reads this { tfaw.Some? ==> |window| == tfaw.value }

    constructor (tfaw: Option<pos>)
      ensures this.tfaw == tfaw && State() == TfawReset(tfaw) && Valid()
    {
      this.tfaw := tfaw;
      ready := true;
      window := if tfaw.None? then [] else seq(tfaw.value, _ => false);
    }

    method Tick(valid: bool)
      requires Valid()
      modifies this
      ensures Valid() && State() == TfawStep(tfaw, old(State()), valid)
    {
      if tfaw.Some? {
        var ones := 0;
        for i := 0 to |window|
          invariant ones + Ones(window[i..]) == Ones(window)
        {
          ones := ones + if window[i] then 1 else 0;
        }
        var count := Truncate(ones, SignalModulus(Max(tfaw.value, 2)));
        window := [valid] + window[..tfaw.value - 1];
        if count < 4 {
          ready := if count == 3 then !valid else true;
        }
      }
    }
  }

  /** Registers after a history of activates. */
  function TfawRun(tfaw: pos, h: seq<bool>): (s: Tfaw)
    ensures |s.window| == tfaw
    decreases |h|
  {
    if h == [] then TfawReset(Some(tfaw))
    else TfawStep(Some(tfaw), TfawRun(tfaw, h[..|h| - 1]), h[|h| - 1])
  }

  /** An activate is issued only when the controller is ready. */
  ghost predicate TfawGated(tfaw: pos, h: seq<bool>) {
    forall i | 0 <= i < |h| && h[i] :: TfawRun(tfaw, h[..i]).ready
  }

  /** The window holds the last `tfaw` inputs, newest first. */
  lemma {:induction false} TfawWindow(tfaw: pos, h: seq<bool>)
    ensures forall j | 0 <= j < tfaw ::
              TfawRun(tfaw, h).window[j] == (j < |h| && h[|h| - 1 - j])
  {
    if h != [] {
      TfawWindow(tfaw, h[..|h| - 1]);
    }
  }

  lemma TfawGatedPrefix(tfaw: pos, h: seq<bool>, n: nat)
    requires n <= |h|
    requires TfawGated(tfaw, h)
    ensures TfawGated(tfaw, h[..n])
  {
    forall i | 0 <= i < n && h[..n][i] ensures TfawRun(tfaw, h[..n][..i]).ready {
      assert h[i] && h[..n][..i] == h[..i];
    }
  }

  lemma {:induction false} TfawRunInv(tfaw: pos, h: seq<bool>)
    requires TfawGated(tfaw, h)
    ensures TfawInv(Some(tfaw), TfawRun(tfaw, h))
  {
    if h == [] {
      OnesBounds(TfawRun(tfaw, h).window);
    } else {
      var before := h[..|h| - 1];
      TfawGatedPrefix(tfaw, h, |h| - 1);
      TfawRunInv(tfaw, before);
      TfawStepInv(Some(tfaw), TfawRun(tfaw, before), h[|h| - 1]);
    }
  }

  /** Indices of five activates, in order. */
  ghost predicate FiveActivates(h: seq<bool>, t: seq<nat>) {
    && |t| == 5
    && (forall i | 0 <= i < 5 :: t[i] < |h| && h[t[i]])
    && (forall i | 0 <= i < 4 :: t[i] < t[i + 1])
  }

  lemma {:induction false} OnesAtLeast(w: seq<bool>, at: seq<nat>)
    requires forall i | 0 <= i < |at| :: at[i] < |w| && w[at[i]]
    requires forall i | 0 <= i < |at| - 1 :: at[i] < at[i + 1]
    ensures |at| <= Ones(w)
  {
    if at != [] {
      var last := at[|at| - 1];
      var low := at[..|at| - 1];
      forall i | 0 <= i < |low| ensures low[i] < last {
        Increasing(at, i, |at| - 1);
      }
      OnesAtLeast(w[..last], low);
      OnesAppend(w[..last], w[last..]);
      assert w[..last] + w[last..] == w;
    }
  }

  lemma {:induction false} Increasing(at: seq<nat>, i: nat, j: nat)
    requires forall k | 0 <= k < |at| - 1 :: at[k] < at[k + 1]
    requires i < j < |at|
    ensures at[i] < at[j]
    decreases j
  {
    if i + 1 < j { Increasing(at, i, j - 1); }
  }

  lemma FourInWindow(tfaw: pos, h: seq<bool>, t: seq<nat>)
    requires FiveActivates(h, t)
    requires t[4] - t[0] <= tfaw
    ensures 4 <= Ones(TfawRun(tfaw, h[..t[4]]).window)
  {
    TfawWindow(tfaw, h[..t[4]]);
    Increasing(t, 0, 1); Increasing(t, 0, 2); Increasing(t, 0, 3); Increasing(t, 0, 4);
    var now := t[4] - 1;
    OnesAtLeast(TfawRun(tfaw, h[..t[4]]).window, [now - t[3], now - t[2], now - t[1], now - t[0]]);
  }

  /** Four-activate window, for every setting, including those whose count is truncated: in any history of activates
      that respect `ready`, five activates span more than `tfaw` cycles. */
  lemma FourActivateWindow(tfaw: pos, h: seq<bool>, t: seq<nat>)
    requires TfawGated(tfaw, h)
    requires FiveActivates(h, t)
    ensures t[4] - t[0] > tfaw
  {
    assert h[t[4]];
    TfawGatedPrefix(tfaw, h, t[4]);
    TfawRunInv(tfaw, h[..t[4]]);
    if t[4] - t[0] <= tfaw {
      FourInWindow(tfaw, h, t);
    }
  }
}
