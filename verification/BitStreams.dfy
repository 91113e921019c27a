/** litedram/phy/utils.py: bit streams cut into words of one cycle each. */
module BitSlips {
  import opened Common

  /** `dw` bits a cycle are delayed by `slp` bits. The source computes the position from the top of the register. */
  datatype Settings = Settings(dw: pos, slp: nat, cycles: pos, register: bool) {
    /** What the constructor asserts. */
    ghost predicate Valid() { slp <= cycles * dw - 1 }
    function Offset(): int { cycles * dw - 1 - slp }
    function Registers(): nat { if register then (cycles + 1) * dw else cycles * dw }
    function Delay(): nat { slp + if register then dw else 0 }
  }

  /** The bits of a sequence of words. */
  function Flat<T>(words: seq<seq<T>>): seq<T> {
    if words == [] then [] else Flat(words[..|words| - 1]) + words[|words| - 1]
  }

  ghost predicate Words<T>(words: seq<seq<T>>, dw: nat) { forall k | 0 <= k < |words| :: |words[k]| == dw }

  lemma {:induction false} FlatLength<T>(words: seq<seq<T>>, dw: nat)
    requires Words(words, dw)
    ensures |Flat(words)| == |words| * dw
  {
    if words != [] {
      FlatLength(words[..|words| - 1], dw);
      assert |words| * dw == (|words| - 1) * dw + dw;
    }
  }

  /** The whole shift register as seen by the output. */
  function Line(p: Settings, s: seq<bool>, i: seq<bool>): seq<bool> { if p.register then s else s + i }

  function Output(p: Settings, s: seq<bool>, i: seq<bool>): (o: seq<bool>)
    requires p.Valid() && |s| == p.Registers() && |i| == p.dw
    ensures |o| == p.dw
  {
    Line(p, s, i)[p.Offset() + 1..p.dw + p.Offset() + 1]
  }

  /** The input enters at the top and the lowest word drops out. */
  function Step(p: Settings, s: seq<bool>, i: seq<bool>): (s': seq<bool>)
    requires |s| == p.Registers() && |i| == p.dw
    ensures |s'| == |s|
  {
    var all := s + i;
    all[p.dw..]
  }

  function Run(p: Settings, s: seq<bool>, ins: seq<seq<bool>>): (s': seq<bool>)
    requires |s| == p.Registers() && Words(ins, p.dw)
    ensures |s'| == |s|
  {
    if ins == [] then s else Step(p, Run(p, s, ins[..|ins| - 1]), ins[|ins| - 1])
  }

  function Outputs(p: Settings, s: seq<bool>, ins: seq<seq<bool>>): (outs: seq<seq<bool>>)
    requires p.Valid() && |s| == p.Registers() && Words(ins, p.dw)
    ensures |outs| == |ins| && Words(outs, p.dw)
  {
    if ins == [] then []
    else
      var before, i := ins[..|ins| - 1], ins[|ins| - 1];
      Outputs(p, s, before) + [Output(p, Run(p, s, before), i)]
  }

  /** The register holds the last bits of the stream. */
  lemma {:induction false} RegisterHoldsTail(p: Settings, s: seq<bool>, ins: seq<seq<bool>>)
    requires |s| == p.Registers() && Words(ins, p.dw)
    ensures Run(p, s, ins) == (s + Flat(ins))[|Flat(ins)|..]
  {
    if ins != [] {
      var before, i := ins[..|ins| - 1], ins[|ins| - 1];
      RegisterHoldsTail(p, s, before);
      DropBoth(s, Flat(before), i, p.dw);
    }
  }

  lemma DropBoth(s: seq<bool>, f: seq<bool>, i: seq<bool>, dw: nat)
    requires |i| == dw <= |s| + dw
    ensures ((s + f)[|f|..] + i)[dw..] == (s + (f + i))[|f + i|..]
  {
    assert (s + f)[|f|..] + i == (s + (f + i))[|f|..];
    assert (s + (f + i))[|f|..][dw..] == (s + (f + i))[|f| + dw..];
  }

  /** The output stream is the input stream delayed by exactly `slp` bits, plus a word when registered, for all widths,
      depths and slips; what comes before is the register's initial content. */
  lemma {:induction false} DelaysExactly(p: Settings, s: seq<bool>, ins: seq<seq<bool>>)
    requires p.Valid() && |s| == p.Registers() && Words(ins, p.dw)
    ensures p.Delay() <= |s|
    ensures Flat(Outputs(p, s, ins)) == (s[|s| - p.Delay()..] + Flat(ins))[..|Flat(ins)|]
  {
    DelayFits(p);
    if ins != [] {
      var before, i := ins[..|ins| - 1], ins[|ins| - 1];
      DelaysExactly(p, s, before);
      RegisterHoldsTail(p, s, before);
      NextWord(p, s, Flat(before), i);
      var all := s[|s| - p.Delay()..] + Flat(ins);
      assert all[..|Flat(before)|] == (s[|s| - p.Delay()..] + Flat(before))[..|Flat(before)|];
      assert all[..|Flat(ins)|] == all[..|Flat(before)|] + all[|Flat(before)|..|Flat(ins)|];
    }
  }

  lemma DelayFits(p: Settings)
    requires p.Valid()
    ensures p.Delay() <= p.Registers() && 0 <= p.Offset()
    ensures p.Offset() + 1 + p.Delay() == p.Registers() && p.dw <= p.cycles * p.dw
  {
    assert (p.cycles + 1) * p.dw == p.cycles * p.dw + p.dw;
    assert p.cycles * p.dw == (p.cycles - 1) * p.dw + p.dw;
  }

  lemma NextWord(p: Settings, s: seq<bool>, f: seq<bool>, i: seq<bool>)
    requires p.Valid() && |s| == p.Registers() && |i| == p.dw && p.Delay() <= |s|
    ensures Output(p, (s + f)[|f|..], i) == (s[|s| - p.Delay()..] + (f + i))[|f|..|f + i|]
  {
    DelayFits(p);
  }

  /** `min_cycles`: the smallest depth that a slip needs. */
  function MinCycles(slp: nat, dw: pos): nat { CeilDiv(slp + 1, dw) }

  lemma MinCyclesIsLeast(p: Settings)
    ensures p.Valid() <==> MinCycles(p.slp, p.dw) <= p.cycles
  {
    CeilDivIsLeast(p.slp + 1, p.dw, p.cycles);
  }

  /** The shift register as a clocked object. */
  class ConstBitSlip {
    const p: Settings
    var bits: seq<bool>

    ghost predicate Valid() reads this { p.Valid() && |bits| == p.Registers() }

    constructor (p: Settings)
      requires p.Valid()
      ensures Valid() && this.p == p && forall k | 0 <= k < |bits| :: !bits[k]
    {
      this.p := p;
      bits := seq(p.Registers(), _ => false);
    }

    method Tick(i: seq<bool>) returns (o: seq<bool>)
      requires Valid() && |i| == p.dw
      modifies this
      ensures Valid() && bits == Step(p, old(bits), i) && o == Output(p, old(bits), i)
    {
      DelayFits(p);
      var line := if p.register then bits else bits + i;
      o := line[p.Offset() + 1..p.dw + p.Offset() + 1];
      bits := bits[p.dw..] + i;
      assert bits == Step(p, old(bits), i);
    }
  }
}

/** `Serializer` and `Deserializer` back to back, on phase-aligned clocks. */
module Serdes {
  import opened Common
  import T = TimingControllers

  /** A slice of a word that is sent in one fast cycle, and a word as its slices. */
  type Chunk = seq<bool>
  type Word = seq<Chunk>

  /** Bits of a slice, slices of a word, and whether the serializer registers its input. Both counters are
      `Signal(max=ratio)`. */
  datatype Settings = Settings(width: pos, ratio: pos, register: bool) {
    /** The constructors assert that a word is wider than a slice. */
    ghost predicate Valid() { 2 <= ratio }
    function Modulus(): pos { T.SignalModulus(ratio) }
    /** Slow cycles through both: `Serializer.LATENCY` when registered, and `Deserializer.LATENCY`. */
    function Latency(): nat { if register then 3 else 2 }
  }

  datatype State = State(sendCount: nat, sent: Word, count: nat, pre: Word, preHeld: Word, o: Word)

  ghost predicate WellFormed(p: Settings, s: State) {
    && s.sendCount < p.Modulus() && s.count < p.Modulus()
    && |s.sent| == |s.pre| == |s.preHeld| == |s.o| == p.ratio
  }

  /** A slice with all bits up, or all down. */
  function Level(p: Settings, up: bool): (c: Chunk)
    ensures |c| == p.width
  {
    seq(p.width, _ => up)
  }

  predicate IsWord(p: Settings, w: Word) { |w| == p.ratio && forall j | 0 <= j < p.ratio :: |w[j]| == p.width }

  function Zero(p: Settings): (w: Word)
    ensures IsWord(p, w)
  {
    seq(p.ratio, _ => Level(p, false))
  }

  /** Both counters reset to `ratio - 1`. */
  function Reset(p: Settings): State { State(p.ratio - 1, Zero(p), p.ratio - 1, Zero(p), Zero(p), Zero(p)) }

  /** An index beyond an `Array` selects its last element. */
  function Index(p: Settings, count: nat): nat { if count < p.ratio then count else p.ratio - 1 }

  /** The word being sent, given the word at the input. */
  function Sending(p: Settings, s: State, i: Word): Word { if p.register then s.sent else i }

  /** The chunk on the wire. */
  function Wire(p: Settings, s: State, i: Word): Chunk
    requires WellFormed(p, s) && |i| == p.ratio
  {
    Sending(p, s, i)[Index(p, s.sendCount)]
  }

  /** The serializer's counter. Its comparison is of `reset | cnt`: `reset` only sets bit 0 of what is compared. */
  function NextSend(p: Settings, count: nat, reset: bool): (r: nat)
    requires count < p.Modulus()
    ensures r < p.Modulus()
  {
    if (if reset then count - count % 2 + 1 else count) == p.ratio - 1 then 0
    else if count + 1 == p.Modulus() then 0 else count + 1
  }

  /** The deserializer's counter. */
  function NextCount(p: Settings, count: nat, reset: bool): (r: nat)
    requires count < p.Modulus()
    ensures r < p.Modulus()
  {
    if reset || count + 1 == p.Modulus() then 0 else count + 1
  }

  /** A fast clock edge; on every `ratio`-th one the slow clock ticks too. `i` is the word at the input before it. */
  function Edge(p: Settings, s: State, i: Word, slow: bool, reset: bool): (s': State)
    requires WellFormed(p, s) && |i| == p.ratio
    ensures WellFormed(p, s')
  {
    State(
      NextSend(p, s.sendCount, reset),
      if slow then i else s.sent,
      NextCount(p, s.count, reset),
      s.pre[Index(p, s.count) := Wire(p, s, i)],
      if slow then s.pre else s.preHeld,
      if slow then s.preHeld[..p.ratio - 1] + [s.pre[p.ratio - 1]] else s.o)
  }

  // Reset ------------------------------------------------------------------------------------------

  /** Asserting `reset` clears the serializer's counter exactly when the counter with bit 0 set is `ratio - 1`, or
      when it wraps anyway; the deserializer's always. */
  lemma ResetClears(p: Settings, count: nat)
    requires p.Valid() && count < p.Modulus()
    ensures NextSend(p, count, true) == 0 <==> count - count % 2 + 1 == p.ratio - 1 || count + 1 == p.Modulus()
    ensures NextCount(p, count, true) == 0
  {
  }

  /** When the ratio is a power of two, these are the last two counts: from any other, the two sides are out of step. */
  lemma ResetAligns(p: Settings, count: nat)
    requires p.Valid() && p.ratio == p.Modulus() && count < p.Modulus()
    ensures NextSend(p, count, true) == NextCount(p, count, true) <==> p.ratio - 2 <= count
  {
    ModulusIsEven(p.ratio);
    LastPair(count, p.ratio / 2);
    ResetClears(p, count);
    hide NextSend, NextCount, T.SignalModulus;
  }

  lemma LastPair(count: nat, half: nat)
    requires count < 2 * half
    ensures count - count % 2 + 1 == 2 * half - 1 || count + 1 == 2 * half <==> 2 * half - 2 <= count
  {
  }

  lemma ModulusIsEven(n: pos)
    requires 2 <= n
    ensures T.SignalModulus(n) % 2 == 0
  {
  }

  /** With four slices and a counter at zero, `reset` takes it to one. */
  lemma ResetMisses(width: pos, register: bool)
    ensures var p := Settings(width, 4, register);
            p.Modulus() == 4 && NextSend(p, 0, true) == 1 && NextCount(p, 0, true) == 0
  {
    assert T.SignalModulus(4) == 2 * T.SignalModulus(2) == 4 * T.SignalModulus(1);
  }

  // Slow cycles ------------------------------------------------------------------------------------

  /** `k` fast edges after a slow one, with `i` at the input. */
  function FastEdges(p: Settings, s: State, i: Word, k: nat): (s': State)
    requires WellFormed(p, s) && |i| == p.ratio
    ensures WellFormed(p, s')
  {
    if k == 0 then s else Edge(p, FastEdges(p, s, i, k - 1), i, false, false)
  }

  /** A slow cycle: the edge that ends the cycle of `last`, and the fast edges with `i` at the input, up to the next. */
  function SlowCycle(p: Settings, s: State, last: Word, i: Word): (s': State)
    requires WellFormed(p, s) && |last| == |i| == p.ratio
    ensures WellFormed(p, s')
  {
    FastEdges(p, Edge(p, s, last, true, false), i, p.ratio - 1)
  }

  ghost predicate Words(p: Settings, ins: seq<Word>) { forall k | 0 <= k < |ins| :: IsWord(p, ins[k]) }

  /** The state at the end of the cycle in which the last word is at the input; the first cycle is the one of reset. */
  function Run(p: Settings, ins: seq<Word>): (s: State)
    requires Words(p, ins) && ins != []
    ensures WellFormed(p, s)
  {
    var n := |ins| - 1;
    if n == 0 then Reset(p) else SlowCycle(p, Run(p, ins[..n]), ins[n - 1], ins[n])
  }

  /** `k` fast edges into a cycle that sends `now`; the cycle before sent `last`. */
  ghost predicate Tracks(p: Settings, s: State, i: Word, now: Word, last: Word, k: nat)
    requires WellFormed(p, s) && |now| == |last| == p.ratio
  {
    && |i| == p.ratio && s.sendCount == s.count == k < p.ratio
    && (forall j | k <= j < p.ratio :: Sending(p, s, i)[j] == now[j])
    && (forall j | 0 <= j < p.ratio :: s.pre[j] == if j < k then now[j] else last[j])
  }

  lemma {:induction false} FastEdgesTrack(p: Settings, s: State, i: Word, now: Word, last: Word, k: nat)
    requires WellFormed(p, s) && p.ratio == p.Modulus() && |i| == |now| == |last| == p.ratio && k < p.ratio
    requires Tracks(p, s, i, now, last, 0)
    ensures Tracks(p, FastEdges(p, s, i, k), i, now, last, k)
    ensures FastEdges(p, s, i, k).preHeld == s.preHeld && FastEdges(p, s, i, k).o == s.o
  {
    hide T.SignalModulus;
    if k > 0 { FastEdgesTrack(p, s, i, now, last, k - 1); }
  }

  /** Before a slow edge: `a` was sent in the cycle that ends, `b` in the one before, `c` before that. */
  ghost predicate Ends(p: Settings, s: State, i: Word, a: Word, b: Word, c: Word)
    requires WellFormed(p, s) && |i| == |a| == |b| == |c| == p.ratio
  {
    && Tracks(p, s, i, a, b, p.ratio - 1)
    && (forall j | 0 <= j < p.ratio - 1 :: s.preHeld[j] == b[j])
    && s.o == c
  }

  lemma SlowCycleStep(p: Settings, s: State, last: Word, i: Word, a: Word, b: Word, c: Word)
    requires WellFormed(p, s) && p.Valid() && p.ratio == p.Modulus() && |last| == |i| == |a| == |b| == |c| == p.ratio
    requires Ends(p, s, last, a, b, c)
    ensures Ends(p, SlowCycle(p, s, last, i), i, if p.register then last else i, a, b)
  {
    var t := Edge(p, s, last, true, false);
    assert t.o == b;
    assert t.pre == a;
    FastEdgesTrack(p, t, i, if p.register then last else i, a, p.ratio - 1);
  }

  /** The word sent `n` cycles before the last. In the cycle of reset only the last slice leaves, and nothing before. */
  function Sent(p: Settings, ins: seq<Word>, n: nat): (w: Word)
    requires p.Valid() && Words(p, ins) && ins != []
    ensures IsWord(p, w)
  {
    if n + 1 < |ins| then ins[|ins| - 1 - n - if p.register then 1 else 0]
    else if p.register || n >= |ins| then Zero(p)
    else Zero(p)[p.ratio - 1 := ins[0][p.ratio - 1]]
  }

  lemma {:induction false} RunEnds(p: Settings, ins: seq<Word>)
    requires p.Valid() && p.ratio == p.Modulus() && Words(p, ins) && ins != []
    ensures Ends(p, Run(p, ins), ins[|ins| - 1], Sent(p, ins, 0), Sent(p, ins, 1), Sent(p, ins, 2))
  {
    if |ins| > 1 {
      var n, before := |ins| - 1, ins[..|ins| - 1];
      RunEnds(p, before);
      SlowCycleStep(p, Run(p, before), ins[n - 1], ins[n], Sent(p, before, 0), Sent(p, before, 1), Sent(p, before, 2));
      assert Sent(p, before, 0) == Sent(p, ins, 1) && Sent(p, before, 1) == Sent(p, ins, 2);
    }
  }

  /** When the ratio is a power of two, serializing and deserializing is the identity, delayed by both latencies. */
  lemma RoundTrip(p: Settings, ins: seq<Word>)
    requires p.Valid() && p.ratio == p.Modulus() && Words(p, ins) && 4 <= |ins|
    ensures Run(p, ins).o == ins[|ins| - 1 - p.Latency()]
  {
    hide Run, Tracks, T.SignalModulus, Zero;
    RunEnds(p, ins);
  }

  // Other ratios -----------------------------------------------------------------------------------

  /** A word whose first slice is up and all others down. */
  function Mark(p: Settings): (w: Word)
    ensures IsWord(p, w) && w[0] == Level(p, true) && forall j | 0 < j < p.ratio :: w[j] == Level(p, false)
  {
    var w := seq(p.ratio, j => Level(p, j == 0));
    assert forall j | 0 <= j < p.ratio :: w[j] == Level(p, j == 0);
    w
  }

  /** `k` fast edges into a cycle that sends `Mark`: the receiving counter runs ahead by the ratio, and slice 0 of
      what is received has been filled with another one. */
  ghost predicate Skewed(p: Settings, s: State, k: nat)
    requires WellFormed(p, s)
  {
    && k < p.ratio < p.Modulus() && s.sendCount == k
    && s.count == (if p.ratio + k < p.Modulus() then p.ratio + k else p.ratio + k - p.Modulus())
    && (p.Modulus() < p.ratio + k ==> s.pre[0] == Level(p, false))
  }

  lemma {:induction false} StaysSkewed(p: Settings, s: State, i: Word, k: nat)
    requires p.Valid() && WellFormed(p, s) && |i| == p.ratio && k < p.ratio
    requires Sending(p, s, i) == Mark(p) && Skewed(p, s, 0)
    ensures var s' := FastEdges(p, s, i, k);
            Skewed(p, s', k) && Sending(p, s', i) == Mark(p) && s'.preHeld == s.preHeld && s'.o == s.o
  {
    hide T.SignalModulus;
    if k > 0 { StaysSkewed(p, s, i, k - 1); }
  }

  lemma {:induction false} FastEdgesHold(p: Settings, s: State, i: Word, k: nat)
    requires WellFormed(p, s) && |i| == p.ratio
    ensures FastEdges(p, s, i, k).preHeld == s.preHeld && FastEdges(p, s, i, k).o == s.o
  {
    if k > 0 { FastEdgesHold(p, s, i, k - 1); }
  }

  /** After two cycles the first slice received is down. */
  lemma FirstSliceLost(p: Settings)
    requires p.Valid() && p.ratio < p.Modulus()
    ensures Words(p, [Mark(p), Mark(p)]) && Run(p, [Mark(p), Mark(p)]).pre[0] == Level(p, false)
  {
    var w := Mark(p);
    ModulusIsEven(p.ratio);
    assert [w, w][..1] == [w];
    StaysSkewed(p, Edge(p, Reset(p), w, true, false), w, p.ratio - 1);
  }

  /** With any other ratio a run of four equal words does not come through. */
  lemma OtherRatiosLose(p: Settings)
    requires p.Valid() && p.ratio < p.Modulus()
    ensures var ins := seq(4, _ => Mark(p));
            Words(p, ins) && Run(p, ins).o != ins[|ins| - 1 - p.Latency()]
  {
    var w := Mark(p);
    assert Level(p, true)[0] != Level(p, false)[0];
    FirstSliceLost(p);
    var three, four := [w, w, w], [w, w, w, w];
    assert three[..2] == [w, w] && four[..3] == three && seq(4, _ => w) == four;
    HoldsReceived(p, Run(p, [w, w]), w, w);
    HoldsReceived(p, Run(p, three), w, w);
    hide SlowCycle, T.SignalModulus;
  }

  /** A slow cycle keeps what was received, and gives out what was kept. */
  lemma HoldsReceived(p: Settings, s: State, last: Word, i: Word)
    requires p.Valid() && WellFormed(p, s) && |last| == |i| == p.ratio
    ensures SlowCycle(p, s, last, i).preHeld == s.pre && SlowCycle(p, s, last, i).o[0] == s.preHeld[0]
  {
    FastEdgesHold(p, Edge(p, s, last, true, false), i, p.ratio - 1);
  }

  /** Every word comes through unchanged, both latencies later. */
  ghost predicate Transparent(p: Settings) {
    forall ins | Words(p, ins) && 4 <= |ins| :: Run(p, ins).o == ins[|ins| - 1 - p.Latency()]
  }

  /** The pair is transparent exactly when the ratio is a power of two: the receiving counter wraps only by its
      width. */
  lemma TransparentIffPower(p: Settings)
    requires p.Valid()
    ensures Transparent(p) <==> p.ratio == p.Modulus()
  {
    if p.ratio == p.Modulus() {
      forall ins | Words(p, ins) && 4 <= |ins| ensures Run(p, ins).o == ins[|ins| - 1 - p.Latency()] {
        RoundTrip(p, ins);
      }
    } else {
      OtherRatiosLose(p);
    }
  }

  /** The moduli of signals are the powers of two. */
  lemma {:induction false} PowerIsModulus(bits: nat)
    ensures T.SignalModulus(Pow2(bits)) == Pow2(bits)
  {
    if bits > 0 { PowerIsModulus(bits - 1); }
  }

  // The clocked objects ----------------------------------------------------------------------------

  /** The sending side; `sent` is clocked by the slow clock, `count` by the fast one. */
  class Serializer {
    const p: Settings
    var count: nat
    var sent: Word

    ghost predicate Valid() reads this { p.Valid() && count < p.Modulus() && |sent| == p.ratio }

    constructor (p: Settings)
      requires p.Valid()
      ensures Valid() && this.p == p && count == Reset(p).sendCount && sent == Reset(p).sent
    {
      this.p := p;
      count, sent := p.ratio - 1, Zero(p);
    }

    /** A fast edge, at which the slow clock may tick too; `o` is the wire before it. */
    method Tick(i: Word, slow: bool, reset: bool) returns (o: Chunk)
      requires Valid() && |i| == p.ratio
      modifies this
      ensures Valid() && count == NextSend(p, old(count), reset) && sent == (if slow then i else old(sent))
      ensures o == (if p.register then old(sent) else i)[Index(p, old(count))]
    {
      var word := if p.register then sent else i;
      o := word[Index(p, count)];
      var compared := if reset && count % 2 == 0 then count + 1 else count;
      if compared == p.ratio - 1 || count + 1 == p.Modulus() {
        count := 0;
      } else {
        count := count + 1;
      }
      if slow { sent := i; }
    }
  }

  /** The receiving side. */
  class Deserializer {
    const p: Settings
    var count: nat
    var pre: Word
    var preHeld: Word
    var o: Word

    ghost predicate Valid() reads this { p.Valid() && count < p.Modulus() && |pre| == |preHeld| == |o| == p.ratio }

    constructor (p: Settings)
      requires p.Valid()
      ensures Valid() && this.p == p && count == Reset(p).count
      ensures pre == Reset(p).pre && preHeld == Reset(p).preHeld && o == Reset(p).o
    {
      this.p := p;
      count, pre := p.ratio - 1, Zero(p);
      preHeld, o := Zero(p), Zero(p);
    }

    /** A fast edge, at which the slow clock may tick too. */
    method Tick(i: Chunk, slow: bool, reset: bool)
      requires Valid()
      modifies this
      ensures Valid() && pre == old(pre)[Index(p, old(count)) := i] && count == NextCount(p, old(count), reset)
      ensures preHeld == (if slow then old(pre) else old(preHeld))
      ensures o == if slow then old(preHeld)[..p.ratio - 1] + [old(pre)[p.ratio - 1]] else old(o)
    {
      if slow {
        o := preHeld[..p.ratio - 1] + [pre[p.ratio - 1]];
        preHeld := pre;
      }
      pre := pre[Index(p, count) := i];
      count := if reset || count + 1 == p.Modulus() then 0 else count + 1;
    }
  }

  /** Serializer and deserializer on one wire. */
  method TickBoth(ser: Serializer, des: Deserializer, i: Word, slow: bool, reset: bool)
    requires ser.Valid() && des.Valid() && ser.p == des.p && |i| == ser.p.ratio
    modifies ser, des
    ensures ser.Valid() && des.Valid()
    ensures State(ser.count, ser.sent, des.count, des.pre, des.preHeld, des.o)
         == Edge(ser.p, old(State(ser.count, ser.sent, des.count, des.pre, des.preHeld, des.o)), i, slow, reset)
  {
    var chunk := ser.Tick(i, slow, reset);
    des.Tick(chunk, slow, reset);
  }
}
