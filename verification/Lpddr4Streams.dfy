/** LPDDR4 command streams: overlap masking of litedram/phy/utils.py `CommandsPipeline` phase by phase, and what the
    simulator decodes from the resulting lines. */
module Lpddr4Streams {
  import opened Common
  import opened Lpddr4Commands

  /** No phase reads a mode register, which the simulator does not decode. */
  ghost predicate Readable(fs: seq<Phase>, masked: bool) {
    forall t | 0 <= t < |fs| :: fs[t].Valid() && !ReadsModeRegister(fs[t], masked)
  }

  /** None of the three phases before carries a command. */
  predicate Allowed(fs: seq<Phase>, masked: bool, t: nat)
    requires t < |fs|
  {
    forall k | t - 3 <= k < t && 0 <= k :: !HasCommand(fs[k], masked)
  }

  /** The command of phase `t` reaches the DRAM. */
  predicate Sent(fs: seq<Phase>, masked: bool, t: int): (r: bool)
    ensures r ==> 0 <= t < |fs|
  {
    0 <= t < |fs| && HasCommand(fs[t], masked) && Allowed(fs, masked, t)
  }

  lemma SentApart(fs: seq<Phase>, masked: bool, t: int, t': int)
    requires Sent(fs, masked, t) && Sent(fs, masked, t') && t < t'
    ensures t + 4 <= t'
  {
  }

  lemma ApartFrom(fs: seq<Phase>, masked: bool, t: int)
    requires Sent(fs, masked, t)
    ensures forall t' | t - 4 < t' < t + 4 && t' != t :: !Sent(fs, masked, t')
  {
    forall t' | t - 4 < t' < t + 4 && t' != t ensures !Sent(fs, masked, t') {
      if Sent(fs, masked, t') {
        if t < t' { SentApart(fs, masked, t, t'); } else { SentApart(fs, masked, t', t); }
      }
    }
  }

  function OrSymbol(a: Symbol, b: Symbol): (r: Symbol)
    requires |a.ca| == |b.ca| == 6
    ensures |r.ca| == 6
  {
    Symbol(a.cs || b.cs, seq(6, k requires 0 <= k < 6 && |a.ca| == |b.ca| == 6 => a.ca[k] || b.ca[k]))
  }

  /** What the adapter of the phase `j` before puts on the lines of phase `u`, masked. */
  function Part(fs: seq<Phase>, masked: bool, u: nat, j: nat): (r: Symbol)
    requires u < |fs| && j < 4
    ensures |r.ca| == 6
  {
    if j <= u && Allowed(fs, masked, u - j) then Adapter(fs[u - j], masked)[j] else Quiet
  }

  /** The lines of phase `u`: all adapters or-ed. */
  function Line(fs: seq<Phase>, masked: bool, u: nat): (r: Symbol)
    requires u < |fs|
    ensures |r.ca| == 6
  {
    OrSymbol(OrSymbol(Part(fs, masked, u, 0), Part(fs, masked, u, 1)),
             OrSymbol(Part(fs, masked, u, 2), Part(fs, masked, u, 3)))
  }

  lemma OrQuiet(a: Symbol)
    requires |a.ca| == 6
    ensures OrSymbol(a, Quiet) == a && OrSymbol(Quiet, a) == a
  {
    assert OrSymbol(a, Quiet).ca == a.ca && OrSymbol(Quiet, a).ca == a.ca;
  }

  lemma PartIs(fs: seq<Phase>, masked: bool, u: nat, j: nat)
    requires u < |fs| && j < 4
    ensures Part(fs, masked, u, j) == if Sent(fs, masked, u - j) then Adapter(fs[u - j], masked)[j] else Quiet
  {
  }

  /** Or-ing the adapters never mixes two commands: the lines of a phase are those of the one command that is being
      sent, or quiet. */
  lemma NeverMixed(fs: seq<Phase>, masked: bool, u: nat, j: nat)
    requires u < |fs| && j < 4
    ensures Sent(fs, masked, u - j) ==> Line(fs, masked, u) == Adapter(fs[u - j], masked)[j]
    ensures Idle(fs, masked, u) ==> Line(fs, masked, u) == Quiet
  {
    hide Adapter, OrSymbol, Sent, Part;
    PartIs(fs, masked, u, 0);
    PartIs(fs, masked, u, 1);
    PartIs(fs, masked, u, 2);
    PartIs(fs, masked, u, 3);
    if Sent(fs, masked, u - j) { ApartFrom(fs, masked, u - j); }
    OrQuiet(Part(fs, masked, u, j));
    OrQuiet(Quiet);
  }

  /** No command is being sent. */
  predicate Idle(fs: seq<Phase>, masked: bool, u: int) {
    !Sent(fs, masked, u) && !Sent(fs, masked, u - 1) && !Sent(fs, masked, u - 2) && !Sent(fs, masked, u - 3)
  }

  // Decoding ---------------------------------------------------------------------------------------

  /** The simulator after the lines of `n` phases. */
  function DecoderAt(fs: seq<Phase>, masked: bool, n: nat): (s: Decoder)
    requires n <= |fs|
    ensures |s.tap0.ca| == |s.tap1.ca| == 6
  {
    if n == 0 then DecoderReset else DecoderStep(DecoderAt(fs, masked, n - 1), Line(fs, masked, n - 1))
  }

  /** Everything it has recognised by then. */
  function Log(fs: seq<Phase>, masked: bool, n: nat): seq<Event>
    requires n <= |fs|
  {
    if n == 0 then [] else Log(fs, masked, n - 1) + Emits(DecoderAt(fs, masked, n - 1))
  }

  /** The commands of the phases before `m` that are not masked, in order. */
  function Expected(fs: seq<Phase>, masked: bool, m: int): seq<Event>
    requires m <= |fs| && forall t | 0 <= t < |fs| :: fs[t].Valid()
  {
    if m <= 0 then []
    else Expected(fs, masked, m - 1) + if Sent(fs, masked, m - 1) then Meaning(fs[m - 1], masked) else []
  }

  /** Where the simulator is in the command being received. */
  ghost predicate Follows(fs: seq<Phase>, masked: bool, n: nat, s: Decoder)
    requires n <= |fs| && forall t | 0 <= t < |fs| :: fs[t].Valid()
  {
    && s.tap0 == (if n >= 1 then Line(fs, masked, n - 1) else Quiet)
    && s.tap1 == (if n >= 2 then Line(fs, masked, n - 2) else Quiet)
    && (if Sent(fs, masked, n - 3) then Waits(s, fs[n - 3], masked)
        else if Sent(fs, masked, n - 4) then Waits(s, fs[n - 4], masked)
        else AtRest(s))
  }

  lemma OneStepRests(s: Decoder, f: Phase, masked: bool)
    requires f.Valid() && HasCommand(f, masked) && !TwoStep(f, masked)
    ensures Waits(s, f, masked) <==> AtRest(s)
  {
  }

  lemma NotHandled(s: Decoder, pads: Symbol)
    requires |s.tap0.ca| == |s.tap1.ca| == 6 && !s.tap1.cs
    ensures Emits(s) == [] && DecoderStep(s, pads) == s.(tap0 := pads, tap1 := s.tap0)
  {
  }

  lemma FollowsStep(fs: seq<Phase>, masked: bool, n: nat, s: Decoder)
    requires n < |fs| && Readable(fs, masked) && Follows(fs, masked, n, s) && |s.tap0.ca| == |s.tap1.ca| == 6
    ensures Follows(fs, masked, n + 1, DecoderStep(s, Line(fs, masked, n)))
    ensures Emits(s) == if Sent(fs, masked, n - 4) then Meaning(fs[n - 4], masked) else []
  {
    hide Line, Emits, DecoderStep, Adapter, Meaning, Waits, AtRest, Sent, ReadsModeRegister, TwoStep, HasCommand;
    var pads := Line(fs, masked, n);
    if Sent(fs, masked, n - 2) {
      ReceiveFirst(fs, masked, n, s);
    } else if Sent(fs, masked, n - 3) {
      LineOf(fs, masked, n - 2, 1);
      ApartFrom(fs, masked, n - 3);
      NotHandled(s, pads);
      WaitsKept(s, DecoderStep(s, pads), fs[n - 3], masked);
    } else if Sent(fs, masked, n - 4) {
      LineOf(fs, masked, n - 2, 2);
      LineOf(fs, masked, n - 1, 3);
      IsCommand(fs, masked, n - 4);
      SecondSmall(s, fs[n - 4], masked, pads);
      StepTaps(s, pads);
    } else {
      QuietSecond(fs, masked, n, s);
      NotHandled(s, pads);
      RestKept(s, DecoderStep(s, pads));
    }
  }

  lemma StepTaps(s: Decoder, pads: Symbol)
    requires |s.tap0.ca| == |s.tap1.ca| == 6
    ensures DecoderStep(s, pads).tap0 == pads && DecoderStep(s, pads).tap1 == s.tap0
  {
  }

  lemma IsCommand(fs: seq<Phase>, masked: bool, t: int)
    requires Readable(fs, masked) && Sent(fs, masked, t)
    ensures fs[t].Valid() && HasCommand(fs[t], masked) && !ReadsModeRegister(fs[t], masked)
  {
  }

  lemma WaitsKept(s: Decoder, s': Decoder, f: Phase, masked: bool)
    requires f.Valid() && s'.mrw == s.mrw && s'.act == s.act && s'.cas == s.cas && Waits(s, f, masked)
    ensures Waits(s', f, masked)
  {
  }

  lemma RestKept(s: Decoder, s': Decoder)
    requires s'.mrw == s.mrw && s'.act == s.act && s'.cas == s.cas && AtRest(s)
    ensures AtRest(s')
  {
  }

  /** The lines of a command being sent, and the phases around it that send nothing. */
  lemma LineOf(fs: seq<Phase>, masked: bool, u: nat, j: nat)
    requires u < |fs| && j < 4 && Sent(fs, masked, u - j)
    ensures Line(fs, masked, u) == Adapter(fs[u - j], masked)[j]
    ensures Line(fs, masked, u).cs == (j == 2 || (j == 0 && TwoStep(fs[u - j], masked)))
  {
    NeverMixed(fs, masked, u, j);
    FirstEdges(fs[u - j], masked);
  }

  lemma ReceiveFirst(fs: seq<Phase>, masked: bool, n: nat, s: Decoder)
    requires n < |fs| && Readable(fs, masked) && Follows(fs, masked, n, s) && |s.tap0.ca| == |s.tap1.ca| == 6
    requires Sent(fs, masked, n - 2)
    ensures Follows(fs, masked, n + 1, DecoderStep(s, Line(fs, masked, n)))
    ensures Emits(s) == [] && !Sent(fs, masked, n - 4)
  {
    hide Line, Emits, DecoderStep, Adapter, Meaning, Waits, AtRest, Sent, ReadsModeRegister, TwoStep, HasCommand;
    var pads, f := Line(fs, masked, n), fs[n - 2];
    ApartFrom(fs, masked, n - 2);
    LineOf(fs, masked, n - 2, 0);
    LineOf(fs, masked, n - 1, 1);
    IsCommand(fs, masked, n - 2);
    StepTaps(s, pads);
    if TwoStep(f, masked) {
      FirstSmall(s, f, masked, pads);
    } else {
      NotHandled(s, pads);
      RestKept(s, DecoderStep(s, pads));
      OneStepRests(DecoderStep(s, pads), f, masked);
    }
  }

  /** Between commands CS is low. */
  lemma QuietSecond(fs: seq<Phase>, masked: bool, n: nat, s: Decoder)
    requires n < |fs| && Readable(fs, masked) && Follows(fs, masked, n, s)
    requires !Sent(fs, masked, n - 2) && !Sent(fs, masked, n - 3) && !Sent(fs, masked, n - 4)
    ensures !s.tap1.cs
  {
    hide Line, Adapter, Sent, Waits, AtRest, TwoStep, HasCommand, Readable;
    if n >= 2 {
      NeverMixed(fs, masked, n - 2, 0);
      if Sent(fs, masked, n - 5) { LineOf(fs, masked, n - 2, 3); }
    }
  }

  lemma {:induction false} RunFollows(fs: seq<Phase>, masked: bool, n: nat)
    requires n <= |fs| && Readable(fs, masked)
    ensures Follows(fs, masked, n, DecoderAt(fs, masked, n))
    ensures Log(fs, masked, n) == Expected(fs, masked, n - 4)
  {
    hide Line, Emits, DecoderStep, Meaning, Sent;
    if n > 0 {
      RunFollows(fs, masked, n - 1);
      hide Follows;
      FollowsStep(fs, masked, n - 1, DecoderAt(fs, masked, n - 1));
    } else {
      NothingYet(fs, masked);
    }
  }

  lemma NothingYet(fs: seq<Phase>, masked: bool)
    requires Readable(fs, masked)
    ensures Follows(fs, masked, 0, DecoderReset)
  {
  }

  /** Round trip: for every stream of DFI phases, the simulator recognises exactly the commands with no DFI command in
      the three phases before, in order and with all their fields, and never an unexpected one. The last four phases are
      still on their way. */
  lemma StreamRoundTrip(fs: seq<Phase>, masked: bool, n: nat)
    requires n <= |fs| && Readable(fs, masked)
    ensures Log(fs, masked, n) == Expected(fs, masked, n - 4)
    ensures Unexpected !in Log(fs, masked, n)
  {
    RunFollows(fs, masked, n);
    NoneUnexpected(fs, masked, n - 4);
  }

  lemma {:induction false} NoneUnexpected(fs: seq<Phase>, masked: bool, m: int)
    requires m <= |fs| && Readable(fs, masked)
    ensures Unexpected !in Expected(fs, masked, m)
  {
    if m > 0 {
      NoneUnexpected(fs, masked, m - 1);
      if Sent(fs, masked, m - 1) { MeaningKnown(fs[m - 1], masked); }
    }
  }

  lemma MeaningKnown(f: Phase, masked: bool)
    requires f.Valid() && !ReadsModeRegister(f, masked)
    ensures Unexpected !in Meaning(f, masked)
  {
  }
}
