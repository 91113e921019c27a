/** LPDDR4 commands on the CS/CA lines: the encoder of litedram/phy/lpddr4/commands.py and the command decoder of the
    simulator in litedram/phy/lpddr4/sim.py (JESD209-4, section 4). */
module Lpddr4Commands {
  import opened Common

  /** A DFI phase; the control signals are active-high here. */
  datatype Phase = Phase(cs: bool, cas: bool, ras: bool, we: bool, bank: seq<bool>, address: seq<bool>) {
    /** The encoder asserts these widths. */
    ghost predicate Valid() { |bank| >= 6 && |address| >= 17 }
  }

  // Encoder ----------------------------------------------------------------------------------------

  /** What a line carries on one clock edge. */
  datatype Bit = H | L | V | X | BL | AP | AB | BA(i: nat) | R(i: nat) | C(i: nat) | MA(i: nat) | OP(i: nat)

  datatype Small = Mrw1 | Mrw2 | Mrr1 | Ref | Act1 | Act2 | Write1 | MaskWrite1 | Read1 | Cas2 | Pre | Mpc | Deselect

  function TruthTable(c: Small): (r: (seq<Bit>, seq<Bit>))
    ensures |r.0| == |r.1| == 6
  {
    match c
    case Mrw1 => ([L, H, H, L, L, OP(7)], [MA(0), MA(1), MA(2), MA(3), MA(4), MA(5)])
    case Mrw2 => ([L, H, H, L, H, OP(6)], [OP(0), OP(1), OP(2), OP(3), OP(4), OP(5)])
    case Mrr1 => ([L, H, H, H, L, V], [MA(0), MA(1), MA(2), MA(3), MA(4), MA(5)])
    case Ref => ([L, L, L, H, L, AB], [BA(0), BA(1), BA(2), V, V, V])
    case Act1 => ([H, L, R(12), R(13), R(14), R(15)], [BA(0), BA(1), BA(2), R(16), R(10), R(11)])
    case Act2 => ([H, H, R(6), R(7), R(8), R(9)], [R(0), R(1), R(2), R(3), R(4), R(5)])
    case Write1 => ([L, L, H, L, L, BL], [BA(0), BA(1), BA(2), V, C(9), AP])
    case MaskWrite1 => ([L, L, H, H, L, BL], [BA(0), BA(1), BA(2), V, C(9), AP])
    case Read1 => ([L, H, L, L, L, BL], [BA(0), BA(1), BA(2), V, C(9), AP])
    case Cas2 => ([L, H, L, L, H, C(8)], [C(2), C(3), C(4), C(5), C(6), C(7)])
    case Pre => ([L, L, L, L, H, AB], [BA(0), BA(1), BA(2), V, V, V])
    case Mpc => ([L, L, L, L, L, OP(6)], [OP(0), OP(1), OP(2), OP(3), OP(4), OP(5)])
    case Deselect => ([X, X, X, X, X, X], [X, X, X, X, X, X])
  }

  /** The value of one line, read from the DFI phase. Registers are addressed by the bank for MRW only. */
  function ParseBit(f: Phase, b: Bit, isMrw: bool): bool {
    match b
    case H => true
    case L => false
    case V => false
    case X => false
    case BL => false
    case AP => 10 < |f.address| && f.address[10]
    case AB => 10 < |f.address| && f.address[10]
    case BA(i) => i < |f.bank| && f.bank[i]
    case R(i) => i < |f.address| && f.address[i]
    case C(i) => i < |f.address| && f.address[i]
    case MA(i) => if isMrw then i < |f.bank| && f.bank[i] else i < |f.address| && f.address[i]
    case OP(i) => i < |f.address| && f.address[i]
  }

  /** CS and CA of one clock edge. */
  datatype Symbol = Symbol(cs: bool, ca: seq<bool>)

  const Quiet := Symbol(false, [false, false, false, false, false, false])

  function Edge(f: Phase, bits: seq<Bit>, isMrw: bool, cs: bool): (s: Symbol)
    requires |bits| == 6
    ensures |s.ca| == 6
  {
    Symbol(cs, seq(6, k requires 0 <= k < 6 && |bits| == 6 => ParseBit(f, bits[k], isMrw)))
  }

  /** A small command takes two edges, CS high on the first. */
  function Edges(f: Phase, c: Small): (r: seq<Symbol>)
    ensures |r| == 2 && |r[0].ca| == |r[1].ca| == 6
  {
    var isMrw := c.Mrw1? || c.Mrw2?;
    [Edge(f, TruthTable(c).0, isMrw, !c.Deselect?), Edge(f, TruthTable(c).1, isMrw, false)]
  }

  /** Value of the DFI bank address. */
  function Value(bits: seq<bool>): nat {
    if bits == [] then 0 else (if bits[0] then 1 else 0) + 2 * Value(bits[1..])
  }

  /** The two small commands of a phase, `None` when it carries no command. */
  function Select(f: Phase, maskedWrite: bool): Option<(Small, Small)> {
    if !f.cs then None
    else if !f.cas && f.ras && !f.we then Some((Act1, Act2))
    else if f.cas && !f.ras && !f.we then Some((Read1, Cas2))
    else if f.cas && !f.ras && f.we then Some((if maskedWrite then MaskWrite1 else Write1, Cas2))
    else if !f.cas && f.ras && f.we then Some((Deselect, Pre))
    else if f.cas && f.ras && !f.we then Some((Deselect, Ref))
    else if !f.cas && !f.ras && f.we then
      if Value(f.bank) == 0 then Some((Deselect, Mpc))
      else if Value(f.bank) == 1 then Some((Mrr1, Cas2))
      else None
    else if f.cas && f.ras && f.we then Some((Mrw1, Mrw2))
    else None
  }

  predicate HasCommand(f: Phase, maskedWrite: bool) { Select(f, maskedWrite).Some? }

  /** The four edges of a phase. Without a command all lines stay low. */
  function Adapter(f: Phase, maskedWrite: bool): (r: seq<Symbol>)
    ensures |r| == 4 && forall j | 0 <= j < 4 :: |r[j].ca| == 6
  {
    match Select(f, maskedWrite)
    case None => [Quiet, Quiet, Quiet, Quiet]
    case Some(c) => Edges(f, c.0) + Edges(f, c.1)
  }

  // Decoder ----------------------------------------------------------------------------------------

  /** What the simulator recognises; `Unexpected` is its error message. */
  datatype Event =
    | ModeRegister(ma: seq<bool>, op: seq<bool>)
    | Refresh
    | Activate(bank: seq<bool>, row: seq<bool>)
    | PrechargeBank(bank: seq<bool>)
    | PrechargeAll
    | Multipurpose(op: seq<bool>)
    | Access(we: bool, masked: bool, bank: seq<bool>, col: seq<bool>, autoPrecharge: bool)
    | Unexpected

  datatype Mrw = Mrw(ma: seq<bool>, op7: bool)
  datatype Act = Act(bank: seq<bool>, row1: seq<bool>)
  datatype Kind = Write | MaskedWrite | Read
  datatype Cas = Cas(kind: Kind, bank: seq<bool>, col9: bool, burstLength: bool, autoPrecharge: bool)

  /** The taps of the line history (newest first), and each two-step handler, waiting for its second step or not. */
  datatype Decoder = Decoder(tap0: Symbol, tap1: Symbol, mrw: Option<Mrw>, act: Option<Act>, cas: Option<Cas>)

  const DecoderReset := Decoder(Quiet, Quiet, None, None, None)

  predicate Handles(s: Decoder) { !s.tap0.cs && s.tap1.cs }

  /** The low five bits of `cs_high`, lowest first. */
  predicate Opcode(high: seq<bool>, b0: bool, b1: bool, b2: bool, b3: bool, b4: bool)
    requires |high| == 6
  {
    high[0] == b0 && high[1] == b1 && high[2] == b2 && high[3] == b3 && high[4] == b4
  }

  /** The first small commands of a column access. */
  function KindOf(high: seq<bool>): Option<Kind>
    requires |high| == 6
  {
    if Opcode(high, false, false, true, false, false) then Some(Write)
    else if Opcode(high, false, false, true, true, false) then Some(MaskedWrite)
    else if Opcode(high, false, true, false, false, false) then Some(Read)
    else None
  }

  /** The event of the small command `high`, `low`. A waiting handler that gets anything else reports an error, and so
      does a command that no handler takes. */
  function Decode(s: Decoder, high: seq<bool>, low: seq<bool>): seq<Event>
    requires |high| == |low| == 6
  {
    var mrw := if s.mrw.None? then []
               else if Opcode(high, false, true, true, false, true) then
                 [ModeRegister(s.mrw.value.ma, low + [high[5], s.mrw.value.op7])]
               else [Unexpected];
    var act := if s.act.None? then []
               else if (high[0] && high[1]) then
                 [Activate(s.act.value.bank, low + high[2..] + s.act.value.row1)]
               else [Unexpected];
    var cas := if s.cas.None? then []
               else if Opcode(high, false, true, false, false, true) then
                 [Access(!s.cas.value.kind.Read?, s.cas.value.kind.MaskedWrite?, s.cas.value.bank,
                         [false, false] + low + [high[5], s.cas.value.col9], s.cas.value.autoPrecharge)]
               else [Unexpected];
    var one := if Opcode(high, false, false, false, true, false) then [Refresh]
               else if Opcode(high, false, false, false, false, true) then
                 [if high[5] then PrechargeAll else PrechargeBank(low[..3])]
               else if Opcode(high, false, false, false, false, false) then [Multipurpose(low + [high[5]])]
               else [];
    var first := Opcode(high, false, true, true, false, false) || (high[0] && !high[1]) || KindOf(high).Some?;
    var events := mrw + act + cas + one;
    if events == [] && !first then [Unexpected] else events
  }

  /** One clock edge; `pads` are the lines before it. */
  function DecoderStep(s: Decoder, pads: Symbol): Decoder
    requires |s.tap1.ca| == |s.tap0.ca| == 6
  {
    var high, low := s.tap1.ca, s.tap0.ca;
    if !Handles(s) then s.(tap0 := pads, tap1 := s.tap0)
    else Decoder(
      pads, s.tap0,
      if s.mrw.None? && Opcode(high, false, true, true, false, false) then Some(Mrw(low, high[5])) else None,
      if s.act.None? && (high[0] && !high[1]) then
        Some(Act(low[..3], low[4..6] + high[2..6] + [low[3]])) else None,
      if s.cas.None? && KindOf(high).Some? then
        Some(Cas(KindOf(high).value, low[..3], low[4], high[5], low[5])) else None)
  }

  function Emits(s: Decoder): seq<Event>
    requires |s.tap1.ca| == |s.tap0.ca| == 6
  {
    if Handles(s) then Decode(s, s.tap1.ca, s.tap0.ca) else []
  }

  // Meaning of a phase -----------------------------------------------------------------------------

  /** What the DFI phase asks for, field by field. Column bits 1 and 0 are always zero. */
  function Meaning(f: Phase, maskedWrite: bool): seq<Event>
    requires f.Valid()
  {
    var a, bank := f.address, f.bank[..3];
    match Select(f, maskedWrite)
    case None => []
    case Some((Act1, _)) => [Activate(bank, a[..17])]
    case Some((Read1, _)) => [Access(false, false, bank, [false, false] + a[2..10], a[10])]
    case Some((Write1, _)) => [Access(true, false, bank, [false, false] + a[2..10], a[10])]
    case Some((MaskWrite1, _)) => [Access(true, true, bank, [false, false] + a[2..10], a[10])]
    case Some((Mrw1, _)) => [ModeRegister(f.bank[..6], a[..8])]
    case Some((_, Pre)) => [if a[10] then PrechargeAll else PrechargeBank(bank)]
    case Some((_, Ref)) => [Refresh]
    case Some((_, Mpc)) => [Multipurpose(a[..7])]
    case Some(_) => [Unexpected]
  }

  /** Mode register reads are not decoded by the simulator. */
  predicate ReadsModeRegister(f: Phase, maskedWrite: bool) {
    Select(f, maskedWrite).Some? && Select(f, maskedWrite).value.0.Mrr1?
  }

  predicate TwoStep(f: Phase, maskedWrite: bool) {
    Select(f, maskedWrite).Some? && !Select(f, maskedWrite).value.0.Deselect?
  }

  /** No handler is waiting. */
  predicate AtRest(s: Decoder) { s.mrw.None? && s.act.None? && s.cas.None? }

  /** The decoder after the first small command of a phase. */
  function Waiting(f: Phase, maskedWrite: bool): (Option<Mrw>, Option<Act>, Option<Cas>)
    requires f.Valid()
  {
    var a, bank := f.address, f.bank[..3];
    match Select(f, maskedWrite)
    case Some((Act1, _)) => (None, Some(Act(bank, a[10..17])), None)
    case Some((Read1, _)) => (None, None, Some(Cas(Read, bank, a[9], false, a[10])))
    case Some((Write1, _)) => (None, None, Some(Cas(Write, bank, a[9], false, a[10])))
    case Some((MaskWrite1, _)) => (None, None, Some(Cas(MaskedWrite, bank, a[9], false, a[10])))
    case Some((Mrw1, _)) => (Some(Mrw(f.bank[..6], a[7])), None, None)
    case _ => (None, None, None)
  }

  ghost predicate Waits(s: Decoder, f: Phase, maskedWrite: bool)
    requires f.Valid()
  {
    var w := Waiting(f, maskedWrite);
    s.mrw == w.0 && s.act == w.1 && s.cas == w.2
  }

  /** The six lines of an edge, one by one. */
  lemma EdgeLines(f: Phase, bits: seq<Bit>, isMrw: bool, cs: bool)
    requires |bits| == 6
    ensures Edge(f, bits, isMrw, cs).ca
         == [ParseBit(f, bits[0], isMrw), ParseBit(f, bits[1], isMrw), ParseBit(f, bits[2], isMrw),
             ParseBit(f, bits[3], isMrw), ParseBit(f, bits[4], isMrw), ParseBit(f, bits[5], isMrw)]
  {
  }

  lemma SmallLines(f: Phase, c: Small)
    ensures var isMrw := c.Mrw1? || c.Mrw2?;
            var t := TruthTable(c);
            && Edges(f, c)[0].ca
               == [ParseBit(f, t.0[0], isMrw), ParseBit(f, t.0[1], isMrw), ParseBit(f, t.0[2], isMrw),
                   ParseBit(f, t.0[3], isMrw), ParseBit(f, t.0[4], isMrw), ParseBit(f, t.0[5], isMrw)]
            && Edges(f, c)[1].ca
               == [ParseBit(f, t.1[0], isMrw), ParseBit(f, t.1[1], isMrw), ParseBit(f, t.1[2], isMrw),
                   ParseBit(f, t.1[3], isMrw), ParseBit(f, t.1[4], isMrw), ParseBit(f, t.1[5], isMrw)]
  {
    EdgeLines(f, TruthTable(c).0, c.Mrw1? || c.Mrw2?, !c.Deselect?);
    EdgeLines(f, TruthTable(c).1, c.Mrw1? || c.Mrw2?, false);
  }

  /** The first small command puts exactly its own handler into its second step, with the phase's fields. */
  lemma FirstSmall(s: Decoder, f: Phase, maskedWrite: bool, pads: Symbol)
    requires f.Valid() && TwoStep(f, maskedWrite) && !ReadsModeRegister(f, maskedWrite) && AtRest(s)
    requires s.tap1 == Adapter(f, maskedWrite)[0] && s.tap0 == Adapter(f, maskedWrite)[1]
    ensures Handles(s) && Emits(s) == [] && Waits(DecoderStep(s, pads), f, maskedWrite)
  {
    hide Edges, Value, Adapter, DecoderStep;
    var c := Select(f, maskedWrite).value.0;
    FirstEdges(f, maskedWrite);
    match c {
      case Act1 => FirstActivate(s, f, pads);
      case Mrw1 => FirstMode(s, f, pads);
      case _ => FirstAccess(s, f, c, pads);
    }
  }

  lemma FirstActivate(s: Decoder, f: Phase, pads: Symbol)
    requires f.Valid() && AtRest(s) && Handles(s)
    requires s.tap1.ca == Edges(f, Act1)[0].ca && s.tap0.ca == Edges(f, Act1)[1].ca
    ensures Decode(s, s.tap1.ca, s.tap0.ca) == []
    ensures DecoderStep(s, pads) == Decoder(pads, s.tap0, None, Some(Act(f.bank[..3], f.address[10..17])), None)
  {
    ActivateFields(f);
    ActivateBank(f);
    hide Edges;
  }

  lemma ActivateFields(f: Phase)
    requires f.Valid()
    ensures var high, low := Edges(f, Act1)[0].ca, Edges(f, Act1)[1].ca;
            high[0] && !high[1] && low[4..6] + high[2..6] + [low[3]] == f.address[10..17]
  {
    SmallLines(f, Act1);
    hide Edges;
    UpperRow(f.address, Edges(f, Act1)[0].ca, Edges(f, Act1)[1].ca);
  }

  lemma ActivateBank(f: Phase)
    requires f.Valid()
    ensures Edges(f, Act1)[1].ca[..3] == f.bank[..3]
  {
    SmallLines(f, Act1);
    hide Edges;
    FirstThree(f.bank);
    FirstThree(Edges(f, Act1)[1].ca);
  }

  lemma UpperRow(a: seq<bool>, high: seq<bool>, low: seq<bool>)
    requires |a| >= 17 && |high| == |low| == 6
    requires low[4] == a[10] && low[5] == a[11] && high[2] == a[12] && high[3] == a[13] && high[4] == a[14]
    requires high[5] == a[15] && low[3] == a[16]
    ensures low[4..6] + high[2..6] + [low[3]] == a[10..17]
  {
  }

  lemma FirstMode(s: Decoder, f: Phase, pads: Symbol)
    requires f.Valid() && AtRest(s) && Handles(s)
    requires s.tap1.ca == Edges(f, Mrw1)[0].ca && s.tap0.ca == Edges(f, Mrw1)[1].ca
    ensures Decode(s, s.tap1.ca, s.tap0.ca) == []
    ensures DecoderStep(s, pads) == Decoder(pads, s.tap0, Some(Mrw(f.bank[..6], f.address[7])), None, None)
  {
    SmallLines(f, Mrw1);
    hide Edges;
    FirstSix(f.bank);
  }

  lemma FirstAccess(s: Decoder, f: Phase, c: Small, pads: Symbol)
    requires f.Valid() && AtRest(s) && Handles(s) && (c.Write1? || c.MaskWrite1? || c.Read1?)
    requires s.tap1.ca == Edges(f, c)[0].ca && s.tap0.ca == Edges(f, c)[1].ca
    ensures Decode(s, s.tap1.ca, s.tap0.ca) == []
    ensures var kind := if c.Write1? then Write else if c.MaskWrite1? then MaskedWrite else Read;
            DecoderStep(s, pads)
            == Decoder(pads, s.tap0, None, None, Some(Cas(kind, f.bank[..3], f.address[9], false, f.address[10])))
  {
    AccessOpcode(f, c);
    AccessFields(f, c);
    hide Edges;
  }

  lemma AccessOpcode(f: Phase, c: Small)
    requires c.Write1? || c.MaskWrite1? || c.Read1?
    ensures var high := Edges(f, c)[0].ca;
            && !high[0] && high[1] == c.Read1? && high[2] == !c.Read1?
            && high[3] == c.MaskWrite1? && !high[4] && !high[5]
  {
    SmallLines(f, c);
  }

  lemma AccessFields(f: Phase, c: Small)
    requires f.Valid() && (c.Write1? || c.MaskWrite1? || c.Read1?)
    ensures var low := Edges(f, c)[1].ca;
            low[..3] == f.bank[..3] && low[4] == f.address[9] && low[5] == f.address[10]
  {
    SecondEdge(f, c);
    FirstThree(f.bank);
    FirstThree(Edges(f, c)[1].ca);
  }

  /** The lines of a column command's second edge. */
  lemma SecondEdge(f: Phase, c: Small)
    requires f.Valid() && (c.Write1? || c.MaskWrite1? || c.Read1?)
    ensures var low := Edges(f, c)[1].ca;
            && low[0] == f.bank[0] && low[1] == f.bank[1] && low[2] == f.bank[2]
            && low[4] == f.address[9] && low[5] == f.address[10]
  {
    var bits := [BA(0), BA(1), BA(2), V, C(9), AP];
    assert Edges(f, c)[1] == Edge(f, bits, false, false);
    hide Edges;
    EdgeLines(f, bits, false, false);
  }

  lemma FirstEdges(f: Phase, maskedWrite: bool)
    requires HasCommand(f, maskedWrite)
    ensures var c, r := Select(f, maskedWrite).value, Adapter(f, maskedWrite);
            r[0] == Edges(f, c.0)[0] && r[1] == Edges(f, c.0)[1] && r[2] == Edges(f, c.1)[0] && r[3] == Edges(f, c.1)[1]
    ensures var r := Adapter(f, maskedWrite);
            r[0].cs == TwoStep(f, maskedWrite) && !r[1].cs && r[2].cs && !r[3].cs
  {
  }

  /** The second small command completes the phase's command. */
  lemma SecondSmall(s: Decoder, f: Phase, maskedWrite: bool, pads: Symbol)
    requires f.Valid() && HasCommand(f, maskedWrite) && !ReadsModeRegister(f, maskedWrite) && Waits(s, f, maskedWrite)
    requires s.tap1 == Adapter(f, maskedWrite)[2] && s.tap0 == Adapter(f, maskedWrite)[3]
    ensures Handles(s) && Emits(s) == Meaning(f, maskedWrite) && AtRest(DecoderStep(s, pads))
  {
    hide Edges, Value, Decode, Adapter;
    FirstEdges(f, maskedWrite);
    var c := Select(f, maskedWrite).value;
    RestAfterSecond(s, f, c.1, pads);
    match c.1 {
      case Act2 => SecondActivate(s, f);
      case Cas2 => SecondAccess(s, f);
      case Mrw2 => SecondMode(s, f);
      case _ => OneStep(s, f, c.1);
    }
  }

  /** A second small command starts nothing. */
  lemma RestAfterSecond(s: Decoder, f: Phase, c: Small, pads: Symbol)
    requires c.Act2? || c.Cas2? || c.Mrw2? || c.Pre? || c.Ref? || c.Mpc?
    requires |s.tap0.ca| == 6 && s.tap1.ca == Edges(f, c)[0].ca && Handles(s)
    ensures AtRest(DecoderStep(s, pads))
  {
    SmallLines(f, c);
    hide Edges;
  }

  lemma SecondActivate(s: Decoder, f: Phase)
    requires f.Valid() && s.act == Some(Act(f.bank[..3], f.address[10..17])) && s.mrw.None? && s.cas.None?
    requires s.tap1.ca == Edges(f, Act2)[0].ca && s.tap0.ca == Edges(f, Act2)[1].ca
    ensures Decode(s, s.tap1.ca, s.tap0.ca) == [Activate(f.bank[..3], f.address[..17])]
  {
    hide Edges;
    ActivateLines(f, s.tap1.ca, s.tap0.ca);
    assert [Activate(f.bank[..3], f.address[..17])] + [] == [Activate(f.bank[..3], f.address[..17])];
  }

  lemma ActivateLines(f: Phase, high: seq<bool>, low: seq<bool>)
    requires f.Valid() && high == Edges(f, Act2)[0].ca && low == Edges(f, Act2)[1].ca
    ensures high[0] && high[1] && low + high[2..] + f.address[10..17] == f.address[..17]
  {
    var a := f.address;
    ActivateHigh(f);
    ActivateLow(f);
    hide Edges;
    assert a[..17] == a[..6] + a[6..10] + a[10..17];
  }

  lemma ActivateHigh(f: Phase)
    requires f.Valid()
    ensures var high := Edges(f, Act2)[0].ca; high[0] && high[1] && high[2..] == f.address[6..10]
  {
    SmallLines(f, Act2);
    hide Edges;
    NextFour(f.address, Edges(f, Act2)[0].ca);
  }

  lemma NextFour(a: seq<bool>, high: seq<bool>)
    requires |a| >= 10 && |high| == 6 && high[2] == a[6] && high[3] == a[7] && high[4] == a[8] && high[5] == a[9]
    ensures high[2..] == a[6..10]
  {
  }

  lemma ActivateLow(f: Phase)
    requires f.Valid()
    ensures Edges(f, Act2)[1].ca == f.address[..6]
  {
    SmallLines(f, Act2);
    hide Edges;
    FirstSix(f.address);
  }

  lemma FirstSix(a: seq<bool>)
    requires |a| >= 6
    ensures a[..6] == [a[0], a[1], a[2], a[3], a[4], a[5]]
  {
  }

  lemma FirstThree(a: seq<bool>)
    requires |a| >= 3
    ensures a[..3] == [a[0], a[1], a[2]]
  {
  }

  lemma SecondAccess(s: Decoder, f: Phase)
    requires f.Valid() && s.cas.Some? && s.mrw.None? && s.act.None? && s.cas.value.col9 == f.address[9]
    requires s.tap1.ca == Edges(f, Cas2)[0].ca && s.tap0.ca == Edges(f, Cas2)[1].ca
    ensures Decode(s, s.tap1.ca, s.tap0.ca)
         == [Access(!s.cas.value.kind.Read?, s.cas.value.kind.MaskedWrite?, s.cas.value.bank,
                    [false, false] + f.address[2..10], s.cas.value.autoPrecharge)]
  {
    Cas2Lines(f);
    hide Edges;
    var a := f.address;
    assert [false, false] + s.tap0.ca + [s.tap1.ca[5], a[9]] == [false, false] + a[2..10];
  }

  /** The lines of a column command's second half. */
  lemma Cas2Lines(f: Phase)
    requires f.Valid()
    ensures var a, high := f.address, Edges(f, Cas2)[0].ca;
            high[0] == false && high[5] == a[8] && Edges(f, Cas2)[1].ca == [a[2], a[3], a[4], a[5], a[6], a[7]]
  {
    hide Edges;
    SmallLines(f, Cas2);
  }

  lemma SecondMode(s: Decoder, f: Phase)
    requires f.Valid() && s.mrw == Some(Mrw(f.bank[..6], f.address[7])) && s.act.None? && s.cas.None?
    requires s.tap1.ca == Edges(f, Mrw2)[0].ca && s.tap0.ca == Edges(f, Mrw2)[1].ca
    ensures Decode(s, s.tap1.ca, s.tap0.ca) == [ModeRegister(f.bank[..6], f.address[..8])]
  {
    SmallLines(f, Mrw2);
    var a := f.address;
    assert s.tap0.ca + [s.tap1.ca[5], a[7]] == a[..8];
  }

  lemma OneStep(s: Decoder, f: Phase, c: Small)
    requires f.Valid() && AtRest(s) && (c.Pre? || c.Ref? || c.Mpc?)
    requires s.tap1.ca == Edges(f, c)[0].ca && s.tap0.ca == Edges(f, c)[1].ca
    ensures Decode(s, s.tap1.ca, s.tap0.ca)
         == match c
            case Pre => [if f.address[10] then PrechargeAll else PrechargeBank(f.bank[..3])]
            case Ref => [Refresh]
            case _ => [Multipurpose(f.address[..7])]
  {
    hide Edges, Decode;
    match c {
      case Pre => OneStepPre(s, f);
      case Ref => OneStepRef(s, f);
      case _ => OneStepMpc(s, f);
    }
  }

  lemma OneStepPre(s: Decoder, f: Phase)
    requires f.Valid() && AtRest(s) && s.tap1.ca == Edges(f, Pre)[0].ca && s.tap0.ca == Edges(f, Pre)[1].ca
    ensures Decode(s, s.tap1.ca, s.tap0.ca) == [if f.address[10] then PrechargeAll else PrechargeBank(f.bank[..3])]
  {
    SmallLines(f, Pre);
    hide Edges;
    FirstThree(f.bank);
    FirstThree(s.tap0.ca);
  }

  lemma OneStepRef(s: Decoder, f: Phase)
    requires f.Valid() && AtRest(s) && s.tap1.ca == Edges(f, Ref)[0].ca && s.tap0.ca == Edges(f, Ref)[1].ca
    ensures Decode(s, s.tap1.ca, s.tap0.ca) == [Refresh]
  {
    SmallLines(f, Ref);
    hide Edges;
  }

  lemma OneStepMpc(s: Decoder, f: Phase)
    requires f.Valid() && AtRest(s) && s.tap1.ca == Edges(f, Mpc)[0].ca && s.tap0.ca == Edges(f, Mpc)[1].ca
    ensures Decode(s, s.tap1.ca, s.tap0.ca) == [Multipurpose(f.address[..7])]
  {
    SmallLines(f, Mpc);
    hide Edges;
    assert s.tap0.ca + [s.tap1.ca[5]] == f.address[..7];
  }

  // Storage ----------------------------------------------------------------------------------------

  /** Eight banks, active or not, with the row last activated in each, and 64 mode registers. */
  datatype Store = Store(active: seq<bool>, rows: seq<seq<bool>>, modes: seq<seq<bool>>) {
    ghost predicate Valid() { |active| == |rows| == 8 && |modes| == 64 }
  }

  function EmptyStore(): Store {
    Store(seq(8, _ => false), seq(8, _ => seq(17, _ => false)), seq(64, _ => seq(8, _ => false)))
  }

  /** What an event does to the storage. */
  function Keep(d: Store, e: Event): (d': Store)
    requires d.Valid()
    ensures d'.Valid()
  {
    match e
    case ModeRegister(ma, op) => if Value(ma) < 64 then d.(modes := d.modes[Value(ma) := op]) else d
    case Activate(bank, row) =>
      if Value(bank) < 8 then d.(active := d.active[Value(bank) := true], rows := d.rows[Value(bank) := row]) else d
    case PrechargeBank(bank) => if Value(bank) < 8 then d.(active := d.active[Value(bank) := false]) else d
    case PrechargeAll => d.(active := seq(8, _ => false))
    case Access(_, _, bank, _, true) => if Value(bank) < 8 then d.(active := d.active[Value(bank) := false]) else d
    case _ => d
  }

  function KeepAll(d: Store, events: seq<Event>): (d': Store)
    requires d.Valid()
    ensures d'.Valid()
  {
    if events == [] then d else Keep(KeepAll(d, events[..|events| - 1]), events[|events| - 1])
  }

  lemma {:induction false} KeepMore(d: Store, events: seq<Event>, more: seq<Event>)
    requires d.Valid()
    ensures KeepAll(d, events + more) == KeepAll(KeepAll(d, events), more)
  {
    if more == [] {
      assert events + more == events;
    } else {
      var n := |more| - 1;
      KeepMore(d, events, more[..n]);
      assert (events + more)[..|events| + n] == events + more[..n];
    }
  }

  predicate Opens(e: Event, b: nat) { e.Activate? && Value(e.bank) == b }

  predicate Shuts(e: Event, b: nat) {
    || e.PrechargeAll? || (e.PrechargeBank? && Value(e.bank) == b)
    || (e.Access? && e.autoPrecharge && Value(e.bank) == b)
  }

  /** The `i`-th event activates a row of the bank, and no later one activates or precharges it. */
  ghost predicate OpenSince(events: seq<Event>, b: nat, row: seq<bool>, i: nat) {
    && i < |events| && Opens(events[i], b) && events[i].row == row
    && forall j | i < j < |events| :: !Opens(events[j], b) && !Shuts(events[j], b)
  }

  lemma OpenSinceStep(events: seq<Event>, b: nat, row: seq<bool>, i: nat)
    requires events != []
    ensures var n := |events| - 1;
            OpenSince(events, b, row, i) <==> if Opens(events[n], b) then i == n && events[n].row == row
                                              else !Shuts(events[n], b) && OpenSince(events[..n], b, row, i)
  {
    var n := |events| - 1;
    if OpenSince(events[..n], b, row, i) && !Opens(events[n], b) && !Shuts(events[n], b) {
      forall j | i < j < |events| ensures !Opens(events[j], b) && !Shuts(events[j], b) {
        assert j < n ==> events[..n][j] == events[j];
      }
    }
  }

  lemma KeepBank(d: Store, e: Event, b: nat)
    requires d.Valid() && b < 8
    ensures Keep(d, e).active[b] == (Opens(e, b) || (!Shuts(e, b) && d.active[b]))
    ensures Keep(d, e).rows[b] == if Opens(e, b) then e.row else d.rows[b]
  {
  }

  /** A bank is active exactly when it was activated and neither activated nor precharged since; the stored row is that
      activate's. */
  lemma {:induction false} ActiveIsOpened(events: seq<Event>, b: nat)
    requires b < 8
    ensures var d := KeepAll(EmptyStore(), events);
            d.active[b] <==> exists i: nat :: OpenSince(events, b, d.rows[b], i)
  {
    hide Keep, OpenSince, Shuts;
    if events == [] {
      assert forall i: nat :: !OpenSince(events, b, EmptyStore().rows[b], i) by { NeverOpen(b, EmptyStore().rows[b]); }
    } else {
      var n := |events| - 1;
      var d := KeepAll(EmptyStore(), events[..n]);
      ActiveIsOpened(events[..n], b);
      KeepBank(d, events[n], b);
      var row := Keep(d, events[n]).rows[b];
      forall i: nat
        ensures OpenSince(events, b, row, i) <==> if Opens(events[n], b) then i == n && events[n].row == row
                                                  else !Shuts(events[n], b) && OpenSince(events[..n], b, row, i)
      {
        OpenSinceStep(events, b, row, i);
      }
      assert Opens(events[n], b) ==> OpenSince(events, b, row, n);
    }
  }

  lemma NeverOpen(b: nat, row: seq<bool>)
    ensures forall i: nat :: !OpenSince([], b, row, i)
  {
  }

  /** What the data simulator is given. */
  datatype Burst = Burst(we: bool, masked: bool, bank: seq<bool>, row: seq<bool>, col: seq<bool>)

  /** The burst of an access: its row is the one stored for its bank. */
  function BurstOf(d: Store, e: Event): seq<Burst>
    requires d.Valid()
  {
    if e.Access? && Value(e.bank) < 8 then [Burst(e.we, e.masked, e.bank, d.rows[Value(e.bank)], e.col)] else []
  }

  function BurstsOf(d: Store, events: seq<Event>): seq<Burst>
    requires d.Valid()
  {
    if events == [] then [] else BurstsOf(d, events[..|events| - 1]) + BurstOf(d, events[|events| - 1])
  }

  // The clocked object -----------------------------------------------------------------------------

  /** The simulator's command decoder. */
  class CommandsSim {
    var tap0: Symbol
    var tap1: Symbol
    var mrw: Option<Mrw>
    var act: Option<Act>
    var cas: Option<Cas>
    var store: Store

    function Registers(): Decoder reads this { Decoder(tap0, tap1, mrw, act, cas) }

    ghost predicate Valid() reads this { |tap0.ca| == |tap1.ca| == 6 && store.Valid() }

    constructor ()
      ensures Valid() && Registers() == DecoderReset && store == EmptyStore()
    {
      tap0, tap1, mrw, act, cas, store := Quiet, Quiet, None, None, None, EmptyStore();
    }

    /** The storage takes in the events of a cycle, and the data simulator the bursts. */
    method Apply(events: seq<Event>) returns (bursts: seq<Burst>)
      requires Valid()
      modifies this`store
      ensures Valid() && store == KeepAll(old(store), events) && bursts == BurstsOf(old(store), events)
    {
      hide Keep, BurstOf;
      ghost var was := store;
      var before := store;
      bursts := [];
      for k := 0 to |events|
        invariant store.Valid() && store == KeepAll(was, events[..k]) && bursts == BurstsOf(was, events[..k])
      {
        assert events[..k + 1][..k] == events[..k];
        bursts := bursts + BurstOf(before, events[k]);
        store := Keep(store, events[k]);
      }
      assert events[..|events|] == events;
    }

    /** One clock edge; `events` is what the handlers report in the cycle that it ends. */
    method Tick(pads: Symbol) returns (events: seq<Event>, bursts: seq<Burst>)
      requires Valid() && |pads.ca| == 6
      modifies this
      ensures Valid() && Registers() == DecoderStep(old(Registers()), pads) && events == Emits(old(Registers()))
      ensures store == KeepAll(old(store), events) && bursts == BurstsOf(old(store), events)
    {
      hide Decode, Keep, BurstOf;
      events := [];
      if !tap0.cs && tap1.cs {
        var high, low := tap1.ca, tap0.ca;
        events := Decode(Registers(), high, low);
        mrw := if mrw.None? && Opcode(high, false, true, true, false, false) then Some(Mrw(low, high[5])) else None;
        act := if act.None? && high[0] && !high[1] then
                 Some(Act(low[..3], low[4..6] + high[2..6] + [low[3]]))
               else None;
        cas := if cas.None? && KindOf(high).Some? then
                 Some(Cas(KindOf(high).value, low[..3], low[4], high[5], low[5]))
               else None;
      }
      tap0, tap1 := pads, tap0;
      bursts := Apply(events);
    }
  }
}
