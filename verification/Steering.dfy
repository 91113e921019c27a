/** What the memory model decodes from the steered phases is what the bank machines were told was accepted. */
module Steering {
  import opened Common
  import opened Bits
  import BM = BankMachines
  import D = DramBank
  import R = Refreshers
  import P = PhyModels
  import M = Multiplexers

  /** Shape of every command a bank machine offers. */
  ghost predicate Shaped(c: BM.Cmd) {
    && (c.isRead ==> c.valid && c.cas && !c.ras && !c.we && !c.isWrite && !c.isCmd)
    && (c.isWrite ==> c.valid && c.cas && !c.ras && c.we && !c.isCmd)
    && (c.valid && !c.isRead && !c.isWrite ==> c.ras && !c.cas && c.isCmd)
  }

  lemma OffersAreShaped(p: BM.Settings, s: BM.State, refreshReq: bool)
    requires p.Valid()
    ensures Shaped(BM.Offer(p, s, refreshReq))
  {
  }

  ghost predicate AllShaped(i: M.Input) { forall b | 0 <= b < |i.cmds| :: Shaped(i.cmds[b]) }

  lemma {:induction false} CountNone(fs: seq<P.Phase>, sel: P.Phase -> bool)
    requires forall j | 0 <= j < |fs| :: !sel(fs[j])
    ensures P.Count(fs, sel) == 0
  {
    if fs != [] { CountNone(fs[1..], sel); }
  }

  /** When at most phase `k` can match, it decides. */
  lemma {:induction false} OnlyAt(fs: seq<P.Phase>, sel: P.Phase -> bool, k: nat)
    requires k < |fs| && forall j | 0 <= j < |fs| && j != k :: !sel(fs[j])
    ensures P.Only(fs, sel) == if sel(fs[k]) then Some(k) else None
  {
    if k == 0 {
      CountNone(fs[1..], sel);
    } else {
      assert !sel(fs[0]);
      OnlyAt(fs[1..], sel, k - 1);
    }
  }

  /** The command bank `b` sees in this cycle. */
  function Told(p: M.Settings, s: M.State, i: M.Input, b: nat): D.Command
    requires M.WellFormed(p, s) && |i.cmds| == p.nbanks && b < p.nbanks
  {
    if M.BankReady(p, s, i, b) then BM.Decode(i.cmds[b]) else D.Nop
  }

  function Slot(p: M.Settings, s: M.State): nat { if s.fsm.Write? then p.wrphase else p.rdphase }

  lemma CmdSlotDiffers(p: M.Settings, phase: nat)
    requires phase < p.nphases
    ensures M.CmdPhase(p, phase) < p.nphases
    ensures p.nphases > 1 ==> M.CmdPhase(p, phase) != phase
  {
  }

  /** What the two choosers may select, given the shape of the offers. */
  lemma Choices(p: M.Settings, s: M.State, i: M.Input)
    requires M.WellFormed(p, s) && |i.cmds| == p.nbanks && AllShaped(i) && M.Serving(s)
    ensures M.CmdAccept(p, s, i) ==>
              var c := i.cmds[s.grantCmd]; p.nphases > 1 && c.valid && c.ras && !c.cas
    ensures M.ReqAccept(p, s, i) ==>
              var c := i.cmds[s.grantReq]; c.valid && (c.isRead || c.isWrite || (p.nphases == 1 && c.ras && !c.cas))
    ensures M.CmdAccept(p, s, i) && M.ReqAccept(p, s, i) ==> s.grantCmd != s.grantReq
  {
    assert Shaped(i.cmds[s.grantCmd]) && Shaped(i.cmds[s.grantReq]);
  }

  /** Row and precharge commands occupy the command slot only, column commands the request slot only. */
  lemma SlotsOf(p: M.Settings, s: M.State, i: M.Input, refresh: R.Command, refreshValid: bool, k: nat)
    requires p.Valid() && M.WellFormed(p, s) && |i.cmds| == p.nbanks && AllShaped(i) && M.Serving(s)
    requires k < p.nphases
    ensures var f := M.Steer(p, s, i, refresh, refreshValid, k);
            && (k != M.CmdPhase(p, Slot(p, s)) ==> !P.Activates(f) && !P.Precharges(f))
            && (k != (if p.nphases == 1 then 0 else Slot(p, s)) ==> !P.Writes(f) && !P.Reads(f))
  {
    Choices(p, s, i);
    CmdSlotDiffers(p, Slot(p, s));
  }

  lemma ServingDecode(p: M.Settings, s: M.State, i: M.Input, refresh: R.Command, refreshValid: bool)
    requires p.Valid() && M.WellFormed(p, s) && |i.cmds| == p.nbanks && AllShaped(i) && M.Serving(s)
    ensures var fs := M.Phases(p, s, i, refresh, refreshValid);
            var k, r := M.CmdPhase(p, Slot(p, s)), if p.nphases == 1 then 0 else Slot(p, s);
            && k < |fs| && r < |fs|
            && P.Only(fs, P.Activates) == (if P.Activates(fs[k]) then Some(k) else None)
            && P.Only(fs, P.Precharges) == (if P.Precharges(fs[k]) then Some(k) else None)
            && P.Only(fs, P.Writes) == (if P.Writes(fs[r]) then Some(r) else None)
            && P.Only(fs, P.Reads) == (if P.Reads(fs[r]) then Some(r) else None)
  {
    var fs := M.Phases(p, s, i, refresh, refreshValid);
    var k, r := M.CmdPhase(p, Slot(p, s)), if p.nphases == 1 then 0 else Slot(p, s);
    CmdSlotDiffers(p, Slot(p, s));
    forall j | 0 <= j < |fs|
      ensures j != k ==> !P.Activates(fs[j]) && !P.Precharges(fs[j])
      ensures j != r ==> !P.Writes(fs[j]) && !P.Reads(fs[j])
    {
      SlotsOf(p, s, i, refresh, refreshValid, j);
    }
    OnlyAt(fs, P.Activates, k);
    OnlyAt(fs, P.Precharges, k);
    OnlyAt(fs, P.Writes, r);
    OnlyAt(fs, P.Reads, r);
  }

  /** No bank machine ever raises A10 on its own precharge. */
  ghost predicate OwnPrecharge(c: BM.Cmd) { c.valid && c.ras && !c.cas && c.we ==> !BM.A10(c.a) }

  lemma ServingMeaning(p: M.Settings, q: P.Settings, s: M.State, i: M.Input, refresh: R.Command, refreshValid: bool,
                       b: nat)
    requires p.Valid() && M.WellFormed(p, s) && |i.cmds| == p.nbanks && AllShaped(i) && M.Serving(s) && b < p.nbanks
    requires forall j | 0 <= j < |i.cmds| :: OwnPrecharge(i.cmds[j])
    ensures var fs, c := M.Phases(p, s, i, refresh, refreshValid), Told(p, s, i, b);
            && P.Activated(q, fs, b) == (if c.Act? then Some(To(c.row, q.rowbits)) else None)
            && P.Precharged(fs, b) == c.Pre?
            && !c.PreAll?
  {
    Choices(p, s, i);
    CmdSlotDiffers(p, Slot(p, s));
    ServingDecode(p, s, i, refresh, refreshValid);
    assert OwnPrecharge(i.cmds[s.grantCmd]) && OwnPrecharge(i.cmds[s.grantReq]);
  }

  lemma ServingColumns(p: M.Settings, q: P.Settings, s: M.State, i: M.Input, refresh: R.Command, refreshValid: bool,
                       b: nat)
    requires p.Valid() && M.WellFormed(p, s) && |i.cmds| == p.nbanks && AllShaped(i) && M.Serving(s) && b < p.nbanks
    ensures var fs := M.Phases(p, s, i, refresh, refreshValid);
            var own := M.ReqAccept(p, s, i) && s.grantReq == b;
            && P.Written(q, fs, b) == (if own && i.cmds[b].isWrite then Some(To(i.cmds[b].a, q.colbits)) else None)
            && P.ReadCol(q, fs, b) == (if own && i.cmds[b].isRead then Some(To(i.cmds[b].a, q.colbits)) else None)
  {
    Choices(p, s, i);
    CmdSlotDiffers(p, Slot(p, s));
    ServingDecode(p, s, i, refresh, refreshValid);
  }

  /** Outside READ and WRITE every phase but the first is idle, and the first carries the refresher's command. */
  lemma IdlePhases(p: M.Settings, s: M.State, i: M.Input, refresh: R.Command, refreshValid: bool)
    requires p.Valid() && M.WellFormed(p, s) && |i.cmds| == p.nbanks && !M.Serving(s)
    ensures var fs := M.Phases(p, s, i, refresh, refreshValid);
            && (forall k | 0 < k < |fs| :: fs[k] == P.Idle)
            && fs[0] == (if s.fsm.Refresh? then
                           P.Phase(0, refresh.a, refreshValid && refresh.cas, refreshValid && refresh.ras,
                                   refreshValid && refresh.we)
                         else P.Idle)
  {
    hide M.CmdAccept, M.ReqAccept;
  }

  /** What is decoded when only the first phase can carry a command. */
  lemma OnlyFirst(fs: seq<P.Phase>)
    requires fs != [] && forall k | 0 < k < |fs| :: fs[k] == P.Idle
    ensures P.Only(fs, P.Activates) == if P.Activates(fs[0]) then Some(0) else None
    ensures P.Only(fs, P.Precharges) == if P.Precharges(fs[0]) then Some(0) else None
    ensures P.Only(fs, P.Writes) == if P.Writes(fs[0]) then Some(0) else None
    ensures P.Only(fs, P.Reads) == if P.Reads(fs[0]) then Some(0) else None
  {
    OnlyAt(fs, P.Activates, 0);
    OnlyAt(fs, P.Precharges, 0);
    OnlyAt(fs, P.Writes, 0);
    OnlyAt(fs, P.Reads, 0);
  }

  /** Outside READ and WRITE the only command on the bus is the refresher's. */
  lemma IdleDecode(p: M.Settings, q: P.Settings, s: M.State, i: M.Input, refresh: R.Command, refreshValid: bool, b: nat)
    requires p.Valid() && M.WellFormed(p, s) && |i.cmds| == p.nbanks && !M.Serving(s) && b < p.nbanks
    requires refresh in {R.NoCommand, R.PrechargeAll, R.AutoRefresh, R.ZqCalibration}
    ensures var fs := M.Phases(p, s, i, refresh, refreshValid);
            && P.Activated(q, fs, b).None? && P.Written(q, fs, b).None? && P.ReadCol(q, fs, b).None?
            && P.Precharged(fs, b) == (s.fsm.Refresh? && refreshValid && refresh == R.PrechargeAll)
            && !M.BankReady(p, s, i, b)
  {
    hide P.Only, M.Phases;
    IdlePhases(p, s, i, refresh, refreshValid);
    OnlyFirst(M.Phases(p, s, i, refresh, refreshValid));
    assert BM.A10(1024) by {
      UpIsProduct(1, 10);
      SlicesOfCat(0, 1, 10);
    }
  }
}
