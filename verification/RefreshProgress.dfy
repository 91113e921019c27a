/** Refresh progress: once the refresher has raised its request, the multiplexer enters REFRESH within a bound computed
    from the settings. */
module RefreshProgress {
  import opened Common
  import opened Runs
  import opened TimingControllers
  import opened Controllers
  import opened ControllerSafety
  import Arbiters
  import BM = BankMachines
  import M = Multiplexers

  // Timers -----------------------------------------------------------------------------------------

  ghost predicate TxxOk(txxd: Option<pos>, s: Txx) {
    match txxd
    case None => s.ready
    case Some(n) => s.count < SignalModulus(Max(n, 2))
  }

  /** The controller is ready after at most `t` idle cycles. */
  ghost predicate TxxWithin(txxd: Option<pos>, s: Txx, t: nat) {
    s.ready || (txxd.Some? && 0 < (if s.count == 0 then SignalModulus(Max(txxd.value, 2)) else s.count) <= t)
  }

  /** Cycles after which any controller with this setting is ready if left alone. */
  function TxxSpan(txxd: Option<pos>): nat { if txxd.None? then 0 else SignalModulus(Max(txxd.value, 2)) }

  lemma TxxOkStep(txxd: Option<pos>, s: Txx, valid: bool)
    requires TxxOk(txxd, s)
    ensures TxxOk(txxd, TxxStep(txxd, s, valid)) && TxxWithin(txxd, s, TxxSpan(txxd))
  {
  }

  lemma TxxIdle(txxd: Option<pos>, s: Txx, t: nat)
    requires TxxOk(txxd, s) && TxxWithin(txxd, s, t)
    ensures TxxWithin(txxd, TxxStep(txxd, s, false), if t == 0 then 0 else t - 1)
  {
  }

  ghost predicate TfawWithin(tfaw: Option<pos>, s: Tfaw, t: nat)
    requires tfaw.Some? ==> |s.window| == tfaw.value
  {
    s.ready || (tfaw.Some? && 1 <= t && forall i | 0 <= i < tfaw.value && i + t <= tfaw.value :: !s.window[i])
  }

  lemma TfawIdle(tfaw: Option<pos>, s: Tfaw, t: nat)
    requires tfaw.Some? ==> |s.window| == tfaw.value
    requires tfaw.None? ==> s.ready
    requires TfawWithin(tfaw, s, t)
    ensures TfawWithin(tfaw, TfawStep(tfaw, s, false), if t == 0 then 0 else t - 1)
  {
    if tfaw.Some? && !s.ready && t == 1 {
      OnesBounds(s.window);
    }
  }

  // One bank ---------------------------------------------------------------------------------------

  /** Stages a bank still has to go through before it grants refresh. */
  function Stages(f: BM.Fsm): nat {
    match f
    case Precharge => 5
    case AutoPrecharge => 5
    case Trp(_) => 4
    case Activate => 3
    case Trcd(_) => 2
    case Regular => 1
    case Refresh => 0
  }

  ghost predicate BankOk(p: BM.Settings, s: BM.State) {
    && TxxOk(Some(p.timing.tWTP), s.twtp) && TxxOk(p.timing.tRC, s.trc) && TxxOk(p.timing.tRAS, s.tras)
    && (s.fsm.Trp? ==> s.fsm.left <= p.timing.tRP)
    && (s.fsm.Trcd? ==> s.fsm.left <= p.timing.tRCD)
  }

  ghost predicate BankWithin(p: BM.Settings, s: BM.State, t: nat) {
    && TxxWithin(Some(p.timing.tWTP), s.twtp, t) && TxxWithin(p.timing.tRC, s.trc, t)
    && TxxWithin(p.timing.tRAS, s.tras, t)
    && (s.fsm.Trp? || s.fsm.Trcd? ==> s.fsm.left <= t)
  }

  /** The bank offers a precharge or an activate. */
  predicate OffersRow(s: BM.State) { (s.fsm.Precharge? && s.twtp.ready && s.tras.ready) || BM.RowOpen(s) }

  lemma BankOkStep(p: BM.Settings, s: BM.State, i: BM.Input)
    requires p.Valid() && BankOk(p, s)
    ensures BankOk(p, BM.Step(p, s, i))
  {
    hide BM.Offer, BM.RowHit, BM.AutoPrechargeFlag;
    var issue := BM.Accepted(p, s, i);
    TxxOkStep(Some(p.timing.tWTP), s.twtp, issue && BM.Offer(p, s, i.refreshReq).isWrite);
    TxxOkStep(p.timing.tRC, s.trc, issue && BM.RowOpen(s));
    TxxOkStep(p.timing.tRAS, s.tras, issue && BM.RowOpen(s));
  }

  /** While refresh is requested a bank offers row commands only. */
  lemma OfferUnderRefresh(p: BM.Settings, s: BM.State)
    requires p.Valid()
    ensures var c := BM.Offer(p, s, true);
            && c.valid == OffersRow(s) && !c.isRead && !c.isWrite && (c.valid ==> c.isCmd)
            && (c.valid && M.IsAct(c) ==> BM.RowOpen(s))
  {
  }

  /** While refresh is requested no bank falls back, and an accepted command completes a stage. */
  lemma StagesStep(p: BM.Settings, s: BM.State, i: BM.Input)
    requires p.Valid() && i.refreshReq
    ensures Stages(BM.Step(p, s, i).fsm) <= Stages(s.fsm)
    ensures i.cmdReady && OffersRow(s) ==> Stages(BM.Step(p, s, i).fsm) < Stages(s.fsm)
  {
    hide BM.Offer, BM.RowHit, BM.AutoPrechargeFlag;
  }

  /** A bank that completes no stage in a cycle lets its timers run. */
  lemma BankIdle(p: BM.Settings, s: BM.State, i: BM.Input, t: nat)
    requires p.Valid() && i.refreshReq && BankOk(p, s) && BankWithin(p, s, t)
    requires Stages(BM.Step(p, s, i).fsm) == Stages(s.fsm)
    ensures BankWithin(p, BM.Step(p, s, i), if t == 0 then 0 else t - 1)
    ensures OffersRow(s) ==> OffersRow(BM.Step(p, s, i))
    ensures t == 0 ==> OffersRow(s) || BM.RefreshGnt(s)
  {
    hide BM.Offer, BM.RowHit, BM.AutoPrechargeFlag;
    OfferUnderRefresh(p, s);
    StagesStep(p, s, i);
    TxxIdle(Some(p.timing.tWTP), s.twtp, t);
    TxxIdle(p.timing.tRC, s.trc, t);
    TxxIdle(p.timing.tRAS, s.tras, t);
  }

  // The multiplexer --------------------------------------------------------------------------------

  function MuxStages(f: M.Fsm): nat { if f.Wtr? || f.Rtw? then 1 else 0 }

  ghost predicate MuxOk(p: M.Settings, s: M.State) {
    && M.WellFormed(p, s)
    && TxxOk(p.tRRD, s.trrd) && TxxOk(Some(p.tCCD), s.tccd) && TxxOk(Some(p.tWTR), s.twtr)
    && (p.tFAW.None? ==> s.tfaw.ready)
    && (s.fsm.Rtw? ==> s.fsm.left <= p.readLatency)
  }

  ghost predicate MuxWithin(p: M.Settings, s: M.State, t: nat)
    requires M.WellFormed(p, s)
  {
    && TxxWithin(p.tRRD, s.trrd, t) && TxxWithin(Some(p.tCCD), s.tccd, t) && TxxWithin(Some(p.tWTR), s.twtr, t)
    && TfawWithin(p.tFAW, s.tfaw, t)
    && (s.fsm.Rtw? ==> s.fsm.left <= t)
  }

  lemma MuxOkStep(p: M.Settings, s: M.State, i: M.Input)
    requires MuxOk(p, s) && |i.cmds| == p.nbanks
    ensures MuxOk(p, M.Step(p, s, i))
  {
    hide M.ActAccepted, M.ReadAccepted, M.WriteAccepted, M.ChooserStep, M.CmdReady, M.ReqReady, M.ReadAvailable,
         M.WriteAvailable;
    TxxOkStep(p.tRRD, s.trrd, M.ActAccepted(p, s, i));
    TxxOkStep(Some(p.tCCD), s.tccd, M.ReadAccepted(p, s, i) || M.WriteAccepted(p, s, i));
    TxxOkStep(Some(p.tWTR), s.twtr, M.WriteAccepted(p, s, i));
  }

  /** No column command is offered. */
  ghost predicate RowsOnly(i: M.Input) {
    forall b | 0 <= b < |i.cmds| :: !i.cmds[b].isRead && !i.cmds[b].isWrite && (i.cmds[b].valid ==> i.cmds[b].isCmd)
  }

  /** With row commands only, the multiplexer stays where it serves until it can refresh. */
  lemma MuxStagesStep(p: M.Settings, s: M.State, i: M.Input)
    requires M.WellFormed(p, s) && |i.cmds| == p.nbanks && RowsOnly(i) && !s.fsm.Refresh?
    ensures MuxStages(M.NextFsm(p, s, i)) <= MuxStages(s.fsm)
    ensures i.goToRefresh && M.Serving(s) ==> M.NextFsm(p, s, i).Refresh?
    ensures !i.goToRefresh ==> !M.NextFsm(p, s, i).Refresh?
    ensures !M.ReadAccepted(p, s, i) && !M.WriteAccepted(p, s, i)
  {
  }

  lemma MuxIdle(p: M.Settings, s: M.State, i: M.Input, t: nat)
    requires MuxOk(p, s) && |i.cmds| == p.nbanks && RowsOnly(i) && !s.fsm.Refresh? && MuxWithin(p, s, t)
    requires MuxStages(M.NextFsm(p, s, i)) == MuxStages(s.fsm) && !M.ActAccepted(p, s, i)
    ensures MuxWithin(p, M.Step(p, s, i), if t == 0 then 0 else t - 1)
    ensures t == 0 ==> M.Serving(s)
  {
    hide M.ActAccepted, M.ReadAccepted, M.WriteAccepted, M.ChooserStep, M.CmdReady, M.ReqReady, M.ReadAvailable,
         M.WriteAvailable, TfawStep, TfawWithin, TxxWithin;
    MuxStagesStep(p, s, i);
    TxxIdle(p.tRRD, s.trrd, t);
    TxxIdle(Some(p.tCCD), s.tccd, t);
    TxxIdle(Some(p.tWTR), s.twtr, t);
    TfawIdle(p.tFAW, s.tfaw, t);
    if t == 0 { TwtrReady(p, s); }
  }

  lemma TwtrReady(p: M.Settings, s: M.State)
    requires TxxWithin(Some(p.tWTR), s.twtr, 0)
    ensures s.twtr.ready
  {
  }

  /** The bank selected by the chooser that takes row commands. */
  function RowGrant(p: M.Settings, s: M.State): nat { if p.nphases == 1 then s.grantReq else s.grantCmd }

  /** With nothing left to count down, a selected offer is accepted, and otherwise an offering bank is selected next. */
  lemma ChooserServes(p: M.Settings, s: M.State, i: M.Input, b: nat)
    requires M.WellFormed(p, s) && |i.cmds| == p.nbanks && RowsOnly(i) && M.Serving(s) && MuxWithin(p, s, 0)
    requires b < p.nbanks && i.cmds[b].valid
    ensures i.cmds[RowGrant(p, s)].valid ==> M.BankReady(p, s, i, RowGrant(p, s))
    ensures !i.cmds[RowGrant(p, s)].valid ==> i.cmds[RowGrant(p, M.Step(p, s, i))].valid
  {
    if p.nphases == 1 {
      SelectsValid(M.WantReq(p, s), i, s.grantReq, b, M.ReqReady(p, s, i));
    } else {
      SelectsValid(M.WantCmd(p, s), i, s.grantCmd, b, M.CmdReady(p, s, i));
    }
  }

  lemma SelectsValid(w: M.Want, i: M.Input, grant: nat, b: nat, ready: bool)
    requires grant < |i.cmds| && b < |i.cmds| && i.cmds[b].valid && RowsOnly(i)
    requires (w.cmds && w.activates) || (!w.cmds && !w.rd && !w.wr)
    ensures i.cmds[grant].valid ==> M.Eligible(w, i.cmds[grant])
    ensures !i.cmds[grant].valid ==> i.cmds[M.ChooserStep(w, i.cmds, grant, ready)].valid
  {
    assert M.Eligible(w, i.cmds[b]);
    Arbiters.GrantsRequester(M.Valids(w, i.cmds), grant, b);
  }

  // The controller ---------------------------------------------------------------------------------

  function Sum(a: seq<nat>): nat { if a == [] then 0 else a[0] + Sum(a[1..]) }

  lemma {:induction false} SumMonotone(a: seq<nat>, b: seq<nat>)
    requires |a| == |b| && forall k | 0 <= k < |a| :: a[k] <= b[k]
    ensures Sum(a) <= Sum(b)
    ensures Sum(a) == Sum(b) ==> a == b
  {
    if a != [] {
      SumMonotone(a[1..], b[1..]);
      assert a == [a[0]] + a[1..] && b == [b[0]] + b[1..];
    }
  }

  lemma {:induction false} SumBound(a: seq<nat>, n: nat)
    requires forall k | 0 <= k < |a| :: a[k] <= n
    ensures Sum(a) <= n * |a|
  {
    if a != [] { SumBound(a[1..], n); }
  }

  function BankStages(s: State): (r: seq<nat>)
    ensures |r| == |s.worlds| && forall b | 0 <= b < |r| :: r[b] == Stages(s.worlds[b].s.fsm)
  {
    seq(|s.worlds|, b requires 0 <= b < |s.worlds| => Stages(s.worlds[b].s.fsm))
  }

  /** Stages owed by all banks and the multiplexer. */
  function Owed(s: State): nat { Sum(BankStages(s)) + MuxStages(s.mux.fsm) }

  ghost predicate Bounded(c: Config, s: State) {
    && c.Valid() && WellFormed(c, s) && MuxOk(c.Mux(), s.mux)
    && forall b | 0 <= b < c.Nbanks() :: BankOk(c.Bank(), s.worlds[b].s)
  }

  ghost predicate Within(c: Config, s: State, t: nat)
    requires c.Valid() && WellFormed(c, s)
  {
    MuxWithin(c.Mux(), s.mux, t) && forall b | 0 <= b < c.Nbanks() :: BankWithin(c.Bank(), s.worlds[b].s, t)
  }

  /** The refresher waits for the bank machines, and the multiplexer has not given way yet. */
  predicate Waiting(s: State) { s.ref.fsm.WaitBankMachines? && !s.mux.fsm.Refresh? }

  lemma WaitingRequests(c: Config, s: State)
    requires c.Valid() && WellFormed(c, s) && Waiting(s)
    ensures RefreshReq(c, s) && !PreAll(c, s) && RowsOnly(MuxInput(c, s))
    ensures forall b | 0 <= b < c.Nbanks() ::
              MuxInput(c, s).cmds[b].valid == OffersRow(s.worlds[b].s)
              && (MuxInput(c, s).cmds[b].valid && M.IsAct(MuxInput(c, s).cmds[b]) ==> BM.RowOpen(s.worlds[b].s))
  {
    hide BM.Offer;
    forall b | 0 <= b < c.Nbanks()
      ensures var x := MuxInput(c, s).cmds[b];
              && !x.isRead && !x.isWrite && (x.valid ==> x.isCmd) && x.valid == OffersRow(s.worlds[b].s)
              && (x.valid && M.IsAct(x) ==> BM.RowOpen(s.worlds[b].s))
    {
      OfferUnderRefresh(c.Bank(), s.worlds[b].s);
    }
  }

  /** What a cycle does to the parts this argument watches. */
  ghost predicate Advances(c: Config, s: State, i: Input, s': State) {
    && Fits(c, s, i) && WellFormed(c, s')
    && (forall b | 0 <= b < c.Nbanks() :: s'.worlds[b].s == BM.Step(c.Bank(), s.worlds[b].s, BankInput(c, s, i, b)))
    && s'.mux == M.Step(c.Mux(), s.mux, MuxInput(c, s))
    && (Waiting(s) ==> s'.ref.fsm.WaitBankMachines?)
  }

  lemma FollowsAdvances(c: Config, s: State, i: Input, s': State)
    requires Follows(c, s, i, s')
    ensures Advances(c, s, i, s')
  {
    FollowsMoves(c, s, i, s');
  }

  lemma BoundedStep(c: Config, s: State, i: Input, s': State)
    requires Bounded(c, s) && Advances(c, s, i, s')
    ensures Bounded(c, s')
  {
    hide BM.Step, M.Step, BankOk, MuxOk, MuxInput;
    MuxOkStep(c.Mux(), s.mux, MuxInput(c, s));
    forall b | 0 <= b < c.Nbanks() ensures BankOk(c.Bank(), s'.worlds[b].s) {
      BankOkStep(c.Bank(), s.worlds[b].s, BankInput(c, s, i, b));
    }
  }

  lemma InitiallyBounded(c: Config, s: State)
    requires c.Valid() && Initial(c, s)
    ensures Bounded(c, s)
  {
    forall b | 0 <= b < c.Nbanks() ensures BankOk(c.Bank(), s.worlds[b].s) {
      assert s.worlds[b] == BM.Start(c.Bank());
    }
  }

  /** No countdown of the configuration takes longer. */
  function Slowest(c: Config): (t: nat)
    requires c.Valid()
    ensures TxxSpan(Some(c.Timing().tWTP)) <= t && TxxSpan(c.tRC) <= t && TxxSpan(c.tRAS) <= t
    ensures TxxSpan(c.tRRD) <= t && TxxSpan(Some(c.tCCD)) <= t && TxxSpan(Some(c.Mux().tWTR)) <= t
    ensures (c.tFAW.Some? ==> c.tFAW.value + 1 <= t) && c.tRP <= t && c.tRCD <= t && c.readLatency <= t
  {
    var bank := Max(TxxSpan(Some(c.Timing().tWTP)), Max(TxxSpan(c.tRC), Max(TxxSpan(c.tRAS), Max(c.tRP, c.tRCD))));
    var device := Max(TxxSpan(c.tRRD), Max(TxxSpan(Some(c.tCCD)), TxxSpan(Some(c.Mux().tWTR))));
    Max(Max(bank, device), Max(c.readLatency, if c.tFAW.Some? then c.tFAW.value + 1 else 0))
  }

  lemma BankSlowest(c: Config, s: BM.State, t: nat)
    requires c.Valid() && BankOk(c.Bank(), s)
    requires TxxSpan(Some(c.Timing().tWTP)) <= t && TxxSpan(c.tRC) <= t && TxxSpan(c.tRAS) <= t
    requires c.tRP <= t && c.tRCD <= t
    ensures BankWithin(c.Bank(), s, t)
  {
    TxxOkStep(Some(c.Timing().tWTP), s.twtp, false);
    TxxOkStep(c.tRC, s.trc, false);
    TxxOkStep(c.tRAS, s.tras, false);
  }

  lemma MuxSlowest(c: Config, s: M.State, t: nat)
    requires c.Valid() && MuxOk(c.Mux(), s)
    requires TxxSpan(c.tRRD) <= t && TxxSpan(Some(c.tCCD)) <= t && TxxSpan(Some(c.Mux().tWTR)) <= t
    requires (c.tFAW.Some? ==> c.tFAW.value + 1 <= t) && c.readLatency <= t
    ensures MuxWithin(c.Mux(), s, t)
  {
    TxxOkStep(c.tRRD, s.trrd, false);
    TxxOkStep(Some(c.tCCD), s.tccd, false);
    TxxOkStep(Some(c.Mux().tWTR), s.twtr, false);
  }

  lemma AllSlowest(c: Config, s: State)
    requires Bounded(c, s)
    ensures Within(c, s, Slowest(c))
  {
    hide BankOk, MuxOk, BankWithin, MuxWithin;
    var t := Slowest(c);
    MuxSlowest(c, s.mux, t);
    forall b | 0 <= b < c.Nbanks() ensures BankWithin(c.Bank(), s.worlds[b].s, t) {
      BankSlowest(c, s.worlds[b].s, t);
    }
  }

  // One cycle of waiting ---------------------------------------------------------------------------

  /** The cycle completes no stage. */
  ghost predicate Stalls(c: Config, s: State, s': State) {
    && |s.worlds| == |s'.worlds| == c.Nbanks() && MuxStages(s'.mux.fsm) == MuxStages(s.mux.fsm)
    && forall b | 0 <= b < c.Nbanks() :: Stages(s'.worlds[b].s.fsm) == Stages(s.worlds[b].s.fsm)
  }

  /** While waiting nothing owed grows. */
  lemma OwedStep(c: Config, s: State, i: Input, s': State)
    requires Advances(c, s, i, s') && Waiting(s)
    ensures Owed(s') <= Owed(s)
    ensures Owed(s') == Owed(s) ==> Stalls(c, s, s')
  {
    hide BM.Step, MuxInput, M.ChooserStep;
    WaitingRequests(c, s);
    MuxStagesStep(c.Mux(), s.mux, MuxInput(c, s));
    forall b | 0 <= b < c.Nbanks() ensures Stages(s'.worlds[b].s.fsm) <= Stages(s.worlds[b].s.fsm) {
      StagesStep(c.Bank(), s.worlds[b].s, BankInput(c, s, i, b));
    }
    SumMonotone(BankStages(s'), BankStages(s));
  }

  /** In a stalled cycle no row command is accepted. */
  lemma StallAccepts(c: Config, s: State, i: Input, s': State, b: nat)
    requires Advances(c, s, i, s') && Waiting(s) && Stalls(c, s, s') && b < c.Nbanks()
    ensures !Ready(c, s, b) || !OffersRow(s.worlds[b].s)
  {
    hide BM.Step, M.Step, MuxInput;
    WaitingRequests(c, s);
    StagesStep(c.Bank(), s.worlds[b].s, BankInput(c, s, i, b));
  }

  lemma StallActivates(c: Config, s: State, i: Input, s': State)
    requires Advances(c, s, i, s') && Waiting(s) && Stalls(c, s, s')
    ensures !M.ActAccepted(c.Mux(), s.mux, MuxInput(c, s))
  {
    hide BM.Step, M.Step;
    WaitingRequests(c, s);
    if M.ActAccepted(c.Mux(), s.mux, MuxInput(c, s)) {
      StallAccepts(c, s, i, s', RowGrant(c.Mux(), s.mux));
    }
  }

  lemma StallRuns(c: Config, s: State, i: Input, s': State, t: nat)
    requires Bounded(c, s) && Advances(c, s, i, s') && Waiting(s) && Stalls(c, s, s') && Within(c, s, t)
    ensures Within(c, s', if t == 0 then 0 else t - 1)
  {
    hide BM.Step, BankOk, MuxOk, BankWithin, MuxWithin, M.ActAccepted;
    WaitingRequests(c, s);
    StallActivates(c, s, i, s');
    MuxIdle(c.Mux(), s.mux, MuxInput(c, s), t);
    forall b | 0 <= b < c.Nbanks() ensures BankWithin(c.Bank(), s'.worlds[b].s, if t == 0 then 0 else t - 1) {
      BankIdle(c.Bank(), s.worlds[b].s, BankInput(c, s, i, b), t);
    }
  }

  /** The chooser for row commands has selected a bank that offers one. */
  predicate Selected(c: Config, s: State)
    requires c.Valid() && WellFormed(c, s)
  {
    OffersRow(s.worlds[RowGrant(c.Mux(), s.mux)].s)
  }

  /** With every countdown at zero a stalled cycle selects an offering bank, or starts the refresh. */
  lemma StallSelects(c: Config, s: State, i: Input, s': State)
    requires Bounded(c, s) && Advances(c, s, i, s') && Waiting(s) && Stalls(c, s, s') && Within(c, s, 0)
    requires !s'.mux.fsm.Refresh?
    ensures !Selected(c, s) && Selected(c, s')
  {
    hide BM.Step, BankOk, MuxOk, BankWithin, MuxWithin, M.ActAccepted, M.ChooserStep;
    WaitingRequests(c, s);
    StallActivates(c, s, i, s');
    MuxIdle(c.Mux(), s.mux, MuxInput(c, s), 0);
    MuxStagesStep(c.Mux(), s.mux, MuxInput(c, s));
    var b := SomeoneOffers(c, s, i, s');
    ChooserServes(c.Mux(), s.mux, MuxInput(c, s), b);
    var g, g' := RowGrant(c.Mux(), s.mux), RowGrant(c.Mux(), s'.mux);
    if Selected(c, s) { StallAccepts(c, s, i, s', g); }
    BankIdle(c.Bank(), s.worlds[g'].s, BankInput(c, s, i, g'), 0);
  }

  lemma SomeoneOffers(c: Config, s: State, i: Input, s': State) returns (b: nat)
    requires Bounded(c, s) && Advances(c, s, i, s') && Waiting(s) && Stalls(c, s, s') && Within(c, s, 0)
    requires !MuxInput(c, s).goToRefresh
    ensures b < c.Nbanks() && OffersRow(s.worlds[b].s)
  {
    hide BM.Step, M.Step, BankOk, MuxOk, BankWithin, MuxWithin;
    var b' :| 0 <= b' < c.Nbanks() && !BM.RefreshGnt(s.worlds[b'].s);
    WaitingRequests(c, s);
    BankIdle(c.Bank(), s.worlds[b'].s, BankInput(c, s, i, b'), 0);
    b := b';
  }

  // The bound --------------------------------------------------------------------------------------

  /** At most `r` stages are owed, and every countdown ends within `t` cycles; `choosing` is false once an offering
      bank is selected. */
  ghost predicate Measured(c: Config, s: State, r: nat, t: nat, choosing: bool) {
    && Bounded(c, s) && Waiting(s) && Owed(s) <= r && Within(c, s, t)
    && (!choosing ==> t == 0 && Selected(c, s))
  }

  /** Every waiting cycle starts the refresh or shrinks the measure. */
  lemma MeasureShrinks(c: Config, s: State, i: Input, s': State, r: nat, t: nat, choosing: bool)
    requires Measured(c, s, r, t, choosing) && Follows(c, s, i, s') && !s'.mux.fsm.Refresh?
    ensures || (r > 0 && Measured(c, s', r - 1, Slowest(c), true))
            || (t > 0 && Measured(c, s', r, t - 1, true))
            || (t == 0 && choosing && Measured(c, s', r, 0, false))
  {
    hide Follows, Advances, Bounded, Within, Owed, Selected, Slowest;
    FollowsAdvances(c, s, i, s');
    BoundedStep(c, s, i, s');
    OwedStep(c, s, i, s');
    StillWaiting(c, s, i, s');
    if Owed(s') < Owed(s) {
      AllSlowest(c, s');
    } else {
      StallRuns(c, s, i, s', t);
      if t == 0 { StallSelects(c, s, i, s'); }
    }
  }

  lemma StillWaiting(c: Config, s: State, i: Input, s': State)
    requires Advances(c, s, i, s') && Waiting(s) && !s'.mux.fsm.Refresh?
    ensures Waiting(s')
  {
  }

  /** Cycles a measure allows for. */
  function Allowance(r: nat, t: nat, choosing: bool, slowest: nat): nat {
    r * (slowest + 2) + t + if choosing then 2 else 1
  }

  /** Refresh starts within the next `n` cycles of cycle `k`. */
  ghost predicate RefreshBy(states: seq<State>, k: nat, n: nat) {
    exists j | k <= j <= k + n && j < |states| :: states[j].mux.fsm.Refresh?
  }

  lemma AllowanceSteps(r: nat, t: nat, choosing: bool, slowest: nat)
    ensures r > 0 ==> 1 + Allowance(r - 1, slowest, true, slowest) <= Allowance(r, t, choosing, slowest)
    ensures t > 0 ==> 1 + Allowance(r, t - 1, true, slowest) <= Allowance(r, t, true, slowest)
    ensures 1 + Allowance(r, 0, false, slowest) <= Allowance(r, t, true, slowest)
    ensures 1 <= Allowance(r, t, choosing, slowest)
  {
    if r > 0 { assert r * (slowest + 2) == (r - 1) * (slowest + 2) + slowest + 2; }
  }

  lemma RefreshLater(states: seq<State>, k: nat, n: nat, n': nat)
    requires RefreshBy(states, k + 1, n) && n + 1 <= n'
    ensures RefreshBy(states, k, n')
  {
  }

  lemma {:induction false} ReachesRefresh(c: Config, states: seq<State>, ins: seq<Input>, k: nat, r: nat, t: nat,
                                          choosing: bool)
    requires IsRun(c, states, ins) && k < |states| && Measured(c, states[k], r, t, choosing)
    requires k + Allowance(r, t, choosing, Slowest(c)) <= |ins|
    ensures RefreshBy(states, k, Allowance(r, t, choosing, Slowest(c)))
    decreases r, t, choosing
  {
    hide Measured, Slowest, Initial, Allowance, Follows, RefreshBy;
    var z := Slowest(c);
    AllowanceSteps(r, t, choosing, z);
    RunCycle(c, states, ins, k);
    if states[k + 1].mux.fsm.Refresh? {
      RefreshNow(states, k, Allowance(r, t, choosing, z));
    } else {
      var r', t', choosing' := MeasureNext(c, states[k], ins[k], states[k + 1], r, t, choosing);
      ReachesRefresh(c, states, ins, k + 1, r', t', choosing');
      RefreshLater(states, k, Allowance(r', t', choosing', z), Allowance(r, t, choosing, z));
    }
  }

  lemma RefreshNow(states: seq<State>, k: nat, n: nat)
    requires k + 1 < |states| && states[k + 1].mux.fsm.Refresh? && 1 <= n
    ensures RefreshBy(states, k, n)
  {
  }

  lemma MeasureNext(c: Config, s: State, i: Input, s': State, r: nat, t: nat, choosing: bool)
    returns (r': nat, t': nat, choosing': bool)
    requires Measured(c, s, r, t, choosing) && Follows(c, s, i, s') && !s'.mux.fsm.Refresh?
    ensures Measured(c, s', r', t', choosing')
    ensures r' < r || (r' == r && (t' < t || (t' == t && choosing && !choosing')))
    ensures 1 + Allowance(r', t', choosing', Slowest(c)) <= Allowance(r, t, choosing, Slowest(c))
  {
    hide Measured, Slowest, Allowance, Follows;
    MeasureIsValid(c, s, r, t, choosing);
    MeasureShrinks(c, s, i, s', r, t, choosing);
    AllowanceSteps(r, t, choosing, Slowest(c));
    if r > 0 && Measured(c, s', r - 1, Slowest(c), true) {
      r', t', choosing' := r - 1, Slowest(c), true;
    } else if t > 0 && Measured(c, s', r, t - 1, true) {
      r', t', choosing' := r, t - 1, true;
    } else {
      r', t', choosing' := r, 0, false;
    }
  }

  lemma MeasureIsValid(c: Config, s: State, r: nat, t: nat, choosing: bool)
    requires Measured(c, s, r, t, choosing)
    ensures c.Valid() && (t > 0 ==> choosing)
  {
  }

  /** Cycles within which a requested refresh starts: five stages a bank and one of the multiplexer, each waiting for
      the slowest countdown and for the arbiter. */
  function RefreshBound(c: Config): nat
    requires c.Valid()
  {
    Allowance(5 * c.Nbanks() + 1, Slowest(c), true, Slowest(c))
  }

  lemma OwedBound(c: Config, s: State)
    requires WellFormed(c, s)
    ensures Owed(s) <= 5 * c.Nbanks() + 1
  {
    SumBound(BankStages(s), 5);
  }

  lemma RunBounded(c: Config, states: seq<State>, ins: seq<Input>, n: nat)
    requires IsRun(c, states, ins) && n <= |ins|
    ensures Bounded(c, states[n])
  {
    hide Bounded, Initial, Advances;
    var inv := (s: State) => Bounded(c, s);
    InitiallyBounded(c, states[0]);
    forall s: State, i: Input, s': State | inv(s) && Next(c)(s, i, s') ensures inv(s') {
      FollowsAdvances(c, s, i, s');
      BoundedStep(c, s, i, s');
    }
    ChainInvariant(Next(c), inv, states, ins, n);
  }

  /** Once the refresher waits for the banks, the multiplexer enters REFRESH within the bound, whatever the masters
      do. */
  lemma RefreshStarts(c: Config, states: seq<State>, ins: seq<Input>, n: nat)
    requires IsRun(c, states, ins) && n + RefreshBound(c) <= |ins| && states[n].ref.fsm.WaitBankMachines?
    ensures RefreshBy(states, n, RefreshBound(c))
  {
    hide Bounded, Initial, Slowest, Allowance, Measured, RefreshBy, Follows, WellFormed;
    if states[n].mux.fsm.Refresh? {
      RefreshAlready(states, n, RefreshBound(c));
    } else {
      RunBounded(c, states, ins, n);
      RunIsWellFormed(c, states, ins, n);
      WaitingMeasured(c, states[n]);
      ReachesRefresh(c, states, ins, n, 5 * c.Nbanks() + 1, Slowest(c), true);
    }
  }

  lemma RefreshAlready(states: seq<State>, k: nat, n: nat)
    requires k < |states| && states[k].mux.fsm.Refresh?
    ensures RefreshBy(states, k, n)
  {
  }

  lemma WaitingMeasured(c: Config, s: State)
    requires c.Valid() && WellFormed(c, s) && Bounded(c, s) && s.ref.fsm.WaitBankMachines? && !s.mux.fsm.Refresh?
    ensures Measured(c, s, 5 * c.Nbanks() + 1, Slowest(c), true)
  {
    hide Bounded, Within, Slowest, Owed;
    OwedBound(c, s);
    AllSlowest(c, s);
  }
}
