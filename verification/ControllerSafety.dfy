/** What every cycle of the controller keeps: each bank machine's contract with the refresher, and refresh exclusion. */
module ControllerSafety {
  import opened Common
  import opened Runs
  import opened TimingControllers
  import opened Controllers
  import BM = BankMachines
  import D = DramBank
  import R = Refreshers
  import M = Multiplexers
  import Steering

  /** A bank that is being refreshed. */
  ghost predicate Quiet(c: Config, s: State, b: nat)
    requires b < |s.worlds|
  {
    var d := s.worlds[b].d;
    && d.open.None? && !d.selfClosed
    && d.sincePre.Some? && d.sincePre == s.dev.sincePreAll
    && AtLeast(d.sinceWr, c.Timing().tWTP + (if s.ref.fsm.DoZqcs? then c.tRP + c.tRFC else d.sincePre.value))
  }

  ghost predicate BankInv(c: Config, s: State, b: nat)
    requires c.Valid() && b < |s.worlds|
  {
    var w := s.worlds[b];
    && BM.Inv(c.Bank(), w)
    && (w.s.fsm.Refresh? ==> !s.ref.fsm.Idle?)
    && (s.mux.fsm.Refresh? ==> BM.RefreshGnt(w.s))
    && (R.Swept(s.ref) ==> Quiet(c, s, b))
  }

  /** Where the multiplexer is relative to the refresher, and how old the last write of the device is. */
  ghost predicate MuxInv(c: Config, s: State) {
    && M.TimersInv(c.Mux(), s.mux, s.traffic)
    && (s.mux.fsm.Refresh? ==> !s.ref.fsm.Idle?)
    && (s.ref.fsm.DoRefresh? || s.ref.fsm.DoZqcs? ==> s.mux.fsm.Refresh?)
    && (s.traffic.sinceWr.Some? ==>
          exists b | 0 <= b < |s.worlds| :: s.worlds[b].d.sinceWr == s.traffic.sinceWr)
  }

  ghost predicate Inv(c: Config, s: State) {
    && c.Valid() && WellFormed(c, s)
    && R.Inv(c.Refresher(), s.ref, s.dev)
    && (forall b | 0 <= b < c.Nbanks() :: BankInv(c, s, b))
    && MuxInv(c, s)
  }

  lemma InitialInv(c: Config, s: State)
    requires c.Valid() && Initial(c, s)
    ensures Inv(c, s)
  {
    forall b | 0 <= b < c.Nbanks() ensures BankInv(c, s, b) {
      assert s.worlds[b] == BM.Start(c.Bank());
    }
    if c.tFAW.Some? { OnesBounds(s.mux.tfaw.window); }
  }

  /** The refresher keeps its side of each bank machine's contract. */
  lemma ContractKept(c: Config, s: State, i: Input, b: nat)
    requires Fits(c, s, i) && Inv(c, s) && b < c.Nbanks()
    ensures BM.RefreshContract(c.Bank(), s.worlds[b], BankInput(c, s, i, b), PreAll(c, s))
  {
    assert BankInv(c, s, b);
    R.StepInv(c.Refresher(), s.ref, s.dev, s.mux.fsm.Refresh?);
  }

  // One cycle --------------------------------------------------------------------------------------

  /** The control part of a clock cycle. */
  ghost predicate Moves(c: Config, s: State, i: Input, s': State) {
    && Fits(c, s, i) && |s'.worlds| == c.Nbanks()
    && (forall b | 0 <= b < c.Nbanks() ::
          s'.worlds[b] == BM.WorldStep(c.Bank(), s.worlds[b], BankInput(c, s, i, b), PreAll(c, s)))
    && s'.ref == R.Step(c.Refresher(), s.ref, s.mux.fsm.Refresh?)
    && s'.dev == R.DeviceStep(s.dev, DeviceCommand(c, s))
    && s'.mux == M.Step(c.Mux(), s.mux, MuxInput(c, s))
    && s'.traffic == M.TrafficStep(c.Mux(), s.traffic, s.mux, MuxInput(c, s))
  }

  lemma FollowsMoves(c: Config, s: State, i: Input, s': State)
    requires Follows(c, s, i, s')
    ensures Moves(c, s, i, s') && WellFormed(c, s')
  {
  }

  /** The device receives the refresher's register whenever that holds a command and a refresh is under way. */
  lemma DeviceHearsRefresher(c: Config, s: State)
    requires Inv(c, s)
    ensures DeviceCommand(c, s) == R.Heard(s.ref)
    ensures PreAll(c, s) <==> R.Heard(s.ref) == R.PrechargeAll
    ensures R.Legal(c.Refresher(), s.dev, R.Heard(s.ref))
  {
    R.StepInv(c.Refresher(), s.ref, s.dev, s.mux.fsm.Refresh?);
  }

  lemma BankStep(c: Config, s: State, i: Input, s': State, b: nat)
    requires Inv(c, s) && Moves(c, s, i, s') && b < c.Nbanks()
    ensures BM.Inv(c.Bank(), s'.worlds[b])
    ensures BM.LegalNow(c.Bank(), s.worlds[b], BankInput(c, s, i, b), PreAll(c, s))
    ensures s'.worlds[b].s.fsm.Refresh? ==> !s'.ref.fsm.Idle?
  {
    hide BM.Inv, BM.LegalNow, BM.RefreshContract, R.Inv, R.Step, M.Step, MuxInput, MuxInv;
    assert BankInv(c, s, b);
    ContractKept(c, s, i, b);
    BM.StepInv(c.Bank(), s.worlds[b], BankInput(c, s, i, b), PreAll(c, s));
    RefreshRequested(c, s, i, s', b);
  }

  /** A bank machine enters and stays in REFRESH only while the refresher is active. */
  lemma RefreshRequested(c: Config, s: State, i: Input, s': State, b: nat)
    requires Moves(c, s, i, s') && b < c.Nbanks() && (s.worlds[b].s.fsm.Refresh? ==> !s.ref.fsm.Idle?)
    ensures s'.worlds[b].s.fsm.Refresh? ==> !s'.ref.fsm.Idle?
  {
    hide BM.Offer, BM.RowHit, BM.AutoPrechargeFlag, MuxInput, M.Step, Ready, Fits;
  }

  lemma FsmSteps(c: Config, s: State, i: Input, s': State)
    requires Inv(c, s) && Moves(c, s, i, s')
    ensures s'.mux.fsm == M.NextFsm(c.Mux(), s.mux, MuxInput(c, s))
    ensures s'.ref.fsm == R.NextFsm(c.Refresher(), s.ref, s.mux.fsm.Refresh?)
    ensures MuxInput(c, s).goToRefresh ==> !s.ref.fsm.Idle?
    ensures MuxInput(c, s).goToRefresh ==> forall b | 0 <= b < c.Nbanks() :: BM.RefreshGnt(s.worlds[b].s)
    ensures MuxInput(c, s).refreshLast == R.Last(c.Refresher(), s.ref)
  {
    assert BankInv(c, s, 0);
  }

  /** The multiplexer's FSM against the refresher's, over one cycle. */
  lemma MuxPhaseStep(c: Config, s: State, i: Input, s': State)
    requires Inv(c, s) && Moves(c, s, i, s')
    ensures s'.mux.fsm.Refresh? ==> !s'.ref.fsm.Idle? && RefreshReq(c, s)
    ensures s'.mux.fsm.Refresh? ==> forall b | 0 <= b < c.Nbanks() :: BM.RefreshGnt(s.worlds[b].s)
    ensures s'.ref.fsm.DoRefresh? || s'.ref.fsm.DoZqcs? ==> s'.mux.fsm.Refresh?
  {
    hide Moves, BM.Inv, R.Inv, R.Step, M.Step, M.TimersInv, MuxInput, BM.RefreshGnt, Quiet;
    FsmSteps(c, s, i, s');
    if s.mux.fsm.Refresh? {
      forall b | 0 <= b < c.Nbanks() ensures BM.RefreshGnt(s.worlds[b].s) { assert BankInv(c, s, b); }
    }
  }

  /** While the multiplexer refreshes, every bank keeps granting. */
  lemma GrantStep(c: Config, s: State, i: Input, s': State, b: nat)
    requires Inv(c, s) && Moves(c, s, i, s') && b < c.Nbanks() && s'.mux.fsm.Refresh?
    ensures BM.RefreshGnt(s'.worlds[b].s)
  {
    MuxPhaseStep(c, s, i, s');
    BM.RefreshHolds(c.Bank(), s.worlds[b].s, BankInput(c, s, i, b));
  }

  /** A bank under refresh receives nothing but Precharge All. */
  lemma RefreshingBank(c: Config, s: State, i: Input, s': State, b: nat)
    requires Inv(c, s) && Moves(c, s, i, s') && b < c.Nbanks() && s.mux.fsm.Refresh?
    ensures s'.worlds[b].d == D.Exec(s.worlds[b].d, if s.ref.cmd == R.PrechargeAll then D.PreAll else D.Nop)
    ensures s.ref.cmd == R.PrechargeAll ==> AtLeast(s.worlds[b].d.sinceWr, c.Timing().tWTP)
  {
    assert BankInv(c, s, b);
    BM.RefreshHolds(c.Bank(), s.worlds[b].s, BankInput(c, s, i, b));
    DeviceHearsRefresher(c, s);
    BankStep(c, s, i, s', b);
  }

  lemma QuietStep(c: Config, s: State, i: Input, s': State, b: nat)
    requires Inv(c, s) && Moves(c, s, i, s') && b < c.Nbanks() && R.Swept(s'.ref)
    ensures Quiet(c, s', b)
  {
    R.SweptStep(c.Refresher(), s.ref, s.dev, s.mux.fsm.Refresh?);
    RefreshingBank(c, s, i, s', b);
    DeviceHearsRefresher(c, s);
    assert BankInv(c, s, b);
  }

  /** No bank machine's command is accepted outside READ and WRITE. */
  lemma OnlyServingAccepts(c: Config, s: State, b: nat)
    requires c.Valid() && WellFormed(c, s) && b < c.Nbanks()
    ensures Ready(c, s, b) ==> M.Serving(s.mux)
  {
  }

  lemma OffersShaped(c: Config, s: State)
    requires c.Valid() && |s.worlds| == c.Nbanks()
    ensures Steering.AllShaped(MuxInput(c, s))
  {
    forall b | 0 <= b < c.Nbanks() ensures Steering.Shaped(MuxInput(c, s).cmds[b]) {
      Steering.OffersAreShaped(c.Bank(), s.worlds[b].s, RefreshReq(c, s));
    }
  }

  /** The column command the multiplexer accepts in this cycle: the bank and whether it writes. */
  lemma ColumnAccepted(c: Config, s: State, i: Input)
    requires Inv(c, s) && Fits(c, s, i)
    ensures var b := s.mux.grantReq;
            && (M.WriteAccepted(c.Mux(), s.mux, MuxInput(c, s)) ==> BusCommand(c, s, i, b).Wr? && !s.mux.fsm.Read?)
            && (M.ReadAccepted(c.Mux(), s.mux, MuxInput(c, s)) ==> BusCommand(c, s, i, b).Rd? && s.mux.fsm.Read?)
  {
    OffersShaped(c, s);
    var b := s.mux.grantReq;
    assert BankInv(c, s, b) && Steering.Shaped(MuxInput(c, s).cmds[b]);
    BM.IssuedMeaning(c.Bank(), s.worlds[b].s, BankInput(c, s, i, b));
  }

  /** A bank is told to read or write only when the multiplexer accepted that bank's column command. */
  lemma ColumnOnlyAccepted(c: Config, s: State, i: Input, b: nat)
    requires Inv(c, s) && Fits(c, s, i) && b < c.Nbanks()
    ensures BusCommand(c, s, i, b).Wr? ==> M.WriteAccepted(c.Mux(), s.mux, MuxInput(c, s)) && s.mux.grantReq == b
    ensures BusCommand(c, s, i, b).Rd? ==> M.ReadAccepted(c.Mux(), s.mux, MuxInput(c, s)) && s.mux.grantReq == b
  {
    OffersShaped(c, s);
    assert BankInv(c, s, b) && Steering.Shaped(MuxInput(c, s).cmds[b]);
    assert Steering.Shaped(MuxInput(c, s).cmds[s.mux.grantCmd]);
    BM.IssuedMeaning(c.Bank(), s.worlds[b].s, BankInput(c, s, i, b));
    if Ready(c, s, b) { Steering.Choices(c.Mux(), s.mux, MuxInput(c, s)); }
  }

  lemma LastWriteStep(c: Config, s: State, i: Input, s': State)
    requires Inv(c, s) && Moves(c, s, i, s')
    ensures s'.traffic.sinceWr.Some? ==>
              exists b | 0 <= b < c.Nbanks() :: s'.worlds[b].d.sinceWr == s'.traffic.sinceWr
  {
    ColumnAccepted(c, s, i);
    if M.WriteAccepted(c.Mux(), s.mux, MuxInput(c, s)) {
      assert s'.worlds[s.mux.grantReq].d.sinceWr == Some(1);
    } else if s.traffic.sinceWr.Some? {
      var b :| 0 <= b < c.Nbanks() && s.worlds[b].d.sinceWr == s.traffic.sinceWr;
      ColumnOnlyAccepted(c, s, i, b);
      assert s'.worlds[b].d.sinceWr == s'.traffic.sinceWr;
    }
  }

  lemma StepInv(c: Config, s: State, i: Input, s': State)
    requires Inv(c, s) && Follows(c, s, i, s')
    ensures Inv(c, s')
  {
    FollowsMoves(c, s, i, s');
    DeviceHearsRefresher(c, s);
    R.StepInv(c.Refresher(), s.ref, s.dev, s.mux.fsm.Refresh?);
    M.TimersStepInv(c.Mux(), s.mux, s.traffic, MuxInput(c, s));
    MuxPhaseStep(c, s, i, s');
    LastWriteStep(c, s, i, s');
    forall b | 0 <= b < c.Nbanks() ensures BankInv(c, s', b) {
      BankStep(c, s, i, s', b);
      if s'.mux.fsm.Refresh? { GrantStep(c, s, i, s', b); }
      if R.Swept(s'.ref) { QuietStep(c, s, i, s', b); }
    }
  }

  /** Every state of every run is safe. */
  lemma RunInv(c: Config, states: seq<State>, ins: seq<Input>, n: nat)
    requires IsRun(c, states, ins) && n <= |ins|
    ensures Inv(c, states[n])
  {
    var inv := (s: State) => Inv(c, s);
    InitialInv(c, states[0]);
    forall s: State, i: Input, s': State | inv(s) && Next(c)(s, i, s') ensures inv(s') {
      StepInv(c, s, i, s');
    }
    ChainInvariant(Next(c), inv, states, ins, n);
  }

  /** A clock cycle from a safe state. */
  ghost function SafeNext(c: Config): (State, Input, State) -> bool {
    (s, i, s') => Inv(c, s) && Follows(c, s, i, s')
  }

  lemma RunIsSafe(c: Config, states: seq<State>, ins: seq<Input>)
    requires IsRun(c, states, ins)
    ensures Chain(SafeNext(c), states, ins)
  {
    forall n | 0 <= n < |ins| ensures SafeNext(c)(states[n], ins[n], states[n + 1]) {
      RunInv(c, states, ins, n);
      RunCycle(c, states, ins, n);
    }
  }
}
