/** Distances between commands on every run of the controller, between any two cycles. */
module ControllerTiming {
  import opened Common
  import opened Runs
  import opened TimingControllers
  import opened Controllers
  import opened ControllerSafety
  import opened Turnarounds
  import BM = BankMachines
  import D = DramBank
  import R = Refreshers
  import M = Multiplexers
  import Steering

  // One bank ---------------------------------------------------------------------------------------

  ghost predicate BankEvent(c: Config, b: nat, kind: D.Command -> bool, s: State, i: Input) {
    Fits(c, s, i) && b < c.Nbanks() && kind(BusCommand(c, s, i, b))
  }

  lemma BankMoves(c: Config, s: State, i: Input, s': State, b: nat)
    requires Follows(c, s, i, s') && b < c.Nbanks()
    ensures s'.worlds[b].d == D.Exec(s.worlds[b].d, BusCommand(c, s, i, b))
  {
    FollowsMoves(c, s, i, s');
  }

  lemma BankDistances(c: Config, states: seq<State>, ins: seq<Input>, b: nat, i: nat, j: nat)
    requires IsRun(c, states, ins) && b < c.Nbanks() && i < j <= |ins|
    requires Fits(c, states[i], ins[i]) && WellFormed(c, states[j])
    ensures D.Remembers(states[j].worlds[b].d, BusCommand(c, states[i], ins[i], b), j - i)
  {
    var e := BusCommand(c, states[i], ins[i], b);
    if e.Act? { BankDistance(c, states, ins, b, i, j, (x: D.Command) => x.Act?, (d: D.Bank) => d.sinceAct); }
    if D.Closes(e) { BankDistance(c, states, ins, b, i, j, D.Closes, (d: D.Bank) => d.sincePre); }
    if e.Wr? { BankDistance(c, states, ins, b, i, j, (x: D.Command) => x.Wr?, (d: D.Bank) => d.sinceWr); }
  }

  lemma BankDistance(c: Config, states: seq<State>, ins: seq<Input>, b: nat, i: nat, j: nat,
                     kind: D.Command -> bool, since: D.Bank -> Since)
    requires IsRun(c, states, ins) && b < c.Nbanks() && i < j <= |ins| && WellFormed(c, states[j])
    requires BankEvent(c, b, kind, states[i], ins[i])
    requires forall d, x :: since(D.Exec(d, x)) == Elapse(since(d), kind(x))
    ensures since(states[j].worlds[b].d).Some? && since(states[j].worlds[b].d).value <= j - i
  {
    hide Step, Initial, Moves, BusCommand;
    var event := (s: State, x: Input) => BankEvent(c, b, kind, s, x);
    var measure := (s: State) => if b < |s.worlds| then since(s.worlds[b].d) else None;
    forall s: State, x: Input, s': State | Next(c)(s, x, s') ensures measure(s') == Elapse(measure(s), event(s, x)) {
      FollowsMoves(c, s, x, s');
      BankMoves(c, s, x, s', b);
    }
    ChainDistance(Next(c), event, measure, states, ins, i, j);
  }

  /** Every command a bank receives on a run is one the bank accepts at that moment. */
  lemma CommandsAreLegal(c: Config, states: seq<State>, ins: seq<Input>, b: nat, n: nat)
    requires IsRun(c, states, ins) && b < c.Nbanks() && n < |ins|
    ensures Fits(c, states[n], ins[n])
    ensures D.Legal(c.Timing(), states[n].worlds[b].d, BusCommand(c, states[n], ins[n], b))
  {
    RunInv(c, states, ins, n);
    RunCycle(c, states, ins, n);
    FollowsMoves(c, states[n], ins[n], states[n + 1]);
    BankStep(c, states[n], ins[n], states[n + 1], b);
  }

  /** Per-bank spacing on every run of the whole controller, the refresher's Precharge All included: precharge to
      activate, activate to column, activate to activate, activate to own precharge, write to any precharge. */
  lemma PerBankSpacing(c: Config, states: seq<State>, ins: seq<Input>, b: nat, i: nat, j: nat)
    requires IsRun(c, states, ins) && b < c.Nbanks() && i < j < |ins|
    ensures Fits(c, states[i], ins[i]) && Fits(c, states[j], ins[j])
    ensures D.Spacing(c.Timing(), BusCommand(c, states[i], ins[i], b), BusCommand(c, states[j], ins[j], b)) <= j - i
  {
    CommandsAreLegal(c, states, ins, b, i);
    CommandsAreLegal(c, states, ins, b, j);
    BankDistances(c, states, ins, b, i, j);
    D.LegalSpacing(c.Timing(), states[j].worlds[b].d, BusCommand(c, states[i], ins[i], b),
                   BusCommand(c, states[j], ins[j], b), j - i);
  }

  // The whole device -------------------------------------------------------------------------------

  predicate ActIssued(c: Config, s: State)
    requires c.Valid() && WellFormed(c, s)
  {
    M.ActAccepted(c.Mux(), s.mux, MuxInput(c, s))
  }

  predicate WriteIssued(c: Config, s: State)
    requires c.Valid() && WellFormed(c, s)
  {
    M.WriteAccepted(c.Mux(), s.mux, MuxInput(c, s))
  }

  predicate ReadIssued(c: Config, s: State)
    requires c.Valid() && WellFormed(c, s)
  {
    M.ReadAccepted(c.Mux(), s.mux, MuxInput(c, s))
  }

  /** The bank whose activate the multiplexer may accept. */
  function ActBank(c: Config, s: State): nat { if c.nphases == 1 then s.mux.grantReq else s.mux.grantCmd }

  lemma ActOnlyAccepted(c: Config, s: State, i: Input, b: nat)
    requires Inv(c, s) && Fits(c, s, i) && b < c.Nbanks() && BusCommand(c, s, i, b).Act?
    ensures ActIssued(c, s) && b == ActBank(c, s)
  {
    OffersShaped(c, s);
    assert BankInv(c, s, b) && Steering.Shaped(MuxInput(c, s).cmds[b]);
    BM.IssuedMeaning(c.Bank(), s.worlds[b].s, BankInput(c, s, i, b));
    assert Ready(c, s, b);
    Steering.Choices(c.Mux(), s.mux, MuxInput(c, s));
  }

  /** How the device-wide observers and the activate window move. */
  lemma TrafficMoves(c: Config, s: State, i: Input, s': State)
    requires Follows(c, s, i, s')
    ensures s'.traffic.sinceAct == Elapse(s.traffic.sinceAct, ActIssued(c, s))
    ensures s'.traffic.sinceColumn == Elapse(s.traffic.sinceColumn, ReadIssued(c, s) || WriteIssued(c, s))
    ensures s'.traffic.sinceWr == Elapse(s.traffic.sinceWr, WriteIssued(c, s))
    ensures s'.mux.tfaw == TfawStep(c.tFAW, s.mux.tfaw, ActIssued(c, s))
  {
    FollowsMoves(c, s, i, s');
  }

  lemma ActDistance(c: Config, states: seq<State>, ins: seq<Input>, i: nat, j: nat)
    requires IsRun(c, states, ins) && i < j <= |ins| && WellFormed(c, states[i]) && ActIssued(c, states[i])
    ensures states[j].traffic.sinceAct.Some? && states[j].traffic.sinceAct.value <= j - i
  {
    var event := (s: State, x: Input) => c.Valid() && WellFormed(c, s) && ActIssued(c, s);
    var since := (s: State) => s.traffic.sinceAct;
    forall s: State, x: Input, s': State | Next(c)(s, x, s') ensures since(s') == Elapse(since(s), event(s, x)) {
      TrafficMoves(c, s, x, s');
    }
    ChainDistance(Next(c), event, since, states, ins, i, j);
  }

  lemma ColumnDistance(c: Config, states: seq<State>, ins: seq<Input>, i: nat, j: nat)
    requires IsRun(c, states, ins) && i < j <= |ins|
    requires WellFormed(c, states[i]) && (ReadIssued(c, states[i]) || WriteIssued(c, states[i]))
    ensures states[j].traffic.sinceColumn.Some? && states[j].traffic.sinceColumn.value <= j - i
  {
    var event := (s: State, x: Input) => c.Valid() && WellFormed(c, s) && (ReadIssued(c, s) || WriteIssued(c, s));
    var since := (s: State) => s.traffic.sinceColumn;
    forall s: State, x: Input, s': State | Next(c)(s, x, s') ensures since(s') == Elapse(since(s), event(s, x)) {
      TrafficMoves(c, s, x, s');
    }
    ChainDistance(Next(c), event, since, states, ins, i, j);
  }

  lemma WriteDistance(c: Config, states: seq<State>, ins: seq<Input>, i: nat, j: nat)
    requires IsRun(c, states, ins) && i < j <= |ins| && WellFormed(c, states[i]) && WriteIssued(c, states[i])
    ensures states[j].traffic.sinceWr.Some? && states[j].traffic.sinceWr.value <= j - i
  {
    var event := (s: State, x: Input) => c.Valid() && WellFormed(c, s) && WriteIssued(c, s);
    var since := (s: State) => s.traffic.sinceWr;
    forall s: State, x: Input, s': State | Next(c)(s, x, s') ensures since(s') == Elapse(since(s), event(s, x)) {
      TrafficMoves(c, s, x, s');
    }
    ChainDistance(Next(c), event, since, states, ins, i, j);
  }

  /** Timers at the moment a command is accepted. */
  lemma TimersAtIssue(c: Config, s: State, i: Input)
    requires Inv(c, s) && Fits(c, s, i)
    ensures ActIssued(c, s) ==> D.AtLeastOpt(s.traffic.sinceAct, c.tRRD, 0)
    ensures ReadIssued(c, s) || WriteIssued(c, s) ==> AtLeast(s.traffic.sinceColumn, c.tCCD)
  {
    ColumnAccepted(c, s, i);
    if ActIssued(c, s) { M.ActNeedsRas(c.Mux(), s.mux, MuxInput(c, s)); }
  }

  /** Activates of any two banks are at least tRRD apart, and two banks are never activated in one cycle. */
  lemma ActivateSpacing(c: Config, states: seq<State>, ins: seq<Input>, i: nat, b: nat, j: nat, b': nat)
    requires IsRun(c, states, ins) && i <= j < |ins| && b < c.Nbanks() && b' < c.Nbanks()
    requires Fits(c, states[i], ins[i]) && BusCommand(c, states[i], ins[i], b).Act?
    requires Fits(c, states[j], ins[j]) && BusCommand(c, states[j], ins[j], b').Act?
    ensures i == j ==> b == b'
    ensures i < j && c.tRRD.Some? ==> c.tRRD.value <= j - i
  {
    hide Step, Initial, BusCommand, ActIssued;
    RunInv(c, states, ins, i);
    RunInv(c, states, ins, j);
    ActOnlyAccepted(c, states[i], ins[i], b);
    ActOnlyAccepted(c, states[j], ins[j], b');
    TimersAtIssue(c, states[j], ins[j]);
    if i < j { ActDistance(c, states, ins, i, j); }
  }

  /** What a bank told to read or write says about the multiplexer. */
  lemma ColumnAtIssue(c: Config, s: State, i: Input, b: nat)
    requires TurnInv(c, s) && Fits(c, s, i) && b < c.Nbanks() && BusCommand(c, s, i, b).Column()
    ensures s.mux.grantReq == b && (ReadIssued(c, s) || WriteIssued(c, s)) && AtLeast(s.traffic.sinceColumn, c.tCCD)
    ensures BusCommand(c, s, i, b).Wr? ==> WriteIssued(c, s)
    ensures BusCommand(c, s, i, b).Rd? ==> AtLeast(s.traffic.sinceWr, ReadGap(c))
  {
    hide TurnInv, ReadGap;
    assert Inv(c, s) by { TurnIsInv(c, s); }
    ColumnOnlyAccepted(c, s, i, b);
    TimersAtIssue(c, s, i);
    ReadsLate(c, s, i);
  }

  /** Column commands of any two banks are at least tCCD apart, and a read comes at least `ReadGap` after a write to any
      bank: one more than tWTR plus the write latency and tCCD or, if less, the time through a refresh. */
  lemma ColumnSpacing(c: Config, states: seq<State>, ins: seq<Input>, i: nat, b: nat, j: nat, b': nat)
    requires IsRun(c, states, ins) && i <= j < |ins| && b < c.Nbanks() && b' < c.Nbanks()
    requires Fits(c, states[i], ins[i]) && BusCommand(c, states[i], ins[i], b).Column()
    requires Fits(c, states[j], ins[j]) && BusCommand(c, states[j], ins[j], b').Column()
    ensures i == j ==> b == b'
    ensures i < j ==> c.tCCD <= j - i
    ensures i < j && BusCommand(c, states[i], ins[i], b).Wr? && BusCommand(c, states[j], ins[j], b').Rd? ==>
              ReadGap(c) <= j - i
  {
    hide Step, Initial, TurnInv, ReadGap, BusCommand, ReadIssued, WriteIssued, WellFormed;
    RunTurn(c, states, ins, i);
    RunTurn(c, states, ins, j);
    ColumnAtIssue(c, states[i], ins[i], b);
    ColumnAtIssue(c, states[j], ins[j], b');
    if i < j {
      ColumnDistance(c, states, ins, i, j);
      if WriteIssued(c, states[i]) { WriteDistance(c, states, ins, i, j); }
    }
  }

  // Four activates ---------------------------------------------------------------------------------

  /** Activates of the first `n` cycles. */
  ghost function ActHistory(c: Config, states: seq<State>, n: nat): (h: seq<bool>)
    requires c.Valid() && n <= |states|
    ensures |h| == n
  {
    seq(n, k requires 0 <= k < n => WellFormed(c, states[k]) && ActIssued(c, states[k]))
  }

  lemma {:induction false} HistoryMatches(c: Config, states: seq<State>, ins: seq<Input>, n: nat)
    requires IsRun(c, states, ins) && c.tFAW.Some? && n <= |ins|
    ensures TfawRun(c.tFAW.value, ActHistory(c, states, n)) == states[n].mux.tfaw
    ensures TfawGated(c.tFAW.value, ActHistory(c, states, n))
  {
    if n > 0 {
      HistoryMatches(c, states, ins, n - 1);
      RunIsWellFormed(c, states, ins, n - 1);
      RunTfaw(c, states, ins, n - 1);
      HistoryStep(c, states, n - 1);
    } else {
      HistoryStart(c, states[0]);
    }
  }

  lemma RunTfaw(c: Config, states: seq<State>, ins: seq<Input>, n: nat)
    requires IsRun(c, states, ins) && n < |ins| && WellFormed(c, states[n])
    ensures states[n + 1].mux.tfaw == TfawStep(c.tFAW, states[n].mux.tfaw, ActIssued(c, states[n]))
  {
    RunCycle(c, states, ins, n);
    TrafficMoves(c, states[n], ins[n], states[n + 1]);
  }

  lemma HistoryStart(c: Config, s: State)
    requires Initial(c, s) && c.tFAW.Some?
    ensures s.mux.tfaw == TfawReset(c.tFAW)
  {
  }

  lemma HistoryStep(c: Config, states: seq<State>, n: nat)
    requires c.Valid() && c.tFAW.Some? && n + 1 < |states| && WellFormed(c, states[n])
    requires states[n + 1].mux.tfaw == TfawStep(c.tFAW, states[n].mux.tfaw, ActIssued(c, states[n]))
    requires TfawRun(c.tFAW.value, ActHistory(c, states, n)) == states[n].mux.tfaw
    requires TfawGated(c.tFAW.value, ActHistory(c, states, n))
    ensures TfawRun(c.tFAW.value, ActHistory(c, states, n + 1)) == states[n + 1].mux.tfaw
    ensures TfawGated(c.tFAW.value, ActHistory(c, states, n + 1))
  {
    var before := ActHistory(c, states, n);
    var h := before + [ActIssued(c, states[n])];
    assert ActHistory(c, states, n + 1) == h && h[..n] == before;
    ExtendGated(c.tFAW.value, before, h, c, states[n]);
  }

  lemma ExtendGated(tfaw: pos, before: seq<bool>, h: seq<bool>, c: Config, s: State)
    requires c.Valid() && WellFormed(c, s) && h == before + [ActIssued(c, s)]
    requires TfawGated(tfaw, before) && TfawRun(tfaw, before) == s.mux.tfaw
    ensures TfawGated(tfaw, h)
  {
    if ActIssued(c, s) { M.ActNeedsRas(c.Mux(), s.mux, MuxInput(c, s)); }
    forall i | 0 <= i < |h| && h[i] ensures TfawRun(tfaw, h[..i]).ready {
      assert h[..i] == before[..i];
      if i == |before| { assert before[..i] == before; }
    }
  }

  /** Any five activates of the device, whatever their banks, span more than tFAW cycles. */
  lemma FourActivates(c: Config, states: seq<State>, ins: seq<Input>, t: seq<nat>, banks: seq<nat>)
    requires IsRun(c, states, ins) && c.tFAW.Some? && |t| == |banks| == 5
    requires forall k | 0 <= k < 5 ::
               t[k] < |ins| && banks[k] < c.Nbanks() && Fits(c, states[t[k]], ins[t[k]])
               && BusCommand(c, states[t[k]], ins[t[k]], banks[k]).Act?
    requires forall k | 0 <= k < 4 :: t[k] < t[k + 1]
    ensures t[4] - t[0] > c.tFAW.value
  {
    var n := |ins|;
    HistoryMatches(c, states, ins, n);
    var h := ActHistory(c, states, n);
    forall k | 0 <= k < 5 ensures t[k] < |h| && h[t[k]] {
      RunInv(c, states, ins, t[k]);
      ActOnlyAccepted(c, states[t[k]], ins[t[k]], banks[k]);
    }
    FourActivateWindow(c.tFAW.value, h, t);
  }

  // Refresh ----------------------------------------------------------------------------------------

  /** A refresh sequence is under way. */
  predicate Refreshing(s: State) { s.ref.fsm.DoRefresh? || s.ref.fsm.DoZqcs? }

  lemma StillRefreshing(c: Config, states: seq<State>, ins: seq<Input>, n: nat)
    requires IsRun(c, states, ins) && n < |ins|
    requires Refreshing(states[n]) && RefreshReq(c, states[n])
    ensures Refreshing(states[n + 1])
  {
    RunInv(c, states, ins, n);
    RunCycle(c, states, ins, n);
    FollowsMoves(c, states[n], ins[n], states[n + 1]);
    FsmSteps(c, states[n], ins[n], states[n + 1]);
  }

  lemma {:induction false} RefreshLasts(c: Config, states: seq<State>, ins: seq<Input>, i: nat, j: nat)
    requires IsRun(c, states, ins) && i <= j < |ins| && Refreshing(states[i])
    requires forall k | i <= k <= j :: RefreshReq(c, states[k])
    ensures Refreshing(states[j])
    decreases j
  {
    hide Initial, Follows, RefreshReq;
    if i < j {
      RefreshLasts(c, states, ins, i, j - 1);
      StillRefreshing(c, states, ins, j - 1);
    }
  }

  /** From a Precharge All until the refresher drops its request, no bank machine's command is accepted. */
  lemma RefreshExcludesCommands(c: Config, states: seq<State>, ins: seq<Input>, i: nat, j: nat, b: nat)
    requires IsRun(c, states, ins) && i <= j < |ins| && b < c.Nbanks()
    requires PreAll(c, states[i]) && forall k | i <= k <= j :: RefreshReq(c, states[k])
    ensures WellFormed(c, states[j]) && !Ready(c, states[j], b)
  {
    RunInv(c, states, ins, i);
    DeviceHearsRefresher(c, states[i]);
    R.StepInv(c.Refresher(), states[i].ref, states[i].dev, true);
    RefreshLasts(c, states, ins, i, j);
    RunInv(c, states, ins, j);
    OnlyServingAccepts(c, states[j], b);
  }

  /** Auto Refresh and ZQ calibration are issued only with every bank closed for at least tRP. */
  lemma RefreshOnlyPrecharged(c: Config, states: seq<State>, ins: seq<Input>, n: nat, b: nat)
    requires IsRun(c, states, ins) && n < |ins| && b < c.Nbanks()
    requires DeviceCommand(c, states[n]) == R.AutoRefresh || DeviceCommand(c, states[n]) == R.ZqCalibration
    ensures b < |states[n].worlds| && var d := states[n].worlds[b].d;
            d.open.None? && !d.selfClosed && d.sincePre.Some? && c.tRP <= d.sincePre.value
  {
    RunInv(c, states, ins, n);
    DeviceHearsRefresher(c, states[n]);
    assert BankInv(c, states[n], b);
  }

  lemma DeviceDistance(c: Config, states: seq<State>, ins: seq<Input>, kind: R.Command, since: R.Device -> Since,
                       i: nat, j: nat)
    requires IsRun(c, states, ins) && i < j <= |ins| && DeviceCommand(c, states[i]) == kind
    requires forall d, x :: since(R.DeviceStep(d, x)) == Elapse(since(d), x == kind)
    ensures since(states[j].dev).Some? && since(states[j].dev).value <= j - i
  {
    var event := (s: State, x: Input) => DeviceCommand(c, s) == kind;
    var measure := (s: State) => since(s.dev);
    forall s: State, x: Input, s': State | Next(c)(s, x, s') ensures measure(s') == Elapse(measure(s), event(s, x)) {
      FollowsMoves(c, s, x, s');
    }
    ChainDistance(Next(c), event, measure, states, ins, i, j);
  }

  /** The next activate of any bank comes at least tRFC after an Auto Refresh and at least tZQCS after a calibration. */
  lemma RefreshRecovery(c: Config, states: seq<State>, ins: seq<Input>, i: nat, j: nat, b: nat)
    requires IsRun(c, states, ins) && i < j < |ins| && b < c.Nbanks()
    requires Fits(c, states[j], ins[j]) && BusCommand(c, states[j], ins[j], b).Act?
    ensures DeviceCommand(c, states[i]) == R.AutoRefresh ==> c.tRFC <= j - i
    ensures DeviceCommand(c, states[i]) == R.ZqCalibration && c.tZQCS.Some? ==> c.tZQCS.value <= j - i
  {
    RunInv(c, states, ins, j);
    ActOnlyAccepted(c, states[j], ins[j], b);
    OnlyServingAccepts(c, states[j], b);
    assert states[j].ref.fsm.Idle? || states[j].ref.fsm.WaitBankMachines?;
    if DeviceCommand(c, states[i]) == R.AutoRefresh {
      DeviceDistance(c, states, ins, R.AutoRefresh, (d: R.Device) => d.sinceRef, i, j);
    }
    if DeviceCommand(c, states[i]) == R.ZqCalibration {
      DeviceDistance(c, states, ins, R.ZqCalibration, (d: R.Device) => d.sinceZq, i, j);
    }
  }
}
