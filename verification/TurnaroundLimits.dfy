/** The least distance from a write to a read is attained: by the multiplexer turning round, and by a refresh that
    follows the write at once. */
module TurnaroundLimits {
  import opened Common
  import opened Runs
  import opened TimingControllers
  import opened Controllers
  import opened ControllerSafety
  import opened ControllerTiming
  import opened Turnarounds
  import opened SoloRuns
  import opened LatencyLimits
  import A = AddressPath
  import BM = BankMachines
  import M = Multiplexers
  import R = Refreshers
  import X = Crossbars
  import RefreshProgress

  // The calibration timer --------------------------------------------------------------------------

  /** The calibration timer after `n` cycles from reset without a calibration. */
  function Calibration(c: Config, n: nat): nat {
    if n == 0 then c.zqcsPeriod - 1 else R.TimerStep(Calibration(c, n - 1), c.zqcsPeriod, true)
  }

  /** It is not due in two cycles running. */
  lemma CalibrationsApart(c: Config, n: nat)
    requires c.zqcsPeriod > 1 && Calibration(c, n + 1) == 0
    ensures Calibration(c, n) != 0
  {
  }

  // Banks giving way -------------------------------------------------------------------------------

  /** All banks are in REFRESH, bank 0 with a read waiting; rows may be opened at once afterwards. */
  ghost predicate Given(c: Config, s: State) {
    && c.Valid() && WellFormed(c, s) && !s.ref.fsm.Idle?
    && (s.mux.fsm.Write? || s.mux.fsm.Refresh?)
    && s.mux.grantCmd == 0 && s.mux.grantReq == 0 && s.xbar.grants[0] == 0
    && (forall b | 0 <= b < c.Nbanks() :: GivenBank(s, b))
    && WritesTracked(c, s) && RowsReady(s)
  }

  ghost predicate GivenBank(s: State, b: nat)
    requires b < |s.worlds|
  {
    var w := s.worlds[b].s;
    && w.fsm.Refresh? && w.lookahead == [] && w.buffer == (if b == 0 then Some(HomeRead) else None)
    && (b > 0 ==> w.twtp.ready)
  }

  /** What bank `b` offers and is asked while it has given way. */
  lemma GivenOffers(c: Config, s: State)
    requires Given(c, s)
    ensures forall b | 0 <= b < c.Nbanks() :: !MuxInput(c, s).cmds[b].valid
    ensures !M.ReadAvailable(MuxInput(c, s)) && !M.WriteAvailable(MuxInput(c, s))
    ensures MuxInput(c, s).goToRefresh <==> s.worlds[0].s.twtp.ready
  {
    forall b: nat | b < c.Nbanks()
      ensures !MuxInput(c, s).cmds[b].valid && !MuxInput(c, s).cmds[b].isRead && !MuxInput(c, s).cmds[b].isWrite
    {
      assert GivenBank(s, b);
    }
    assert GivenBank(s, 0);
    if s.worlds[0].s.twtp.ready {
      forall b | 0 <= b < |s.worlds| ensures BM.RefreshGnt(s.worlds[b].s) { assert GivenBank(s, b); }
    }
  }

  lemma NothingPresented(c: Config, s: State, enable: bool, b: nat)
    requires Fits(c, s, Frame(c, None, enable)) && b < c.Nbanks()
    ensures BankInput(c, s, Frame(c, None, enable), b) == BM.Input(None, RefreshReq(c, s), Ready(c, s, b))
  {
    hide MuxInput, M.BankReady, A.AddressOf, A.BankOf, A.RcaOf;
  }

  /** Nothing is accepted while all banks have given way. */
  lemma GivenSilent(c: Config, s: State, b: nat)
    requires Given(c, s) && b < c.Nbanks()
    ensures !M.ActAccepted(c.Mux(), s.mux, MuxInput(c, s)) && !M.ReadAccepted(c.Mux(), s.mux, MuxInput(c, s))
    ensures !M.WriteAccepted(c.Mux(), s.mux, MuxInput(c, s)) && !Ready(c, s, b)
  {
    hide MuxInput;
    GivenOffers(c, s);
  }

  /** The multiplexer while all banks have given way. */
  lemma GivenMux(c: Config, s: State)
    requires Given(c, s)
    ensures var m := M.Step(c.Mux(), s.mux, MuxInput(c, s));
            && m.grantCmd == 0 && m.grantReq == 0
            && m.fsm == (if s.mux.fsm.Write? then if s.worlds[0].s.twtp.ready then M.Refresh else M.Write
                         else if R.Last(c.Refresher(), s.ref) then M.Read else M.Refresh)
            && (M.RasAllowed(s.mux) ==> M.RasAllowed(m))
            && m.tccd == TxxStep(Some(c.tCCD), s.mux.tccd, false)
            && m.twtr == TxxStep(Some(c.Mux().tWTR), s.mux.twtr, false)
  {
    hide MuxInput, M.ActAccepted, M.ReadAccepted, M.WriteAccepted, M.ReadAvailable, M.WriteAvailable, M.CmdReady,
         M.ReqReady;
    GivenOffers(c, s);
    GivenSilent(c, s, 0);
    assert MuxInput(c, s).refreshLast == R.Last(c.Refresher(), s.ref) by { LastOf(c, s); }
  }

  lemma LastOf(c: Config, s: State)
    requires c.Valid() && |s.worlds| == c.Nbanks()
    ensures MuxInput(c, s).refreshLast == R.Last(c.Refresher(), s.ref)
  {
  }

  /** A bank that has given way stays, or returns when the request is dropped, with its row closed. */
  lemma GivenBankStep(c: Config, s: State, enable: bool, s': State, b: nat)
    requires Given(c, s) && Moves(c, s, Frame(c, None, enable), s') && b < c.Nbanks()
    ensures RefreshReq(c, s) ==> GivenBank(s', b)
    ensures !RefreshReq(c, s) ==>
              && s'.worlds[b].s == s'.worlds[b].s.(fsm := BM.Regular, rowOpened := false, lookahead := [],
                                                  buffer := if b == 0 then Some(HomeRead) else None)
    ensures s'.worlds[b].s.twtp == TxxStep(Some(c.Timing().tWTP), s.worlds[b].s.twtp, false)
    ensures s'.worlds[b].s.trc == TxxStep(c.tRC, s.worlds[b].s.trc, false)
  {
    hide MuxInput, Ready, Frame, M.Step, R.Step, A.Row;
    assert GivenBank(s, b);
    GivenSilent(c, s, b);
    NothingPresented(c, s, enable, b);
  }

  lemma TrafficTurns(c: Config, s: State, enable: bool, s': State)
    requires Given(c, s) && Moves(c, s, Frame(c, None, enable), s')
    ensures forall j: nat | Wrote(s, j) :: Wrote(s', j + 1)
    ensures s'.traffic.sinceWr == Elapse(s.traffic.sinceWr, false)
    ensures s'.traffic.sinceColumn == Elapse(s.traffic.sinceColumn, false)
    ensures s'.mux == M.Step(c.Mux(), s.mux, MuxInput(c, s))
  {
    hide MuxInput, Frame, M.Step, R.Step, BM.Step, M.ReadAccepted, M.WriteAccepted;
    GivenSilent(c, s, 0);
  }

  /** While refresh is requested, all banks keep giving way. */
  lemma GivenStep(c: Config, s: State, enable: bool, s': State)
    requires Given(c, s) && Follows(c, s, Frame(c, None, enable), s') && RefreshReq(c, s)
    ensures Given(c, s') && forall j: nat | Wrote(s, j) :: Wrote(s', j + 1)
    ensures s'.mux.fsm == if s.mux.fsm.Write? && !s.worlds[0].s.twtp.ready then M.Write else M.Refresh
  {
    hide Step, MuxInput, M.Step, BM.Step, GivenBank, TxxStep, R.Last, Frame, TxxTracks;
    FollowsMoves(c, s, Frame(c, None, enable), s');
    TrafficTurns(c, s, enable, s');
    GivenMux(c, s);
    RequestedNotLast(c, s);
    OwnerStaysPut(c, s, enable, s');
    forall b | 0 <= b < c.Nbanks() ensures GivenBank(s', b) { GivenBankStep(c, s, enable, s', b); }
    GivenBankStep(c, s, enable, s', 0);
    StillRequested(c, s, enable, s');
    TxxStepTracks(Some(c.Timing().tWTP), s.worlds[0].s.twtp, s.traffic.sinceWr, false);
    TxxStepTracks(Some(c.Mux().tWTR), s.mux.twtr, s.traffic.sinceWr, false);
    TxxStepTracks(Some(c.tCCD), s.mux.tccd, s.traffic.sinceColumn, false);
    ReadyKept(c.tRC, s.worlds[0].s.trc);
  }

  lemma ReadyKept(txxd: Option<pos>, x: Txx)
    ensures x.ready ==> TxxStep(txxd, x, false).ready
  {
  }

  lemma RequestedNotLast(c: Config, s: State)
    requires RefreshReq(c, s)
    ensures !R.Last(c.Refresher(), s.ref)
  {
  }

  lemma StillRequested(c: Config, s: State, enable: bool, s': State)
    requires Moves(c, s, Frame(c, None, enable), s') && RefreshReq(c, s)
    ensures !s'.ref.fsm.Idle?
  {
  }

  lemma OwnerStaysPut(c: Config, s: State, enable: bool, s': State)
    requires Follows(c, s, Frame(c, None, enable), s') && s.xbar.grants[0] == 0
    ensures s'.xbar.grants[0] == 0
  {
    hide BankSide;
    OwnerOf(c, s, Frame(c, None, enable), s');
    NextOwner(c, s, enable);
  }

  lemma NextOwner(c: Config, s: State, enable: bool)
    requires Fits(c, s, Frame(c, None, enable)) && s.xbar.grants[0] == 0
    ensures X.NextBankGrant(c.Crossbar(), s.xbar, Cmds(Frame(c, None, enable)), BankSide(c, s), 0) == 0
  {
    hide A.AddressOf, A.BankOf, A.RcaOf, BankSide;
  }

  /** When the request is dropped, reads are served again, and only bank 0 has anything to do. */
  lemma GivenEnds(c: Config, s: State, enable: bool, s': State)
    requires Given(c, s) && Follows(c, s, Frame(c, None, enable), s') && R.Last(c.Refresher(), s.ref)
    requires s.mux.fsm.Refresh? && s'.ref.fsm.Idle?
    ensures Alone(c, s') && Seen(s', BM.Regular, None, [], Some(HomeRead), M.Read) && RowsReady(s')
    ensures forall j: nat | Wrote(s, j) :: Wrote(s', j + 1)
  {
    hide Step, MuxInput, M.Step, BM.Step, GivenBank, TxxStep, R.Last, Frame, TxxTracks;
    FollowsMoves(c, s, Frame(c, None, enable), s');
    TrafficTurns(c, s, enable, s');
    GivenMux(c, s);
    LastNotRequested(c, s);
    OwnerStaysPut(c, s, enable, s');
    GivenBankStep(c, s, enable, s', 0);
    forall b: nat | 0 < b < c.Nbanks() ensures Unused(s'.worlds[b].s) { GivenBankStep(c, s, enable, s', b); }
    TxxStepTracks(Some(c.Timing().tWTP), s.worlds[0].s.twtp, s.traffic.sinceWr, false);
    TxxStepTracks(Some(c.Mux().tWTR), s.mux.twtr, s.traffic.sinceWr, false);
    TxxStepTracks(Some(c.tCCD), s.mux.tccd, s.traffic.sinceColumn, false);
    ReadyKept(c.tRC, s.worlds[0].s.trc);
  }

  lemma LastNotRequested(c: Config, s: State)
    requires R.Last(c.Refresher(), s.ref)
    ensures !RefreshReq(c, s)
  {
  }

  // Into the refresh -------------------------------------------------------------------------------

  /** The other banks' write recovery has run out. */
  ghost predicate OthersWithin(c: Config, s: State, k: nat) {
    forall b | 0 < b < |s.worlds| :: RefreshProgress.TxxWithin(Some(c.Timing().tWTP), s.worlds[b].s.twtp, k)
  }

  lemma OthersStep(c: Config, s: State, request: Option<BM.Request>, enable: bool, s': State, k: nat)
    requires Alone(c, s) && InBank(c, request) && Follows(c, s, Frame(c, request, enable), s')
    requires RefreshProgress.Bounded(c, s) && OthersWithin(c, s, k)
    ensures OthersWithin(c, s', Less(k, 1))
  {
    hide Step, TxxStep, RefreshProgress.TxxWithin, RefreshProgress.TxxOk, Frame, MuxInput, M.Step, R.Step;
    FollowsMoves(c, s, Frame(c, request, enable), s');
    forall b | 0 < b < |s'.worlds|
      ensures RefreshProgress.TxxWithin(Some(c.Timing().tWTP), s'.worlds[b].s.twtp, Less(k, 1))
    {
      OtherStep(c, s, request, enable, s', b);
      RefreshProgress.TxxIdle(Some(c.Timing().tWTP), s.worlds[b].s.twtp, k);
    }
  }

  lemma OtherStep(c: Config, s: State, request: Option<BM.Request>, enable: bool, s': State, b: nat)
    requires Alone(c, s) && InBank(c, request) && Moves(c, s, Frame(c, request, enable), s') && 0 < b < c.Nbanks()
    ensures s'.worlds[b].s.twtp == TxxStep(Some(c.Timing().tWTP), s.worlds[b].s.twtp, false)
  {
    hide MuxInput, Ready, Frame, M.Step, R.Step, TxxStep;
    SoloRequest(c, s, request, enable, b);
  }

  /** The read is queued, or in the buffer. */
  predicate ReadWaits(queue: seq<BM.Request>, buffer: Option<BM.Request>) {
    (queue == [HomeRead] && buffer == None) || (queue == [] && buffer == Some(HomeRead))
  }

  /** With refresh requested, a bank with a read waiting gives way, and so do all others. */
  lemma GiveWay(c: Config, s: State, enable: bool, s': State, queue: seq<BM.Request>, buffer: Option<BM.Request>)
    requires Solo(c, s) && s.ref.fsm.WaitBankMachines? && OthersWithin(c, s, 0) && RowsReady(s)
    requires Seen(s, BM.Regular, Some(0), queue, buffer, M.Write) && ReadWaits(queue, buffer)
    requires Follows(c, s, Frame(c, None, enable), s')
    ensures Given(c, s') && s'.mux.fsm.Write? && s'.ref.fsm.WaitBankMachines?
    ensures forall j: nat | Wrote(s, j) :: Wrote(s', j + 1)
  {
    hide Step, MuxInput, M.Step, BM.Step, GivenBank, TxxStep, Frame, TxxTracks, RefreshProgress.TxxWithin;
    FollowsMoves(c, s, Frame(c, None, enable), s');
    WaitingSilent(c, s);
    WaitingMux(c, s, enable, s');
    OwnerStaysPut(c, s, enable, s');
    forall b | 0 <= b < c.Nbanks() ensures GivenBank(s', b) { WaitingBank(c, s, enable, s', b, queue, buffer); }
    WaitingBank(c, s, enable, s', 0, queue, buffer);
    TxxStepTracks(Some(c.Timing().tWTP), s.worlds[0].s.twtp, s.traffic.sinceWr, false);
    TxxStepTracks(Some(c.Mux().tWTR), s.mux.twtr, s.traffic.sinceWr, false);
    TxxStepTracks(Some(c.tCCD), s.mux.tccd, s.traffic.sinceColumn, false);
    ReadyKept(c.tRC, s.worlds[0].s.trc);
  }

  /** With refresh requested and no bank busy, nothing is offered. */
  lemma WaitingSilent(c: Config, s: State)
    requires Solo(c, s) && s.ref.fsm.WaitBankMachines? && s.worlds[0].s.fsm.Regular?
    ensures RefreshReq(c, s) && !MuxInput(c, s).goToRefresh
    ensures forall b | 0 <= b < c.Nbanks() :: !MuxInput(c, s).cmds[b].valid
    ensures !M.ReadAvailable(MuxInput(c, s)) && !M.WriteAvailable(MuxInput(c, s))
  {
    forall b: nat | b < c.Nbanks()
      ensures !MuxInput(c, s).cmds[b].valid && !MuxInput(c, s).cmds[b].isRead && !MuxInput(c, s).cmds[b].isWrite
    {
      assert b > 0 ==> Unused(s.worlds[b].s);
    }
    assert !BM.RefreshGnt(s.worlds[0].s);
  }

  lemma WaitingMux(c: Config, s: State, enable: bool, s': State)
    requires Solo(c, s) && s.ref.fsm.WaitBankMachines? && s.worlds[0].s.fsm.Regular? && s.mux.fsm.Write?
    requires Moves(c, s, Frame(c, None, enable), s')
    ensures s'.mux.grantCmd == 0 && s'.mux.grantReq == 0 && s'.mux.fsm.Write? && s'.ref.fsm.WaitBankMachines?
    ensures M.RasAllowed(s.mux) ==> M.RasAllowed(s'.mux)
    ensures s'.mux.tccd == TxxStep(Some(c.tCCD), s.mux.tccd, false)
    ensures s'.mux.twtr == TxxStep(Some(c.Mux().tWTR), s.mux.twtr, false)
    ensures s'.traffic.sinceWr == Elapse(s.traffic.sinceWr, false)
    ensures s'.traffic.sinceColumn == Elapse(s.traffic.sinceColumn, false)
  {
    hide MuxInput, Frame, BM.Step;
    WaitingSilent(c, s);
  }

  lemma WaitingBank(c: Config, s: State, enable: bool, s': State, b: nat, queue: seq<BM.Request>,
                    buffer: Option<BM.Request>)
    requires Solo(c, s) && s.ref.fsm.WaitBankMachines? && OthersWithin(c, s, 0)
    requires Seen(s, BM.Regular, Some(0), queue, buffer, M.Write) && ReadWaits(queue, buffer)
    requires Moves(c, s, Frame(c, None, enable), s') && b < c.Nbanks()
    ensures GivenBank(s', b)
    ensures s'.worlds[b].s.twtp == TxxStep(Some(c.Timing().tWTP), s.worlds[b].s.twtp, false)
    ensures s'.worlds[b].s.trc == TxxStep(c.tRC, s.worlds[b].s.trc, false)
  {
    hide MuxInput, Ready, Frame, M.Step, R.Step, A.Row;
    WaitingSilent(c, s);
    NothingPresented(c, s, enable, b);
    assert b > 0 ==> Unused(s.worlds[b].s);
  }

  // The trial --------------------------------------------------------------------------------------

  /** The write is issued in the cycle in which the first refresh is wanted, or in the cycle before when a calibration
      would follow that refresh. */
  function Written(c: Config): nat {
    if c.tZQCS.Some? && Calibration(c, FirstDue(c) + RefreshSpan(c) - 1) == 0 then FirstDue(c) - 1 else FirstDue(c)
  }

  /** The cycle of the read. */
  function Reads(c: Config): nat { Written(c) + RefreshSpan(c) + 1 + c.tRCD }

  /** The last cycle of the refresh. */
  function Ends(c: Config): nat { Written(c) + RefreshSpan(c) - 1 }

  lemma NotCalibrating(c: Config)
    requires c.tZQCS.Some? && c.zqcsPeriod > 1
    ensures Calibration(c, Ends(c)) != 0
  {
    hide RefreshSpan, FirstDue, Calibration;
    if Written(c) < FirstDue(c) { CalibrationsApart(c, Ends(c)); }
  }

  lemma WrittenWhenDue(c: Config)
    ensures FirstDue(c) - 1 <= Written(c) <= FirstDue(c)
  {
    hide Calibration, FirstDue;
  }

  /** The calibration timer has run from reset. */
  ghost predicate Ticking(t: Trial, n: nat) {
    n < |t.states| && (t.c.tZQCS.Some? ==> t.states[n].ref.zqcsTimer == Calibration(t.c, n))
  }

  /** A trial from reset with a refresh right after its write. */
  ghost predicate Interrupted(t: Trial) {
    && t.c.Valid() && t.c.cwl > 0 && t.c.withRefresh && (t.c.tZQCS.Some? ==> t.c.zqcsPeriod > 1)
    && FromReset(t) && Served(t.c, t.first) == Written(t.c) && Trying(t, HomeRead, Written(t.c))
    && |t.ins| == Reads(t.c) + 1 && |t.ins| < 2 * FirstDue(t.c)
    && OthersWithin(t.c, t.states[Written(t.c)], 0)
  }

  lemma TimersStep(c: Config, s: State, i: Input, s': State)
    requires Inv(c, s) && Follows(c, s, i, s') && !s.ref.fsm.DoZqcs?
    ensures c.tZQCS.Some? ==> s'.ref.zqcsTimer == R.TimerStep(s.ref.zqcsTimer, c.zqcsPeriod, true)
  {
    hide BankInv, MuxInv, M.Step, BM.Step;
    FollowsMoves(c, s, i, s');
  }

  lemma TickingStep(t: Trial, n: nat)
    requires t.Valid() && n < |t.ins| && Ticking(t, n) && !t.states[n].ref.fsm.DoZqcs?
    ensures Ticking(t, n + 1)
  {
    hide Initial, Step, Frame, Follows, Inv;
    RunInv(t.c, t.states, t.ins, n);
    RunCycle(t.c, t.states, t.ins, n);
    TimersStep(t.c, t.states[n], t.ins[n], t.states[n + 1]);
  }

  lemma {:induction false} Calibrates(t: Trial, n: nat)
    requires t.Valid() && FromReset(t) && n <= |t.ins| && forall j: nat | j < n :: Resting(t, j)
    ensures Ticking(t, n)
  {
    hide Initial, Step, Frame, Follows, Inv, FromReset;
    if n == 0 {
      ResetCalibrates(t);
    } else {
      Calibrates(t, n - 1);
      assert Resting(t, n - 1);
      TickingStep(t, n - 1);
    }
  }

  lemma ResetCalibrates(t: Trial)
    requires FromReset(t)
    ensures Ticking(t, 0)
  {
  }

  // The write and what follows ---------------------------------------------------------------------

  /** The write is taken, although the refresher wakes up in the same cycle. */
  lemma WriteTaken(c: Config, s: State, s': State)
    requires Alone(c, s) && Solo(c, s') && BankTurn(c, s, Some(HomeRead), s') && MuxTurn(c, s, s')
    requires Seen(s, BM.Regular, Some(A.Row(c.Slicer(), Home.address)), [], Some(Home), M.Write) && AllReady(s)
    ensures Taken(c, s) && Accessing(c, s)
    ensures Seen(s', BM.Regular, Some(A.Row(c.Slicer(), Home.address)), [HomeRead], None, M.Write)
    ensures Wrote(s', 1) && RowsReady(s')
  {
    hide A.Row;
  }

  /** A bank about to load the read does so, although the refresher wakes up in the same cycle. */
  lemma ReadLoads(c: Config, s: State, s': State, j: nat)
    requires Alone(c, s) && Solo(c, s') && BankTurn(c, s, None, s') && MuxTurn(c, s, s')
    requires Seen(s, BM.Regular, Some(0), [HomeRead], None, M.Write) && Wrote(s, j) && RowsReady(s)
    ensures Seen(s', BM.Regular, Some(0), [], Some(HomeRead), M.Write) && Wrote(s', j + 1) && RowsReady(s')
  {
    hide A.Row;
  }

  lemma Wakes(c: Config, s: State, i: Input, s': State)
    requires Follows(c, s, i, s') && s.ref.fsm.Idle? && s.ref.wantsRefresh && c.withRefresh
    ensures s'.ref.fsm.WaitBankMachines?
  {
    FollowsMoves(c, s, i, s');
  }

  /** The refresher rests until its first refresh is wanted, and asks for it in the next cycle. */
  lemma WakesWhenDue(t: Trial)
    requires Interrupted(t)
    ensures FirstDue(t.c) < |t.ins| && Resting(t, FirstDue(t.c))
    ensures t.states[FirstDue(t.c) + 1].ref.fsm.WaitBankMachines?
  {
    hide Initial, Step, Frame, Follows, FirstDue, RefreshProgress.Slowest, FromReset, Resting, Plan, Written,
         OthersWithin;
    var k := FirstDue(t.c);
    WrittenWhenDue(t.c);
    RestsUntilDue(t, k);
    RunsDue(t, k);
    RunCycle(t.c, t.states, t.ins, k);
    DueWakes(t, k);
  }

  lemma DueWakes(t: Trial, k: nat)
    requires k < |t.ins| < |t.states| && Resting(t, k) && Due(t.c, t.states[k], k) && k == FirstDue(t.c)
    requires Follows(t.c, t.states[k], t.ins[k], t.states[k + 1]) && t.c.withRefresh
    ensures t.states[k + 1].ref.fsm.WaitBankMachines?
  {
    hide Follows, FirstDue, Counting;
    Wakes(t.c, t.states[k], t.ins[k], t.states[k + 1]);
  }

  /** Bank 0 after the write, its next request a read. */
  ghost predicate Pending(t: Trial, n: nat, queue: seq<BM.Request>, buffer: Option<BM.Request>) {
    && t.c.Valid() && Written(t.c) < n < |t.states| && Solo(t.c, t.states[n])
    && Seen(t.states[n], BM.Regular, Some(0), queue, buffer, M.Write)
    && Wrote(t.states[n], n - Written(t.c)) && RowsReady(t.states[n]) && OthersWithin(t.c, t.states[n], 0)
    && Ticking(t, n)
  }

  /** One cycle after the write the read is queued. */
  lemma WriteServed(t: Trial)
    requires Interrupted(t)
    ensures Issues(t, Written(t.c), Home) && Pending(t, Written(t.c) + 1, [HomeRead], None)
  {
    hide Initial, Step, Frame, RefreshProgress.Slowest, Solo, BankTurn, MuxTurn, Silent, A.Row, RowsReady, Reads,
         OthersWithin, Ticking, RefreshProgress.Bounded, Written, FromReset;
    var k := Written(t.c);
    RowOfHome(t.c);
    SecondHolds(t, HomeRead, k);
    Silence(t, HomeRead, k);
    ServedIsPaced(t, k, Home);
    RunCycle(t.c, t.states, t.ins, k);
    AloneStays(t.c, t.states[k], t.plan(k), k == t.on, t.states[k + 1]);
    WriteTaken(t.c, t.states[k], t.states[k + 1]);
    RefreshProgress.RunBounded(t.c, t.states, t.ins, k);
    OthersStep(t.c, t.states[k], t.plan(k), k == t.on, t.states[k + 1], 0);
    Calibrates(t, k);
    TickingStep(t, k);
  }

  /** When the refresher first asks, the read is queued or in the buffer. */
  lemma ReadPending(t: Trial) returns (queue: seq<BM.Request>, buffer: Option<BM.Request>)
    requires Interrupted(t)
    ensures Pending(t, FirstDue(t.c) + 1, queue, buffer) && ReadWaits(queue, buffer)
  {
    hide Initial, Step, Frame, RefreshProgress.Slowest, Solo, BankTurn, MuxTurn, Silent, A.Row, RowsReady, Reads,
         OthersWithin, Ticking, RefreshProgress.Bounded, Written, FromReset, FirstDue, Trying, Wrote, Follows, Seen;
    InterruptedLengths(t);
    WrittenWhenDue(t.c);
    WriteServed(t);
    queue, buffer := [HomeRead], None;
    var n := FirstDue(t.c);
    if n == Written(t.c) + 1 {
      WakesWhenDue(t);
      QuietAfter(t, n);
      PendingIsAlone(t, n);
      AloneStays(t.c, t.states[n], None, n == t.on, t.states[n + 1]);
      ReadLoads(t.c, t.states[n], t.states[n + 1], 1);
      RefreshProgress.RunBounded(t.c, t.states, t.ins, n);
      OthersStep(t.c, t.states[n], None, n == t.on, t.states[n + 1], 0);
      TickingStep(t, n);
      queue, buffer := [], Some(HomeRead);
    }
  }

  lemma PendingIsAlone(t: Trial, n: nat)
    requires Pending(t, n, [HomeRead], None) && Resting(t, n)
    ensures Alone(t.c, t.states[n]) && Paced(t.c, t.states[n], None) && !t.states[n].ref.fsm.DoZqcs?
  {
  }

  /** All banks have given way, and the timers tick. */
  ghost predicate Refreshes(t: Trial, n: nat) {
    && t.c.Valid() && Written(t.c) < n < |t.states|
    && Given(t.c, t.states[n]) && Wrote(t.states[n], n - Written(t.c)) && Ticking(t, n)
  }

  /** After the write nothing is presented. */
  lemma QuietAfter(t: Trial, n: nat)
    requires Interrupted(t) && Written(t.c) < n < |t.ins|
    ensures t.ins[n] == Frame(t.c, None, n == t.on) && Follows(t.c, t.states[n], t.ins[n], t.states[n + 1])
  {
    hide Initial, Step, Frame, RefreshProgress.Slowest, Reads;
    RunCycle(t.c, t.states, t.ins, n);
  }

  lemma AllGiveWay(t: Trial)
    requires Interrupted(t)
    ensures var n := FirstDue(t.c) + 2;
            && n <= Written(t.c) + 3 && n < |t.states|
            && Refreshes(t, n) && t.states[n].mux.fsm.Write? && t.states[n].ref.fsm.WaitBankMachines?
  {
    hide Initial, Step, Frame, RefreshProgress.Slowest, Solo, A.Row, RowsReady, OthersWithin, Ticking, Given, Wrote,
         Follows, Trying, FirstDue, Written, Seen, ReadWaits;
    InterruptedLengths(t);
    WrittenWhenDue(t.c);
    WakesWhenDue(t);
    var n := FirstDue(t.c) + 1;
    var queue, buffer := ReadPending(t);
    QuietAfter(t, n);
    GiveWay(t.c, t.states[n], n == t.on, t.states[n + 1], queue, buffer);
    TickingStep(t, n);
  }

  lemma InterruptedLengths(t: Trial)
    requires Interrupted(t)
    ensures t.c.Valid() && t.Valid() && FromReset(t) && |t.states| == |t.ins| + 1
    ensures |t.ins| == Reads(t.c) + 1 && |t.ins| < 2 * FirstDue(t.c) && FirstDue(t.c) + 2 < |t.ins|
    ensures 4 < RefreshSpan(t.c) && t.c.Timing().tWTP + 2 + Round(t.c) <= RefreshSpan(t.c) && 3 <= t.c.Timing().tWTP
  {
    hide Initial, Step, RefreshProgress.Slowest, CeilDiv, FirstDue, FromReset, Written;
    WrittenWhenDue(t.c);
    CyclesOfWrite(t.c);
    ProductMonotone(1, t.c.postponing, Round(t.c));
  }

  // Through the refresh ----------------------------------------------------------------------------

  /** A cycle with the request up. */
  lemma RefreshCycle(t: Trial, n: nat)
    requires Interrupted(t) && Refreshes(t, n) && n < |t.ins|
    requires RefreshReq(t.c, t.states[n]) && !t.states[n].ref.fsm.DoZqcs?
    ensures Refreshes(t, n + 1)
    ensures t.states[n + 1].ref == R.Step(t.c.Refresher(), t.states[n].ref, t.states[n].mux.fsm.Refresh?)
    ensures var s := t.states[n];
            t.states[n + 1].mux.fsm == if s.mux.fsm.Write? && !s.worlds[0].s.twtp.ready then M.Write else M.Refresh
  {
    hide Initial, Step, Frame, RefreshProgress.Slowest, Given, Ticking, Wrote, Follows, Interrupted, R.Step, Reads,
         Written, FirstDue, FromReset, Trial.Valid, RefreshSpan, RefreshReq;
    InterruptedLengths(t);
    QuietAfter(t, n);
    GivenStep(t.c, t.states[n], n == t.on, t.states[n + 1]);
    TickingStep(t, n);
    RefresherMoves(t.c, t.states[n], t.ins[n], t.states[n + 1]);
  }

  lemma RefresherMoves(c: Config, s: State, i: Input, s': State)
    requires Follows(c, s, i, s')
    ensures s'.ref == R.Step(c.Refresher(), s.ref, s.mux.fsm.Refresh?)
  {
    hide R.Step;
  }

  lemma RefreshFacts(t: Trial, n: nat)
    requires Refreshes(t, n)
    ensures n < |t.states| && t.states[n].worlds != [] && !t.states[n].ref.fsm.Idle?
    ensures t.states[n].worlds[0].s.twtp.ready == (t.c.Timing().tWTP <= n - Written(t.c))
  {
    hide Initial, Step, Ticking, RefreshProgress.Slowest, CeilDiv;
  }

  /** All banks have given way, and the multiplexer has not. */
  ghost predicate Held(t: Trial, n: nat) {
    Refreshes(t, n) && t.states[n].mux.fsm.Write? && t.states[n].ref.fsm.WaitBankMachines?
  }

  /** It holds out until the write has recovered. */
  lemma {:induction false} HoldsOut(t: Trial, n: nat, m: nat)
    requires Interrupted(t) && Held(t, n) && n <= m <= Written(t.c) + t.c.Timing().tWTP
    ensures Held(t, m)
    decreases m
  {
    hide Initial, Step, RefreshProgress.Slowest, Interrupted, Refreshes, CeilDiv, Reads, Round, Written;
    if n < m {
      HoldsOut(t, n, m - 1);
      InterruptedLengths(t);
      ReadsAfterSpan(t.c);
      RefreshFacts(t, m - 1);
      RefreshCycle(t, m - 1);
    }
  }

  /** The multiplexer gives way when the write has recovered. */
  lemma GivesWay(t: Trial)
    requires Interrupted(t)
    ensures var g := Written(t.c) + t.c.Timing().tWTP + 1;
            && g < |t.states| && Refreshes(t, g)
            && t.states[g].mux.fsm.Refresh? && t.states[g].ref.fsm.WaitBankMachines?
  {
    hide Initial, Step, RefreshProgress.Slowest, Interrupted, Refreshes, CeilDiv, Reads, Round, Written, FirstDue;
    var n := Written(t.c) + t.c.Timing().tWTP;
    InterruptedLengths(t);
    ReadsAfterSpan(t.c);
    AllGiveWay(t);
    HoldsOut(t, FirstDue(t.c) + 2, n);
    RefreshFacts(t, n);
    RefreshCycle(t, n);
  }

  lemma ReadsAfterSpan(c: Config)
    ensures Reads(c) == Written(c) + RefreshSpan(c) + 1 + c.tRCD
  {
    hide Written;
  }

  /** A refresh executer is running, in its cycle `x` with `r` more runs to go. */
  ghost predicate Executing(t: Trial, n: nat, r: nat, x: nat) {
    && Refreshes(t, n) && t.states[n].mux.fsm.Refresh? && t.states[n].ref.fsm.DoRefresh?
    && t.states[n].ref.runsLeft == r && t.states[n].ref.executer == x <= t.c.tRP + t.c.tRFC
    && (t.states[n].ref.executerDone <==> x == 0)
  }

  lemma ExecutingStep(t: Trial, n: nat, r: nat, x: nat)
    requires Interrupted(t) && Executing(t, n, r, x) && n < |t.ins| && (x == 0 ==> r > 0)
    ensures if x == 0 then Executing(t, n + 1, r - 1, 1)
            else Executing(t, n + 1, r, if x < t.c.tRP + t.c.tRFC then x + 1 else 0)
  {
    hide Initial, Step, RefreshProgress.Slowest, Interrupted, Refreshes, CeilDiv, Reads, Written, FirstDue, FromReset;
    RefreshFacts(t, n);
    RefreshCycle(t, n);
  }

  /** Cycles until the last run of the executer is done. */
  function Remaining(c: Config, r: nat, x: nat): int {
    (if x == 0 then 0 else Round(c) - x) + r * Round(c)
  }

  lemma RemainingStep(c: Config, r: nat, x: nat)
    requires x < Round(c)
    ensures 0 < x < Round(c) - 1 ==> Remaining(c, r, x + 1) == Remaining(c, r, x) - 1
    ensures x == Round(c) - 1 ==> Remaining(c, r, 0) == Remaining(c, r, x) - 1
    ensures x == 0 && r > 0 ==> Remaining(c, r - 1, 1) == Remaining(c, r, x) - 1
    ensures 0 <= Remaining(c, r, x) && (x > 0 || r > 0 ==> 0 < Remaining(c, r, x))
    ensures Remaining(c, 0, 0) == 0
  {
    if r > 0 { NextProduct(r - 1, Round(c)); }
  }

  lemma ExecutingNext(t: Trial, n: nat, r: nat, x: nat) returns (r': nat, x': nat)
    requires Interrupted(t) && Executing(t, n, r, x) && n < |t.ins| && (x > 0 || r > 0)
    ensures Executing(t, n + 1, r', x') && Remaining(t.c, r', x') == Remaining(t.c, r, x) - 1
  {
    hide Initial, Step, RefreshProgress.Slowest, Interrupted, Executing, Remaining, CeilDiv, Trial.Valid, RefreshSpan;
    ExecutingBound(t, n, r, x);
    RemainingStep(t.c, r, x);
    ExecutingStep(t, n, r, x);
    r' := if x == 0 then r - 1 else r;
    x' := if x < t.c.tRP + t.c.tRFC then x + 1 else 0;
  }

  lemma {:induction false} RunsEnd(t: Trial, n: nat, r: nat, x: nat)
    requires Interrupted(t) && Executing(t, n, r, x) && n + Remaining(t.c, r, x) <= |t.ins|
    ensures 0 <= Remaining(t.c, r, x) && Executing(t, n + Remaining(t.c, r, x), 0, 0)
    decreases Remaining(t.c, r, x)
  {
    hide Initial, Step, RefreshProgress.Slowest, Interrupted, Executing, Remaining, CeilDiv, Trial.Valid, RefreshSpan,
         Round;
    ExecutingBound(t, n, r, x);
    RemainingStep(t.c, r, x);
    if x > 0 || r > 0 {
      var r', x' := ExecutingNext(t, n, r, x);
      RunsEnd(t, n + 1, r', x');
    }
  }

  lemma ExecutingBound(t: Trial, n: nat, r: nat, x: nat)
    requires Executing(t, n, r, x)
    ensures x < Round(t.c)
  {
  }

  /** The refresh starts with the executer's first cycle. */
  lemma RefreshBegins(t: Trial)
    requires Interrupted(t)
    ensures Executing(t, Written(t.c) + t.c.Timing().tWTP + 2, t.c.postponing - 1, 1)
  {
    hide Initial, Step, RefreshProgress.Slowest, Interrupted, Refreshes, CeilDiv, Reads, Written, Inv;
    InterruptedLengths(t);
    var g := Written(t.c) + t.c.Timing().tWTP + 1;
    ReadsAfterSpan(t.c);
    GivesWay(t);
    TrialIsRun(t);
    RunInv(t.c, t.states, t.ins, g);
    ExecuterRests(t.c, t.states[g]);
    RefreshCycle(t, g);
  }

  lemma ExecuterRests(c: Config, s: State)
    requires Inv(c, s) && s.ref.fsm.WaitBankMachines?
    ensures R.AtRest(s.ref) && RefreshReq(c, s)
  {
  }

  lemma EndsIs(c: Config)
    ensures Written(c) + c.Timing().tWTP + 2 + Remaining(c, c.postponing - 1, 1) == Ends(c)
  {
    hide Written, CeilDiv;
    NextProduct(c.postponing - 1, Round(c));
  }

  /** After the refresh bank 0 is closed, reads are served, and the read waits. */
  lemma RefreshOver(t: Trial)
    requires Interrupted(t)
    ensures var n := Ends(t.c) + 1;
            At(t, n, BM.Regular, None, [], Some(HomeRead), M.Read) && RowsReady(t.states[n]) && Resting(t, n)
    ensures var n := Ends(t.c) + 1; Wrote(t.states[n], n - Written(t.c)) && Ticking(t, n)
  {
    hide Initial, Step, RefreshProgress.Slowest, CeilDiv, Reads, Written, Given, Ticking, Wrote, Frame, Trying,
         Interrupted, Follows, FromReset, FirstDue, RowsReady, Seen, Alone, Remaining, Trial.Valid, RefreshSpan;
    InterruptedLengths(t);
    var n := Ends(t.c);
    ReadsAfterSpan(t.c);
    RefreshBegins(t);
    EndsIs(t.c);
    RunsEnd(t, Written(t.c) + t.c.Timing().tWTP + 2, t.c.postponing - 1, 1);
    RefreshDrops(t, n);
    QuietAfter(t, n);
    GivenEnds(t.c, t.states[n], n == t.on, t.states[n + 1]);
    TickingStep(t, n);
  }

  /** The refresher goes back to rest. */
  lemma RefreshDrops(t: Trial, n: nat)
    requires Interrupted(t) && n == Ends(t.c) && Executing(t, n, 0, 0) && n < |t.ins|
    ensures R.Last(t.c.Refresher(), t.states[n].ref) && t.states[n + 1].ref.fsm.Idle?
  {
    hide Initial, Step, RefreshProgress.Slowest, CeilDiv, Reads, Written, Given, Frame, Trying, Ends;
    InterruptedLengths(t);
    if t.c.tZQCS.Some? { NotCalibrating(t.c); }
    QuietAfter(t, n);
    RefresherMoves(t.c, t.states[n], t.ins[n], t.states[n + 1]);
  }

  // The read ---------------------------------------------------------------------------------------

  lemma IdleTicks(t: Trial, n: nat)
    requires Interrupted(t) && FirstDue(t.c) < n < |t.ins| && Ticking(t, n) && Resting(t, n)
    ensures Ticking(t, n + 1) && Resting(t, n + 1)
  {
    hide Initial, Step, RefreshProgress.Slowest, CeilDiv, Reads, Written, Frame, Trying, FirstDue, Due, Follows,
         FromReset, OthersWithin;
    InterruptedLengths(t);
    TickingStep(t, n);
    RunCycle(t.c, t.states, t.ins, n);
    RunsDue(t, n);
    NotDue(t.c, t.states[n], n);
    IdleStays(t.c, t.states[n], t.ins[n], t.states[n + 1]);
  }

  lemma {:induction false} RestsAgain(t: Trial, n: nat, m: nat)
    requires Interrupted(t) && FirstDue(t.c) < n <= m <= |t.ins| && Ticking(t, n) && Resting(t, n)
    ensures Ticking(t, m) && Resting(t, m)
    decreases m
  {
    hide Initial, Step, RefreshProgress.Slowest, CeilDiv, Reads, Written, Ticking, Trying;
    if n < m {
      RestsAgain(t, n, m - 1);
      InterruptedLengths(t);
      IdleTicks(t, m - 1);
    }
  }

  lemma SilentAgain(t: Trial)
    requires Interrupted(t)
    ensures Silent(t, Ends(t.c) + 1, |t.ins|)
  {
    hide Initial, Step, RefreshProgress.Slowest, CeilDiv, Written, Ticking, Alone, Seen, Interrupted, FirstDue,
         RefreshSpan, Resting, FromReset, Wrote, RowsReady, Trial.Valid;
    InterruptedLengths(t);
    WrittenWhenDue(t.c);
    RefreshOver(t);
    forall j: nat | Ends(t.c) + 1 < j <= |t.ins| ensures Resting(t, j) { RestsAgain(t, Ends(t.c) + 1, j); }
    PlansNothing(t);
  }

  lemma PlansNothing(t: Trial)
    requires Interrupted(t)
    ensures forall j: nat | Ends(t.c) + 1 <= j :: t.plan(j).None?
  {
    hide Initial, Step, RefreshProgress.Slowest, CeilDiv, Ticking;
    InterruptedLengths(t);
  }

  /** The read is issued as soon as its row is open again. */
  lemma ReadIssuedAfterRefresh(t: Trial)
    requires Interrupted(t)
    ensures Issues(t, Written(t.c), Home) && Issues(t, Reads(t.c), HomeRead)
  {
    hide Initial, Step, RefreshProgress.Slowest, CeilDiv, Written, Ticking, Alone, Seen, Trial.Valid, Interrupted,
         Silent, A.Row;
    InterruptedLengths(t);
    var n := Ends(t.c) + 1;
    ReadsAfterSpan(t.c);
    WriteServed(t);
    RefreshOver(t);
    SilentAgain(t);
    ColumnsRecovered(t);
    SilentPart(t, n, |t.ins|, n, n + 1);
    Misses(t, n, None, HomeRead, M.Read);
    SilentPart(t, n, |t.ins|, n + 1, n + 1 + t.c.tRCD);
    Opens(t, n + 1, None, HomeRead, M.Read);
    SilentAt(t, n, |t.ins|, n + 1 + t.c.tRCD);
    Serves(t, n + 1 + t.c.tRCD, HomeRead);
  }

  lemma ColumnsRecovered(t: Trial)
    requires Interrupted(t) && Wrote(t.states[Ends(t.c) + 1], Ends(t.c) + 1 - Written(t.c))
    requires Alone(t.c, t.states[Ends(t.c) + 1])
    ensures t.states[Ends(t.c) + 1].mux.tccd.ready
  {
    hide Initial, Step, RefreshProgress.Slowest, CeilDiv, Written, Ticking, Alone, Trying;
    InterruptedLengths(t);
    CyclesOfWrite(t.c);
    WroteReady(t.c, t.states[Ends(t.c) + 1], Ends(t.c) + 1 - Written(t.c));
  }

  // The interrupted trial exists -------------------------------------------------------------------

  /** Between the two writes home, bank 0 rests. */
  lemma HomeRests(t: Trial, n: nat)
    requires t.c.Valid() && Trying(t, HomeRead, Served(t.c, t.first))
    requires Opened(t.c, t.first) + 1 <= n <= Presented(t.c, t.first)
    ensures At(t, n, BM.Regular, Some(0), [], None, M.Write) && n < |t.ins|
  {
    hide Resting, Alone, Trial.Valid, AllReady, Silent, Seen, RefreshProgress.Slowest, CountsDown,
         RefreshProgress.Bounded;
    var m := Opened(t.c, t.first) + 1;
    Silence(t, HomeRead, Served(t.c, t.first));
    FirstServed(t, HomeRead, Served(t.c, t.first));
    SilentPart(t, t.first + 1, Presented(t.c, t.first), m, n);
    TrialIsRun(t);
    RefreshProgress.RunBounded(t.c, t.states, t.ins, m);
    StartsCounting(t.c, t.states[m]);
    RestsFor(t, m, n, Some(0), M.Write, RefreshProgress.Slowest(t.c));
  }

  lemma OthersStart(c: Config, s: State)
    requires RefreshProgress.Bounded(c, s)
    ensures OthersWithin(c, s, RefreshProgress.Slowest(c))
  {
    hide RefreshProgress.Slowest, RefreshProgress.TxxWithin;
    forall b | 0 < b < |s.worlds|
      ensures RefreshProgress.TxxWithin(Some(c.Timing().tWTP), s.worlds[b].s.twtp, RefreshProgress.Slowest(c))
    {
      assert RefreshProgress.BankOk(c.Bank(), s.worlds[b].s);
      RefreshProgress.TxxOkStep(Some(c.Timing().tWTP), s.worlds[b].s.twtp, false);
      LongerWithin(Some(c.Timing().tWTP), s.worlds[b].s.twtp, RefreshProgress.TxxSpan(Some(c.Timing().tWTP)),
                   RefreshProgress.Slowest(c));
    }
  }

  lemma LongerWithin(txxd: Option<pos>, x: Txx, i: nat, j: nat)
    requires RefreshProgress.TxxWithin(txxd, x, i) && i <= j
    ensures RefreshProgress.TxxWithin(txxd, x, j)
  {
  }

  lemma OthersCycle(t: Trial, n: nat, k: nat)
    requires t.Valid() && n < |t.ins| && Alone(t.c, t.states[n]) && OthersWithin(t.c, t.states[n], k)
    ensures OthersWithin(t.c, t.states[n + 1], Less(k, 1))
  {
    hide Initial, Step, Frame, Follows, Solo, OthersWithin, RefreshProgress.Bounded;
    RunCycle(t.c, t.states, t.ins, n);
    RefreshProgress.RunBounded(t.c, t.states, t.ins, n);
    OthersStep(t.c, t.states[n], t.plan(n), n == t.on, t.states[n + 1], k);
  }

  /** Meanwhile the other banks' write recovery runs out. */
  lemma {:induction false} OthersRest(t: Trial, n: nat)
    requires t.c.Valid() && Trying(t, HomeRead, Served(t.c, t.first))
    requires Opened(t.c, t.first) + 1 <= n <= Presented(t.c, t.first)
    ensures n < |t.states|
    ensures OthersWithin(t.c, t.states[n], Less(RefreshProgress.Slowest(t.c), n - Opened(t.c, t.first) - 1))
    decreases n
  {
    hide Resting, Alone, Trial.Valid, AllReady, Silent, Seen, RefreshProgress.Slowest, OthersWithin,
         RefreshProgress.Bounded, Opened, Presented;
    HomeRests(t, n);
    if n == Opened(t.c, t.first) + 1 {
      TrialIsRun(t);
      RefreshProgress.RunBounded(t.c, t.states, t.ins, n);
      OthersStart(t.c, t.states[n]);
    } else {
      HomeRests(t, n - 1);
      OthersRest(t, n - 1);
      OthersCycle(t, n - 1, Less(RefreshProgress.Slowest(t.c), n - Opened(t.c, t.first) - 2));
    }
  }

  lemma OthersRecovered(t: Trial)
    requires t.c.Valid() && Trying(t, HomeRead, Served(t.c, t.first))
    ensures Served(t.c, t.first) < |t.states| && OthersWithin(t.c, t.states[Served(t.c, t.first)], 0)
  {
    hide Resting, Alone, Trial.Valid, AllReady, Silent, Seen, RefreshProgress.Slowest, OthersWithin, Turns;
    var n := Presented(t.c, t.first);
    Silence(t, HomeRead, Served(t.c, t.first));
    HomeRests(t, n);
    OthersRest(t, n);
    OthersCycle(t, n, 0);
    EmptyIsPaced(t, n, Some(0), M.Write);
    SoloCycle(t, n);
    TurnsAlone(t.c, t.states[n], t.plan(n), t.states[n + 1]);
    OthersCycle(t, n + 1, 0);
  }

  /** The refresh period leaves room for a write, a refresh and a read. */
  ghost predicate PeriodFits(c: Config)
    requires c.Valid()
  {
    BeforeRefresh(c, Served(c, RefreshProgress.Slowest(c)) + Max(c.Mux().tWTR, RefreshSpan(c) + c.tRCD) + 2)
  }

  /** From reset: a write, a refresh right after it, and a read. */
  lemma MakeInterrupted(c: Config) returns (t: Trial)
    requires c.Valid() && c.cwl > 0 && c.withRefresh && (c.tZQCS.Some? ==> c.zqcsPeriod > 1) && PeriodFits(c)
    ensures t.c == c && Interrupted(t)
  {
    hide Initial, Step, Frame, RefreshProgress.Slowest, OthersWithin, CeilDiv, Resting, FirstDue, FromReset, Written,
         RefreshSpan, Plan;
    WrittenWhenDue(c);
    ServedAfterFirst(c, RefreshProgress.Slowest(c));
    var k := Written(c);
    var first := k - Served(c, 0);
    ServedAfterFirst(c, first);
    t := MakeTrial(c, first, HomeRead, k, Reads(c) + 1);
    forall n: nat | n <= k ensures Resting(t, n) { RestsUntilDue(t, n); }
    OthersRecovered(t);
  }

  lemma ServedAfterFirst(c: Config, first: nat)
    requires c.Valid()
    ensures Served(c, first) == first + Served(c, 0)
  {
  }

  // The exact distance -----------------------------------------------------------------------------

  ghost predicate WritesAt(c: Config, states: seq<State>, ins: seq<Input>, n: nat, b: nat) {
    && n < |ins| && n < |states| && Fits(c, states[n], ins[n]) && b < c.Nbanks()
    && BusCommand(c, states[n], ins[n], b).Wr?
  }

  ghost predicate ReadsAt(c: Config, states: seq<State>, ins: seq<Input>, n: nat, b: nat) {
    && n < |ins| && n < |states| && Fits(c, states[n], ins[n]) && b < c.Nbanks()
    && BusCommand(c, states[n], ins[n], b).Rd?
  }

  /** On every run a read comes at least `gap` cycles after any write. */
  ghost predicate ReadsSpaced(c: Config, gap: int) {
    forall states, ins, i: nat, b: nat, j: nat, b': nat |
      IsRun(c, states, ins) && i < j && WritesAt(c, states, ins, i, b) && ReadsAt(c, states, ins, j, b') :: gap <= j - i
  }

  lemma IssuedCommand(t: Trial, n: nat, r: BM.Request)
    requires t.Valid() && Issues(t, n, r)
    ensures if r.we then WritesAt(t.c, t.states, t.ins, n, 0) else ReadsAt(t.c, t.states, t.ins, n, 0)
  {
    hide Initial, Step, Frame;
    RunCycle(t.c, t.states, t.ins, n);
    OffersAlone(t.c, t.states[n]);
    TakenIsReady(t.c, t.states[n]);
    BM.IssuedMeaning(t.c.Bank(), t.states[n].worlds[0].s, BankInput(t.c, t.states[n], t.ins[n], 0));
  }

  /** With room for a refresh in each period, the sequencer's own run after reset has room too. */
  lemma RefreshesBoot(c: Config)
    requires c.Valid() && PeriodFits(c)
    ensures Boots(c)
  {
    hide RefreshProgress.Slowest, CeilDiv, Served;
    if c.withRefresh && c.tREFI <= Round(c) { ProductMonotone(c.tREFI, Round(c), c.postponing); }
  }

  /** A run in which the read comes at the least distance. */
  lemma GapAttained(c: Config) returns (t: Trial, n: nat)
    requires c.Valid() && c.cwl > 0 && (c.tZQCS.Some? ==> c.zqcsPeriod > 1) && PeriodFits(c)
    ensures t.c == c && FromReset(t) && Boots(c) && IsRun(c, t.states, t.ins)
    ensures WritesAt(c, t.states, t.ins, n, 0) && ReadsAt(c, t.states, t.ins, n + ReadGap(c), 0)
  {
    hide Initial, Step, RefreshProgress.Slowest, CeilDiv, Issues, WritesAt, ReadsAt, Interrupted, RefreshSpan,
         FromReset, Written, Boots;
    RefreshesBoot(c);
    if c.withRefresh && RefreshSpan(c) + c.tRCD < c.Mux().tWTR {
      n := Written(c);
      t := MakeInterrupted(c);
      InterruptedLengths(t);
      ReadsAfterSpan(c);
      ReadIssuedAfterRefresh(t);
    } else {
      n := Served(c, RefreshProgress.Slowest(c));
      t := MakeQuietTrial(c, HomeRead, n, n + c.Mux().tWTR + 2);
      ReadFollows(t);
    }
    TrialIsRun(t);
    IssuedCommand(t, n, Home);
    IssuedCommand(t, n + ReadGap(c), HomeRead);
  }

  /** `ReadGap` is the largest distance that every run keeps between a write and a read; so the write-to-read time is
      kept by all runs exactly when a refresh, its activate and tRCD take no less. */
  lemma ReadGapIsLeast(c: Config, gap: int)
    requires c.Valid() && c.cwl > 0 && (c.tZQCS.Some? ==> c.zqcsPeriod > 1) && PeriodFits(c)
    ensures ReadsSpaced(c, gap) <==> gap <= ReadGap(c)
    ensures gap == c.Mux().tWTR ==>
              (ReadsSpaced(c, gap) <==> (c.withRefresh ==> c.Mux().tWTR <= RefreshSpan(c) + 1 + c.tRCD))
  {
    hide IsRun, WritesAt, ReadsAt, RefreshSpan, PeriodFits;
    if gap <= ReadGap(c) {
      forall states, ins, i: nat, b: nat, j: nat, b': nat |
        IsRun(c, states, ins) && i < j && WritesAt(c, states, ins, i, b) && ReadsAt(c, states, ins, j, b')
        ensures gap <= j - i
      {
        GapKept(c, states, ins, i, b, j, b');
      }
    } else {
      var t, n := GapAttained(c);
      assert WritesAt(c, t.states, t.ins, n, 0) && ReadsAt(c, t.states, t.ins, n + ReadGap(c), 0);
    }
  }

  lemma GapKept(c: Config, states: seq<State>, ins: seq<Input>, i: nat, b: nat, j: nat, b': nat)
    requires IsRun(c, states, ins) && i < j && WritesAt(c, states, ins, i, b) && ReadsAt(c, states, ins, j, b')
    ensures ReadGap(c) <= j - i
  {
    hide IsRun, Fits, BusCommand, ReadGap;
    ColumnSpacing(c, states, ins, i, b, j, b');
  }

  // How long a refresh may have to wait ------------------------------------------------------------

  /** On every run a refresh starts at most `k` cycles after it was first asked for. */
  ghost predicate StartsWithin(c: Config, k: nat) {
    forall states: seq<State>, ins, n: nat |
      IsRun(c, states, ins) && n + k <= |ins| && states[n].ref.fsm.WaitBankMachines? ::
      RefreshProgress.RefreshBy(states, n, k)
  }

  /** From one cycle after the first refresh is wanted until the write has recovered, none starts. */
  lemma RefreshHeldOff(t: Trial, n: nat)
    requires Interrupted(t) && FirstDue(t.c) < n <= Written(t.c) + t.c.Timing().tWTP
    ensures n < |t.states| && !t.states[n].mux.fsm.Refresh?
  {
    hide Initial, Step, RefreshProgress.Slowest, Interrupted, Refreshes, CeilDiv, Reads, Round, Written, FirstDue, Solo;
    if n == FirstDue(t.c) + 1 {
      var queue, buffer := ReadPending(t);
    } else {
      AllGiveWay(t);
      HoldsOut(t, FirstDue(t.c) + 2, n);
      RefreshFacts(t, n);
    }
  }

  /** A run from reset in which a refresh starts no sooner than the write before it has recovered. */
  lemma RefreshWaits(c: Config) returns (t: Trial, n: nat)
    requires c.Valid() && c.cwl > 0 && c.withRefresh && (c.tZQCS.Some? ==> c.zqcsPeriod > 1) && PeriodFits(c)
    ensures t.c == c && FromReset(t) && IsRun(c, t.states, t.ins) && n + c.Timing().tWTP <= |t.ins|
    ensures n < |t.states| && t.states[n].ref.fsm.WaitBankMachines?
    ensures forall k: nat | k < c.Timing().tWTP - 1 :: !RefreshProgress.RefreshBy(t.states, n, k)
  {
    hide Initial, Step, RefreshProgress.Slowest, Interrupted, CeilDiv, Reads, Written, FirstDue, IsRun, FromReset,
         Trial.Valid, Resting;
    t := MakeInterrupted(c);
    n := FirstDue(c) + 1;
    InterruptedLengths(t);
    TrialIsRun(t);
    WrittenWhenDue(c);
    WakesWhenDue(t);
    ReadsAfterSpan(c);
    forall j: nat | n <= j < n + c.Timing().tWTP - 1 ensures j < |t.states| && !t.states[j].mux.fsm.Refresh? {
      RefreshHeldOff(t, j);
    }
  }

  lemma StartsWithinBound(c: Config)
    requires c.Valid()
    ensures StartsWithin(c, RefreshProgress.RefreshBound(c))
  {
    hide Initial, Step, RefreshProgress.RefreshBound, RefreshProgress.RefreshBy;
    var k := RefreshProgress.RefreshBound(c);
    forall states: seq<State>, ins, n: nat |
      IsRun(c, states, ins) && n + k <= |ins| && states[n].ref.fsm.WaitBankMachines?
      ensures RefreshProgress.RefreshBy(states, n, k)
    {
      RefreshProgress.RefreshStarts(c, states, ins, n);
    }
  }

  /** A bound that holds on all runs is not below write recovery less one cycle, and there is one. */
  lemma StartsNoSooner(c: Config, k: nat)
    requires c.Valid() && c.cwl > 0 && c.withRefresh && (c.tZQCS.Some? ==> c.zqcsPeriod > 1) && PeriodFits(c)
    ensures StartsWithin(c, k) ==> c.Timing().tWTP - 1 <= k
    ensures StartsWithin(c, RefreshProgress.RefreshBound(c))
  {
    hide IsRun, RefreshProgress.RefreshBound, RefreshProgress.RefreshBy, FromReset, PeriodFits;
    StartsWithinBound(c);
    if k < c.Timing().tWTP - 1 {
      var t, n := RefreshWaits(c);
      assert !RefreshProgress.RefreshBy(t.states, n, k);
    }
  }
}
