/** One master talking to one bank while the refresher rests: then every command is issued at a known cycle. */
module SoloRuns {
  import opened Common
  import opened Runs
  import opened TimingControllers
  import opened Controllers
  import opened ControllerSafety
  import opened ControllerTiming
  import A = AddressPath
  import BM = BankMachines
  import R = Refreshers
  import M = Multiplexers
  import X = Crossbars
  import RefreshProgress

  // Inputs -----------------------------------------------------------------------------------------

  /** Master 0 presents a request to bank 0, or nothing; every master supplies ones, with its byte enables up or
      down. */
  function Frame(c: Config, request: Option<BM.Request>, enable: bool): (i: Input)
    ensures |i| == c.nmasters
  {
    seq(c.nmasters, m =>
      Master(if m == 0 && request.Some? then
               X.MasterCmd(true, request.value.we, A.AddressOf(c.BankMap(), 0, request.value.address))
             else X.MasterCmd(false, false, 0),
             seq(c.nbytes, _ => 1 as bv8), seq(c.nbytes, _ => enable)))
  }

  ghost predicate InBank(c: Config, request: Option<BM.Request>) {
    request.Some? ==> request.value.address < Pow2(c.RcaBits())
  }

  lemma FrameSized(c: Config, request: Option<BM.Request>, enable: bool)
    requires c.Valid() && InBank(c, request)
    ensures Sized(c, Frame(c, request, enable))
  {
    if request.Some? { A.CellRoundTrip(c.BankMap(), 0, request.value.address); }
  }

  // States -----------------------------------------------------------------------------------------

  predicate Unused(s: BM.State) { s.fsm.Regular? && !s.rowOpened && s.lookahead == [] && s.buffer.None? }

  /** Only bank 0 is in use, on behalf of master 0, and no refresh is under way. */
  ghost predicate Alone(c: Config, s: State) { Solo(c, s) && s.ref.fsm.Idle? }

  /** The same without the refresher, which may be about to start. */
  ghost predicate Solo(c: Config, s: State) {
    && c.Valid() && WellFormed(c, s)
    && !s.mux.fsm.Refresh? && s.mux.grantCmd == 0 && s.mux.grantReq == 0 && s.xbar.grants[0] == 0
    && !s.worlds[0].s.fsm.Refresh? && !s.worlds[0].s.fsm.AutoPrecharge?
    && (s.worlds[0].s.fsm.Regular? || s.worlds[0].s.buffer.Some?)
    && |BM.Pending(s.worlds[0].s)| <= 1
    && WritesTracked(c, s)
    && forall b | 0 < b < c.Nbanks() :: Unused(s.worlds[b].s)
  }

  /** With one bank in use, its write recovery counts from the last write of the device. */
  ghost predicate WritesTracked(c: Config, s: State)
    requires s.worlds != []
  {
    && TxxTracks(Some(c.Timing().tWTP), s.worlds[0].s.twtp, s.traffic.sinceWr)
    && TxxTracks(Some(c.Mux().tWTR), s.mux.twtr, s.traffic.sinceWr)
    && TxxTracks(Some(c.tCCD), s.mux.tccd, s.traffic.sinceColumn)
  }

  predicate Accessing(c: Config, s: State)
    requires c.Valid() && WellFormed(c, s)
  {
    BM.Accessing(c.Bank(), s.worlds[0].s, false)
  }

  predicate Precharging(s: State)
    requires s.worlds != []
  {
    s.worlds[0].s.fsm.Precharge? && s.worlds[0].s.twtp.ready && s.worlds[0].s.tras.ready
  }

  predicate Activating(s: State)
    requires s.worlds != []
  {
    BM.RowOpen(s.worlds[0].s)
  }

  /** Whether bank 0's command is accepted. */
  predicate Taken(c: Config, s: State)
    requires c.Valid() && WellFormed(c, s)
  {
    if Accessing(c, s) then
      s.mux.tccd.ready && (if s.worlds[0].s.buffer.value.we then s.mux.fsm.Write? else s.mux.fsm.Read?)
    else
      && (Precharging(s) || (Activating(s) && M.RasAllowed(s.mux)))
      && M.Serving(s.mux) && (c.nphases == 1 ==> s.mux.tccd.ready)
  }

  lemma OfferOf(c: Config, s: State)
    requires Alone(c, s)
    ensures var o := BM.Offer(c.Bank(), s.worlds[0].s, false);
            && o.valid == (Accessing(c, s) || Precharging(s) || Activating(s))
            && o.isRead == (Accessing(c, s) && !s.worlds[0].s.buffer.value.we)
            && o.isWrite == (Accessing(c, s) && s.worlds[0].s.buffer.value.we)
            && (o.valid ==> o.isCmd == !Accessing(c, s))
            && (o.valid ==> M.IsAct(o) == Activating(s))
  {
    hide BM.AutoPrechargeFlag, BM.RowHit;
  }

  /** The other banks offer nothing and ask for nothing. */
  lemma OthersOffer(c: Config, s: State, b: nat)
    requires Alone(c, s) && 0 < b < c.Nbanks()
    ensures var o := MuxInput(c, s).cmds[b]; !o.valid && !o.isRead && !o.isWrite
  {
  }

  lemma OffersAlone(c: Config, s: State)
    requires Alone(c, s)
    ensures !RefreshReq(c, s) && !PreAll(c, s) && !MuxInput(c, s).goToRefresh
    ensures MuxInput(c, s).cmds[0] == BM.Offer(c.Bank(), s.worlds[0].s, false)
    ensures forall b | 0 < b < c.Nbanks() :: !MuxInput(c, s).cmds[b].valid
    ensures M.ReadAvailable(MuxInput(c, s)) == BM.Offer(c.Bank(), s.worlds[0].s, false).isRead
    ensures M.WriteAvailable(MuxInput(c, s)) == BM.Offer(c.Bank(), s.worlds[0].s, false).isWrite
  {
    hide BM.Offer;
    OfferOf(c, s);
    assert !BM.RefreshGnt(s.worlds[0].s);
    forall b: nat | 0 < b < c.Nbanks() ensures !MuxInput(c, s).cmds[b].valid { OthersOffer(c, s, b); }
    var o := MuxInput(c, s).cmds[0];
    assert o.isRead || o.isWrite ==> o.valid;
  }

  /** The multiplexer's accepts follow from bank 0's offer. */
  lemma TakenIsReady(c: Config, s: State)
    requires Alone(c, s)
    ensures Ready(c, s, 0) == Taken(c, s)
    ensures M.ActAccepted(c.Mux(), s.mux, MuxInput(c, s)) == (Taken(c, s) && Activating(s))
    ensures M.ReadAccepted(c.Mux(), s.mux, MuxInput(c, s))
         == (Taken(c, s) && Accessing(c, s) && !s.worlds[0].s.buffer.value.we)
    ensures M.WriteAccepted(c.Mux(), s.mux, MuxInput(c, s))
         == (Taken(c, s) && Accessing(c, s) && s.worlds[0].s.buffer.value.we)
  {
    hide BM.Offer, MuxInput;
    OfferOf(c, s);
    OffersAlone(c, s);
  }

  // One cycle --------------------------------------------------------------------------------------

  function NextMux(c: Config, s: State): M.Fsm
    requires c.Valid() && WellFormed(c, s)
  {
    match s.mux.fsm
    case Read => if Accessing(c, s) && s.worlds[0].s.buffer.value.we then M.EnterRtw(c.Mux()) else M.Read
    case Write => if Accessing(c, s) && !s.worlds[0].s.buffer.value.we then M.Wtr else M.Write
    case Wtr => if s.mux.twtr.ready then M.Read else M.Wtr
    case Rtw(k) => if k <= 1 then M.Write else M.Rtw(k - 1)
    case Refresh => M.Refresh
  }

  /** Bank 0 in one cycle. */
  ghost predicate BankTurn(c: Config, s: State, request: Option<BM.Request>, s': State)
    requires Alone(c, s) && |s'.worlds| == c.Nbanks()
  {
    var b, b' := s.worlds[0].s, s'.worlds[0].s;
    var taken := Taken(c, s);
    var load := b.buffer.None? || (taken && Accessing(c, s));
    && b'.fsm == BM.NextFsm(c.Bank(), b, BM.Input(request, false, taken))
    && b'.row == (if Activating(s) then A.Row(c.Slicer(), b.buffer.value.address) else b.row)
    && b'.rowOpened == (!BM.RowClose(b) && (Activating(s) || b.rowOpened))
    && b'.lookahead == (if load && b.lookahead != [] then b.lookahead[1..] else b.lookahead)
                       + (if request.Some? && |b.lookahead| < c.depth then [request.value] else [])
    && b'.buffer == (if !load then b.buffer else if b.lookahead != [] then Some(b.lookahead[0]) else None)
    && b'.twtp == TxxStep(Some(c.Timing().tWTP), b.twtp, Writing(c, s))
    && b'.trc == TxxStep(c.tRC, b.trc, taken && Activating(s))
    && b'.tras == TxxStep(c.tRAS, b.tras, taken && Activating(s))
  }

  predicate Writing(c: Config, s: State)
    requires c.Valid() && WellFormed(c, s)
  {
    Taken(c, s) && Accessing(c, s) && s.worlds[0].s.buffer.value.we
  }

  /** The multiplexer in one cycle. */
  ghost predicate MuxTurn(c: Config, s: State, s': State)
    requires Alone(c, s)
  {
    && s'.mux.fsm == NextMux(c, s)
    && s'.mux.trrd == TxxStep(c.tRRD, s.mux.trrd, Taken(c, s) && Activating(s))
    && s'.mux.tfaw == TfawStep(c.tFAW, s.mux.tfaw, Taken(c, s) && Activating(s))
    && s'.mux.tccd == TxxStep(Some(c.tCCD), s.mux.tccd, Taken(c, s) && Accessing(c, s))
    && s'.mux.twtr == TxxStep(Some(c.Mux().tWTR), s.mux.twtr, Writing(c, s))
    && s'.traffic.sinceColumn == Elapse(s.traffic.sinceColumn, Taken(c, s) && Accessing(c, s))
    && s'.traffic.sinceWr == Elapse(s.traffic.sinceWr, Writing(c, s))
  }

  lemma SoloRequest(c: Config, s: State, request: Option<BM.Request>, enable: bool, b: nat)
    requires Alone(c, s) && InBank(c, request) && Fits(c, s, Frame(c, request, enable)) && b < c.Nbanks()
    ensures BankInput(c, s, Frame(c, request, enable), b)
         == BM.Input(if b == 0 then request else None, false, Ready(c, s, b))
  {
    hide MuxInput, M.BankReady, A.AddressOf, A.BankOf, A.RcaOf;
    var i := Frame(c, request, enable);
    OffersAlone(c, s);
    if request.Some? { A.CellRoundTrip(c.BankMap(), 0, request.value.address); }
    forall other: nat | 0 < other < c.Nbanks() ensures !Locks(s)[other] { assert Unused(s.worlds[other].s); }
    assert !X.Locked(s.xbar, Locks(s), 0, 0);
  }

  lemma BankTurns(c: Config, s: State, request: Option<BM.Request>, enable: bool, s': State)
    requires Alone(c, s) && InBank(c, request) && Moves(c, s, Frame(c, request, enable), s')
    ensures BankTurn(c, s, request, s')
  {
    hide BM.Step, MuxInput, Ready, Taken, Frame, M.Step, R.Step, BankTurn, Accessing;
    SoloRequest(c, s, request, enable, 0);
    TakenIsReady(c, s);
    BankStepTurns(c, s, request, s');
  }

  lemma BankStepTurns(c: Config, s: State, request: Option<BM.Request>, s': State)
    requires Alone(c, s) && |s'.worlds| == c.Nbanks()
    requires s'.worlds[0].s == BM.Step(c.Bank(), s.worlds[0].s, BM.Input(request, false, Taken(c, s)))
    ensures BankTurn(c, s, request, s')
  {
    hide BM.NextFsm, BM.Offer, Taken, BM.RowHit;
    OfferOf(c, s);
  }

  lemma MuxTurns(c: Config, s: State, request: Option<BM.Request>, enable: bool, s': State)
    requires Alone(c, s) && Moves(c, s, Frame(c, request, enable), s')
    ensures MuxTurn(c, s, s')
  {
    hide BM.NextFsm, BM.Offer, MuxInput, Ready, Taken, BM.RowHit, Frame, BM.Step, R.Step, M.ActAccepted, M.ReadAccepted,
         M.WriteAccepted, M.ReadAvailable, M.WriteAvailable, M.ChooserStep;
    OffersAlone(c, s);
    OfferOf(c, s);
    TakenIsReady(c, s);
  }

  lemma GrantsStay(c: Config, s: State)
    requires Alone(c, s)
    ensures M.Step(c.Mux(), s.mux, MuxInput(c, s)).grantCmd == 0
    ensures M.Step(c.Mux(), s.mux, MuxInput(c, s)).grantReq == 0
  {
    hide BM.Offer, MuxInput, M.NextFsm, M.ActAccepted, M.ReadAccepted, M.WriteAccepted;
    OffersAlone(c, s);
  }

  lemma OwnerStays(c: Config, s: State, request: Option<BM.Request>, enable: bool)
    requires Alone(c, s) && Fits(c, s, Frame(c, request, enable))
    ensures X.NextBankGrant(c.Crossbar(), s.xbar, Cmds(Frame(c, request, enable)), BankSide(c, s), 0) == 0
  {
    hide A.AddressOf, A.BankOf, A.RcaOf, BankSide;
  }

  lemma UnusedStays(c: Config, s: State, request: Option<BM.Request>, enable: bool, s': State, b: nat)
    requires Alone(c, s) && InBank(c, request) && Moves(c, s, Frame(c, request, enable), s') && 0 < b < c.Nbanks()
    ensures Unused(s'.worlds[b].s)
  {
    hide MuxInput, Ready, Frame, M.Step, R.Step;
    SoloRequest(c, s, request, enable, b);
  }

  /** A request comes only when the bank has room to hold it alone. */
  ghost predicate Paced(c: Config, s: State, request: Option<BM.Request>)
    requires c.Valid() && WellFormed(c, s)
  {
    InBank(c, request) && (request.Some? ==> BM.Pending(s.worlds[0].s) == [] || (Taken(c, s) && Accessing(c, s)))
  }

  lemma BankStays(c: Config, s: State, request: Option<BM.Request>, s': State)
    requires Alone(c, s) && Paced(c, s, request) && |s'.worlds| == c.Nbanks() && BankTurn(c, s, request, s')
    ensures var b := s'.worlds[0].s;
            && !b.fsm.Refresh? && !b.fsm.AutoPrecharge? && |BM.Pending(b)| <= 1
            && (b.fsm.Regular? || b.buffer.Some?)
  {
    hide Taken;
  }

  lemma AloneStays(c: Config, s: State, request: Option<BM.Request>, enable: bool, s': State)
    requires Alone(c, s) && Paced(c, s, request) && Follows(c, s, Frame(c, request, enable), s')
    ensures Solo(c, s') && BankTurn(c, s, request, s') && MuxTurn(c, s, s')
  {
    hide BankTurn, MuxTurn, Unused, Step, MuxInput, Frame, M.Step, BM.Step, Taken, Accessing;
    var i := Frame(c, request, enable);
    FollowsMoves(c, s, i, s');
    BankTurns(c, s, request, enable, s');
    MuxTurns(c, s, request, enable, s');
    BankStays(c, s, request, s');
    GrantsStay(c, s);
    OwnerStays(c, s, request, enable);
    OwnerOf(c, s, i, s');
    NotRefreshing(c, s, s');
    TracksTurn(c, s, request, s');
    forall b: nat | 0 < b < c.Nbanks() ensures Unused(s'.worlds[b].s) { UnusedStays(c, s, request, enable, s', b); }
  }

  lemma TracksTurn(c: Config, s: State, request: Option<BM.Request>, s': State)
    requires Alone(c, s) && |s'.worlds| == c.Nbanks() && BankTurn(c, s, request, s') && MuxTurn(c, s, s')
    ensures WritesTracked(c, s')
  {
    hide Taken, Accessing, TxxTracks, TxxStep;
    TxxStepTracks(Some(c.Timing().tWTP), s.worlds[0].s.twtp, s.traffic.sinceWr, Writing(c, s));
    TxxStepTracks(Some(c.Mux().tWTR), s.mux.twtr, s.traffic.sinceWr, Writing(c, s));
    TxxStepTracks(Some(c.tCCD), s.mux.tccd, s.traffic.sinceColumn, Taken(c, s) && Accessing(c, s));
  }

  lemma OwnerOf(c: Config, s: State, i: Input, s': State)
    requires Follows(c, s, i, s')
    ensures s'.xbar.grants[0] == X.NextBankGrant(c.Crossbar(), s.xbar, Cmds(i), BankSide(c, s), 0)
  {
  }

  lemma NotRefreshing(c: Config, s: State, s': State)
    requires Alone(c, s) && MuxTurn(c, s, s')
    ensures !s'.mux.fsm.Refresh?
  {
    hide Accessing, Taken;
  }

  ghost predicate Turns(c: Config, s: State, request: Option<BM.Request>, s': State) {
    Alone(c, s) && Alone(c, s') && BankTurn(c, s, request, s') && MuxTurn(c, s, s')
  }

  // Scripted runs ----------------------------------------------------------------------------------

  /** A run from reset in which master 0 presents `plan(n)` in cycle `n` and byte enables are up in cycle `on` only. The
      first request is to come in cycle `first`. */
  datatype Trial = Trial(c: Config, states: seq<State>, ins: seq<Input>, plan: nat -> Option<BM.Request>, on: nat,
                         first: nat) {
    ghost predicate Valid() {
      && IsRun(c, states, ins)
      && forall n: nat | n < |ins| :: InBank(c, plan(n)) && ins[n] == Frame(c, plan(n), n == on)
    }
  }

  /** The refresher rests. */
  predicate Resting(t: Trial, n: nat) { n < |t.states| && t.states[n].ref.fsm.Idle? }

  /** Cycle `n` of a trial. */
  lemma SoloCycle(t: Trial, n: nat)
    requires t.Valid() && n < |t.ins| && Alone(t.c, t.states[n]) && Paced(t.c, t.states[n], t.plan(n))
    requires Resting(t, n + 1)
    ensures Turns(t.c, t.states[n], t.plan(n), t.states[n + 1])
  {
    hide Initial, Step, Frame, Follows, Solo, BankTurn, MuxTurn, Paced;
    RunCycle(t.c, t.states, t.ins, n);
    AloneStays(t.c, t.states[n], t.plan(n), n == t.on, t.states[n + 1]);
  }

  lemma StartsAlone(t: Trial)
    requires t.Valid()
    ensures Alone(t.c, t.states[0]) && Seen(t.states[0], BM.Regular, None, [], None, M.Read)
  {
    hide Frame, Step;
    var s := t.states[0];
    forall b: nat | b < t.c.Nbanks() ensures Unused(s.worlds[b].s) { assert s.worlds[b] == BM.Start(t.c.Bank()); }
  }

  /** Bank 0's machine and the multiplexer's. */
  ghost predicate Seen(s: State, fsm: BM.Fsm, open: Option<nat>, queue: seq<BM.Request>, buffer: Option<BM.Request>,
                       mux: M.Fsm) {
    && s.worlds != []
    && var b := s.worlds[0].s;
       && b.fsm == fsm && (if b.rowOpened then open == Some(b.row) else open == None)
       && b.lookahead == queue && b.buffer == buffer && s.mux.fsm == mux
  }

  /** No countdown keeps a command waiting. */
  predicate ColumnsReady(s: State) { s.mux.tccd.ready && s.mux.twtr.ready }

  predicate RowsReady(s: State) {
    s.worlds != [] && M.RasAllowed(s.mux) && s.worlds[0].s.trc.ready
  }

  predicate CloseReady(s: State) {
    s.worlds != [] && s.worlds[0].s.twtp.ready && s.worlds[0].s.tras.ready
  }

  predicate AllReady(s: State) {
    ColumnsReady(s) && RowsReady(s) && CloseReady(s)
  }

  // Single turns -----------------------------------------------------------------------------------

  predicate Serving(mux: M.Fsm) { mux.Read? || mux.Write? }

  /** Countdowns that are over stay over while no command restarts them. */
  lemma ReadyStays(c: Config, s: State, request: Option<BM.Request>, s': State)
    requires Turns(c, s, request, s')
    ensures !(Taken(c, s) && Accessing(c, s)) && ColumnsReady(s) ==> ColumnsReady(s')
    ensures !(Taken(c, s) && Accessing(c, s)) && s.mux.tccd.ready ==> s'.mux.tccd.ready
    ensures !(Taken(c, s) && Accessing(c, s)) && s.worlds[0].s.twtp.ready ==> s'.worlds[0].s.twtp.ready
    ensures !(Taken(c, s) && Activating(s)) && RowsReady(s) ==> RowsReady(s')
    ensures !(Taken(c, s) && Activating(s)) && s.worlds[0].s.tras.ready ==> s'.worlds[0].s.tras.ready
  {
    hide Taken, Accessing;
  }

  /** With nothing queued, bank and multiplexer stay as they are. */
  lemma RestTurn(c: Config, s: State, request: Option<BM.Request>, s': State, open: Option<nat>, mux: M.Fsm)
    requires Turns(c, s, request, s') && Seen(s, BM.Regular, open, [], None, mux) && Serving(mux)
    ensures Seen(s', BM.Regular, open, if request.Some? then [request.value] else [], None, mux)
    ensures !Taken(c, s) && !Accessing(c, s) && !Activating(s)
  {
  }

  /** A queued request moves into the buffer. */
  lemma LoadTurn(c: Config, s: State, s': State, open: Option<nat>, r: BM.Request, mux: M.Fsm)
    requires Turns(c, s, None, s') && Seen(s, BM.Regular, open, [r], None, mux) && Serving(mux)
    ensures Seen(s', BM.Regular, open, [], Some(r), mux)
    ensures !Taken(c, s) && !Accessing(c, s) && !Activating(s)
  {
  }

  /** A buffered request to a row that is not open has it opened, and another one closed first. */
  lemma MissTurn(c: Config, s: State, s': State, open: Option<nat>, r: BM.Request, mux: M.Fsm)
    requires Turns(c, s, None, s') && Seen(s, BM.Regular, open, [], Some(r), mux) && Serving(mux)
    requires open != Some(A.Row(c.Slicer(), r.address))
    ensures Seen(s', if open.None? then BM.Activate else BM.Precharge, open, [], Some(r), mux)
    ensures !Taken(c, s) && !Accessing(c, s) && !Activating(s)
  {
    hide A.Row;
  }

  /** In a delay state only the delay moves. */
  lemma DelayTurn(c: Config, s: State, s': State, open: Option<nat>, r: BM.Request, mux: M.Fsm)
    requires Turns(c, s, None, s') && Serving(mux)
    requires Seen(s, s.worlds[0].s.fsm, open, [], Some(r), mux) && (s.worlds[0].s.fsm.Trp? || s.worlds[0].s.fsm.Trcd?)
    ensures var k := s.worlds[0].s.fsm.left;
            Seen(s', if s.worlds[0].s.fsm.Trp? then (if k <= 1 then BM.Activate else BM.Trp(k - 1))
                     else if k <= 1 then BM.Regular else BM.Trcd(k - 1), open, [], Some(r), mux)
    ensures !Taken(c, s) && !Accessing(c, s) && !Activating(s)
  {
  }

  lemma CloseTurn(c: Config, s: State, s': State, open: Option<nat>, r: BM.Request, mux: M.Fsm)
    requires Turns(c, s, None, s') && Seen(s, BM.Precharge, open, [], Some(r), mux) && Serving(mux)
    requires CloseReady(s) ==> s.mux.tccd.ready
    ensures Seen(s', if CloseReady(s) then BM.EnterTrp(c.Bank()) else BM.Precharge, None, [], Some(r), mux)
    ensures !Accessing(c, s) && !Activating(s)
  {
  }

  lemma OpenTurn(c: Config, s: State, s': State, open: Option<nat>, r: BM.Request, mux: M.Fsm)
    requires Turns(c, s, None, s') && Seen(s, BM.Activate, open, [], Some(r), mux) && Serving(mux)
    requires RowsReady(s) && s.mux.tccd.ready
    ensures Seen(s', BM.EnterTrcd(c.Bank()), Some(A.Row(c.Slicer(), r.address)), [], Some(r), mux)
    ensures !Accessing(c, s)
  {
    hide A.Row;
  }

  /** The multiplexer serves the other direction, or is on its way. */
  predicate Turning(r: BM.Request, mux: M.Fsm) {
    if r.we then mux.Read? || mux.Rtw? else mux.Write? || mux.Wtr?
  }

  function NextTurning(c: Config, mux: M.Fsm, twtrReady: bool): M.Fsm {
    match mux
    case Read => M.EnterRtw(c.Mux())
    case Rtw(k) => if k <= 1 then M.Write else M.Rtw(k - 1)
    case Write => M.Wtr
    case _ => if twtrReady then M.Read else M.Wtr
  }

  /** A request to the open row turns the multiplexer round. */
  lemma HoldTurn(c: Config, s: State, s': State, r: BM.Request, mux: M.Fsm)
    requires Turns(c, s, None, s') && Turning(r, mux)
    requires Seen(s, BM.Regular, Some(A.Row(c.Slicer(), r.address)), [], Some(r), mux)
    ensures Seen(s', BM.Regular, Some(A.Row(c.Slicer(), r.address)), [], Some(r),
                 NextTurning(c, mux, s.mux.twtr.ready))
    ensures !Taken(c, s) && !Activating(s)
  {
    hide A.Row;
  }

  /** A request to the open row, with the multiplexer on its side, is served. */
  lemma ServeTurn(c: Config, s: State, request: Option<BM.Request>, s': State, r: BM.Request)
    requires Turns(c, s, request, s') && s.mux.tccd.ready
    requires Seen(s, BM.Regular, Some(A.Row(c.Slicer(), r.address)), [], Some(r), if r.we then M.Write else M.Read)
    ensures Seen(s', BM.Regular, Some(A.Row(c.Slicer(), r.address)),
                 if request.Some? then [request.value] else [], None, if r.we then M.Write else M.Read)
    ensures Taken(c, s) && Accessing(c, s) && s.worlds[0].s.buffer == Some(r)
  {
    hide A.Row;
  }

  // Stretches of a trial ---------------------------------------------------------------------------

  ghost predicate At(t: Trial, n: nat, fsm: BM.Fsm, open: Option<nat>, queue: seq<BM.Request>,
                     buffer: Option<BM.Request>, mux: M.Fsm) {
    n < |t.states| && Alone(t.c, t.states[n]) && Seen(t.states[n], fsm, open, queue, buffer, mux)
  }

  lemma TrialLengths(t: Trial)
    requires t.Valid()
    ensures t.c.Valid() && |t.states| == |t.ins| + 1
  {
  }

  /** Master 0 presents nothing, and the refresher keeps resting. */
  ghost predicate Silent(t: Trial, n: nat, m: nat) {
    && m <= |t.ins| && (forall j: nat | n <= j < m :: t.plan(j).None?)
    && (forall j: nat | n < j <= m :: Resting(t, j))
  }

  lemma SilentCycle(t: Trial, n: nat, m: nat)
    requires t.Valid() && Silent(t, n, m) && n < m && Alone(t.c, t.states[n])
    ensures Turns(t.c, t.states[n], None, t.states[n + 1])
  {
    hide Alone, Turns;
    SoloCycle(t, n);
  }

  /** Cycles since the last write, which was the last column command. */
  predicate Wrote(s: State, k: nat) { s.traffic.sinceWr == s.traffic.sinceColumn == Some(k) }

  lemma WroteTurn(c: Config, s: State, request: Option<BM.Request>, s': State, k: nat)
    requires Turns(c, s, request, s')
    ensures !(Taken(c, s) && Accessing(c, s)) && Wrote(s, k) ==> Wrote(s', k + 1)
    ensures Writing(c, s) ==> Wrote(s', 1)
  {
  }

  lemma WroteReady(c: Config, s: State, k: nat)
    requires Alone(c, s) && Wrote(s, k)
    ensures s.worlds[0].s.twtp.ready == (c.Timing().tWTP <= k)
    ensures s.mux.twtr.ready == (c.Mux().tWTR <= k)
    ensures s.mux.tccd.ready == (c.tCCD <= k)
  {
  }

  ghost predicate CountsDown(c: Config, s: State, k: nat)
    requires Alone(c, s)
  {
    RefreshProgress.BankWithin(c.Bank(), s.worlds[0].s, k) && RefreshProgress.MuxWithin(c.Mux(), s.mux, k)
  }

  lemma CountTurn(c: Config, s: State, s': State, open: Option<nat>, mux: M.Fsm, k: nat)
    requires Turns(c, s, None, s') && Seen(s, BM.Regular, open, [], None, mux) && Serving(mux)
    requires RefreshProgress.Bounded(c, s) && CountsDown(c, s, k)
    ensures CountsDown(c, s', if k == 0 then 0 else k - 1)
  {
    hide TxxStep, TfawStep, RefreshProgress.TxxWithin, RefreshProgress.TfawWithin, RefreshProgress.TxxOk, Taken,
         Accessing;
    RestTurn(c, s, None, s', open, mux);
    RefreshProgress.TxxIdle(Some(c.Timing().tWTP), s.worlds[0].s.twtp, k);
    RefreshProgress.TxxIdle(c.tRC, s.worlds[0].s.trc, k);
    RefreshProgress.TxxIdle(c.tRAS, s.worlds[0].s.tras, k);
    RefreshProgress.TxxIdle(c.tRRD, s.mux.trrd, k);
    RefreshProgress.TxxIdle(Some(c.tCCD), s.mux.tccd, k);
    RefreshProgress.TxxIdle(Some(c.Mux().tWTR), s.mux.twtr, k);
    RefreshProgress.TfawIdle(c.tFAW, s.mux.tfaw, k);
  }

  lemma CountedDown(c: Config, s: State)
    requires Alone(c, s) && CountsDown(c, s, 0)
    ensures AllReady(s)
  {
  }

  function Less(k: nat, j: nat): nat { if j <= k then k - j else 0 }

  /** Nothing is queued, and every countdown ends within `k` cycles. */
  ghost predicate RestsAt(t: Trial, n: nat, open: Option<nat>, mux: M.Fsm, k: nat) {
    At(t, n, BM.Regular, open, [], None, mux) && CountsDown(t.c, t.states[n], k)
  }

  lemma RestCycle(t: Trial, n: nat, m: nat, open: Option<nat>, mux: M.Fsm, k: nat)
    requires t.Valid() && RestsAt(t, n, open, mux, k) && Serving(mux) && Silent(t, n, m) && n < m
    ensures RestsAt(t, n + 1, open, mux, Less(k, 1))
  {
    hide Initial, Step, Alone, Turns, Seen, RefreshProgress.Bounded, CountsDown;
    SilentCycle(t, n, m);
    RefreshProgress.RunBounded(t.c, t.states, t.ins, n);
    TurnsAlone(t.c, t.states[n], None, t.states[n + 1]);
    CountTurn(t.c, t.states[n], t.states[n + 1], open, mux, k);
    RestTurn(t.c, t.states[n], None, t.states[n + 1], open, mux);
  }

  lemma TurnsAlone(c: Config, s: State, request: Option<BM.Request>, s': State)
    requires Turns(c, s, request, s')
    ensures Alone(c, s) && Alone(c, s')
  {
  }

  /** With nothing to do, bank and multiplexer rest, and every countdown ends. */
  lemma {:induction false} RestsFor(t: Trial, n: nat, m: nat, open: Option<nat>, mux: M.Fsm, k: nat)
    requires t.Valid() && RestsAt(t, n, open, mux, k) && Serving(mux) && Silent(t, n, m) && n <= m
    ensures RestsAt(t, m, open, mux, Less(k, m - n))
    decreases m - n
  {
    hide RestsAt, Initial;
    if n < m {
      RestCycle(t, n, m, open, mux, k);
      RestsFor(t, n + 1, m, open, mux, Less(k, 1));
    }
  }

  /** After enough rest nothing delays the next command. */
  lemma Rests(t: Trial, n: nat, m: nat, open: Option<nat>, mux: M.Fsm)
    requires t.Valid() && At(t, n, BM.Regular, open, [], None, mux) && Serving(mux) && Silent(t, n, m)
    requires n + RefreshProgress.Slowest(t.c) <= m
    ensures At(t, m, BM.Regular, open, [], None, mux) && AllReady(t.states[m])
  {
    hide Initial, Step, Alone, Seen, RefreshProgress.Bounded, RefreshProgress.Slowest, CountsDown, AllReady;
    RefreshProgress.RunBounded(t.c, t.states, t.ins, n);
    StartsCounting(t.c, t.states[n]);
    RestsFor(t, n, m, open, mux, RefreshProgress.Slowest(t.c));
    CountedDown(t.c, t.states[m]);
  }

  lemma StartsCounting(c: Config, s: State)
    requires Alone(c, s) && RefreshProgress.Bounded(c, s)
    ensures CountsDown(c, s, RefreshProgress.Slowest(c))
  {
    hide RefreshProgress.Slowest, RefreshProgress.BankWithin, RefreshProgress.MuxWithin, RefreshProgress.Bounded;
    RefreshProgress.AllSlowest(c, s);
  }

  /** `j` cycles without a column command. */
  ghost predicate Calm(s: State, s': State, j: nat) {
    && s.worlds != [] && s'.worlds != []
    && (ColumnsReady(s) ==> ColumnsReady(s')) && (s.mux.tccd.ready ==> s'.mux.tccd.ready)
    && (s.worlds[0].s.twtp.ready ==> s'.worlds[0].s.twtp.ready)
    && (s.traffic.sinceWr.Some? && Wrote(s, s.traffic.sinceWr.value) ==> Wrote(s', s.traffic.sinceWr.value + j))
  }

  /** Some cycles without an activate. */
  ghost predicate Still(s: State, s': State) {
    && s.worlds != [] && s'.worlds != []
    && (RowsReady(s) ==> RowsReady(s')) && (s.worlds[0].s.tras.ready ==> s'.worlds[0].s.tras.ready)
  }

  lemma PassTurn(c: Config, s: State, request: Option<BM.Request>, s': State)
    requires Turns(c, s, request, s')
    ensures !(Taken(c, s) && Accessing(c, s)) ==> Calm(s, s', 1)
    ensures !(Taken(c, s) && Activating(s)) ==> Still(s, s')
  {
    hide BankTurn, MuxTurn, Taken, Accessing;
    ReadyStays(c, s, request, s');
    if s.traffic.sinceWr.Some? { WroteTurn(c, s, request, s', s.traffic.sinceWr.value); }
  }

  /** A request reaches the buffer in two cycles. */
  lemma Arrives(t: Trial, n: nat, open: Option<nat>, r: BM.Request, mux: M.Fsm)
    requires t.Valid() && At(t, n, BM.Regular, open, [], None, mux) && Serving(mux) && AllReady(t.states[n])
    requires n + 2 <= |t.ins| && t.plan(n) == Some(r) && Resting(t, n + 1) && Silent(t, n + 1, n + 2)
    ensures At(t, n + 2, BM.Regular, open, [], Some(r), mux) && AllReady(t.states[n + 2])
  {
    hide Initial, Step, Frame, Alone, Turns;
    EmptyIsPaced(t, n, open, mux);
    SoloCycle(t, n);
    RestTurn(t.c, t.states[n], Some(r), t.states[n + 1], open, mux);
    PassTurn(t.c, t.states[n], Some(r), t.states[n + 1]);
    TurnsAlone(t.c, t.states[n], Some(r), t.states[n + 1]);
    Loads(t, n + 1, open, r, mux);
  }

  lemma EmptyIsPaced(t: Trial, n: nat, open: Option<nat>, mux: M.Fsm)
    requires t.Valid() && At(t, n, BM.Regular, open, [], None, mux) && n < |t.ins|
    ensures Paced(t.c, t.states[n], t.plan(n))
  {
    hide Initial, Step, Frame;
  }

  /** A queued request moves into the buffer. */
  lemma Loads(t: Trial, n: nat, open: Option<nat>, r: BM.Request, mux: M.Fsm)
    requires t.Valid() && At(t, n, BM.Regular, open, [r], None, mux) && Serving(mux) && Silent(t, n, n + 1)
    ensures At(t, n + 1, BM.Regular, open, [], Some(r), mux)
    ensures Calm(t.states[n], t.states[n + 1], 1) && Still(t.states[n], t.states[n + 1])
  {
    hide Initial, Step, Frame, Alone, Turns;
    SilentCycle(t, n, n + 1);
    TurnsAlone(t.c, t.states[n], None, t.states[n + 1]);
    LoadTurn(t.c, t.states[n], t.states[n + 1], open, r, mux);
    PassTurn(t.c, t.states[n], None, t.states[n + 1]);
  }

  /** A request to a row that is not open. */
  lemma Misses(t: Trial, n: nat, open: Option<nat>, r: BM.Request, mux: M.Fsm)
    requires t.Valid() && At(t, n, BM.Regular, open, [], Some(r), mux) && Serving(mux) && Silent(t, n, n + 1)
    requires open != Some(A.Row(t.c.Slicer(), r.address))
    ensures At(t, n + 1, if open.None? then BM.Activate else BM.Precharge, open, [], Some(r), mux)
    ensures Calm(t.states[n], t.states[n + 1], 1) && Still(t.states[n], t.states[n + 1])
  {
    hide Initial, Step, Frame, Alone, Turns;
    SilentCycle(t, n, n + 1);
    TurnsAlone(t.c, t.states[n], None, t.states[n + 1]);
    MissTurn(t.c, t.states[n], t.states[n + 1], open, r, mux);
    PassTurn(t.c, t.states[n], None, t.states[n + 1]);
  }

  lemma CalmCycle(t: Trial, n: nat, m: nat, r: BM.Request)
    requires t.Valid() && Silent(t, n, m) && n < m && Alone(t.c, t.states[n])
    requires t.states[n].worlds[0].s.buffer == Some(r)
    requires !t.states[n].worlds[0].s.fsm.Regular?
    ensures Turns(t.c, t.states[n], None, t.states[n + 1]) && Alone(t.c, t.states[n + 1])
    ensures Calm(t.states[n], t.states[n + 1], 1)
    ensures !t.states[n].worlds[0].s.fsm.Activate? ==> Still(t.states[n], t.states[n + 1])
  {
    hide Initial, Step, Frame, Alone, Turns, Calm, Still;
    SilentCycle(t, n, m);
    TurnsAlone(t.c, t.states[n], None, t.states[n + 1]);
    PassTurn(t.c, t.states[n], None, t.states[n + 1]);
  }

  lemma CalmLonger(s: State, s': State, s'': State, i: nat, j: nat)
    requires Calm(s, s', i) && Calm(s', s'', j)
    ensures Calm(s, s'', i + j)
  {
  }

  /** A delay of `k` cycles in front of state `then`. */
  predicate Delay(fsm: BM.Fsm, k: nat, after: BM.Fsm) {
    if k == 0 then fsm == after
    else (fsm.Trp? || fsm.Trcd?) && fsm.left == k && after == if fsm.Trp? then BM.Activate else BM.Regular
  }

  lemma {:induction false} Delays(t: Trial, n: nat, fsm: BM.Fsm, k: nat, after: BM.Fsm, open: Option<nat>,
                                  r: BM.Request, mux: M.Fsm)
    requires t.Valid() && At(t, n, fsm, open, [], Some(r), mux) && Serving(mux) && Silent(t, n, n + k)
    requires Delay(fsm, k, after)
    ensures At(t, n + k, after, open, [], Some(r), mux)
    ensures Calm(t.states[n], t.states[n + k], k) && Still(t.states[n], t.states[n + k])
    decreases k
  {
    hide Initial, Step, Frame, Alone, Turns, Calm;
    if k == 0 {
      CalmAlready(t.states[n]);
    } else {
      CalmCycle(t, n, n + k, r);
      DelayTurn(t.c, t.states[n], t.states[n + 1], open, r, mux);
      var next := t.states[n + 1].worlds[0].s.fsm;
      Delays(t, n + 1, next, k - 1, after, open, r, mux);
      CalmLonger(t.states[n], t.states[n + 1], t.states[n + k], 1, k - 1);
    }
  }

  lemma CalmAlready(s: State)
    requires s.worlds != []
    ensures Calm(s, s, 0)
  {
  }

  /** Closing the open row takes tRP cycles once write recovery and tRAS are over. */
  lemma Closes(t: Trial, n: nat, open: Option<nat>, r: BM.Request, mux: M.Fsm)
    requires t.Valid() && At(t, n, BM.Precharge, open, [], Some(r), mux) && Serving(mux) && Silent(t, n, n + t.c.tRP)
    requires CloseReady(t.states[n]) && t.states[n].mux.tccd.ready
    ensures At(t, n + t.c.tRP, BM.Activate, None, [], Some(r), mux)
    ensures Calm(t.states[n], t.states[n + t.c.tRP], t.c.tRP) && Still(t.states[n], t.states[n + t.c.tRP])
  {
    hide Initial, Step, Frame, Alone, Turns, Calm;
    CalmCycle(t, n, n + t.c.tRP, r);
    CloseTurn(t.c, t.states[n], t.states[n + 1], open, r, mux);
    Delays(t, n + 1, BM.EnterTrp(t.c.Bank()), t.c.tRP - 1, BM.Activate, None, r, mux);
    CalmLonger(t.states[n], t.states[n + 1], t.states[n + t.c.tRP], 1, t.c.tRP - 1);
  }

  /** Opening a row takes tRCD cycles. */
  lemma Opens(t: Trial, n: nat, open: Option<nat>, r: BM.Request, mux: M.Fsm)
    requires t.Valid() && At(t, n, BM.Activate, open, [], Some(r), mux) && Serving(mux) && Silent(t, n, n + t.c.tRCD)
    requires RowsReady(t.states[n]) && t.states[n].mux.tccd.ready
    ensures At(t, n + t.c.tRCD, BM.Regular, Some(A.Row(t.c.Slicer(), r.address)), [], Some(r), mux)
    ensures Calm(t.states[n], t.states[n + t.c.tRCD], t.c.tRCD)
  {
    hide Initial, Step, Frame, Alone, Turns, Calm, RowsReady;
    CalmCycle(t, n, n + t.c.tRCD, r);
    OpenTurn(t.c, t.states[n], t.states[n + 1], open, r, mux);
    Delays(t, n + 1, BM.EnterTrcd(t.c.Bank()), t.c.tRCD - 1, BM.Regular, Some(A.Row(t.c.Slicer(), r.address)), r, mux);
    CalmLonger(t.states[n], t.states[n + 1], t.states[n + t.c.tRCD], 1, t.c.tRCD - 1);
  }

  /** Waiting for write recovery: `j` cycles after a write the bank is in PRECHARGE. */
  lemma {:induction false} WaitsToClose(t: Trial, n: nat, j: nat, open: Option<nat>, r: BM.Request, mux: M.Fsm)
    returns (open': Option<nat>)
    requires t.Valid() && At(t, n, BM.Precharge, open, [], Some(r), mux) && Serving(mux) && Wrote(t.states[n], j)
    requires j <= t.c.Timing().tWTP && Silent(t, n, n + t.c.Timing().tWTP - j) && t.states[n].worlds[0].s.tras.ready
    ensures At(t, n + t.c.Timing().tWTP - j, BM.Precharge, open', [], Some(r), mux)
    ensures var s := t.states[n + t.c.Timing().tWTP - j]; CloseReady(s) && s.mux.tccd.ready
    ensures Still(t.states[n], t.states[n + t.c.Timing().tWTP - j])
    decreases t.c.Timing().tWTP - j
  {
    hide Initial, Step, Frame, Alone, Turns, Calm;
    open' := open;
    WroteReady(t.c, t.states[n], j);
    if j < t.c.Timing().tWTP {
      CalmCycle(t, n, n + t.c.Timing().tWTP - j, r);
      CloseTurn(t.c, t.states[n], t.states[n + 1], open, r, mux);
      CalmWrote(t.states[n], t.states[n + 1], j, 1);
      open' := WaitsToClose(t, n + 1, j + 1, None, r, mux);
    }
  }

  lemma CalmWrote(s: State, s': State, j: nat, i: nat)
    requires Calm(s, s', i) && Wrote(s, j)
    ensures Wrote(s', j + i)
  {
  }

  /** A request for the open row of a bank whose multiplexer is turning round. */
  ghost predicate Holding(t: Trial, n: nat, r: BM.Request, mux: M.Fsm) {
    t.c.Valid() && At(t, n, BM.Regular, Some(A.Row(t.c.Slicer(), r.address)), [], Some(r), mux)
  }

  lemma HoldCycle(t: Trial, n: nat, m: nat, r: BM.Request, mux: M.Fsm)
    requires t.Valid() && Holding(t, n, r, mux) && Turning(r, mux) && Silent(t, n, m) && n < m
    ensures Holding(t, n + 1, r, NextTurning(t.c, mux, t.states[n].mux.twtr.ready))
    ensures Calm(t.states[n], t.states[n + 1], 1) && Still(t.states[n], t.states[n + 1])
  {
    hide Initial, Step, Frame, Alone, Turns, Calm, Still;
    SilentCycle(t, n, m);
    TurnsAlone(t.c, t.states[n], None, t.states[n + 1]);
    HoldTurn(t.c, t.states[n], t.states[n + 1], r, mux);
    PassTurn(t.c, t.states[n], None, t.states[n + 1]);
  }

  lemma {:induction false} RtwEnds(t: Trial, n: nat, k: pos, r: BM.Request)
    requires t.Valid() && Holding(t, n, r, M.Rtw(k)) && r.we && Silent(t, n, n + k)
    ensures Holding(t, n + k, r, M.Write) && Calm(t.states[n], t.states[n + k], k)
    decreases k
  {
    hide Initial, Holding, Calm, Trial.Valid;
    HoldCycle(t, n, n + k, r, M.Rtw(k));
    HoldingHasWorlds(t, n, r, M.Rtw(k));
    if k > 1 {
      HoldingHasWorlds(t, n + 1, r, M.Rtw(k - 1));
      RtwEnds(t, n + 1, k - 1, r);
      HoldingHasWorlds(t, n + k, r, M.Write);
      CalmLonger(t.states[n], t.states[n + 1], t.states[n + k], 1, k - 1);
    }
  }

  lemma HoldingHasWorlds(t: Trial, n: nat, r: BM.Request, mux: M.Fsm)
    requires Holding(t, n, r, mux)
    ensures n < |t.states| && t.states[n].worlds != []
  {
  }

  /** A write turns the multiplexer from reads to writes in as many cycles as the read latency. */
  lemma TurnsToWrite(t: Trial, n: nat, r: BM.Request)
    requires t.Valid() && Holding(t, n, r, M.Read) && r.we && Silent(t, n, n + t.c.readLatency)
    ensures Holding(t, n + t.c.readLatency, r, M.Write)
    ensures Calm(t.states[n], t.states[n + t.c.readLatency], t.c.readLatency)
  {
    hide Initial, Calm, Holding, Trial.Valid;
    HoldingHasWorlds(t, n, r, M.Read);
    var k := t.c.readLatency;
    HoldCycle(t, n, n + k, r, M.Read);
    HoldingHasWorlds(t, n + 1, r, M.EnterRtw(t.c.Mux()));
    if k > 1 {
      RtwEnds(t, n + 1, k - 1, r);
      HoldingHasWorlds(t, n + k, r, M.Write);
      CalmLonger(t.states[n], t.states[n + 1], t.states[n + k], 1, k - 1);
    }
  }

  /** Waiting for the write-to-read time: `j` cycles after a write the multiplexer is on its way to reads. */
  lemma {:induction false} WaitsForRead(t: Trial, n: nat, j: nat, r: BM.Request)
    requires t.Valid() && Holding(t, n, r, M.Wtr) && !r.we && Wrote(t.states[n], j)
    requires j <= t.c.Mux().tWTR && Silent(t, n, n + t.c.Mux().tWTR + 1 - j)
    ensures Holding(t, n + t.c.Mux().tWTR + 1 - j, r, M.Read)
    ensures t.states[n + t.c.Mux().tWTR + 1 - j].mux.tccd.ready
    decreases t.c.Mux().tWTR - j
  {
    hide Initial, Calm, Alone, Step, Frame;
    HoldCycle(t, n, n + t.c.Mux().tWTR + 1 - j, r, M.Wtr);
    WroteReady(t.c, t.states[n], j);
    CalmWrote(t.states[n], t.states[n + 1], j, 1);
    if j < t.c.Mux().tWTR {
      WaitsForRead(t, n + 1, j + 1, r);
    } else {
      WroteReady(t.c, t.states[n + 1], j + 1);
    }
  }

  /** With the write-to-read time over, a read turns the multiplexer round in two cycles. */
  lemma TurnsToRead(t: Trial, n: nat, r: BM.Request)
    requires t.Valid() && Holding(t, n, r, M.Write) && !r.we && Silent(t, n, n + 2) && ColumnsReady(t.states[n])
    ensures Holding(t, n + 2, r, M.Read) && ColumnsReady(t.states[n + 2])
  {
    hide Initial, Alone, Step, Frame;
    HoldCycle(t, n, n + 2, r, M.Write);
    HoldCycle(t, n + 1, n + 2, r, M.Wtr);
  }

  /** The command is issued, and leaves the bank to the request that arrives in its cycle. */
  lemma Serves(t: Trial, n: nat, r: BM.Request)
    requires t.Valid() && n < |t.ins| && Resting(t, n + 1)
    requires Holding(t, n, r, if r.we then M.Write else M.Read) && t.states[n].mux.tccd.ready
    ensures Taken(t.c, t.states[n]) && Accessing(t.c, t.states[n]) && t.states[n].worlds[0].s.buffer == Some(r)
    ensures At(t, n + 1, BM.Regular, Some(A.Row(t.c.Slicer(), r.address)),
               if t.plan(n).Some? then [t.plan(n).value] else [], None, if r.we then M.Write else M.Read)
    ensures r.we ==> Wrote(t.states[n + 1], 1)
    ensures Still(t.states[n], t.states[n + 1])
  {
    hide Initial, Step, Frame, Turns, RowsReady;
    ServedIsPaced(t, n, r);
    SoloCycle(t, n);
    TurnsAlone(t.c, t.states[n], t.plan(n), t.states[n + 1]);
    ServeTurn(t.c, t.states[n], t.plan(n), t.states[n + 1], r);
    PassTurn(t.c, t.states[n], t.plan(n), t.states[n + 1]);
    WroteTurn(t.c, t.states[n], t.plan(n), t.states[n + 1], 0);
  }

  lemma ServedIsPaced(t: Trial, n: nat, r: BM.Request)
    requires t.Valid() && n < |t.ins|
    requires Holding(t, n, r, if r.we then M.Write else M.Read) && t.states[n].mux.tccd.ready
    ensures Paced(t.c, t.states[n], t.plan(n))
  {
    hide Initial, Step, Frame, A.Row;
  }

  /** A bank that takes an access issues it to the device. */
  lemma TakenIsIssued(c: Config, s: State)
    requires Alone(c, s) && Taken(c, s) && Accessing(c, s)
    ensures if s.worlds[0].s.buffer.value.we then WriteIssued(c, s) else ReadIssued(c, s)
  {
    hide Taken, Accessing;
    TakenIsReady(c, s);
  }

  lemma SilentPart(t: Trial, n: nat, m: nat, n': nat, m': nat)
    requires Silent(t, n, m) && n <= n' && m' <= m
    ensures Silent(t, n', m')
  {
  }
}
