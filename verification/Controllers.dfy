/** The whole controller of litedram/core/controller.py with the crossbar in front and the memory model behind it, one
    clock cycle at a time. */
module Controllers {
  import opened Common
  import opened Runs
  import A = AddressPath
  import BM = BankMachines
  import D = DramBank
  import R = Refreshers
  import M = Multiplexers
  import X = Crossbars
  import P = PhyModels

  /** All settings, in controller cycles where they are times. `cwl` is in DRAM clocks. */
  datatype Config = Config(
    nmasters: pos, bankbits: nat, rowbits: nat, colbits: nat, align: nat, bankShift: nat, nbytes: nat,
    nphases: pos, rdphase: nat, wrphase: nat, cwl: nat, readLatency: pos, writeLatency: nat,
    depth: pos, withAutoPrecharge: bool, readTime: nat, writeTime: nat,
    withRefresh: bool, tREFI: pos, postponing: pos, zqcsPeriod: pos,
    tRP: pos, tRCD: pos, tWR: pos, tWTR: pos, tRFC: pos, tCCD: pos,
    tRRD: Option<pos>, tFAW: Option<pos>, tRC: Option<pos>, tRAS: Option<pos>, tZQCS: Option<pos>)
  {
    function Nbanks(): pos { Pow2(bankbits) }
    function WriteCycles(): nat { CeilDiv(cwl, nphases) }
    function Slicer(): A.Slicer { A.Slicer(colbits, align) }
    function Timing(): D.Timing { D.Timing(tRP, tRCD, WriteCycles() + tWR + tCCD, tRC, tRAS) }
    function Bank(): BM.Settings { BM.Settings(depth, Slicer(), withAutoPrecharge, Timing()) }
    function Refresher(): R.Settings { R.Settings(withRefresh, tREFI, postponing, tRP, tRFC, tZQCS, zqcsPeriod) }
    function Mux(): M.Settings {
      M.Settings(Nbanks(), nphases, rdphase, wrphase, tRRD, tFAW, tCCD, tWTR + WriteCycles() + tCCD, readTime,
                 writeTime, readLatency)
    }
    function RcaBits(): nat { rowbits + (if align <= colbits then colbits - align else 0) }
    function BankMap(): A.BankMap { A.BankMap(bankbits, RcaBits(), bankShift) }
    function Crossbar(): X.Settings { X.Settings(nmasters, Nbanks(), BankMap(), writeLatency, readLatency) }
    function Phy(): P.Settings {
      P.Settings(nphases, Nbanks(), rowbits, colbits, align, nbytes, writeLatency, readLatency)
    }

    /** What a buildable single-rank configuration satisfies; the memory model has at most ten column bits. */
    ghost predicate Valid() {
      && align <= colbits <= 10 && bankShift <= RcaBits()
      && rdphase < nphases && wrphase < nphases
    }
  }

  /** A master's side of its port in one cycle: a command, and the data it would supply if strobed. */
  datatype Master = Master(cmd: X.MasterCmd, data: P.Word, we: seq<bool>)

  type Input = seq<Master>

  function Cmds(i: Input): (r: seq<X.MasterCmd>)
    ensures |r| == |i|
  {
    seq(|i|, m requires 0 <= m < |i| => i[m].cmd)
  }

  /** Registers of every module, with the observers `worlds[b].d`, `dev` and `traffic` beside them. */
  datatype State = State(
    worlds: seq<BM.World>,
    ref: R.State,
    dev: R.Device,
    mux: M.State,
    traffic: M.Traffic,
    xbar: X.State,
    phases: seq<P.Phase>,
    phy: P.State)

  ghost predicate WellFormed(c: Config, s: State) {
    && |s.worlds| == c.Nbanks()
    && M.WellFormed(c.Mux(), s.mux)
    && X.WellFormed(c.Crossbar(), s.xbar)
    && |s.phases| == c.nphases
    && P.WellFormed(c.Phy(), s.phy)
  }

  /** Signals have their widths. */
  ghost predicate Sized(c: Config, i: Input) {
    && |i| == c.nmasters
    && forall m | 0 <= m < |i| ::
         i[m].cmd.address < A.Addresses(c.BankMap()) && |i[m].data| == |i[m].we| == c.nbytes
  }

  ghost predicate Fits(c: Config, s: State, i: Input) {
    c.Valid() && WellFormed(c, s) && Sized(c, i)
  }

  // Combinational signals --------------------------------------------------------------------------

  predicate RefreshReq(c: Config, s: State) { R.Valid(c.Refresher(), s.ref) }

  function MuxInput(c: Config, s: State): (i: M.Input)
    requires c.Valid() && |s.worlds| == c.Nbanks()
    ensures |i.cmds| == c.Nbanks()
    ensures forall b | 0 <= b < c.Nbanks() :: i.cmds[b] == BM.Offer(c.Bank(), s.worlds[b].s, RefreshReq(c, s))
  {
    M.Input(
      seq(c.Nbanks(), b requires 0 <= b < c.Nbanks() && c.Valid() && |s.worlds| == c.Nbanks() =>
        BM.Offer(c.Bank(), s.worlds[b].s, RefreshReq(c, s))),
      forall b | 0 <= b < |s.worlds| :: BM.RefreshGnt(s.worlds[b].s),
      R.Last(c.Refresher(), s.ref))
  }

  predicate Ready(c: Config, s: State, b: nat)
    requires c.Valid() && WellFormed(c, s)
  {
    M.BankReady(c.Mux(), s.mux, MuxInput(c, s), b)
  }

  /** The refresher's Precharge All is on the bus. */
  predicate PreAll(c: Config, s: State) {
    s.mux.fsm.Refresh? && RefreshReq(c, s) && s.ref.cmd == R.PrechargeAll
  }

  /** The refresher's command, as the device receives it. */
  function DeviceCommand(c: Config, s: State): R.Command {
    if s.mux.fsm.Refresh? && RefreshReq(c, s) then s.ref.cmd else R.NoCommand
  }

  function Locks(s: State): (r: seq<bool>)
    ensures |r| == |s.worlds| && forall b | 0 <= b < |r| :: r[b] == BM.Lock(s.worlds[b].s)
  {
    seq(|s.worlds|, b requires 0 <= b < |s.worlds| => BM.Lock(s.worlds[b].s))
  }

  function BankSide(c: Config, s: State): (r: X.BankSide)
    requires c.Valid() && WellFormed(c, s)
    ensures |r.locks| == |r.readys| == |r.wdataReady| == |r.rdataValid| == c.Nbanks()
    ensures r.locks == Locks(s)
    ensures forall b | 0 <= b < c.Nbanks() :: r.readys[b] == BM.ReqReady(c.Bank(), s.worlds[b].s)
    ensures forall b | 0 <= b < c.Nbanks() ::
              r.wdataReady[b] == BM.WdataReady(c.Bank(), s.worlds[b].s, RefreshReq(c, s), Ready(c, s, b))
    ensures forall b | 0 <= b < c.Nbanks() ::
              r.rdataValid[b] == BM.RdataValid(c.Bank(), s.worlds[b].s, RefreshReq(c, s), Ready(c, s, b))
  {
    X.BankSide(
      Locks(s),
      seq(c.Nbanks(), b requires 0 <= b < c.Nbanks() && |s.worlds| == c.Nbanks() =>
        BM.ReqReady(c.Bank(), s.worlds[b].s)),
      seq(c.Nbanks(), b requires 0 <= b < c.Nbanks() && c.Valid() && WellFormed(c, s) =>
        BM.WdataReady(c.Bank(), s.worlds[b].s, RefreshReq(c, s), Ready(c, s, b))),
      seq(c.Nbanks(), b requires 0 <= b < c.Nbanks() && c.Valid() && WellFormed(c, s) =>
        BM.RdataValid(c.Bank(), s.worlds[b].s, RefreshReq(c, s), Ready(c, s, b))))
  }

  function BankInput(c: Config, s: State, i: Input, b: nat): BM.Input
    requires Fits(c, s, i) && b < c.Nbanks()
  {
    BM.Input(X.BankRequest(c.Crossbar(), s.xbar, Cmds(i), Locks(s), b), RefreshReq(c, s), Ready(c, s, b))
  }

  /** Command that bank `b` receives in this cycle. */
  function BusCommand(c: Config, s: State, i: Input, b: nat): D.Command
    requires Fits(c, s, i) && b < c.Nbanks()
  {
    BM.BusCommand(c.Bank(), s.worlds[b], BankInput(c, s, i, b), PreAll(c, s))
  }

  /** Write data and byte enables on the controller's data path. */
  function BusData(c: Config, s: State, i: Input): (P.Word, seq<bool>)
    requires Fits(c, s, i)
  {
    var m := X.Writer(c.Crossbar(), s.xbar);
    if m < c.nmasters then (i[m].data, i[m].we) else (P.Zero(c.Phy()), [])
  }

  /** Read data presented to every master, valid for those whose read strobe is up. */
  function ReadBus(c: Config, s: State): P.Word
    requires c.Valid() && WellFormed(c, s)
  {
    P.DfiRead(c.Phy(), s.phy, s.phases).1
  }

  // Clock edge -------------------------------------------------------------------------------------

  function Step(c: Config, s: State, i: Input): (s': State)
    requires Fits(c, s, i)
    ensures WellFormed(c, s')
  {
    State(
      seq(c.Nbanks(), b requires 0 <= b < c.Nbanks() && Fits(c, s, i) =>
        BM.WorldStep(c.Bank(), s.worlds[b], BankInput(c, s, i, b), PreAll(c, s))),
      R.Step(c.Refresher(), s.ref, s.mux.fsm.Refresh?),
      R.DeviceStep(s.dev, DeviceCommand(c, s)),
      M.Step(c.Mux(), s.mux, MuxInput(c, s)),
      M.TrafficStep(c.Mux(), s.traffic, s.mux, MuxInput(c, s)),
      X.Step(c.Crossbar(), s.xbar, Cmds(i), BankSide(c, s)),
      M.Phases(c.Mux(), s.mux, MuxInput(c, s), s.ref.cmd, RefreshReq(c, s)),
      P.Step(c.Phy(), s.phy, s.phases, BusData(c, s, i).0, BusData(c, s, i).1))
  }

  /** Reset, for given memory images. The refresher's timer, its postponer and its calibration timer may stand anywhere,
      as long as the sequencer's own run is over before the first request; its reset is one such state. */
  ghost predicate Initial(c: Config, s: State) {
    && WellFormed(c, s)
    && (forall b | 0 <= b < c.Nbanks() :: s.worlds[b] == BM.Start(c.Bank()))
    && s.ref.fsm.Idle? && R.Settles(c.Refresher(), s.ref)
    && s.dev == R.Device(None, None, None)
    && s.mux == M.Reset(c.Mux())
    && s.traffic == M.Traffic(None, None, None)
    && s.xbar == X.Reset(c.Crossbar())
    && (forall k | 0 <= k < c.nphases :: s.phases[k] == P.Idle)
    && (forall b | 0 <= b < c.Nbanks() ::
          !s.phy.banks[b].active && forall k | 0 <= k < c.writeLatency :: s.phy.banks[b].writes[k].None?)
  }

  /** The sequencer's own run after reset is over before the first request; without postponing there is none. */
  predicate Boots(c: Config) { c.withRefresh && c.postponing > 1 ==> c.tRP + c.tRFC < c.tREFI }

  /** The refresher's reset. Where its own run would still be under way at the first request, it is left out. */
  function StartRefresher(c: Config): (r: R.State)
    ensures r.fsm.Idle? && R.Settles(c.Refresher(), r)
  {
    R.ResetSettles(c.Refresher());
    if Boots(c) then R.Reset(c.Refresher()) else R.Reset(c.Refresher()).(runsLeft := 0)
  }

  /** Reset with given memory images. */
  function Start(c: Config, images: seq<seq<P.Word>>): State {
    State(seq(c.Nbanks(), _ => BM.Start(c.Bank())),
          StartRefresher(c),
          R.Device(None, None, None),
          M.Reset(c.Mux()),
          M.Traffic(None, None, None),
          X.Reset(c.Crossbar()),
          seq(c.nphases, _ => P.Idle),
          P.Reset(c.Phy(), images))
  }

  /** Every valid configuration has an initial state for every set of memory images of its size. */
  lemma StartIsInitial(c: Config, images: seq<seq<P.Word>>)
    requires c.Valid() && |images| == c.Nbanks()
    requires forall b | 0 <= b < |images| ::
               |images[b]| == c.Phy().Cells() && forall k | 0 <= k < |images[b]| :: |images[b][k]| == c.nbytes
    ensures Initial(c, Start(c, images))
    ensures forall b | 0 <= b < c.Nbanks() :: Start(c, images).phy.banks[b].mem == images[b]
    ensures Boots(c) ==> Start(c, images).ref == R.Reset(c.Refresher())
  {
    var s := Start(c, images);
    forall b | 0 <= b < c.Nbanks() ensures P.BankOk(c.Phy(), s.phy.banks[b]) {
      assert s.phy.banks[b].mem == images[b];
    }
  }

  /** One clock cycle. */
  ghost predicate Follows(c: Config, s: State, i: Input, s': State) {
    Fits(c, s, i) && s' == Step(c, s, i)
  }

  ghost function Next(c: Config): (State, Input, State) -> bool { (s, i, s') => Follows(c, s, i, s') }

  /** A run: states and inputs of consecutive cycles from reset. */
  ghost predicate IsRun(c: Config, states: seq<State>, ins: seq<Input>) {
    c.Valid() && Chain(Next(c), states, ins) && Initial(c, states[0])
  }

  lemma RunCycle(c: Config, states: seq<State>, ins: seq<Input>, n: nat)
    requires IsRun(c, states, ins) && n < |ins|
    ensures Follows(c, states[n], ins[n], states[n + 1])
  {
    assert Next(c)(states[n], ins[n], states[n + 1]);
  }

  lemma RunIsWellFormed(c: Config, states: seq<State>, ins: seq<Input>, n: nat)
    requires IsRun(c, states, ins) && n <= |ins|
    ensures WellFormed(c, states[n])
  {
    if n > 0 { RunCycle(c, states, ins, n - 1); }
  }

  ghost function Advance(c: Config, s: State, i: Input): State { if Fits(c, s, i) then Step(c, s, i) else s }

  lemma AdvanceFollows(c: Config, s: State, i: Input)
    requires Fits(c, s, i)
    ensures Next(c)(s, i, Advance(c, s, i)) && WellFormed(c, Advance(c, s, i))
  {
  }

  /** Every sequence of inputs has a run, from every initial state. */
  lemma RunsExist(c: Config, s: State, ins: seq<Input>) returns (states: seq<State>)
    requires c.Valid() && Initial(c, s) && forall n | 0 <= n < |ins| :: Sized(c, ins[n])
    ensures IsRun(c, states, ins) && states[0] == s
  {
    var ok := (t: State) => WellFormed(c, t);
    var step := (t: State, i: Input) => Advance(c, t, i);
    forall t: State, i: Input {:trigger step(t, i)} | ok(t) && Sized(c, i)
      ensures Next(c)(t, i, step(t, i)) && ok(step(t, i))
    {
      AdvanceFollows(c, t, i);
    }
    states := ChainsExist(Next(c), step, ok, i => Sized(c, i), s, ins);
  }
}
