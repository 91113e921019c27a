/** Crossbar, bank machines, multiplexer and memory model together are a flat byte-maskable memory. */
module EndToEnd {
  import opened Common
  import opened Bits
  import opened Runs
  import opened Controllers
  import opened ControllerSafety
  import opened Turnarounds
  import opened ControllerTiming
  import opened CrossbarOrder
  import opened DataStrobes
  import opened PhyTracking
  import A = AddressPath
  import BM = BankMachines
  import P = PhyModels
  import M = Multiplexers
  import X = Crossbars
  import Steering

  /** The PHY's write latency exceeds neither the write-to-precharge nor the write-to-read time of the controller:
      written data arrives before its row can be closed, and before a later read reaches the memory. */
  ghost predicate LatencyFits(c: Config) { c.writeLatency <= c.Timing().tWTP && c.writeLatency <= c.Mux().tWTR }

  // The reference memory ---------------------------------------------------------------------------

  /** Native address of the command being served. */
  function ServedAddress(c: Config, s: State): nat
    requires s.mux.grantReq < |s.worlds| && s.worlds[s.mux.grantReq].s.buffer.Some?
  {
    A.AddressOf(c.BankMap(), s.mux.grantReq, s.worlds[s.mux.grantReq].s.buffer.value.address)
  }

  /** A write of the reference memory. */
  datatype Write = Write(address: nat, data: P.Word, we: seq<bool>)

  /** The write issued in cycle `k`, with the data its master supplies when strobed. */
  ghost function WriteOf(c: Config, states: seq<State>, ins: seq<Input>, k: nat): Option<Write> {
    if k < |states| && c.Valid() && WellFormed(c, states[k]) && WriteIssued(c, states[k])
       && states[k].worlds[states[k].mux.grantReq].s.buffer.Some?
       && k + 1 + c.writeLatency < |ins| && Owner(states[k]) < |ins[k + 1 + c.writeLatency]|
    then
      var master := ins[k + 1 + c.writeLatency][Owner(states[k])];
      Some(Write(ServedAddress(c, states[k]), master.data, master.we))
    else None
  }

  function Apply(flat: seq<P.Word>, w: Option<Write>): (r: seq<P.Word>)
    ensures |r| == |flat|
  {
    if w.Some? && w.value.address < |flat| then
      flat[w.value.address := P.Merge(flat[w.value.address], w.value.data, w.value.we)]
    else flat
  }

  /** The memory images by native address. */
  ghost function Image(c: Config, s: State): (flat: seq<P.Word>)
    requires c.Valid() && WellFormed(c, s)
    ensures |flat| == A.Addresses(c.BankMap())
  {
    seq(A.Addresses(c.BankMap()), a requires 0 <= a < A.Addresses(c.BankMap()) && c.Valid() && WellFormed(c, s) =>
      A.AddressRoundTrip(c.BankMap(), a);
      s.phy.banks[A.BankOf(c.BankMap(), a)].mem[A.RcaOf(c.BankMap(), a)])
  }

  /** The reference: a plain memory to which the writes issued in the first `n` cycles are applied in order. */
  ghost function Flat(c: Config, states: seq<State>, ins: seq<Input>, n: nat): (flat: seq<P.Word>)
    requires 0 < |states| && c.Valid() && WellFormed(c, states[0])
    ensures |flat| == A.Addresses(c.BankMap())
  {
    if n == 0 then Image(c, states[0]) else Apply(Flat(c, states, ins, n - 1), WriteOf(c, states, ins, n - 1))
  }

  // Commands and cells -----------------------------------------------------------------------------

  /** The cell a column command addresses is the served request's. */
  lemma ColumnTarget(c: Config, s: State, i: Input, b: nat)
    requires Inv(c, s) && AllInRange(c, s) && Fits(c, s, i) && b < c.Nbanks() && BusCommand(c, s, i, b).Column()
    ensures s.mux.grantReq == b && s.worlds[b].s.buffer.Some?
    ensures BusCommand(c, s, i, b).Wr? ==> WriteIssued(c, s)
    ensures BusCommand(c, s, i, b).Rd? ==> ReadIssued(c, s)
    ensures var r := s.worlds[b].s.buffer.value.address;
            && r < Pow2(c.RcaBits())
            && s.worlds[b].d.open == Some(A.Row(c.Slicer(), r))
            && BusCommand(c, s, i, b).col == A.Col(c.Slicer(), r)
            && BusCommand(c, s, i, b).col < Pow2(c.colbits)
            && P.Cell(c.Phy(), A.Row(c.Slicer(), r), A.Col(c.Slicer(), r)) == r
  {
    hide Step, Inv, BusCommand, A.Row, A.Col, P.Cell, M.WriteAccepted, M.ReadAccepted, AllInRange;
    ColumnOnlyAccepted(c, s, i, b);
    ColumnRequest(c, s, i, b);
    RequestInRange(c, s, b);
    CellOfRequest(c, s.worlds[b].s.buffer.value.address);
  }

  lemma CellOfRequest(c: Config, r: nat)
    requires c.Valid()
    ensures A.Col(c.Slicer(), r) < Pow2(c.colbits)
    ensures P.Cell(c.Phy(), A.Row(c.Slicer(), r), A.Col(c.Slicer(), r)) == r
  {
    hide A.Row, A.Col, From, Up;
    A.ModelCellIndex(c.Slicer(), r);
  }

  /** A column command is the buffered request's, in the row that is open. */
  lemma ColumnRequest(c: Config, s: State, i: Input, b: nat)
    requires Inv(c, s) && Fits(c, s, i) && b < c.Nbanks() && BusCommand(c, s, i, b).Column()
    ensures s.worlds[b].s.buffer.Some?
    ensures var r := s.worlds[b].s.buffer.value.address;
            && s.worlds[b].d.open == Some(A.Row(c.Slicer(), r))
            && BusCommand(c, s, i, b).col == A.Col(c.Slicer(), r)
  {
    hide Step, A.Row, A.Col;
    assert BankInv(c, s, b);
    BM.IssuedMeaning(c.Bank(), s.worlds[b].s, BankInput(c, s, i, b));
  }

  lemma RequestInRange(c: Config, s: State, b: nat)
    requires AllInRange(c, s) && b < c.Nbanks() && s.worlds[b].s.buffer.Some?
    ensures s.worlds[b].s.buffer.value.address < Pow2(c.RcaBits())
  {
    assert InRange(c, s.worlds[b]);
    assert BM.Pending(s.worlds[b].s)[0] == s.worlds[b].s.buffer.value;
  }

  lemma IssuedCommand(c: Config, s: State, i: Input)
    requires Inv(c, s) && Fits(c, s, i)
    ensures WriteIssued(c, s) ==> BusCommand(c, s, i, s.mux.grantReq).Wr?
    ensures ReadIssued(c, s) ==> BusCommand(c, s, i, s.mux.grantReq).Rd?
  {
    hide Step;
    ColumnAccepted(c, s, i);
  }

  // Landing writes ---------------------------------------------------------------------------------

  lemma IdlePhases(c: Config, s: State, b: nat)
    requires c.Valid() && Initial(c, s)
    ensures P.Written(c.Phy(), s.phases, b).None?
  {
    hide Step;
    Steering.CountNone(s.phases, P.Writes);
  }

  /** Column of the write that bank `b` was told in cycle `k`. */
  ghost function WriteAt(c: Config, states: seq<State>, ins: seq<Input>, k: int, b: nat): Option<nat> {
    if 0 <= k < |ins| && k < |states| && Fits(c, states[k], ins[k]) && b < c.Nbanks()
       && BusCommand(c, states[k], ins[k], b).Wr?
    then Some(BusCommand(c, states[k], ins[k], b).col) else None
  }

  /** The write a bank decodes in cycle `n` was issued in the cycle before. */
  lemma WrittenAt(c: Config, states: seq<State>, ins: seq<Input>, n: nat, b: nat)
    requires IsRun(c, states, ins) && n <= |ins| && b < c.Nbanks()
    ensures P.Written(c.Phy(), states[n].phases, b) == WriteAt(c, states, ins, n - 1, b)
  {
    hide Step, Initial, P.Written, BusCommand;
    if n == 0 { IdlePhases(c, states[0], b); } else { RunDecodes(c, states, ins, n - 1, b); }
  }

  ghost function PendingLine(c: Config, b: nat): State -> seq<Option<nat>> {
    (s: State) => if b < |s.phy.banks| then s.phy.banks[b].writes else []
  }

  ghost function PendingFeed(c: Config, b: nat): (State, Input) -> Option<nat> {
    (s: State, i: Input) => P.Written(c.Phy(), s.phases, b)
  }

  lemma PendingShifts(c: Config, b: nat)
    requires b < c.Nbanks() && c.writeLatency > 0
    ensures forall s, i, s' | SafeNext(c)(s, i, s') && PendingLine(c, b)(s) != [] ::
              PendingLine(c, b)(s') == [PendingFeed(c, b)(s, i)] + PendingLine(c, b)(s)[..|PendingLine(c, b)(s)| - 1]
  {
    hide Step;
    forall s: State, i: Input, s': State | SafeNext(c)(s, i, s')
      ensures PendingLine(c, b)(s') == [PendingFeed(c, b)(s, i)] + PendingLine(c, b)(s)[..|PendingLine(c, b)(s)| - 1]
    {
      FollowsPhy(c, s, i, s', b);
    }
  }

  lemma PendingStart(c: Config, s: State, b: nat)
    requires c.Valid() && Initial(c, s) && b < c.Nbanks()
    ensures |PendingLine(c, b)(s)| == c.writeLatency
    ensures forall j | 0 <= j < c.writeLatency :: PendingLine(c, b)(s)[j].None?
  {
    hide Step;
  }

  /** The write reaching a bank's memory in cycle `n` was issued `writeLatency + 1` cycles before. */
  lemma LandingAt(c: Config, states: seq<State>, ins: seq<Input>, n: nat, b: nat)
    requires IsRun(c, states, ins) && n <= |ins| && b < c.Nbanks()
    ensures WellFormed(c, states[n])
    ensures P.Landing(c.Phy(), states[n].phases, states[n].phy.banks[b], b)
         == WriteAt(c, states, ins, n - 1 - c.writeLatency, b)
  {
    hide Step, Initial, BusCommand, P.Written, WriteAt;
    RunIsWellFormed(c, states, ins, n);
    if c.writeLatency == 0 {
      WrittenAt(c, states, ins, n, b);
    } else {
      PendingAt(c, states, ins, n, b);
    }
  }

  /** The end of a bank's delay line. */
  lemma PendingAt(c: Config, states: seq<State>, ins: seq<Input>, n: nat, b: nat)
    requires IsRun(c, states, ins) && n <= |ins| && b < c.Nbanks() && c.writeLatency > 0
    ensures |PendingLine(c, b)(states[n])| == c.writeLatency
    ensures PendingLine(c, b)(states[n])[c.writeLatency - 1] == WriteAt(c, states, ins, n - 1 - c.writeLatency, b)
  {
    hide Step, Initial, WellFormed, P.Written, BusCommand;
    PendingShifts(c, b);
    PendingStart(c, states[0], b);
    RunIsSafe(c, states, ins);
    ChainShift(SafeNext(c), PendingLine(c, b), PendingFeed(c, b), states, ins, n, c.writeLatency - 1);
    if c.writeLatency <= n { WrittenAt(c, states, ins, n - c.writeLatency, b); }
  }

  /** The data bus carries the word of the master whose write lands. */
  lemma DataAt(c: Config, states: seq<State>, ins: seq<Input>, n: nat)
    requires IsRun(c, states, ins) && c.writeLatency < n < |ins|
    requires WellFormed(c, states[n - 1 - c.writeLatency]) && WriteIssued(c, states[n - 1 - c.writeLatency])
    ensures Fits(c, states[n], ins[n])
    ensures var m := Owner(states[n - 1 - c.writeLatency]);
            m < c.nmasters && BusData(c, states[n], ins[n]) == (ins[n][m].data, ins[n][m].we)
  {
    hide Step, Initial;
    RunCycle(c, states, ins, n);
    var m := Owner(states[n - 1 - c.writeLatency]);
    WriteStrobes(c, states, ins, m, n);
    forall other: nat | other < c.nmasters && other != m ensures !X.WdataReady(c.Crossbar(), states[n].xbar, other) {
      WriteStrobes(c, states, ins, other, n);
    }
    assert X.OnlyStrobed(c.Crossbar(), states[n].xbar, m);
  }

  // Memory contents --------------------------------------------------------------------------------

  /** The banks' memories hold the flat memory. */
  ghost predicate Holds(c: Config, s: State, flat: seq<P.Word>)
    requires c.Valid() && WellFormed(c, s) && |flat| == A.Addresses(c.BankMap())
  {
    forall b: nat, rca: nat | b < c.Nbanks() && rca < Pow2(c.RcaBits()) :: CellHolds(c, s, flat, b, rca)
  }

  ghost predicate CellHolds(c: Config, s: State, flat: seq<P.Word>, b: nat, rca: nat)
    requires c.Valid() && WellFormed(c, s) && |flat| == A.Addresses(c.BankMap())
    requires b < c.Nbanks() && rca < Pow2(c.RcaBits())
  {
    && rca < |s.phy.banks[b].mem| && A.AddressOf(c.BankMap(), b, rca) < |flat|
    && s.phy.banks[b].mem[rca] == flat[A.AddressOf(c.BankMap(), b, rca)]
  }

  lemma ImageHolds(c: Config, s: State)
    requires c.Valid() && WellFormed(c, s)
    ensures Holds(c, s, Image(c, s))
  {
    hide WellFormed, CellHolds, Image;
    var flat := Image(c, s);
    forall b: nat, rca: nat | b < c.Nbanks() && rca < Pow2(c.RcaBits()) ensures CellHolds(c, s, flat, b, rca) {
      ImageCell(c, s, b, rca);
    }
  }

  lemma ImageCell(c: Config, s: State, b: nat, rca: nat)
    requires c.Valid() && WellFormed(c, s) && b < c.Nbanks() && rca < Pow2(c.RcaBits())
    ensures CellHolds(c, s, Image(c, s), b, rca)
  {
    hide X.WellFormed, M.WellFormed, A.AddressOf, A.BankOf, A.RcaOf, P.WordOk;
    A.CellRoundTrip(c.BankMap(), b, rca);
    assert P.BankOk(c.Phy(), s.phy.banks[b]);
  }

  /** Distinct cells have distinct native addresses. */
  lemma DistinctCells(c: Config, b: nat, rca: nat, b': nat, rca': nat)
    requires c.Valid() && b < c.Nbanks() && b' < c.Nbanks() && rca < Pow2(c.RcaBits()) && rca' < Pow2(c.RcaBits())
    requires A.AddressOf(c.BankMap(), b, rca) == A.AddressOf(c.BankMap(), b', rca')
    ensures b == b' && rca == rca'
  {
    A.CellRoundTrip(c.BankMap(), b, rca);
    A.CellRoundTrip(c.BankMap(), b', rca');
  }

  /** A bank whose pending write lands on row and column of `rca`, with its row open. */
  lemma BankMemory(c: Config, bank: P.Bank, fs: seq<P.Phase>, b: nat, data: P.Word, we: seq<bool>, rca: nat)
    requires c.Valid() && P.BankOk(c.Phy(), bank) && rca < Pow2(c.RcaBits())
    requires var landing := P.Landing(c.Phy(), fs, bank, b);
             landing.Some? ==> bank.active && P.Cell(c.Phy(), bank.row, landing.value) == rca
    ensures P.BankStep(c.Phy(), bank, fs, b, data, we).mem
         == if P.Landing(c.Phy(), fs, bank, b).Some? then
             bank.mem[rca := P.Merge(bank.mem[rca], data, we)] else bank.mem
  {
  }

  /** The reference write landing in cycle `n`. */
  ghost function LandingWrite(c: Config, states: seq<State>, ins: seq<Input>, n: nat): Option<Write> {
    if c.writeLatency < n then WriteOf(c, states, ins, n - 1 - c.writeLatency) else None
  }

  /** A write issued in `s` for column `col` of bank `b` addresses, in `s'`, a cell of the bank's active row: the cell
      of the request being served. */
  ghost predicate WritesCell(c: Config, s: State, s': State, b: nat, col: nat) {
    && c.Valid() && WellFormed(c, s) && WellFormed(c, s') && b < c.Nbanks()
    && WriteIssued(c, s) && s.mux.grantReq == b && s.worlds[b].s.buffer.Some?
    && s.worlds[b].s.buffer.value.address < Pow2(c.RcaBits())
    && s'.phy.banks[b].active
    && P.Cell(c.Phy(), s'.phy.banks[b].row, col) == s.worlds[b].s.buffer.value.address
  }

  /** Where the write issued in cycle `n - 1 - writeLatency` goes, and that its row is open when it lands. */
  lemma WriteTarget(c: Config, states: seq<State>, ins: seq<Input>, n: nat, b: nat)
    requires IsRun(c, states, ins) && LatencyFits(c) && c.writeLatency < n < |ins| && b < c.Nbanks()
    requires WriteAt(c, states, ins, n - 1 - c.writeLatency, b).Some?
    ensures WritesCell(c, states[n - 1 - c.writeLatency], states[n], b,
                       WriteAt(c, states, ins, n - 1 - c.writeLatency, b).value)
  {
    hide Step, Initial;
    var k := n - 1 - c.writeLatency;
    RunIsWellFormed(c, states, ins, n);
    RunInv(c, states, ins, k);
    RunInRange(c, states, ins, k);
    ColumnTarget(c, states[k], ins[k], b);
    RowHeldForWrite(c, states, ins, b, k, n);
  }

  lemma LandingWriteIs(c: Config, states: seq<State>, ins: seq<Input>, n: nat)
    requires c.Valid() && c.writeLatency < n < |ins| <= |states| && Sized(c, ins[n])
    requires var s := states[n - 1 - c.writeLatency];
             WellFormed(c, s) && WriteIssued(c, s) && s.worlds[s.mux.grantReq].s.buffer.Some?
    ensures var s := states[n - 1 - c.writeLatency];
            && Owner(s) < |ins[n]|
            && LandingWrite(c, states, ins, n)
               == Some(Write(ServedAddress(c, s), ins[n][Owner(s)].data, ins[n][Owner(s)].we))
  {
    hide WriteIssued;
  }

  /** The model's clock edge for a bank on a run, with the bus data of the landing write. */
  lemma LandedStep(c: Config, states: seq<State>, ins: seq<Input>, n: nat, b: nat)
    requires IsRun(c, states, ins) && c.writeLatency < n < |ins| && b < c.Nbanks()
    requires var s := states[n - 1 - c.writeLatency];
             WellFormed(c, s) && WriteIssued(c, s) && s.worlds[s.mux.grantReq].s.buffer.Some?
    ensures WellFormed(c, states[n]) && WellFormed(c, states[n + 1])
    ensures LandingWrite(c, states, ins, n).Some?
    ensures var w := LandingWrite(c, states, ins, n).value;
            && w.address == ServedAddress(c, states[n - 1 - c.writeLatency])
            && states[n + 1].phy.banks[b]
               == P.BankStep(c.Phy(), states[n].phy.banks[b], states[n].phases, b, w.data, w.we)
  {
    hide Step, Initial, BusData, P.BankStep, WriteIssued, WriteOf, LandingWrite;
    RunIsWellFormed(c, states, ins, n);
    RunIsWellFormed(c, states, ins, n + 1);
    RunCycle(c, states, ins, n);
    DataAt(c, states, ins, n);
    LandingWriteIs(c, states, ins, n);
    FollowsPhy(c, states[n], ins[n], states[n + 1], b);
  }

  /** Over a cycle the write is merged into cell `r` of bank `b`, the cell of its address. */
  ghost predicate Lands(c: Config, s: State, s': State, w: Write, b: nat, r: nat) {
    && c.Valid() && WellFormed(c, s) && WellFormed(c, s') && b < c.Nbanks() && r < Pow2(c.RcaBits())
    && w.address == A.AddressOf(c.BankMap(), b, r)
    && s'.phy.banks[b].mem == s.phy.banks[b].mem[r := P.Merge(s.phy.banks[b].mem[r], w.data, w.we)]
  }

  /** A bank's memory over cycle `n`, when a write of it lands. */
  lemma LandedMemory(c: Config, states: seq<State>, ins: seq<Input>, n: nat, b: nat) returns (r: nat)
    requires IsRun(c, states, ins) && LatencyFits(c) && c.writeLatency < n < |ins| && b < c.Nbanks()
    requires WriteAt(c, states, ins, n - 1 - c.writeLatency, b).Some?
    ensures LandingWrite(c, states, ins, n).Some?
    ensures Lands(c, states[n], states[n + 1], LandingWrite(c, states, ins, n).value, b, r)
  {
    hide Step, Initial, BusCommand, P.Landing, P.BankStep, P.Cell, WriteIssued, WriteOf, LandingWrite;
    var k := n - 1 - c.writeLatency;
    RunIsWellFormed(c, states, ins, n);
    WriteTarget(c, states, ins, n, b);
    r := states[k].worlds[b].s.buffer.value.address;
    LandingAt(c, states, ins, n, b);
    LandedStep(c, states, ins, n, b);
    var w := LandingWrite(c, states, ins, n).value;
    BankMemory(c, states[n].phy.banks[b], states[n].phases, b, w.data, w.we, r);
  }

  /** A bank's memory does not change in a cycle in which no write of it lands. */
  lemma UntouchedMemory(c: Config, states: seq<State>, ins: seq<Input>, n: nat, b: nat)
    requires IsRun(c, states, ins) && n < |ins| && b < c.Nbanks()
    requires WriteAt(c, states, ins, n - 1 - c.writeLatency, b).None?
    ensures WellFormed(c, states[n]) && WellFormed(c, states[n + 1])
    ensures states[n + 1].phy.banks[b].mem == states[n].phy.banks[b].mem
  {
    hide Step, Initial, BusCommand, BusData, P.Landing, P.BankStep, P.Cell;
    RunIsWellFormed(c, states, ins, n);
    RunIsWellFormed(c, states, ins, n + 1);
    LandingAt(c, states, ins, n, b);
    RunCycle(c, states, ins, n);
    FollowsPhy(c, states[n], ins[n], states[n + 1], b);
    BankMemory(c, states[n].phy.banks[b], states[n].phases, b, BusData(c, states[n], ins[n]).0,
               BusData(c, states[n], ins[n]).1, 0);
  }

  lemma LandingIssued(c: Config, states: seq<State>, ins: seq<Input>, n: nat)
    ensures LandingWrite(c, states, ins, n).Some? ==>
              c.writeLatency < n && n - 1 - c.writeLatency < |states|
              && var s := states[n - 1 - c.writeLatency]; c.Valid() && WellFormed(c, s) && WriteIssued(c, s)
  {
  }

  /** No write of a bank lands unless the reference has one for it. */
  lemma LandingBank(c: Config, states: seq<State>, ins: seq<Input>, n: nat, b: nat)
    requires IsRun(c, states, ins) && c.writeLatency < n < |ins| && b < c.Nbanks()
    ensures LandingWrite(c, states, ins, n).Some? ==>
              (WriteAt(c, states, ins, n - 1 - c.writeLatency, b).Some?
               <==> states[n - 1 - c.writeLatency].mux.grantReq == b)
  {
    hide Step, Initial, Inv, BusCommand, WriteIssued, ReadIssued, WriteOf;
    var k := n - 1 - c.writeLatency;
    LandingIssued(c, states, ins, n);
    RunInv(c, states, ins, k);
    RunCycle(c, states, ins, k);
    IssuedCommand(c, states[k], ins[k]);
    ColumnOnlyAccepted(c, states[k], ins[k], b);
  }

  lemma CellUntouched(c: Config, s: State, s': State, flat: seq<P.Word>, w: Option<Write>, b: nat, rca: nat)
    requires c.Valid() && WellFormed(c, s) && WellFormed(c, s') && |flat| == A.Addresses(c.BankMap())
    requires b < c.Nbanks() && rca < Pow2(c.RcaBits()) && CellHolds(c, s, flat, b, rca)
    requires s'.phy.banks[b].mem == s.phy.banks[b].mem
    requires w.Some? ==> w.value.address != A.AddressOf(c.BankMap(), b, rca)
    ensures CellHolds(c, s', Apply(flat, w), b, rca)
  {
    A.CellRoundTrip(c.BankMap(), b, rca);
  }

  lemma CellTouched(c: Config, s: State, s': State, flat: seq<P.Word>, w: Write, b: nat, r: nat, rca: nat)
    requires c.Valid() && WellFormed(c, s) && WellFormed(c, s') && |flat| == A.Addresses(c.BankMap())
    requires b < c.Nbanks() && rca < Pow2(c.RcaBits()) && r < Pow2(c.RcaBits())
    requires CellHolds(c, s, flat, b, rca) && CellHolds(c, s, flat, b, r)
    requires w.address == A.AddressOf(c.BankMap(), b, r)
    requires s'.phy.banks[b].mem == s.phy.banks[b].mem[r := P.Merge(s.phy.banks[b].mem[r], w.data, w.we)]
    ensures CellHolds(c, s', Apply(flat, Some(w)), b, rca)
  {
    A.CellRoundTrip(c.BankMap(), b, rca);
    A.CellRoundTrip(c.BankMap(), b, r);
  }

  lemma CellStep(c: Config, states: seq<State>, ins: seq<Input>, n: nat, flat: seq<P.Word>, b: nat, rca: nat)
    requires IsRun(c, states, ins) && LatencyFits(c) && n < |ins| && |flat| == A.Addresses(c.BankMap())
    requires |states| == |ins| + 1 && c.Valid() && WellFormed(c, states[n]) && Holds(c, states[n], flat)
    requires b < c.Nbanks() && rca < Pow2(c.RcaBits())
    ensures WellFormed(c, states[n + 1])
    ensures CellHolds(c, states[n + 1], Apply(flat, LandingWrite(c, states, ins, n)), b, rca)
  {
    hide Step, Initial, BusCommand, IsRun, WriteOf, Apply, CellHolds, WriteAt;
    AtLeastZero(c, states, ins, n, b);
    assert CellHolds(c, states[n], flat, b, rca);
    var k := n - 1 - c.writeLatency;
    if c.writeLatency < n { LandingBank(c, states, ins, n, b); }
    if WriteAt(c, states, ins, k, b).Some? {
      var r := LandedMemory(c, states, ins, n, b);
      assert CellHolds(c, states[n], flat, b, r);
      CellTouched(c, states[n], states[n + 1], flat, LandingWrite(c, states, ins, n).value, b, r, rca);
    } else {
      UntouchedMemory(c, states, ins, n, b);
      OtherCell(c, states, ins, n, b, rca);
      CellUntouched(c, states[n], states[n + 1], flat, LandingWrite(c, states, ins, n), b, rca);
    }
  }

  lemma AtLeastZero(c: Config, states: seq<State>, ins: seq<Input>, n: nat, b: nat)
    ensures WriteAt(c, states, ins, n - 1 - c.writeLatency, b).Some? ==> c.writeLatency < n
    ensures LandingWrite(c, states, ins, n).Some? ==> c.writeLatency < n
  {
  }

  /** The reference write of another bank does not touch this bank's cells. */
  lemma OtherCell(c: Config, states: seq<State>, ins: seq<Input>, n: nat, b: nat, rca: nat)
    requires IsRun(c, states, ins) && n < |ins| && b < c.Nbanks() && rca < Pow2(c.RcaBits())
    requires LandingWrite(c, states, ins, n).Some? ==> states[n - 1 - c.writeLatency].mux.grantReq != b
    ensures LandingWrite(c, states, ins, n).Some? ==>
              LandingWrite(c, states, ins, n).value.address != A.AddressOf(c.BankMap(), b, rca)
  {
    hide Step, Initial;
    if LandingWrite(c, states, ins, n).Some? {
      var k := n - 1 - c.writeLatency;
      var g := states[k].mux.grantReq;
      RunInRange(c, states, ins, k);
      assert InRange(c, states[k].worlds[g]);
      assert BM.Pending(states[k].worlds[g].s)[0] == states[k].worlds[g].s.buffer.value;
      if ServedAddress(c, states[k]) == A.AddressOf(c.BankMap(), b, rca) {
        DistinctCells(c, g, states[k].worlds[g].s.buffer.value.address, b, rca);
      }
    }
  }

  /** Writes landed before cycle `n`: those issued more than `writeLatency + 1` cycles before. */
  function Landed(c: Config, n: nat): nat { if n < c.writeLatency + 1 then 0 else n - 1 - c.writeLatency }

  /** In cycle `n` the banks hold the reference memory of the landed writes. */
  ghost predicate HoldsAt(c: Config, states: seq<State>, ins: seq<Input>, n: nat) {
    && n < |states| && c.Valid() && WellFormed(c, states[0]) && WellFormed(c, states[n])
    && Holds(c, states[n], Flat(c, states, ins, Landed(c, n)))
  }

  lemma HoldsStep(c: Config, states: seq<State>, ins: seq<Input>, n: nat)
    requires IsRun(c, states, ins) && LatencyFits(c) && n < |ins| && HoldsAt(c, states, ins, n)
    ensures HoldsAt(c, states, ins, n + 1)
  {
    hide Step, Initial, LandingWrite, Apply, WriteOf;
    RunIsWellFormed(c, states, ins, n + 1);
    var flat := Flat(c, states, ins, Landed(c, n));
    var s', flat' := states[n + 1], Apply(flat, LandingWrite(c, states, ins, n));
    forall b: nat, rca: nat | b < c.Nbanks() && rca < Pow2(c.RcaBits()) ensures CellHolds(c, s', flat', b, rca)
    {
      CellStep(c, states, ins, n, flat, b, rca);
    }
    FlatAdvances(c, states, ins, n);
  }

  lemma FlatAdvances(c: Config, states: seq<State>, ins: seq<Input>, n: nat)
    requires n < |ins| < |states| && c.Valid() && WellFormed(c, states[0])
    ensures Flat(c, states, ins, Landed(c, n + 1))
         == Apply(Flat(c, states, ins, Landed(c, n)), LandingWrite(c, states, ins, n))
  {
    hide WriteOf, Apply, WellFormed;
    if n <= c.writeLatency {
      assert Landed(c, n) == Landed(c, n + 1) == 0;
      assert LandingWrite(c, states, ins, n).None?;
      ApplyNothing(Flat(c, states, ins, 0));
    } else {
      assert Landed(c, n + 1) == Landed(c, n) + 1;
    }
  }

  lemma ApplyNothing(flat: seq<P.Word>)
    ensures Apply(flat, None) == flat
  {
  }

  lemma RunHolds(c: Config, states: seq<State>, ins: seq<Input>, n: nat)
    requires IsRun(c, states, ins) && LatencyFits(c) && n <= |ins|
    ensures HoldsAt(c, states, ins, n)
  {
    hide Step, Initial, Holds;
    RunIsWellFormed(c, states, ins, 0);
    ImageHolds(c, states[0]);
    forall k: nat | k < n && HoldsAt(c, states, ins, k) ensures HoldsAt(c, states, ins, k + 1) {
      HoldsStep(c, states, ins, k);
    }
    UpTo((k: nat) => HoldsAt(c, states, ins, k), n);
  }

  // Reads ------------------------------------------------------------------------------------------

  lemma {:induction false} ZeroBus(q: P.Settings, fs: seq<P.Phase>, banks: seq<P.Bank>, b: nat)
    requires q.Valid() && forall i | 0 <= i < |banks| :: P.BankOk(q, banks[i])
    requires forall i: nat | b <= i < |banks| :: P.ReadCol(q, fs, i).None?
    ensures P.ReadBus(q, fs, banks, b) == P.Zero(q)
    decreases |banks| - b
  {
    hide P.ReadCol, P.BankOk;
    if b < |banks| {
      ZeroBus(q, fs, banks, b + 1);
      OrZero(q, P.Zero(q));
    }
  }

  lemma OrZero(q: P.Settings, w: P.Word)
    requires |w| == q.nbytes
    ensures P.Or(w, P.Zero(q)) == w && P.Or(P.Zero(q), w) == w
  {
  }

  /** The read bus carries what the only bank being read drives. */
  lemma {:induction false} BusOfOne(q: P.Settings, fs: seq<P.Phase>, banks: seq<P.Bank>, from: nat, b: nat)
    requires q.Valid() && forall i | 0 <= i < |banks| :: P.BankOk(q, banks[i])
    requires from <= b < |banks| && forall i: nat | from <= i < |banks| && i != b :: P.ReadCol(q, fs, i).None?
    ensures P.ReadBus(q, fs, banks, from) == P.ReadData(q, fs, banks[b], b)
    decreases b - from
  {
    hide P.ReadCol, P.BankOk, P.ReadData;
    if from == b {
      ZeroBus(q, fs, banks, b + 1);
      OrZero(q, P.ReadData(q, fs, banks[b], b));
    } else {
      BusOfOne(q, fs, banks, from + 1, b);
      NoRead(q, fs, banks[from], from);
      OrZero(q, P.ReadData(q, fs, banks[b], b));
    }
  }

  lemma NoRead(q: P.Settings, fs: seq<P.Phase>, bank: P.Bank, b: nat)
    requires q.Valid() && P.BankOk(q, bank) && P.ReadCol(q, fs, b).None?
    ensures P.ReadData(q, fs, bank, b) == P.Zero(q)
  {
  }

  /** What the model's banks drive in this cycle. */
  function ModelBus(c: Config, s: State): P.Word
    requires c.Valid() && WellFormed(c, s)
  {
    P.ReadBus(c.Phy(), s.phases, s.phy.banks, 0)
  }

  /** The bank being read drives the addressed cell onto the bus in the next cycle, and no other bank drives
      anything. */
  lemma ReadDriven(c: Config, states: seq<State>, ins: seq<Input>, k: nat)
    requires IsRun(c, states, ins) && k < |ins|
    requires WellFormed(c, states[k]) && WellFormed(c, states[k + 1]) && ReadIssued(c, states[k])
    ensures ReadsCell(c, states[k], states[k + 1])
    ensures Drives(c, states[k], states[k + 1])
  {
    hide Step, Initial, ReadIssued, ReadsCell, OnlyReads, Drives, WellFormed;
    ReadTarget(c, states, ins, k);
    OthersSilent(c, states, ins, k);
    BankDriven(c, states[k], states[k + 1]);
  }

  /** The bank read in `s` decodes, one cycle later, a column of its active row: the cell its request addresses. */
  ghost predicate ReadsCell(c: Config, s: State, s': State)
    requires c.Valid() && WellFormed(c, s) && WellFormed(c, s')
  {
    var b := s.mux.grantReq;
    && s.worlds[b].s.buffer.Some? && s.worlds[b].s.buffer.value.address < Pow2(c.RcaBits())
    && s'.phy.banks[b].active && P.ReadCol(c.Phy(), s'.phases, b).Some?
    && P.Cell(c.Phy(), s'.phy.banks[b].row, P.ReadCol(c.Phy(), s'.phases, b).value)
       == s.worlds[b].s.buffer.value.address
  }

  /** The bus carries the addressed cell. */
  ghost predicate Drives(c: Config, s: State, s': State)
    requires c.Valid() && WellFormed(c, s) && WellFormed(c, s') && ReadsCell(c, s, s')
  {
    var b := s.mux.grantReq;
    ModelBus(c, s') == s'.phy.banks[b].mem[s.worlds[b].s.buffer.value.address]
  }

  lemma OthersSilent(c: Config, states: seq<State>, ins: seq<Input>, k: nat)
    requires IsRun(c, states, ins) && k < |ins|
    ensures OnlyReads(c, states[k + 1], states[k].mux.grantReq)
  {
    hide Step, Initial;
    var fs := states[k + 1].phases;
    var g := states[k].mux.grantReq;
    forall b': nat | b' < c.Nbanks() && b' != g ensures P.ReadCol(c.Phy(), fs, b').None? {
      ReadElsewhere(c, states, ins, k, b');
    }
  }

  /** No other bank is being read. */
  ghost predicate OnlyReads(c: Config, s: State, b: nat) {
    forall b': nat | b' < c.Nbanks() && b' != b :: P.ReadCol(c.Phy(), s.phases, b').None?
  }

  lemma BankDriven(c: Config, s: State, s': State)
    requires c.Valid() && WellFormed(c, s) && WellFormed(c, s')
    requires OnlyReads(c, s', s.mux.grantReq) && ReadsCell(c, s, s')
    ensures Drives(c, s, s')
  {
    hide P.ReadCol, P.Cell, P.ReadBus, P.ReadData, X.WellFormed;
    var b := s.mux.grantReq;
    BusOfOne(c.Phy(), s'.phases, s'.phy.banks, 0, b);
    assert P.BankOk(c.Phy(), s'.phy.banks[b]);
    CellDriven(c, s'.phases, s'.phy.banks[b], b, s.worlds[b].s.buffer.value.address);
  }

  lemma CellDriven(c: Config, fs: seq<P.Phase>, bank: P.Bank, b: nat, r: nat)
    requires c.Valid() && P.BankOk(c.Phy(), bank) && bank.active && r < Pow2(c.RcaBits())
    requires P.ReadCol(c.Phy(), fs, b).Some? && P.Cell(c.Phy(), bank.row, P.ReadCol(c.Phy(), fs, b).value) == r
    ensures P.ReadData(c.Phy(), fs, bank, b) == bank.mem[r]
  {
    hide P.ReadCol, P.Cell;
  }

  /** The column the read bank decodes, and that its row is the request's. */
  lemma ReadTarget(c: Config, states: seq<State>, ins: seq<Input>, k: nat)
    requires IsRun(c, states, ins) && k < |ins|
    requires WellFormed(c, states[k]) && WellFormed(c, states[k + 1]) && ReadIssued(c, states[k])
    ensures ReadsCell(c, states[k], states[k + 1])
  {
    hide Step, Initial, BusCommand, ReadIssued, WriteIssued, P.ReadCol, Inv, AllInRange, P.Cell;
    var b := states[k].mux.grantReq;
    RunInv(c, states, ins, k);
    RunInRange(c, states, ins, k);
    RunDecodes(c, states, ins, k, b);
    IssuedCommand(c, states[k], ins[k]);
    ColumnTarget(c, states[k], ins[k], b);
    RunRows(c, states, ins, b, k + 1);
  }

  lemma ReadElsewhere(c: Config, states: seq<State>, ins: seq<Input>, k: nat, b: nat)
    requires IsRun(c, states, ins) && k < |ins| && b < c.Nbanks()
    requires states[k].mux.grantReq != b
    ensures P.ReadCol(c.Phy(), states[k + 1].phases, b).None?
  {
    hide Step, Initial, BusCommand, ReadIssued, WriteIssued, P.ReadCol, Inv;
    RunInv(c, states, ins, k);
    RunDecodes(c, states, ins, k, b);
    ColumnOnlyAccepted(c, states[k], ins[k], b);
  }

  lemma GapCoversLatency(c: Config)
    requires LatencyFits(c)
    ensures c.writeLatency + 1 <= ReadGap(c)
  {
    ProductMonotone(1, c.postponing, Round(c));
  }

  /** A read is issued later than the write latency after the last write. */
  lemma ReadIsLate(c: Config, states: seq<State>, ins: seq<Input>, k: nat)
    requires IsRun(c, states, ins) && LatencyFits(c) && k < |ins|
    requires WellFormed(c, states[k]) && ReadIssued(c, states[k])
    ensures AtLeast(states[k].traffic.sinceWr, c.writeLatency + 1)
  {
    hide Step, Initial, TurnInv;
    RunTurn(c, states, ins, k);
    RunCycle(c, states, ins, k);
    ReadsLate(c, states[k], ins[k]);
    GapCoversLatency(c);
  }

  /** No write is issued in the cycles whose data would still be on its way when a read is issued. */
  lemma NoRecentWrite(c: Config, states: seq<State>, ins: seq<Input>, j: nat, k: nat)
    requires IsRun(c, states, ins) && LatencyFits(c) && j < k < |ins| && k - j <= c.writeLatency
    requires WellFormed(c, states[k]) && ReadIssued(c, states[k])
    ensures WriteOf(c, states, ins, j).None?
  {
    hide Step, Initial, ReadIssued, WriteIssued, Inv, ReadGap;
    RunIsWellFormed(c, states, ins, j);
    ReadIsLate(c, states, ins, k);
    if WriteIssued(c, states[j]) { WriteDistance(c, states, ins, j, k); }
  }

  lemma {:induction false} FlatStable(c: Config, states: seq<State>, ins: seq<Input>, i: nat, j: nat)
    requires i <= j && 0 < |states| && c.Valid() && WellFormed(c, states[0])
    requires forall k: nat | i <= k < j :: WriteOf(c, states, ins, k).None?
    ensures Flat(c, states, ins, j) == Flat(c, states, ins, i)
    decreases j - i
  {
    hide WriteOf, WellFormed;
    if i < j { FlatStable(c, states, ins, i, j - 1); }
  }

  /** A read issued in cycle `k` puts the reference memory's word on the model's read bus in the next cycle. */
  lemma ReadHits(c: Config, states: seq<State>, ins: seq<Input>, k: nat)
    requires IsRun(c, states, ins) && LatencyFits(c) && k < |ins|
    requires WellFormed(c, states[k]) && ReadIssued(c, states[k])
    ensures WellFormed(c, states[0]) && WellFormed(c, states[k + 1])
    ensures states[k].worlds[states[k].mux.grantReq].s.buffer.Some?
    ensures var a := ServedAddress(c, states[k]);
            && a < A.Addresses(c.BankMap())
            && ModelBus(c, states[k + 1]) == Flat(c, states, ins, k)[a]
  {
    hide Step, Initial, ReadIssued, WriteOf, ModelBus, Flat;
    RunIsWellFormed(c, states, ins, 0);
    RunIsWellFormed(c, states, ins, k + 1);
    ReadDriven(c, states, ins, k);
    var b := states[k].mux.grantReq;
    var r := states[k].worlds[b].s.buffer.value.address;
    RunHolds(c, states, ins, k + 1);
    A.CellRoundTrip(c.BankMap(), b, r);
    assert CellHolds(c, states[k + 1], Flat(c, states, ins, Landed(c, k + 1)), b, r);
    forall j: nat | Landed(c, k + 1) <= j < k ensures WriteOf(c, states, ins, j).None? {
      NoRecentWrite(c, states, ins, j, k);
    }
    FlatStable(c, states, ins, Landed(c, k + 1), k);
  }

  ghost function PipeLine(): State -> seq<(bool, P.Word)> { (s: State) => s.phy.pipe }

  ghost function PipeFeed(c: Config): (State, Input) -> (bool, P.Word) {
    (s: State, i: Input) =>
      if c.Valid() && WellFormed(c, s) then
        (P.AnyRead(c.Phy(), s.phases), ModelBus(c, s))
      else (false, [])
  }

  lemma PipeShifts(c: Config)
    ensures forall s, i, s' | SafeNext(c)(s, i, s') && PipeLine()(s) != [] ::
              PipeLine()(s') == [PipeFeed(c)(s, i)] + PipeLine()(s)[..|PipeLine()(s)| - 1]
  {
    hide Step, ModelBus, Inv;
    forall s: State, i: Input, s': State | SafeNext(c)(s, i, s')
      ensures PipeLine()(s') == [PipeFeed(c)(s, i)] + PipeLine()(s)[..|PipeLine()(s)| - 1]
    {
      FollowsPipe(c, s, i, s');
    }
  }

  lemma FollowsPipe(c: Config, s: State, i: Input, s': State)
    requires Follows(c, s, i, s')
    ensures |s.phy.pipe| == c.readLatency
    ensures s'.phy.pipe == [(P.AnyRead(c.Phy(), s.phases), ModelBus(c, s))]
                           + s.phy.pipe[..c.readLatency - 1]
  {
  }

  /** The read bus shows what the model read `readLatency` cycles before. */
  lemma BusDelay(c: Config, states: seq<State>, ins: seq<Input>, n: nat)
    requires IsRun(c, states, ins) && c.readLatency <= n <= |ins|
    ensures WellFormed(c, states[n]) && WellFormed(c, states[n - c.readLatency])
    ensures var s := states[n - c.readLatency];
            ReadBus(c, states[n]) == ModelBus(c, s)
  {
    hide Step, Initial, ModelBus, P.AnyRead;
    RunIsWellFormed(c, states, ins, 0);
    RunIsWellFormed(c, states, ins, n);
    RunIsWellFormed(c, states, ins, n - c.readLatency);
    PipeShifts(c);
    RunIsSafe(c, states, ins);
    ChainShift(SafeNext(c), PipeLine(), PipeFeed(c), states, ins, n, c.readLatency - 1);
  }

  /** If the master's read strobe is up in cycle `n`, a read of that master was issued `readLatency + 1` cycles
      before, and the data bus carries the word that a plain memory holds at its native address after all writes
      issued until then. */
  ghost predicate ReadCorrect(c: Config, states: seq<State>, ins: seq<Input>, m: nat, n: nat) {
    && n < |states| && c.Valid() && WellFormed(c, states[n]) && m < c.nmasters
    && (X.RdataValid(c.Crossbar(), states[n].xbar, m) ==>
          && c.readLatency < n && WellFormed(c, states[0])
          && var k := n - 1 - c.readLatency;
             && WellFormed(c, states[k]) && ReadFor(c, states[k], m)
             && states[k].worlds[states[k].mux.grantReq].s.buffer.Some?
             && ServedAddress(c, states[k]) < A.Addresses(c.BankMap())
             && ReadBus(c, states[n]) == Flat(c, states, ins, k)[ServedAddress(c, states[k])])
  }

  lemma RunLength(c: Config, states: seq<State>, ins: seq<Input>)
    requires IsRun(c, states, ins)
    ensures |states| == |ins| + 1
  {
  }

  /** End to end, every read strobe of every run shows what a plain memory holds. */
  lemma ReadsReturnMemory(c: Config, states: seq<State>, ins: seq<Input>, m: nat, n: nat)
    requires IsRun(c, states, ins) && LatencyFits(c) && n <= |ins| && m < c.nmasters
    ensures ReadCorrect(c, states, ins, m, n)
  {
    hide Step, Initial, ReadIssued, Flat, ModelBus, ReadBus, ServedAddress, X.RdataValid, LatencyFits, Chain;
    RunLength(c, states, ins);
    ReadStrobes(c, states, ins, m, n);
    if X.RdataValid(c.Crossbar(), states[n].xbar, m) {
      ReadHits(c, states, ins, n - 1 - c.readLatency);
      BusDelay(c, states, ins, n);
    }
  }

  // What the reference memory holds ----------------------------------------------------------------

  /** Cycle `k` issues a write of byte `l` of an address. */
  ghost predicate WritesByte(c: Config, states: seq<State>, ins: seq<Input>, k: nat, a: nat, l: nat) {
    var w := WriteOf(c, states, ins, k);
    w.Some? && w.value.address == a && l < |w.value.we| && l < |w.value.data| && w.value.we[l]
  }

  /** The last cycle before `n` that writes byte `l` of an address. */
  ghost function LastWriter(c: Config, states: seq<State>, ins: seq<Input>, n: nat, a: nat, l: nat): Option<nat> {
    if n == 0 then None
    else if WritesByte(c, states, ins, n - 1, a, l) then Some(n - 1)
    else LastWriter(c, states, ins, n - 1, a, l)
  }

  lemma {:induction false} LastWriterIsLast(c: Config, states: seq<State>, ins: seq<Input>, n: nat, a: nat, l: nat)
    ensures var k := LastWriter(c, states, ins, n, a, l);
            && (k.Some? ==> k.value < n && WritesByte(c, states, ins, k.value, a, l))
            && forall j: nat | (k.Some? ==> k.value < j) && j < n :: !WritesByte(c, states, ins, j, a, l)
  {
    hide WritesByte;
    if n > 0 { LastWriterIsLast(c, states, ins, n - 1, a, l); }
  }

  /** Cycle 0's image, or the data of the last write: what a byte of the memory should hold. */
  ghost predicate ByteIs(c: Config, states: seq<State>, ins: seq<Input>, flat: seq<P.Word>, k: Option<nat>, a: nat,
                         l: nat)
    requires 0 < |states| && c.Valid() && WellFormed(c, states[0]) && a < |flat| == A.Addresses(c.BankMap())
  {
    && (k.Some? ==> WritesByte(c, states, ins, k.value, a, l))
    && l < |flat[a]| && l < |Image(c, states[0])[a]|
    && flat[a][l] == (match k
                      case Some(j) => WriteOf(c, states, ins, j).value.data[l]
                      case None => Image(c, states[0])[a][l])
  }

  /** A byte of the reference memory is the last one written there with its byte enable set, or the image's. */
  lemma {:induction false} LastWriteWins(c: Config, states: seq<State>, ins: seq<Input>, n: nat, a: nat, l: nat)
    requires 0 < |states| && c.Valid() && WellFormed(c, states[0]) && a < A.Addresses(c.BankMap()) && l < c.nbytes
    ensures ByteIs(c, states, ins, Flat(c, states, ins, n), LastWriter(c, states, ins, n, a, l), a, l)
  {
    hide WriteOf, WellFormed, Image;
    ImageWords(c, states[0], a);
    if n > 0 {
      LastWriteWins(c, states, ins, n - 1, a, l);
      ApplyByte(Flat(c, states, ins, n - 1), WriteOf(c, states, ins, n - 1), a, l);
    }
  }

  lemma ApplyByte(flat: seq<P.Word>, w: Option<Write>, a: nat, l: nat)
    requires a < |flat| && l < |flat[a]|
    ensures |Apply(flat, w)[a]| == |flat[a]|
    ensures Apply(flat, w)[a][l]
         == if w.Some? && w.value.address == a && l < |w.value.we| && l < |w.value.data| && w.value.we[l]
            then w.value.data[l] else flat[a][l]
  {
  }

  lemma ImageWords(c: Config, s: State, a: nat)
    requires c.Valid() && WellFormed(c, s) && a < A.Addresses(c.BankMap())
    ensures |Image(c, s)[a]| == c.nbytes
  {
    A.AddressRoundTrip(c.BankMap(), a);
    CellWord(c, s, A.BankOf(c.BankMap(), a), A.RcaOf(c.BankMap(), a));
  }

  lemma CellWord(c: Config, s: State, b: nat, r: nat)
    requires c.Valid() && WellFormed(c, s) && b < c.Nbanks() && r < Pow2(c.RcaBits())
    ensures r < |s.phy.banks[b].mem| && |s.phy.banks[b].mem[r]| == c.nbytes
  {
    hide X.WellFormed, M.WellFormed;
    assert P.BankOk(c.Phy(), s.phy.banks[b]);
    assert P.WordOk(c.Phy(), s.phy.banks[b].mem[r]);
  }

  /** A bank serves its commands in the order in which it accepted them: when one is issued, exactly the commands
      accepted before it have been performed. */
  lemma BankServedInOrder(c: Config, states: seq<State>, ins: seq<Input>, n: nat)
    requires IsRun(c, states, ins) && n < |ins|
    ensures c.Valid() && WellFormed(c, states[n])
    ensures ReadIssued(c, states[n]) || WriteIssued(c, states[n]) ==>
              var w := states[n].worlds[states[n].mux.grantReq];
              && w.s.buffer.Some? && |w.performed| < |w.accepted|
              && BM.AccessOf(c.Bank(), w.s.buffer.value) == BM.AccessOf(c.Bank(), w.accepted[|w.performed|])
              && w.performed == BM.Accesses(c.Bank(), w.accepted[..|w.performed|])
  {
    hide Step, Initial, ReadIssued, WriteIssued;
    RunInv(c, states, ins, n);
    RunCycle(c, states, ins, n);
    var b := states[n].mux.grantReq;
    assert BankInv(c, states[n], b);
    ServedIsIssued(c, states[n], ins[n], b);
    if ReadIssued(c, states[n]) || WriteIssued(c, states[n]) {
      OldestPending(c.Bank(), states[n].worlds[b]);
    }
  }

  lemma OldestPending(p: BM.Settings, w: BM.World)
    requires p.Valid() && BM.Inv(p, w) && w.s.buffer.Some?
    ensures |w.performed| < |w.accepted|
    ensures BM.AccessOf(p, w.s.buffer.value) == BM.AccessOf(p, w.accepted[|w.performed|])
    ensures w.performed == BM.Accesses(p, w.accepted[..|w.performed|])
  {
    var all := BM.Accesses(p, w.accepted);
    assert all[|w.performed|] == BM.Accesses(p, BM.Pending(w.s))[0];
    assert all[..|w.performed|] == w.performed;
  }
}
