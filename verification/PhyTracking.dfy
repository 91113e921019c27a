/** The memory model follows the controller: its phases decode to the issued commands one cycle later, its open rows are
    the rows the controller opened, and a delayed write still finds its row. */
module PhyTracking {
  import opened Common
  import opened Bits
  import opened Runs
  import opened Controllers
  import opened ControllerSafety
  import opened ControllerTiming
  import A = AddressPath
  import BM = BankMachines
  import D = DramBank
  import R = Refreshers
  import M = Multiplexers
  import P = PhyModels
  import Steering
  import CrossbarOrder

  // Ranges -----------------------------------------------------------------------------------------

  /** Queued addresses and open rows fit their signals. */
  ghost predicate InRange(c: Config, w: BM.World)
    requires c.Valid()
  {
    && (forall k | 0 <= k < |BM.Pending(w.s)| :: BM.Pending(w.s)[k].address < Pow2(c.RcaBits()))
    && (w.d.open.Some? ==> w.d.open.value < Pow2(c.rowbits))
  }

  ghost predicate AllInRange(c: Config, s: State) {
    c.Valid() && WellFormed(c, s) && forall b | 0 <= b < c.Nbanks() :: InRange(c, s.worlds[b])
  }

  lemma RowInRange(c: Config, address: nat)
    requires c.Valid() && address < Pow2(c.RcaBits())
    ensures A.Row(c.Slicer(), address) < Pow2(c.rowbits)
  {
    FromBound(address, c.colbits - c.align, c.rowbits);
  }

  lemma RangeStep(c: Config, s: State, i: Input, s': State, b: nat)
    requires Inv(c, s) && Moves(c, s, i, s') && AllInRange(c, s) && b < c.Nbanks()
    ensures InRange(c, s'.worlds[b])
  {
    hide Moves, BM.Inv, BM.Step, AllInRange, R.Inv, R.Step, M.Step, MuxInv, MuxInput;
    MovesWorld(c, s, i, s', b);
    var w := s.worlds[b];
    assert InRange(c, w) by { InRangeOf(c, s, b); }
    BM.QueueMoves(c.Bank(), w.s, BankInput(c, s, i, b));
    if CrossbarOrder.Request(c, s, i, b).Some? { CrossbarOrder.RequestIsMasters(c, s, i, b); }
    PendingStays(c, w, s'.worlds[b], CrossbarOrder.Arrives(c, s, i, b), CrossbarOrder.Leaves(c, s, i, b));
    OpenStays(c, s, i, b);
  }

  lemma InRangeOf(c: Config, s: State, b: nat)
    requires AllInRange(c, s) && b < c.Nbanks()
    ensures InRange(c, s.worlds[b])
  {
  }

  lemma MovesWorld(c: Config, s: State, i: Input, s': State, b: nat)
    requires Moves(c, s, i, s') && b < c.Nbanks()
    ensures Fits(c, s, i) && b < |s'.worlds|
    ensures s'.worlds[b].s == BM.Step(c.Bank(), s.worlds[b].s, BankInput(c, s, i, b))
    ensures s'.worlds[b].d == D.Exec(s.worlds[b].d, BusCommand(c, s, i, b))
  {
    hide BM.Step, D.Exec;
  }

  lemma OpenStays(c: Config, s: State, i: Input, b: nat)
    requires Inv(c, s) && Fits(c, s, i) && b < c.Nbanks() && InRange(c, s.worlds[b])
    ensures var d := D.Exec(s.worlds[b].d, BusCommand(c, s, i, b)); d.open.Some? ==> d.open.value < Pow2(c.rowbits)
  {
    hide BM.Step;
    var w := s.worlds[b];
    assert BankInv(c, s, b);
    BM.IssuedMeaning(c.Bank(), w.s, BankInput(c, s, i, b));
    if w.s.buffer.Some? {
      assert BM.Pending(w.s)[0] == w.s.buffer.value;
      RowInRange(c, w.s.buffer.value.address);
    }
  }

  lemma PendingStays(c: Config, w: BM.World, w': BM.World, arrives: seq<BM.Request>, leaves: seq<BM.Request>)
    requires c.Valid() && InRange(c, w)
    requires BM.Pending(w.s) + arrives == leaves + BM.Pending(w'.s)
    requires forall k | 0 <= k < |arrives| :: arrives[k].address < Pow2(c.RcaBits())
    ensures forall k | 0 <= k < |BM.Pending(w'.s)| :: BM.Pending(w'.s)[k].address < Pow2(c.RcaBits())
  {
    forall k | 0 <= k < |BM.Pending(w'.s)| ensures BM.Pending(w'.s)[k].address < Pow2(c.RcaBits()) {
      assert (BM.Pending(w.s) + arrives)[|leaves| + k] == BM.Pending(w'.s)[k];
    }
  }

  lemma RunInRange(c: Config, states: seq<State>, ins: seq<Input>, n: nat)
    requires IsRun(c, states, ins) && n <= |ins|
    ensures AllInRange(c, states[n])
  {
    var inv := (s: State) => AllInRange(c, s);
    StartInRange(c, states[0]);
    forall s: State, i: Input, s': State | inv(s) && SafeNext(c)(s, i, s') ensures inv(s') {
      FollowsMoves(c, s, i, s');
      forall b | 0 <= b < c.Nbanks() ensures InRange(c, s'.worlds[b]) { RangeStep(c, s, i, s', b); }
    }
    RunIsSafe(c, states, ins);
    ChainInvariant(SafeNext(c), inv, states, ins, n);
  }

  lemma StartInRange(c: Config, s: State)
    requires c.Valid() && Initial(c, s)
    ensures AllInRange(c, s)
  {
    forall b | 0 <= b < c.Nbanks() ensures InRange(c, s.worlds[b]) {
      assert s.worlds[b] == BM.Start(c.Bank());
    }
  }

  // Phases -----------------------------------------------------------------------------------------

  /** What a bank of the memory model decodes from the phases, for a command it was told. */
  ghost predicate Decodes(c: Config, fs: seq<P.Phase>, b: nat, cmd: D.Command) {
    && P.Activated(c.Phy(), fs, b) == (if cmd.Act? then Some(To(cmd.row, c.rowbits)) else None)
    && P.Precharged(fs, b) == D.Closes(cmd)
    && P.Written(c.Phy(), fs, b) == (if cmd.Wr? then Some(cmd.col) else None)
    && P.ReadCol(c.Phy(), fs, b) == (if cmd.Rd? then Some(cmd.col) else None)
  }

  lemma FollowsPhases(c: Config, s: State, i: Input, s': State)
    requires Follows(c, s, i, s')
    ensures s'.phases == M.Phases(c.Mux(), s.mux, MuxInput(c, s), s.ref.cmd, RefreshReq(c, s))
  {
  }

  lemma FlagTruncates(col: nat, bits: nat)
    requires bits <= 10 && col < Pow2(bits)
    ensures To(col + 1024, bits) == col && To(col, bits) == col
  {
    hide To, From, Up;
    UpUp(1, 10 - bits, bits);
    SlicesOfCat(col, Up(1, 10 - bits), bits);
    UpIsProduct(1, 10);
    SlicesOfSmall(col, bits);
  }

  lemma OwnPrecharges(c: Config, s: State)
    requires Inv(c, s)
    ensures forall j | 0 <= j < c.Nbanks() :: Steering.OwnPrecharge(MuxInput(c, s).cmds[j])
  {
    forall j | 0 <= j < c.Nbanks() ensures Steering.OwnPrecharge(MuxInput(c, s).cmds[j]) {
      assert BankInv(c, s, j);
      var w := s.worlds[j].s;
      BM.IssuedMeaning(c.Bank(), w, BM.Input(None, RefreshReq(c, s), true));
    }
  }

  lemma ColumnAddress(c: Config, s: State, b: nat)
    requires c.Valid() && |s.worlds| == c.Nbanks() && b < c.Nbanks()
    ensures var a := MuxInput(c, s).cmds[b];
            a.isRead || a.isWrite ==>
              && s.worlds[b].s.buffer.Some?
              && To(a.a, c.colbits) == A.Col(c.Slicer(), s.worlds[b].s.buffer.value.address)
  {
    BM.OfferColumn(c.Bank(), s.worlds[b].s, RefreshReq(c, s));
    if s.worlds[b].s.buffer.Some? {
      A.ModelCellIndex(c.Slicer(), s.worlds[b].s.buffer.value.address);
      FlagTruncates(A.Col(c.Slicer(), s.worlds[b].s.buffer.value.address), c.colbits);
    }
  }

  /** One cycle later the memory model decodes exactly the command each bank was told. */
  lemma PhasesDecode(c: Config, s: State, i: Input, s': State, b: nat)
    requires Inv(c, s) && Follows(c, s, i, s') && b < c.Nbanks()
    ensures Decodes(c, s'.phases, b, BusCommand(c, s, i, b))
  {
    FollowsPhases(c, s, i, s');
    if M.Serving(s.mux) {
      ServingDecodes(c, s, i, b);
    } else {
      IdleDecodes(c, s, i, b);
    }
  }

  lemma IdleDecodes(c: Config, s: State, i: Input, b: nat)
    requires Inv(c, s) && Fits(c, s, i) && b < c.Nbanks() && !M.Serving(s.mux)
    ensures Decodes(c, M.Phases(c.Mux(), s.mux, MuxInput(c, s), s.ref.cmd, RefreshReq(c, s)), b, BusCommand(c, s, i, b))
  {
    DeviceHearsRefresher(c, s);
    Steering.IdleDecode(c.Mux(), c.Phy(), s.mux, MuxInput(c, s), s.ref.cmd, RefreshReq(c, s), b);
  }

  lemma ServingDecodes(c: Config, s: State, i: Input, b: nat)
    requires Inv(c, s) && Fits(c, s, i) && b < c.Nbanks() && M.Serving(s.mux)
    ensures Decodes(c, M.Phases(c.Mux(), s.mux, MuxInput(c, s), s.ref.cmd, RefreshReq(c, s)), b, BusCommand(c, s, i, b))
  {
    OffersShaped(c, s);
    OwnPrecharges(c, s);
    Steering.ServingMeaning(c.Mux(), c.Phy(), s.mux, MuxInput(c, s), s.ref.cmd, RefreshReq(c, s), b);
    ServingColumns(c, s, i, b);
    assert !PreAll(c, s);
    assert BusCommand(c, s, i, b) == Steering.Told(c.Mux(), s.mux, MuxInput(c, s), b);
  }

  lemma ServingColumns(c: Config, s: State, i: Input, b: nat)
    requires Inv(c, s) && Fits(c, s, i) && b < c.Nbanks() && M.Serving(s.mux)
    ensures var fs, cmd := M.Phases(c.Mux(), s.mux, MuxInput(c, s), s.ref.cmd, RefreshReq(c, s)),
        BusCommand(c, s, i, b);
            && P.Written(c.Phy(), fs, b) == (if cmd.Wr? then Some(cmd.col) else None)
            && P.ReadCol(c.Phy(), fs, b) == (if cmd.Rd? then Some(cmd.col) else None)
  {
    OffersShaped(c, s);
    Steering.ServingColumns(c.Mux(), c.Phy(), s.mux, MuxInput(c, s), s.ref.cmd, RefreshReq(c, s), b);
    ColumnAddress(c, s, b);
    ColumnAccepted(c, s, i);
    ColumnOnlyAccepted(c, s, i, b);
    assert BankInv(c, s, b);
    BM.IssuedMeaning(c.Bank(), s.worlds[b].s, BankInput(c, s, i, b));
  }

  // Rows -------------------------------------------------------------------------------------------

  /** A row open in the bank before the last cycle's command is active in the model. */
  ghost predicate Tracks(d: D.Bank, bank: P.Bank) {
    d.open.Some? ==> bank.active && bank.row == d.open.value
  }

  /** How a bank's active flag and row follow the command decoded in a cycle. */
  ghost predicate RowMoves(c: Config, bank: P.Bank, bank': P.Bank, cmd: D.Command) {
    && bank'.active == (!D.Closes(cmd) && (cmd.Act? || bank.active))
    && bank'.row == (if cmd.Act? then To(cmd.row, c.rowbits) else bank.row)
  }

  lemma DecodedMoves(c: Config, bank: P.Bank, fs: seq<P.Phase>, b: nat, cmd: D.Command, data: P.Word, we: seq<bool>)
    requires c.Valid() && P.BankOk(c.Phy(), bank) && Decodes(c, fs, b, cmd)
    ensures RowMoves(c, bank, P.BankStep(c.Phy(), bank, fs, b, data, we), cmd)
  {
  }

  lemma TracksStep(c: Config, d: D.Bank, cmd: D.Command, bank: P.Bank, bank': P.Bank)
    requires Tracks(d, bank) && RowMoves(c, bank, bank', cmd)
    requires D.Exec(d, cmd).open.Some? ==> D.Exec(d, cmd).open.value < Pow2(c.rowbits)
    ensures Tracks(D.Exec(d, cmd), bank')
  {
    if cmd.Act? { SlicesOfSmall(cmd.row, c.rowbits); }
  }

  lemma FollowsPhy(c: Config, s: State, i: Input, s': State, b: nat)
    requires Follows(c, s, i, s') && b < c.Nbanks()
    ensures s'.phy.banks[b] == P.BankStep(c.Phy(), s.phy.banks[b], s.phases, b, BusData(c, s, i).0, BusData(c, s, i).1)
  {
  }

  lemma RunDecodes(c: Config, states: seq<State>, ins: seq<Input>, n: nat, b: nat)
    requires IsRun(c, states, ins) && n < |ins| && b < c.Nbanks()
    ensures Fits(c, states[n], ins[n]) && WellFormed(c, states[n + 1])
    ensures Decodes(c, states[n + 1].phases, b, BusCommand(c, states[n], ins[n], b))
    ensures states[n + 1].worlds[b].d == D.Exec(states[n].worlds[b].d, BusCommand(c, states[n], ins[n], b))
  {
    RunInv(c, states, ins, n);
    RunCycle(c, states, ins, n);
    PhasesDecode(c, states[n], ins[n], states[n + 1], b);
    BankMoves(c, states[n], ins[n], states[n + 1], b);
  }

  lemma RunRowMoves(c: Config, states: seq<State>, ins: seq<Input>, n: nat, b: nat)
    requires IsRun(c, states, ins) && 0 < n < |ins| && b < c.Nbanks()
    ensures Fits(c, states[n - 1], ins[n - 1]) && WellFormed(c, states[n]) && WellFormed(c, states[n + 1])
    ensures RowMoves(c, states[n].phy.banks[b], states[n + 1].phy.banks[b], BusCommand(c, states[n - 1], ins[n - 1], b))
  {
    hide Step, Initial, BusCommand, BusData, P.BankStep, Decodes, RowMoves;
    RunDecodes(c, states, ins, n - 1, b);
    RunIsWellFormed(c, states, ins, n);
    RunIsWellFormed(c, states, ins, n + 1);
    RunCycle(c, states, ins, n);
    FollowsPhy(c, states[n], ins[n], states[n + 1], b);
    DecodedMoves(c, states[n].phy.banks[b], states[n].phases, b, BusCommand(c, states[n - 1], ins[n - 1], b),
                 BusData(c, states[n], ins[n]).0, BusData(c, states[n], ins[n]).1);
  }

  ghost predicate RowsAt(c: Config, states: seq<State>, b: nat, n: nat) {
    && 0 < n < |states| && WellFormed(c, states[n]) && b < |states[n - 1].worlds| && b < c.Nbanks()
    && Tracks(states[n - 1].worlds[b].d, states[n].phy.banks[b])
  }

  lemma RowsStep(c: Config, states: seq<State>, ins: seq<Input>, b: nat, n: nat)
    requires IsRun(c, states, ins) && 0 < n < |ins| && b < c.Nbanks()
    requires RowsAt(c, states, b, n)
    ensures RowsAt(c, states, b, n + 1)
  {
    hide Step, Initial, BusCommand, Decodes, Tracks, D.Exec;
    RunDecodes(c, states, ins, n - 1, b);
    RunRowMoves(c, states, ins, n, b);
    RunInRange(c, states, ins, n);
    assert InRange(c, states[n].worlds[b]);
    TracksStep(c, states[n - 1].worlds[b].d, BusCommand(c, states[n - 1], ins[n - 1], b), states[n].phy.banks[b],
               states[n + 1].phy.banks[b]);
  }

  lemma RowsStart(c: Config, states: seq<State>, ins: seq<Input>, b: nat)
    requires IsRun(c, states, ins) && 0 < |ins| && b < c.Nbanks()
    ensures RowsAt(c, states, b, 1)
  {
    RunIsWellFormed(c, states, ins, 1);
    assert states[0].worlds[b] == BM.Start(c.Bank());
  }

  lemma {:induction false} RunRows(c: Config, states: seq<State>, ins: seq<Input>, b: nat, n: nat)
    requires IsRun(c, states, ins) && 0 < n <= |ins| && b < c.Nbanks()
    ensures RowsAt(c, states, b, n)
  {
    if n == 1 {
      RowsStart(c, states, ins, b);
    } else {
      RunRows(c, states, ins, b, n - 1);
      RowsStep(c, states, ins, b, n - 1);
    }
  }

  // Rows after a write -----------------------------------------------------------------------------

  /** Between a write and its recovery the bank is open or closing itself, and is told nothing that moves its row. */
  ghost predicate Settled(c: Config, states: seq<State>, ins: seq<Input>, b: nat, j: nat) {
    && j < |ins| && j < |states| && Fits(c, states[j], ins[j]) && b < c.Nbanks()
    && (states[j].worlds[b].d.open.Some? || states[j].worlds[b].d.selfClosed)
    && !D.Closes(BusCommand(c, states[j], ins[j], b)) && !BusCommand(c, states[j], ins[j], b).Act?
  }

  lemma NoMoveBeforeRecovery(t: D.Timing, d: D.Bank, cmd: D.Command)
    requires D.Legal(t, d, cmd) && (d.open.Some? || d.selfClosed)
    requires d.sinceWr.Some? && d.sinceWr.value < t.tWTP
    ensures !D.Closes(cmd) && !cmd.Act?
    ensures D.Exec(d, cmd).open.Some? || D.Exec(d, cmd).selfClosed
  {
  }

  lemma WriteKeepsRow(t: D.Timing, d: D.Bank, cmd: D.Command)
    requires D.Legal(t, d, cmd) && cmd.Wr?
    ensures d.open.Some? && (D.Exec(d, cmd).open.Some? || D.Exec(d, cmd).selfClosed)
  {
  }

  lemma {:induction false} SettledAfterWrite(c: Config, states: seq<State>, ins: seq<Input>, b: nat, k: nat, j: nat)
    requires IsRun(c, states, ins) && k <= j < |ins| && b < c.Nbanks()
    requires j - k < c.Timing().tWTP
    requires Fits(c, states[k], ins[k]) && BusCommand(c, states[k], ins[k], b).Wr?
    ensures Settled(c, states, ins, b, j)
    ensures var d := D.Exec(states[j].worlds[b].d, BusCommand(c, states[j], ins[j], b)); d.open.Some? || d.selfClosed
    decreases j
  {
    hide Step, D.Legal, D.Exec, Initial, BusCommand;
    CommandsAreLegal(c, states, ins, b, j);
    if k == j {
      WriteKeepsRow(c.Timing(), states[j].worlds[b].d, BusCommand(c, states[j], ins[j], b));
    } else {
      SettledAfterWrite(c, states, ins, b, k, j - 1);
      RunDecodes(c, states, ins, j - 1, b);
      BankDistances(c, states, ins, b, k, j);
      NoMoveBeforeRecovery(c.Timing(), states[j].worlds[b].d, BusCommand(c, states[j], ins[j], b));
    }
  }

  /** When a write is decoded its row is open in the model. */
  lemma RowOpenForWrite(c: Config, states: seq<State>, ins: seq<Input>, b: nat, k: nat)
    requires IsRun(c, states, ins) && k < |ins| && b < c.Nbanks()
    requires Fits(c, states[k], ins[k]) && BusCommand(c, states[k], ins[k], b).Wr?
    ensures WellFormed(c, states[k + 1]) && states[k].worlds[b].d.open.Some?
    ensures var bank := states[k + 1].phy.banks[b]; bank.active && bank.row == states[k].worlds[b].d.open.value
  {
    hide Step, Initial, BusCommand, WellFormed;
    RunIsWellFormed(c, states, ins, k + 1);
    RunRows(c, states, ins, b, k + 1);
    CommandsAreLegal(c, states, ins, b, k);
  }

  /** A settled bank's row registers do not move. */
  lemma SettledRow(c: Config, states: seq<State>, ins: seq<Input>, b: nat, j: nat)
    requires Settled(c, states, ins, b, j) && j + 2 < |states|
    requires WellFormed(c, states[j + 1]) && WellFormed(c, states[j + 2])
    requires RowMoves(c, states[j + 1].phy.banks[b], states[j + 2].phy.banks[b], BusCommand(c, states[j], ins[j], b))
    ensures states[j + 2].phy.banks[b].active == states[j + 1].phy.banks[b].active
    ensures states[j + 2].phy.banks[b].row == states[j + 1].phy.banks[b].row
  {
    hide BusCommand, WellFormed;
  }

  /** A write finds its row open in the model from the moment it is decoded until the bank can have been closed. */
  lemma {:induction false} RowHeldForWrite(c: Config, states: seq<State>, ins: seq<Input>, b: nat, k: nat, n: nat)
    requires IsRun(c, states, ins) && k < n <= |ins| && b < c.Nbanks()
    requires n - k <= c.Timing().tWTP + 1
    requires Fits(c, states[k], ins[k]) && BusCommand(c, states[k], ins[k], b).Wr?
    ensures WellFormed(c, states[n])
    ensures states[k].worlds[b].d.open.Some?
    ensures states[n].phy.banks[b].active && states[n].phy.banks[b].row == states[k].worlds[b].d.open.value
    decreases n
  {
    hide Step, D.Legal, Initial, BusCommand, Settled, RowMoves, WellFormed;
    RunIsWellFormed(c, states, ins, n);
    if n == k + 1 {
      RowOpenForWrite(c, states, ins, b, k);
    } else {
      RowHeldForWrite(c, states, ins, b, k, n - 1);
      SettledAfterWrite(c, states, ins, b, k, n - 2);
      RunRowMoves(c, states, ins, n - 1, b);
      SettledRow(c, states, ins, b, n - 2);
    }
  }
}
