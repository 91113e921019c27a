/** How large the PHY's write latency may be: runs that lose a write when it exceeds the write-to-read or the
    write-to-precharge time, and with them the exact condition under which every read is correct. */
module LatencyLimits {
  import opened Common
  import opened Bits
  import opened Runs
  import opened Controllers
  import opened ControllerSafety
  import opened ControllerTiming
  import opened DataStrobes
  import opened PhyTracking
  import opened EndToEnd
  import opened SoloRuns
  import A = AddressPath
  import BM = BankMachines
  import D = DramBank
  import M = Multiplexers
  import P = PhyModels
  import R = Refreshers
  import X = Crossbars
  import RefreshProgress

  // The trial --------------------------------------------------------------------------------------

  /** Cell 0 of the bank, and a cell of its next row. */
  const Home := BM.Request(true, 0)
  const HomeRead := BM.Request(false, 0)
  function Elsewhere(c: Config): BM.Request
    requires c.Valid()
  {
    BM.Request(true, Up(1, c.colbits - c.align))
  }

  /** A first write is presented in cycle `first`, once every countdown is over, and served here. */
  function Opened(c: Config, first: nat): nat
    requires c.Valid()
  {
    first + 3 + c.tRCD + c.readLatency
  }

  /** The write under trial is presented after another rest, and served two cycles later. */
  function Presented(c: Config, first: nat): nat
    requires c.Valid()
  {
    Opened(c, first) + 1 + RefreshProgress.Slowest(c)
  }

  function Served(c: Config, first: nat): nat
    requires c.Valid()
  {
    Presented(c, first) + 2
  }

  /** Its data is on the bus. */
  function Supplied(c: Config, first: nat): nat
    requires c.Valid()
  {
    Served(c, first) + 1 + c.writeLatency
  }

  /** Two writes home, the second followed in the cycle it is served by `next`, and a read home in cycle `last`. */
  function Plan(c: Config, first: nat, next: BM.Request, last: nat): nat -> Option<BM.Request>
    requires c.Valid()
  {
    (n: nat) =>
      if n == first || n == Presented(c, first) then Some(Home)
      else if n == Served(c, first) then Some(next)
      else if n == last then Some(HomeRead)
      else None
  }

  function Zeros(c: Config): seq<seq<P.Word>> {
    seq(c.Nbanks(), _ => seq(c.Phy().Cells(), _ => P.Zero(c.Phy())))
  }

  /** The cycle in which the first refresh after reset is wanted. */
  function FirstDue(c: Config): pos { c.postponing * c.tREFI }

  /** Before this cycle no refresh is requested. */
  ghost predicate BeforeRefresh(c: Config, n: nat) { c.withRefresh ==> n < FirstDue(c) }

  /** Timer and postponer: another `left` cycles pass before a refresh is wanted again. */
  ghost predicate Counting(c: Config, s: State, left: nat) { s.ref.timer + s.ref.postponed * c.tREFI == left }

  lemma CountingStep(c: Config, s: State, i: Input, s': State, left: nat)
    requires Follows(c, s, i, s') && Counting(c, s, left)
    ensures if left > 0 then Counting(c, s', left - 1) && !s'.ref.wantsRefresh
            else Counting(c, s', FirstDue(c) - 1) && s'.ref.wantsRefresh
  {
    hide R.Step, M.Step, BM.Step, Step;
    FollowsMoves(c, s, i, s');
    CountingTurn(c, s.ref, s.mux.fsm.Refresh?);
  }

  lemma CountingTurn(c: Config, r: R.State, ready: bool)
    ensures var r', left := R.Step(c.Refresher(), r, ready), r.timer + r.postponed * c.tREFI;
            && r'.timer + r'.postponed * c.tREFI == (if left > 0 then left - 1 else FirstDue(c) - 1)
            && (r'.wantsRefresh <==> left == 0)
  {
    NextProduct(c.postponing - 1, c.tREFI);
    if r.postponed > 0 { NextProduct(r.postponed - 1, c.tREFI); }
  }

  /** The refresher's timer and postponer in cycle `n` from reset, in the first two periods. */
  ghost predicate Due(c: Config, s: State, n: nat) {
    var k := FirstDue(c);
    && n < 2 * k && Counting(c, s, if n < k then k - 1 - n else 2 * k - 1 - n)
    && (s.ref.wantsRefresh <==> n == k)
  }

  lemma {:induction false} RunsDue(t: Trial, n: nat)
    requires t.Valid() && FromReset(t) && n <= |t.ins| && n < 2 * FirstDue(t.c)
    ensures Due(t.c, t.states[n], n)
  {
    hide Initial, Step, Frame, Follows, Counting, FirstDue;
    if n == 0 {
      ResetCounts(t.c, t.states[0]);
    } else {
      RunsDue(t, n - 1);
      RunCycle(t.c, t.states, t.ins, n - 1);
      CountingStep(t.c, t.states[n - 1], t.ins[n - 1], t.states[n],
                   if n - 1 < FirstDue(t.c) then FirstDue(t.c) - n else 2 * FirstDue(t.c) - n);
    }
  }

  lemma ResetCounts(c: Config, s: State)
    requires s.ref == StartRefresher(c)
    ensures Counting(c, s, FirstDue(c) - 1) && !s.ref.wantsRefresh
  {
    NextProduct(c.postponing - 1, c.tREFI);
  }

  /** A trial starts with all registers at reset. */
  ghost predicate FromReset(t: Trial) { t.states != [] && t.states[0] == Start(t.c, Zeros(t.c)) }

  lemma IdleStays(c: Config, s: State, i: Input, s': State)
    requires Follows(c, s, i, s') && s.ref.fsm.Idle? && (c.withRefresh ==> !s.ref.wantsRefresh)
    ensures s'.ref.fsm.Idle?
  {
    FollowsMoves(c, s, i, s');
  }

  /** Until the first refresh is wanted the refresher rests. */
  lemma {:induction false} RestsUntilDue(t: Trial, n: nat)
    requires t.Valid() && FromReset(t) && n <= |t.ins| && (t.c.withRefresh ==> n <= FirstDue(t.c))
    ensures Resting(t, n)
  {
    hide Initial, Step, Frame, Follows, FirstDue, Due;
    if n == 0 {
      ResetIdle(t);
    } else {
      RestsUntilDue(t, n - 1);
      RunCycle(t.c, t.states, t.ins, n - 1);
      if t.c.withRefresh {
        RunsDue(t, n - 1);
        NotDue(t.c, t.states[n - 1], n - 1);
      }
      IdleStays(t.c, t.states[n - 1], t.ins[n - 1], t.states[n]);
    }
  }

  lemma ResetIdle(t: Trial)
    requires FromReset(t)
    ensures Resting(t, 0)
  {
  }

  lemma NotDue(c: Config, s: State, n: nat)
    requires Due(c, s, n) && n != FirstDue(c)
    ensures !s.ref.wantsRefresh
  {
  }

  ghost predicate CellIsZero(c: Config, s: State) {
    s.phy.banks != [] && s.phy.banks[0].mem != [] && s.phy.banks[0].mem[0] == P.Zero(c.Phy())
  }

  /** A trial from reset. */
  lemma MakeTrial(c: Config, first: nat, next: BM.Request, last: nat, length: nat) returns (t: Trial)
    requires c.Valid() && next.address < Pow2(c.RcaBits())
    ensures t.Valid() && t.c == c && t.first == first && t.plan == Plan(c, first, next, last)
    ensures t.on == Supplied(c, first) && |t.ins| == length
    ensures CellIsZero(c, t.states[0]) && FromReset(t)
  {
    hide Step, RefreshProgress.Slowest;
    var plan, on := Plan(c, first, next, last), Supplied(c, first);
    var ins := seq(length, n requires 0 <= n < length => Frame(c, plan(n), n == on));
    forall n: nat | n < length ensures InBank(c, plan(n)) && Sized(c, ins[n]) {
      FrameSized(c, plan(n), n == on);
    }
    StartIsInitial(c, Zeros(c));
    var states := RunsExist(c, Start(c, Zeros(c)), ins);
    t := Trial(c, states, ins, plan, on, first);
  }

  /** A trial over before the first refresh. */
  lemma MakeQuietTrial(c: Config, next: BM.Request, last: nat, length: nat) returns (t: Trial)
    requires c.Valid() && next.address < Pow2(c.RcaBits()) && BeforeRefresh(c, length)
    ensures t.Valid() && t.c == c && t.first == RefreshProgress.Slowest(c) && t.plan == Plan(c, t.first, next, last)
    ensures t.on == Supplied(c, t.first) && |t.ins| == length
    ensures CellIsZero(c, t.states[0]) && FromReset(t) && Rested(t)
  {
    hide Step, Plan, Supplied, FirstDue, FromReset;
    t := MakeTrial(c, RefreshProgress.Slowest(c), next, last, length);
    forall n: nat | n <= length ensures Resting(t, n) { RestsUntilDue(t, n); }
  }

  /** The refresher rests throughout. */
  ghost predicate Rested(t: Trial) { forall n: nat | n <= |t.ins| :: Resting(t, n) }

  /** A trial, long enough for its write to be served. */
  ghost predicate Trying(t: Trial, next: BM.Request, last: nat) {
    && t.c.Valid() && t.Valid() && RefreshProgress.Slowest(t.c) <= t.first
    && t.plan == Plan(t.c, t.first, next, last) && t.on == Supplied(t.c, t.first) && Served(t.c, t.first) < |t.ins|
    && Served(t.c, t.first) <= last && forall n: nat | n <= Served(t.c, t.first) :: Resting(t, n)
  }

  lemma Pow2Small()
    ensures Pow2(0) == 1 && Pow2(1) == 2
  {
  }

  lemma RowOfHome(c: Config)
    requires c.Valid()
    ensures A.Row(c.Slicer(), Home.address) == A.Row(c.Slicer(), HomeRead.address) == 0
    ensures A.Row(c.Slicer(), Elsewhere(c).address) == 1
    ensures c.rowbits > 0 ==> Elsewhere(c).address < Pow2(c.RcaBits())
  {
    hide Up, Pow2;
    SlicesOfSmall(0, c.colbits - c.align);
    SlicesOfCat(0, 1, c.colbits - c.align);
    assert Pow2(0) == 1 && Pow2(1) == 2 by { Pow2Small(); }
    if c.rowbits > 0 {
      Pow2Monotone(1, c.rowbits);
      CatBound(0, 1, c.colbits - c.align, c.rowbits);
    }
  }

  /** When nothing is presented before the write under trial is served. */
  lemma Silence(t: Trial, next: BM.Request, last: nat)
    requires Trying(t, next, last)
    ensures t.c.Valid() && |t.states| == |t.ins| + 1 && forall n: nat | n <= Served(t.c, t.first) :: Resting(t, n)
    ensures var z := t.first;
            && Silent(t, 0, z) && Silent(t, z + 1, Presented(t.c, t.first))
            && Silent(t, Presented(t.c, t.first) + 1, Served(t.c, t.first))
            && t.plan(z) == t.plan(Presented(t.c, t.first)) == Some(Home) && t.plan(Served(t.c, t.first)) == Some(next)
  {
    hide RefreshProgress.Slowest, Initial;
  }

  /** When nothing is presented after it. */
  lemma SilenceAfter(t: Trial, next: BM.Request, last: nat)
    requires Trying(t, next, last) && Rested(t)
    ensures t.c.Valid() && |t.states| == |t.ins| + 1 && forall n: nat | n <= |t.ins| :: Resting(t, n)
    ensures Silent(t, Served(t.c, t.first) + 1, Min(last, |t.ins|)) && Silent(t, last + 1, |t.ins|)
    ensures Served(t.c, t.first) < last ==> t.plan(last) == Some(HomeRead)
  {
    hide RefreshProgress.Slowest, Initial;
  }

  lemma SilentAt(t: Trial, n: nat, m: nat, j: nat)
    requires Silent(t, n, m) && n <= j < m
    ensures t.plan(j).None? && Resting(t, j + 1) && Silent(t, j, j + 1)
  {
  }

  lemma FirstArrives(t: Trial, next: BM.Request, last: nat)
    requires Trying(t, next, last)
    ensures var z := t.first;
            At(t, z + 2, BM.Regular, None, [], Some(Home), M.Read) && AllReady(t.states[z + 2])
  {
    hide Resting, Alone, Trial.Valid, AllReady, Silent, Seen, RefreshProgress.Slowest;
    var z := t.first;
    Silence(t, next, last);
    StartsAlone(t);
    Rests(t, 0, z, None, M.Read);
    SilentAt(t, z + 1, Presented(t.c, t.first), z + 1);
    Arrives(t, z, None, Home, M.Read);
  }

  /** The first write opens row 0. */
  lemma FirstOpens(t: Trial, next: BM.Request, last: nat)
    requires Trying(t, next, last)
    ensures var n := t.first + 3 + t.c.tRCD;
            Holding(t, n, Home, M.Read) && t.states[n].mux.tccd.ready
  {
    hide Resting, Alone, Trial.Valid, Silent, Seen, RefreshProgress.Slowest, A.Row;
    var z := t.first;
    Silence(t, next, last);
    FirstArrives(t, next, last);
    SilentPart(t, z + 1, Presented(t.c, t.first), z + 2, z + 3);
    Misses(t, z + 2, None, Home, M.Read);
    SilentPart(t, z + 1, Presented(t.c, t.first), z + 3, z + 3 + t.c.tRCD);
    Opens(t, z + 3, None, Home, M.Read);
  }

  /** After the first write the multiplexer serves writes, and row 0 is open. */
  lemma FirstServed(t: Trial, next: BM.Request, last: nat)
    requires Trying(t, next, last)
    ensures At(t, Opened(t.c, t.first) + 1, BM.Regular, Some(0), [], None, M.Write)
  {
    hide Resting, Alone, Trial.Valid, Silent, Seen, RefreshProgress.Slowest, A.Row;
    var z := t.first;
    var n := z + 3 + t.c.tRCD;
    RowOfHome(t.c);
    Silence(t, next, last);
    FirstOpens(t, next, last);
    SilentPart(t, z + 1, Presented(t.c, t.first), n, n + t.c.readLatency);
    TurnsToWrite(t, n, Home);
    SilentAt(t, z + 1, Presented(t.c, t.first), n + t.c.readLatency);
    FirstReady(t, n);
    Serves(t, n + t.c.readLatency, Home);
  }

  lemma FirstReady(t: Trial, n: nat)
    requires n + t.c.readLatency < |t.states| && t.states[n].mux.tccd.ready
    requires Calm(t.states[n], t.states[n + t.c.readLatency], t.c.readLatency)
    ensures t.states[n + t.c.readLatency].mux.tccd.ready
  {
  }

  /** The write under trial finds everything ready. */
  lemma SecondHolds(t: Trial, next: BM.Request, last: nat)
    requires Trying(t, next, last)
    ensures Holding(t, Served(t.c, t.first), Home, M.Write) && AllReady(t.states[Served(t.c, t.first)])
  {
    hide Resting, Alone, Trial.Valid, Silent, Seen, RefreshProgress.Slowest, A.Row, AllReady;
    RowOfHome(t.c);
    Silence(t, next, last);
    FirstServed(t, next, last);
    SilentPart(t, t.first + 1, Presented(t.c, t.first), Opened(t.c, t.first) + 1, Presented(t.c, t.first));
    Rests(t, Opened(t.c, t.first) + 1, Presented(t.c, t.first), Some(0), M.Write);
    SilentAt(t, Presented(t.c, t.first) + 1, Served(t.c, t.first), Presented(t.c, t.first) + 1);
    Arrives(t, Presented(t.c, t.first), Some(0), Home, M.Write);
  }

  /** A command is issued for a request of bank 0. */
  ghost predicate Issues(t: Trial, n: nat, r: BM.Request) {
    && n < |t.ins| && n < |t.states| && Alone(t.c, t.states[n])
    && Taken(t.c, t.states[n]) && Accessing(t.c, t.states[n]) && t.states[n].worlds[0].s.buffer == Some(r)
  }

  lemma SecondSilent(t: Trial, next: BM.Request, last: nat)
    requires Trying(t, next, last) && Rested(t)
    requires Served(t.c, t.first) + 2 <= |t.ins| && (last <= Served(t.c, t.first) || Served(t.c, t.first) + 2 <= last)
    ensures Silent(t, Served(t.c, t.first) + 1, Served(t.c, t.first) + 2)
  {
    hide Resting, Trial.Valid, Silent, RefreshProgress.Slowest;
    var k := Served(t.c, t.first);
    SilenceAfter(t, next, last);
    if last <= k {
      SilentPart(t, last + 1, |t.ins|, k + 1, k + 2);
    } else {
      SilentPart(t, k + 1, Min(last, |t.ins|), k + 1, k + 2);
    }
  }

  /** The write under trial is issued, and two cycles later the next request is in the buffer. */
  lemma SecondServed(t: Trial, next: BM.Request, last: nat)
    requires Trying(t, next, last) && Rested(t)
    requires Served(t.c, t.first) + 2 <= |t.ins| && (last <= Served(t.c, t.first) || Served(t.c, t.first) + 2 <= last)
    ensures Issues(t, Served(t.c, t.first), Home)
    ensures At(t, Served(t.c, t.first) + 1, BM.Regular, Some(0), [next], None, M.Write)
    ensures At(t, Served(t.c, t.first) + 2, BM.Regular, Some(0), [], Some(next), M.Write)
    ensures var s := t.states[Served(t.c, t.first) + 2]; Wrote(s, 2) && RowsReady(s) && s.worlds[0].s.tras.ready
  {
    hide Resting, Alone, Trial.Valid, Silent, Seen, RefreshProgress.Slowest, A.Row;
    var k := Served(t.c, t.first);
    RowOfHome(t.c);
    SilenceAfter(t, next, last);
    SecondHolds(t, next, last);
    Serves(t, k, Home);
    SecondSilent(t, next, last);
    Loads(t, k + 1, Some(0), next, M.Write);
    CalmWrote(t.states[k + 1], t.states[k + 2], 1, 1);
  }

  // A read too early -------------------------------------------------------------------------------

  /** A read behind the write is issued one cycle after the write-to-read time. */
  lemma ReadFollows(t: Trial)
    requires t.c.Valid() && t.c.cwl > 0 && Trying(t, HomeRead, Served(t.c, t.first)) && Rested(t)
    requires Served(t.c, t.first) + t.c.Mux().tWTR + 1 < |t.ins|
    ensures Issues(t, Served(t.c, t.first), Home) && Issues(t, Served(t.c, t.first) + t.c.Mux().tWTR + 1, HomeRead)
  {
    hide Resting, Alone, Trial.Valid, Silent, Seen, RefreshProgress.Slowest, A.Row, CeilDiv;
    var k := Served(t.c, t.first);
    var n := k + t.c.Mux().tWTR + 1;
    RowOfHome(t.c);
    CyclesOfWrite(t.c);
    SilenceAfter(t, HomeRead, k);
    SecondServed(t, HomeRead, k);
    SilentPart(t, k + 1, |t.ins|, k + 2, k + 3);
    HoldCycle(t, k + 2, k + 3, HomeRead, M.Write);
    CalmWrote(t.states[k + 2], t.states[k + 3], 2, 1);
    SilentPart(t, k + 1, |t.ins|, k + 3, n);
    WaitsForRead(t, k + 3, 3, HomeRead);
    SilentAt(t, k + 1, |t.ins|, n);
    Serves(t, n, HomeRead);
  }

  lemma CyclesOfWrite(c: Config)
    requires c.cwl > 0
    ensures 3 <= c.Mux().tWTR && 3 <= c.Timing().tWTP && c.tCCD < c.Timing().tWTP
  {
    CeilDivIsLeast(c.cwl, c.nphases, 0);
  }

  // A row closed too early -------------------------------------------------------------------------

  /** The next request's row is open. */
  function Reopened(c: Config, first: nat): nat
    requires c.Valid()
  {
    Served(c, first) + c.Timing().tWTP + c.tRP + c.tRCD
  }

  /** The read is presented after another rest, and after the data of the write under trial. */
  function Returned(c: Config, first: nat): nat
    requires c.Valid()
  {
    Max(Reopened(c, first) + 1 + RefreshProgress.Slowest(c), Supplied(c, first) + 1)
  }

  /** It is issued once its row has been opened again. */
  function ReadBack(c: Config, first: nat): nat
    requires c.Valid()
  {
    Returned(c, first) + 3 + c.tRP + c.tRCD + 2
  }

  ghost predicate Returning(t: Trial) {
    && t.c.Valid() && t.c.cwl > 0 && t.c.rowbits > 0
    && Trying(t, Elsewhere(t.c), Returned(t.c, t.first)) && Rested(t) && ReadBack(t.c, t.first) < |t.ins|
  }

  /** When nothing is presented in such a trial. */
  lemma ReturnSilence(t: Trial)
    requires Returning(t)
    ensures |t.states| == |t.ins| + 1 && forall n: nat | n <= |t.ins| :: Resting(t, n)
    ensures Silent(t, Served(t.c, t.first) + 1, Returned(t.c, t.first))
    ensures Silent(t, Returned(t.c, t.first) + 1, |t.ins|)
    ensures t.plan(Returned(t.c, t.first)) == Some(HomeRead)
    ensures Reopened(t.c, t.first) + 1 + RefreshProgress.Slowest(t.c) <= Returned(t.c, t.first)
    ensures Supplied(t.c, t.first) < Returned(t.c, t.first)
    ensures A.Row(t.c.Slicer(), Elsewhere(t.c).address) == 1 && A.Row(t.c.Slicer(), HomeRead.address) == 0
    ensures 3 <= t.c.Timing().tWTP
  {
    hide Resting, Trial.Valid, RefreshProgress.Slowest, Silent, A.Row, CeilDiv;
    RowOfHome(t.c);
    CyclesOfWrite(t.c);
    SilenceAfter(t, Elsewhere(t.c), Returned(t.c, t.first));
  }

  /** The row of the write under trial is closed as early as its recovery allows. */
  lemma RowCloses(t: Trial) returns (open: Option<nat>)
    requires Returning(t)
    ensures var n := Served(t.c, t.first) + t.c.Timing().tWTP;
            && At(t, n, BM.Precharge, open, [], Some(Elsewhere(t.c)), M.Write)
            && CloseReady(t.states[n]) && t.states[n].mux.tccd.ready && RowsReady(t.states[n])
  {
    hide Resting, Alone, Trial.Valid, Silent, Seen, RefreshProgress.Slowest, A.Row, CeilDiv, Returned;
    var k, next := Served(t.c, t.first), Elsewhere(t.c);
    ReturnSilence(t);
    SecondServed(t, next, Returned(t.c, t.first));
    SilentPart(t, k + 1, Returned(t.c, t.first), k + 2, k + 3);
    Misses(t, k + 2, Some(0), next, M.Write);
    CalmWrote(t.states[k + 2], t.states[k + 3], 2, 1);
    SilentPart(t, k + 1, Returned(t.c, t.first), k + 3, k + t.c.Timing().tWTP);
    open := WaitsToClose(t, k + 3, 3, Some(0), next, M.Write);
  }

  lemma NextOpens(t: Trial)
    requires Returning(t)
    ensures Holding(t, Reopened(t.c, t.first), Elsewhere(t.c), M.Write)
    ensures t.states[Reopened(t.c, t.first)].mux.tccd.ready
  {
    hide Resting, Alone, Trial.Valid, Silent, Seen, RefreshProgress.Slowest, A.Row, CeilDiv, Returned;
    var n, next := Served(t.c, t.first) + t.c.Timing().tWTP, Elsewhere(t.c);
    ReturnSilence(t);
    var open := RowCloses(t);
    SilentPart(t, Served(t.c, t.first) + 1, Returned(t.c, t.first), n, n + t.c.tRP);
    Closes(t, n, open, next, M.Write);
    SilentPart(t, Served(t.c, t.first) + 1, Returned(t.c, t.first), n + t.c.tRP, n + t.c.tRP + t.c.tRCD);
    Opens(t, n + t.c.tRP, None, next, M.Write);
  }

  lemma ReadArrives(t: Trial)
    requires Returning(t)
    ensures var n := Returned(t.c, t.first) + 2;
            At(t, n, BM.Regular, Some(1), [], Some(HomeRead), M.Write) && AllReady(t.states[n])
  {
    hide Resting, Alone, Trial.Valid, Silent, Seen, RefreshProgress.Slowest, A.Row, CeilDiv, Returned, AllReady;
    var g, last := Reopened(t.c, t.first), Returned(t.c, t.first);
    ReturnSilence(t);
    NextOpens(t);
    SilentAt(t, Served(t.c, t.first) + 1, last, g);
    Serves(t, g, Elsewhere(t.c));
    SilentPart(t, Served(t.c, t.first) + 1, last, g + 1, last);
    Rests(t, g + 1, last, Some(1), M.Write);
    SilentAt(t, last + 1, |t.ins|, last + 1);
    Arrives(t, last, Some(1), HomeRead, M.Write);
  }

  /** The row of the write under trial is open again for the read. */
  lemma HomeOpens(t: Trial)
    requires Returning(t)
    ensures Holding(t, ReadBack(t.c, t.first) - 2, HomeRead, M.Write)
    ensures ColumnsReady(t.states[ReadBack(t.c, t.first) - 2])
  {
    hide Resting, Alone, Trial.Valid, Silent, Seen, RefreshProgress.Slowest, A.Row, CeilDiv, Returned;
    var n := Returned(t.c, t.first) + 3;
    ReturnSilence(t);
    ReadArrives(t);
    SilentPart(t, n - 2, |t.ins|, n - 1, n);
    Misses(t, n - 1, Some(1), HomeRead, M.Write);
    SilentPart(t, n - 2, |t.ins|, n, n + t.c.tRP);
    Closes(t, n, Some(1), HomeRead, M.Write);
    SilentPart(t, n - 2, |t.ins|, n + t.c.tRP, n + t.c.tRP + t.c.tRCD);
    Opens(t, n + t.c.tRP, None, HomeRead, M.Write);
  }

  lemma ReadReturns(t: Trial)
    requires Returning(t)
    ensures Issues(t, Served(t.c, t.first), Home) && Issues(t, ReadBack(t.c, t.first), HomeRead)
  {
    hide Resting, Alone, Trial.Valid, Silent, Seen, RefreshProgress.Slowest, A.Row, CeilDiv, Returned;
    var h := ReadBack(t.c, t.first) - 2;
    ReturnSilence(t);
    SecondServed(t, Elsewhere(t.c), Returned(t.c, t.first));
    HomeOpens(t);
    SilentPart(t, Returned(t.c, t.first) + 1, |t.ins|, h, h + 2);
    TurnsToRead(t, h, HomeRead);
    SilentAt(t, Returned(t.c, t.first) + 1, |t.ins|, h + 2);
    Serves(t, h + 2, HomeRead);
  }

  // What the memory keeps --------------------------------------------------------------------------

  lemma EnablesDown(t: Trial, n: nat)
    requires t.Valid() && n < |t.ins| && n != t.on
    ensures Fits(t.c, t.states[n], t.ins[n])
    ensures forall l | 0 <= l < |BusData(t.c, t.states[n], t.ins[n]).1| :: !BusData(t.c, t.states[n], t.ins[n]).1[l]
  {
    hide Step, Initial, X.Writer;
    RunCycle(t.c, t.states, t.ins, n);
  }

  /** The write landing in this cycle, if any, is not for cell 0. */
  ghost predicate MissesHome(c: Config, s: State) {
    && c.Valid() && WellFormed(c, s)
    && (s.phy.banks[0].active ==> s.phy.banks[0].row == 1)
  }

  lemma RowOneIsElsewhere(c: Config, col: nat)
    requires c.Valid()
    ensures P.Cell(c.Phy(), 1, col) != 0
  {
    var v := col + Up(1, c.colbits);
    UpIsProduct(1, c.colbits);
    Pow2Monotone(c.align, c.colbits);
    CatSlices(v, c.align);
    if From(v, c.align) == 0 { UpIsProduct(0, c.align); }
  }

  lemma CellKept(c: Config, bank: P.Bank, fs: seq<P.Phase>, data: P.Word, we: seq<bool>)
    requires c.Valid() && P.BankOk(c.Phy(), bank)
    requires (forall l | 0 <= l < |we| :: !we[l]) || (bank.active ==> bank.row == 1)
    ensures P.BankStep(c.Phy(), bank, fs, 0, data, we).mem[0] == bank.mem[0]
  {
    hide P.Cell, P.Landing, P.Written, P.Activated, P.Precharged;
    var landing := P.Landing(c.Phy(), fs, bank, 0);
    if landing.Some? && bank.active {
      P.CellInRange(c.Phy(), bank.row, landing.value);
      if bank.row == 1 { RowOneIsElsewhere(c, landing.value); }
      var cell := P.Cell(c.Phy(), bank.row, landing.value);
      assert cell == 0 ==> P.Merge(bank.mem[cell], data, we) == bank.mem[cell];
    }
  }

  lemma ZeroStep(t: Trial, n: nat)
    requires t.Valid() && n < |t.ins| && CellIsZero(t.c, t.states[n]) && (n == t.on ==> MissesHome(t.c, t.states[n]))
    ensures CellIsZero(t.c, t.states[n + 1])
  {
    hide Step, Initial, BusData, P.BankStep;
    RunCycle(t.c, t.states, t.ins, n);
    if n != t.on { EnablesDown(t, n); }
    FollowsPhy(t.c, t.states[n], t.ins[n], t.states[n + 1], 0);
    CellKept(t.c, t.states[n].phy.banks[0], t.states[n].phases, BusData(t.c, t.states[n], t.ins[n]).0,
             BusData(t.c, t.states[n], t.ins[n]).1);
    RunIsWellFormed(t.c, t.states, t.ins, n + 1);
  }

  lemma {:induction false} StaysZero(t: Trial, n: nat)
    requires t.Valid() && n <= |t.ins| && CellIsZero(t.c, t.states[0])
    requires t.on < n ==> MissesHome(t.c, t.states[t.on])
    ensures CellIsZero(t.c, t.states[n])
  {
    hide Step, Initial, CellIsZero, MissesHome;
    if n > 0 {
      StaysZero(t, n - 1);
      ZeroStep(t, n - 1);
    }
  }

  // The read that misses the write -----------------------------------------------------------------

  /** An issued command is the device's, for master 0 and native address `AddressOf(0, 0)`. */
  lemma IssuedFor(t: Trial, n: nat, r: BM.Request)
    requires t.Valid() && Issues(t, n, r) && r.address == 0
    ensures var s := t.states[n];
            && t.c.Valid() && WellFormed(t.c, s) && s.mux.grantReq == 0 && s.worlds[0].s.buffer == Some(r)
            && ServedAddress(t.c, s) == A.AddressOf(t.c.BankMap(), 0, 0)
            && (if r.we then WriteFor(t.c, s, 0) else ReadFor(t.c, s, 0))
  {
    hide Initial, Step, Frame, Taken, Accessing, ReadIssued, WriteIssued, A.AddressOf;
    TakenIsIssued(t.c, t.states[n]);
  }

  lemma FrameData(t: Trial, n: nat)
    requires t.Valid() && n < |t.ins|
    ensures |t.ins[n]| == t.c.nmasters
    ensures forall m | 0 <= m < t.c.nmasters :: t.ins[n][m].data == seq(t.c.nbytes, _ => 1 as bv8)
    ensures n == t.on ==> forall m | 0 <= m < t.c.nmasters :: t.ins[n][m].we == seq(t.c.nbytes, _ => true)
  {
    hide Initial, Step;
  }

  /** The write under trial writes byte 0 of the reference memory. */
  lemma WritesHome(t: Trial, k: nat)
    requires t.Valid() && Issues(t, k, Home) && t.on == k + 1 + t.c.writeLatency < |t.ins| && t.c.nbytes > 0
    ensures WritesByte(t.c, t.states, t.ins, k, A.AddressOf(t.c.BankMap(), 0, 0), 0)
  {
    hide Initial, Step, Frame, A.AddressOf, Trial.Valid, Issues, WriteOf;
    FrameData(t, t.on);
    WriteOfHome(t, k);
  }

  lemma WriteOfHome(t: Trial, k: nat)
    requires t.Valid() && Issues(t, k, Home) && t.on == k + 1 + t.c.writeLatency < |t.ins| && 0 < |t.ins[t.on]|
    ensures t.c.Valid() && WriteOf(t.c, t.states, t.ins, k)
         == Some(Write(A.AddressOf(t.c.BankMap(), 0, 0), t.ins[t.on][0].data, t.ins[t.on][0].we))
  {
    hide Initial, Step, Frame, A.AddressOf, Trial.Valid, Issues, WriteIssued, ReadIssued, ServedAddress;
    IssuedFor(t, k, Home);
    IssuedIn(t, k, Home);
  }

  lemma IssuedIn(t: Trial, n: nat, r: BM.Request)
    requires t.Valid() && Issues(t, n, r)
    ensures n < |t.ins| < |t.states| && Owner(t.states[n]) == 0
  {
  }

  /** Every write of the reference memory carries ones. */
  lemma WritesOnes(t: Trial, k: nat)
    requires t.Valid() && WriteOf(t.c, t.states, t.ins, k).Some?
    ensures WriteOf(t.c, t.states, t.ins, k).value.data == seq(t.c.nbytes, _ => 1 as bv8)
  {
    hide Initial, Step, Frame, ServedAddress, WriteIssued;
    FrameData(t, k + 1 + t.c.writeLatency);
  }

  /** After the write under trial, byte 0 of the reference memory is one. */
  lemma ReferenceIsOne(t: Trial, k: nat, n: nat)
    requires t.Valid() && Issues(t, k, Home) && t.on == k + 1 + t.c.writeLatency < |t.ins| && t.c.nbytes > 0 && k < n
    ensures t.c.Valid() && 0 < |t.states| && WellFormed(t.c, t.states[0])
    ensures var a := A.AddressOf(t.c.BankMap(), 0, 0);
            a < A.Addresses(t.c.BankMap()) && var w := Flat(t.c, t.states, t.ins, n)[a]; 0 < |w| && w[0] == 1
  {
    hide Initial, Step, Frame, A.AddressOf, Trial.Valid, Issues, WriteOf, Flat, LastWriter;
    var a := A.AddressOf(t.c.BankMap(), 0, 0);
    TrialLengths(t);
    RunIsWellFormed(t.c, t.states, t.ins, 0) by { assert t.Valid(); TrialIsRun(t); }
    A.CellRoundTrip(t.c.BankMap(), 0, 0);
    WritesHome(t, k);
    LastWriteWins(t.c, t.states, t.ins, n, a, 0);
    LastWriterIsLast(t.c, t.states, t.ins, n, a, 0);
    WritesOnes(t, LastWriter(t.c, t.states, t.ins, n, a, 0).value);
  }

  lemma TrialIsRun(t: Trial)
    requires t.Valid()
    ensures IsRun(t.c, t.states, t.ins)
  {
  }

  /** A read whose cell is still zero one cycle after it was issued does not return the memory. */
  lemma ReadFails(t: Trial, k: nat, n: nat)
    requires t.Valid() && t.c.nbytes > 0 && Issues(t, k, Home) && t.on == k + 1 + t.c.writeLatency < |t.ins|
    requires k < n && Issues(t, n, HomeRead) && n + 1 + t.c.readLatency <= |t.ins| && CellIsZero(t.c, t.states[n + 1])
    ensures !ReadCorrect(t.c, t.states, t.ins, 0, n + 1 + t.c.readLatency)
  {
    hide Initial, Step, Frame, A.AddressOf, Trial.Valid, Issues, Flat, ModelBus, ReadBus, X.RdataValid, ReadIssued;
    TrialLengths(t);
    TrialIsRun(t);
    IssuedFor(t, n, HomeRead);
    ReferenceIsOne(t, k, n);
    ReadStrobes(t.c, t.states, t.ins, 0, n + 1 + t.c.readLatency);
    RunIsWellFormed(t.c, t.states, t.ins, n + 1);
    ReadDriven(t.c, t.states, t.ins, n);
    BusDelay(t.c, t.states, t.ins, n + 1 + t.c.readLatency);
  }

  // The row under the landing write ----------------------------------------------------------------

  /** Everything queued in the bank is one request. */
  ghost predicate OnlyPending(c: Config, s: State, r: BM.Request) {
    Alone(c, s) && forall q | q in BM.Pending(s.worlds[0].s) :: q == r
  }

  lemma OnlyPendingStep(t: Trial, n: nat, r: BM.Request)
    requires t.Valid() && n < |t.ins| && t.plan(n).None? && Resting(t, n + 1) && OnlyPending(t.c, t.states[n], r)
    ensures OnlyPending(t.c, t.states[n + 1], r)
  {
    hide Initial, Step, Frame, Taken, Accessing;
    SoloCycle(t, n);
    var b, b' := t.states[n].worlds[0].s, t.states[n + 1].worlds[0].s;
    assert forall q | q in b.lookahead :: q in BM.Pending(b);
    assert b.buffer.Some? ==> b.buffer.value in BM.Pending(b);
    assert b.lookahead != [] ==> b.lookahead[0] in b.lookahead;
    assert b'.buffer.Some? ==> b'.buffer.value == r;
    assert forall q | q in b'.lookahead :: q in b.lookahead;
  }

  lemma {:induction false} OnlyElsewhere(t: Trial, n: nat)
    requires Returning(t) && Served(t.c, t.first) < n <= Returned(t.c, t.first)
    ensures OnlyPending(t.c, t.states[n], Elsewhere(t.c))
    decreases n
  {
    hide Resting, Trial.Valid, Alone, OnlyPending, Returned, RefreshProgress.Slowest, Silent, CeilDiv;
    ReturnSilence(t);
    if n == Served(t.c, t.first) + 1 {
      SecondServed(t, Elsewhere(t.c), Returned(t.c, t.first));
      QueuedOnly(t, n, Elsewhere(t.c));
    } else {
      OnlyElsewhere(t, n - 1);
      SilentAt(t, Served(t.c, t.first) + 1, Returned(t.c, t.first), n - 1);
      OnlyPendingStep(t, n - 1, Elsewhere(t.c));
    }
  }

  lemma QueuedOnly(t: Trial, n: nat, r: BM.Request)
    requires At(t, n, BM.Regular, Some(0), [r], None, M.Write)
    ensures OnlyPending(t.c, t.states[n], r)
  {
  }

  /** An activate of the bank opens the row of the request it holds. */
  lemma ActivatesPending(t: Trial, n: nat, r: BM.Request)
    requires t.Valid() && n < |t.ins| && OnlyPending(t.c, t.states[n], r)
    ensures Fits(t.c, t.states[n], t.ins[n])
    ensures var cmd := BusCommand(t.c, t.states[n], t.ins[n], 0); cmd.Act? ==> cmd.row == A.Row(t.c.Slicer(), r.address)
  {
    hide Initial, Step, Frame, Taken, Accessing, A.Row;
    RunCycle(t.c, t.states, t.ins, n);
    BM.IssuedMeaning(t.c.Bank(), t.states[n].worlds[0].s, BankInput(t.c, t.states[n], t.ins[n], 0));
    var b := t.states[n].worlds[0].s;
    assert b.buffer.Some? ==> b.buffer.value in BM.Pending(b);
  }

  /** The precharge is issued to the device. */
  lemma PrechargeIssued(t: Trial, n: nat, open: Option<nat>, r: BM.Request)
    requires t.Valid() && n < |t.ins| && At(t, n, BM.Precharge, open, [], Some(r), M.Write)
    requires CloseReady(t.states[n]) && t.states[n].mux.tccd.ready
    ensures Fits(t.c, t.states[n], t.ins[n]) && BusCommand(t.c, t.states[n], t.ins[n], 0) == D.Pre
  {
    hide Initial, Step, Frame, A.Row;
    RunCycle(t.c, t.states, t.ins, n);
    OffersAlone(t.c, t.states[n]);
    TakenIsReady(t.c, t.states[n]);
    BM.IssuedMeaning(t.c.Bank(), t.states[n].worlds[0].s, BankInput(t.c, t.states[n], t.ins[n], 0));
  }

  /** How the row registers follow a command, when it is a precharge or an activate of row 1. */
  lemma InactiveStep(c: Config, s: State, s': State, cmd: D.Command)
    requires c.Valid() && c.rowbits > 0 && WellFormed(c, s) && WellFormed(c, s')
    requires RowMoves(c, s.phy.banks[0], s'.phy.banks[0], cmd)
    requires cmd.Pre? || (MissesHome(c, s) && (cmd.Act? ==> cmd.row == 1))
    ensures MissesHome(c, s')
  {
    Pow2Monotone(1, c.rowbits);
    SlicesOfSmall(1, c.rowbits);
  }

  /** From two cycles after its precharge until the read returns, the row of the write under trial is not active. */
  lemma {:induction false} HomeInactive(t: Trial, n: nat)
    requires Returning(t) && Served(t.c, t.first) + t.c.Timing().tWTP + 2 <= n <= Returned(t.c, t.first)
    ensures MissesHome(t.c, t.states[n])
    decreases n
  {
    hide Resting, Trial.Valid, Alone, OnlyPending, Returned, RefreshProgress.Slowest, Silent, CeilDiv, A.Row,
         BusCommand, Seen, Fits, WellFormed, RowMoves, MissesHome, IsRun;
    ReturnSilence(t);
    TrialIsRun(t);
    RunRowMoves(t.c, t.states, t.ins, n - 1, 0);
    if n == Served(t.c, t.first) + t.c.Timing().tWTP + 2 {
      var open := RowCloses(t);
      PrechargeIssued(t, n - 2, open, Elsewhere(t.c));
    } else {
      HomeInactive(t, n - 1);
      OnlyElsewhere(t, n - 2);
      ActivatesPending(t, n - 2, Elsewhere(t.c));
    }
    InactiveStep(t.c, t.states[n - 1], t.states[n], BusCommand(t.c, t.states[n - 2], t.ins[n - 2], 0));
  }

  // The exact condition ----------------------------------------------------------------------------

  /** Every read strobe of every run shows what a plain memory holds. */
  ghost predicate Correct(c: Config) {
    forall states, ins, m: nat, n: nat | IsRun(c, states, ins) && m < c.nmasters && n <= |ins| ::
      ReadCorrect(c, states, ins, m, n)
  }

  /** Cycles a losing run takes at most. */
  function TrialLength(c: Config): nat
    requires c.Valid()
  {
    ReadBack(c, RefreshProgress.Slowest(c)) + 1 + c.readLatency
  }

  lemma TooLateForRead(c: Config) returns (t: Trial, n: nat)
    requires c.Valid() && c.cwl > 0 && c.nbytes > 0 && BeforeRefresh(c, TrialLength(c))
    requires c.Mux().tWTR < c.writeLatency
    ensures t.c == c && FromReset(t) && IsRun(c, t.states, t.ins)
    ensures n <= |t.ins| && !ReadCorrect(c, t.states, t.ins, 0, n)
  {
    hide Initial, Step, RefreshProgress.Slowest, CeilDiv, Issues, CellIsZero, ReadCorrect, FromReset;
    var first := RefreshProgress.Slowest(c);
    var k, gap := Served(c, first), c.Mux().tWTR;
    var length := Max(Supplied(c, first) + 1, k + gap + 2 + c.readLatency);
    t := MakeQuietTrial(c, HomeRead, k, length);
    n := k + gap + 2 + c.readLatency;
    ReadFollows(t);
    StaysZero(t, k + gap + 2);
    ReadFails(t, k, k + gap + 1);
  }

  lemma TooLateForRow(c: Config) returns (t: Trial, n: nat)
    requires c.Valid() && c.cwl > 0 && c.nbytes > 0 && c.rowbits > 0 && BeforeRefresh(c, TrialLength(c))
    requires c.Timing().tWTP < c.writeLatency
    ensures t.c == c && FromReset(t) && IsRun(c, t.states, t.ins)
    ensures n <= |t.ins| && !ReadCorrect(c, t.states, t.ins, 0, n)
  {
    hide Initial, Step, RefreshProgress.Slowest, CeilDiv, Issues, CellIsZero, ReadCorrect, FromReset;
    var first := RefreshProgress.Slowest(c);
    RowOfHome(c);
    t := MakeQuietTrial(c, Elsewhere(c), Returned(c, first), TrialLength(c));
    n := TrialLength(c);
    ReadReturns(t);
    HomeInactive(t, Supplied(c, first));
    StaysZero(t, ReadBack(c, first) + 1);
    ReadFails(t, Served(c, first), ReadBack(c, first));
  }

  /** The end-to-end property holds of all runs exactly when the PHY's write latency exceeds neither the
      write-to-precharge nor the write-to-read time; a refresh period longer than the losing run leaves room for
      it. */
  lemma CorrectIffLatencyFits(c: Config)
    requires c.Valid() && c.cwl > 0 && c.nbytes > 0 && c.rowbits > 0 && BeforeRefresh(c, TrialLength(c))
    ensures Correct(c) <==> LatencyFits(c)
  {
    hide Initial, Step, ReadCorrect, TrialLength, IsRun;
    if LatencyFits(c) {
      forall states, ins, m: nat, n: nat | IsRun(c, states, ins) && m < c.nmasters && n <= |ins|
        ensures ReadCorrect(c, states, ins, m, n)
      {
        ReadsReturnMemory(c, states, ins, m, n);
      }
    } else if c.Mux().tWTR < c.writeLatency {
      var t, n := TooLateForRead(c);
      assert !ReadCorrect(c, t.states, t.ins, 0, n);
    } else {
      var t, n := TooLateForRow(c);
      assert !ReadCorrect(c, t.states, t.ins, 0, n);
    }
  }
}
