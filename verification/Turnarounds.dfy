/** How long after a write the controller issues a read, whether the multiplexer turned round or a refresh came
    between. */
module Turnarounds {
  import opened Common
  import opened Runs
  import opened TimingControllers
  import opened Controllers
  import opened ControllerSafety
  import BM = BankMachines
  import M = Multiplexers
  import R = Refreshers

  /** Cycles of one run of the refresh executer. */
  function Round(c: Config): pos { R.Round(c.Refresher()) }

  /** Cycles from a write to the first in which reads are served again, when a refresh follows it at once: recovery, the
      multiplexer giving way, all postponed refreshes, and the way back. */
  function RefreshSpan(c: Config): nat { c.Timing().tWTP + 2 + c.postponing * Round(c) }

  /** Least distance from a write to a read: one more than the write-to-read time or, across a refresh, its span, then
      the activate and tRCD. */
  function ReadGap(c: Config): nat {
    if c.withRefresh then Min(c.Mux().tWTR + 1, RefreshSpan(c) + 1 + c.tRCD) else c.Mux().tWTR + 1
  }

  /** Cycles a refresh under way has taken. */
  function Elapsed(c: Config, r: R.State): int {
    match r.fsm
    case DoRefresh => (c.postponing - 1 - r.runsLeft) * Round(c) + (if r.executer == 0 then Round(c) else r.executer)
    case DoZqcs => c.postponing * Round(c)
    case _ => 0
  }

  /** Without refresh the refresher never starts, and it never owes more runs than are postponed. */
  ghost predicate RefreshBounded(c: Config, s: State) {
    && (!c.withRefresh ==> s.ref.fsm.Idle?)
    && (s.ref.fsm.DoRefresh? ==> s.ref.runsLeft <= c.postponing - 1)
  }

  /** During a refresh the last write is older than recovery and what the refresh has taken. */
  ghost predicate RefreshAge(c: Config, s: State) {
    s.mux.fsm.Refresh? ==> AtLeast(s.traffic.sinceWr, c.Timing().tWTP + 1 + Elapsed(c, s.ref))
  }

  /** A bank whose row was opened after the refresh, and when. */
  ghost predicate OpenedSince(c: Config, s: State, b: nat)
    requires b < |s.worlds|
  {
    var w := s.worlds[b];
    && (w.s.fsm.Activate? ==> AtLeast(s.traffic.sinceWr, RefreshSpan(c) + 1))
    && (w.d.open.Some? ==>
          w.d.sinceAct.Some? && AtLeast(s.traffic.sinceWr, RefreshSpan(c) + 1 + w.d.sinceAct.value))
  }

  /** Reads have been served since a refresh that followed the last write. */
  ghost predicate SinceRefresh(c: Config, s: State) {
    && c.withRefresh && AtLeast(s.traffic.sinceWr, RefreshSpan(c))
    && forall b | 0 <= b < |s.worlds| :: OpenedSince(c, s, b)
  }

  ghost predicate ReadAge(c: Config, s: State) {
    s.mux.fsm.Read? ==> AtLeast(s.traffic.sinceWr, c.Mux().tWTR + 1) || SinceRefresh(c, s)
  }

  ghost predicate TurnInv(c: Config, s: State) {
    Inv(c, s) && RefreshBounded(c, s) && RefreshAge(c, s) && ReadAge(c, s)
  }

  lemma InitialTurn(c: Config, s: State)
    requires c.Valid() && Initial(c, s)
    ensures TurnInv(c, s)
  {
    InitialInv(c, s);
  }

  // One cycle --------------------------------------------------------------------------------------

  /** The age of the last write in the next cycle. */
  lemma AgeStep(c: Config, s: State, i: Input, s': State, n: int)
    requires Inv(c, s) && Moves(c, s, i, s') && !M.WriteAccepted(c.Mux(), s.mux, MuxInput(c, s))
    ensures AtLeast(s.traffic.sinceWr, n) ==> AtLeast(s'.traffic.sinceWr, n + 1)
  {
  }

  lemma NoWriteOutside(c: Config, s: State, i: Input)
    requires Inv(c, s) && Fits(c, s, i)
    ensures M.WriteAccepted(c.Mux(), s.mux, MuxInput(c, s)) ==> s.mux.fsm.Write?
  {
    ColumnAccepted(c, s, i);
    OnlyServingAccepts(c, s, s.mux.grantReq);
  }

  /** All banks grant only once the last write of each has recovered. */
  lemma GrantedAge(c: Config, s: State)
    requires Inv(c, s) && forall b | 0 <= b < c.Nbanks() :: BM.RefreshGnt(s.worlds[b].s)
    ensures AtLeast(s.traffic.sinceWr, c.Timing().tWTP)
  {
    if s.traffic.sinceWr.Some? {
      var b :| 0 <= b < c.Nbanks() && s.worlds[b].d.sinceWr == s.traffic.sinceWr;
      assert BankInv(c, s, b);
    }
  }

  /** While all banks grant, no bank writes. */
  lemma GrantedIsSilent(c: Config, s: State, i: Input)
    requires Inv(c, s) && Fits(c, s, i) && forall b | 0 <= b < c.Nbanks() :: BM.RefreshGnt(s.worlds[b].s)
    ensures !M.WriteAccepted(c.Mux(), s.mux, MuxInput(c, s))
  {
    ColumnAccepted(c, s, i);
    DeviceHearsRefresher(c, s);
    BM.RefreshHolds(c.Bank(), s.worlds[s.mux.grantReq].s, BankInput(c, s, i, s.mux.grantReq));
  }

  lemma BoundedStep(c: Config, s: State, i: Input, s': State)
    requires TurnInv(c, s) && Moves(c, s, i, s')
    ensures RefreshBounded(c, s')
  {
  }

  /** The refresher's own clock: a refresh under way ages by at least nothing more than one cycle. */
  lemma ElapsedStep(c: Config, r: R.State, d: R.Device)
    requires R.Inv(c.Refresher(), r, d) && !r.fsm.Idle? && (r.fsm.DoRefresh? ==> r.runsLeft <= c.postponing - 1)
    requires !R.Last(c.Refresher(), r)
    ensures Elapsed(c, R.Step(c.Refresher(), r, true)) <= Elapsed(c, r) + 1
  {
  }

  /** A refresh that ends has taken all its rounds. */
  lemma ElapsedAtEnd(c: Config, r: R.State, d: R.Device)
    requires R.Inv(c.Refresher(), r, d) && R.Last(c.Refresher(), r)
    ensures Elapsed(c, r) == c.postponing * Round(c)
  {
  }

  lemma TurnIsInv(c: Config, s: State)
    requires TurnInv(c, s)
    ensures Inv(c, s)
  {
  }

  lemma RefreshAgeStep(c: Config, s: State, i: Input, s': State)
    requires TurnInv(c, s) && Moves(c, s, i, s')
    ensures RefreshAge(c, s')
  {
    hide Moves, R.Step, M.Step, BM.Inv, ControllerSafety.Quiet, Elapsed;
    FsmSteps(c, s, i, s');
    MuxPhaseStep(c, s, i, s');
    if s'.mux.fsm.Refresh? {
      MovesFits(c, s, i, s');
      GrantedAge(c, s);
      GrantedIsSilent(c, s, i);
      AgeStep(c, s, i, s', c.Timing().tWTP);
      AgeStep(c, s, i, s', c.Timing().tWTP + 1 + Elapsed(c, s.ref));
      if s.mux.fsm.Refresh? {
        StayingRefresh(c, s, i, s');
      } else {
        EnteringRefresh(c, s, i, s');
      }
    }
  }

  lemma MovesFits(c: Config, s: State, i: Input, s': State)
    requires Moves(c, s, i, s')
    ensures Fits(c, s, i)
  {
  }

  lemma StayingRefresh(c: Config, s: State, i: Input, s': State)
    requires TurnInv(c, s) && Moves(c, s, i, s') && s.mux.fsm.Refresh? && s'.mux.fsm.Refresh?
    ensures Elapsed(c, s'.ref) <= Elapsed(c, s.ref) + 1
  {
    hide R.Step, M.Step, BM.Inv, ControllerSafety.Quiet, R.Inv, Elapsed;
    FsmSteps(c, s, i, s');
    ElapsedStep(c, s.ref, s.dev);
  }

  lemma EnteringRefresh(c: Config, s: State, i: Input, s': State)
    requires TurnInv(c, s) && Moves(c, s, i, s') && !s.mux.fsm.Refresh? && s'.mux.fsm.Refresh?
    ensures Elapsed(c, s'.ref) == 0
  {
    hide M.Step, BM.Inv, ControllerSafety.Quiet;
    FsmSteps(c, s, i, s');
  }

  lemma OpenedStep(c: Config, s: State, i: Input, s': State, b: nat)
    requires TurnInv(c, s) && Moves(c, s, i, s') && b < c.Nbanks() && OpenedSince(c, s, b)
    requires AtLeast(s.traffic.sinceWr, RefreshSpan(c)) && !M.WriteAccepted(c.Mux(), s.mux, MuxInput(c, s))
    ensures OpenedSince(c, s', b)
  {
    hide RefreshSpan, R.Inv, R.Step, M.Step, MuxInput, BM.RowHit, BM.AutoPrechargeFlag;
    assert BankInv(c, s, b);
    BM.IssuedMeaning(c.Bank(), s.worlds[b].s, BankInput(c, s, i, b));
  }

  /** When reads are served again after a refresh, every bank is closed. */
  lemma ClosedAfterRefresh(c: Config, s: State, i: Input, s': State, b: nat)
    requires TurnInv(c, s) && Moves(c, s, i, s') && b < c.Nbanks()
    requires s.mux.fsm.Refresh? && R.Last(c.Refresher(), s.ref)
    ensures OpenedSince(c, s', b)
  {
    hide RefreshSpan, R.Step, M.Step, MuxInput, BM.RowHit, BM.AutoPrechargeFlag;
    RefreshingBank(c, s, i, s', b);
    assert BankInv(c, s, b);
  }

  lemma ReadAgeStep(c: Config, s: State, i: Input, s': State)
    requires TurnInv(c, s) && Moves(c, s, i, s')
    ensures ReadAge(c, s')
  {
    hide Moves, R.Step, M.Step, BM.Inv, ControllerSafety.Quiet, Elapsed, OpenedSince, RefreshSpan, R.Inv, R.Last;
    FsmSteps(c, s, i, s');
    MovesFits(c, s, i, s');
    NoWriteOutside(c, s, i);
    if s'.mux.fsm.Read? {
      match s.mux.fsm {
        case Refresh => ReadAfterRefresh(c, s, i, s');
        case Wtr =>
          assert TxxTracks(Some(c.Mux().tWTR), s.mux.twtr, s.traffic.sinceWr);
          AgeStep(c, s, i, s', c.Mux().tWTR);
        case Read => ReadStays(c, s, i, s');
        case _ =>
      }
    }
  }

  lemma ReadAfterRefresh(c: Config, s: State, i: Input, s': State)
    requires TurnInv(c, s) && Moves(c, s, i, s') && s.mux.fsm.Refresh? && s'.mux.fsm.Read?
    ensures SinceRefresh(c, s')
  {
    hide R.Step, M.Step, BM.Inv, ControllerSafety.Quiet, Elapsed, OpenedSince, R.Inv, R.Last;
    FsmSteps(c, s, i, s');
    NoWriteOutside(c, s, i);
    ElapsedAtEnd(c, s.ref, s.dev);
    AgeStep(c, s, i, s', c.Timing().tWTP + 1 + Elapsed(c, s.ref));
    forall b | 0 <= b < c.Nbanks() ensures OpenedSince(c, s', b) { ClosedAfterRefresh(c, s, i, s', b); }
  }

  lemma ReadStays(c: Config, s: State, i: Input, s': State)
    requires TurnInv(c, s) && Moves(c, s, i, s') && s.mux.fsm.Read?
    ensures AtLeast(s'.traffic.sinceWr, c.Mux().tWTR + 1) || SinceRefresh(c, s')
  {
    hide R.Step, M.Step, BM.Inv, ControllerSafety.Quiet, Elapsed, OpenedSince, R.Inv, R.Last, RefreshSpan;
    NoWriteOutside(c, s, i);
    AgeStep(c, s, i, s', c.Mux().tWTR + 1);
    AgeStep(c, s, i, s', RefreshSpan(c));
    if !AtLeast(s.traffic.sinceWr, c.Mux().tWTR + 1) {
      forall b | 0 <= b < c.Nbanks() ensures OpenedSince(c, s', b) { OpenedStep(c, s, i, s', b); }
    }
  }

  lemma TurnStep(c: Config, s: State, i: Input, s': State)
    requires TurnInv(c, s) && Follows(c, s, i, s')
    ensures TurnInv(c, s')
  {
    hide Inv, Moves, Follows, RefreshBounded, RefreshAge, ReadAge;
    TurnIsInv(c, s);
    StepInv(c, s, i, s');
    FollowsMoves(c, s, i, s');
    BoundedStep(c, s, i, s');
    RefreshAgeStep(c, s, i, s');
    ReadAgeStep(c, s, i, s');
  }

  // Every run --------------------------------------------------------------------------------------

  lemma RunTurn(c: Config, states: seq<State>, ins: seq<Input>, n: nat)
    requires IsRun(c, states, ins) && n <= |ins|
    ensures TurnInv(c, states[n]) && Inv(c, states[n])
  {
    hide TurnInv;
    var inv := (s: State) => TurnInv(c, s);
    InitialTurn(c, states[0]);
    forall s: State, i: Input, s': State | inv(s) && Next(c)(s, i, s') ensures inv(s') {
      TurnStep(c, s, i, s');
    }
    ChainInvariant(Next(c), inv, states, ins, n);
    TurnIsInv(c, states[n]);
  }

  /** A read is accepted only when the last write is `ReadGap` cycles old. */
  lemma ReadsLate(c: Config, s: State, i: Input)
    requires TurnInv(c, s) && Fits(c, s, i)
    ensures M.ReadAccepted(c.Mux(), s.mux, MuxInput(c, s)) ==> AtLeast(s.traffic.sinceWr, ReadGap(c))
  {
    hide R.Inv, ControllerSafety.Quiet, RefreshSpan, BM.Step;
    if M.ReadAccepted(c.Mux(), s.mux, MuxInput(c, s)) {
      ColumnAccepted(c, s, i);
      var b := s.mux.grantReq;
      assert BankInv(c, s, b);
      ContractKept(c, s, i, b);
      BM.IssuedIsLegal(c.Bank(), s.worlds[b], BankInput(c, s, i, b), PreAll(c, s));
      assert SinceRefresh(c, s) ==> OpenedSince(c, s, b);
    }
  }
}
