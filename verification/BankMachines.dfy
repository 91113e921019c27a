/** litedram/core/bankmachine.py: one bank's request queue, row tracking and command FSM. */
module BankMachines {
  import opened Common
  import opened TimingControllers
  import opened AddressPath
  import opened Bits
  import D = DramBank

  /** A queued request. */
  datatype Request = Request(we: bool, address: nat)

  /** FSM states; `Trp(k)` and `Trcd(k)` are the delay states with `k` cycles left. */
  datatype Fsm = Regular | Precharge | AutoPrecharge | Activate | Refresh | Trp(left: nat) | Trcd(left: nat)

  datatype Settings = Settings(depth: pos, slicer: Slicer, withAutoPrecharge: bool, timing: D.Timing) {
    ghost predicate Valid() { slicer.Valid() }
  }

  datatype State = State(
    fsm: Fsm,
    row: nat,
    rowOpened: bool,
    lookahead: seq<Request>,
    buffer: Option<Request>,
    twtp: Txx,
    trc: Txx,
    tras: Txx)

  function Reset(p: Settings): State {
    State(Regular, 0, false, [], None,
          TxxReset(Some(p.timing.tWTP)), TxxReset(p.timing.tRC), TxxReset(p.timing.tRAS))
  }

  /** Command record offered to the multiplexer. */
  datatype Cmd = Cmd(valid: bool, a: nat, cas: bool, ras: bool, we: bool, isCmd: bool, isRead: bool, isWrite: bool)

  /** Inputs of one clock cycle; `cmdReady` is the multiplexer accepting the offered command. */
  datatype Input = Input(req: Option<Request>, refreshReq: bool, cmdReady: bool)

  // Combinational signals --------------------------------------------------------------------------

  predicate Lock(s: State) { s.lookahead != [] || s.buffer.Some? }

  predicate ReqReady(p: Settings, s: State) { |s.lookahead| < p.depth }

  predicate RowHit(p: Settings, s: State)
    requires p.Valid() && s.buffer.Some?
  {
    s.row == Row(p.slicer, s.buffer.value.address)
  }

  predicate RowClose(s: State) { s.fsm.Precharge? || s.fsm.AutoPrecharge? || s.fsm.Refresh? }

  predicate RowOpen(s: State) { s.fsm.Activate? && s.trc.ready }

  /** The current and the next request are to different rows. */
  predicate AutoPrechargeFlag(p: Settings, s: State)
    requires p.Valid()
  {
    && p.withAutoPrecharge
    && s.lookahead != [] && s.buffer.Some?
    && Row(p.slicer, s.lookahead[0].address) != Row(p.slicer, s.buffer.value.address)
    && !RowClose(s)
  }

  /** A column command is offered. */
  predicate Accessing(p: Settings, s: State, refreshReq: bool)
    requires p.Valid()
  {
    s.fsm.Regular? && !refreshReq && s.buffer.Some? && s.rowOpened && RowHit(p, s)
  }

  function Offer(p: Settings, s: State, refreshReq: bool): Cmd
    requires p.Valid()
  {
    var colA := if s.buffer.None? then 0 else
                  Col(p.slicer, s.buffer.value.address) + if AutoPrechargeFlag(p, s) then 1024 else 0;
    if Accessing(p, s, refreshReq) then
      var we := s.buffer.value.we;
      Cmd(true, colA, true, false, we, false, !we, we)
    else if s.fsm.Precharge? then
      var go := s.twtp.ready && s.tras.ready;
      Cmd(go, colA, false, go, go, go, false, false)
    else if RowOpen(s) then
      var rowA := if s.buffer.None? then 0 else Row(p.slicer, s.buffer.value.address);
      Cmd(true, rowA, false, true, false, true, false, false)
    else
      Cmd(false, colA, false, false, false, s.fsm.Refresh?, false, false)
  }

  predicate WdataReady(p: Settings, s: State, refreshReq: bool, cmdReady: bool)
    requires p.Valid()
  {
    cmdReady && Accessing(p, s, refreshReq) && s.buffer.value.we
  }

  predicate RdataValid(p: Settings, s: State, refreshReq: bool, cmdReady: bool)
    requires p.Valid()
  {
    cmdReady && Accessing(p, s, refreshReq) && !s.buffer.value.we
  }

  predicate RefreshGnt(s: State) { s.fsm.Refresh? && s.twtp.ready }

  // Clock edge -------------------------------------------------------------------------------------

  /** Entering a delay chain of `n` states; with none it is an alias of its target. */
  function EnterTrp(p: Settings): Fsm { if p.timing.tRP == 1 then Activate else Trp(p.timing.tRP - 1) }

  function EnterTrcd(p: Settings): Fsm { if p.timing.tRCD == 1 then Regular else Trcd(p.timing.tRCD - 1) }

  function NextFsm(p: Settings, s: State, i: Input): Fsm
    requires p.Valid()
  {
    match s.fsm
    case Regular =>
      if i.refreshReq then Refresh
      else if s.buffer.None? then Regular
      else if !s.rowOpened then Activate
      else if !RowHit(p, s) then Precharge
      else if i.cmdReady && AutoPrechargeFlag(p, s) then AutoPrecharge
      else Regular
    case Precharge => if s.twtp.ready && s.tras.ready && i.cmdReady then EnterTrp(p) else Precharge
    case AutoPrecharge => if s.twtp.ready && s.tras.ready then EnterTrp(p) else AutoPrecharge
    case Activate => if s.trc.ready && i.cmdReady then EnterTrcd(p) else Activate
    case Refresh => if i.refreshReq then Refresh else Regular
    case Trp(k) => if k <= 1 then Activate else Trp(k - 1)
    case Trcd(k) => if k <= 1 then Regular else Trcd(k - 1)
  }

  predicate Accepted(p: Settings, s: State, i: Input)
    requires p.Valid()
  {
    i.cmdReady && Offer(p, s, i.refreshReq).valid
  }

  /** The column command of the buffered request is accepted. */
  predicate Served(p: Settings, s: State, i: Input)
    requires p.Valid()
  {
    i.cmdReady && Accessing(p, s, i.refreshReq)
  }

  function Step(p: Settings, s: State, i: Input): State
    requires p.Valid()
  {
    var load := s.buffer.None? || Served(p, s, i);
    var opening := RowOpen(s) && s.buffer.Some?;
    State(
      NextFsm(p, s, i),
      if opening then Row(p.slicer, s.buffer.value.address) else s.row,
      if RowClose(s) then false else RowOpen(s) || s.rowOpened,
      (if load && s.lookahead != [] then s.lookahead[1..] else s.lookahead)
        + (if i.req.Some? && ReqReady(p, s) then [i.req.value] else []),
      if !load then s.buffer else if s.lookahead != [] then Some(s.lookahead[0]) else None,
      TxxStep(Some(p.timing.tWTP), s.twtp, Accepted(p, s, i) && Offer(p, s, i.refreshReq).isWrite),
      TxxStep(p.timing.tRC, s.trc, Accepted(p, s, i) && RowOpen(s)),
      TxxStep(p.timing.tRAS, s.tras, Accepted(p, s, i) && RowOpen(s)))
  }

  // The command bus --------------------------------------------------------------------------------

  /** Address bit 10: all banks for a precharge, auto-precharge for a column command. */
  predicate A10(a: nat) { From(a, 10) % 2 == 1 }

  /** The DRAM command a record stands for. */
  function Decode(c: Cmd): D.Command {
    if !c.valid then D.Nop
    else if c.ras && !c.cas && !c.we then D.Act(c.a)
    else if c.ras && !c.cas && c.we then if A10(c.a) then D.PreAll else D.Pre
    else if c.cas && !c.ras && 0 <= ColumnOf(c.a) then
      if c.we then D.Wr(ColumnOf(c.a), A10(c.a)) else D.Rd(ColumnOf(c.a), A10(c.a))
    else D.Nop
  }

  /** The column address without the auto-precharge bit. */
  function ColumnOf(a: nat): int { if A10(a) then a - 1024 else a }

  /** The command the bank receives in a cycle. */
  function Issued(p: Settings, s: State, i: Input): D.Command
    requires p.Valid()
  {
    if Accepted(p, s, i) then Decode(Offer(p, s, i.refreshReq)) else D.Nop
  }

  lemma FlagBit(col: nat)
    requires From(col, 10) % 2 == 0
    ensures A10(col + 1024) && !A10(col) && ColumnOf(col) == col && ColumnOf(col + 1024) == col
  {
    AddBit(col, 10);
    assert Up(1, 10) == 1024 by { UpIsProduct(1, 10); }
  }

  lemma {:induction false} AddBit(v: nat, n: nat)
    ensures From(v + Up(1, n), n) == From(v, n) + 1
  {
    if n > 0 { AddBit(v / 2, n - 1); assert (v + Up(1, n)) / 2 == v / 2 + Up(1, n - 1); }
  }

  /** The access a request asks for. */
  function AccessOf(p: Settings, r: Request): D.Access
    requires p.Valid()
  {
    D.Access(r.we, Row(p.slicer, r.address), Col(p.slicer, r.address))
  }

  lemma OfferedAccess(p: Settings, s: State, refreshReq: bool)
    requires p.Valid() && Accessing(p, s, refreshReq)
    ensures var a, flag := AccessOf(p, s.buffer.value), AutoPrechargeFlag(p, s);
            Decode(Offer(p, s, refreshReq)) == if a.we then D.Wr(a.col, flag) else D.Rd(a.col, flag)
  {
    hide AutoPrechargeFlag, Row, Col, A10;
    SlicerRoundTrip(p.slicer, s.buffer.value.address);
    FlagBit(Col(p.slicer, s.buffer.value.address));
  }

  lemma OfferedRow(p: Settings, s: State, refreshReq: bool)
    requires p.Valid() && !Accessing(p, s, refreshReq)
    requires s.buffer.None? ==> !s.fsm.Activate? && !s.fsm.Precharge?
    ensures Decode(Offer(p, s, refreshReq))
         == (if s.fsm.Precharge? && s.twtp.ready && s.tras.ready then D.Pre
             else if RowOpen(s) then D.Act(Row(p.slicer, s.buffer.value.address))
             else D.Nop)
  {
    hide Accessing, Row, Col, A10;
    if s.buffer.Some? {
      SlicerRoundTrip(p.slicer, s.buffer.value.address);
      FlagBit(Col(p.slicer, s.buffer.value.address));
    }
  }

  /** What is issued, in terms of the FSM: the decoded record is exactly the command the FSM means. */
  lemma IssuedMeaning(p: Settings, s: State, i: Input)
    requires p.Valid()
    requires s.buffer.None? ==> !s.fsm.Activate? && !s.fsm.Precharge?
    ensures var c := Issued(p, s, i);
            && c == (if !i.cmdReady then D.Nop
                     else if Accessing(p, s, i.refreshReq) then
                       var a := AccessOf(p, s.buffer.value);
                       if a.we then D.Wr(a.col, AutoPrechargeFlag(p, s)) else D.Rd(a.col, AutoPrechargeFlag(p, s))
                     else if s.fsm.Precharge? && s.twtp.ready && s.tras.ready then D.Pre
                     else if RowOpen(s) then D.Act(Row(p.slicer, s.buffer.value.address))
                     else D.Nop)
  {
    hide Offer, Row, Col, AutoPrechargeFlag;
    if Accessing(p, s, i.refreshReq) {
      OfferedAccess(p, s, i.refreshReq);
    } else {
      OfferedRow(p, s, i.refreshReq);
    }
  }

  /** A column command carries the column of the request it serves, plus the auto-precharge flag. */
  lemma OfferColumn(p: Settings, s: State, refreshReq: bool)
    requires p.Valid()
    ensures var c := Offer(p, s, refreshReq);
            c.isRead || c.isWrite ==>
              && s.buffer.Some?
              && (c.a == Col(p.slicer, s.buffer.value.address) || c.a == Col(p.slicer, s.buffer.value.address) + 1024)
  {
  }

  /** A granted refresh stays granted, and a refreshing bank machine issues nothing. */
  lemma RefreshHolds(p: Settings, s: State, i: Input)
    requires p.Valid() && s.fsm.Refresh?
    ensures Issued(p, s, i) == D.Nop
    ensures RefreshGnt(s) && i.refreshReq ==> RefreshGnt(Step(p, s, i))
  {
  }

  // A bank machine together with the bank it drives -------------------------------------------------

  /** Controller state, DRAM bank, the accesses performed so far and the requests accepted so far. */
  datatype World = World(s: State, d: D.Bank, performed: seq<D.Access>, accepted: seq<Request>)

  function Start(p: Settings): World { World(Reset(p), D.Fresh, [], []) }

  /** Requests accepted and not yet served, oldest first. */
  function Pending(s: State): seq<Request> {
    (if s.buffer.Some? then [s.buffer.value] else []) + s.lookahead
  }

  function Accesses(p: Settings, rs: seq<Request>): (r: seq<D.Access>)
    requires p.Valid()
    ensures |r| == |rs|
  {
    seq(|rs|, i requires 0 <= i < |rs| => AccessOf(p, rs[i]))
  }

  /** What the bank is told: its own machine's command, or the refresher's Precharge All. */
  function BusCommand(p: Settings, w: World, i: Input, preAll: bool): D.Command
    requires p.Valid()
  {
    if preAll then D.PreAll else Issued(p, w.s, i)
  }

  /** The refresher's side of the contract: Precharge All comes only while refresh is granted, and the request is
      dropped only when the bank has been closed for tRP. */
  ghost predicate RefreshContract(p: Settings, w: World, i: Input, preAll: bool) {
    && (preAll ==> RefreshGnt(w.s) && i.refreshReq)
    && (w.s.fsm.Refresh? && !i.refreshReq ==> D.Precharged(p.timing, w.d, 0))
  }

  ghost predicate LegalNow(p: Settings, w: World, i: Input, preAll: bool)
    requires p.Valid()
  {
    D.Legal(p.timing, w.d, BusCommand(p, w, i, preAll))
  }

  function WorldStep(p: Settings, w: World, i: Input, preAll: bool): World
    requires p.Valid()
  {
    var c := BusCommand(p, w, i, preAll);
    World(Step(p, w.s, i), D.Exec(w.d, c), w.performed + D.Performed(w.d, c),
          w.accepted + if i.req.Some? && ReqReady(p, w.s) then [i.req.value] else [])
  }

  /** Each FSM state's view of the bank. */
  ghost predicate FsmInv(p: Settings, s: State, d: D.Bank)
    requires p.Valid()
  {
    var t := p.timing;
    match s.fsm
    case Regular =>
      if s.rowOpened then d.open == Some(s.row) && AtLeast2(d, t) else D.Precharged(t, d, 0)
    case Precharge => s.buffer.Some? && d.open.Some? && AtLeast(d.sincePre, t.tRP)
    case AutoPrecharge =>
      s.buffer.Some? && d.open.None? && d.selfClosed && AtLeast(d.sincePre, t.tRP)
    case Activate => s.buffer.Some? && D.Precharged(t, d, 0)
    case Refresh => true
    case Trp(k) => 1 <= k < t.tRP && s.buffer.Some? && D.Precharged(t, d, k)
    case Trcd(k) =>
      && 1 <= k < t.tRCD && s.buffer.Some? && s.rowOpened && RowHit(p, s)
      && d.open == Some(s.row) && AtLeast(d.sinceAct, t.tRCD - k) && AtLeast(d.sincePre, t.tRP)
  }

  ghost predicate AtLeast2(d: D.Bank, t: D.Timing) { AtLeast(d.sinceAct, t.tRCD) && AtLeast(d.sincePre, t.tRP) }

  ghost predicate TimersInv(p: Settings, s: State, d: D.Bank) {
    && TxxTracks(Some(p.timing.tWTP), s.twtp, d.sinceWr)
    && TxxTracks(p.timing.tRC, s.trc, d.sinceAct)
    && TxxTracks(p.timing.tRAS, s.tras, d.sinceAct)
  }

  ghost predicate Inv(p: Settings, w: World)
    requires p.Valid()
  {
    && |w.s.lookahead| <= p.depth
    && TimersInv(p, w.s, w.d)
    && FsmInv(p, w.s, w.d)
    && w.performed + Accesses(p, Pending(w.s)) == Accesses(p, w.accepted)
  }

  /** Every command the bank receives is one it accepts. */
  lemma IssuedIsLegal(p: Settings, w: World, i: Input, preAll: bool)
    requires p.Valid() && Inv(p, w) && RefreshContract(p, w, i, preAll)
    ensures LegalNow(p, w, i, preAll)
  {
    if !preAll {
      IssuedMeaning(p, w.s, i);
    }
  }

  lemma TimersStep(p: Settings, w: World, i: Input, preAll: bool)
    requires p.Valid() && Inv(p, w) && RefreshContract(p, w, i, preAll)
    ensures TimersInv(p, Step(p, w.s, i), D.Exec(w.d, BusCommand(p, w, i, preAll)))
  {
    IssuedMeaning(p, w.s, i);
    var c := BusCommand(p, w, i, preAll);
    TxxStepTracks(Some(p.timing.tWTP), w.s.twtp, w.d.sinceWr, c.Wr?);
    TxxStepTracks(p.timing.tRC, w.s.trc, w.d.sinceAct, c.Act?);
    TxxStepTracks(p.timing.tRAS, w.s.tras, w.d.sinceAct, c.Act?);
  }

  lemma RegularStep(p: Settings, w: World, i: Input)
    requires p.Valid() && Inv(p, w) && w.s.fsm.Regular?
    ensures FsmInv(p, Step(p, w.s, i), D.Exec(w.d, Issued(p, w.s, i)))
  {
    IssuedMeaning(p, w.s, i);
  }

  lemma ClosingStep(p: Settings, w: World, i: Input)
    requires p.Valid() && Inv(p, w) && (w.s.fsm.Precharge? || w.s.fsm.AutoPrecharge? || w.s.fsm.Trp?)
    ensures FsmInv(p, Step(p, w.s, i), D.Exec(w.d, Issued(p, w.s, i)))
  {
    IssuedMeaning(p, w.s, i);
  }

  lemma OpeningStep(p: Settings, w: World, i: Input)
    requires p.Valid() && Inv(p, w) && (w.s.fsm.Activate? || w.s.fsm.Trcd?)
    ensures FsmInv(p, Step(p, w.s, i), D.Exec(w.d, Issued(p, w.s, i)))
  {
    IssuedMeaning(p, w.s, i);
  }

  lemma FsmStep(p: Settings, w: World, i: Input, preAll: bool)
    requires p.Valid() && Inv(p, w) && RefreshContract(p, w, i, preAll)
    ensures FsmInv(p, Step(p, w.s, i), D.Exec(w.d, BusCommand(p, w, i, preAll)))
  {
    match w.s.fsm {
      case Regular => RegularStep(p, w, i);
      case Precharge => ClosingStep(p, w, i);
      case AutoPrecharge => ClosingStep(p, w, i);
      case Trp(_) => ClosingStep(p, w, i);
      case Activate => OpeningStep(p, w, i);
      case Trcd(_) => OpeningStep(p, w, i);
      case Refresh => IssuedMeaning(p, w.s, i);
    }
  }

  /** One cycle moves requests through the queue without losing, inventing or reordering any. */
  lemma QueueMoves(p: Settings, s: State, i: Input)
    requires p.Valid()
    ensures Pending(s) + (if i.req.Some? && ReqReady(p, s) then [i.req.value] else [])
         == (if Served(p, s, i) then [s.buffer.value] else []) + Pending(Step(p, s, i))
  {
  }

  lemma QueueStep(p: Settings, w: World, i: Input, preAll: bool)
    requires p.Valid() && Inv(p, w) && RefreshContract(p, w, i, preAll)
    ensures var w' := WorldStep(p, w, i, preAll);
            w'.performed + Accesses(p, Pending(w'.s)) == Accesses(p, w'.accepted)
  {
    var arrived := if i.req.Some? && ReqReady(p, w.s) then [i.req.value] else [];
    var served := if Served(p, w.s, i) then [w.s.buffer.value] else [];
    QueueMoves(p, w.s, i);
    PerformedIsServed(p, w, i, preAll);
    QueueCount(p, w.performed, Pending(w.s), w.accepted, arrived, served, Pending(Step(p, w.s, i)));
  }

  lemma PerformedIsServed(p: Settings, w: World, i: Input, preAll: bool)
    requires p.Valid() && Inv(p, w) && RefreshContract(p, w, i, preAll)
    ensures D.Performed(w.d, BusCommand(p, w, i, preAll))
         == Accesses(p, if Served(p, w.s, i) then [w.s.buffer.value] else [])
  {
    IssuedMeaning(p, w.s, i);
  }

  lemma QueueCount(p: Settings, performed: seq<D.Access>, pending: seq<Request>, accepted: seq<Request>,
                   arrived: seq<Request>, served: seq<Request>, pending': seq<Request>)
    requires p.Valid()
    requires performed + Accesses(p, pending) == Accesses(p, accepted)
    requires pending + arrived == served + pending'
    ensures performed + Accesses(p, served) + Accesses(p, pending') == Accesses(p, accepted + arrived)
  {
    AccessesConcat(p, pending, arrived);
    AccessesConcat(p, served, pending');
    AccessesConcat(p, accepted, arrived);
    assert performed + Accesses(p, served) + Accesses(p, pending')
        == performed + (Accesses(p, served) + Accesses(p, pending'));
    assert performed + (Accesses(p, pending) + Accesses(p, arrived))
        == (performed + Accesses(p, pending)) + Accesses(p, arrived);
  }

  lemma AccessesConcat(p: Settings, a: seq<Request>, b: seq<Request>)
    requires p.Valid()
    ensures Accesses(p, a + b) == Accesses(p, a) + Accesses(p, b)
  {
  }

  lemma StepInv(p: Settings, w: World, i: Input, preAll: bool)
    requires p.Valid() && Inv(p, w) && RefreshContract(p, w, i, preAll)
    ensures LegalNow(p, w, i, preAll)
    ensures Inv(p, WorldStep(p, w, i, preAll))
  {
    IssuedIsLegal(p, w, i, preAll);
    TimersStep(p, w, i, preAll);
    FsmStep(p, w, i, preAll);
    QueueStep(p, w, i, preAll);
  }

  // Every run --------------------------------------------------------------------------------------

  /** Inputs of a run: requests, refresh request, multiplexer accepts, and the refresher's Precharge All. */
  type Inputs = seq<(Input, bool)>

  function Run(p: Settings, ins: Inputs): World
    requires p.Valid()
  {
    if ins == [] then Start(p)
    else
      var last := ins[|ins| - 1];
      WorldStep(p, Run(p, ins[..|ins| - 1]), last.0, last.1)
  }

  /** The refresher keeps its contract throughout. */
  ghost predicate Admissible(p: Settings, ins: Inputs)
    requires p.Valid()
  {
    forall k | 0 <= k < |ins| :: RefreshContract(p, Run(p, ins[..k]), ins[k].0, ins[k].1)
  }

  /** The commands the bank received. */
  function Trace(p: Settings, ins: Inputs): (t: seq<D.Command>)
    requires p.Valid()
    ensures |t| == |ins|
  {
    if ins == [] then []
    else
      var before, last := ins[..|ins| - 1], ins[|ins| - 1];
      Trace(p, before) + [BusCommand(p, Run(p, before), last.0, last.1)]
  }

  lemma AdmissiblePrefix(p: Settings, ins: Inputs, n: nat)
    requires p.Valid() && Admissible(p, ins) && n <= |ins|
    ensures Admissible(p, ins[..n])
  {
    forall k | 0 <= k < n ensures RefreshContract(p, Run(p, ins[..n][..k]), ins[..n][k].0, ins[..n][k].1) {
      assert ins[..n][..k] == ins[..k];
    }
  }

  lemma {:induction false} RunInv(p: Settings, ins: Inputs)
    requires p.Valid() && Admissible(p, ins)
    ensures Inv(p, Run(p, ins))
    ensures Run(p, ins).d == D.Replay(Trace(p, ins))
    ensures D.LegalTrace(p.timing, Trace(p, ins))
  {
    if ins != [] {
      var n := |ins| - 1;
      AdmissiblePrefix(p, ins, n);
      RunInv(p, ins[..n]);
      assert RefreshContract(p, Run(p, ins[..n]), ins[n].0, ins[n].1);
      StepInv(p, Run(p, ins[..n]), ins[n].0, ins[n].1);
      ExtendLegal(p.timing, Trace(p, ins[..n]), Trace(p, ins)[n]);
      assert Trace(p, ins)[..n] == Trace(p, ins[..n]);
    }
  }

  lemma ExtendLegal(t: D.Timing, trace: seq<D.Command>, c: D.Command)
    requires D.LegalTrace(t, trace) && D.Legal(t, D.Replay(trace), c)
    ensures D.LegalTrace(t, trace + [c])
  {
    forall k | 0 <= k < |trace| + 1 ensures D.Legal(t, D.Replay((trace + [c])[..k]), (trace + [c])[k]) {
      assert (trace + [c])[..k] == trace[..k];
      if k == |trace| { assert trace[..k] == trace; }
    }
  }

  /** The bank machine compiles its request stream faithfully: on every run, whatever the requests, the multiplexer's
      accepts and the refresh pattern, its commands never meet a closed or occupied bank or break a timing, and the
      accesses they perform are the accepted requests in order, all but the at most `depth + 1` still queued. */
  lemma CompilesRequests(p: Settings, ins: Inputs)
    requires p.Valid() && Admissible(p, ins)
    ensures D.LegalTrace(p.timing, Trace(p, ins))
    ensures var w := Run(p, ins);
            && w.performed <= Accesses(p, w.accepted)
            && |w.accepted| - |w.performed| <= p.depth + 1
            && (!Lock(w.s) <==> |w.performed| == |w.accepted|)
  {
    RunInv(p, ins);
  }

  /** Minimum distance between any two commands the bank receives, on every run. */
  lemma BankSpacing(p: Settings, ins: Inputs, i: nat, j: nat)
    requires p.Valid() && Admissible(p, ins) && i < j < |ins|
    ensures D.Spacing(p.timing, Trace(p, ins)[i], Trace(p, ins)[j]) <= j - i
  {
    RunInv(p, ins);
    D.LegalTraceSpacing(p.timing, Trace(p, ins), i, j);
  }

  /** The buffered request is served in exactly the cycles in which one of its data strobes is raised. */
  lemma ServedIsStrobed(p: Settings, s: State, i: Input)
    requires p.Valid()
    ensures Served(p, s, i)
       <==> (WdataReady(p, s, i.refreshReq, i.cmdReady) || RdataValid(p, s, i.refreshReq, i.cmdReady))
    ensures Served(p, s, i) ==> s.buffer.Some?
    ensures RowOpen(s) ==> !RowClose(s)
  {
  }

  // The clocked object -----------------------------------------------------------------------------

  /** The bank machine with its registers and its three timing controllers. */
  class BankMachine {
    const p: Settings
    var fsm: Fsm
    var row: nat
    var rowOpened: bool
    var lookahead: seq<Request>
    var buffer: Option<Request>
    const twtp: TxxController
    const trc: TxxController
    const tras: TxxController

    ghost predicate Valid()
      reads this, twtp, trc, tras
    {
      && p.Valid() && twtp != trc && trc != tras && twtp != tras
      && twtp.txxd == Some(p.timing.tWTP) && trc.txxd == p.timing.tRC && tras.txxd == p.timing.tRAS
    }

    function Registers(): State
      reads this, twtp, trc, tras
    {
      State(fsm, row, rowOpened, lookahead, buffer, twtp.State(), trc.State(), tras.State())
    }

    constructor (p: Settings)
      requires p.Valid()
      ensures this.p == p && Valid() && Registers() == Reset(p)
      ensures fresh(twtp) && fresh(trc) && fresh(tras)
    {
      this.p := p;
      fsm, row, rowOpened, lookahead, buffer := Regular, 0, false, [], None;
      twtp := new TxxController(Some(p.timing.tWTP));
      trc := new TxxController(p.timing.tRC);
      tras := new TxxController(p.timing.tRAS);
    }

    /** The REGULAR state: whether a column command is offered, and where the FSM goes. */
    method Regulate(i: Input, turn: bool) returns (accessing: bool, next: Fsm)
      requires Valid() && fsm.Regular?
      requires turn == AutoPrechargeFlag(p, Registers())
      ensures accessing == Accessing(p, Registers(), i.refreshReq) && next == NextFsm(p, Registers(), i)
      ensures accessing ==> buffer.Some?
    {
      accessing, next := false, Regular;
      if i.refreshReq {
        next := Refresh;
      } else if buffer.Some? {
        if !rowOpened {
          next := Activate;
        } else if row != Row(p.slicer, buffer.value.address) {
          next := Precharge;
        } else {
          accessing := true;
          if i.cmdReady && turn { next := AutoPrecharge; }
        }
      }
    }

    /** The address lines: the row while a row is selected, else the column with its auto-precharge flag. */
    method Address(selectRow: bool, flag: bool) returns (a: nat)
      requires Valid()
      ensures a == (if buffer.None? then 0
                    else if selectRow then Row(p.slicer, buffer.value.address)
                    else Col(p.slicer, buffer.value.address) + if flag then 1024 else 0)
    {
      a := 0;
      if buffer.Some? {
        if selectRow {
          a := Row(p.slicer, buffer.value.address);
        } else {
          a := Col(p.slicer, buffer.value.address) + if flag then 1024 else 0;
        }
      }
    }

    /** The row tracking's controls, and the data strobes of an access. */
    method Controls(i: Input, accessing: bool)
      returns (wdataReady: bool, rdataValid: bool, rowOpen: bool, rowClose: bool)
      requires Valid() && accessing == Accessing(p, Registers(), i.refreshReq)
      requires accessing ==> buffer.Some?
      ensures wdataReady == WdataReady(p, Registers(), i.refreshReq, i.cmdReady)
      ensures rdataValid == RdataValid(p, Registers(), i.refreshReq, i.cmdReady)
      ensures rowOpen == RowOpen(Registers()) && rowClose == RowClose(Registers())
    {
      hide Accessing;
      wdataReady, rdataValid := false, false;
      if accessing {
        if buffer.value.we { wdataReady := i.cmdReady; } else { rdataValid := i.cmdReady; }
      }
      rowOpen := fsm.Activate? && trc.ready;
      rowClose := fsm.Precharge? || fsm.AutoPrecharge? || fsm.Refresh?;
    }

    /** The command offered; `accessing` is the REGULAR state's. */
    method Outputs(i: Input, accessing: bool, flag: bool) returns (cmd: Cmd)
      requires Valid() && accessing == Accessing(p, Registers(), i.refreshReq)
      requires accessing ==> buffer.Some? && fsm.Regular?
      requires RowClose(Registers()) || flag == AutoPrechargeFlag(p, Registers())
      ensures cmd == Offer(p, Registers(), i.refreshReq)
    {
      hide Row, Col, Accessing;
      var valid, cas, ras, we, isCmd, isRead, isWrite := false, false, false, false, false, false, false;
      var closing := false;
      match fsm {
        case Regular =>
          if accessing {
            valid, cas := true, true;
            we, isWrite, isRead := buffer.value.we, buffer.value.we, !buffer.value.we;
          }
        case Precharge =>
          closing := true;
          if twtp.ready && tras.ready { valid, ras, we, isCmd := true, true, true, true; }
        case AutoPrecharge =>
          closing := true;
        case Activate =>
          if trc.ready { valid, isCmd, ras := true, true, true; }
        case Refresh =>
          closing, isCmd := true, true;
        case _ =>
      }
      var a := Address(valid && fsm.Activate?, flag && !closing);
      cmd := Cmd(valid, a, cas, ras, we, isCmd, isRead, isWrite);
    }

    /** The FSM's transition, and whether it offers an access. */
    method Advance(i: Input, flag: bool) returns (accessing: bool, next: Fsm)
      requires Valid() && (fsm.Regular? ==> flag == AutoPrechargeFlag(p, Registers()))
      ensures accessing == Accessing(p, Registers(), i.refreshReq) && next == NextFsm(p, Registers(), i)
      ensures accessing ==> buffer.Some? && fsm.Regular?
    {
      hide Row, AutoPrechargeFlag;
      accessing, next := false, fsm;
      match fsm {
        case Regular => accessing, next := Regulate(i, flag);
        case Precharge => if twtp.ready && tras.ready && i.cmdReady { next := EnterTrp(p); }
        case AutoPrecharge => if twtp.ready && tras.ready { next := EnterTrp(p); }
        case Activate => if trc.ready && i.cmdReady { next := EnterTrcd(p); }
        case Refresh => if !i.refreshReq { next := Regular; }
        case Trp(k) => next := if k <= 1 then Activate else Trp(k - 1);
        case Trcd(k) => next := if k <= 1 then Regular else Trcd(k - 1);
      }
    }

    /** The command FSM: its outputs and its next state. */
    method Signals(i: Input)
      returns (cmd: Cmd, wdataReady: bool, rdataValid: bool, refreshGnt: bool, next: Fsm, rowOpen: bool, rowClose: bool)
      requires Valid()
      ensures cmd == Offer(p, Registers(), i.refreshReq)
      ensures wdataReady == WdataReady(p, Registers(), i.refreshReq, i.cmdReady)
      ensures rdataValid == RdataValid(p, Registers(), i.refreshReq, i.cmdReady)
      ensures refreshGnt == RefreshGnt(Registers()) && next == NextFsm(p, Registers(), i)
      ensures rowOpen == RowOpen(Registers()) && rowClose == RowClose(Registers())
    {
      hide Offer, WdataReady, RdataValid, NextFsm, Accessing, Row, Col;
      var flag := p.withAutoPrecharge && lookahead != [] && buffer.Some?
                  && Row(p.slicer, lookahead[0].address) != Row(p.slicer, buffer.value.address);
      var accessing;
      accessing, next := Advance(i, flag);
      cmd := Outputs(i, accessing, flag);
      wdataReady, rdataValid, rowOpen, rowClose := Controls(i, accessing);
      refreshGnt := fsm.Refresh? && twtp.ready;
    }

    /** One clock cycle: the combinational outputs, then the clock edge. */
    method Tick(i: Input) returns (cmd: Cmd, wdataReady: bool, rdataValid: bool, refreshGnt: bool)
      requires Valid()
      modifies this, twtp, trc, tras
      ensures Valid() && Registers() == Step(p, old(Registers()), i)
      ensures cmd == Offer(p, old(Registers()), i.refreshReq)
      ensures wdataReady == WdataReady(p, old(Registers()), i.refreshReq, i.cmdReady)
      ensures rdataValid == RdataValid(p, old(Registers()), i.refreshReq, i.cmdReady)
      ensures refreshGnt == RefreshGnt(old(Registers()))
    {
      hide Offer, WdataReady, RdataValid, NextFsm;
      ghost var s := Registers();
      var next, rowOpen, rowClose;
      cmd, wdataReady, rdataValid, refreshGnt, next, rowOpen, rowClose := Signals(i);
      ServedIsStrobed(p, s, i);
      EdgeOf(cmd.valid && i.cmdReady, cmd.isWrite, rowOpen);
      if rowClose {
        rowOpened := false;
      } else if rowOpen {
        rowOpened := true;
        row := if buffer.Some? then Row(p.slicer, buffer.value.address) else row;
      }
      fsm := next;
      Queue(i.req, wdataReady || rdataValid);
    }

    /** The timing controllers see the accepted command. */
    method EdgeOf(accepted: bool, isWrite: bool, rowOpen: bool)
      requires Valid()
      modifies twtp, trc, tras
      ensures twtp.State() == TxxStep(Some(p.timing.tWTP), old(twtp.State()), accepted && isWrite)
      ensures trc.State() == TxxStep(p.timing.tRC, old(trc.State()), accepted && rowOpen)
      ensures tras.State() == TxxStep(p.timing.tRAS, old(tras.State()), accepted && rowOpen)
    {
      twtp.Tick(accepted && isWrite);
      trc.Tick(accepted && rowOpen);
      tras.Tick(accepted && rowOpen);
    }

    /** The lookahead FIFO and the buffer behind it. */
    method Queue(req: Option<Request>, served: bool)
      modifies this`lookahead, this`buffer
      ensures var load := old(buffer).None? || served;
              && buffer == (if !load then old(buffer)
                            else if old(lookahead) != [] then Some(old(lookahead)[0]) else None)
              && lookahead == (if load && old(lookahead) != [] then old(lookahead)[1..] else old(lookahead))
                              + (if req.Some? && |old(lookahead)| < p.depth then [req.value] else [])
    {
      var room := |lookahead| < p.depth;
      if buffer.None? || served {
        if lookahead != [] {
          buffer := Some(lookahead[0]);
          lookahead := lookahead[1..];
        } else {
          buffer := None;
        }
      }
      if req.Some? && room { lookahead := lookahead + [req.value]; }
    }
  }
}
