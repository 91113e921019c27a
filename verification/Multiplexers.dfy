/** litedram/core/multiplexer.py: command choosers, steering onto DFI phases, device-wide timings and the read/write/
    refresh FSM (single rank). */
module Multiplexers {
  import opened Common
  import opened TimingControllers
  import opened Arbiters
  import BM = BankMachines
  import R = Refreshers
  import P = PhyModels

  type Cmd = BM.Cmd

  /** `tWTR` includes the write latency and tCCD; `readLatency` is the PHY's. */
  datatype Settings = Settings(
    nbanks: pos,
    nphases: pos,
    rdphase: nat,
    wrphase: nat,
    tRRD: Option<pos>,
    tFAW: Option<pos>,
    tCCD: pos,
    tWTR: pos,
    readTime: nat,
    writeTime: nat,
    readLatency: pos)
  {
    ghost predicate Valid() { rdphase < nphases && wrphase < nphases }
  }

  datatype Fsm = Read | Write | Refresh | Wtr | Rtw(left: nat)

  datatype State = State(
    fsm: Fsm,
    trrd: Txx,
    tfaw: Tfaw,
    tccd: Txx,
    twtr: Txx,
    readTimer: nat,
    writeTimer: nat,
    grantCmd: nat,
    grantReq: nat)

  function Reset(p: Settings): State {
    State(Read, TxxReset(p.tRRD), TfawReset(p.tFAW), TxxReset(Some(p.tCCD)), TxxReset(Some(p.tWTR)), 0, 0, 0, 0)
  }

  ghost predicate WellFormed(p: Settings, s: State) {
    s.grantCmd < p.nbanks && s.grantReq < p.nbanks && (p.tFAW.Some? ==> |s.tfaw.window| == p.tFAW.value)
  }

  /** Inputs of one clock cycle: the bank machines' offers, all banks granting refresh, the refresher's last cycle. */
  datatype Input = Input(cmds: seq<Cmd>, goToRefresh: bool, refreshLast: bool)

  // Command choosers -------------------------------------------------------------------------------

  datatype Want = Want(rd: bool, wr: bool, cmds: bool, activates: bool)

  predicate IsAct(c: Cmd) { c.ras && !c.cas && !c.we }

  predicate Eligible(w: Want, c: Cmd) {
    c.valid && ((c.isCmd && w.cmds && (!IsAct(c) || w.activates)) || (c.isRead == w.rd && c.isWrite == w.wr))
  }

  function Valids(w: Want, cmds: seq<Cmd>): (r: seq<bool>)
    ensures |r| == |cmds|
  {
    seq(|cmds|, i requires 0 <= i < |cmds| => Eligible(w, cmds[i]))
  }

  predicate RasAllowed(s: State) { s.trrd.ready && s.tfaw.ready }

  predicate CasAllowed(s: State) { s.tccd.ready }

  predicate Serving(s: State) { s.fsm.Read? || s.fsm.Write? }

  /** With one phase everything goes through the request chooser; otherwise the command chooser takes what is neither
      read nor write. */
  function WantCmd(p: Settings, s: State): Want {
    Want(false, false, false, p.nphases > 1 && Serving(s) && RasAllowed(s))
  }

  function WantReq(p: Settings, s: State): Want {
    Want(s.fsm.Read?, s.fsm.Write?, p.nphases == 1, p.nphases == 1 && RasAllowed(s))
  }

  predicate CmdReady(p: Settings, s: State, i: Input)
    requires WellFormed(p, s) && |i.cmds| == p.nbanks
  {
    var c := i.cmds[s.grantCmd];
    p.nphases > 1 && Serving(s) && (!(Eligible(WantCmd(p, s), c) && IsAct(c)) || RasAllowed(s))
  }

  predicate ReqReady(p: Settings, s: State, i: Input)
    requires WellFormed(p, s) && |i.cmds| == p.nbanks
  {
    var c := i.cmds[s.grantReq];
    Serving(s) && CasAllowed(s)
    && (p.nphases == 1 ==> !(Eligible(WantReq(p, s), c) && IsAct(c)) || RasAllowed(s))
  }

  /** The command chooser's selection is accepted. */
  predicate CmdAccept(p: Settings, s: State, i: Input)
    requires WellFormed(p, s) && |i.cmds| == p.nbanks
  {
    Eligible(WantCmd(p, s), i.cmds[s.grantCmd]) && CmdReady(p, s, i)
  }

  /** The request chooser's selection is accepted. */
  predicate ReqAccept(p: Settings, s: State, i: Input)
    requires WellFormed(p, s) && |i.cmds| == p.nbanks
  {
    Eligible(WantReq(p, s), i.cmds[s.grantReq]) && ReqReady(p, s, i)
  }

  /** `ready` of bank machine `b`. */
  predicate BankReady(p: Settings, s: State, i: Input, b: nat)
    requires WellFormed(p, s) && |i.cmds| == p.nbanks
  {
    (CmdAccept(p, s, i) && s.grantCmd == b) || (ReqAccept(p, s, i) && s.grantReq == b)
  }

  predicate ActAccepted(p: Settings, s: State, i: Input)
    requires WellFormed(p, s) && |i.cmds| == p.nbanks
  {
    if p.nphases == 1 then ReqAccept(p, s, i) && IsAct(i.cmds[s.grantReq])
    else CmdAccept(p, s, i) && IsAct(i.cmds[s.grantCmd])
  }

  predicate ReadAccepted(p: Settings, s: State, i: Input)
    requires WellFormed(p, s) && |i.cmds| == p.nbanks
  {
    ReqAccept(p, s, i) && i.cmds[s.grantReq].isRead
  }

  predicate WriteAccepted(p: Settings, s: State, i: Input)
    requires WellFormed(p, s) && |i.cmds| == p.nbanks
  {
    ReqAccept(p, s, i) && i.cmds[s.grantReq].isWrite
  }

  predicate ReadAvailable(i: Input) { exists b | 0 <= b < |i.cmds| :: i.cmds[b].valid && i.cmds[b].isRead }

  predicate WriteAvailable(i: Input) { exists b | 0 <= b < |i.cmds| :: i.cmds[b].valid && i.cmds[b].isWrite }

  // Clock edge -------------------------------------------------------------------------------------

  function EnterRtw(p: Settings): Fsm { if p.readLatency == 1 then Write else Rtw(p.readLatency - 1) }

  /** Anti-starvation timer: reloaded while its side is not being served. A zero setting disables it. */
  function TimeStep(time: nat, setting: nat, en: bool): nat {
    if setting == 0 then time else if !en then setting - 1 else if time != 0 then time - 1 else time
  }

  function NextFsm(p: Settings, s: State, i: Input): Fsm {
    match s.fsm
    case Read =>
      if i.goToRefresh then Refresh
      else if WriteAvailable(i) && (!ReadAvailable(i) || (p.readTime > 0 && s.readTimer == 0)) then EnterRtw(p)
      else Read
    case Write =>
      if i.goToRefresh then Refresh
      else if ReadAvailable(i) && (!WriteAvailable(i) || (p.writeTime > 0 && s.writeTimer == 0)) then Wtr
      else Write
    case Refresh => if i.refreshLast then Read else Refresh
    case Wtr => if s.twtr.ready then Read else Wtr
    case Rtw(k) => if k <= 1 then Write else Rtw(k - 1)
  }

  function ChooserStep(w: Want, cmds: seq<Cmd>, grant: nat, ready: bool): (g: nat)
    requires grant < |cmds|
    ensures g < |cmds|
  {
    if ready || !Eligible(w, cmds[grant]) then NextGrant(Valids(w, cmds), grant) else grant
  }

  function Step(p: Settings, s: State, i: Input): (s': State)
    requires WellFormed(p, s) && |i.cmds| == p.nbanks
    ensures WellFormed(p, s')
  {
    State(
      NextFsm(p, s, i),
      TxxStep(p.tRRD, s.trrd, ActAccepted(p, s, i)),
      TfawStep(p.tFAW, s.tfaw, ActAccepted(p, s, i)),
      TxxStep(Some(p.tCCD), s.tccd, ReadAccepted(p, s, i) || WriteAccepted(p, s, i)),
      TxxStep(Some(p.tWTR), s.twtr, WriteAccepted(p, s, i)),
      TimeStep(s.readTimer, p.readTime, s.fsm.Read?),
      TimeStep(s.writeTimer, p.writeTime, s.fsm.Write?),
      ChooserStep(WantCmd(p, s), i.cmds, s.grantCmd, CmdReady(p, s, i)),
      ChooserStep(WantReq(p, s), i.cmds, s.grantReq, ReqReady(p, s, i)))
  }

  // Steering ---------------------------------------------------------------------------------------

  datatype Source = FromNop | FromCmd | FromReq | FromRefresh

  /** The phase before `phase`, wrapping around. */
  function CmdPhase(p: Settings, phase: nat): nat { if phase == 0 then p.nphases - 1 else phase - 1 }

  function Select(p: Settings, fsm: Fsm, k: nat): Source {
    match fsm
    case Read => if k == CmdPhase(p, p.rdphase) then FromCmd else if k == p.rdphase then FromReq else FromNop
    case Write => if k == CmdPhase(p, p.wrphase) then FromCmd else if k == p.wrphase then FromReq else FromNop
    case Refresh => if k == 0 then FromRefresh else FromNop
    case _ => FromNop
  }

  /** A chooser's selection on a phase; the command is inactive unless it is accepted. */
  function PhaseOf(bank: nat, c: Cmd, accepted: bool): P.Phase {
    P.Phase(bank, c.a, accepted && c.cas, accepted && c.ras, accepted && c.we)
  }

  /** What the steerer registers on phase `k`; with one phase the request chooser also serves the command slot. */
  function Steer(p: Settings, s: State, i: Input, refresh: R.Command, refreshValid: bool, k: nat): P.Phase
    requires WellFormed(p, s) && |i.cmds| == p.nbanks
  {
    match Select(p, s.fsm, k)
    case FromNop => P.Idle
    case FromCmd =>
      if p.nphases == 1 then PhaseOf(s.grantReq, i.cmds[s.grantReq], ReqAccept(p, s, i))
      else PhaseOf(s.grantCmd, i.cmds[s.grantCmd], CmdAccept(p, s, i))
    case FromReq => PhaseOf(s.grantReq, i.cmds[s.grantReq], ReqAccept(p, s, i))
    case FromRefresh =>
      P.Phase(0, refresh.a, refreshValid && refresh.cas, refreshValid && refresh.ras, refreshValid && refresh.we)
  }

  function Phases(p: Settings, s: State, i: Input, refresh: R.Command, refreshValid: bool): (fs: seq<P.Phase>)
    requires WellFormed(p, s) && |i.cmds| == p.nbanks
    ensures |fs| == p.nphases
  {
    seq(p.nphases, k requires 0 <= k < p.nphases && WellFormed(p, s) && |i.cmds| == p.nbanks =>
      Steer(p, s, i, refresh, refreshValid, k))
  }

  // Device-wide spacing ----------------------------------------------------------------------------

  /** Distances to the last activate, column command and write of the whole device. */
  datatype Traffic = Traffic(sinceAct: Since, sinceColumn: Since, sinceWr: Since)

  function TrafficStep(p: Settings, t: Traffic, s: State, i: Input): Traffic
    requires WellFormed(p, s) && |i.cmds| == p.nbanks
  {
    Traffic(Elapse(t.sinceAct, ActAccepted(p, s, i)),
            Elapse(t.sinceColumn, ReadAccepted(p, s, i) || WriteAccepted(p, s, i)),
            Elapse(t.sinceWr, WriteAccepted(p, s, i)))
  }

  ghost predicate TimersInv(p: Settings, s: State, t: Traffic) {
    && TxxTracks(p.tRRD, s.trrd, t.sinceAct)
    && TfawInv(p.tFAW, s.tfaw)
    && TxxTracks(Some(p.tCCD), s.tccd, t.sinceColumn)
    && TxxTracks(Some(p.tWTR), s.twtr, t.sinceWr)
  }

  lemma ActNeedsRas(p: Settings, s: State, i: Input)
    requires WellFormed(p, s) && |i.cmds| == p.nbanks && ActAccepted(p, s, i)
    ensures RasAllowed(s)
  {
  }

  lemma TimersStepInv(p: Settings, s: State, t: Traffic, i: Input)
    requires WellFormed(p, s) && |i.cmds| == p.nbanks && TimersInv(p, s, t)
    ensures TimersInv(p, Step(p, s, i), TrafficStep(p, t, s, i))
  {
    if ActAccepted(p, s, i) { ActNeedsRas(p, s, i); }
    TxxStepTracks(p.tRRD, s.trrd, t.sinceAct, ActAccepted(p, s, i));
    TfawStepInv(p.tFAW, s.tfaw, ActAccepted(p, s, i));
    TxxStepTracks(Some(p.tCCD), s.tccd, t.sinceColumn, ReadAccepted(p, s, i) || WriteAccepted(p, s, i));
    TxxStepTracks(Some(p.tWTR), s.twtr, t.sinceWr, WriteAccepted(p, s, i));
  }

  // The clocked object -----------------------------------------------------------------------------

  /** The multiplexer with its registers and timing controllers. */
  class Multiplexer {
    const p: Settings
    var fsm: Fsm
    var readTimer: nat
    var writeTimer: nat
    var grantCmd: nat
    var grantReq: nat
    const trrd: TxxController
    const tfaw: TfawController
    const tccd: TxxController
    const twtr: TxxController

    ghost predicate Valid()
      reads this, trrd, tfaw, tccd, twtr
    {
      && trrd != tccd && tccd != twtr && trrd != twtr
      && trrd.txxd == p.tRRD && tfaw.tfaw == p.tFAW && tccd.txxd == Some(p.tCCD) && twtr.txxd == Some(p.tWTR)
      && tfaw.Valid() && WellFormed(p, Registers())
    }

    function Registers(): State
      reads this, trrd, tfaw, tccd, twtr
    {
      State(fsm, trrd.State(), tfaw.State(), tccd.State(), twtr.State(), readTimer, writeTimer, grantCmd, grantReq)
    }

    constructor (p: Settings)
      ensures this.p == p && Valid() && Registers() == Reset(p)
      ensures fresh(trrd) && fresh(tfaw) && fresh(tccd) && fresh(twtr)
    {
      this.p := p;
      fsm, readTimer, writeTimer, grantCmd, grantReq := Read, 0, 0, 0, 0;
      trrd := new TxxController(p.tRRD);
      tfaw := new TfawController(p.tFAW);
      tccd := new TxxController(Some(p.tCCD));
      twtr := new TxxController(Some(p.tWTR));
    }

    /** Reads and writes offered by any bank machine. */
    method Available(cmds: seq<Cmd>) returns (anyRead: bool, anyWrite: bool)
      ensures anyRead <==> exists b | 0 <= b < |cmds| :: cmds[b].valid && cmds[b].isRead
      ensures anyWrite <==> exists b | 0 <= b < |cmds| :: cmds[b].valid && cmds[b].isWrite
    {
      anyRead, anyWrite := false, false;
      for b := 0 to |cmds|
        invariant anyRead <==> exists k | 0 <= k < b :: cmds[k].valid && cmds[k].isRead
        invariant anyWrite <==> exists k | 0 <= k < b :: cmds[k].valid && cmds[k].isWrite
      {
        anyRead := anyRead || (cmds[b].valid && cmds[b].isRead);
        anyWrite := anyWrite || (cmds[b].valid && cmds[b].isWrite);
      }
    }

    /** Next state of the read/write/refresh FSM. */
    method Control(i: Input) returns (next: Fsm)
      requires Valid()
      ensures next == NextFsm(p, Registers(), i)
    {
      var readAvailable, writeAvailable := Available(i.cmds);
      next := fsm;
      match fsm {
        case Read =>
          if writeAvailable && (!readAvailable || (p.readTime > 0 && readTimer == 0)) { next := EnterRtw(p); }
          if i.goToRefresh { next := Refresh; }
        case Write =>
          if readAvailable && (!writeAvailable || (p.writeTime > 0 && writeTimer == 0)) { next := Wtr; }
          if i.goToRefresh { next := Refresh; }
        case Refresh =>
          if i.refreshLast { next := Read; }
        case Wtr =>
          if twtr.ready { next := Read; }
        case Rtw(k) =>
          next := if k <= 1 then Write else Rtw(k - 1);
      }
    }

    /** The choosers' accepts, gated by the activate and column timings. */
    method Choose(i: Input) returns (cmdReady: bool, reqReady: bool, cmdAccept: bool, reqAccept: bool)
      requires Valid() && |i.cmds| == p.nbanks
      ensures cmdReady == CmdReady(p, Registers(), i) && reqReady == ReqReady(p, Registers(), i)
      ensures cmdAccept == CmdAccept(p, Registers(), i) && reqAccept == ReqAccept(p, Registers(), i)
    {
      var rasAllowed, casAllowed := trrd.ready && tfaw.ready, tccd.ready;
      var c, r := i.cmds[grantCmd], i.cmds[grantReq];
      var serving := fsm.Read? || fsm.Write?;
      var cmdValid := Eligible(Want(false, false, false, p.nphases > 1 && serving && rasAllowed), c);
      var reqValid := Eligible(Want(fsm.Read?, fsm.Write?, p.nphases == 1, p.nphases == 1 && rasAllowed), r);
      cmdReady, reqReady := false, false;
      if serving {
        if p.nphases == 1 {
          reqReady := casAllowed && (!(reqValid && IsAct(r)) || rasAllowed);
        } else {
          cmdReady := !(cmdValid && IsAct(c)) || rasAllowed;
          reqReady := casAllowed;
        }
      }
      cmdAccept, reqAccept := cmdValid && cmdReady, reqValid && reqReady;
    }

    /** What the timing controllers are told about the accepted commands. */
    method Events(i: Input, cmdAccept: bool, reqAccept: bool) returns (act: bool, column: bool, write: bool)
      requires Valid() && |i.cmds| == p.nbanks
      requires cmdAccept == CmdAccept(p, Registers(), i) && reqAccept == ReqAccept(p, Registers(), i)
      ensures act == ActAccepted(p, Registers(), i)
      ensures column == (ReadAccepted(p, Registers(), i) || WriteAccepted(p, Registers(), i))
      ensures write == WriteAccepted(p, Registers(), i)
    {
      hide CmdAccept, ReqAccept;
      var c, r := i.cmds[grantCmd], i.cmds[grantReq];
      act := if p.nphases == 1 then reqAccept && IsAct(r) else cmdAccept && IsAct(c);
      column, write := reqAccept && (r.isRead || r.isWrite), reqAccept && r.isWrite;
    }

    /** The timing controllers see the accepted commands. */
    method TickTimings(act: bool, column: bool, write: bool)
      requires Valid()
      modifies trrd, tfaw, tccd, twtr
      ensures tfaw.Valid() && tfaw.tfaw == p.tFAW && (p.tFAW.Some? ==> |tfaw.window| == p.tFAW.value)
      ensures trrd.State() == TxxStep(p.tRRD, old(trrd.State()), act)
      ensures tfaw.State() == TfawStep(p.tFAW, old(tfaw.State()), act)
      ensures tccd.State() == TxxStep(Some(p.tCCD), old(tccd.State()), column)
      ensures twtr.State() == TxxStep(Some(p.tWTR), old(twtr.State()), write)
    {
      hide TxxStep, TfawStep;
      trrd.Tick(act);
      tfaw.Tick(act);
      tccd.Tick(column);
      twtr.Tick(write);
    }

    /** Round-robin grants and anti-starvation timers; they move before the FSM does. */
    method TickGrants(i: Input, cmdReady: bool, reqReady: bool)
      requires Valid() && |i.cmds| == p.nbanks
      modifies this`grantCmd, this`grantReq, this`readTimer, this`writeTimer
      ensures var s := old(Registers());
              && grantCmd == ChooserStep(WantCmd(p, s), i.cmds, s.grantCmd, cmdReady)
              && grantReq == ChooserStep(WantReq(p, s), i.cmds, s.grantReq, reqReady)
              && readTimer == TimeStep(s.readTimer, p.readTime, s.fsm.Read?)
              && writeTimer == TimeStep(s.writeTimer, p.writeTime, s.fsm.Write?)
      ensures grantCmd < p.nbanks && grantReq < p.nbanks
    {
      hide Eligible, NextGrant, Valids;
      var s := Registers();
      readTimer := TimeStep(readTimer, p.readTime, fsm.Read?);
      writeTimer := TimeStep(writeTimer, p.writeTime, fsm.Write?);
      grantCmd := ChooserStep(WantCmd(p, s), i.cmds, grantCmd, cmdReady);
      grantReq := ChooserStep(WantReq(p, s), i.cmds, grantReq, reqReady);
    }

    /** One clock cycle; the outputs say which bank machines' commands are accepted. */
    method Tick(i: Input) returns (cmdAccept: bool, reqAccept: bool)
      requires Valid() && |i.cmds| == p.nbanks
      modifies this, trrd, tfaw, tccd, twtr
      ensures Registers() == Step(p, old(Registers()), i)
      ensures Valid()
      ensures cmdAccept == CmdAccept(p, old(Registers()), i) && reqAccept == ReqAccept(p, old(Registers()), i)
    {
      hide CmdReady, ReqReady, NextFsm, TfawStep, TxxStep, ChooserStep, TimeStep, CmdAccept, ReqAccept, ActAccepted,
           ReadAccepted, WriteAccepted, WantCmd, WantReq;
      var next := Control(i);
      var cmdReady, reqReady, act, column, write;
      cmdReady, reqReady, cmdAccept, reqAccept := Choose(i);
      act, column, write := Events(i, cmdAccept, reqAccept);
      TickGrants(i, cmdReady, reqReady);
      TickTimings(act, column, write);
      fsm := next;
    }
  }
}
