/** litedram/core/refresher.py: periodic refresh requests and the Precharge All / Auto Refresh / ZQ calibration
    sequences. */
module Refreshers {
  import opened Common

  datatype Settings = Settings(
    withRefresh: bool,
    tREFI: pos,
    postponing: pos,
    tRP: pos,
    tRFC: pos,
    tZQCS: Option<pos>,
    zqcsPeriod: pos)

  datatype Fsm = Idle | WaitBankMachines | DoRefresh | DoZqcs

  /** Registered command fields shared by both executers. */
  datatype Command = Command(a: nat, cas: bool, ras: bool, we: bool)

  const NoCommand := Command(0, false, false, false)
  const PrechargeAll := Command(1024, false, true, true)
  const AutoRefresh := Command(1024, true, true, false)
  const ZqCalibration := Command(0, false, false, true)

  datatype State = State(
    fsm: Fsm,
    timer: nat,
    postponed: nat,
    wantsRefresh: bool,
    runsLeft: nat,
    executer: nat,
    executerDone: bool,
    zqcsTimer: nat,
    zqcsExecuter: nat,
    zqcsDone: bool,
    cmd: Command)

  function Reset(p: Settings): State {
    State(Idle, p.tREFI - 1, p.postponing - 1, false, p.postponing - 1, 0, false, p.zqcsPeriod - 1, 0, false, NoCommand)
  }

  // Combinational signals --------------------------------------------------------------------------

  predicate SequencerStart(s: State, ready: bool) { s.fsm.WaitBankMachines? && ready }

  predicate SequencerDone(s: State) { s.executerDone && s.runsLeft == 0 }

  predicate WantsZqcs(p: Settings, s: State) { p.tZQCS.Some? && s.zqcsTimer == 0 }

  predicate ZqcsStart(p: Settings, s: State) { s.fsm.DoRefresh? && SequencerDone(s) && WantsZqcs(p, s) }

  /** The last cycle of a refresh: the request is dropped. */
  predicate Last(p: Settings, s: State) {
    || (s.fsm.DoRefresh? && SequencerDone(s) && !WantsZqcs(p, s))
    || (s.fsm.DoZqcs? && s.zqcsDone)
  }

  /** The refresh request seen by the bank machines. */
  predicate Valid(p: Settings, s: State) { !s.fsm.Idle? && !Last(p, s) }

  // Clock edge -------------------------------------------------------------------------------------

  /** Counter of a `timeline` whose last event is at `last`. */
  function Timeline(counter: nat, last: pos, trigger: bool): nat {
    if counter == last then 0
    else if counter != 0 then counter + 1
    else if trigger then 1
    else 0
  }

  /** A `RefreshTimer`'s register. */
  function TimerStep(count: nat, period: pos, wait: bool): nat {
    if wait && count != 0 then count - 1 else period - 1
  }

  function NextFsm(p: Settings, s: State, ready: bool): Fsm {
    match s.fsm
    case Idle => if p.withRefresh && s.wantsRefresh then WaitBankMachines else Idle
    case WaitBankMachines => if ready then DoRefresh else WaitBankMachines
    case DoRefresh => if !SequencerDone(s) then DoRefresh else if WantsZqcs(p, s) then DoZqcs else Idle
    case DoZqcs => if s.zqcsDone then Idle else DoZqcs
  }

  /** Command register: cleared every cycle by the refresh executer, set by an event; the ZQCS executer comes second. */
  function NextCommand(p: Settings, s: State, ready: bool): Command {
    if ZqcsStart(p, s) && s.zqcsExecuter == 0 then PrechargeAll
    else if p.tZQCS.Some? && s.zqcsExecuter == p.tRP then ZqCalibration
    else if p.tZQCS.Some? && s.zqcsExecuter == p.tRP + p.tZQCS.value then NoCommand
    else if (SequencerStart(s, ready) || s.runsLeft != 0) && s.executer == 0 then PrechargeAll
    else if s.executer == p.tRP then AutoRefresh
    else NoCommand
  }

  function Step(p: Settings, s: State, ready: bool): State {
    var timerDone := s.timer == 0;
    State(
      NextFsm(p, s, ready),
      TimerStep(s.timer, p.tREFI, true),
      if !timerDone then s.postponed else if s.postponed == 0 then p.postponing - 1 else s.postponed - 1,
      timerDone && s.postponed == 0,
      if SequencerStart(s, ready) then p.postponing - 1
      else if s.executerDone && s.runsLeft != 0 then s.runsLeft - 1
      else s.runsLeft,
      Timeline(s.executer, p.tRP + p.tRFC, SequencerStart(s, ready) || s.runsLeft != 0),
      s.executer == p.tRP + p.tRFC,
      if p.tZQCS.None? then s.zqcsTimer else TimerStep(s.zqcsTimer, p.zqcsPeriod, !s.zqcsDone),
      if p.tZQCS.None? then s.zqcsExecuter
      else Timeline(s.zqcsExecuter, p.tRP + p.tZQCS.value, ZqcsStart(p, s)),
      p.tZQCS.Some? && s.zqcsExecuter == p.tRP + p.tZQCS.value,
      NextCommand(p, s, ready))
  }

  // The device -------------------------------------------------------------------------------------

  /** How long ago the whole device received each refresh-related command. */
  datatype Device = Device(sincePreAll: Since, sinceRef: Since, sinceZq: Since)

  function DeviceStep(d: Device, c: Command): Device {
    Device(Elapse(d.sincePreAll, c == PrechargeAll), Elapse(d.sinceRef, c == AutoRefresh),
        Elapse(d.sinceZq, c == ZqCalibration))
  }

  /** No refresh or calibration is under way. */
  predicate Recovered(p: Settings, d: Device) {
    && AtLeast(d.sinceRef, p.tRFC)
    && (p.tZQCS.Some? ==> AtLeast(d.sinceZq, p.tZQCS.value))
  }

  /** Everything has been precharged for tRP since the last refresh or calibration. */
  predicate AllPrecharged(p: Settings, d: Device) {
    && d.sincePreAll.Some? && p.tRP <= d.sincePreAll.value
    && AtLeast(d.sinceRef, d.sincePreAll.value)
    && AtLeast(d.sinceZq, d.sincePreAll.value)
  }

  predicate Legal(p: Settings, d: Device, c: Command) {
    if c == PrechargeAll then Recovered(p, d)
    else if c == AutoRefresh || c == ZqCalibration then AllPrecharged(p, d) && Recovered(p, d)
    else c == NoCommand
  }

  /** Sequencer and executers are at rest. */
  predicate AtRest(s: State) {
    s.runsLeft == 0 && s.executer == 0 && !s.executerDone && s.zqcsExecuter == 0 && !s.zqcsDone && s.cmd == NoCommand
  }

  /** Cycles of one run of the refresh executer. */
  function Round(p: Settings): pos { p.tRP + p.tRFC + 1 }

  /** From reset with postponing above one the sequencer runs on its own, unheard by the device. */
  ghost predicate Booting(p: Settings, s: State) {
    && s.zqcsExecuter == 0 && !s.zqcsDone
    && s.executer < Round(p) && (s.executerDone ==> s.executer == 0)
    && s.cmd == (if s.executer == 1 then PrechargeAll else if s.executer == p.tRP + 1 then AutoRefresh else NoCommand)
  }

  /** Cycles until that run is over. */
  function BootLeft(p: Settings, s: State): int {
    if s.executer > 0 then Round(p) - s.executer + s.runsLeft * Round(p) + 1
    else if s.executerDone then s.runsLeft * Round(p) + 1
    else if s.runsLeft > 0 then (s.runsLeft + 1) * Round(p) + 1
    else 0
  }

  /** Cycles until the next request could be seen. */
  function RequestLeft(p: Settings, s: State): nat {
    if s.wantsRefresh then 1 else s.timer + s.postponed * p.tREFI + 2
  }

  /** The sequencer's own run is over when the refresher first asks for a refresh. */
  ghost predicate Settles(p: Settings, s: State) {
    Booting(p, s) && (p.withRefresh ==> BootLeft(p, s) <= RequestLeft(p, s))
  }

  /** Reset settles exactly when there is no such run, or when a refresh takes no longer than its period. */
  lemma ResetSettles(p: Settings)
    ensures Settles(p, Reset(p)) <==> (p.withRefresh && p.postponing > 1 ==> Round(p) <= p.tREFI)
  {
    NextProduct(p.postponing - 1, p.tREFI);
    if Round(p) <= p.tREFI {
      ProductMonotone(Round(p), p.tREFI, p.postponing);
    } else {
      NextProduct(p.postponing, p.tREFI);
      ProductMonotone(p.tREFI + 1, Round(p), p.postponing);
    }
  }

  /** What the device hears: nothing while no refresh is requested. */
  function Heard(s: State): Command { if s.fsm.Idle? then NoCommand else s.cmd }

  /** Where a running executer is, given its counter: `event` is its second command, issued tRP after Precharge All. */
  ghost predicate Running(p: Settings, cmd: Command, d: Device, counter: nat, event: Command, sinceEvent: Since) {
    && cmd == (if counter == 1 then PrechargeAll else if counter == p.tRP + 1 then event else NoCommand)
    && (counter == 1 ==> Recovered(p, d))
    && (2 <= counter ==> d.sincePreAll == Some(counter - 1))
    && (2 <= counter <= p.tRP + 1 ==>
          Recovered(p, d) && AtLeast(d.sinceRef, counter - 1) && AtLeast(d.sinceZq, counter - 1))
    && (p.tRP + 2 <= counter ==> sinceEvent == Some(counter - p.tRP - 1))
  }

  ghost predicate Inv(p: Settings, s: State, d: Device) {
    match s.fsm
    case Idle => Settles(p, s) && Recovered(p, d)
    case WaitBankMachines => AtRest(s) && Recovered(p, d)
    case DoRefresh =>
      && s.zqcsExecuter == 0 && !s.zqcsDone
      && s.executer <= p.tRP + p.tRFC
      && (s.executerDone <==> s.executer == 0)
      && (p.tZQCS.Some? ==> AtLeast(d.sinceZq, p.tZQCS.value))
      && (if s.executer == 0 then
            s.cmd == NoCommand && Recovered(p, d) && d.sincePreAll == Some(p.tRP + p.tRFC)
          else
            Running(p, s.cmd, d, s.executer, AutoRefresh, d.sinceRef))
    case DoZqcs =>
      && p.tZQCS.Some?
      && s.runsLeft == 0 && s.executer == 0 && !s.executerDone
      && s.zqcsExecuter <= p.tRP + p.tZQCS.value
      && (s.zqcsDone <==> s.zqcsExecuter == 0)
      && AtLeast(d.sinceRef, p.tRFC)
      && (if s.zqcsExecuter == 0 then
            s.cmd == NoCommand && Recovered(p, d) && d.sincePreAll == Some(p.tRP + p.tZQCS.value)
          else
            Running(p, s.cmd, d, s.zqcsExecuter, ZqCalibration, d.sinceZq))
  }

  /** The registered command is legal in every reachable state, and the invariant is kept. */
  lemma StepInv(p: Settings, s: State, d: Device, ready: bool)
    requires Inv(p, s, d)
    ensures Legal(p, d, Heard(s))
    ensures Heard(s) != NoCommand ==> (s.fsm.DoRefresh? || s.fsm.DoZqcs?) && !Last(p, s)
    ensures Last(p, s) ==> Recovered(p, d) && d.sincePreAll.Some? && p.tRP <= d.sincePreAll.value
    ensures Inv(p, Step(p, s, ready), DeviceStep(d, Heard(s)))
  {
    match s.fsm {
      case Idle => BootStep(p, s, ready);
      case WaitBankMachines =>
      case DoRefresh => DoRefreshStep(p, s, d, ready);
      case DoZqcs => DoZqcsStep(p, s, d, ready);
    }
  }

  lemma BootStep(p: Settings, s: State, ready: bool)
    requires s.fsm.Idle? && Settles(p, s)
    ensures Settles(p, Step(p, s, ready)) && (Step(p, s, ready).fsm.WaitBankMachines? ==> AtRest(Step(p, s, ready)))
  {
    BootRuns(p, s, ready);
    RequestNears(p, s, ready);
  }

  lemma BootRuns(p: Settings, s: State, ready: bool)
    requires s.fsm.Idle? && Booting(p, s)
    ensures Booting(p, Step(p, s, ready)) && 0 <= BootLeft(p, Step(p, s, ready)) == Max(BootLeft(p, s) - 1, 0)
    ensures BootLeft(p, Step(p, s, ready)) == 0 ==> AtRest(Step(p, s, ready))
  {
    if s.runsLeft > 0 { NextProduct(s.runsLeft - 1, Round(p)); }
    NextProduct(s.runsLeft, Round(p));
  }

  lemma RequestNears(p: Settings, s: State, ready: bool)
    ensures !s.wantsRefresh ==> RequestLeft(p, s) <= RequestLeft(p, Step(p, s, ready)) + 1
    ensures 1 <= RequestLeft(p, Step(p, s, ready))
  {
    if s.postponed > 0 { NextProduct(s.postponed - 1, p.tREFI); }
  }

  lemma DoRefreshStep(p: Settings, s: State, d: Device, ready: bool)
    requires Inv(p, s, d) && s.fsm.DoRefresh?
    ensures Legal(p, d, s.cmd) && Inv(p, Step(p, s, ready), DeviceStep(d, s.cmd))
  {
  }

  lemma DoZqcsStep(p: Settings, s: State, d: Device, ready: bool)
    requires Inv(p, s, d) && s.fsm.DoZqcs?
    ensures Legal(p, d, s.cmd) && Inv(p, Step(p, s, ready), DeviceStep(d, s.cmd))
  {
  }

  /** The first Precharge All of a refresh has been issued. */
  predicate Swept(s: State) { s.fsm.DoZqcs? || (s.fsm.DoRefresh? && s.executer != 1) }

  lemma SweptStep(p: Settings, s: State, d: Device, ready: bool)
    requires Inv(p, s, d) && Swept(Step(p, s, ready))
    ensures s.fsm.DoRefresh? || s.fsm.DoZqcs?
    ensures Swept(s) || (s.cmd == PrechargeAll && s.fsm.DoRefresh? && Step(p, s, ready).fsm.DoRefresh?)
    ensures s.fsm.DoRefresh? && Step(p, s, ready).fsm.DoZqcs? ==>
              s.cmd == NoCommand && d.sincePreAll == Some(p.tRP + p.tRFC)
  {
  }

  // The clocked object -----------------------------------------------------------------------------

  /** The refresher; its timer, postponer, sequencer and executers update registers of its own. */
  class Refresher {
    const p: Settings
    var fsm: Fsm
    var timer: nat
    var postponed: nat
    var wantsRefresh: bool
    var runsLeft: nat
    var executer: nat
    var executerDone: bool
    var zqcsTimer: nat
    var zqcsExecuter: nat
    var zqcsDone: bool
    var cmd: Command

    function Registers(): State reads this {
      State(fsm, timer, postponed, wantsRefresh, runsLeft, executer, executerDone, zqcsTimer, zqcsExecuter,
          zqcsDone, cmd)
    }

    constructor (p: Settings)
      ensures this.p == p && Registers() == Reset(p)
    {
      this.p := p;
      fsm, timer, postponed, wantsRefresh := Idle, p.tREFI - 1, p.postponing - 1, false;
      runsLeft, executer, executerDone := p.postponing - 1, 0, false;
      zqcsTimer, zqcsExecuter, zqcsDone, cmd := p.zqcsPeriod - 1, 0, false, NoCommand;
    }

    /** The timer and the postponer. */
    method TickTimer()
      modifies this`timer, this`postponed, this`wantsRefresh
      ensures var s := old(Registers());
              && timer == TimerStep(s.timer, p.tREFI, true)
              && postponed == (if s.timer != 0 then s.postponed
                               else if s.postponed == 0 then p.postponing - 1 else s.postponed - 1)
              && wantsRefresh == (s.timer == 0 && s.postponed == 0)
    {
      wantsRefresh := false;
      if timer == 0 {
        if postponed == 0 {
          postponed, wantsRefresh := p.postponing - 1, true;
        } else {
          postponed := postponed - 1;
        }
      }
      timer := if timer != 0 then timer - 1 else p.tREFI - 1;
    }

    /** The refresh executer's timeline; it clears the command register in every cycle. */
    method TickExecuter(start: bool)
      modifies this`cmd, this`executer, this`executerDone
      ensures executer == Timeline(old(executer), p.tRP + p.tRFC, start)
      ensures executerDone == (old(executer) == p.tRP + p.tRFC)
      ensures cmd == if start && old(executer) == 0 then PrechargeAll
                     else if old(executer) == p.tRP then AutoRefresh else NoCommand
    {
      cmd, executerDone := NoCommand, false;
      if executer == 0 {
        if start { cmd := PrechargeAll; }
      } else if executer == p.tRP {
        cmd := AutoRefresh;
      } else if executer == p.tRP + p.tRFC {
        executerDone := true;
      }
      executer := Timeline(executer, p.tRP + p.tRFC, start);
    }

    /** The sequencer: it restarts the executer until all postponed refreshes are done. */
    method TickSequencer(start: bool)
      modifies this`runsLeft, this`cmd, this`executer, this`executerDone
      ensures runsLeft == (if start then p.postponing - 1
                           else if old(executerDone) && old(runsLeft) != 0 then old(runsLeft) - 1 else old(runsLeft))
      ensures var again := start || old(runsLeft) != 0;
              && executer == Timeline(old(executer), p.tRP + p.tRFC, again)
              && executerDone == (old(executer) == p.tRP + p.tRFC)
              && cmd == (if again && old(executer) == 0 then PrechargeAll
                         else if old(executer) == p.tRP then AutoRefresh else NoCommand)
    {
      var again := start || runsLeft != 0;
      if start {
        runsLeft := p.postponing - 1;
      } else if executerDone && runsLeft != 0 {
        runsLeft := runsLeft - 1;
      }
      TickExecuter(again);
    }

    /** The calibration timer and executer; its events override the refresh executer's. */
    method TickZqcs(start: bool)
      modifies this`cmd, this`zqcsTimer, this`zqcsExecuter, this`zqcsDone
      ensures p.tZQCS.None? ==>
                && zqcsTimer == old(zqcsTimer) && zqcsExecuter == old(zqcsExecuter) && !zqcsDone && cmd == old(cmd)
      ensures p.tZQCS.Some? ==>
                && zqcsTimer == TimerStep(old(zqcsTimer), p.zqcsPeriod, !old(zqcsDone))
                && zqcsExecuter == Timeline(old(zqcsExecuter), p.tRP + p.tZQCS.value, start)
                && zqcsDone == (old(zqcsExecuter) == p.tRP + p.tZQCS.value)
                && cmd == (if start && old(zqcsExecuter) == 0 then PrechargeAll
                           else if old(zqcsExecuter) == p.tRP then ZqCalibration
                           else if old(zqcsExecuter) == p.tRP + p.tZQCS.value then NoCommand
                           else old(cmd))
    {
      if p.tZQCS.Some? {
        var last := p.tRP + p.tZQCS.value;
        zqcsTimer := if !zqcsDone && zqcsTimer != 0 then zqcsTimer - 1 else p.zqcsPeriod - 1;
        zqcsDone := false;
        if zqcsExecuter == 0 {
          if start { cmd := PrechargeAll; }
        } else if zqcsExecuter == p.tRP {
          cmd := ZqCalibration;
        } else if zqcsExecuter == last {
          cmd, zqcsDone := NoCommand, true;
        }
        zqcsExecuter := Timeline(zqcsExecuter, last, start);
      } else {
        zqcsDone := false;
      }
    }

    /** The FSM's outputs and its next state. */
    method Signals(ready: bool) returns (valid: bool, last: bool, start: bool, zqcsStart: bool, next: Fsm)
      ensures valid == Valid(p, Registers()) && last == Last(p, Registers()) && next == NextFsm(p, Registers(), ready)
      ensures start == SequencerStart(Registers(), ready) && zqcsStart == ZqcsStart(p, Registers())
      ensures zqcsStart ==> p.tZQCS.Some?
    {
      valid, last, start, zqcsStart, next := false, false, false, false, fsm;
      match fsm {
        case Idle =>
          if p.withRefresh && wantsRefresh { next := WaitBankMachines; }
        case WaitBankMachines =>
          valid := true;
          if ready { start, next := true, DoRefresh; }
        case DoRefresh =>
          valid := true;
          if executerDone && runsLeft == 0 {
            if p.tZQCS.Some? && zqcsTimer == 0 {
              zqcsStart, next := true, DoZqcs;
            } else {
              valid, last, next := false, true, Idle;
            }
          }
        case DoZqcs =>
          valid := true;
          if zqcsDone { valid, last, next := false, true, Idle; }
      }
    }

    /** One clock cycle; `ready` is the multiplexer granting the refresh. */
    method Tick(ready: bool) returns (valid: bool, last: bool)
      modifies this
      ensures Registers() == Step(p, old(Registers()), ready)
      ensures valid == Valid(p, old(Registers())) && last == Last(p, old(Registers()))
    {
      hide Valid, Last, NextFsm, SequencerStart, ZqcsStart, Timeline, TimerStep;
      var start, zqcsStart, next;
      valid, last, start, zqcsStart, next := Signals(ready);
      TickTimer();
      TickSequencer(start);
      TickZqcs(zqcsStart);
      fsm := next;
    }
  }
}
