/** litedram/core/crossbar.py: routing of master commands to banks, bank locks, and the delay lines that align data
    strobes with the data path. */
module Crossbars {
  import opened Common
  import opened AddressPath
  import opened Arbiters
  import BM = BankMachines

  /** Latencies are the PHY's; the crossbar adds one cycle to each. */
  datatype Settings = Settings(nmasters: pos, nbanks: pos, bankMap: BankMap, writeLatency: nat, readLatency: nat) {
    ghost predicate Valid() { nbanks == Pow2(bankMap.bankBits) && bankMap.shift <= bankMap.rcaBits }
  }

  /** A master's command port. */
  datatype MasterCmd = MasterCmd(valid: bool, we: bool, address: nat)

  /** Delay lines have the newest strobe at index 0. */
  datatype State = State(grants: seq<nat>, wdata: seq<seq<bool>>, rdata: seq<seq<bool>>)

  function Reset(p: Settings): State {
    State(seq(p.nbanks, _ => 0),
          seq(p.nmasters, _ => seq(p.writeLatency + 1, _ => false)),
          seq(p.nmasters, _ => seq(p.readLatency + 1, _ => false)))
  }

  ghost predicate WellFormed(p: Settings, s: State) {
    && |s.grants| == p.nbanks && (forall b | 0 <= b < p.nbanks :: s.grants[b] < p.nmasters)
    && |s.wdata| == p.nmasters && (forall m | 0 <= m < p.nmasters :: |s.wdata[m]| == p.writeLatency + 1)
    && |s.rdata| == p.nmasters && (forall m | 0 <= m < p.nmasters :: |s.rdata[m]| == p.readLatency + 1)
  }

  /** What the banks tell the crossbar in one cycle. */
  datatype BankSide = BankSide(locks: seq<bool>, readys: seq<bool>, wdataReady: seq<bool>, rdataValid: seq<bool>)

  ghost predicate Fits(p: Settings, s: State, cmds: seq<MasterCmd>, banks: BankSide) {
    && WellFormed(p, s) && |cmds| == p.nmasters
    && |banks.locks| == |banks.readys| == |banks.wdataReady| == |banks.rdataValid| == p.nbanks
  }

  // Combinational signals --------------------------------------------------------------------------

  /** Another bank is locked on behalf of the master. */
  predicate Locked(s: State, locks: seq<bool>, m: nat, b: nat)
    requires |locks| == |s.grants|
  {
    exists other | 0 <= other < |locks| :: other != b && locks[other] && s.grants[other] == m
  }

  predicate Selected(p: Settings, s: State, cmds: seq<MasterCmd>, locks: seq<bool>, m: nat, b: nat)
    requires |locks| == |s.grants| && m < |cmds|
  {
    BankOf(p.bankMap, cmds[m].address) == b && !Locked(s, locks, m, b)
  }

  predicate Requested(p: Settings, s: State, cmds: seq<MasterCmd>, locks: seq<bool>, m: nat, b: nat)
    requires |locks| == |s.grants| && m < |cmds|
  {
    cmds[m].valid && Selected(p, s, cmds, locks, m, b)
  }

  function Requests(p: Settings, s: State, cmds: seq<MasterCmd>, locks: seq<bool>, b: nat): (r: seq<bool>)
    requires |locks| == |s.grants|
    ensures |r| == |cmds|
  {
    seq(|cmds|, m requires 0 <= m < |cmds| => Requested(p, s, cmds, locks, m, b))
  }

  /** The request presented to a bank. */
  function BankRequest(p: Settings, s: State, cmds: seq<MasterCmd>, locks: seq<bool>, b: nat): Option<BM.Request>
    requires WellFormed(p, s) && |cmds| == p.nmasters && |locks| == p.nbanks && b < p.nbanks
  {
    var c := cmds[s.grants[b]];
    if Requested(p, s, cmds, locks, s.grants[b], b) then Some(BM.Request(c.we, RcaOf(p.bankMap, c.address))) else None
  }

  predicate MasterReady(p: Settings, s: State, cmds: seq<MasterCmd>, banks: BankSide, m: nat)
    requires Fits(p, s, cmds, banks) && m < p.nmasters
  {
    exists b | 0 <= b < p.nbanks :: s.grants[b] == m && Selected(p, s, cmds, banks.locks, m, b) && banks.readys[b]
  }

  /** Some bank granted to the master raises the strobe. */
  predicate Strobe(s: State, signal: seq<bool>, m: nat)
    requires |signal| == |s.grants|
  {
    exists b | 0 <= b < |signal| :: s.grants[b] == m && signal[b]
  }

  predicate WdataReady(p: Settings, s: State, m: nat)
    requires WellFormed(p, s) && m < p.nmasters
  {
    s.wdata[m][p.writeLatency]
  }

  predicate RdataValid(p: Settings, s: State, m: nat)
    requires WellFormed(p, s) && m < p.nmasters
  {
    s.rdata[m][p.readLatency]
  }

  /** The master's write strobe is the only one up. */
  predicate OnlyStrobed(p: Settings, s: State, m: nat)
    requires WellFormed(p, s) && m < p.nmasters
  {
    WdataReady(p, s, m) && forall other: nat | other < p.nmasters && other != m :: !WdataReady(p, s, other)
  }

  /** The one master whose write strobe is up, or `nmasters`: its data drives the controller. */
  function Writer(p: Settings, s: State): (m: nat)
    requires WellFormed(p, s)
    ensures m <= p.nmasters
  {
    if exists m: nat | m < p.nmasters :: OnlyStrobed(p, s, m) then
      var m: nat :| m < p.nmasters && OnlyStrobed(p, s, m); m
    else p.nmasters
  }

  /** The writer, given a master that is strobed if any is. */
  lemma WriterIs(p: Settings, s: State, m: nat)
    requires WellFormed(p, s) && m <= p.nmasters
    requires m == p.nmasters <==> forall k: nat | k < p.nmasters :: !WdataReady(p, s, k)
    requires m < p.nmasters ==> WdataReady(p, s, m)
    ensures Writer(p, s) == if m < p.nmasters && OnlyStrobed(p, s, m) then m else p.nmasters
  {
    if other: nat :| other < p.nmasters && OnlyStrobed(p, s, other) {
      assert WdataReady(p, s, other);
    }
  }

  // Clock edge -------------------------------------------------------------------------------------

  function NextBankGrant(p: Settings, s: State, cmds: seq<MasterCmd>, banks: BankSide, b: nat): (g: nat)
    requires Fits(p, s, cmds, banks) && b < p.nbanks
    ensures g < p.nmasters
  {
    if BankRequest(p, s, cmds, banks.locks, b).None? && !banks.locks[b] then
      NextGrant(Requests(p, s, cmds, banks.locks, b), s.grants[b])
    else
      s.grants[b]
  }

  function Shift(line: seq<bool>, v: bool): (r: seq<bool>)
    requires line != []
    ensures |r| == |line|
  {
    [v] + line[..|line| - 1]
  }

  function Step(p: Settings, s: State, cmds: seq<MasterCmd>, banks: BankSide): (s': State)
    requires Fits(p, s, cmds, banks)
    ensures WellFormed(p, s')
  {
    State(
      seq(p.nbanks, b requires 0 <= b < p.nbanks && Fits(p, s, cmds, banks) => NextBankGrant(p, s, cmds, banks, b)),
      seq(p.nmasters, m requires 0 <= m < p.nmasters && Fits(p, s, cmds, banks) =>
        Shift(s.wdata[m], Strobe(s, banks.wdataReady, m))),
      seq(p.nmasters, m requires 0 <= m < p.nmasters && Fits(p, s, cmds, banks) =>
        Shift(s.rdata[m], Strobe(s, banks.rdataValid, m))))
  }

  // The clocked object -----------------------------------------------------------------------------

  /** The crossbar: one arbiter for each bank, two delay lines for each master. */
  class Crossbar {
    const p: Settings
    var grants: seq<nat>
    var wdata: seq<seq<bool>>
    var rdata: seq<seq<bool>>

    function Registers(): State reads this { State(grants, wdata, rdata) }

    ghost predicate Valid() reads this { WellFormed(p, Registers()) }

    constructor (p: Settings)
      ensures this.p == p && Valid() && Registers() == Reset(p)
    {
      this.p := p;
      grants := seq(p.nbanks, _ => 0);
      wdata := seq(p.nmasters, _ => seq(p.writeLatency + 1, _ => false));
      rdata := seq(p.nmasters, _ => seq(p.readLatency + 1, _ => false));
    }

    /** Each master's `cmd.ready`: some bank granted to it is selected and ready. */
    method Readys(cmds: seq<MasterCmd>, banks: BankSide) returns (ready: seq<bool>)
      requires Valid() && Fits(p, Registers(), cmds, banks)
      ensures |ready| == p.nmasters
      ensures forall m | 0 <= m < p.nmasters :: ready[m] == MasterReady(p, Registers(), cmds, banks, m)
    {
      hide Selected;
      ready := [];
      for m := 0 to p.nmasters
        invariant |ready| == m && forall k | 0 <= k < m :: ready[k] == MasterReady(p, Registers(), cmds, banks, k)
      {
        var any := false;
        for b := 0 to p.nbanks
          invariant any <==> exists k | 0 <= k < b ::
                               grants[k] == m && Selected(p, Registers(), cmds, banks.locks, m, k) && banks.readys[k]
        {
          any := any || (grants[b] == m && Selected(p, Registers(), cmds, banks.locks, m, b) && banks.readys[b]);
        }
        ready := ready + [any];
      }
    }

    /** The write data path: a `Case` over all strobes at once, which matches when exactly one is up. */
    method SelectWriter() returns (writer: nat)
      requires Valid()
      ensures writer == Writer(p, Registers())
    {
      writer := p.nmasters;
      var several := false;
      for m := 0 to p.nmasters
        invariant writer == p.nmasters <==> forall k: nat | k < m :: !WdataReady(p, Registers(), k)
        invariant writer != p.nmasters ==> writer < m && WdataReady(p, Registers(), writer)
        invariant several <==> exists k: nat | k < m :: k != writer && WdataReady(p, Registers(), k)
      {
        assert WdataReady(p, Registers(), m) == wdata[m][p.writeLatency];
        if wdata[m][p.writeLatency] {
          if writer < p.nmasters { several := true; } else { writer := m; }
        }
      }
      ghost var found := writer;
      if several { writer := p.nmasters; }
      WriterIs(p, Registers(), found);
    }

    /** The requests routed to the banks, and the banks' next grants. */
    method Route(cmds: seq<MasterCmd>, banks: BankSide) returns (requests: seq<Option<BM.Request>>, next: seq<nat>)
      requires Valid() && Fits(p, Registers(), cmds, banks)
      ensures |requests| == |next| == p.nbanks
      ensures forall b | 0 <= b < p.nbanks ::
                && requests[b] == BankRequest(p, Registers(), cmds, banks.locks, b)
                && next[b] == NextBankGrant(p, Registers(), cmds, banks, b)
    {
      hide Requested, NextGrant;
      requests, next := [], [];
      for b := 0 to p.nbanks
        invariant |requests| == |next| == b
        invariant forall k | 0 <= k < b ::
                    && requests[k] == BankRequest(p, Registers(), cmds, banks.locks, k)
                    && next[k] == NextBankGrant(p, Registers(), cmds, banks, k)
      {
        var m := grants[b];
        var valid := Requested(p, Registers(), cmds, banks.locks, m, b);
        var request := if valid then Some(BM.Request(cmds[m].we, RcaOf(p.bankMap, cmds[m].address))) else None;
        var grant := m;
        if !valid && !banks.locks[b] { grant := NextGrant(Requests(p, Registers(), cmds, banks.locks, b), m); }
        requests, next := requests + [request], next + [grant];
      }
    }

    /** A delay line for each master takes in the strobe of the banks granted to it. */
    method ShiftLines(lines: seq<seq<bool>>, signal: seq<bool>) returns (next: seq<seq<bool>>)
      requires |signal| == |grants| && forall m | 0 <= m < |lines| :: lines[m] != []
      ensures |next| == |lines|
      ensures forall m | 0 <= m < |lines| :: next[m] == Shift(lines[m], Strobe(Registers(), signal, m))
    {
      next := [];
      for m := 0 to |lines|
        invariant |next| == m
        invariant forall k | 0 <= k < m :: next[k] == Shift(lines[k], Strobe(Registers(), signal, k))
      {
        var strobe := false;
        for b := 0 to |signal|
          invariant strobe <==> exists k | 0 <= k < b :: grants[k] == m && signal[k]
        {
          strobe := strobe || (grants[b] == m && signal[b]);
        }
        next := next + [[strobe] + lines[m][..|lines[m]| - 1]];
      }
    }

    /** One clock cycle; the outputs are the banks' requests, the masters' command handshakes and data strobes, and the
        master whose write data drives the controller. */
    method Tick(cmds: seq<MasterCmd>, banks: BankSide)
      returns (requests: seq<Option<BM.Request>>, cmdReady: seq<bool>, wdataReady: seq<bool>, rdataValid: seq<bool>,
               writer: nat)
      requires Valid() && Fits(p, Registers(), cmds, banks)
      modifies this
      ensures Valid() && Registers() == Step(p, old(Registers()), cmds, banks)
      ensures |requests| == p.nbanks && |cmdReady| == |wdataReady| == |rdataValid| == p.nmasters
      ensures forall m | 0 <= m < p.nmasters :: cmdReady[m] == MasterReady(p, old(Registers()), cmds, banks, m)
      ensures writer == Writer(p, old(Registers()))
      ensures forall b | 0 <= b < p.nbanks :: requests[b] == BankRequest(p, old(Registers()), cmds, banks.locks, b)
      ensures forall m | 0 <= m < p.nmasters :: wdataReady[m] == WdataReady(p, old(Registers()), m)
      ensures forall m | 0 <= m < p.nmasters :: rdataValid[m] == RdataValid(p, old(Registers()), m)
    {
      hide NextBankGrant, BankRequest, Strobe, MasterReady, Writer;
      cmdReady := Readys(cmds, banks);
      writer := SelectWriter();
      wdataReady := seq(p.nmasters, m requires 0 <= m < |wdata| && |wdata[m]| == p.writeLatency + 1 reads this =>
        wdata[m][p.writeLatency]);
      rdataValid := seq(p.nmasters, m requires 0 <= m < |rdata| && |rdata[m]| == p.readLatency + 1 reads this =>
        rdata[m][p.readLatency]);
      var next;
      requests, next := Route(cmds, banks);
      var writes := ShiftLines(wdata, banks.wdataReady);
      var reads' := ShiftLines(rdata, banks.rdataValid);
      grants, wdata, rdata := next, writes, reads';
    }
  }
}
