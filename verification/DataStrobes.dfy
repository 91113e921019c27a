/** Data strobes: each column command strobes its own master, once, at the cycle its data is on the bus. */
module DataStrobes {
  import opened Common
  import opened Runs
  import opened Controllers
  import opened ControllerSafety
  import opened ControllerTiming
  import opened CrossbarOrder
  import BM = BankMachines
  import X = Crossbars

  /** The master whose column command is issued in this cycle, if one is. */
  function Owner(s: State): nat
    requires s.mux.grantReq < |s.xbar.grants|
  {
    s.xbar.grants[s.mux.grantReq]
  }

  predicate WriteFor(c: Config, s: State, m: nat)
    requires c.Valid() && WellFormed(c, s)
  {
    WriteIssued(c, s) && Owner(s) == m
  }

  predicate ReadFor(c: Config, s: State, m: nat)
    requires c.Valid() && WellFormed(c, s)
  {
    ReadIssued(c, s) && Owner(s) == m
  }

  lemma BankStrobes(c: Config, s: State, i: Input, b: nat)
    requires Inv(c, s) && Fits(c, s, i) && b < c.Nbanks()
    ensures BankSide(c, s).wdataReady[b] == (WriteIssued(c, s) && s.mux.grantReq == b)
    ensures BankSide(c, s).rdataValid[b] == (ReadIssued(c, s) && s.mux.grantReq == b)
  {
    assert BankInv(c, s, b);
    ServedIsIssued(c, s, i, b);
    ColumnAccepted(c, s, i);
    ColumnOnlyAccepted(c, s, i, b);
    BM.IssuedMeaning(c.Bank(), s.worlds[b].s, BankInput(c, s, i, b));
  }

  lemma MasterStrobes(c: Config, s: State, i: Input, m: nat)
    requires Inv(c, s) && Fits(c, s, i) && m < c.nmasters
    ensures X.Strobe(s.xbar, BankSide(c, s).wdataReady, m) == WriteFor(c, s, m)
    ensures X.Strobe(s.xbar, BankSide(c, s).rdataValid, m) == ReadFor(c, s, m)
  {
    var side := BankSide(c, s);
    forall b | 0 <= b < c.Nbanks()
      ensures side.wdataReady[b] == (WriteIssued(c, s) && s.mux.grantReq == b)
      ensures side.rdataValid[b] == (ReadIssued(c, s) && s.mux.grantReq == b)
    {
      BankStrobes(c, s, i, b);
    }
    if WriteFor(c, s, m) { assert s.xbar.grants[s.mux.grantReq] == m && side.wdataReady[s.mux.grantReq]; }
    if ReadFor(c, s, m) { assert s.xbar.grants[s.mux.grantReq] == m && side.rdataValid[s.mux.grantReq]; }
  }

  lemma LinesShift(c: Config, s: State, i: Input, s': State, m: nat)
    requires Inv(c, s) && Follows(c, s, i, s') && m < c.nmasters
    ensures c.Valid() && WellFormed(c, s) && m < |s'.xbar.wdata| && m < |s'.xbar.rdata|
    ensures m < |s.xbar.wdata| && m < |s.xbar.rdata|
    ensures |s.xbar.wdata[m]| == c.writeLatency + 1 && |s.xbar.rdata[m]| == c.readLatency + 1
    ensures s'.xbar.wdata[m] == [WriteFor(c, s, m)] + s.xbar.wdata[m][..c.writeLatency]
    ensures s'.xbar.rdata[m] == [ReadFor(c, s, m)] + s.xbar.rdata[m][..c.readLatency]
  {
    MasterStrobes(c, s, i, m);
    LinesShiftRaw(c, s, i, s', m);
  }

  lemma LinesShiftRaw(c: Config, s: State, i: Input, s': State, m: nat)
    requires Follows(c, s, i, s') && m < c.nmasters
    ensures s'.xbar.wdata[m] == X.Shift(s.xbar.wdata[m], X.Strobe(s.xbar, BankSide(c, s).wdataReady, m))
    ensures s'.xbar.rdata[m] == X.Shift(s.xbar.rdata[m], X.Strobe(s.xbar, BankSide(c, s).rdataValid, m))
  {
  }

  ghost function WriteLineOf(m: nat): State -> seq<bool> {
    (s: State) => if m < |s.xbar.wdata| then s.xbar.wdata[m] else []
  }

  ghost function WriteFeed(c: Config, m: nat): (State, Input) -> bool {
    (s: State, i: Input) => c.Valid() && WellFormed(c, s) && WriteFor(c, s, m)
  }

  lemma WriteLineShifts(c: Config, m: nat)
    requires m < c.nmasters
    ensures forall s, i, s' | SafeNext(c)(s, i, s') && WriteLineOf(m)(s) != [] ::
              WriteLineOf(m)(s') == [WriteFeed(c, m)(s, i)] + WriteLineOf(m)(s)[..|WriteLineOf(m)(s)| - 1]
  {
    hide Inv, Follows, WriteFor, ReadFor;
    forall s: State, i: Input, s': State | SafeNext(c)(s, i, s') && WriteLineOf(m)(s) != []
      ensures WriteLineOf(m)(s') == [WriteFeed(c, m)(s, i)] + WriteLineOf(m)(s)[..|WriteLineOf(m)(s)| - 1]
    {
      LinesShift(c, s, i, s', m);
    }
  }

  lemma WriteLineStart(c: Config, s: State, m: nat)
    requires c.Valid() && Initial(c, s) && m < c.nmasters
    ensures |WriteLineOf(m)(s)| == c.writeLatency + 1 && forall j | 0 <= j <= c.writeLatency :: !WriteLineOf(m)(s)[j]
  {
  }

  lemma WriteLine(c: Config, states: seq<State>, ins: seq<Input>, m: nat, n: nat, j: nat)
    requires IsRun(c, states, ins) && n <= |ins| && m < c.nmasters && j <= c.writeLatency
    ensures |WriteLineOf(m)(states[n])| == c.writeLatency + 1
    ensures WriteLineOf(m)(states[n])[j] <==> j < n && WriteFeed(c, m)(states[n - 1 - j], ins[n - 1 - j])
  {
    WriteLineShifts(c, m);
    WriteLineStart(c, states[0], m);
    RunIsSafe(c, states, ins);
    ChainShift(SafeNext(c), WriteLineOf(m), WriteFeed(c, m), states, ins, n, j);
  }

  ghost function ReadLineOf(m: nat): State -> seq<bool> {
    (s: State) => if m < |s.xbar.rdata| then s.xbar.rdata[m] else []
  }

  ghost function ReadFeed(c: Config, m: nat): (State, Input) -> bool {
    (s: State, i: Input) => c.Valid() && WellFormed(c, s) && ReadFor(c, s, m)
  }

  lemma ReadLineShifts(c: Config, m: nat)
    requires m < c.nmasters
    ensures forall s, i, s' | SafeNext(c)(s, i, s') && ReadLineOf(m)(s) != [] ::
              ReadLineOf(m)(s') == [ReadFeed(c, m)(s, i)] + ReadLineOf(m)(s)[..|ReadLineOf(m)(s)| - 1]
  {
    hide Inv, Follows, WriteFor, ReadFor;
    forall s: State, i: Input, s': State | SafeNext(c)(s, i, s') && ReadLineOf(m)(s) != []
      ensures ReadLineOf(m)(s') == [ReadFeed(c, m)(s, i)] + ReadLineOf(m)(s)[..|ReadLineOf(m)(s)| - 1]
    {
      LinesShift(c, s, i, s', m);
    }
  }

  lemma ReadLineStart(c: Config, s: State, m: nat)
    requires c.Valid() && Initial(c, s) && m < c.nmasters
    ensures |ReadLineOf(m)(s)| == c.readLatency + 1 && forall j | 0 <= j <= c.readLatency :: !ReadLineOf(m)(s)[j]
  {
  }

  lemma ReadLine(c: Config, states: seq<State>, ins: seq<Input>, m: nat, n: nat, j: nat)
    requires IsRun(c, states, ins) && n <= |ins| && m < c.nmasters && j <= c.readLatency
    ensures |ReadLineOf(m)(states[n])| == c.readLatency + 1
    ensures ReadLineOf(m)(states[n])[j] <==> j < n && ReadFeed(c, m)(states[n - 1 - j], ins[n - 1 - j])
  {
    ReadLineShifts(c, m);
    ReadLineStart(c, states[0], m);
    RunIsSafe(c, states, ins);
    ChainShift(SafeNext(c), ReadLineOf(m), ReadFeed(c, m), states, ins, n, j);
  }

  /** A master's write strobe is up exactly when its write was issued `writeLatency + 1` cycles before. */
  lemma WriteStrobes(c: Config, states: seq<State>, ins: seq<Input>, m: nat, n: nat)
    requires IsRun(c, states, ins) && n <= |ins| && m < c.nmasters
    ensures WellFormed(c, states[n])
    ensures c.writeLatency < n ==> c.Valid() && WellFormed(c, states[n - 1 - c.writeLatency])
    ensures X.WdataReady(c.Crossbar(), states[n].xbar, m) <==>
            c.writeLatency < n && WriteFor(c, states[n - 1 - c.writeLatency], m)
  {
    hide Initial, Step, WriteFor;
    RunIsWellFormed(c, states, ins, n);
    if c.writeLatency < n { RunIsWellFormed(c, states, ins, n - 1 - c.writeLatency); }
    WriteLine(c, states, ins, m, n, c.writeLatency);
  }

  /** A master's read strobe is up exactly when its read was issued `readLatency + 1` cycles before. */
  lemma ReadStrobes(c: Config, states: seq<State>, ins: seq<Input>, m: nat, n: nat)
    requires IsRun(c, states, ins) && n <= |ins| && m < c.nmasters
    ensures WellFormed(c, states[n])
    ensures c.readLatency < n ==> c.Valid() && WellFormed(c, states[n - 1 - c.readLatency])
    ensures X.RdataValid(c.Crossbar(), states[n].xbar, m) <==>
            c.readLatency < n && ReadFor(c, states[n - 1 - c.readLatency], m)
  {
    hide Initial, Step, ReadFor;
    RunIsWellFormed(c, states, ins, n);
    if c.readLatency < n { RunIsWellFormed(c, states, ins, n - 1 - c.readLatency); }
    ReadLine(c, states, ins, m, n, c.readLatency);
  }

  /** At most one master is strobed for write data in a cycle, so the data bus carries its word. */
  lemma OneWriteStrobe(c: Config, states: seq<State>, ins: seq<Input>, m: nat, m': nat, n: nat)
    requires IsRun(c, states, ins) && n <= |ins| && m < c.nmasters && m' < c.nmasters
    requires WellFormed(c, states[n])
    requires X.WdataReady(c.Crossbar(), states[n].xbar, m) && X.WdataReady(c.Crossbar(), states[n].xbar, m')
    ensures m == m'
  {
    WriteStrobes(c, states, ins, m, n);
    WriteStrobes(c, states, ins, m', n);
  }
}
