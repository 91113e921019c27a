/** The end-to-end property in terms of what was accepted: which accepted command each read strobe answers, and which
    accepted write each byte of it comes from. */
module Deliveries {
  import opened Common
  import opened Runs
  import opened Controllers
  import opened ControllerSafety
  import opened ControllerTiming
  import opened CrossbarOrder
  import opened DataStrobes
  import opened PhyTracking
  import opened EndToEnd
  import A = AddressPath
  import BM = BankMachines
  import D = DramBank
  import M = Multiplexers
  import R = Refreshers
  import X = Crossbars

  // Issue cycles -----------------------------------------------------------------------------------

  /** In this cycle bank `b` issues the column command of the `i`-th request it accepted. */
  ghost predicate Issues(c: Config, s: State, b: nat, i: nat) {
    && c.Valid() && WellFormed(c, s) && b < c.Nbanks()
    && (ReadIssued(c, s) || WriteIssued(c, s)) && s.mux.grantReq == b && |s.worlds[b].performed| == i
  }

  /** A request is its access. */
  lemma AccessInjective(p: BM.Settings, r: BM.Request, r': BM.Request)
    requires p.Valid() && BM.AccessOf(p, r) == BM.AccessOf(p, r')
    ensures r == r'
  {
    A.SlicerRoundTrip(p.slicer, r.address);
    A.SlicerRoundTrip(p.slicer, r'.address);
  }

  /** How a bank's histories move in one cycle. */
  ghost predicate HistoryMoves(c: Config, s: State, s': State, b: nat) {
    && c.Valid() && WellFormed(c, s) && b < c.Nbanks() && b < |s'.worlds|
    && s.worlds[b].accepted <= s'.worlds[b].accepted
    && |s'.worlds[b].performed| == |s.worlds[b].performed|
                                   + if (ReadIssued(c, s) || WriteIssued(c, s)) && s.mux.grantReq == b then 1 else 0
  }

  lemma WorldMoves(c: Config, s: State, i: Input, s': State, b: nat)
    requires Inv(c, s) && Follows(c, s, i, s') && b < c.Nbanks()
    ensures HistoryMoves(c, s, s', b)
  {
    hide BM.Step, D.Exec, Ready, MuxInput, ReadIssued, WriteIssued, BM.Inv, D.Performed, BM.Served, Step, M.Step,
         R.Step;
    FollowsMoves(c, s, i, s');
    ServedIsIssued(c, s, i, b);
    assert BankInv(c, s, b);
    BM.PerformedIsServed(c.Bank(), s.worlds[b], BankInput(c, s, i, b), PreAll(c, s)) by { ContractKept(c, s, i, b); }
  }

  lemma RunMoves(c: Config, states: seq<State>, ins: seq<Input>, n: nat, b: nat)
    requires IsRun(c, states, ins) && n < |ins| && b < c.Nbanks()
    ensures HistoryMoves(c, states[n], states[n + 1], b)
  {
    hide Initial, Step, HistoryMoves, Inv;
    RunInv(c, states, ins, n);
    RunCycle(c, states, ins, n);
    WorldMoves(c, states[n], ins[n], states[n + 1], b);
  }

  /** Histories only grow. */
  lemma {:induction false} HistoriesGrow(c: Config, states: seq<State>, ins: seq<Input>, k: nat, n: nat, b: nat)
    requires IsRun(c, states, ins) && k <= n <= |ins| && b < c.Nbanks()
    ensures WellFormed(c, states[k]) && WellFormed(c, states[n])
    ensures states[k].worlds[b].accepted <= states[n].worlds[b].accepted
    ensures |states[k].worlds[b].performed| <= |states[n].worlds[b].performed|
    ensures k < n && (ReadIssued(c, states[k]) || WriteIssued(c, states[k])) && states[k].mux.grantReq == b ==>
              |states[k].worlds[b].performed| < |states[n].worlds[b].performed|
    decreases n - k
  {
    hide Initial, Step, ReadIssued, WriteIssued;
    RunIsWellFormed(c, states, ins, k);
    RunIsWellFormed(c, states, ins, n);
    if k < n {
      RunMoves(c, states, ins, k, b);
      HistoriesGrow(c, states, ins, k + 1, n, b);
    }
  }

  /** The buffered request is the oldest one accepted and not performed. */
  lemma BufferIsOldest(p: BM.Settings, w: BM.World)
    requires p.Valid() && BM.Inv(p, w) && w.s.buffer.Some?
    ensures |w.performed| < |w.accepted| && w.s.buffer.value == w.accepted[|w.performed|]
  {
    OldestPending(p, w);
    AccessInjective(p, w.s.buffer.value, w.accepted[|w.performed|]);
  }

  /** The command issued is the accepted request of its index, now and in every later state. */
  lemma IssuedRequest(c: Config, states: seq<State>, ins: seq<Input>, k: nat, n: nat, b: nat, i: nat)
    requires IsRun(c, states, ins) && k <= n <= |ins| && k < |ins| && Issues(c, states[k], b, i)
    ensures WellFormed(c, states[n]) && i < |states[n].worlds[b].accepted|
    ensures states[k].worlds[b].s.buffer == Some(states[n].worlds[b].accepted[i])
    ensures WriteIssued(c, states[k]) <==> states[n].worlds[b].accepted[i].we
  {
    hide Initial, Step, ReadIssued, WriteIssued, BM.Inv;
    RunInv(c, states, ins, k);
    RunCycle(c, states, ins, k);
    assert BankInv(c, states[k], b);
    ServedIsIssued(c, states[k], ins[k], b);
    BufferIsOldest(c.Bank(), states[k].worlds[b]);
    HistoriesGrow(c, states, ins, k, n, b);
    DirectionIssued(c, states[k], ins[k]);
  }

  lemma DirectionIssued(c: Config, s: State, i: Input)
    requires Inv(c, s) && Fits(c, s, i) && (ReadIssued(c, s) || WriteIssued(c, s))
    ensures s.worlds[s.mux.grantReq].s.buffer.Some?
    ensures WriteIssued(c, s) <==> s.worlds[s.mux.grantReq].s.buffer.value.we
    ensures ReadIssued(c, s) <==> !s.worlds[s.mux.grantReq].s.buffer.value.we
  {
    hide Step;
    var b := s.mux.grantReq;
    assert BankInv(c, s, b);
    ServedIsIssued(c, s, i, b);
    ColumnAccepted(c, s, i);
    BM.IssuedMeaning(c.Bank(), s.worlds[b].s, BankInput(c, s, i, b));
  }

  lemma StartsEmpty(c: Config, states: seq<State>, ins: seq<Input>, b: nat)
    requires IsRun(c, states, ins) && b < c.Nbanks()
    ensures b < |states[0].worlds| && states[0].worlds[b].performed == []
  {
    assert states[0].worlds[b] == BM.Start(c.Bank());
  }

  /** A cycle before `n` in which the bank issues its `i`-th request. */
  ghost predicate IssuedIn(c: Config, states: seq<State>, b: nat, i: nat, n: nat, k: nat) {
    k < n && k < |states| && Issues(c, states[k], b, i)
  }

  lemma {:induction false} IssueExists(c: Config, states: seq<State>, ins: seq<Input>, b: nat, i: nat, n: nat)
    returns (k: nat)
    requires IsRun(c, states, ins) && n <= |ins| && b < c.Nbanks() && b < |states[n].worlds|
    requires i < |states[n].worlds[b].performed|
    ensures IssuedIn(c, states, b, i, n, k)
    decreases n
  {
    hide Initial, Step, ReadIssued, WriteIssued;
    StartsEmpty(c, states, ins, b);
    RunIsWellFormed(c, states, ins, n - 1);
    RunMoves(c, states, ins, n - 1, b);
    if i < |states[n - 1].worlds[b].performed| {
      k := IssueExists(c, states, ins, b, i, n - 1);
    } else {
      k := n - 1;
    }
  }

  /** Every accepted request below the performed count has an issue cycle, and by `IssuesInOrder` only one. */
  ghost function IssueCycle(c: Config, states: seq<State>, ins: seq<Input>, b: nat, i: nat, n: nat): (k: nat)
    requires IsRun(c, states, ins) && n <= |ins| && b < c.Nbanks() && b < |states[n].worlds|
    requires i < |states[n].worlds[b].performed|
    ensures IssuedIn(c, states, b, i, n, k)
  {
    IssueFound(c, states, ins, b, i, n);
    var k: nat :| IssuedIn(c, states, b, i, n, k);
    k
  }

  lemma IssueFound(c: Config, states: seq<State>, ins: seq<Input>, b: nat, i: nat, n: nat)
    requires IsRun(c, states, ins) && n <= |ins| && b < c.Nbanks() && b < |states[n].worlds|
    requires i < |states[n].worlds[b].performed|
    ensures exists k: nat :: IssuedIn(c, states, b, i, n, k)
  {
    hide IssuedIn;
    var k := IssueExists(c, states, ins, b, i, n);
  }

  /** A bank's commands are issued in the order in which they were accepted, each once. */
  lemma IssuesInOrder(c: Config, states: seq<State>, ins: seq<Input>, b: nat, i: nat, k: nat, j: nat, k': nat)
    requires IsRun(c, states, ins) && k < |ins| && k' < |ins| && Issues(c, states[k], b, i)
    requires Issues(c, states[k'], b, j)
    ensures (i < j <==> k < k') && (i == j <==> k == k')
  {
    hide Initial, Step, ReadIssued, WriteIssued;
    if k < k' {
      HistoriesGrow(c, states, ins, k, k', b);
    } else {
      HistoriesGrow(c, states, ins, k', k, b);
    }
  }

  // Bytes ------------------------------------------------------------------------------------------

  /** The `j`-th accepted request of bank `b` is a write to this address whose data has byte `l` enabled when its master
      is strobed. */
  ghost predicate Stores(c: Config, states: seq<State>, ins: seq<Input>, b: nat, j: nat, address: nat, l: nat, n: nat)
    requires IsRun(c, states, ins) && n <= |ins| && b < c.Nbanks() && b < |states[n].worlds|
    requires j < |states[n].worlds[b].performed| <= |states[n].worlds[b].accepted|
  {
    var r := states[n].worlds[b].accepted[j];
    && r.we && r.address == address
    && var w := WriteOf(c, states, ins, IssueCycle(c, states, ins, b, j, n));
       w.Some? && l < |w.value.we| && l < |w.value.data| && w.value.we[l]
  }

  /** The greatest number below `i` with a property. */
  ghost function LastOf(holds: nat -> bool, i: nat): (j: Option<nat>)
    ensures j.Some? ==> j.value < i && holds(j.value)
    ensures forall j': nat | (j.Some? ==> j.value < j') && j' < i :: !holds(j')
  {
    if i == 0 then None else if holds(i - 1) then Some(i - 1) else LastOf(holds, i - 1)
  }

  /** The last of the first `i` accepted requests that stores this byte. */
  ghost function LastStore(c: Config, states: seq<State>, ins: seq<Input>, b: nat, i: nat, address: nat, l: nat,
                           n: nat): (j: Option<nat>)
    requires IsRun(c, states, ins) && n <= |ins| && b < c.Nbanks() && b < |states[n].worlds|
    requires i <= |states[n].worlds[b].performed| <= |states[n].worlds[b].accepted|
  {
    LastOf((j: nat) => j < |states[n].worlds[b].performed| && Stores(c, states, ins, b, j, address, l, n), i)
  }

  lemma LastStoreIsLast(c: Config, states: seq<State>, ins: seq<Input>, b: nat, i: nat, address: nat, l: nat, n: nat)
    requires IsRun(c, states, ins) && n <= |ins| && b < c.Nbanks() && b < |states[n].worlds|
    requires i <= |states[n].worlds[b].performed| <= |states[n].worlds[b].accepted|
    ensures var j := LastStore(c, states, ins, b, i, address, l, n);
            && (j.Some? ==> j.value < i && Stores(c, states, ins, b, j.value, address, l, n))
            && forall j': nat | (j.Some? ==> j.value < j') && j' < i ::
                 !Stores(c, states, ins, b, j', address, l, n)
  {
    hide Initial, Step, Stores, LastOf;
    var holds := (j: nat) => j < |states[n].worlds[b].performed| && Stores(c, states, ins, b, j, address, l, n);
    forall j: nat | j < i ensures holds(j) == Stores(c, states, ins, b, j, address, l, n) {
    }
  }

  lemma PerformedWithin(c: Config, states: seq<State>, ins: seq<Input>, n: nat, b: nat)
    requires IsRun(c, states, ins) && n <= |ins| && b < c.Nbanks()
    ensures b < |states[n].worlds| && |states[n].worlds[b].performed| <= |states[n].worlds[b].accepted|
  {
    hide Initial, Step;
    RunInv(c, states, ins, n);
    assert BankInv(c, states[n], b);
  }

  /** A request of bank `b` and its native address. */
  lemma NativeOfRequest(c: Config, states: seq<State>, ins: seq<Input>, k: nat)
    requires IsRun(c, states, ins) && k < |ins| && WellFormed(c, states[k])
    requires ReadIssued(c, states[k]) || WriteIssued(c, states[k])
    ensures var b := states[k].mux.grantReq;
            && states[k].worlds[b].s.buffer.Some? && states[k].worlds[b].s.buffer.value.address < Pow2(c.RcaBits())
            && ServedAddress(c, states[k]) == A.AddressOf(c.BankMap(), b, states[k].worlds[b].s.buffer.value.address)
            && ServedAddress(c, states[k]) < A.Addresses(c.BankMap())
  {
    hide Initial, Step, ReadIssued, WriteIssued, A.AddressOf;
    var b := states[k].mux.grantReq;
    RunInv(c, states, ins, k);
    RunCycle(c, states, ins, k);
    RunInRange(c, states, ins, k);
    ServedIsIssued(c, states[k], ins[k], b);
    RequestInRange(c, states[k], b);
    A.CellRoundTrip(c.BankMap(), b, states[k].worlds[b].s.buffer.value.address);
  }

  /** Cycle `k` writes the byte of an address of bank `b` exactly when the request it issues stores it. */
  lemma WritesIsStores(c: Config, states: seq<State>, ins: seq<Input>, b: nat, j: nat, k: nat, address: nat,
                       l: nat, n: nat)
    requires IsRun(c, states, ins) && k < n <= |ins| && b < c.Nbanks() && b < |states[n].worlds|
    requires j < |states[n].worlds[b].performed| <= |states[n].worlds[b].accepted|
    requires Issues(c, states[k], b, j) && address < Pow2(c.RcaBits())
    ensures Stores(c, states, ins, b, j, address, l, n)
       <==> WritesByte(c, states, ins, k, A.AddressOf(c.BankMap(), b, address), l)
  {
    hide Initial, Step, ReadIssued, WriteIssued, A.AddressOf, ServedAddress;
    IssuesInOrder(c, states, ins, b, j, k, j, IssueCycle(c, states, ins, b, j, n));
    IssuedRequest(c, states, ins, k, n, b, j);
    NativeOfRequest(c, states, ins, k);
    var r := states[n].worlds[b].accepted[j];
    if WriteOf(c, states, ins, k).Some? { WriteIsIssued(c, states, ins, k); }
    if WritesByte(c, states, ins, k, A.AddressOf(c.BankMap(), b, address), l) {
      DistinctCells(c, b, r.address, b, address);
    }
  }

  lemma WriteIsIssued(c: Config, states: seq<State>, ins: seq<Input>, k: nat)
    requires WriteOf(c, states, ins, k).Some?
    ensures k < |states| && c.Valid() && WellFormed(c, states[k]) && WriteIssued(c, states[k])
    ensures states[k].worlds[states[k].mux.grantReq].s.buffer.Some?
    ensures WriteOf(c, states, ins, k).value.address == ServedAddress(c, states[k])
  {
  }

  /** The last cycle that writes a byte is the issue cycle of the last accepted request that stores it. */
  lemma LastStoreIsLastWriter(c: Config, states: seq<State>, ins: seq<Input>, b: nat, i: nat, k: nat, address: nat,
                              l: nat, n: nat)
    requires IsRun(c, states, ins) && k < n <= |ins| && Issues(c, states[k], b, i)
    requires b < c.Nbanks() && b < |states[n].worlds|
    requires i < |states[n].worlds[b].performed| <= |states[n].worlds[b].accepted| && address < Pow2(c.RcaBits())
    ensures LastWriter(c, states, ins, k, A.AddressOf(c.BankMap(), b, address), l)
         == match LastStore(c, states, ins, b, i, address, l, n)
            case Some(j) => Some(IssueCycle(c, states, ins, b, j, n))
            case None => None
  {
    hide Initial, Step, Issues, Stores, WritesByte, A.AddressOf, LastWriter, LastStore;
    var a := A.AddressOf(c.BankMap(), b, address);
    var w, j := LastWriter(c, states, ins, k, a, l), LastStore(c, states, ins, b, i, address, l, n);
    LastWriterIsLast(c, states, ins, k, a, l);
    LastStoreIsLast(c, states, ins, b, i, address, l, n);
    if j.Some? {
      var kj := IssueCycle(c, states, ins, b, j.value, n);
      StoreIsWrite(c, states, ins, b, j.value, i, k, address, l, n);
    }
    if w.Some? {
      var jw := WriteIsStore(c, states, ins, b, i, k, w.value, address, l, n);
      if j.Some? { IssuesInOrder(c, states, ins, b, jw, w.value, j.value, IssueCycle(c, states, ins, b, j.value, n)); }
    }
  }

  /** A store before the `i`-th request is a write before its cycle. */
  lemma StoreIsWrite(c: Config, states: seq<State>, ins: seq<Input>, b: nat, j: nat, i: nat, k: nat, address: nat,
                     l: nat, n: nat)
    requires IsRun(c, states, ins) && k < n <= |ins| && Issues(c, states[k], b, i) && b < |states[n].worlds|
    requires j < i < |states[n].worlds[b].performed| <= |states[n].worlds[b].accepted| && address < Pow2(c.RcaBits())
    requires Stores(c, states, ins, b, j, address, l, n)
    ensures var kj := IssueCycle(c, states, ins, b, j, n);
            kj < k && WritesByte(c, states, ins, kj, A.AddressOf(c.BankMap(), b, address), l)
  {
    hide Initial, Step, ReadIssued, WriteIssued, Stores, WritesByte, A.AddressOf;
    var kj := IssueCycle(c, states, ins, b, j, n);
    IssuesInOrder(c, states, ins, b, j, kj, i, k);
    WritesIsStores(c, states, ins, b, j, kj, address, l, n);
  }

  /** A write of the byte before the cycle of the `i`-th request is a store before that request. */
  lemma WriteIsStore(c: Config, states: seq<State>, ins: seq<Input>, b: nat, i: nat, k: nat, kw: nat, address: nat,
                     l: nat, n: nat) returns (j: nat)
    requires IsRun(c, states, ins) && kw < k < n <= |ins| && Issues(c, states[k], b, i) && b < |states[n].worlds|
    requires i < |states[n].worlds[b].performed| <= |states[n].worlds[b].accepted| && address < Pow2(c.RcaBits())
    requires WritesByte(c, states, ins, kw, A.AddressOf(c.BankMap(), b, address), l)
    ensures j < i && kw == IssueCycle(c, states, ins, b, j, n) && Stores(c, states, ins, b, j, address, l, n)
  {
    hide Initial, Step, ReadIssued, WriteIssued, Stores, A.AddressOf, ServedAddress;
    WriteIsIssued(c, states, ins, kw);
    NativeOfRequest(c, states, ins, kw);
    var g := states[kw].mux.grantReq;
    DistinctCells(c, g, states[kw].worlds[g].s.buffer.value.address, b, address);
    j := |states[kw].worlds[b].performed|;
    IssuesInOrder(c, states, ins, b, j, kw, i, k);
    IssuesInOrder(c, states, ins, b, j, kw, j, IssueCycle(c, states, ins, b, j, n));
    WritesIsStores(c, states, ins, b, j, kw, address, l, n);
  }

  // Read strobes -----------------------------------------------------------------------------------

  /** What byte `l` of the answer to the `i`-th accepted request of bank `b` should be: the data of the last accepted
      write before it, in that bank, to the same native address with the byte enabled, or the initial image's. */
  ghost function AcceptedByte(c: Config, states: seq<State>, ins: seq<Input>, b: nat, i: nat, l: nat,
                              n: nat): Option<bv8>
    requires IsRun(c, states, ins) && n <= |ins| && b < c.Nbanks() && b < |states[n].worlds|
    requires i < |states[n].worlds[b].performed| <= |states[n].worlds[b].accepted|
  {
    RunIsWellFormed(c, states, ins, 0);
    var r := states[n].worlds[b].accepted[i].address;
    LastStoreIsLast(c, states, ins, b, i, r, l, n);
    match LastStore(c, states, ins, b, i, r, l, n)
    case Some(j) => Some(WriteOf(c, states, ins, IssueCycle(c, states, ins, b, j, n)).value.data[l])
    case None => ImageByte(c, states[0], A.AddressOf(c.BankMap(), b, r), l)
  }

  /** A byte of the memory images by native address. */
  ghost function ImageByte(c: Config, s: State, a: nat, l: nat): Option<bv8>
    requires c.Valid() && WellFormed(c, s)
  {
    if a < A.Addresses(c.BankMap()) && l < |Image(c, s)[a]| then Some(Image(c, s)[a][l]) else None
  }

  /** Every accepted write before a read is issued has had its data by then. */
  lemma EarlierWritesSupplied(c: Config, states: seq<State>, ins: seq<Input>, b: nat, j: nat, k: nat, n: nat)
    requires IsRun(c, states, ins) && LatencyFits(c) && k < n <= |ins| && b < c.Nbanks() && b < |states[n].worlds|
    requires WellFormed(c, states[k]) && ReadIssued(c, states[k])
    requires j < |states[n].worlds[b].performed| <= |states[n].worlds[b].accepted|
    requires states[n].worlds[b].accepted[j].we && IssueCycle(c, states, ins, b, j, n) < k
    ensures WriteOf(c, states, ins, IssueCycle(c, states, ins, b, j, n)).Some?
  {
    hide Initial, Step, ReadIssued, WriteIssued;
    var kj := IssueCycle(c, states, ins, b, j, n);
    IssuedRequest(c, states, ins, kj, n, b, j);
    ReadIsLate(c, states, ins, k);
    WriteDistance(c, states, ins, kj, k);
    DataInRun(c, states, ins, kj);
  }

  lemma AllSupplied(c: Config, states: seq<State>, ins: seq<Input>, b: nat, i: nat, k: nat, n: nat)
    requires IsRun(c, states, ins) && LatencyFits(c) && k < n <= |ins| && b < c.Nbanks() && b < |states[n].worlds|
    requires i < |states[n].worlds[b].performed| <= |states[n].worlds[b].accepted|
    requires Issues(c, states[k], b, i) && ReadIssued(c, states[k])
    ensures WritesSupplied(c, states, ins, b, i, n)
  {
    hide Initial, Step, ReadIssued, WriteIssued, WriteOf, LatencyFits;
    forall j: nat | j < i && states[n].worlds[b].accepted[j].we
      ensures WriteOf(c, states, ins, IssueCycle(c, states, ins, b, j, n)).Some?
    {
      IssuesInOrder(c, states, ins, b, j, IssueCycle(c, states, ins, b, j, n), i, k);
      EarlierWritesSupplied(c, states, ins, b, j, k, n);
    }
  }

  lemma DataInRun(c: Config, states: seq<State>, ins: seq<Input>, k: nat)
    requires IsRun(c, states, ins) && k + 1 + c.writeLatency < |ins| && WellFormed(c, states[k])
    requires WriteIssued(c, states[k])
    ensures WriteOf(c, states, ins, k).Some?
  {
    hide Initial, Step, WriteIssued;
    RunInv(c, states, ins, k);
    RunCycle(c, states, ins, k);
    RunCycle(c, states, ins, k + 1 + c.writeLatency);
    ServedIsIssued(c, states[k], ins[k], states[k].mux.grantReq);
  }

  /** The answer to master `m` in cycle `n` belongs to the `i`-th request that bank `b` accepted: that request is a
      read, it is issued in cycle `k`, it is the next of the master's accepted commands, the writes accepted before it
      have all been supplied with data, and every byte of the bus is the last accepted one. */
  ghost predicate Answers(c: Config, states: seq<State>, ins: seq<Input>, m: nat, n: nat, k: nat, b: nat, i: nat) {
    && IsRun(c, states, ins) && k < n <= |ins| && m < c.nmasters && b < c.Nbanks() && WellFormed(c, states[n])
    && Issues(c, states[k], b, i) && i < |states[n].worlds[b].performed| <= |states[n].worlds[b].accepted|
    && var r := states[n].worlds[b].accepted[i];
       && !r.we && NextOf(c, states, ins, m, k, n, NativeOf(c, b, r))
       && WritesSupplied(c, states, ins, b, i, n) && BytesAccepted(c, states, ins, b, i, n)
  }

  /** Every write accepted before the `i`-th request has had its data. */
  ghost predicate WritesSupplied(c: Config, states: seq<State>, ins: seq<Input>, b: nat, i: nat, n: nat)
    requires IsRun(c, states, ins) && n <= |ins| && b < c.Nbanks() && b < |states[n].worlds|
    requires i < |states[n].worlds[b].performed| <= |states[n].worlds[b].accepted|
  {
    forall j: nat | j < i && states[n].worlds[b].accepted[j].we ::
      WriteOf(c, states, ins, IssueCycle(c, states, ins, b, j, n)).Some?
  }

  /** The bus carries the accepted bytes. */
  ghost predicate BytesAccepted(c: Config, states: seq<State>, ins: seq<Input>, b: nat, i: nat, n: nat)
    requires IsRun(c, states, ins) && n <= |ins| && b < c.Nbanks() && b < |states[n].worlds| && WellFormed(c, states[n])
    requires i < |states[n].worlds[b].performed| <= |states[n].worlds[b].accepted|
  {
    && |ReadBus(c, states[n])| == c.nbytes
    && forall l | 0 <= l < c.nbytes :: AcceptedByte(c, states, ins, b, i, l, n) == Some(ReadBus(c, states[n])[l])
  }

  /** The command a master is served in cycle `k` is its oldest accepted one that was not served before. */
  ghost predicate NextOf(c: Config, states: seq<State>, ins: seq<Input>, m: nat, k: nat, n: nat, x: Native)
    requires k < n <= |ins| < |states| && m < c.nmasters
  {
    var served := |ServedTo(c, states, m, k)|;
    served < |AcceptedBy(c, states, ins, m, n)| && AcceptedBy(c, states, ins, m, n)[served] == x
  }

  lemma {:induction false} AcceptedGrows(c: Config, states: seq<State>, ins: seq<Input>, m: nat, k: nat, n: nat)
    requires k <= n <= |ins| < |states| && m < c.nmasters
    ensures AcceptedBy(c, states, ins, m, k) <= AcceptedBy(c, states, ins, m, n)
    decreases n
  {
    if k < n { AcceptedGrows(c, states, ins, m, k, n - 1); }
  }

  lemma ServedIsNext(c: Config, states: seq<State>, ins: seq<Input>, m: nat, k: nat, n: nat, b: nat, i: nat)
    requires IsRun(c, states, ins) && k < n <= |ins| && m < c.nmasters && Issues(c, states[k], b, i)
    requires WellFormed(c, states[n]) && i < |states[n].worlds[b].accepted| && Owner(states[k]) == m
    requires states[k].worlds[b].s.buffer == Some(states[n].worlds[b].accepted[i])
    ensures NextOf(c, states, ins, m, k, n, NativeOf(c, b, states[n].worlds[b].accepted[i]))
  {
    hide Initial, Step, ReadIssued, WriteIssued, NativeOf, AcceptedBy;
    MasterServedInOrder(c, states, ins, m, k + 1);
    AcceptedGrows(c, states, ins, m, k + 1, n);
    assert ServedTo(c, states, m, k + 1)
        == ServedTo(c, states, m, k) + [NativeOf(c, b, states[n].worlds[b].accepted[i])];
  }

  /** What the reference memory holds at the address of an issued request, in terms of the accepted writes. */
  lemma FlatIsAccepted(c: Config, states: seq<State>, ins: seq<Input>, b: nat, i: nat, k: nat, l: nat, n: nat)
    requires IsRun(c, states, ins) && k < n <= |ins| && Issues(c, states[k], b, i) && b < c.Nbanks()
    requires b < |states[n].worlds| && i < |states[n].worlds[b].performed| <= |states[n].worlds[b].accepted|
    requires l < c.nbytes
    requires states[k].worlds[b].s.buffer == Some(states[n].worlds[b].accepted[i])
    ensures WellFormed(c, states[0])
    ensures var a := A.AddressOf(c.BankMap(), b, states[n].worlds[b].accepted[i].address);
            && a < A.Addresses(c.BankMap()) && l < |Flat(c, states, ins, k)[a]|
            && AcceptedByte(c, states, ins, b, i, l, n) == Some(Flat(c, states, ins, k)[a][l])
  {
    hide Initial, Step, ReadIssued, WriteIssued, A.AddressOf, Flat, WriteOf, LastWriter, LastStore, Image,
         ServedAddress;
    var r := states[n].worlds[b].accepted[i].address;
    RunIsWellFormed(c, states, ins, 0);
    NativeOfRequest(c, states, ins, k);
    LastStoreIsLastWriter(c, states, ins, b, i, k, r, l, n);
    LastWriteWins(c, states, ins, k, A.AddressOf(c.BankMap(), b, r), l);
  }

  lemma BusWidth(c: Config, s: State)
    requires c.Valid() && WellFormed(c, s)
    ensures |ReadBus(c, s)| == c.nbytes
  {
  }

  /** End to end: whenever a master's read strobe is up, the answer is that of its oldest unanswered read, and every
      byte of it is the one last accepted, by the bank that answers, for that native address. */
  lemma ReadsAnswerAccepted(c: Config, states: seq<State>, ins: seq<Input>, m: nat, n: nat)
    requires IsRun(c, states, ins) && LatencyFits(c) && n <= |ins| && m < c.nmasters && WellFormed(c, states[n])
    requires X.RdataValid(c.Crossbar(), states[n].xbar, m)
    ensures c.readLatency < n && var k := n - 1 - c.readLatency;
            && states[k].mux.grantReq < |states[k].worlds|
            && Answers(c, states, ins, m, n, k, states[k].mux.grantReq,
               |states[k].worlds[states[k].mux.grantReq].performed|)
  {
    hide Initial, Step, ReadIssued, WriteIssued, X.RdataValid, Flat, ReadBus, ServedAddress, NextOf, LatencyFits,
         AcceptedByte, WritesSupplied;
    ReadsReturnMemory(c, states, ins, m, n);
    var k := n - 1 - c.readLatency;
    var b := states[k].mux.grantReq;
    var i := |states[k].worlds[b].performed|;
    HistoriesGrow(c, states, ins, k, n, b);
    PerformedWithin(c, states, ins, n, b);
    IssuedRequest(c, states, ins, k, n, b, i);
    ServedIsNext(c, states, ins, m, k, n, b, i);
    NativeOfRequest(c, states, ins, k);
    RunCycle(c, states, ins, k);
    RunInv(c, states, ins, k);
    DirectionIssued(c, states[k], ins[k]);
    AllSupplied(c, states, ins, b, i, k, n);
    BusWidth(c, states[n]);
    forall l | 0 <= l < c.nbytes ensures AcceptedByte(c, states, ins, b, i, l, n) == Some(ReadBus(c, states[n])[l]) {
      FlatIsAccepted(c, states, ins, b, i, k, l, n);
    }
    assert BytesAccepted(c, states, ins, b, i, n);
  }

  // Write strobes ----------------------------------------------------------------------------------

  /** The write strobe of master `m` in cycle `n` belongs to the `i`-th request that bank `b` accepted: that request is
      a write, it was issued in cycle `k`, it is the next of the master's accepted commands, and what the master
      supplies is on the data bus and goes to that command's native address. */
  ghost predicate Takes(c: Config, states: seq<State>, ins: seq<Input>, m: nat, n: nat, k: nat, b: nat, i: nat) {
    && IsRun(c, states, ins) && k < n <= |ins| && m < c.nmasters && b < c.Nbanks() && WellFormed(c, states[n])
    && Issues(c, states[k], b, i) && i < |states[n].worlds[b].accepted|
    && var r := states[n].worlds[b].accepted[i];
       && r.we && NextOf(c, states, ins, m, k, n, NativeOf(c, b, r))
       && (n < |ins| ==>
             && Fits(c, states[n], ins[n]) && BusData(c, states[n], ins[n]) == (ins[n][m].data, ins[n][m].we)
             && WriteOf(c, states, ins, k)
             == Some(Write(A.AddressOf(c.BankMap(), b, r.address), ins[n][m].data, ins[n][m].we)))
  }

  /** Whenever a master's write strobe is up, the data asked for is that of its oldest accepted command not served
      before, a write at a known index of its bank. */
  lemma WritesTakeAccepted(c: Config, states: seq<State>, ins: seq<Input>, m: nat, n: nat)
    requires IsRun(c, states, ins) && n <= |ins| && m < c.nmasters && WellFormed(c, states[n])
    requires X.WdataReady(c.Crossbar(), states[n].xbar, m)
    ensures c.writeLatency < n && var k := n - 1 - c.writeLatency;
            && states[k].mux.grantReq < |states[k].worlds|
            && Takes(c, states, ins, m, n, k, states[k].mux.grantReq,
               |states[k].worlds[states[k].mux.grantReq].performed|)
  {
    hide Initial, Step, ReadIssued, WriteIssued, X.WdataReady, WriteOf, ServedAddress, NextOf, BusData, A.AddressOf;
    WriteStrobes(c, states, ins, m, n);
    var k := n - 1 - c.writeLatency;
    var b := states[k].mux.grantReq;
    var i := |states[k].worlds[b].performed|;
    IssuedRequest(c, states, ins, k, n, b, i);
    ServedIsNext(c, states, ins, m, k, n, b, i);
    NativeOfRequest(c, states, ins, k);
    if n < |ins| {
      DataAt(c, states, ins, n);
      SuppliedWrite(c, states, ins, k);
    }
  }

  /** The write issued in cycle `k`, once supplied. */
  lemma SuppliedWrite(c: Config, states: seq<State>, ins: seq<Input>, k: nat)
    requires IsRun(c, states, ins) && k + 1 + c.writeLatency < |ins| && WellFormed(c, states[k])
    requires WriteIssued(c, states[k])
    ensures var n := k + 1 + c.writeLatency;
            && Owner(states[k]) < |ins[n]| && states[k].worlds[states[k].mux.grantReq].s.buffer.Some?
            && WriteOf(c, states, ins, k)
            == Some(Write(ServedAddress(c, states[k]), ins[n][Owner(states[k])].data, ins[n][Owner(states[k])].we))
  {
    hide Initial, Step, WriteIssued, ServedAddress;
    DataInRun(c, states, ins, k);
  }

  /** Every accepted write that has been performed asks for its data once, `writeLatency + 1` cycles after its issue. */
  lemma AcceptedWritesAreStrobed(c: Config, states: seq<State>, ins: seq<Input>, b: nat, i: nat, n: nat)
    returns (k: nat)
    requires IsRun(c, states, ins) && n <= |ins| && b < c.Nbanks() && b < |states[n].worlds|
    requires i < |states[n].worlds[b].performed| <= |states[n].worlds[b].accepted| && states[n].worlds[b].accepted[i].we
    ensures k < n && Issues(c, states[k], b, i)
    ensures var strobed := k + 1 + c.writeLatency;
            strobed <= |ins| ==>
              && WellFormed(c, states[strobed]) && Owner(states[k]) < c.nmasters
              && X.WdataReady(c.Crossbar(), states[strobed].xbar, Owner(states[k]))
    ensures forall k': nat | k' < n && Issues(c, states[k'], b, i) :: k' == k
  {
    hide Initial, Step, ReadIssued, WriteIssued, X.WdataReady, IssuedIn;
    k := IssueCycle(c, states, ins, b, i, n);
    IssuedInMeans(c, states, b, i, n, k);
    forall k': nat | k' < n && Issues(c, states[k'], b, i) ensures k' == k {
      IssuesInOrder(c, states, ins, b, i, k, i, k');
    }
    if k + 1 + c.writeLatency <= |ins| {
      IssuedRequest(c, states, ins, k, n, b, i);
      OwnerInRange(c, states, ins, k);
      WriteStrobes(c, states, ins, Owner(states[k]), k + 1 + c.writeLatency);
    }
  }

  lemma IssuedInMeans(c: Config, states: seq<State>, b: nat, i: nat, n: nat, k: nat)
    requires IssuedIn(c, states, b, i, n, k)
    ensures k < n && k < |states| && Issues(c, states[k], b, i)
  {
  }

  lemma OwnerInRange(c: Config, states: seq<State>, ins: seq<Input>, k: nat)
    requires IsRun(c, states, ins) && k < |ins| && WellFormed(c, states[k])
    requires ReadIssued(c, states[k]) || WriteIssued(c, states[k])
    ensures states[k].mux.grantReq < |states[k].xbar.grants| && Owner(states[k]) < c.nmasters
  {
    hide Initial, Step, ReadIssued, WriteIssued;
    RunInv(c, states, ins, k);
    RunCycle(c, states, ins, k);
    ServedIsIssued(c, states[k], ins[k], states[k].mux.grantReq);
  }
}
