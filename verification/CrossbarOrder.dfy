/** Ownership of banks by masters, and the order in which each master is served, on every run. */
module CrossbarOrder {
  import opened Common
  import opened Runs
  import opened Controllers
  import opened ControllerSafety
  import opened ControllerTiming
  import A = AddressPath
  import BM = BankMachines
  import M = Multiplexers
  import P = PhyModels
  import R = Refreshers
  import X = Crossbars

  /** A command at its native address. */
  datatype Native = Native(we: bool, address: nat)

  function NativeOf(c: Config, b: nat, r: BM.Request): Native { Native(r.we, A.AddressOf(c.BankMap(), b, r.address)) }

  function Natives(c: Config, b: nat, rs: seq<BM.Request>): (r: seq<Native>)
    ensures |r| == |rs|
  {
    seq(|rs|, k requires 0 <= k < |rs| => NativeOf(c, b, rs[k]))
  }

  lemma NativesConcat(c: Config, b: nat, r: seq<BM.Request>, r': seq<BM.Request>)
    ensures Natives(c, b, r + r') == Natives(c, b, r) + Natives(c, b, r')
  {
  }

  predicate Locked(s: State, b: nat)
    requires b < |s.worlds|
  {
    BM.Lock(s.worlds[b].s)
  }

  function Request(c: Config, s: State, i: Input, b: nat): Option<BM.Request>
    requires Fits(c, s, i) && b < c.Nbanks()
  {
    X.BankRequest(c.Crossbar(), s.xbar, Cmds(i), Locks(s), b)
  }

  /** The bank holds or is being offered commands of the master it is granted to. */
  ghost predicate Active(c: Config, s: State, i: Input, b: nat)
    requires Fits(c, s, i) && b < c.Nbanks()
  {
    Locked(s, b) || Request(c, s, i, b).Some?
  }

  /** No master has unfinished commands in two banks. */
  ghost predicate OneBankEach(c: Config, s: State) {
    WellFormed(c, s) &&
    forall b, b' | 0 <= b < c.Nbanks() && 0 <= b' < c.Nbanks() && Locked(s, b) && Locked(s, b') ::
      s.xbar.grants[b] == s.xbar.grants[b'] ==> b == b'
  }

  /** A bank is offered a command only while its master holds no other bank. */
  lemma OthersUnlocked(c: Config, s: State, i: Input, b: nat, b': nat)
    requires Fits(c, s, i) && b < c.Nbanks() && b' < c.Nbanks() && Request(c, s, i, b).Some?
    ensures b' != b && s.xbar.grants[b'] == s.xbar.grants[b] ==> !Locked(s, b')
  {
    assert !X.Locked(s.xbar, Locks(s), s.xbar.grants[b], b);
    assert Locks(s)[b'] == Locked(s, b');
  }

  lemma ActiveOnce(c: Config, s: State, i: Input, b: nat, b': nat)
    requires Fits(c, s, i) && OneBankEach(c, s) && b < c.Nbanks() && b' < c.Nbanks()
    requires Active(c, s, i, b) && Active(c, s, i, b') && s.xbar.grants[b] == s.xbar.grants[b']
    ensures b == b'
  {
    if Request(c, s, i, b).Some? { OthersUnlocked(c, s, i, b, b'); }
    if Request(c, s, i, b').Some? { OthersUnlocked(c, s, i, b', b); }
  }

  /** The crossbar's part of a clock cycle. */
  ghost predicate XbarMoves(c: Config, s: State, i: Input, s': State) {
    && Fits(c, s, i) && WellFormed(c, s')
    && (forall b | 0 <= b < c.Nbanks() ::
          s'.xbar.grants[b] == X.NextBankGrant(c.Crossbar(), s.xbar, Cmds(i), BankSide(c, s), b))
    && (forall b | 0 <= b < c.Nbanks() :: s'.worlds[b].s == BM.Step(c.Bank(), s.worlds[b].s, BankInput(c, s, i, b)))
  }

  lemma FollowsXbar(c: Config, s: State, i: Input, s': State)
    requires Follows(c, s, i, s')
    ensures XbarMoves(c, s, i, s')
  {
    hide X.NextBankGrant, BankSide, BankInput, BM.Step, M.Step, R.Step, P.Step, BusData;
  }

  /** A bank keeps its master while it holds or is offered commands, and only such a bank can hold any afterwards. */
  lemma GrantStays(c: Config, s: State, i: Input, s': State, b: nat)
    requires XbarMoves(c, s, i, s') && b < c.Nbanks()
    ensures Active(c, s, i, b) ==> s'.xbar.grants[b] == s.xbar.grants[b]
    ensures Locked(s', b) ==> Active(c, s, i, b)
  {
  }

  lemma OneBankStep(c: Config, s: State, i: Input, s': State)
    requires OneBankEach(c, s) && XbarMoves(c, s, i, s')
    ensures OneBankEach(c, s')
  {
    forall b, b' | 0 <= b < c.Nbanks() && 0 <= b' < c.Nbanks() && Locked(s', b) && Locked(s', b')
      ensures s'.xbar.grants[b] == s'.xbar.grants[b'] ==> b == b'
    {
      GrantStays(c, s, i, s', b);
      GrantStays(c, s, i, s', b');
      if s.xbar.grants[b] == s.xbar.grants[b'] { ActiveOnce(c, s, i, b, b'); }
    }
  }

  // Masters ----------------------------------------------------------------------------------------

  /** The command accepted from a master in this cycle. */
  function Accepts(c: Config, s: State, i: Input, m: nat): seq<Native>
    requires Fits(c, s, i) && m < c.nmasters
  {
    if i[m].cmd.valid && X.MasterReady(c.Crossbar(), s.xbar, Cmds(i), BankSide(c, s), m) then
      [Native(i[m].cmd.we, i[m].cmd.address)]
    else []
  }

  /** The command of a master whose column command is issued in this cycle. */
  function Serves(c: Config, s: State, m: nat): seq<Native>
    requires c.Valid() && WellFormed(c, s) && m < c.nmasters
  {
    var b := s.mux.grantReq;
    if (ReadIssued(c, s) || WriteIssued(c, s)) && s.xbar.grants[b] == m && s.worlds[b].s.buffer.Some? then
      [NativeOf(c, b, s.worlds[b].s.buffer.value)]
    else []
  }

  function Arrives(c: Config, s: State, i: Input, b: nat): seq<BM.Request>
    requires Fits(c, s, i) && b < c.Nbanks()
  {
    if Request(c, s, i, b).Some? && BM.ReqReady(c.Bank(), s.worlds[b].s) then [Request(c, s, i, b).value] else []
  }

  function Leaves(c: Config, s: State, i: Input, b: nat): seq<BM.Request>
    requires Fits(c, s, i) && b < c.Nbanks()
  {
    if BM.Served(c.Bank(), s.worlds[b].s, BankInput(c, s, i, b)) then [s.worlds[b].s.buffer.value] else []
  }

  lemma RequestIsMasters(c: Config, s: State, i: Input, b: nat)
    requires Fits(c, s, i) && b < c.Nbanks() && Request(c, s, i, b).Some?
    ensures var m, r := s.xbar.grants[b], Request(c, s, i, b).value;
            && i[m].cmd.valid && A.BankOf(c.BankMap(), i[m].cmd.address) == b
            && NativeOf(c, b, r) == Native(i[m].cmd.we, i[m].cmd.address)
            && r.address < Pow2(c.RcaBits())
            && X.Selected(c.Crossbar(), s.xbar, Cmds(i), Locks(s), m, b)
  {
    A.AddressRoundTrip(c.BankMap(), i[s.xbar.grants[b]].cmd.address);
  }

  lemma AcceptsFrom(c: Config, s: State, i: Input, m: nat, b: nat)
    requires Fits(c, s, i) && OneBankEach(c, s) && m < c.nmasters && b < c.Nbanks()
    requires s.xbar.grants[b] == m && Active(c, s, i, b)
    ensures Accepts(c, s, i, m) == Natives(c, b, Arrives(c, s, i, b))
  {
    if Request(c, s, i, b).Some? { RequestIsMasters(c, s, i, b); }
    if Accepts(c, s, i, m) != [] {
      var b' :| 0 <= b' < c.Nbanks() && s.xbar.grants[b'] == m
                && X.Selected(c.Crossbar(), s.xbar, Cmds(i), BankSide(c, s).locks, m, b') && BankSide(c, s).readys[b'];
      assert Request(c, s, i, b').Some?;
      ActiveOnce(c, s, i, b, b');
    }
  }

  lemma ServedIsIssued(c: Config, s: State, i: Input, b: nat)
    requires Inv(c, s) && Fits(c, s, i) && b < c.Nbanks()
    ensures BM.Served(c.Bank(), s.worlds[b].s, BankInput(c, s, i, b)) <==>
            ((ReadIssued(c, s) || WriteIssued(c, s)) && s.mux.grantReq == b)
    ensures (ReadIssued(c, s) || WriteIssued(c, s)) && s.mux.grantReq == b ==> s.worlds[b].s.buffer.Some?
  {
    assert BankInv(c, s, b);
    ColumnAccepted(c, s, i);
    ColumnOnlyAccepted(c, s, i, b);
    BM.IssuedMeaning(c.Bank(), s.worlds[b].s, BankInput(c, s, i, b));
    BM.PerformedIsServed(c.Bank(), s.worlds[b], BankInput(c, s, i, b), PreAll(c, s)) by { ContractKept(c, s, i, b); }
  }

  lemma ServesFrom(c: Config, s: State, i: Input, m: nat, b: nat)
    requires Inv(c, s) && Fits(c, s, i) && OneBankEach(c, s) && m < c.nmasters && b < c.Nbanks()
    requires s.xbar.grants[b] == m && Active(c, s, i, b)
    ensures Serves(c, s, m) == Natives(c, b, Leaves(c, s, i, b))
  {
    var g := s.mux.grantReq;
    ServedIsIssued(c, s, i, b);
    ServedIsIssued(c, s, i, g);
    if Serves(c, s, m) != [] { ActiveOnce(c, s, i, b, g); }
  }

  /** A master with no active bank is neither accepted nor served. */
  lemma IdleMaster(c: Config, s: State, i: Input, m: nat)
    requires Inv(c, s) && Fits(c, s, i) && m < c.nmasters
    requires forall b | 0 <= b < c.Nbanks() && s.xbar.grants[b] == m :: !Active(c, s, i, b)
    ensures Accepts(c, s, i, m) == [] && Serves(c, s, m) == []
  {
    ServedIsIssued(c, s, i, s.mux.grantReq);
  }

  /** What a master had accepted is what it was served, then what its bank still holds. */
  ghost predicate InOrder(c: Config, s: State, m: nat, accepted: seq<Native>, served: seq<Native>)
    requires WellFormed(c, s)
  {
    && (forall b | 0 <= b < c.Nbanks() && s.xbar.grants[b] == m && Locked(s, b) ::
          accepted == served + Natives(c, b, BM.Pending(s.worlds[b].s)))
    && ((forall b | 0 <= b < c.Nbanks() && s.xbar.grants[b] == m :: !Locked(s, b)) ==> accepted == served)
  }

  /** A master with an active bank waits for what that bank holds. */
  lemma OrderOfActive(c: Config, s: State, i: Input, m: nat, b: nat, accepted: seq<Native>, served: seq<Native>)
    requires Fits(c, s, i) && OneBankEach(c, s) && InOrder(c, s, m, accepted, served)
    requires m < c.nmasters && b < c.Nbanks() && s.xbar.grants[b] == m && Active(c, s, i, b)
    ensures accepted == served + Natives(c, b, BM.Pending(s.worlds[b].s))
  {
    hide Request, NativeOf;
    if !Locked(s, b) {
      forall b' | 0 <= b' < c.Nbanks() && s.xbar.grants[b'] == m ensures !Locked(s, b') {
        if Locked(s, b') { ActiveOnce(c, s, i, b, b'); }
      }
      assert BM.Pending(s.worlds[b].s) == [];
    }
  }

  lemma ActiveMasterStep(c: Config, s: State, i: Input, s': State, m: nat, b: nat,
                         accepted: seq<Native>, served: seq<Native>)
    requires Inv(c, s) && OneBankEach(c, s) && XbarMoves(c, s, i, s') && InOrder(c, s, m, accepted, served)
    requires m < c.nmasters && b < c.Nbanks() && s.xbar.grants[b] == m && Active(c, s, i, b)
    ensures accepted + Accepts(c, s, i, m) == served + Serves(c, s, m) + Natives(c, b, BM.Pending(s'.worlds[b].s))
  {
    var was, now := BM.Pending(s.worlds[b].s), BM.Pending(s'.worlds[b].s);
    var arrives, leaves := Arrives(c, s, i, b), Leaves(c, s, i, b);
    BM.QueueMoves(c.Bank(), s.worlds[b].s, BankInput(c, s, i, b));
    assert was + arrives == leaves + now;
    AcceptsFrom(c, s, i, m, b);
    ServesFrom(c, s, i, m, b);
    OrderOfActive(c, s, i, m, b, accepted, served);
    NativesConcat(c, b, was, arrives);
    NativesConcat(c, b, leaves, now);
    Regroup(accepted, served, Natives(c, b, was), Natives(c, b, arrives), Natives(c, b, leaves), Natives(c, b, now));
  }

  lemma Regroup<T>(accepted: seq<T>, served: seq<T>, was: seq<T>, arrives: seq<T>, leaves: seq<T>, now: seq<T>)
    requires accepted == served + was && was + arrives == leaves + now
    ensures accepted + arrives == served + leaves + now
  {
    assert served + was + arrives == served + (was + arrives);
    assert served + (leaves + now) == served + leaves + now;
  }

  lemma OrderStep(c: Config, s: State, i: Input, s': State, m: nat, accepted: seq<Native>, served: seq<Native>)
    requires Inv(c, s) && OneBankEach(c, s) && XbarMoves(c, s, i, s') && m < c.nmasters
    requires InOrder(c, s, m, accepted, served)
    ensures InOrder(c, s', m, accepted + Accepts(c, s, i, m), served + Serves(c, s, m))
  {
    if b :| 0 <= b < c.Nbanks() && s.xbar.grants[b] == m && Active(c, s, i, b) {
      ActiveMasterStep(c, s, i, s', m, b, accepted, served);
      GrantStays(c, s, i, s', b);
      forall b' | 0 <= b' < c.Nbanks() && s'.xbar.grants[b'] == m && Locked(s', b') ensures b' == b {
        GrantStays(c, s, i, s', b');
        ActiveOnce(c, s, i, b, b');
      }
    } else {
      IdleMaster(c, s, i, m);
      forall b' | 0 <= b' < c.Nbanks() && s'.xbar.grants[b'] == m ensures !Locked(s', b') {
        GrantStays(c, s, i, s', b');
      }
    }
  }

  // Every run --------------------------------------------------------------------------------------

  /** Commands accepted from a master in the first `n` cycles. */
  ghost function AcceptedBy(c: Config, states: seq<State>, ins: seq<Input>, m: nat, n: nat): seq<Native>
    requires n <= |ins| < |states| && m < c.nmasters
  {
    if n == 0 then [] else
    AcceptedBy(c, states, ins, m, n - 1)
      + if Fits(c, states[n - 1], ins[n - 1]) then Accepts(c, states[n - 1], ins[n - 1], m) else []
  }

  /** A master's commands whose column command was issued in the first `n` cycles. */
  ghost function ServedTo(c: Config, states: seq<State>, m: nat, n: nat): seq<Native>
    requires n < |states| && m < c.nmasters
  {
    if n == 0 then [] else
    ServedTo(c, states, m, n - 1)
      + if c.Valid() && WellFormed(c, states[n - 1]) then Serves(c, states[n - 1], m) else []
  }

  lemma RunOneBank(c: Config, states: seq<State>, ins: seq<Input>, n: nat)
    requires IsRun(c, states, ins) && n <= |ins|
    ensures OneBankEach(c, states[n])
  {
    var inv := (s: State) => OneBankEach(c, s);
    InitiallyUnlocked(c, states[0]);
    forall s: State, i: Input, s': State | inv(s) && Next(c)(s, i, s') ensures inv(s') {
      FollowsXbar(c, s, i, s');
      OneBankStep(c, s, i, s');
    }
    ChainInvariant(Next(c), inv, states, ins, n);
  }

  lemma InitiallyUnlocked(c: Config, s: State)
    requires c.Valid() && Initial(c, s)
    ensures forall b | 0 <= b < c.Nbanks() :: !Locked(s, b)
  {
  }

  ghost predicate OrderAt(c: Config, states: seq<State>, ins: seq<Input>, m: nat, n: nat) {
    && n <= |ins| < |states| && m < c.nmasters && WellFormed(c, states[n])
    && InOrder(c, states[n], m, AcceptedBy(c, states, ins, m, n), ServedTo(c, states, m, n))
  }

  lemma OrderAtStep(c: Config, states: seq<State>, ins: seq<Input>, m: nat, n: nat)
    requires IsRun(c, states, ins) && n < |ins|
    requires OrderAt(c, states, ins, m, n)
    ensures OrderAt(c, states, ins, m, n + 1)
  {
    RunInv(c, states, ins, n);
    RunOneBank(c, states, ins, n);
    RunCycle(c, states, ins, n);
    FollowsXbar(c, states[n], ins[n], states[n + 1]);
    OrderStep(c, states[n], ins[n], states[n + 1], m, AcceptedBy(c, states, ins, m, n), ServedTo(c, states, m, n));
  }

  lemma OrderAtStart(c: Config, states: seq<State>, ins: seq<Input>, m: nat)
    requires IsRun(c, states, ins) && m < c.nmasters
    ensures OrderAt(c, states, ins, m, 0)
  {
    InitiallyUnlocked(c, states[0]);
  }

  lemma RunInOrder(c: Config, states: seq<State>, ins: seq<Input>, m: nat, n: nat)
    requires IsRun(c, states, ins) && n <= |ins| && m < c.nmasters
    ensures OrderAt(c, states, ins, m, n)
  {
    OrderAtStart(c, states, ins, m);
    forall k: nat | k < n && OrderAt(c, states, ins, m, k) ensures OrderAt(c, states, ins, m, k + 1) {
      OrderAtStep(c, states, ins, m, k);
    }
    UpTo((k: nat) => OrderAt(c, states, ins, m, k), n);
  }

  /** Each master is served its accepted commands, in its own order; what is missing waits in a single bank. */
  lemma MasterServedInOrder(c: Config, states: seq<State>, ins: seq<Input>, m: nat, n: nat)
    requires IsRun(c, states, ins) && n <= |ins| && m < c.nmasters
    ensures ServedTo(c, states, m, n) <= AcceptedBy(c, states, ins, m, n)
    ensures |AcceptedBy(c, states, ins, m, n)| - |ServedTo(c, states, m, n)| <= c.depth + 1
  {
    RunInOrder(c, states, ins, m, n);
    RunInv(c, states, ins, n);
    if b :| 0 <= b < c.Nbanks() && states[n].xbar.grants[b] == m && Locked(states[n], b) {
      assert BankInv(c, states[n], b);
    }
  }

  /** A bank's grant never changes while it holds unfinished commands, and no master has any in two banks. */
  lemma GrantsAreStable(c: Config, states: seq<State>, ins: seq<Input>, n: nat, b: nat, b': nat)
    requires IsRun(c, states, ins) && n < |ins| && b < c.Nbanks() && b' < c.Nbanks()
    ensures WellFormed(c, states[n]) && WellFormed(c, states[n + 1])
    ensures Locked(states[n], b) ==> states[n + 1].xbar.grants[b] == states[n].xbar.grants[b]
    ensures b != b' && Locked(states[n], b) && Locked(states[n], b') ==>
              states[n].xbar.grants[b] != states[n].xbar.grants[b']
  {
    RunIsWellFormed(c, states, ins, n);
    RunIsWellFormed(c, states, ins, n + 1);
    RunOneBank(c, states, ins, n);
    RunCycle(c, states, ins, n);
    FollowsXbar(c, states[n], ins[n], states[n + 1]);
    GrantStays(c, states[n], ins[n], states[n + 1], b);
  }
}
