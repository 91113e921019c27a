/** litedram/frontend/adapter.py `LiteDRAMNativePortUpConverter`: groups narrow commands into wide ones. */
module UpConverters {
  import opened Common
  import opened Bits
  import P = PhyModels

  type Word = P.Word

  /** `2 ** chunkBits` narrow words make a wide word; there are `2 ** wideBits` wide addresses. */
  datatype Settings = Settings(chunkBits: pos, wideBits: nat, reverse: bool) {
    function Ratio(): (r: pos) ensures r >= 2 { 2 * Pow2(chunkBits - 1) }
    function Wides(): pos { Pow2(wideBits) }
    function Narrows(): pos { Pow2(wideBits + chunkBits) }
    /** Position of a lane inside a wide word. */
    function Pos(lane: nat): (n: nat)
      requires lane < Ratio()
      ensures n < Ratio()
    {
      if reverse then Ratio() - 1 - lane else lane
    }
  }

  datatype Command = Command(we: bool, address: nat)

  /** A beat of narrow write data with its byte enables. */
  datatype Beat = Beat(data: Word, we: seq<bool>)

  /** A beat of wide write data, lane by lane in the order of the wide word. */
  datatype WideBeat = WideBeat(data: seq<Word>, we: seq<seq<bool>>)

  const Empty := Beat([], [])

  function Blank(p: Settings): WideBeat { WideBeat(seq(p.Ratio(), _ => []), seq(p.Ratio(), _ => [])) }

  datatype Fsm = New | Cmd | Fill | Commit

  datatype State = State(
    fsm: Fsm,
    addr: nat,
    we: bool,
    last: bool,
    count: nat,
    order: seq<nat>,
    chunks: seq<bool>,
    readLock: bool,
    readUnlocked: bool,
    rdataFifo: seq<seq<Word>>,
    rdataCount: nat,
    wdataFifo: seq<Beat>,
    wdataCount: nat,
    wdataWord: WideBeat,
    wdataPending: bool,
    wdataBuffer: Option<WideBeat>)

  function Reset(p: Settings): State {
    State(New, 0, false, false, 0, seq(p.Ratio(), _ => 0), seq(p.Ratio(), _ => false), false, false, [], 0, [], 0,
          Blank(p), false, None)
  }

  ghost predicate WellFormed(p: Settings, s: State) {
    && |s.order| == |s.chunks| == |s.wdataWord.data| == |s.wdataWord.we| == p.Ratio()
    && (forall i | 0 <= i < p.Ratio() :: s.order[i] < p.Ratio())
    && s.wdataCount < p.Ratio() && s.rdataCount < p.Ratio()
  }

  /** Inputs of one cycle: the narrow port's command lines, data beat and `rdata.ready`; the wide port's `cmd.ready`,
      `wdata.ready` and read data. */
  datatype Input = Input(
    valid: bool, cmd: Command, last: bool, flush: bool, wdata: Option<Beat>, rdataReady: bool,
    toReady: bool, toStrobe: bool, toRdata: Option<seq<Word>>)

  // Combinational signals --------------------------------------------------------------------------

  function Lane(p: Settings, address: nat): (l: nat)
    ensures l < p.Ratio()
  {
    To(address, p.chunkBits)
  }

  function WideOf(p: Settings, address: nat): nat { From(address, p.chunkBits) }

  predicate NextCmd(p: Settings, s: State, i: Input)
    requires |s.chunks| == p.Ratio()
  {
    || WideOf(p, s.addr) != WideOf(p, i.cmd.address)
    || s.we != i.cmd.we
    || (i.valid && s.chunks[Lane(p, i.cmd.address)])
    || s.count == p.Ratio() || s.last || i.flush
  }

  /** A narrow command is accepted. */
  predicate Accepts(p: Settings, s: State, i: Input)
    requires |s.chunks| == p.Ratio()
  {
    i.valid && ((s.fsm.New? && !s.readLock) || (s.fsm.Fill? && !NextCmd(p, s, i)))
  }

  /** The wide command is accepted. */
  predicate Sends(s: State, i: Input) { s.fsm.Cmd? && i.toReady }

  predicate WdataReady(p: Settings, s: State) { |s.wdataFifo| < p.Ratio() - 1 }

  predicate WdataAccept(s: State) { s.fsm.Commit? && s.we && !s.wdataPending && s.wdataFifo != [] }

  predicate WdataFinished(s: State) { s.wdataPending && s.wdataBuffer.None? }

  predicate RdataValid(s: State) { s.fsm.Commit? && !s.we && s.rdataFifo != [] }

  predicate RdataFinished(s: State, i: Input) { RdataValid(s) && i.rdataReady && s.rdataCount + 1 == s.count }

  /** The narrow read data presented in this cycle. */
  function RdataWord(p: Settings, s: State): Word
    requires WellFormed(p, s)
  {
    if RdataValid(s) && |s.rdataFifo[0]| == p.Ratio() then s.rdataFifo[0][p.Pos(s.order[s.rdataCount])] else []
  }

  /** The wide port's command and write data. */
  function WideCmd(p: Settings, s: State): Option<Command> {
    if s.fsm.Cmd? then Some(Command(s.we, WideOf(p, s.addr))) else None
  }

  function WideData(s: State): Option<WideBeat> { s.wdataBuffer }

  predicate RwCollision(p: Settings, s: State, i: Input) {
    s.we && i.valid && !i.cmd.we && WideOf(p, s.addr) == WideOf(p, i.cmd.address)
  }

  // Clock edge -------------------------------------------------------------------------------------

  function NextFsm(p: Settings, s: State, i: Input): Fsm
    requires |s.chunks| == p.Ratio()
  {
    match s.fsm
    case New => if !Accepts(p, s, i) then New else if i.cmd.we then Fill else Cmd
    case Cmd => if !i.toReady then Cmd else if s.we then New else Fill
    case Fill => if NextCmd(p, s, i) then Commit else Fill
    case Commit => if !WdataFinished(s) && !RdataFinished(s, i) then Commit else if s.we then Cmd else New
  }

  /** A beat stored into its lane of the wide word. */
  function Store(p: Settings, x: WideBeat, lane: nat, b: Beat): (y: WideBeat)
    requires lane < p.Ratio() && |x.data| == |x.we| == p.Ratio()
    ensures |y.data| == |y.we| == p.Ratio()
  {
    WideBeat(x.data[p.Pos(lane) := b.data], x.we[p.Pos(lane) := b.we])
  }

  function NextOrder(p: Settings, s: State, i: Input): (order: seq<nat>)
    requires WellFormed(p, s)
    ensures |order| == p.Ratio() && forall k | 0 <= k < |order| :: order[k] < p.Ratio()
  {
    if !Accepts(p, s, i) then s.order
    else if s.fsm.New? then s.order[0 := Lane(p, i.cmd.address)]
    else if s.count < p.Ratio() then s.order[s.count := Lane(p, i.cmd.address)]
    else s.order
  }

  function NextChunks(p: Settings, s: State, i: Input): (chunks: seq<bool>)
    requires WellFormed(p, s)
    ensures |chunks| == p.Ratio()
  {
    if !Accepts(p, s, i) then s.chunks
    else if s.fsm.New? then seq(p.Ratio(), l => l == Lane(p, i.cmd.address))
    else s.chunks[Lane(p, i.cmd.address) := true]
  }

  function NextWord(p: Settings, s: State): (x: WideBeat)
    requires WellFormed(p, s)
    ensures |x.data| == |x.we| == p.Ratio()
  {
    if WdataFinished(s) then Blank(p)
    else if WdataAccept(s) then Store(p, s.wdataWord, s.order[s.wdataCount], s.wdataFifo[0])
    else s.wdataWord
  }

  /** The next value of a lane counter, as wide as a lane number. */
  function Increment(p: Settings, n: nat): (r: nat)
    requires n < p.Ratio()
    ensures r < p.Ratio()
  {
    if n + 1 == p.Ratio() then 0 else n + 1
  }

  /** The first command of a group is accepted. */
  predicate Starts(p: Settings, s: State, i: Input)
    requires |s.chunks| == p.Ratio()
  {
    Accepts(p, s, i) && s.fsm.New?
  }

  function NextLast(p: Settings, s: State, i: Input): bool
    requires |s.chunks| == p.Ratio()
  {
    if Starts(p, s, i) || (s.fsm.Fill? && !NextCmd(p, s, i)) then i.last else s.last
  }

  function NextCount(p: Settings, s: State, i: Input): nat
    requires |s.chunks| == p.Ratio()
  {
    if Starts(p, s, i) then 1 else if Accepts(p, s, i) then s.count + 1 else s.count
  }

  function NextLock(p: Settings, s: State, i: Input): bool {
    if WdataFinished(s) then false
    else if RwCollision(p, s, i) && !s.fsm.Cmd? && !s.readUnlocked then true
    else s.readLock
  }

  function NextRdataFifo(p: Settings, s: State, i: Input): seq<seq<Word>> {
    (if RdataFinished(s, i) then s.rdataFifo[1..] else s.rdataFifo)
      + (if i.toRdata.Some? && |s.rdataFifo| < p.Ratio() - 1 then [i.toRdata.value] else [])
  }

  function NextRdataCount(p: Settings, s: State, i: Input): (r: nat)
    requires s.rdataCount < p.Ratio()
    ensures r < p.Ratio()
  {
    if RdataFinished(s, i) then 0
    else if RdataValid(s) && i.rdataReady then Increment(p, s.rdataCount)
    else s.rdataCount
  }

  function NextWdataFifo(p: Settings, s: State, i: Input): seq<Beat> {
    (if WdataAccept(s) then s.wdataFifo[1..] else s.wdataFifo)
      + (if i.wdata.Some? && WdataReady(p, s) then [i.wdata.value] else [])
  }

  /** The beat being stored is the group's last. */
  predicate LastBeat(s: State) { s.wdataCount + 1 == s.count }

  function NextWdataCount(p: Settings, s: State): (r: nat)
    requires s.wdataCount < p.Ratio()
    ensures r < p.Ratio()
  {
    if WdataFinished(s) then 0
    else if WdataAccept(s) && !LastBeat(s) then Increment(p, s.wdataCount)
    else s.wdataCount
  }

  predicate NextPending(s: State) { !WdataFinished(s) && ((WdataAccept(s) && LastBeat(s)) || s.wdataPending) }

  function NextBuffer(s: State, i: Input): Option<WideBeat> {
    if WdataFinished(s) then Some(s.wdataWord) else if i.toStrobe then None else s.wdataBuffer
  }

  function Step(p: Settings, s: State, i: Input): (s': State)
    requires WellFormed(p, s)
    ensures WellFormed(p, s')
  {
    State(
      NextFsm(p, s, i),
      if Starts(p, s, i) then i.cmd.address else s.addr,
      if Starts(p, s, i) then i.cmd.we else s.we,
      NextLast(p, s, i),
      NextCount(p, s, i),
      NextOrder(p, s, i),
      NextChunks(p, s, i),
      NextLock(p, s, i),
      !Accepts(p, s, i) && (WdataFinished(s) || s.readUnlocked),
      NextRdataFifo(p, s, i),
      NextRdataCount(p, s, i),
      NextWdataFifo(p, s, i),
      NextWdataCount(p, s),
      NextWord(p, s),
      NextPending(s),
      NextBuffer(s, i))
  }

  // Memories ---------------------------------------------------------------------------------------

  /** The narrow words of a wide memory, by narrow address. */
  function Flatten(p: Settings, wide: seq<seq<Word>>): (flat: seq<Word>)
    requires WideOk(p, wide)
    ensures |flat| == p.Narrows()
  {
    seq(p.Narrows(), a requires 0 <= a < p.Narrows() && WideOk(p, wide) =>
      FromBound(a, p.chunkBits, p.wideBits);
      wide[WideOf(p, a)][p.Pos(Lane(p, a))])
  }

  ghost predicate WideOk(p: Settings, wide: seq<seq<Word>>) {
    |wide| == p.Wides() && forall k | 0 <= k < |wide| :: |wide[k]| == p.Ratio()
  }

  /** Byte-masked write of a wide word. */
  function Put(p: Settings, wide: seq<seq<Word>>, address: nat, x: WideBeat): (r: seq<seq<Word>>)
    requires address < |wide| && |wide[address]| == |x.data| == |x.we|
    ensures |r| == |wide| && forall k | 0 <= k < |r| :: |r[k]| == |wide[k]|
  {
    wide[address := seq(|x.data|, n
      requires 0 <= n < |x.data| && address < |wide| && |wide[address]| == |x.data| == |x.we| =>
      P.Merge(wide[address][n], x.data[n], x.we[n]))]
  }

  predicate BeatOk(p: Settings, x: WideBeat) { |x.data| == |x.we| == p.Ratio() }

  lemma PutBlank(p: Settings, wide: seq<seq<Word>>, address: nat)
    requires WideOk(p, wide) && address < p.Wides()
    ensures Put(p, wide, address, Blank(p)) == wide
  {
    var r := Put(p, wide, address, Blank(p));
    forall n | 0 <= n < p.Ratio() ensures r[address][n] == wide[address][n] {
      assert P.Merge(wide[address][n], [], []) == wide[address][n];
    }
    assert r[address] == wide[address];
  }

  predicate Silent(we: seq<bool>) { forall k | 0 <= k < |we| :: !we[k] }

  lemma MergeSilent(was: Word, data: Word, we: seq<bool>)
    requires Silent(we)
    ensures P.Merge(was, data, we) == was
  {
  }

  lemma Composed(p: Settings, a: nat, b: nat)
    ensures WideOf(p, a) == WideOf(p, b) && Lane(p, a) == Lane(p, b) <==> a == b
  {
    CatSlices(a, p.chunkBits);
    CatSlices(b, p.chunkBits);
  }

  /** Storing a beat into a silent lane of a wide word is a narrow write. */
  lemma StoreIsWrite(p: Settings, wide: seq<seq<Word>>, a: nat, x: WideBeat, b: Beat)
    requires WideOk(p, wide) && a < p.Narrows() && BeatOk(p, x)
    requires WideOf(p, a) < p.Wides() && Silent(x.we[p.Pos(Lane(p, a))])
    ensures var flat := Flatten(p, Put(p, wide, WideOf(p, a), x));
            Flatten(p, Put(p, wide, WideOf(p, a), Store(p, x, Lane(p, a), b)))
                == flat[a := P.Merge(flat[a], b.data, b.we)]
  {
    var flat := Flatten(p, Put(p, wide, WideOf(p, a), x));
    var flat' := Flatten(p, Put(p, wide, WideOf(p, a), Store(p, x, Lane(p, a), b)));
    forall k | 0 <= k < p.Narrows() ensures flat'[k] == flat[a := P.Merge(flat[a], b.data, b.we)][k] {
      StoredWord(p, wide, a, x, b, k);
    }
  }

  lemma FlatAt(p: Settings, wide: seq<seq<Word>>, address: nat, x: WideBeat, k: nat)
    requires WideOk(p, wide) && address < p.Wides() && BeatOk(p, x) && k < p.Narrows() && WideOf(p, k) < p.Wides()
    ensures var was, n := wide[WideOf(p, k)][p.Pos(Lane(p, k))], p.Pos(Lane(p, k));
            Flatten(p, Put(p, wide, address, x))[k]
            == if WideOf(p, k) == address then P.Merge(was, x.data[n], x.we[n]) else was
  {
    hide P.Merge;
  }

  lemma StoredWord(p: Settings, wide: seq<seq<Word>>, a: nat, x: WideBeat, b: Beat, k: nat)
    requires WideOk(p, wide) && a < p.Narrows() && BeatOk(p, x) && k < p.Narrows()
    requires WideOf(p, a) < p.Wides() && Silent(x.we[p.Pos(Lane(p, a))])
    ensures var flat := Flatten(p, Put(p, wide, WideOf(p, a), x));
            Flatten(p, Put(p, wide, WideOf(p, a), Store(p, x, Lane(p, a), b)))[k]
            == if k == a then P.Merge(flat[a], b.data, b.we) else flat[k]
  {
    hide P.Merge, Flatten;
    Composed(p, a, k);
    FromBound(k, p.chunkBits, p.wideBits);
    FlatAt(p, wide, WideOf(p, a), x, k);
    FlatAt(p, wide, WideOf(p, a), x, a);
    FlatAt(p, wide, WideOf(p, a), Store(p, x, Lane(p, a), b), k);
    MergeSilent(wide[WideOf(p, a)][p.Pos(Lane(p, a))], x.data[p.Pos(Lane(p, a))], x.we[p.Pos(Lane(p, a))]);
  }

  lemma FlatCell(p: Settings, wide: seq<seq<Word>>, a: nat)
    requires WideOk(p, wide) && a < p.Narrows() && WideOf(p, a) < p.Wides()
    ensures Flatten(p, wide)[a] == wide[WideOf(p, a)][p.Pos(Lane(p, a))]
  {
  }

  // The clocked object -----------------------------------------------------------------------------

  /** The converter: command FSM, read lock, read data path and write data path. */
  class UpConverter {
    const p: Settings
    var fsm: Fsm
    var addr: nat
    var we: bool
    var last: bool
    var count: nat
    var order: seq<nat>
    var chunks: seq<bool>
    var readLock: bool
    var readUnlocked: bool
    var rdataFifo: seq<seq<Word>>
    var rdataCount: nat
    var wdataFifo: seq<Beat>
    var wdataCount: nat
    var wdataWord: WideBeat
    var wdataPending: bool
    var wdataBuffer: Option<WideBeat>

    function Registers(): State reads this {
      State(fsm, addr, we, last, count, order, chunks, readLock, readUnlocked, rdataFifo, rdataCount, wdataFifo,
            wdataCount, wdataWord, wdataPending, wdataBuffer)
    }

    ghost predicate Valid() reads this { WellFormed(p, Registers()) }

    constructor (p: Settings)
      ensures this.p == p && Valid() && Registers() == Reset(p)
    {
      this.p := p;
      fsm, addr, we, last, count := New, 0, false, false, 0;
      order, chunks := seq(p.Ratio(), _ => 0), seq(p.Ratio(), _ => false);
      readLock, readUnlocked := false, false;
      rdataFifo, rdataCount, wdataFifo, wdataCount := [], 0, [], 0;
      wdataWord, wdataPending, wdataBuffer := Blank(p), false, None;
    }

    /** The command FSM agrees with `s`. */
    ghost predicate CommandsAre(s: State) reads this {
      && fsm == s.fsm && addr == s.addr && we == s.we && last == s.last && count == s.count && order == s.order
      && chunks == s.chunks && readLock == s.readLock && readUnlocked == s.readUnlocked
    }

    /** The first command of a group. */
    method StartGroup(i: Input)
      requires Valid()
      modifies this`addr, this`we, this`last, this`count, this`order, this`chunks
      ensures addr == i.cmd.address && we == i.cmd.we && last == i.last && count == 1
      ensures order == old(order)[0 := Lane(p, i.cmd.address)]
      ensures chunks == seq(p.Ratio(), l => l == Lane(p, i.cmd.address))
    {
      addr, we, last, count := i.cmd.address, i.cmd.we, i.last, 1;
      order := order[0 := Lane(p, i.cmd.address)];
      chunks := seq(p.Ratio(), l => l == Lane(p, i.cmd.address));
    }

    /** A further command of the group. */
    method ExtendGroup(i: Input)
      requires Valid() && i.valid
      modifies this`count, this`order, this`chunks
      ensures count == old(count) + 1 && chunks == old(chunks)[Lane(p, i.cmd.address) := true]
      ensures order == if old(count) < p.Ratio() then old(order)[old(count) := Lane(p, i.cmd.address)] else old(order)
    {
      if count < p.Ratio() { order := order[count := Lane(p, i.cmd.address)]; }
      chunks := chunks[Lane(p, i.cmd.address) := true];
      count := count + 1;
    }

    /** NEW and FILL: commands are accepted into the group. */
    method Collect(ghost s: State, i: Input, nextCmd: bool) returns (cmdReady: bool)
      requires Valid() && WellFormed(p, s) && CommandsAre(s) && nextCmd == NextCmd(p, s, i)
      modifies this`addr, this`we, this`last, this`count, this`order, this`chunks
      ensures cmdReady == Accepts(p, s, i)
      ensures addr == (if Starts(p, s, i) then i.cmd.address else s.addr)
      ensures we == (if Starts(p, s, i) then i.cmd.we else s.we)
      ensures last == NextLast(p, s, i) && count == NextCount(p, s, i)
      ensures order == NextOrder(p, s, i) && chunks == NextChunks(p, s, i)
    {
      hide NextCmd, Lane, WideOf;
      cmdReady := false;
      if fsm.New? && i.valid && !readLock {
        cmdReady := true;
        StartGroup(i);
      } else if fsm.Fill? && !nextCmd {
        cmdReady := i.valid;
        last := i.last;
        if i.valid { ExtendGroup(i); }
      }
    }

    /** The signals that close a group, and the collision of a read with the write before it. */
    method Compare(i: Input) returns (nextCmd: bool, collision: bool)
      requires Valid()
      ensures nextCmd == NextCmd(p, Registers(), i) && collision == RwCollision(p, Registers(), i)
    {
      var changed := WideOf(p, addr) != WideOf(p, i.cmd.address);
      nextCmd := changed || we != i.cmd.we || (i.valid && chunks[Lane(p, i.cmd.address)])
                 || count == p.Ratio() || last || i.flush;
      collision := we && i.valid && !i.cmd.we && !changed;
    }

    /** The read lock. */
    method TickLock(ghost s: State, i: Input, collision: bool, wdataFinished: bool, cmdReady: bool)
      requires |s.chunks| == p.Ratio() && readLock == s.readLock && readUnlocked == s.readUnlocked && fsm == s.fsm
      requires collision == RwCollision(p, s, i) && wdataFinished == WdataFinished(s) && cmdReady == Accepts(p, s, i)
      modifies this`readLock, this`readUnlocked
      ensures readLock == NextLock(p, s, i)
      ensures readUnlocked == (!Accepts(p, s, i) && (WdataFinished(s) || s.readUnlocked))
    {
      hide Accepts, RwCollision, WdataFinished;
      if wdataFinished {
        readLock, readUnlocked := false, true;
      } else if collision && !fsm.Cmd? && !readUnlocked {
        readLock := true;
      }
      if cmdReady { readUnlocked := false; }
    }

    /** The state transition. */
    method TickFsm(ghost s: State, i: Input, nextCmd: bool, finished: bool, cmdReady: bool, write: bool)
      requires |s.chunks| == p.Ratio() && fsm == s.fsm && write == s.we
      requires nextCmd == NextCmd(p, s, i) && finished == (WdataFinished(s) || RdataFinished(s, i))
      requires cmdReady == Accepts(p, s, i)
      modifies this`fsm
      ensures fsm == NextFsm(p, s, i)
    {
      hide Accepts, NextCmd, WdataFinished, RdataFinished;
      match fsm {
        case New => if cmdReady { fsm := if i.cmd.we then Fill else Cmd; }
        case Cmd => if i.toReady { fsm := if write then New else Fill; }
        case Fill => if nextCmd { fsm := Commit; }
        case Commit => if finished { fsm := if write then Cmd else New; }
      }
    }

    /** The read data path: a queue of wide words, and the lane being presented. */
    method TickReads(ghost s: State, i: Input, valid: bool, finished: bool)
      requires rdataFifo == s.rdataFifo && rdataCount == s.rdataCount < p.Ratio()
      requires valid == RdataValid(s) && finished == RdataFinished(s, i)
      modifies this`rdataFifo, this`rdataCount
      ensures rdataFifo == NextRdataFifo(p, s, i) && rdataCount == NextRdataCount(p, s, i)
    {
      var room := |rdataFifo| < p.Ratio() - 1;
      if finished {
        rdataFifo, rdataCount := rdataFifo[1..], 0;
      } else if valid && i.rdataReady {
        rdataCount := Increment(p, rdataCount);
      }
      if i.toRdata.Some? && room { rdataFifo := rdataFifo + [i.toRdata.value]; }
    }

    /** The write data path: narrow beats are stored into lanes of a wide word. */
    method TickWrites(i: Input)
      requires Valid()
      modifies this`wdataFifo, this`wdataCount, this`wdataWord, this`wdataPending, this`wdataBuffer
      ensures var s := old(Registers());
              && wdataFifo == NextWdataFifo(p, s, i) && wdataCount == NextWdataCount(p, s)
              && wdataWord == NextWord(p, s)
              && wdataPending == NextPending(s) && wdataBuffer == NextBuffer(s, i)
    {
      hide Store;
      var room := |wdataFifo| < p.Ratio() - 1;
      if wdataPending && wdataBuffer.None? {
        wdataBuffer := Some(wdataWord);
        wdataCount, wdataWord, wdataPending := 0, Blank(p), false;
      } else {
        if i.toStrobe { wdataBuffer := None; }
        if fsm.Commit? && we && !wdataPending && wdataFifo != [] {
          wdataWord := Store(p, wdataWord, order[wdataCount], wdataFifo[0]);
          wdataFifo := wdataFifo[1..];
          if wdataCount + 1 == count {
            wdataPending := true;
          } else {
            wdataCount := Increment(p, wdataCount);
          }
        }
      }
      if i.wdata.Some? && room { wdataFifo := wdataFifo + [i.wdata.value]; }
    }

    /** The command side, once the data paths of the same cycle have moved. */
    method TickControl(ghost s: State, i: Input, nextCmd: bool, collision: bool, wdataFinished: bool,
                       rdataFinished: bool)
      returns (cmdReady: bool)
      requires Valid() && WellFormed(p, s) && CommandsAre(s)
      requires nextCmd == NextCmd(p, s, i) && collision == RwCollision(p, s, i)
      requires wdataFinished == WdataFinished(s) && rdataFinished == RdataFinished(s, i)
      modifies this`fsm, this`addr, this`we, this`last, this`count, this`order, this`chunks, this`readLock,
               this`readUnlocked
      ensures cmdReady == Accepts(p, s, i) && fsm == NextFsm(p, s, i)
      ensures addr == (if Starts(p, s, i) then i.cmd.address else s.addr)
      ensures we == (if Starts(p, s, i) then i.cmd.we else s.we)
      ensures last == NextLast(p, s, i) && count == NextCount(p, s, i)
      ensures order == NextOrder(p, s, i) && chunks == NextChunks(p, s, i)
      ensures readLock == NextLock(p, s, i)
      ensures readUnlocked == (!Accepts(p, s, i) && (WdataFinished(s) || s.readUnlocked))
    {
      hide Accepts, NextFsm, Starts, NextLast, NextCount, NextOrder, NextChunks, NextLock, NextRdataFifo,
           NextRdataCount, NextWdataFifo, NextWdataCount, NextWord, NextPending, NextBuffer, RdataWord,
           RdataFinished, WdataFinished, RdataValid, NextCmd, RwCollision;
      var write := we;
      cmdReady := Collect(s, i, nextCmd);
      TickLock(s, i, collision, wdataFinished, cmdReady);
      TickFsm(s, i, nextCmd, wdataFinished || rdataFinished, cmdReady, write);
    }

    /** What the registers alone drive: the narrow port's `wdata.ready` and read data, the wide port's command and
        data. */
    method Outputs()
      returns (wdataReady: bool, rdataValid: bool, rdata: Word, toCmd: Option<Command>, toWdata: Option<WideBeat>)
      requires Valid()
      ensures wdataReady == WdataReady(p, Registers())
      ensures rdataValid == RdataValid(Registers()) && rdata == RdataWord(p, Registers())
      ensures toCmd == WideCmd(p, Registers()) && toWdata == WideData(Registers())
    {
      wdataReady := |wdataFifo| < p.Ratio() - 1;
      rdataValid, rdata, toCmd := false, [], None;
      match fsm {
        case Cmd =>
          toCmd := Some(Command(we, WideOf(p, addr)));
        case Commit =>
          if !we && rdataFifo != [] {
            rdataValid := true;
            if |rdataFifo[0]| == p.Ratio() { rdata := rdataFifo[0][p.Pos(order[rdataCount])]; }
          }
        case _ =>
      }
      toWdata := wdataBuffer;
    }

    /** One clock cycle; the outputs are those of the narrow and of the wide port. */
    method Tick(i: Input)
      returns (cmdReady: bool, wdataReady: bool, rdataValid: bool, rdata: Word, toCmd: Option<Command>,
               toWdata: Option<WideBeat>)
      requires Valid()
      modifies this
      ensures Valid() && Registers() == Step(p, old(Registers()), i)
      ensures cmdReady == Accepts(p, old(Registers()), i) && wdataReady == WdataReady(p, old(Registers()))
      ensures rdataValid == RdataValid(old(Registers())) && rdata == RdataWord(p, old(Registers()))
      ensures toCmd == WideCmd(p, old(Registers())) && toWdata == WideData(old(Registers()))
    {
      hide Accepts, NextFsm, Starts, NextLast, NextCount, NextOrder, NextChunks, NextLock, NextRdataFifo,
           NextRdataCount, NextWdataFifo, NextWdataCount, NextWord, NextPending, NextBuffer, RdataWord,
           RdataFinished, WdataFinished, RdataValid, NextCmd, RwCollision, WideCmd, WideData, WdataReady;
      var s := Registers();
      wdataReady, rdataValid, rdata, toCmd, toWdata := Outputs();
      var rdataFinished, wdataFinished := RdataFinished(s, i), WdataFinished(s);
      var nextCmd, collision := Compare(i);
      TickWrites(i);
      TickReads(s, i, rdataValid, rdataFinished);
      cmdReady := TickControl(s, i, nextCmd, collision, wdataFinished, rdataFinished);
    }
  }
}
