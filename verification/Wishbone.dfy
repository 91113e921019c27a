/** litedram/frontend/wishbone.py `_init_burst_upconverter`: a Wishbone port narrower than the native port, with a write
    merge buffer and a read cache. */
module Wishbones {
  import opened Common
  import opened Bits
  import P = PhyModels
  import U = UpConverters

  type Word = P.Word

  /** `lanes` gives the shape of native words; `offset` is the base address in Wishbone words. */
  datatype Settings = Settings(lanes: U.Settings, nbytes: nat, adrBits: nat, offset: nat) {
    predicate Valid() { !lanes.reverse }
  }

  datatype Fsm = Cmd | WriteCmd | WriteData | ReadCmd | ReadData

  datatype State = State(
    fsm: Fsm,
    wrValid: bool,
    wrAddr: nat,
    wrBeat: U.WideBeat,
    wrSel: seq<bool>,
    wrLast: bool,
    cacheValid: bool,
    cacheAddr: nat,
    cacheData: seq<Word>,
    rdAddr: nat,
    rdChunk: nat,
    rdLast: bool,
    aborted: bool)

  function ZeroWord(p: Settings): Word { seq(p.nbytes, _ => 0 as bv8) }

  function NoBytes(p: Settings): seq<bool> { seq(p.nbytes, _ => false) }

  function Zeroes(p: Settings): (x: U.WideBeat)
    ensures U.BeatOk(p.lanes, x)
  {
    U.WideBeat(seq(p.lanes.Ratio(), _ => ZeroWord(p)), seq(p.lanes.Ratio(), _ => NoBytes(p)))
  }

  function Reset(p: Settings): State {
    State(Cmd, false, 0, Zeroes(p), seq(p.lanes.Ratio(), _ => false), false, false, 0,
          seq(p.lanes.Ratio(), _ => ZeroWord(p)), 0, 0, false, false)
  }

  /** A Wishbone request; `last` is any cycle type but an incrementing burst. */
  datatype Request = Request(we: bool, adr: nat, data: Word, sel: seq<bool>, last: bool)

  /** Inputs of one cycle; `rdata` is the native port's read data when valid. */
  datatype Input = Input(cyc: bool, stb: bool, req: Request, cmdReady: bool, wdataReady: bool, rdata: Option<seq<Word>>)

  ghost predicate Sized(p: Settings, i: Input) {
    |i.req.data| == |i.req.sel| == p.nbytes && (i.rdata.Some? ==> |i.rdata.value| == p.lanes.Ratio())
  }

  ghost predicate WellFormed(p: Settings, s: State) {
    && U.BeatOk(p.lanes, s.wrBeat) && |s.wrSel| == p.lanes.Ratio() == |s.cacheData| && s.rdChunk < p.lanes.Ratio()
    && forall l | 0 <= l < p.lanes.Ratio() :: |s.wrBeat.data[l]| == |s.wrBeat.we[l]| == p.nbytes
  }

  // Combinational signals --------------------------------------------------------------------------

  /** Address relative to the base, wrapping in the width of the address bus. */
  function NarrowAddr(p: Settings, adr: nat): nat { (adr - p.offset) % Pow2(p.adrBits) }

  function WideAddr(p: Settings, adr: nat): (a: nat)
    ensures a < p.lanes.Wides()
  {
    To(From(NarrowAddr(p, adr), p.lanes.chunkBits), p.lanes.wideBits)
  }

  function Chunk(p: Settings, adr: nat): (l: nat)
    ensures l < p.lanes.Ratio()
  {
    To(NarrowAddr(p, adr), p.lanes.chunkBits)
  }

  predicate CanMerge(p: Settings, s: State, r: Request)
    requires |s.wrSel| == p.lanes.Ratio()
  {
    !s.wrValid || (s.wrAddr == WideAddr(p, r.adr) && !s.wrSel[Chunk(p, r.adr)])
  }

  function NextSel(p: Settings, s: State, r: Request): (sel: seq<bool>)
    requires |s.wrSel| == p.lanes.Ratio()
    ensures |sel| == p.lanes.Ratio()
  {
    s.wrSel[Chunk(p, r.adr) := true]
  }

  predicate Full(sel: seq<bool>) { forall l | 0 <= l < |sel| :: sel[l] }

  predicate CacheHit(p: Settings, s: State, r: Request) { s.cacheValid && s.cacheAddr == WideAddr(p, r.adr) }

  /** A request is presented in CMD. */
  predicate Presented(s: State, i: Input) { s.fsm.Cmd? && i.cyc && i.stb }

  predicate Merges(p: Settings, s: State, i: Input)
    requires |s.wrSel| == p.lanes.Ratio()
  {
    Presented(s, i) && i.req.we && CanMerge(p, s, i.req)
  }

  predicate ReadsCache(p: Settings, s: State, i: Input) {
    Presented(s, i) && !i.req.we && !s.wrValid && CacheHit(p, s, i.req)
  }

  predicate Returns(s: State, i: Input) { s.fsm.ReadData? && i.rdata.Some? && i.cyc && !s.aborted }

  predicate Ack(p: Settings, s: State, i: Input)
    requires |s.wrSel| == p.lanes.Ratio()
  {
    Merges(p, s, i) || ReadsCache(p, s, i) || Returns(s, i)
  }

  function DatR(p: Settings, s: State, i: Input): Word
    requires WellFormed(p, s) && Sized(p, i)
  {
    if ReadsCache(p, s, i) then s.cacheData[Chunk(p, i.req.adr)]
    else if Returns(s, i) then i.rdata.value[s.rdChunk]
    else []
  }

  /** A command on the native port. */
  datatype NativeCmd = NativeCmd(we: bool, address: nat, last: bool)

  function PortCmd(s: State, i: Input): Option<NativeCmd> {
    if s.fsm.WriteCmd? && s.wrValid then Some(NativeCmd(true, s.wrAddr, s.wrLast))
    else if s.fsm.ReadCmd? && i.cyc then Some(NativeCmd(false, s.rdAddr, s.rdLast))
    else None
  }

  /** Write data on the native port. */
  function PortData(s: State): Option<U.WideBeat> { if s.fsm.WriteData? then Some(s.wrBeat) else None }

  // Clock edge -------------------------------------------------------------------------------------

  /** The pending write has to go out before the request can be served, or because the transaction ended. */
  predicate Drains(p: Settings, s: State, i: Input)
    requires |s.wrSel| == p.lanes.Ratio()
  {
    s.fsm.Cmd? && s.wrValid && (!i.cyc || (i.stb && (if i.req.we then !CanMerge(p, s, i.req) else true)))
  }

  function NextFsm(p: Settings, s: State, i: Input): Fsm
    requires |s.wrSel| == p.lanes.Ratio()
  {
    match s.fsm
    case Cmd =>
      if Drains(p, s, i) then WriteCmd
      else if Merges(p, s, i) then if i.req.last || Full(NextSel(p, s, i.req)) then WriteCmd else Cmd
      else if Presented(s, i) && !i.req.we && !ReadsCache(p, s, i) then ReadCmd
      else Cmd
    case WriteCmd => if !s.wrValid then Cmd else if i.cmdReady then WriteData else WriteCmd
    case WriteData => if i.wdataReady then Cmd else WriteData
    case ReadCmd => if !i.cyc then Cmd else if i.cmdReady then ReadData else ReadCmd
    case ReadData => if i.rdata.Some? then Cmd else ReadData
  }

  /** Bytes and byte enables of the request in its lane, zero elsewhere. */
  function ChunkBeat(p: Settings, r: Request): (x: U.WideBeat)
    ensures U.BeatOk(p.lanes, x)
  {
    U.Store(p.lanes, Zeroes(p), Chunk(p, r.adr), U.Beat(r.data, r.sel))
  }

  function OrWord(a: Word, b: Word): (r: Word)
    ensures |r| == |a|
  {
    seq(|a|, k requires 0 <= k < |a| => if k < |b| then a[k] | b[k] else a[k])
  }

  function OrBytes(a: seq<bool>, b: seq<bool>): (r: seq<bool>)
    ensures |r| == |a|
  {
    seq(|a|, k requires 0 <= k < |a| => a[k] || (k < |b| && b[k]))
  }

  function OrBeat(p: Settings, x: U.WideBeat, y: U.WideBeat): (r: U.WideBeat)
    requires U.BeatOk(p.lanes, x) && U.BeatOk(p.lanes, y)
    ensures U.BeatOk(p.lanes, r)
    ensures forall l | 0 <= l < p.lanes.Ratio() :: |r.data[l]| == |x.data[l]| && |r.we[l]| == |x.we[l]|
  {
    U.WideBeat(seq(p.lanes.Ratio(), l
                 requires 0 <= l < p.lanes.Ratio() && U.BeatOk(p.lanes, x) && U.BeatOk(p.lanes, y) =>
                 OrWord(x.data[l], y.data[l])),
               seq(p.lanes.Ratio(), l
                 requires 0 <= l < p.lanes.Ratio() && U.BeatOk(p.lanes, x) && U.BeatOk(p.lanes, y) =>
                 OrBytes(x.we[l], y.we[l])))
  }

  function NextBeat(p: Settings, s: State, i: Input): (x: U.WideBeat)
    requires WellFormed(p, s) && Sized(p, i)
    ensures U.BeatOk(p.lanes, x)
    ensures forall l | 0 <= l < p.lanes.Ratio() :: |x.data[l]| == |x.we[l]| == p.nbytes
  {
    if Merges(p, s, i) then
      if s.wrValid then OrBeat(p, s.wrBeat, ChunkBeat(p, i.req)) else ChunkBeat(p, i.req)
    else if s.fsm.WriteData? && i.wdataReady then Zeroes(p)
    else s.wrBeat
  }

  /** The pending write's data is accepted. */
  predicate Written(s: State, i: Input) { s.fsm.WriteData? && i.wdataReady }

  /** A native read of the current request is started. */
  predicate Starts(p: Settings, s: State, i: Input)
    requires |s.wrSel| == p.lanes.Ratio()
  {
    Presented(s, i) && !i.req.we && !s.wrValid && !CacheHit(p, s, i.req)
  }

  function NextCacheValid(p: Settings, s: State, i: Input): bool {
    if s.fsm.Cmd? then
      s.cacheValid && i.cyc && !(i.stb && i.req.we) && !(ReadsCache(p, s, i) && i.req.last)
    else if s.fsm.ReadData? && i.rdata.Some? then Returns(s, i) && !s.rdLast
    else s.cacheValid
  }

  function Step(p: Settings, s: State, i: Input): (s': State)
    requires WellFormed(p, s) && Sized(p, i)
    ensures WellFormed(p, s')
  {
    var fetched := s.fsm.ReadData? && i.rdata.Some?;
    State(
      NextFsm(p, s, i),
      if Merges(p, s, i) then true else if Written(s, i) then false else s.wrValid,
      if Merges(p, s, i) && !s.wrValid then WideAddr(p, i.req.adr) else s.wrAddr,
      NextBeat(p, s, i),
      if Merges(p, s, i) then NextSel(p, s, i.req)
      else if Written(s, i) then seq(p.lanes.Ratio(), _ => false)
      else s.wrSel,
      if Drains(p, s, i) then true else if Merges(p, s, i) then i.req.last else s.wrLast,
      NextCacheValid(p, s, i),
      if fetched then s.rdAddr else s.cacheAddr,
      if fetched then i.rdata.value else s.cacheData,
      if Starts(p, s, i) then WideAddr(p, i.req.adr) else s.rdAddr,
      if Starts(p, s, i) then Chunk(p, i.req.adr) else s.rdChunk,
      if Starts(p, s, i) then i.req.last else s.rdLast,
      if s.fsm.Cmd? then false else if s.fsm.ReadData? then !i.cyc || s.aborted else s.aborted)
  }

  // The converter between its master and the memory -------------------------------------------------

  /** The native address a request means: the relative address in the width that the native port has. */
  function Address(p: Settings, adr: nat): nat { Chunk(p, adr) + Up(WideAddr(p, adr), p.lanes.chunkBits) }

  lemma AddressMeaning(p: Settings, adr: nat)
    ensures Address(p, adr) == To(NarrowAddr(p, adr), p.lanes.chunkBits + p.lanes.wideBits) < p.lanes.Narrows()
    ensures U.WideOf(p.lanes, Address(p, adr)) == WideAddr(p, adr) && U.Lane(p.lanes, Address(p, adr)) == Chunk(p, adr)
  {
    ToSplit(NarrowAddr(p, adr), p.lanes.chunkBits, p.lanes.wideBits);
    SlicesOfCat(Chunk(p, adr), WideAddr(p, adr), p.lanes.chunkBits);
  }

  /** Converter, native memory, the memory that the acknowledged writes left, and the request that is on the bus without
      having been acknowledged. */
  datatype World = World(s: State, backing: seq<seq<Word>>, golden: seq<Word>, pending: Option<Request>)

  function Start(p: Settings, backing: seq<seq<Word>>): World
    requires U.WideOk(p.lanes, backing)
  {
    World(Reset(p), backing, U.Flatten(p.lanes, backing), None)
  }

  /** The master keeps a request unchanged until it is acknowledged, or drops `cyc`. The memory answers the outstanding
      read only, with the word it holds. */
  ghost predicate Contract(p: Settings, w: World, i: Input) {
    && Sized(p, i)
    && (w.pending.Some? && i.cyc ==> i.stb && i.req == w.pending.value)
    && (i.rdata.Some? ==> w.s.fsm.ReadData? && w.s.rdAddr < |w.backing| && i.rdata.value == w.backing[w.s.rdAddr])
  }

  function WorldStep(p: Settings, w: World, i: Input): World
    requires WellFormed(p, w.s) && Sized(p, i)
  {
    var a := Address(p, i.req.adr);
    World(
      Step(p, w.s, i),
      if Written(w.s, i) && w.s.wrAddr < |w.backing| && |w.backing[w.s.wrAddr]| == p.lanes.Ratio() then
        U.Put(p.lanes, w.backing, w.s.wrAddr, w.s.wrBeat)
      else w.backing,
      if Merges(p, w.s, i) && a < |w.golden| then w.golden[a := P.Merge(w.golden[a], i.req.data, i.req.sel)]
      else w.golden,
      if i.cyc && i.stb && !Ack(p, w.s, i) then Some(i.req) else None)
  }

  /** Lanes without a pending write hold nothing. */
  ghost predicate FreeLanes(p: Settings, s: State)
    requires WellFormed(p, s)
  {
    && (!s.wrValid ==> s.wrBeat == Zeroes(p))
    && forall l | 0 <= l < p.lanes.Ratio() && !s.wrSel[l] ::
         s.wrBeat.data[l] == ZeroWord(p) && s.wrBeat.we[l] == NoBytes(p)
  }

  /** The native memory overlaid with the merge buffer is the memory of the acknowledged writes. */
  ghost predicate Coherent(p: Settings, w: World)
    requires WellFormed(p, w.s)
  {
    && U.WideOk(p.lanes, w.backing) && w.s.wrAddr < p.lanes.Wides()
    && w.golden == U.Flatten(p.lanes, U.Put(p.lanes, w.backing, w.s.wrAddr, w.s.wrBeat))
  }

  /** A valid cache line is the native memory's, and never beside a pending write. */
  ghost predicate CacheInv(p: Settings, w: World) {
    && (w.s.cacheValid ==> !w.s.wrValid && w.s.cacheAddr < |w.backing| && w.s.cacheData == w.backing[w.s.cacheAddr])
    && (w.s.fsm.WriteCmd? || w.s.fsm.WriteData? ==> w.s.wrValid)
  }

  /** The read under way is the one on the bus, unless it was aborted. */
  ghost predicate ReadInv(p: Settings, w: World) {
    w.s.fsm.ReadCmd? || w.s.fsm.ReadData? ==>
      && !w.s.wrValid && w.s.rdAddr < p.lanes.Wides()
      && (w.s.fsm.ReadCmd? || !w.s.aborted ==>
            && w.pending.Some? && !w.pending.value.we
            && WideAddr(p, w.pending.value.adr) == w.s.rdAddr && Chunk(p, w.pending.value.adr) == w.s.rdChunk)
      && (w.s.fsm.ReadCmd? ==> !w.s.aborted)
  }

  ghost predicate Inv(p: Settings, w: World) {
    && p.Valid() && WellFormed(p, w.s) && FreeLanes(p, w.s) && Coherent(p, w) && CacheInv(p, w) && ReadInv(p, w)
  }

  lemma OrZero(p: Settings, w: Word, we: seq<bool>)
    requires |w| == |we| == p.nbytes
    ensures OrWord(w, ZeroWord(p)) == w && OrWord(ZeroWord(p), w) == w
    ensures OrBytes(we, NoBytes(p)) == we && OrBytes(NoBytes(p), we) == we
  {
  }

  /** Or-ing a request into a free lane stores it there. */
  lemma OrStores(p: Settings, x: U.WideBeat, r: Request)
    requires U.BeatOk(p.lanes, x) && |r.data| == |r.sel| == p.nbytes
    requires forall l | 0 <= l < p.lanes.Ratio() :: |x.data[l]| == |x.we[l]| == p.nbytes
    requires p.Valid() && x.data[Chunk(p, r.adr)] == ZeroWord(p) && x.we[Chunk(p, r.adr)] == NoBytes(p)
    ensures OrBeat(p, x, ChunkBeat(p, r)) == U.Store(p.lanes, x, Chunk(p, r.adr), U.Beat(r.data, r.sel))
  {
    hide OrWord, OrBytes, ZeroWord, NoBytes;
    var y, z := OrBeat(p, x, ChunkBeat(p, r)), U.Store(p.lanes, x, Chunk(p, r.adr), U.Beat(r.data, r.sel));
    forall l | 0 <= l < p.lanes.Ratio() ensures y.data[l] == z.data[l] && y.we[l] == z.we[l] {
      if l == Chunk(p, r.adr) { OrZero(p, r.data, r.sel); } else { OrZero(p, x.data[l], x.we[l]); }
    }
    assert y.data == z.data && y.we == z.we;
  }

  lemma PutZeroes(p: Settings, wide: seq<seq<Word>>, address: nat)
    requires U.WideOk(p.lanes, wide) && address < p.lanes.Wides()
    ensures U.Put(p.lanes, wide, address, Zeroes(p)) == wide
  {
    hide P.Merge;
    var r := U.Put(p.lanes, wide, address, Zeroes(p));
    forall n | 0 <= n < p.lanes.Ratio() ensures r[address][n] == wide[address][n] {
      U.MergeSilent(wide[address][n], ZeroWord(p), NoBytes(p));
    }
    assert r[address] == wide[address];
  }

  /** The lane of a mergeable request is free. */
  lemma LaneIsFree(p: Settings, s: State, r: Request)
    requires p.Valid() && WellFormed(p, s) && FreeLanes(p, s) && CanMerge(p, s, r)
    ensures s.wrBeat.data[Chunk(p, r.adr)] == ZeroWord(p) && s.wrBeat.we[Chunk(p, r.adr)] == NoBytes(p)
  {
  }

  lemma MergedBeat(p: Settings, s: State, i: Input)
    requires p.Valid() && WellFormed(p, s) && Sized(p, i) && FreeLanes(p, s) && Merges(p, s, i)
    ensures NextBeat(p, s, i)
         == U.Store(p.lanes, s.wrBeat, Chunk(p, i.req.adr), U.Beat(i.req.data, i.req.sel))
  {
    hide OrBeat, U.Store, ZeroWord, NoBytes;
    LaneIsFree(p, s, i.req);
    if s.wrValid { OrStores(p, s.wrBeat, i.req); }
  }

  lemma FreeLanesStep(p: Settings, s: State, i: Input)
    requires p.Valid() && WellFormed(p, s) && Sized(p, i) && FreeLanes(p, s)
    ensures FreeLanes(p, Step(p, s, i))
  {
    hide OrBeat, OrWord, OrBytes, ZeroWord, NoBytes, ChunkBeat;
    if Merges(p, s, i) { MergedBeat(p, s, i); }
  }

  lemma MergeCoherent(p: Settings, w: World, i: Input)
    requires Inv(p, w) && Contract(p, w, i) && Merges(p, w.s, i)
    ensures Coherent(p, WorldStep(p, w, i))
  {
    hide U.Flatten, U.Put, U.Store, OrBeat, P.Merge, ZeroWord, NoBytes, NextBeat, ChunkBeat, U.Silent;
    var address, a := WideAddr(p, i.req.adr), Address(p, i.req.adr);
    AddressMeaning(p, i.req.adr);
    MergedBeat(p, w.s, i);
    LaneIsFree(p, w.s, i.req);
    SilentLane(p);
    if !w.s.wrValid {
      PutZeroes(p, w.backing, w.s.wrAddr);
      PutZeroes(p, w.backing, address);
    }
    U.StoreIsWrite(p.lanes, w.backing, a, w.s.wrBeat, U.Beat(i.req.data, i.req.sel));
  }

  lemma SilentLane(p: Settings)
    ensures U.Silent(NoBytes(p))
  {
  }

  lemma OtherCoherent(p: Settings, w: World, i: Input)
    requires Inv(p, w) && Contract(p, w, i) && !Merges(p, w.s, i)
    ensures Coherent(p, WorldStep(p, w, i))
  {
    hide U.Flatten, U.Put, OrBeat, P.Merge, ZeroWord, NoBytes, ChunkBeat;
    if Written(w.s, i) {
      var backing' := U.Put(p.lanes, w.backing, w.s.wrAddr, w.s.wrBeat);
      PutZeroes(p, backing', w.s.wrAddr);
    }
  }

  lemma CacheStep(p: Settings, w: World, i: Input)
    requires Inv(p, w) && Contract(p, w, i)
    ensures CacheInv(p, WorldStep(p, w, i))
  {
    hide U.Flatten, U.Put, U.Store, NextBeat, ChunkBeat, FreeLanes, NextSel, Full, WideAddr, Chunk;
  }

  lemma ReadStep(p: Settings, w: World, i: Input)
    requires Inv(p, w) && Contract(p, w, i)
    ensures ReadInv(p, WorldStep(p, w, i))
  {
    hide U.Flatten, U.Put, U.Store, NextBeat, ChunkBeat, FreeLanes, NextSel, Full;
  }

  lemma StepInv(p: Settings, w: World, i: Input)
    requires Inv(p, w) && Contract(p, w, i)
    ensures Inv(p, WorldStep(p, w, i))
  {
    hide FreeLanes, Coherent, CacheInv, ReadInv, Step, WorldStep;
    assert WorldStep(p, w, i).s == Step(p, w.s, i) by { StepOf(p, w, i); }
    FreeLanesStep(p, w.s, i);
    if Merges(p, w.s, i) { MergeCoherent(p, w, i); } else { OtherCoherent(p, w, i); }
    CacheStep(p, w, i);
    ReadStep(p, w, i);
  }

  lemma StepOf(p: Settings, w: World, i: Input)
    requires WellFormed(p, w.s) && Sized(p, i)
    ensures WorldStep(p, w, i).s == Step(p, w.s, i)
  {
  }

  /** An acknowledged read, cached or not, returns the word that the acknowledged writes left. */
  lemma ReadReturnsMemory(p: Settings, w: World, i: Input)
    requires Inv(p, w) && Contract(p, w, i) && Ack(p, w.s, i) && !i.req.we
    ensures i.stb && Address(p, i.req.adr) < |w.golden| && DatR(p, w.s, i) == w.golden[Address(p, i.req.adr)]
  {
    hide U.Put, U.Flatten, OrBeat, NextBeat, ChunkBeat;
    AddressMeaning(p, i.req.adr);
    PutZeroes(p, w.backing, w.s.wrAddr);
    assert !w.s.wrValid;
    U.FlatCell(p.lanes, w.backing, Address(p, i.req.adr));
  }

  // Every run --------------------------------------------------------------------------------------

  /** The inputs are sized, and the master and the memory keep their contract. */
  ghost predicate Admissible(p: Settings, backing: seq<seq<Word>>, ins: seq<Input>)
    requires U.WideOk(p.lanes, backing)
    decreases |ins|
  {
    ins != [] ==>
      && Admissible(p, backing, ins[..|ins| - 1])
      && Contract(p, Run(p, backing, ins[..|ins| - 1]), ins[|ins| - 1])
  }

  ghost function Run(p: Settings, backing: seq<seq<Word>>, ins: seq<Input>): (w: World)
    requires U.WideOk(p.lanes, backing)
    ensures WellFormed(p, w.s)
    decreases |ins|
  {
    if ins == [] then Start(p, backing)
    else if Sized(p, ins[|ins| - 1]) then WorldStep(p, Run(p, backing, ins[..|ins| - 1]), ins[|ins| - 1])
    else Run(p, backing, ins[..|ins| - 1])
  }

  lemma StartInv(p: Settings, backing: seq<seq<Word>>)
    requires p.Valid() && U.WideOk(p.lanes, backing)
    ensures Inv(p, Start(p, backing))
  {
    PutZeroes(p, backing, 0);
  }

  lemma {:induction false} RunInv(p: Settings, backing: seq<seq<Word>>, ins: seq<Input>)
    requires p.Valid() && U.WideOk(p.lanes, backing) && Admissible(p, backing, ins)
    ensures Inv(p, Run(p, backing, ins))
    decreases |ins|
  {
    hide Inv, WorldStep, U.WideOk, WellFormed;
    if ins == [] {
      StartInv(p, backing);
    } else {
      RunInv(p, backing, ins[..|ins| - 1]);
      StepInv(p, Run(p, backing, ins[..|ins| - 1]), ins[|ins| - 1]);
    }
  }

  /** Coherence on every run: the native memory overlaid with the merge buffer holds all acknowledged writes, with
      their byte enables; a pending write and a valid read cache never coexist; and every acknowledged read returns
      what the acknowledged writes left. */
  lemma RunIsCoherent(p: Settings, backing: seq<seq<Word>>, ins: seq<Input>, i: Input)
    requires p.Valid() && U.WideOk(p.lanes, backing) && Admissible(p, backing, ins)
    requires Contract(p, Run(p, backing, ins), i)
    ensures var w := Run(p, backing, ins);
            && Coherent(p, w)
            && !(w.s.wrValid && w.s.cacheValid)
            && (Ack(p, w.s, i) && !i.req.we ==>
                  && Address(p, i.req.adr) < |w.golden|
                  && DatR(p, w.s, i) == w.golden[Address(p, i.req.adr)])
  {
    hide Coherent, FreeLanes, ReadInv, Run, Admissible;
    RunInv(p, backing, ins);
    if Ack(p, Run(p, backing, ins).s, i) && !i.req.we { ReadReturnsMemory(p, Run(p, backing, ins), i); }
  }

  /** In the last `n` cycles the request stayed on the bus, after having been presented in the first of them. */
  ghost predicate HeldFor(p: Settings, backing: seq<seq<Word>>, ins: seq<Input>, n: nat, r: Request)
    requires U.WideOk(p.lanes, backing)
  {
    && 1 <= n <= |ins|
    && Run(p, backing, ins[..|ins| - n]).s.fsm.Cmd?
    && forall k | |ins| - n <= k < |ins| :: ins[k].cyc && ins[k].stb && ins[k].req == r
  }

  /** A native read that is still to be acknowledged. */
  predicate Awaiting(s: State) { s.fsm.ReadCmd? || (s.fsm.ReadData? && !s.aborted) }

  lemma AwaitingStep(p: Settings, w: World, i: Input)
    requires Inv(p, w) && Contract(p, w, i) && Awaiting(WorldStep(p, w, i).s)
    ensures i.cyc && i.stb && WorldStep(p, w, i).pending == Some(i.req)
    ensures !w.s.fsm.Cmd? ==> Awaiting(w.s) && w.pending == Some(i.req)
  {
    hide U.WideOk, FreeLanes, Coherent, NextBeat, CacheInv, NextSel, WideAddr, Chunk, U.Put;
  }

  /** A native read that is still to be acknowledged has been requested without interruption since it was started. */
  lemma {:induction false} ReadIsHeld(p: Settings, backing: seq<seq<Word>>, ins: seq<Input>) returns (n: nat)
    requires p.Valid() && U.WideOk(p.lanes, backing) && Admissible(p, backing, ins)
    requires Awaiting(Run(p, backing, ins).s)
    ensures var w := Run(p, backing, ins); w.pending.Some? && HeldFor(p, backing, ins, n, w.pending.value)
    decreases |ins|
  {
    hide U.WideOk, WellFormed, Inv, WorldStep;
    var last := |ins| - 1;
    var w := Run(p, backing, ins[..last]);
    RunInv(p, backing, ins[..last]);
    AwaitingStep(p, w, ins[last]);
    if w.s.fsm.Cmd? {
      n := 1;
    } else {
      var m := ReadIsHeld(p, backing, ins[..last]);
      assert ins[..last][..last - m] == ins[..last - m];
      forall k | last - m <= k < |ins| ensures ins[k].cyc && ins[k].stb && ins[k].req == ins[last].req {
        if k < last { assert ins[..last][k] == ins[k]; }
      }
      n := m + 1;
    }
  }

  /** An aborted read is never acknowledged: the request a native read's acknowledge answers has been on the bus, with
      `cyc` high, in every cycle since the read was started. */
  lemma AcknowledgedReadWasHeld(p: Settings, backing: seq<seq<Word>>, ins: seq<Input>, i: Input) returns (n: nat)
    requires p.Valid() && U.WideOk(p.lanes, backing) && Admissible(p, backing, ins)
    requires Contract(p, Run(p, backing, ins), i) && Returns(Run(p, backing, ins).s, i)
    ensures i.stb && HeldFor(p, backing, ins, n, i.req)
  {
    hide Run, Admissible, HeldFor;
    n := ReadIsHeld(p, backing, ins);
  }

  // The clocked object -----------------------------------------------------------------------------

  /** The converter with its merge registers and its read cache. */
  class WishboneBridge {
    const p: Settings
    var fsm: Fsm
    var wrValid: bool
    var wrAddr: nat
    var wrBeat: U.WideBeat
    var wrSel: seq<bool>
    var wrLast: bool
    var cacheValid: bool
    var cacheAddr: nat
    var cacheData: seq<Word>
    var rdAddr: nat
    var rdChunk: nat
    var rdLast: bool
    var aborted: bool

    function Registers(): State reads this {
      State(fsm, wrValid, wrAddr, wrBeat, wrSel, wrLast, cacheValid, cacheAddr, cacheData, rdAddr, rdChunk, rdLast,
          aborted)
    }

    ghost predicate Valid() reads this { WellFormed(p, Registers()) }

    constructor (p: Settings)
      ensures this.p == p && Valid() && Registers() == Reset(p)
    {
      this.p := p;
      fsm, wrValid, wrAddr, wrBeat, wrLast := Cmd, false, 0, Zeroes(p), false;
      wrSel := seq(p.lanes.Ratio(), _ => false);
      cacheValid, cacheAddr := false, 0;
      cacheData := seq(p.lanes.Ratio(), _ => ZeroWord(p));
      rdAddr, rdChunk, rdLast, aborted := 0, 0, false, false;
    }

    /** A write is merged into the pending word. */
    method Merge(i: Input)
      requires Valid() && Sized(p, i) && Merges(p, Registers(), i)
      modifies this`wrValid, this`wrAddr, this`wrBeat, this`wrSel, this`wrLast
      ensures wrValid && wrLast == i.req.last
      ensures wrAddr == (if old(wrValid) then old(wrAddr) else WideAddr(p, i.req.adr))
      ensures wrBeat == NextBeat(p, old(Registers()), i) && wrSel == NextSel(p, old(Registers()), i.req)
    {
      hide OrBeat, ChunkBeat;
      var x := ChunkBeat(p, i.req);
      wrBeat := if wrValid then OrBeat(p, wrBeat, x) else x;
      if !wrValid { wrAddr := WideAddr(p, i.req.adr); }
      wrSel := wrSel[Chunk(p, i.req.adr) := true];
      wrValid, wrLast := true, i.req.last;
    }

    /** CMD without a request: at the end of a transaction the pending word is written out. */
    method TickIdle(i: Input)
      requires Valid() && Sized(p, i) && fsm.Cmd? && !(i.cyc && i.stb)
      modifies this
      ensures Valid() && Registers() == Step(p, old(Registers()), i)
    {
      hide OrBeat, ChunkBeat, Zeroes, NextSel, WideAddr, Chunk, Full, CanMerge;
      aborted := false;
      if !i.cyc {
        cacheValid := false;
        if wrValid { wrLast, fsm := true, WriteCmd; }
      }
    }

    /** CMD with a write: it is merged, or the pending word goes out first. */
    method TickWrite(i: Input) returns (ack: bool)
      requires Valid() && Sized(p, i) && Presented(Registers(), i) && i.req.we
      modifies this
      ensures Valid() && Registers() == Step(p, old(Registers()), i)
      ensures ack == Merges(p, old(Registers()), i)
    {
      hide OrBeat, ChunkBeat, Zeroes, WideAddr, Chunk;
      ack := !wrValid || (wrAddr == WideAddr(p, i.req.adr) && !wrSel[Chunk(p, i.req.adr)]);
      if ack {
        Merge(i);
        if i.req.last || Full(wrSel) { fsm := WriteCmd; }
      } else {
        wrLast, fsm := true, WriteCmd;
      }
      aborted, cacheValid := false, false;
    }

    /** CMD with a read: the pending word goes out first; then the cache answers, or a native read is started. */
    method TickRead(i: Input) returns (ack: bool, datR: Word)
      requires Valid() && Sized(p, i) && Presented(Registers(), i) && !i.req.we
      modifies this
      ensures Valid() && Registers() == Step(p, old(Registers()), i)
      ensures ack == ReadsCache(p, old(Registers()), i)
      ensures datR == if ack then old(cacheData)[Chunk(p, i.req.adr)] else []
    {
      hide OrBeat, ChunkBeat, Zeroes, NextSel, Full, WideAddr, Chunk;
      var wide, chunk := WideAddr(p, i.req.adr), Chunk(p, i.req.adr);
      ack, datR, aborted := false, [], false;
      if wrValid {
        wrLast, fsm := true, WriteCmd;
      } else if cacheValid && cacheAddr == wide {
        ack, datR := true, cacheData[chunk];
        if i.req.last { cacheValid := false; }
      } else {
        rdAddr, rdChunk, rdLast, fsm := wide, chunk, i.req.last, ReadCmd;
      }
    }

    /** CMD: writes are merged, reads are answered from the cache, and everything else starts a native access. */
    method TickCmd(i: Input) returns (ack: bool, datR: Word)
      requires Valid() && Sized(p, i) && fsm.Cmd?
      modifies this
      ensures Valid() && Registers() == Step(p, old(Registers()), i)
      ensures ack == Ack(p, old(Registers()), i) && datR == DatR(p, old(Registers()), i)
    {
      hide Step, WellFormed, WideAddr, Chunk;
      ack, datR := false, [];
      if !i.cyc || !i.stb {
        TickIdle(i);
      } else if i.req.we {
        ack := TickWrite(i);
      } else {
        ack, datR := TickRead(i);
      }
    }

    /** The native accesses. */
    method TickAccess(i: Input) returns (ack: bool, datR: Word)
      requires Valid() && Sized(p, i) && !fsm.Cmd?
      modifies this
      ensures Valid() && Registers() == Step(p, old(Registers()), i)
      ensures ack == Ack(p, old(Registers()), i) && datR == DatR(p, old(Registers()), i)
    {
      hide OrBeat, ChunkBeat, WideAddr, Chunk;
      ack, datR := false, [];
      match fsm {
        case WriteCmd =>
          if !wrValid { fsm := Cmd; } else if i.cmdReady { fsm := WriteData; }
        case WriteData =>
          if i.wdataReady {
            wrValid, wrBeat, fsm := false, Zeroes(p), Cmd;
            wrSel := seq(p.lanes.Ratio(), _ => false);
          }
        case ReadCmd =>
          if !i.cyc { fsm := Cmd; } else if i.cmdReady { fsm := ReadData; }
        case ReadData => ack, datR := TickReadData(i);
      }
    }

    /** A cycle of waiting for the native read data, which fills the cache. */
    method TickReadData(i: Input) returns (ack: bool, datR: Word)
      requires Valid() && Sized(p, i) && fsm.ReadData?
      modifies this
      ensures Valid() && Registers() == Step(p, old(Registers()), i)
      ensures ack == Ack(p, old(Registers()), i) && datR == DatR(p, old(Registers()), i)
    {
      hide OrBeat, ChunkBeat, WideAddr, Chunk;
      ack, datR := false, [];
      if i.rdata.Some? {
        cacheData, cacheAddr, fsm := i.rdata.value, rdAddr, Cmd;
        if i.cyc && !aborted {
          ack, datR, cacheValid := true, i.rdata.value[rdChunk], !rdLast;
        } else {
          cacheValid := false;
        }
      }
      aborted := !i.cyc || aborted;
    }

    /** What the native port is driven with. */
    method PortOutputs(i: Input) returns (cmd: Option<NativeCmd>, wdata: Option<U.WideBeat>)
      ensures cmd == PortCmd(Registers(), i) && wdata == PortData(Registers())
    {
      cmd, wdata := None, None;
      match fsm {
        case WriteCmd => if wrValid { cmd := Some(NativeCmd(true, wrAddr, wrLast)); }
        case WriteData => wdata := Some(wrBeat);
        case ReadCmd => if i.cyc { cmd := Some(NativeCmd(false, rdAddr, rdLast)); }
        case _ =>
      }
    }

    /** One clock cycle; the outputs are the bus acknowledge and read data, and the native port's command and data. */
    method Tick(i: Input) returns (ack: bool, datR: Word, cmd: Option<NativeCmd>, wdata: Option<U.WideBeat>)
      requires Valid() && Sized(p, i)
      modifies this
      ensures Valid() && Registers() == Step(p, old(Registers()), i)
      ensures ack == Ack(p, old(Registers()), i) && datR == DatR(p, old(Registers()), i)
      ensures cmd == PortCmd(old(Registers()), i) && wdata == PortData(old(Registers()))
    {
      hide Step, Ack, DatR, WellFormed, PortCmd, PortData;
      cmd, wdata := PortOutputs(i);
      if fsm.Cmd? { ack, datR := TickCmd(i); } else { ack, datR := TickAccess(i); }
    }
  }
}
