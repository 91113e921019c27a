/** The up-converter with its two ports: wide commands leave the memory, and narrow reads return the data, that the
    narrow commands executed one by one would. */
module UpConverterRefinement {
  import opened Common
  import opened Bits
  import opened UpConverters
  import P = PhyModels
  import T = TimingControllers

  // Reference semantics ----------------------------------------------------------------------------

  /** A memory operation; writes carry their data. */
  datatype Op<B> = Read(address: nat) | Write(address: nat, beat: B)

  type NarrowOp = Op<Beat>
  type WideOp = Op<WideBeat>

  function NarrowStep(mem: seq<Word>, op: NarrowOp): (r: seq<Word>)
    ensures |r| == |mem|
  {
    if op.Write? && op.address < |mem| then
      mem[op.address := P.Merge(mem[op.address], op.beat.data, op.beat.we)]
    else mem
  }

  function NarrowMemory(mem: seq<Word>, ops: seq<NarrowOp>): (r: seq<Word>)
    ensures |r| == |mem|
  {
    if ops == [] then mem else NarrowStep(NarrowMemory(mem, ops[..|ops| - 1]), ops[|ops| - 1])
  }

  /** What the reads return, in order. */
  function NarrowAnswers(mem: seq<Word>, ops: seq<NarrowOp>): seq<Word> {
    if ops == [] then []
    else
      var before, op := ops[..|ops| - 1], ops[|ops| - 1];
      NarrowAnswers(mem, before)
        + if op.Read? && op.address < |mem| then [NarrowMemory(mem, before)[op.address]] else []
  }

  function WideStep(p: Settings, wide: seq<seq<Word>>, op: WideOp): (r: seq<seq<Word>>)
    requires WideOk(p, wide)
    ensures WideOk(p, r)
  {
    if op.Write? && op.address < |wide| && BeatOk(p, op.beat) then Put(p, wide, op.address, op.beat) else wide
  }

  function WideMemory(p: Settings, wide: seq<seq<Word>>, ops: seq<WideOp>): (r: seq<seq<Word>>)
    requires WideOk(p, wide)
    ensures WideOk(p, r)
  {
    if ops == [] then wide else WideStep(p, WideMemory(p, wide, ops[..|ops| - 1]), ops[|ops| - 1])
  }

  function WideAnswers(p: Settings, wide: seq<seq<Word>>, ops: seq<WideOp>): seq<seq<Word>>
    requires WideOk(p, wide)
  {
    if ops == [] then []
    else
      var before, op := ops[..|ops| - 1], ops[|ops| - 1];
      WideAnswers(p, wide, before)
        + if op.Read? && op.address < |wide| then [WideMemory(p, wide, before)[op.address]] else []
  }

  /** The data of the writes, in order. */
  function Beats<B>(ops: seq<Op<B>>): seq<B> {
    if ops == [] then []
    else Beats(ops[..|ops| - 1]) + if ops[|ops| - 1].Write? then [ops[|ops| - 1].beat] else []
  }

  function CommandOf(op: NarrowOp): Command { Command(op.Write?, op.address) }

  function Commands(ops: seq<NarrowOp>): (r: seq<Command>)
    ensures |r| == |ops| && forall k | 0 <= k < |r| :: r[k] == CommandOf(ops[k])
  {
    seq(|ops|, k requires 0 <= k < |ops| => CommandOf(ops[k]))
  }

  // The converter and its ports --------------------------------------------------------------------

  /** What has crossed the ports so far: narrow commands and write beats accepted, narrow read words delivered; wide
      commands accepted together with their data, wide words handed to the output buffer and how many of them were
      taken, and how many read words came back. `executed` are the narrow commands carried out, with their data. */
  datatype World = World(
    s: State,
    accepted: seq<Command>,
    supplied: seq<Beat>,
    delivered: seq<Word>,
    executed: seq<NarrowOp>,
    emitted: seq<WideOp>,
    pushed: seq<WideBeat>,
    taken: nat,
    responses: nat)

  function Start(p: Settings): World { World(Reset(p), [], [], [], [], [], [], 0, 0) }

  /** The narrow command carried out in this cycle: a beat is stored, or a word is delivered. */
  function Executes(w: World, i: Input): seq<NarrowOp> {
    if |w.executed| >= |w.accepted| then []
    else if WdataAccept(w.s) then [Write(w.accepted[|w.executed|].address, w.s.wdataFifo[0])]
    else if RdataValid(w.s) && i.rdataReady then [Read(w.accepted[|w.executed|].address)]
    else []
  }

  /** The wide command accepted in this cycle; a write goes with the word handed over for it. */
  function Emits(p: Settings, w: World, i: Input): seq<WideOp> {
    var address := WideOf(p, w.s.addr);
    if !Sends(w.s, i) then []
    else if !w.s.we then [Read(address)]
    else if |Beats(w.emitted)| < |w.pushed| then [Write(address, w.pushed[|Beats(w.emitted)|])]
    else []
  }

  function WorldStep(p: Settings, w: World, i: Input): World
    requires WellFormed(p, w.s)
  {
    World(
      Step(p, w.s, i),
      w.accepted + (if Accepts(p, w.s, i) then [i.cmd] else []),
      w.supplied + (if i.wdata.Some? && WdataReady(p, w.s) then [i.wdata.value] else []),
      w.delivered + (if RdataValid(w.s) && i.rdataReady then [RdataWord(p, w.s)] else []),
      w.executed + Executes(w, i),
      w.emitted + Emits(p, w, i),
      w.pushed + (if WdataFinished(w.s) then [w.s.wdataWord] else []),
      w.taken + (if i.toStrobe && w.s.wdataBuffer.Some? then 1 else 0),
      w.responses + (if i.toRdata.Some? then 1 else 0))
  }

  /** The controller behind the wide port: it returns each read's word once, in order, after accepting the read, and
      strobes for write data once per write, after accepting the write. */
  ghost predicate Contract(p: Settings, wide: seq<seq<Word>>, w: World, i: Input)
    requires WideOk(p, wide)
  {
    && i.cmd.address < p.Narrows()
    && (i.toRdata.Some? ==>
          && w.responses < |WideAnswers(p, wide, w.emitted)|
          && i.toRdata.value == WideAnswers(p, wide, w.emitted)[w.responses])
    && (i.toStrobe ==> w.taken < |Beats(w.emitted)|)
  }

  // Invariant --------------------------------------------------------------------------------------

  /** Commands of the current group already carried out. */
  function Progress(s: State): nat {
    if !s.fsm.Commit? then 0 else if !s.we then s.rdataCount else if s.wdataPending then s.count else s.wdataCount
  }

  /** The group of commands being collected or carried out. */
  predicate Grouping(s: State) { s.fsm.Fill? || s.fsm.Commit? || (s.fsm.Cmd? && !s.we) }

  predicate Writing(s: State) { s.fsm.Commit? && s.we }

  predicate Reading(s: State) { (s.fsm.Fill? || s.fsm.Commit?) && !s.we }

  /** The lane list of the group: duplicate-free, of the group's commands, and the lane mask is its set. */
  ghost predicate LanesOk(p: Settings, s: State)
    requires WellFormed(p, s)
  {
    && 1 <= s.count <= p.Ratio()
    && (forall j, k | 0 <= j < k < s.count :: s.order[j] != s.order[k])
    && (forall k | 0 <= k < s.count :: s.chunks[s.order[k]])
    && (forall l | 0 <= l < p.Ratio() && s.chunks[l] :: l in s.order[..s.count])
  }

  ghost predicate GroupIs(p: Settings, s: State, group: seq<Command>)
    requires WellFormed(p, s)
  {
    && |group| == s.count <= p.Ratio()
    && forall k | 0 <= k < |group| ::
         group[k].we == s.we && WideOf(p, group[k].address) == WideOf(p, s.addr)
         && Lane(p, group[k].address) == s.order[k] && group[k].address < p.Narrows()
  }

  ghost predicate GroupInv(p: Settings, w: World)
    requires WellFormed(p, w.s)
  {
    && WideOf(p, w.s.addr) < p.Wides()
    && |w.executed| <= |w.accepted| && Commands(w.executed) == w.accepted[..|w.executed|]
    && (if Grouping(w.s) then
          && LanesOk(p, w.s)
          && |w.accepted| == |w.executed| + w.s.count - Progress(w.s)
          && w.s.count <= |w.accepted| && GroupIs(p, w.s, w.accepted[|w.accepted| - w.s.count..])
        else |w.accepted| == |w.executed|)
  }

  ghost predicate WdataInv(p: Settings, w: World)
    requires WellFormed(p, w.s)
  {
    && w.supplied == Beats(w.executed) + w.s.wdataFifo
    && (w.s.wdataPending ==> Writing(w.s))
    && (Writing(w.s) ==> w.s.wdataCount < w.s.count)
    && (!Writing(w.s) ==> w.s.wdataWord == Blank(p) && w.s.wdataCount == 0)
    && |w.pushed| == |Beats(w.emitted)| + (if w.s.fsm.Cmd? && w.s.we then 1 else 0)
    && Beats(w.emitted) <= w.pushed
    && w.taken + (if w.s.wdataBuffer.Some? then 1 else 0) == |w.pushed|
    && (w.s.wdataBuffer.Some? ==> w.s.wdataBuffer.value == w.pushed[|w.pushed| - 1])
    && (w.s.fsm.Cmd? && w.s.we ==> BeatOk(p, w.pushed[|w.pushed| - 1]))
  }

  /** The wide word being assembled, or handed over and not yet commanded. */
  function Current(p: Settings, w: World): WideBeat {
    if w.s.fsm.Cmd? && w.s.we && w.pushed != [] then w.pushed[|w.pushed| - 1] else w.s.wdataWord
  }

  ghost predicate MemoryInv(p: Settings, wide: seq<seq<Word>>, w: World)
    requires WellFormed(p, w.s) && WideOk(p, wide)
  {
    && Agrees(p, wide, w.executed, w.emitted, WideOf(p, w.s.addr), Current(p, w))
    && (Writing(w.s) && !w.s.wdataPending ==> SilentFrom(p, w.s))
  }

  /** The narrow memory is the wide one with `x` merged into it. */
  ghost predicate Agrees(p: Settings, wide: seq<seq<Word>>, executed: seq<NarrowOp>, emitted: seq<WideOp>,
                         address: nat, x: WideBeat)
    requires WideOk(p, wide)
  {
    && address < p.Wides() && BeatOk(p, x)
    && NarrowMemory(Flatten(p, wide), executed) == Flatten(p, Put(p, WideMemory(p, wide, emitted), address, x))
  }

  /** The lanes still to be stored write nothing yet. */
  ghost predicate SilentFrom(p: Settings, s: State)
    requires WellFormed(p, s)
  {
    forall k | s.wdataCount <= k < s.count && k < p.Ratio() :: Silent(s.wdataWord.we[p.Pos(s.order[k])])
  }

  ghost predicate ReadInv(p: Settings, wide: seq<seq<Word>>, w: World)
    requires WellFormed(p, w.s) && WideOk(p, wide)
  {
    var answers := WideAnswers(p, wide, w.emitted);
    && w.delivered == NarrowAnswers(Flatten(p, wide), w.executed)
    && w.responses <= |answers|
    && (!(w.s.fsm.Commit? && Reading(w.s)) ==> w.s.rdataCount == 0)
    && (if Reading(w.s) then
          && WideOf(p, w.s.addr) < p.Wides() && answers != []
          && answers[|answers| - 1] == WideMemory(p, wide, w.emitted)[WideOf(p, w.s.addr)]
          && |answers| - 1 <= w.responses && w.s.rdataFifo == answers[|answers| - 1..w.responses]
          && w.s.rdataCount < w.s.count
        else w.responses == |answers| && w.s.rdataFifo == [])
  }

  ghost predicate Inv(p: Settings, wide: seq<seq<Word>>, w: World) {
    && WellFormed(p, w.s) && WideOk(p, wide)
    && GroupInv(p, w) && WdataInv(p, w) && MemoryInv(p, wide, w) && ReadInv(p, wide, w)
  }

  lemma StartInv(p: Settings, wide: seq<seq<Word>>)
    requires WideOk(p, wide)
    ensures Inv(p, wide, Start(p))
  {
    PutBlank(p, wide, 0);
    assert WideOf(p, 0) == 0 by {
      UpIsProduct(0, p.chunkBits);
      SlicesOfCat(0, 0, p.chunkBits);
    }
  }

  // Lane lists -------------------------------------------------------------------------------------

  lemma LanesStep(p: Settings, s: State, i: Input)
    requires WellFormed(p, s) && (Grouping(s) ==> LanesOk(p, s))
    ensures Grouping(Step(p, s, i)) ==> LanesOk(p, Step(p, s, i))
  {
    var s' := Step(p, s, i);
    if Accepts(p, s, i) {
      var lane := Lane(p, i.cmd.address);
      if s.fsm.New? {
        assert s'.order[0] == lane;
      } else {
        assert s'.order[..s'.count] == s.order[..s.count] + [lane];
      }
    }
  }

  /** The next command of the group to be carried out. */
  lemma NextInGroup(p: Settings, w: World)
    requires WellFormed(p, w.s) && GroupInv(p, w) && w.s.fsm.Commit? && Progress(w.s) < w.s.count
    ensures |w.executed| < |w.accepted|
    ensures var c := w.accepted[|w.executed|];
            && c.we == w.s.we && WideOf(p, c.address) == WideOf(p, w.s.addr)
            && Lane(p, c.address) == w.s.order[Progress(w.s)] && c.address < p.Narrows()
  {
    var group := w.accepted[|w.accepted| - w.s.count..];
    assert group[Progress(w.s)] == w.accepted[|w.executed|];
  }

  lemma AppendCommand(executed: seq<NarrowOp>, accepted: seq<Command>, op: NarrowOp)
    requires |executed| < |accepted| && Commands(executed) == accepted[..|executed|]
    requires CommandOf(op) == accepted[|executed|]
    ensures Commands(executed + [op]) == accepted[..|executed| + 1]
  {
    assert Commands(executed + [op]) == Commands(executed) + [CommandOf(op)];
  }

  lemma BeatsAppend<B>(ops: seq<Op<B>>, op: Op<B>)
    ensures Beats(ops + [op]) == Beats(ops) + if op.Write? then [op.beat] else []
  {
    assert (ops + [op])[..|ops|] == ops;
  }

  lemma NarrowAppend(mem: seq<Word>, ops: seq<NarrowOp>, op: NarrowOp)
    ensures NarrowMemory(mem, ops + [op]) == NarrowStep(NarrowMemory(mem, ops), op)
    ensures NarrowAnswers(mem, ops + [op])
         == NarrowAnswers(mem, ops)
            + if op.Read? && op.address < |mem| then [NarrowMemory(mem, ops)[op.address]] else []
  {
    assert (ops + [op])[..|ops|] == ops;
  }

  lemma WideAppend(p: Settings, wide: seq<seq<Word>>, ops: seq<WideOp>, op: WideOp)
    requires WideOk(p, wide)
    ensures WideMemory(p, wide, ops + [op]) == WideStep(p, WideMemory(p, wide, ops), op)
    ensures WideAnswers(p, wide, ops + [op])
         == WideAnswers(p, wide, ops)
            + if op.Read? && op.address < |wide| then [WideMemory(p, wide, ops)[op.address]] else []
  {
    assert (ops + [op])[..|ops|] == ops;
  }

  // One cycle, by what happens in it ---------------------------------------------------------------

  /** Outside COMMIT no command is carried out. */
  lemma CollectGroup(p: Settings, w: World, i: Input)
    requires WellFormed(p, w.s) && GroupInv(p, w) && WdataInv(p, w) && i.cmd.address < p.Narrows()
    requires !w.s.fsm.Commit? && w.s.rdataCount == 0
    ensures GroupInv(p, WorldStep(p, w, i))
    ensures WorldStep(p, w, i).executed == w.executed
  {
    hide Store, NextWord, WdataInv;
    LanesStep(p, w.s, i);
    FromBound(i.cmd.address, p.chunkBits, p.wideBits);
    IdleWdata(p, w);
    CollectedIs(p, w, i);
  }

  lemma IdleWdata(p: Settings, w: World)
    requires WellFormed(p, w.s) && WdataInv(p, w) && !w.s.fsm.Commit?
    ensures w.s.wdataCount == 0 && !w.s.wdataPending && w.s.wdataWord == Blank(p)
  {
  }

  lemma CollectedIs(p: Settings, w: World, i: Input)
    requires WellFormed(p, w.s) && GroupInv(p, w) && i.cmd.address < p.Narrows() && !w.s.fsm.Commit?
    ensures var s', accepted' := Step(p, w.s, i), WorldStep(p, w, i).accepted;
            Grouping(s') ==> s'.count <= |accepted'| && GroupIs(p, s', accepted'[|accepted'| - s'.count..])
  {
    hide Step, LanesOk, GroupIs, Commands;
    var s', accepted' := Step(p, w.s, i), WorldStep(p, w, i).accepted;
    GroupMoves(p, w.s, i);
    if Accepts(p, w.s, i) {
      if w.s.fsm.New? {
        GroupStarts(p, w.s, i);
        assert accepted'[|accepted'| - 1..] == [i.cmd];
      } else {
        var group := w.accepted[|w.accepted| - w.s.count..];
        GroupExtends(p, w.s, i, group);
        assert accepted'[|accepted'| - s'.count..] == group + [i.cmd];
      }
    } else if Grouping(s') {
      assert accepted' == w.accepted;
      GroupKept(p, w.s, s', w.accepted[|w.accepted| - w.s.count..]);
    }
  }

  /** How the registers that describe the group move outside COMMIT. */
  lemma GroupMoves(p: Settings, s: State, i: Input)
    requires WellFormed(p, s) && !s.fsm.Commit?
    ensures var s' := Step(p, s, i);
            && (Grouping(s') ==> Grouping(s) || Accepts(p, s, i))
            && (Accepts(p, s, i) ==> Grouping(s') || i.cmd.we)
            && s'.count == (if Accepts(p, s, i) then if s.fsm.New? then 1 else s.count + 1 else s.count)
            && (!Accepts(p, s, i) ==> s'.addr == s.addr && s'.we == s.we && s'.order == s.order)
            && (Accepts(p, s, i) && !s.fsm.New? ==> Grouping(s))
  {
    hide NextWord, NextChunks, Lane, WideOf;
  }

  lemma GroupKept(p: Settings, s: State, s': State, group: seq<Command>)
    requires WellFormed(p, s) && WellFormed(p, s') && GroupIs(p, s, group)
    requires s'.count == s.count && s'.addr == s.addr && s'.we == s.we && s'.order == s.order
    ensures GroupIs(p, s', group)
  {
  }

  lemma GroupStarts(p: Settings, s: State, i: Input)
    requires WellFormed(p, s) && s.fsm.New? && Accepts(p, s, i) && i.cmd.address < p.Narrows()
    ensures GroupIs(p, Step(p, s, i), [i.cmd])
  {
    hide NextWord, NextChunks, Lane, WideOf;
  }

  lemma GroupExtends(p: Settings, s: State, i: Input, group: seq<Command>)
    requires WellFormed(p, s) && !s.fsm.New? && Accepts(p, s, i) && i.cmd.address < p.Narrows() && GroupIs(p, s, group)
    ensures GroupIs(p, Step(p, s, i), group + [i.cmd])
  {
    hide NextWord, NextChunks, Lane, WideOf;
  }

  /** In COMMIT the next command of the group is carried out, or none is. */
  lemma CommitGroup(p: Settings, w: World, i: Input)
    requires WellFormed(p, w.s) && GroupInv(p, w) && WdataInv(p, w) && w.s.fsm.Commit?
    requires !w.s.we ==> w.s.rdataCount < w.s.count
    ensures GroupInv(p, WorldStep(p, w, i))
  {
    hide Store, NextWord, NextFsm, NextChunks, NextOrder, LanesOk, Beats, WdataInv;
    LanesStep(p, w.s, i);
    assert GroupIs(p, w.s, w.accepted[|w.accepted| - w.s.count..]);
    if Progress(w.s) < w.s.count {
      NextInGroup(p, w);
      if Executes(w, i) != [] { AppendCommand(w.executed, w.accepted, Executes(w, i)[0]); }
    }
    CommitCounts(p, w, i);
  }

  lemma CommitCounts(p: Settings, w: World, i: Input)
    requires WellFormed(p, w.s) && GroupInv(p, w) && WdataInv(p, w) && w.s.fsm.Commit?
    requires !w.s.we ==> w.s.rdataCount < w.s.count
    ensures var w' := WorldStep(p, w, i);
            && w'.s.fsm != Fill && (w'.s.fsm.Cmd? ==> w.s.we)
            && w'.s.we == w.s.we && w'.s.addr == w.s.addr && w'.s.count == w.s.count
            && w'.accepted == w.accepted && w'.s.order == w.s.order && w'.s.chunks == w.s.chunks
            && |w.accepted| == |w'.executed| + (if w'.s.fsm.Commit? then w.s.count - Progress(w'.s) else 0)
  {
    hide Store, NextWord, LanesOk, Beats;
  }

  /** Narrow write beats are used in the order in which they came. */
  lemma QueueStep(p: Settings, w: World, i: Input)
    requires WellFormed(p, w.s) && GroupInv(p, w) && WdataInv(p, w)
    requires w.s.fsm.Commit? && !w.s.we ==> w.s.rdataCount < w.s.count
    ensures var w' := WorldStep(p, w, i); w'.supplied == Beats(w'.executed) + w'.s.wdataFifo
  {
    hide Store, NextWord, NextFsm, NextChunks, NextOrder, NextCount, NextLast, NextLock, NextBuffer, NextPending,
         NextWdataCount, NextRdataCount, NextRdataFifo, LanesOk, GroupIs, Beats, Accepts, Commands;
    assert w.executed + [] == w.executed;
    if Executes(w, i) != [] { BeatsAppend(w.executed, Executes(w, i)[0]); }
    if w.s.fsm.Commit? && Progress(w.s) < w.s.count { NextInGroup(p, w); }
  }

  lemma FlagsStep(p: Settings, w: World, i: Input)
    requires WellFormed(p, w.s) && GroupInv(p, w) && WdataInv(p, w)
    ensures var s' := Step(p, w.s, i);
            && (s'.wdataPending ==> Writing(s'))
            && (Writing(s') ==> s'.wdataCount < s'.count)
            && (!Writing(s') ==> s'.wdataWord == Blank(p) && s'.wdataCount == 0)
  {
    hide Store, NextChunks, NextOrder, GroupIs, Beats;
  }

  /** One wide word is handed over for each wide write, before it is commanded. */
  lemma OutputStep(p: Settings, wide: seq<seq<Word>>, w: World, i: Input)
    requires WellFormed(p, w.s) && WideOk(p, wide) && GroupInv(p, w) && WdataInv(p, w) && Contract(p, wide, w, i)
    ensures var w' := WorldStep(p, w, i);
            && |w'.pushed| == |Beats(w'.emitted)| + (if w'.s.fsm.Cmd? && w'.s.we then 1 else 0)
            && Beats(w'.emitted) <= w'.pushed
            && w'.taken + (if w'.s.wdataBuffer.Some? then 1 else 0) == |w'.pushed|
            && (w'.s.wdataBuffer.Some? ==> w'.s.wdataBuffer.value == w'.pushed[|w'.pushed| - 1])
            && (w'.s.fsm.Cmd? && w'.s.we ==> BeatOk(p, w'.pushed[|w'.pushed| - 1]))
    ensures i.toStrobe ==> w.s.wdataBuffer == Some(Beats(w.emitted)[w.taken])
  {
    hide Store, NextChunks, NextOrder, GroupIs, LanesOk, Beats, NextWord, WideAnswers;
    assert w.emitted + [] == w.emitted;
    if Emits(p, w, i) != [] { BeatsAppend(w.emitted, Emits(p, w, i)[0]); }
  }

  lemma WdataStep(p: Settings, wide: seq<seq<Word>>, w: World, i: Input)
    requires Inv(p, wide, w) && Contract(p, wide, w, i)
    ensures WdataInv(p, WorldStep(p, w, i))
  {
    hide MemoryInv, GroupInv, Contract;
    QueueStep(p, w, i);
    FlagsStep(p, w, i);
    OutputStep(p, wide, w, i);
  }

  // Memory -----------------------------------------------------------------------------------------

  lemma StoreAgrees(p: Settings, wide: seq<seq<Word>>, executed: seq<NarrowOp>, emitted: seq<WideOp>, a: nat,
                    x: WideBeat, b: Beat)
    requires WideOk(p, wide) && Agrees(p, wide, executed, emitted, WideOf(p, a), x)
    requires a < p.Narrows() && Silent(x.we[p.Pos(Lane(p, a))])
    ensures Agrees(p, wide, executed + [Write(a, b)], emitted, WideOf(p, a), Store(p, x, Lane(p, a), b))
  {
    hide Flatten, Put, Store, P.Merge, NarrowMemory;
    NarrowAppend(Flatten(p, wide), executed, Write(a, b));
    StoreIsWrite(p, WideMemory(p, wide, emitted), a, x, b);
  }

  lemma ReadAgrees(p: Settings, wide: seq<seq<Word>>, executed: seq<NarrowOp>, emitted: seq<WideOp>, address: nat,
                   x: WideBeat, a: nat, a': nat)
    requires WideOk(p, wide) && Agrees(p, wide, executed, emitted, address, x)
    ensures Agrees(p, wide, executed + [Read(a)], emitted, address, x)
    ensures Agrees(p, wide, executed, emitted + [Read(a')], address, x)
  {
    hide Flatten, Put, NarrowMemory, WideMemory;
    NarrowAppend(Flatten(p, wide), executed, Read(a));
    WideAppend(p, wide, emitted, Read(a'));
  }

  lemma SendAgrees(p: Settings, wide: seq<seq<Word>>, executed: seq<NarrowOp>, emitted: seq<WideOp>, address: nat,
                   x: WideBeat)
    requires WideOk(p, wide) && Agrees(p, wide, executed, emitted, address, x)
    ensures Agrees(p, wide, executed, emitted + [Write(address, x)], address, Blank(p))
  {
    hide Flatten, Put, NarrowMemory, WideMemory, Blank;
    WideAppend(p, wide, emitted, Write(address, x));
    var w' := Put(p, WideMemory(p, wide, emitted), address, x);
    PutBlank(p, w', address);
    BlankIsBeat(p);
  }

  lemma BlankIsBeat(p: Settings)
    ensures BeatOk(p, Blank(p))
  {
  }

  lemma BlankAgrees(p: Settings, wide: seq<seq<Word>>, executed: seq<NarrowOp>, emitted: seq<WideOp>, address: nat,
                    address': nat)
    requires WideOk(p, wide) && Agrees(p, wide, executed, emitted, address, Blank(p)) && address' < p.Wides()
    ensures Agrees(p, wide, executed, emitted, address', Blank(p))
  {
    hide Flatten, NarrowMemory, WideMemory;
    PutBlank(p, WideMemory(p, wide, emitted), address);
    PutBlank(p, WideMemory(p, wide, emitted), address');
  }

  lemma SilentStep(p: Settings, s: State, i: Input)
    requires WellFormed(p, s) && Writing(s) && !s.wdataPending && LanesOk(p, s) && SilentFrom(p, s) && WdataAccept(s)
    requires s.wdataCount < s.count
    ensures var s' := Step(p, s, i); !s'.wdataPending ==> SilentFrom(p, s')
  {
    hide NextChunks;
  }

  lemma SilentStart(p: Settings, s: State)
    requires WellFormed(p, s) && s.wdataWord == Blank(p)
    ensures SilentFrom(p, s)
  {
  }

  /** COMMIT of a write. */
  lemma WriteMemory(p: Settings, wide: seq<seq<Word>>, w: World, i: Input)
    requires Inv(p, wide, w) && Contract(p, wide, w, i) && Writing(w.s)
    ensures MemoryInv(p, wide, WorldStep(p, w, i))
  {
    hide Agrees, LanesOk, GroupIs, Beats, Store, ReadInv, NextChunks, Contract, SilentFrom, WideMemory;
    assert w.emitted + [] == w.emitted && w.executed + [] == w.executed;
    if WdataAccept(w.s) {
      NextInGroup(p, w);
      var a, b := w.accepted[|w.executed|].address, w.s.wdataFifo[0];
      NextIsSilent(p, w.s);
      StoreAgrees(p, wide, w.executed, w.emitted, a, w.s.wdataWord, b);
      SilentStep(p, w.s, i);
    } else if !WdataFinished(w.s) {
      SilentSame(p, w.s, Step(p, w.s, i));
    }
  }

  lemma NextIsSilent(p: Settings, s: State)
    requires WellFormed(p, s) && SilentFrom(p, s) && s.wdataCount < s.count
    ensures Silent(s.wdataWord.we[p.Pos(s.order[s.wdataCount])])
  {
  }

  lemma SilentSame(p: Settings, s: State, s': State)
    requires WellFormed(p, s) && WellFormed(p, s')
    requires s'.wdataCount == s.wdataCount && s'.count == s.count && s'.order == s.order && s'.wdataWord == s.wdataWord
    ensures SilentFrom(p, s) ==> SilentFrom(p, s')
  {
  }

  /** The wide command is sent. */
  lemma SendMemory(p: Settings, wide: seq<seq<Word>>, w: World, i: Input)
    requires Inv(p, wide, w) && Contract(p, wide, w, i) && w.s.fsm.Cmd?
    ensures MemoryInv(p, wide, WorldStep(p, w, i))
  {
    hide Agrees, LanesOk, GroupIs, Beats, Store, ReadInv, NextChunks, Contract, SilentFrom, WideMemory;
    assert w.emitted + [] == w.emitted && w.executed + [] == w.executed;
    SilentStart(p, w.s);
    if i.toReady {
      if w.s.we {
        SendAgrees(p, wide, w.executed, w.emitted, WideOf(p, w.s.addr), Current(p, w));
      } else {
        ReadAgrees(p, wide, w.executed, w.emitted, WideOf(p, w.s.addr), Current(p, w), 0, WideOf(p, w.s.addr));
      }
    }
  }

  /** NEW and FILL. */
  lemma CollectMemory(p: Settings, wide: seq<seq<Word>>, w: World, i: Input)
    requires Inv(p, wide, w) && Contract(p, wide, w, i) && (w.s.fsm.New? || w.s.fsm.Fill?)
    ensures MemoryInv(p, wide, WorldStep(p, w, i))
  {
    hide Agrees, LanesOk, GroupIs, Beats, Store, ReadInv, NextChunks, SilentFrom, WideMemory, WideAnswers;
    assert w.emitted + [] == w.emitted && w.executed + [] == w.executed;
    SilentStart(p, Step(p, w.s, i));
    FromBound(i.cmd.address, p.chunkBits, p.wideBits);
    BlankAgrees(p, wide, w.executed, w.emitted, WideOf(p, w.s.addr), WideOf(p, i.cmd.address));
  }

  /** COMMIT of a read. */
  lemma ReadMemory(p: Settings, wide: seq<seq<Word>>, w: World, i: Input)
    requires Inv(p, wide, w) && Contract(p, wide, w, i) && w.s.fsm.Commit? && !w.s.we
    ensures MemoryInv(p, wide, WorldStep(p, w, i))
  {
    hide Agrees, LanesOk, GroupIs, Beats, Store, NextChunks, SilentFrom, WideMemory, WideAnswers, ReadInv;
    assert w.emitted + [] == w.emitted && w.executed + [] == w.executed;
    if Executes(w, i) != [] {
      ReadAgrees(p, wide, w.executed, w.emitted, WideOf(p, w.s.addr), Current(p, w), Executes(w, i)[0].address, 0);
    }
  }

  // Reads ------------------------------------------------------------------------------------------

  /** Delivering the lane of the fetched word is the narrow read. */
  lemma DeliveredIsRead(p: Settings, wide: seq<seq<Word>>, w: World, i: Input)
    requires Inv(p, wide, w) && RdataValid(w.s) && i.rdataReady
    ensures |w.executed| < |w.accepted|
    ensures var a := w.accepted[|w.executed|].address;
            a < p.Narrows() && RdataWord(p, w.s) == NarrowMemory(Flatten(p, wide), w.executed)[a]
  {
    hide GroupIs, LanesOk, Beats, NarrowAnswers, Flatten, Put;
    NextInGroup(p, w);
    var a, word := w.accepted[|w.executed|].address, WideMemory(p, wide, w.emitted);
    PutBlank(p, word, WideOf(p, w.s.addr));
    FlatCell(p, word, a);
  }

  /** Narrow reads are answered in order. */
  lemma DeliverStep(p: Settings, wide: seq<seq<Word>>, w: World, i: Input)
    requires Inv(p, wide, w) && Contract(p, wide, w, i)
    ensures var w' := WorldStep(p, w, i); w'.delivered == NarrowAnswers(Flatten(p, wide), w'.executed)
  {
    hide GroupIs, LanesOk, Beats, NarrowAnswers, Flatten, Put, NarrowMemory, Step, WideAnswers, MemoryInv, Contract;
    assert w.executed + [] == w.executed;
    if WdataAccept(w.s) {
      NextInGroup(p, w);
      NarrowAppend(Flatten(p, wide), w.executed, Executes(w, i)[0]);
    } else if RdataValid(w.s) && i.rdataReady {
      DeliveredIsRead(p, wide, w, i);
      NarrowAppend(Flatten(p, wide), w.executed, Executes(w, i)[0]);
    }
  }

  /** The queue has room for every word that comes back. */
  lemma QueueHasRoom(p: Settings, wide: seq<seq<Word>>, w: World, i: Input)
    requires Inv(p, wide, w) && Contract(p, wide, w, i) && i.toRdata.Some?
    ensures Reading(w.s) && w.s.rdataFifo == [] && |w.s.rdataFifo| < p.Ratio() - 1
    ensures w.responses == |WideAnswers(p, wide, w.emitted)| - 1
  {
    hide WideAnswers, GroupIs, LanesOk, Beats, NarrowAnswers, Flatten, MemoryInv, WdataInv, WideMemory;
  }

  /** A wide read's word waits in the queue until all its lanes are delivered. */
  lemma FetchStep(p: Settings, wide: seq<seq<Word>>, w: World, i: Input)
    requires Inv(p, wide, w) && Contract(p, wide, w, i) && Reading(w.s)
    ensures var w' := WorldStep(p, w, i);
            w'.delivered == NarrowAnswers(Flatten(p, wide), w'.executed) ==> ReadInv(p, wide, w')
  {
    hide GroupIs, LanesOk, Beats, NarrowAnswers, Flatten, Put, NarrowMemory, WideAnswers, NextWord, NextChunks,
         NextOrder, Agrees, WdataInv, WideMemory;
    assert w.emitted + [] == w.emitted;
    if i.toRdata.Some? {
      QueueHasRoom(p, wide, w, i);
      var answers := WideAnswers(p, wide, w.emitted);
      assert answers[|answers| - 1..|answers|] == [i.toRdata.value];
    }
    WdataIdle(p, w);
  }

  /** A wide read is sent only when the queue is empty. */
  lemma IdleFetchStep(p: Settings, wide: seq<seq<Word>>, w: World, i: Input)
    requires Inv(p, wide, w) && Contract(p, wide, w, i) && !Reading(w.s)
    ensures var w' := WorldStep(p, w, i);
            w'.delivered == NarrowAnswers(Flatten(p, wide), w'.executed) ==> ReadInv(p, wide, w')
  {
    hide GroupIs, Beats, NarrowAnswers, Flatten, Put, NarrowMemory, WideAnswers, NextWord, NextChunks, NextOrder,
         Agrees, WdataInv, WideMemory;
    assert w.emitted + [] == w.emitted;
    if i.toRdata.Some? { QueueHasRoom(p, wide, w, i); }
    if Emits(p, w, i) != [] { WideAppend(p, wide, w.emitted, Emits(p, w, i)[0]); }
  }

  lemma WdataIdle(p: Settings, w: World)
    requires WellFormed(p, w.s) && WdataInv(p, w) && !Writing(w.s)
    ensures !w.s.wdataPending
  {
  }

  lemma StepInv(p: Settings, wide: seq<seq<Word>>, w: World, i: Input)
    requires Inv(p, wide, w) && Contract(p, wide, w, i)
    ensures Inv(p, wide, WorldStep(p, w, i))
  {
    hide GroupIs, LanesOk, Beats, NarrowAnswers, Flatten, Put, NarrowMemory, WideAnswers, Agrees, WideMemory, Step,
         SilentFrom, Executes, Emits;
    WdataStep(p, wide, w, i);
    DeliverStep(p, wide, w, i);
    if Reading(w.s) { FetchStep(p, wide, w, i); } else { IdleFetchStep(p, wide, w, i); }
    match w.s.fsm {
      case New => CollectMemory(p, wide, w, i); CollectGroup(p, w, i);
      case Fill => CollectMemory(p, wide, w, i); CollectGroup(p, w, i);
      case Cmd => SendMemory(p, wide, w, i); CollectGroup(p, w, i);
      case Commit =>
        CommitGroup(p, w, i);
        if w.s.we { WriteMemory(p, wide, w, i); } else { ReadMemory(p, wide, w, i); }
    }
  }

  // Every run --------------------------------------------------------------------------------------

  function Run(p: Settings, ins: seq<Input>): (w: World)
    ensures WellFormed(p, w.s)
  {
    if ins == [] then Start(p) else WorldStep(p, Run(p, ins[..|ins| - 1]), ins[|ins| - 1])
  }

  /** The controller keeps its contract throughout. */
  ghost predicate Admissible(p: Settings, wide: seq<seq<Word>>, ins: seq<Input>)
    requires WideOk(p, wide)
  {
    forall k | 0 <= k < |ins| :: Contract(p, wide, Run(p, ins[..k]), ins[k])
  }

  lemma {:induction false} RunInv(p: Settings, wide: seq<seq<Word>>, ins: seq<Input>)
    requires WideOk(p, wide) && Admissible(p, wide, ins)
    ensures Inv(p, wide, Run(p, ins))
  {
    hide Inv, Contract, WorldStep, WellFormed, WideOk;
    if ins == [] {
      StartInv(p, wide);
    } else {
      var n := |ins| - 1;
      forall k | 0 <= k < n ensures Contract(p, wide, Run(p, ins[..n][..k]), ins[..n][k]) {
        assert ins[..n][..k] == ins[..k];
      }
      RunInv(p, wide, ins[..n]);
      StepInv(p, wide, Run(p, ins[..n]), ins[n]);
    }
  }

  /** Refinement, for every sequence of narrow commands with any stalls, flushes and `last` marks. `executed` pairs a
      prefix of the accepted commands with the write beats in the order they came. The narrow reads deliver what these
      operations, one by one, return; and between groups all accepted commands are executed, and the wide commands,
      one by one, leave the memory that the narrow ones do. */
  lemma Refines(p: Settings, wide: seq<seq<Word>>, ins: seq<Input>)
    requires WideOk(p, wide) && Admissible(p, wide, ins)
    ensures var w := Run(p, ins);
            && Commands(w.executed) <= w.accepted && |w.accepted| - |w.executed| <= p.Ratio()
            && Beats(w.executed) <= w.supplied
            && w.delivered == NarrowAnswers(Flatten(p, wide), w.executed)
            && (w.s.fsm.New? ==>
                  && Commands(w.executed) == w.accepted
                  && NarrowMemory(Flatten(p, wide), w.executed) == Flatten(p, WideMemory(p, wide, w.emitted)))
  {
    hide GroupIs, Beats, NarrowAnswers, Flatten, Put, NarrowMemory, WideAnswers, WideMemory;
    RunInv(p, wide, ins);
    var w := Run(p, ins);
    PutBlank(p, WideMemory(p, wide, w.emitted), WideOf(p, w.s.addr));
  }

  /** Wide write words leave in the order of the wide write commands: a strobe always finds the word of its own
      command, and a word that comes back always finds room. */
  lemma PortsAreServed(p: Settings, wide: seq<seq<Word>>, ins: seq<Input>, i: Input)
    requires WideOk(p, wide) && Admissible(p, wide, ins) && Contract(p, wide, Run(p, ins), i)
    ensures var w := Run(p, ins);
            && (i.toStrobe ==> w.s.wdataBuffer == Some(Beats(w.emitted)[w.taken]))
            && (i.toRdata.Some? ==> |w.s.rdataFifo| < p.Ratio() - 1)
  {
    hide GroupIs, LanesOk, Beats, NarrowAnswers, Flatten, Put, NarrowMemory, WideAnswers, WideMemory, Step;
    RunInv(p, wide, ins);
    OutputStep(p, wide, Run(p, ins), i);
    if i.toRdata.Some? { QueueHasRoom(p, wide, Run(p, ins), i); }
  }

  // Population count -------------------------------------------------------------------------------

  lemma {:induction false} OnesUpdate(mask: seq<bool>, l: nat)
    requires l < |mask| && !mask[l]
    ensures T.Ones(mask[l := true]) == T.Ones(mask) + 1
  {
    if l > 0 {
      OnesUpdate(mask[1..], l - 1);
      assert mask[l := true][1..] == mask[1..][l - 1 := true];
    } else {
      assert mask[l := true][1..] == mask[1..];
    }
  }

  /** A duplicate-free list whose elements are exactly the set lanes is as long as the mask's population count. */
  lemma {:induction false} ListCountsMask(list: seq<nat>, mask: seq<bool>)
    requires forall k | 0 <= k < |list| :: list[k] < |mask| && mask[list[k]]
    requires forall j, k | 0 <= j < k < |list| :: list[j] != list[k]
    requires forall l | 0 <= l < |mask| && mask[l] :: l in list
    ensures |list| == T.Ones(mask)
  {
    if list == [] {
      T.OnesBounds(mask);
    } else {
      var last, rest := list[|list| - 1], list[..|list| - 1];
      var mask' := mask[last := false];
      assert mask'[last := true] == mask;
      OnesUpdate(mask', last);
      ListCountsMask(rest, mask');
    }
  }

  /** While a group is open its lane list is duplicate-free and as long as the lane mask's population count. */
  lemma LaneListsMatchMask(p: Settings, wide: seq<seq<Word>>, ins: seq<Input>)
    requires WideOk(p, wide) && Admissible(p, wide, ins) && Grouping(Run(p, ins).s)
    ensures var s := Run(p, ins).s;
            && s.count <= |s.order| && s.count == T.Ones(s.chunks)
            && forall j, k | 0 <= j < k < s.count :: s.order[j] != s.order[k]
  {
    hide GroupIs, WdataInv, MemoryInv, ReadInv;
    RunInv(p, wide, ins);
    var s := Run(p, ins).s;
    ListCountsMask(s.order[..s.count], s.chunks);
  }
}
