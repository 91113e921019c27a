/** litedram/frontend/fifo.py at width ratio 1: a stream FIFO stored in DRAM as a ring, with an automatic bypass. */
module DramFifos {
  import opened Common
  import T = TimingControllers
  import Rd = DmaReaders
  import Wr = DmaWriters

  type Data = nat

  /** `addressBits` is the width of the ports' addresses and of the count of words in DRAM. */
  datatype Settings = Settings(depth: pos, addressBits: nat, withBypass: bool, preDepth: pos, postDepth: pos,
                               writerDepth: pos, readerDepth: pos)

  // The ring's pointers ----------------------------------------------------------------------------

  /** `_inc`: the pointer wraps by its own width when that is the depth. */
  function Inc(pointer: nat, depth: pos): nat {
    var modulus := T.SignalModulus(Max(depth, 2));
    if depth == modulus then T.Truncate(pointer + 1, modulus)
    else if pointer == depth - 1 then 0
    else pointer + 1
  }

  lemma IncWraps(pointer: nat, depth: pos)
    requires pointer < depth
    ensures Inc(pointer, depth) == if pointer + 1 == depth then 0 else pointer + 1
  {
    assert T.Truncate(0, T.SignalModulus(Max(depth, 2))) == 0;
  }

  datatype Ctrl = Ctrl(level: nat, writeAddress: nat, readAddress: nat)

  /** The level counts modulo the size of `Signal(max=depth + 1)`. */
  function CtrlStep(depth: pos, s: Ctrl, write: bool, read: bool): Ctrl {
    var modulus := T.SignalModulus(depth + 1);
    Ctrl(if write && !read then T.Truncate(s.level + 1, modulus)
         else if read && !write then T.Decrement(s.level, modulus)
         else s.level,
         if write then Inc(s.writeAddress, depth) else s.writeAddress,
         if read then Inc(s.readAddress, depth) else s.readAddress)
  }

  /** Position `k` places after `start` in a ring. */
  function At(start: nat, k: nat, depth: pos): nat { if start + k < depth then start + k else start + k - depth }

  ghost predicate CtrlInv(depth: pos, s: Ctrl) {
    && s.level <= depth && s.readAddress < depth && s.writeAddress < depth
    && s.writeAddress == At(s.readAddress, s.level, depth)
  }

  lemma CtrlStepInv(depth: pos, s: Ctrl, write: bool, read: bool)
    requires CtrlInv(depth, s) && (write ==> s.level < depth) && (read ==> s.level > 0)
    ensures CtrlInv(depth, CtrlStep(depth, s, write, read))
  {
    IncWraps(s.writeAddress, depth);
    IncWraps(s.readAddress, depth);
  }

  /** The words in the ring, oldest first. */
  function Ring(dram: seq<Data>, start: nat, level: nat): (r: seq<Data>)
    requires start < |dram| && level <= |dram|
    ensures |r| == level && forall k | 0 <= k < level :: r[k] == dram[At(start, k, |dram|)]
  {
    seq(level, k requires 0 <= k < level && start < |dram| && level <= |dram| => dram[At(start, k, |dram|)])
  }

  lemma RingStep(dram: seq<Data>, s: Ctrl, write: Option<Data>, read: bool)
    requires |dram| > 0 && CtrlInv(|dram|, s)
    requires (write.Some? ==> s.level < |dram|) && (read ==> s.level > 0)
    ensures CtrlInv(|dram|, CtrlStep(|dram|, s, write.Some?, read))
    ensures var s' := CtrlStep(|dram|, s, write.Some?, read);
            var dram' := if write.Some? then dram[s.writeAddress := write.value] else dram;
            var ring := Ring(dram, s.readAddress, s.level);
            Ring(dram', s'.readAddress, s'.level)
            == (if read then ring[1..] else ring) + (if write.Some? then [write.value] else [])
  {
    CtrlStepInv(|dram|, s, write.Some?, read);
    IncWraps(s.readAddress, |dram|);
    var s' := CtrlStep(|dram|, s, write.Some?, read);
    var dram' := if write.Some? then dram[s.writeAddress := write.value] else dram;
    var after := (if read then Ring(dram, s.readAddress, s.level)[1..] else Ring(dram, s.readAddress, s.level))
                 + (if write.Some? then [write.value] else []);
    forall k | 0 <= k < s'.level ensures Ring(dram', s'.readAddress, s'.level)[k] == after[k] {
    }
  }

  // The FIFO ---------------------------------------------------------------------------------------

  datatype Fsm = Bypass | Dram

  datatype State = State(fsm: Fsm, first: bool, count: nat, ctrl: Ctrl, writer: seq<Data>, reader: Rd.State,
                         pre: seq<Data>, post: seq<Data>)

  /** Without bypass there is no FSM, and the path through DRAM is always on. */
  function Reset(p: Settings): State {
    State(if p.withBypass then Bypass else Dram, false, 0, Ctrl(0, 0, 0), [], Rd.Reset, [], [])
  }

  /** Inputs of one cycle: the sink's word when valid, the source's `ready`, and the two native ports. */
  datatype Input = Input(sink: Option<Data>, ready: bool,
                         writeReady: bool, strobe: bool, readReady: bool, rdata: Option<Data>)

  /** DRAM mode ends: nothing is left in DRAM. */
  predicate Leaves(p: Settings, s: State) { p.withBypass && s.fsm.Dram? && !s.first && s.count == 0 }

  predicate Bypassing(p: Settings, s: State) { p.withBypass && s.fsm.Bypass? }

  predicate Stores(p: Settings, s: State) { !p.withBypass || (s.fsm.Dram? && !Leaves(p, s)) }

  /** The DMA writer's stream: the pre-FIFO's word while the ring has room. */
  function WriterInput(p: Settings, s: State, i: Input): Wr.Input {
    Wr.Input(if !Bypassing(p, s) && Stores(p, s) && s.pre != [] && s.ctrl.level < p.depth then Some(s.pre[0]) else None,
             i.writeReady, i.strobe)
  }

  /** A word goes into the ring. */
  predicate Writes(p: Settings, s: State, i: Input) { Wr.CmdAccepted(p.writerDepth, s.writer, WriterInput(p, s, i)) }

  predicate PostReady(p: Settings, s: State) { |s.post| < p.postDepth }

  /** The DMA reader's streams: the ring's next address, and the post-FIFO while it is connected. */
  function ReaderInput(p: Settings, s: State, i: Input): Rd.Input {
    Rd.Input(true, s.ctrl.level > 0, false, i.readReady, i.rdata, !Bypassing(p, s) && PostReady(p, s))
  }

  /** A word of the ring is asked for. */
  predicate Asks(p: Settings, s: State, i: Input) { Rd.CmdAccepted(p.readerDepth, s.reader, ReaderInput(p, s, i)) }

  /** A word from DRAM enters the post-FIFO. */
  predicate Gets(p: Settings, s: State) { !Bypassing(p, s) && Rd.SourceValid(s.reader) && PostReady(p, s) }

  /** A word passes from the pre-FIFO to the post-FIFO. */
  predicate Passes(p: Settings, s: State) { Bypassing(p, s) && s.pre != [] && PostReady(p, s) }

  predicate SinkReady(p: Settings, s: State) { |s.pre| < p.preDepth }

  predicate Accepts(p: Settings, s: State, i: Input) { i.sink.Some? && SinkReady(p, s) }

  predicate Delivers(s: State, i: Input) { i.ready && s.post != [] }

  /** What is presented to the consumer. */
  function Source(s: State): Option<Data> { if s.post == [] then None else Some(s.post[0]) }

  /** The place in the ring that is offered to the write port, and the one asked for on the read port. */
  function WriteCmd(p: Settings, s: State, i: Input): Option<nat> {
    if WriterInput(p, s, i).sink.Some? && |s.writer| < p.writerDepth then Some(s.ctrl.writeAddress) else None
  }

  function ReadCmd(p: Settings, s: State, i: Input): Option<nat> {
    if Rd.CmdValid(p.readerDepth, s.reader, ReaderInput(p, s, i)) then Some(s.ctrl.readAddress) else None
  }

  function NextFsm(p: Settings, s: State): Fsm {
    if !p.withBypass then Dram
    else if s.fsm.Bypass? then if |s.pre| >= 1 then Dram else Bypass
    else if Leaves(p, s) then Bypass
    else Dram
  }

  /** The count of words in DRAM, in the width of its register. */
  function NextCount(p: Settings, s: State, i: Input): nat {
    if !p.withBypass then s.count
    else if s.fsm.Bypass? then if |s.pre| >= 1 then 0 else s.count
    else if Writes(p, s, i) && !Gets(p, s) then if s.count + 1 == Pow2(p.addressBits) then 0 else s.count + 1
    else if Gets(p, s) && !Writes(p, s, i) then if s.count == 0 then Pow2(p.addressBits) - 1 else s.count - 1
    else s.count
  }

  function Step(p: Settings, s: State, i: Input): State {
    State(
      NextFsm(p, s),
      if !p.withBypass then s.first
      else if s.fsm.Bypass? then |s.pre| >= 1 || s.first
      else s.first && !Writes(p, s, i),
      NextCount(p, s, i),
      CtrlStep(p.depth, s.ctrl, Writes(p, s, i), Asks(p, s, i)),
      Wr.Step(p.writerDepth, s.writer, WriterInput(p, s, i)),
      Rd.Step(p.readerDepth, s.reader, ReaderInput(p, s, i)),
      (if Passes(p, s) || Writes(p, s, i) then s.pre[1..] else s.pre)
          + (if Accepts(p, s, i) then [i.sink.value] else []),
      (if Delivers(s, i) then s.post[1..] else s.post)
        + (if Passes(p, s) then [s.pre[0]] else if Gets(p, s) then [s.reader.data[0]] else []))
  }

  // The FIFO and its memory ------------------------------------------------------------------------

  /** `dram` is the ring's memory as commanded; `awaited` the words of reads that are still to come back; `unwritten`
      those of writes that are still to be strobed. */
  datatype World = World(s: State, dram: seq<Data>, awaited: seq<Data>, unwritten: seq<Data>,
                         accepted: seq<Data>, delivered: seq<Data>)

  function Start(p: Settings): World { World(Reset(p), seq(p.depth, _ => 0), [], [], [], []) }

  /** The two ports' side: a read returns the word of the last write commanded before it, in order, and each write is
      strobed once. */
  ghost predicate Contract(w: World, i: Input) {
    && (i.rdata.Some? ==> w.awaited != [] && i.rdata.value == w.awaited[0])
    && (i.strobe ==> w.unwritten != [])
  }

  function WorldStep(p: Settings, w: World, i: Input): World {
    var s := w.s;
    World(
      Step(p, s, i),
      if Writes(p, s, i) && s.ctrl.writeAddress < |w.dram| then w.dram[s.ctrl.writeAddress := s.pre[0]] else w.dram,
      (if i.rdata.Some? && w.awaited != [] then w.awaited[1..] else w.awaited)
        + (if Asks(p, s, i) && s.ctrl.readAddress < |w.dram| then [w.dram[s.ctrl.readAddress]] else []),
      (if i.strobe && w.unwritten != [] then w.unwritten[1..] else w.unwritten)
        + (if Writes(p, s, i) then [s.pre[0]] else []),
      w.accepted + (if Accepts(p, s, i) then [i.sink.value] else []),
      w.delivered + (if Delivers(s, i) then [s.post[0]] else []))
  }

  ghost predicate PathInv(p: Settings, w: World) {
    && |w.dram| == p.depth && CtrlInv(p.depth, w.s.ctrl)
    && |w.s.reader.data| + |w.awaited| == |w.s.reader.reserved| <= p.readerDepth
    && w.unwritten == w.s.writer && |w.s.writer| <= p.writerDepth
    && (!p.withBypass ==> w.s.fsm.Dram?)
  }

  /** Words on the way through DRAM, oldest first: back from it, asked for, and in the ring. */
  ghost function InDram(p: Settings, w: World): seq<Data>
    requires PathInv(p, w)
  {
    w.s.reader.data + w.awaited + Ring(w.dram, w.s.ctrl.readAddress, w.s.ctrl.level)
  }

  /** The words accepted and not yet delivered, in the order of the FIFO. */
  ghost predicate OrderInv(p: Settings, w: World)
    requires PathInv(p, w)
  {
    w.accepted == w.delivered + (w.s.post + (InDram(p, w) + w.s.pre))
  }

  /** The count is the number of words on the way through DRAM, and in bypass there are none. */
  ghost predicate CountInv(p: Settings, w: World)
    requires PathInv(p, w)
  {
    p.withBypass ==>
      if w.s.fsm.Bypass? then InDram(p, w) == []
      else w.s.count == |InDram(p, w)| && (w.s.first ==> InDram(p, w) == [])
  }

  /** Every word that DRAM and the reader can hold is counted. */
  predicate Countable(p: Settings) { p.depth + p.readerDepth < Pow2(p.addressBits) }

  ghost predicate Inv(p: Settings, w: World) { PathInv(p, w) && OrderInv(p, w) && CountInv(p, w) }

  lemma PathStep(p: Settings, w: World, i: Input)
    requires PathInv(p, w) && Contract(w, i)
    ensures PathInv(p, WorldStep(p, w, i))
  {
    CtrlStepInv(p.depth, w.s.ctrl, Writes(p, w.s, i), Asks(p, w.s, i));
  }

  function Head(take: bool, s: seq<Data>): seq<Data>
    requires take ==> s != []
  {
    if take then [s[0]] else []
  }

  function Tail(take: bool, s: seq<Data>): seq<Data>
    requires take ==> s != []
  {
    if take then s[1..] else s
  }

  /** A word that leaves one queue and enters the queue before it stays in its place. */
  lemma Handover(a: seq<Data>, take: bool, s: seq<Data>, b: seq<Data>)
    requires take ==> s != []
    ensures (a + Head(take, s)) + (Tail(take, s) + b) == a + (s + b)
  {
    assert s == Head(take, s) + Tail(take, s);
  }

  /** Three queues in a row: what leaves one enters the next. */
  lemma QueuesInARow(data: seq<Data>, awaited: seq<Data>, ring: seq<Data>, added: seq<Data>, get: bool, back: bool,
                     ask: bool)
    requires (get ==> data != []) && (back ==> awaited != []) && (ask ==> ring != [])
    ensures (Tail(get, data) + Head(back, awaited)) + (Tail(back, awaited) + Head(ask, ring))
        + (Tail(ask, ring) + added)
         == Tail(get, data + awaited + ring) + added
  {
    hide Head, Tail;
    Regroup(Tail(get, data) + Head(back, awaited), Tail(back, awaited) + Head(ask, ring), Tail(ask, ring) + added);
    Handover(Tail(back, awaited), ask, ring, added);
    Handover(Tail(get, data), back, awaited, ring + added);
    TailOfRow(data, awaited, ring, added, get);
  }

  lemma Regroup(a: seq<Data>, b: seq<Data>, c: seq<Data>)
    ensures a + b + c == a + (b + c)
  {
  }

  lemma TailOfRow(data: seq<Data>, awaited: seq<Data>, ring: seq<Data>, added: seq<Data>, get: bool)
    requires get ==> data != []
    ensures Tail(get, data) + (awaited + (ring + added)) == Tail(get, data + awaited + ring) + added
  {
    if get { assert (data + awaited + ring)[1..] == data[1..] + awaited + ring; }
  }

  /** How the words on the way through DRAM change in a cycle. */
  lemma InDramStep(p: Settings, w: World, i: Input)
    requires PathInv(p, w) && Contract(w, i)
    ensures PathInv(p, WorldStep(p, w, i))
    ensures Gets(p, w.s) ==> InDram(p, w) != [] && w.s.reader.data != [] && InDram(p, w)[0] == w.s.reader.data[0]
    ensures Writes(p, w.s, i) ==> w.s.pre != []
    ensures InDram(p, WorldStep(p, w, i))
         == (if Gets(p, w.s) then InDram(p, w)[1..] else InDram(p, w))
             + (if Writes(p, w.s, i) then [w.s.pre[0]] else [])
  {
    hide CtrlStep, Ring, NextFsm, NextCount;
    PathStep(p, w, i);
    RingStep(w.dram, w.s.ctrl, if Writes(p, w.s, i) then Some(w.s.pre[0]) else None, Asks(p, w.s, i));
    QueuesInARow(w.s.reader.data, w.awaited, Ring(w.dram, w.s.ctrl.readAddress, w.s.ctrl.level),
                 Head(Writes(p, w.s, i), w.s.pre), Gets(p, w.s), i.rdata.Some?, Asks(p, w.s, i));
  }

  /** Delivered words and the FIFO's three stretches, over a cycle. */
  lemma QueuesMove(delivered: seq<Data>, post: seq<Data>, dram: seq<Data>, pre: seq<Data>, added: seq<Data>,
                   deliver: bool, get: bool, write: bool)
    requires (deliver ==> post != []) && (get ==> dram != []) && (write ==> pre != [])
    ensures (delivered + Head(deliver, post))
            + ((Tail(deliver, post) + Head(get, dram))
                + ((Tail(get, dram) + Head(write, pre)) + (Tail(write, pre) + added)))
         == delivered + (post + (dram + pre)) + added
  {
    hide Head, Tail;
    Handover(Tail(get, dram), write, pre, added);
    Handover(Tail(deliver, post), get, dram, pre + added);
    Handover(delivered, deliver, post, dram + (pre + added));
    Regroup(dram, pre, added);
    Regroup(post, dram + pre, added);
    Regroup(delivered, post + (dram + pre), added);
  }

  /** The queues at both ends, over a cycle. */
  lemma EndsMove(p: Settings, w: World, i: Input)
    requires PathInv(p, w)
    ensures Writes(p, w.s, i) ==> w.s.pre != []
    ensures Gets(p, w.s) ==> w.s.reader.data != []
    ensures var w', enters := WorldStep(p, w, i),
              if Passes(p, w.s) then Head(true, w.s.pre) else Head(Gets(p, w.s), w.s.reader.data);
            && w'.s.post == Tail(Delivers(w.s, i), w.s.post) + enters
            && w'.s.pre == Tail(Passes(p, w.s) || Writes(p, w.s, i), w.s.pre)
                           + (if Accepts(p, w.s, i) then [i.sink.value] else [])
            && w'.accepted == w.accepted + (if Accepts(p, w.s, i) then [i.sink.value] else [])
            && w'.delivered == w.delivered + Head(Delivers(w.s, i), w.s.post)
  {
    hide CtrlStep, NextFsm, NextCount, Rd.Step, Wr.Step;
  }

  lemma OrderStep(p: Settings, w: World, i: Input)
    requires Inv(p, w) && Contract(w, i)
    ensures PathInv(p, WorldStep(p, w, i)) && OrderInv(p, WorldStep(p, w, i))
  {
    hide WorldStep, Writes, Gets, PathInv, InDram, CountInv;
    InDramStep(p, w, i);
    EndsMove(p, w, i);
    var added := if Accepts(p, w.s, i) then [i.sink.value] else [];
    if Passes(p, w.s) {
      EmptyInBypass(p, w);
      PassMoves(w.delivered, w.s.post, w.s.pre, added, Delivers(w.s, i));
    } else {
      QueuesMove(w.delivered, w.s.post, InDram(p, w), w.s.pre, added, Delivers(w.s, i), Gets(p, w.s),
          Writes(p, w.s, i));
    }
  }

  /** A word passing from the pre-FIFO straight to the post-FIFO, with nothing between them. */
  lemma PassMoves(delivered: seq<Data>, post: seq<Data>, pre: seq<Data>, added: seq<Data>, deliver: bool)
    requires (deliver ==> post != []) && pre != []
    ensures (delivered + Head(deliver, post)) + ((Tail(deliver, post) + Head(true, pre))
        + ([] + (Tail(true, pre) + added)))
         == delivered + (post + ([] + pre)) + added
  {
    assert [] + pre == pre && [] + (Tail(true, pre) + added) == Tail(true, pre) + added;
    hide Head, Tail;
    Handover(Tail(deliver, post), true, pre, added);
    Handover(delivered, deliver, post, pre + added);
    Regroup(post, pre, added);
    Regroup(delivered, post + pre, added);
  }

  lemma EmptyInBypass(p: Settings, w: World)
    requires Inv(p, w) && Passes(p, w.s)
    ensures InDram(p, w) == [] && forall i :: !Writes(p, w.s, i)
    ensures !Gets(p, w.s)
  {
  }

  lemma CountStep(p: Settings, w: World, i: Input)
    requires Inv(p, w) && Contract(w, i) && Countable(p)
    ensures PathInv(p, WorldStep(p, w, i)) && CountInv(p, WorldStep(p, w, i))
  {
    hide CtrlStep, Ring, Rd.Step, Wr.Step, PathInv, InDram, Writes, Gets;
    InDramStep(p, w, i);
    AtMost(p, w);
    AtMost(p, WorldStep(p, w, i));
    NoStoreIdle(p, w.s, i);
    assert |InDram(p, WorldStep(p, w, i))|
        == |InDram(p, w)| - (if Gets(p, w.s) then 1 else 0) + (if Writes(p, w.s, i) then 1 else 0);
  }

  lemma NoStoreIdle(p: Settings, s: State, i: Input)
    ensures Bypassing(p, s) ==> !Gets(p, s)
    ensures Bypassing(p, s) || !Stores(p, s) ==> !Writes(p, s, i)
  {
  }

  lemma AtMost(p: Settings, w: World)
    requires PathInv(p, w)
    ensures |InDram(p, w)| <= p.depth + p.readerDepth
    ensures InDram(p, w) == [] ==> !Gets(p, w.s)
  {
  }

  lemma StepInv(p: Settings, w: World, i: Input)
    requires Inv(p, w) && Contract(w, i) && (p.withBypass ==> Countable(p))
    ensures Inv(p, WorldStep(p, w, i))
  {
    hide PathInv, OrderInv, WorldStep, InDram;
    OrderStep(p, w, i);
    if p.withBypass { CountStep(p, w, i); }
  }

  // Every run --------------------------------------------------------------------------------------

  function Run(p: Settings, ins: seq<Input>): World {
    if ins == [] then Start(p) else WorldStep(p, Run(p, ins[..|ins| - 1]), ins[|ins| - 1])
  }

  ghost predicate Admissible(p: Settings, ins: seq<Input>) {
    ins != [] ==> Admissible(p, ins[..|ins| - 1]) && Contract(Run(p, ins[..|ins| - 1]), ins[|ins| - 1])
  }

  lemma Extend(p: Settings, ins: seq<Input>, i: Input)
    requires Admissible(p, ins) && Contract(Run(p, ins), i)
    ensures Admissible(p, ins + [i]) && Run(p, ins + [i]) == WorldStep(p, Run(p, ins), i)
  {
    assert (ins + [i])[..|ins|] == ins;
  }

  lemma {:induction false} RunInv(p: Settings, ins: seq<Input>)
    requires Admissible(p, ins) && (p.withBypass ==> Countable(p))
    ensures Inv(p, Run(p, ins))
  {
    hide WorldStep;
    if ins != [] {
      RunInv(p, ins[..|ins| - 1]);
      StepInv(p, Run(p, ins[..|ins| - 1]), ins[|ins| - 1]);
    }
  }

  lemma {:induction false} RunPath(p: Settings, ins: seq<Input>)
    requires Admissible(p, ins)
    ensures PathInv(p, Run(p, ins))
  {
    hide WorldStep;
    if ins != [] {
      RunPath(p, ins[..|ins| - 1]);
      PathStep(p, Run(p, ins[..|ins| - 1]), ins[|ins| - 1]);
    }
  }

  /** The ring, on every run and for any depth: the write pointer is `level` places after the read pointer, and the
      level never exceeds the depth. Returning words always find room, and every strobe finds its own word. */
  lemma RingIsConsistent(p: Settings, ins: seq<Input>, i: Input)
    requires Admissible(p, ins) && Contract(Run(p, ins), i)
    ensures var w := Run(p, ins);
            && 0 <= w.s.ctrl.level <= p.depth
            && w.s.ctrl.writeAddress == (w.s.ctrl.readAddress + w.s.ctrl.level) % p.depth
            && (i.rdata.Some? ==> |w.s.reader.data| < p.readerDepth)
            && (i.strobe ==> w.s.writer != [] && w.s.writer[0] == w.unwritten[0])
  {
    RunPath(p, ins);
    var s := Run(p, ins).s.ctrl;
    AtIsModulo(s.readAddress + s.level, p.depth);
  }

  lemma AtIsModulo(x: nat, depth: pos)
    requires x < 2 * depth
    ensures x % depth == if x < depth then x else x - depth
  {
  }

  /** Nothing is lost, duplicated or reordered across the switches between bypass and DRAM, as long as the register that
      counts the words in DRAM can count them all. */
  lemma OutputIsPrefix(p: Settings, ins: seq<Input>)
    requires Admissible(p, ins) && (p.withBypass ==> Countable(p))
    ensures Run(p, ins).delivered <= Run(p, ins).accepted
  {
    RunInv(p, ins);
  }

  // When the count wraps ---------------------------------------------------------------------------

  /** A cycle in which the sink offers `x`, or nothing, and the consumer is ready; the memory never answers a read. */
  function Quiet(sink: Option<Data>, write: bool, strobe: bool, ask: bool): Input {
    Input(sink, true, write, strobe, ask, None)
  }

  /** Words asked for after `j` words were stored: as many as the reader has room for. */
  function Asked(p: Settings, j: nat): nat { if j < p.readerDepth then j else p.readerDepth }

  /** DRAM mode after `j` stored words, with word 0 delivered through the bypass. */
  ghost predicate Filling(p: Settings, w: World, j: nat) {
    var s := w.s;
    && PathInv(p, w) && s.pre == [] && s.post == [] && s.writer == [] && s.reader.data == []
    && s.ctrl.level == j - Asked(p, j) && |s.reader.reserved| == Asked(p, j)
    && |w.accepted| == j + 1 && w.delivered == [0] && (j >= 1 ==> w.accepted[1] == 1)
    && (if j < Pow2(p.addressBits) then s.fsm.Dram? && s.first == (j == 0) && s.count == j else s.fsm.Bypass?)
  }

  lemma Cycle(p: Settings, ins: seq<Input>, i: Input) returns (r: seq<Input>)
    requires Admissible(p, ins) && Contract(Run(p, ins), i)
    ensures Admissible(p, r) && Run(p, r) == WorldStep(p, Run(p, ins), i) && PathInv(p, Run(p, r))
  {
    hide WorldStep;
    Extend(p, ins, i);
    r := ins + [i];
    RunPath(p, r);
  }

  /** In bypass with nothing at either end, an offered word goes straight to the consumer, and turns DRAM mode on. */
  lemma PassOne(p: Settings, ins: seq<Input>, x: Data) returns (r: seq<Input>)
    requires p.withBypass && Admissible(p, ins)
    requires var w := Run(p, ins);
             PathInv(p, w) && w.s.fsm.Bypass? && w.s.pre == w.s.post == w.s.writer == w.s.reader.data == []
    ensures Admissible(p, r) && PathInv(p, Run(p, r))
    ensures var w, w' := Run(p, ins), Run(p, r);
            && w'.s == w.s.(fsm := Dram, first := true, count := 0)
            && w'.accepted == w.accepted + [x] && w'.delivered == w.delivered + [x]
  {
    hide WorldStep, PathInv;
    var w := Run(p, ins);
    PassOffer(p, w, x);
    var w1 := w.(s := w.s.(pre := [x]), accepted := w.accepted + [x]);
    r := Cycle(p, ins, Quiet(Some(x), false, false, false));
    PassThrough(p, w1, x);
    r := Cycle(p, r, Quiet(None, false, false, false));
    PassDeliver(p, w1.(s := w1.s.(fsm := Dram, first := true, count := 0, pre := [], post := [x])), x);
    r := Cycle(p, r, Quiet(None, false, false, false));
  }

  lemma PassOffer(p: Settings, w: World, x: Data)
    requires p.withBypass && w.s.fsm.Bypass? && w.s.pre == w.s.post == w.s.writer == w.s.reader.data == []
    ensures WorldStep(p, w, Quiet(Some(x), false, false, false))
         == w.(s := w.s.(pre := [x]), accepted := w.accepted + [x])
  {
  }

  lemma PassThrough(p: Settings, w: World, x: Data)
    requires p.withBypass && w.s.fsm.Bypass? && w.s.pre == [x] && w.s.post == w.s.writer == w.s.reader.data == []
    ensures WorldStep(p, w, Quiet(None, false, false, false))
         == w.(s := w.s.(fsm := Dram, first := true, count := 0, pre := [], post := [x]))
  {
  }

  lemma PassDeliver(p: Settings, w: World, x: Data)
    requires p.withBypass && w.s.fsm.Dram? && w.s.first && w.s.count == 0
    requires w.s.post == [x] && w.s.pre == w.s.writer == w.s.reader.data == []
    ensures WorldStep(p, w, Quiet(None, false, false, false))
         == w.(s := w.s.(post := []), delivered := w.delivered + [x])
  {
  }

  lemma FillStart(p: Settings) returns (ins: seq<Input>)
    requires p.withBypass
    ensures Admissible(p, ins) && Filling(p, Run(p, ins), 0)
  {
    RunPath(p, []);
    ins := PassOne(p, [], 0);
  }

  /** A word enters the pre-FIFO. */
  ghost predicate Offered(p: Settings, w: World, w': World, j: nat)
    requires Filling(p, w, j)
  {
    && w' == w.(s := w.s.(pre := [j + 1]), accepted := w.accepted + [j + 1])
  }

  lemma OfferStep(p: Settings, w: World, j: nat)
    requires p.withBypass && Filling(p, w, j) && j < Pow2(p.addressBits)
    ensures Offered(p, w, WorldStep(p, w, Quiet(Some(j + 1), false, false, false)), j)
  {
    hide PathInv;
    var w' := WorldStep(p, w, Quiet(Some(j + 1), false, false, false));
    assert w'.s.ctrl == w.s.ctrl && w'.s.reader == w.s.reader && w'.s.writer == w.s.writer;
    assert w'.dram == w.dram && w'.awaited == w.awaited && w'.unwritten == w.unwritten;
  }

  /** It is stored. */
  lemma WriteStep(p: Settings, w: World, w': World, j: nat)
    requires p.withBypass && Filling(p, w, j) && j < Pow2(p.addressBits) && j < p.depth + p.readerDepth
    requires Offered(p, w, w', j)
    ensures var t := WorldStep(p, w', Quiet(None, true, false, false));
            && t.s.pre == [] && t.s.post == [] && t.s.writer == [j + 1] && t.s.reader == w.s.reader
            && t.s.ctrl.level == w.s.ctrl.level + 1 && t.unwritten == [j + 1]
            && t.accepted == w.accepted + [j + 1] && t.delivered == w.delivered
            && t.s.fsm.Dram? && !t.s.first && t.s.count == (if j + 1 == Pow2(p.addressBits) then 0 else j + 1)
  {
  }

  /** Its data is strobed, and one more word is asked for while the reader has room. */
  lemma StrobeStep(p: Settings, w: World, j: nat)
    requires p.withBypass && j < Pow2(p.addressBits)
    requires PathInv(p, w) && PathInv(p, WorldStep(p, w, Quiet(None, false, true, true)))
    requires w.s.pre == [] && w.s.post == [] && |w.s.writer| == 1 && w.s.reader.data == []
    requires w.s.ctrl.level == j - Asked(p, j) + 1 && |w.s.reader.reserved| == Asked(p, j)
    requires |w.accepted| == j + 2 && w.delivered == [0] && w.accepted[1] == 1
    requires w.s.fsm.Dram? && !w.s.first && w.s.count == (if j + 1 == Pow2(p.addressBits) then 0 else j + 1)
    ensures Filling(p, WorldStep(p, w, Quiet(None, false, true, true)), j + 1)
  {
    hide PathInv;
  }

  lemma {:induction false} Fill(p: Settings, j: nat) returns (ins: seq<Input>)
    requires p.withBypass && j <= Pow2(p.addressBits) && j <= p.depth + p.readerDepth
    ensures Admissible(p, ins) && Filling(p, Run(p, ins), j)
  {
    hide WorldStep, PathInv, CtrlStep;
    if j == 0 {
      ins := FillStart(p);
    } else {
      ins := Fill(p, j - 1);
      var w := Run(p, ins);
      OfferStep(p, w, j - 1);
      ins := Cycle(p, ins, Quiet(Some(j), false, false, false));
      WriteStep(p, w, Run(p, ins), j - 1);
      ins := Cycle(p, ins, Quiet(None, true, false, false));
      var t := Run(p, ins);
      ins := Cycle(p, ins, Quiet(None, false, true, true));
      StrobeStep(p, t, j - 1);
    }
  }

  /** Once the count has wrapped, the next word overtakes everything in DRAM. */
  lemma Overtakes(p: Settings) returns (ins: seq<Input>)
    requires p.withBypass && !Countable(p)
    ensures Admissible(p, ins) && !(Run(p, ins).delivered <= Run(p, ins).accepted)
  {
    hide WorldStep, PathInv, Pow2, Filling, Start;
    var k := Pow2(p.addressBits);
    ins := Fill(p, k);
    FilledIs(p, Run(p, ins), k);
    var w := Run(p, ins);
    ins := PassOne(p, ins, k + 1);
    assert Run(p, ins).accepted[1] == w.accepted[1];
    assert Run(p, ins).delivered[1] == k + 1;
  }

  lemma FilledIs(p: Settings, w: World, k: nat)
    requires Filling(p, w, k) && k == Pow2(p.addressBits)
    ensures PathInv(p, w) && w.s.fsm.Bypass? && w.s.pre == w.s.post == w.s.writer == w.s.reader.data == []
    ensures |w.accepted| == k + 1 && w.accepted[1] == 1 && w.delivered == [0]
  {
  }

  /** Exactly when the FIFO keeps its order on all runs: without bypass always, and with it when the address width can
      count every word that the ring and the reader hold. A ring that fills the whole address space is out of range. */
  lemma OrderedIffCountable(p: Settings)
    ensures (forall ins | Admissible(p, ins) :: Run(p, ins).delivered <= Run(p, ins).accepted)
       <==> (p.withBypass ==> Countable(p))
  {
    hide Run, Admissible;
    if p.withBypass && !Countable(p) {
      var ins := Overtakes(p);
    } else {
      forall ins | Admissible(p, ins) ensures Run(p, ins).delivered <= Run(p, ins).accepted {
        OutputIsPrefix(p, ins);
      }
    }
  }

  // The clocked objects ----------------------------------------------------------------------------

  /** `_LiteDRAMFIFOCtrl`: level and pointers of the ring. */
  class FifoCtrl {
    const depth: pos
    var level: nat
    var writeAddress: nat
    var readAddress: nat

    function Registers(): Ctrl reads this { Ctrl(level, writeAddress, readAddress) }

    /** Registers are within their widths; the pointers never leave the ring. */
    ghost predicate Valid() reads this {
      level < T.SignalModulus(depth + 1) && writeAddress < depth && readAddress < depth
    }

    constructor (depth: pos)
      ensures this.depth == depth && Valid() && Registers() == Ctrl(0, 0, 0)
    {
      this.depth := depth;
      level, writeAddress, readAddress := 0, 0, 0;
    }

    /** One clock cycle; the outputs are what the users are told before it. */
    method Tick(write: bool, read: bool) returns (writable: bool, readable: bool)
      requires Valid()
      modifies this
      ensures Valid() && Registers() == CtrlStep(depth, old(Registers()), write, read)
      ensures writable == (old(level) < depth) && readable == (old(level) > 0)
    {
      IncWraps(writeAddress, depth);
      IncWraps(readAddress, depth);
      writable, readable := level < depth, level > 0;
      if write { writeAddress := Inc(writeAddress, depth); }
      if read { readAddress := Inc(readAddress, depth); }
      var modulus := T.SignalModulus(depth + 1);
      assert T.Truncate(0, modulus) == 0;
      if write && !read {
        level := if level + 1 == modulus then 0 else level + 1;
      } else if read && !write {
        level := if level == 0 then modulus - 1 else level - 1;
      }
    }
  }

  /** `LiteDRAMFIFO`, with the ring controller and the two DMA engines. */
  class DramFifo {
    const p: Settings
    var fsm: Fsm
    var first: bool
    var count: nat
    var pre: seq<Data>
    var post: seq<Data>
    const ctrl: FifoCtrl
    const writer: Wr.DmaWriter
    const reader: Rd.DmaReader

    ghost predicate Valid()
      reads this, ctrl
    {
      ctrl.depth == p.depth && ctrl.Valid() && writer.depth == p.writerDepth && reader.depth == p.readerDepth
    }

    function Registers(): State
      reads this, ctrl, writer, reader
    {
      State(fsm, first, count, ctrl.Registers(), writer.queue, reader.Registers(), pre, post)
    }

    constructor (p: Settings)
      ensures this.p == p && Valid() && Registers() == Reset(p) && fresh(ctrl) && fresh(writer) && fresh(reader)
    {
      this.p := p;
      fsm, first, count := if p.withBypass then Bypass else Dram, false, 0;
      pre, post := [], [];
      ctrl := new FifoCtrl(p.depth);
      writer := new Wr.DmaWriter(p.writerDepth);
      reader := new Rd.DmaReader(p.readerDepth);
    }

    /** Where words go in this cycle. */
    method Routes(i: Input) returns (passes: bool, writes: bool, asks: bool, gets: bool)
      ensures passes == Passes(p, Registers()) && writes == Writes(p, Registers(), i)
      ensures asks == Asks(p, Registers(), i) && gets == Gets(p, Registers())
    {
      var bypassing := p.withBypass && fsm.Bypass?;
      var leaves := p.withBypass && fsm.Dram? && !first && count == 0;
      var stores := !p.withBypass || (fsm.Dram? && !leaves);
      var postReady := |post| < p.postDepth;
      passes := bypassing && pre != [] && postReady;
      writes := !bypassing && stores && pre != [] && ctrl.level < p.depth && i.writeReady
          && |writer.queue| < p.writerDepth;
      asks := ctrl.level > 0 && |reader.reserved| < p.readerDepth && i.readReady;
      gets := !bypassing && reader.reserved != [] && reader.data != [] && postReady;
    }

    /** The mode FSM and the count of words in DRAM. */
    method TickMode(writes: bool, gets: bool)
      modifies this`fsm, this`first, this`count
      ensures fsm == NextFsm(p, old(Registers()))
      ensures first == if !p.withBypass then old(first)
                       else if old(fsm).Bypass? then |pre| >= 1 || old(first) else old(first) && !writes
      ensures count == if !p.withBypass then old(count)
                       else if old(fsm).Bypass? then if |pre| >= 1 then 0 else old(count)
                       else if writes && !gets then if old(count) + 1 == Pow2(p.addressBits) then 0 else old(count) + 1
                       else if gets && !writes then if old(count) == 0 then Pow2(p.addressBits) - 1 else old(count) - 1
                       else old(count)
    {
      if p.withBypass {
        match fsm {
          case Bypass =>
            if |pre| >= 1 { fsm, first, count := Dram, true, 0; }
          case Dram =>
            if !first && count == 0 { fsm := Bypass; }
            if writes { first := false; }
            if writes && !gets {
              count := if count + 1 == Pow2(p.addressBits) then 0 else count + 1;
            } else if gets && !writes {
              count := if count == 0 then Pow2(p.addressBits) - 1 else count - 1;
            }
        }
      } else {
        fsm := Dram;
      }
    }

    /** The two small FIFOs; `word` is what the DMA reader presents. */
    method TickEnds(i: Input, passes: bool, writes: bool, gets: bool, word: Data) returns (source: Option<Data>)
      requires passes || writes ==> pre != []
      modifies this`pre, this`post
      ensures pre == (if passes || writes then old(pre)[1..] else old(pre))
                     + (if i.sink.Some? && |old(pre)| < p.preDepth then [i.sink.value] else [])
      ensures post == (if i.ready && old(post) != [] then old(post)[1..] else old(post))
                      + (if passes then [old(pre)[0]] else if gets then [word] else [])
      ensures source == if old(post) != [] then Some(old(post)[0]) else None
    {
      var enters := if passes then [pre[0]] else if gets then [word] else [];
      var room := |pre| < p.preDepth;
      source := if post != [] then Some(post[0]) else None;
      if i.ready && post != [] { post := post[1..]; }
      post := post + enters;
      if passes || writes { pre := pre[1..]; }
      if i.sink.Some? && room { pre := pre + [i.sink.value]; }
    }

    /** The ring controller and the two DMA engines. */
    method TickEngines(i: Input, writes: bool, asks: bool)
      returns (writeCmd: Option<nat>, wdata: Option<Data>, readCmd: Option<nat>)
      requires Valid() && writes == Writes(p, Registers(), i) && asks == Asks(p, Registers(), i)
      modifies ctrl, writer, reader
      ensures Valid()
      ensures ctrl.Registers() == CtrlStep(p.depth, old(ctrl.Registers()), writes, asks)
      ensures writer.queue == Wr.Step(p.writerDepth, old(writer.queue), WriterInput(p, old(Registers()), i))
      ensures reader.Registers() == Rd.Step(p.readerDepth, old(reader.Registers()), ReaderInput(p, old(Registers()), i))
      ensures writeCmd == WriteCmd(p, old(Registers()), i) && readCmd == ReadCmd(p, old(Registers()), i)
      ensures wdata == if old(writer.queue) == [] then None else Some(old(writer.queue)[0])
    {
      hide CtrlStep, Rd.Step, Wr.Step, Rd.CmdAccepted, Wr.CmdAccepted, WriterInput, ReaderInput;
      var s := Registers();
      var readValid, readReady, beat := reader.Tick(ReaderInput(p, s, i));
      var writeValid, writeReady;
      writeValid, writeReady, wdata := writer.Tick(WriterInput(p, s, i));
      writeCmd := if writeValid then Some(ctrl.writeAddress) else None;
      readCmd := if readValid then Some(ctrl.readAddress) else None;
      var writable, readable := ctrl.Tick(writes, asks);
    }

    /** One clock cycle. The outputs are the two streams' handshakes, the commands of the two native ports by their
        place in the ring, and the write data. */
    method Tick(i: Input)
      returns (sinkReady: bool, source: Option<Data>, writeCmd: Option<nat>, wdata: Option<Data>, readCmd: Option<nat>)
      requires Valid()
      modifies this, ctrl, writer, reader
      ensures Valid() && Registers() == Step(p, old(Registers()), i)
      ensures sinkReady == SinkReady(p, old(Registers()))
      ensures source == Source(old(Registers()))
      ensures writeCmd == WriteCmd(p, old(Registers()), i) && readCmd == ReadCmd(p, old(Registers()), i)
      ensures wdata == if old(writer.queue) == [] then None else Some(old(writer.queue)[0])
    {
      hide CtrlStep, Rd.Step, Wr.Step, Rd.CmdAccepted, Wr.CmdAccepted, WriterInput, ReaderInput, WriteCmd, ReadCmd,
           Writes, Asks;
      var s := Registers();
      var passes, writes, asks, gets := Routes(i);
      RoutesAre(p, s, i);
      var word := if reader.data != [] then reader.data[0] else 0;
      sinkReady := |pre| < p.preDepth;
      writeCmd, wdata, readCmd := TickEngines(i, writes, asks);
      TickMode(writes, gets);
      source := TickEnds(i, passes, writes, gets, word);
    }
  }

  /** Words are stored and asked for only while the ring allows it. */
  lemma RoutesAre(p: Settings, s: State, i: Input)
    ensures Writes(p, s, i) ==> s.ctrl.level < p.depth && s.pre != []
    ensures Asks(p, s, i) ==> s.ctrl.level > 0
    ensures Passes(p, s) ==> s.pre != []
    ensures Gets(p, s) ==> s.reader.data != []
  {
  }
}
