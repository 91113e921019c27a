/** litedram/frontend/dma.py on native ports, whose data beats cannot be held back: the reader reserves room for every
    read before it asks for it, the writer queues every word before its strobe can come. */
module DmaReaders {
  import opened Common

  type Data = nat

  /** `reserved` holds the `last` mark of each reservation, oldest first. */
  datatype State = State(reserved: seq<bool>, data: seq<Data>)

  const Reset := State([], [])

  /** Inputs of one cycle: the address stream's valid and last, the port's `cmd.ready` and read data, and the
      consumer's `ready`. */
  datatype Input = Input(enable: bool, valid: bool, last: bool, cmdReady: bool, rdata: Option<Data>, ready: bool)

  predicate CmdValid(depth: pos, s: State, i: Input) { i.enable && i.valid && |s.reserved| < depth }

  predicate CmdAccepted(depth: pos, s: State, i: Input) { CmdValid(depth, s, i) && i.cmdReady }

  predicate SourceValid(s: State) { s.reserved != [] && s.data != [] }

  /** A stored word leaves: to the consumer, or dropped while disabled. */
  predicate Pops(s: State, i: Input) { s.data != [] && (i.ready || !i.enable) }

  /** A word with the `last` mark of its command. */
  datatype Beat = Beat(data: Data, last: bool)

  /** What is presented to the consumer. */
  function Source(s: State): Option<Beat> {
    if SourceValid(s) then Some(Beat(s.data[0], s.reserved[0])) else None
  }

  function Step(depth: pos, s: State, i: Input): State {
    State(
      (if Pops(s, i) && s.reserved != [] then s.reserved[1..] else s.reserved)
        + (if CmdAccepted(depth, s, i) then [i.last] else []),
      (if Pops(s, i) then s.data[1..] else s.data)
        + (if i.rdata.Some? && |s.data| < depth then [i.rdata.value] else []))
  }

  /** The reader, the marks of the commands accepted from it, the words that came back, and how many words have left. */
  datatype World = World(s: State, asked: seq<bool>, arrived: seq<Data>, left: nat)

  function WorldStep(depth: pos, w: World, i: Input): World {
    World(
      Step(depth, w.s, i),
      w.asked + (if CmdAccepted(depth, w.s, i) then [i.last] else []),
      w.arrived + (if i.rdata.Some? then [i.rdata.value] else []),
      w.left + (if Pops(w.s, i) then 1 else 0))
  }

  /** The memory answers accepted commands only. */
  ghost predicate Contract(w: World, i: Input) { i.rdata.Some? ==> |w.arrived| < |w.asked| }

  /** Commands accepted and not yet answered. */
  function Outstanding(w: World): int { |w.asked| - |w.arrived| }

  ghost predicate Inv(depth: pos, w: World) {
    && Outstanding(w) + |w.s.data| == |w.s.reserved| <= depth
    && 0 <= Outstanding(w) && w.left <= |w.arrived| <= |w.asked|
    && w.s.data == w.arrived[w.left..] && w.s.reserved == w.asked[w.left..]
  }

  lemma StepInv(depth: pos, w: World, i: Input)
    requires Inv(depth, w) && Contract(w, i)
    ensures Inv(depth, WorldStep(depth, w, i))
  {
    var w' := WorldStep(depth, w, i);
    assert w'.arrived[w'.left..] == (if Pops(w.s, i) then w.s.data[1..] else w.s.data) + w'.arrived[|w.arrived|..];
  }

  function Run(depth: pos, ins: seq<Input>): World {
    if ins == [] then World(Reset, [], [], 0) else WorldStep(depth, Run(depth, ins[..|ins| - 1]), ins[|ins| - 1])
  }

  ghost predicate Admissible(depth: pos, ins: seq<Input>) {
    forall k | 0 <= k < |ins| :: Contract(Run(depth, ins[..k]), ins[k])
  }

  lemma {:induction false} RunInv(depth: pos, ins: seq<Input>)
    requires Admissible(depth, ins)
    ensures Inv(depth, Run(depth, ins))
  {
    if ins != [] {
      var n := |ins| - 1;
      forall k | 0 <= k < n ensures Contract(Run(depth, ins[..n][..k]), ins[..n][k]) {
        assert ins[..n][..k] == ins[..k];
      }
      RunInv(depth, ins[..n]);
      assert Contract(Run(depth, ins[..n]), ins[n]);
      StepInv(depth, Run(depth, ins[..n]), ins[n]);
    }
  }

  /** Reservation: on every run, with any toggling of `enable`, outstanding reads and stored words add up to the
      reservations, which never exceed the depth; so a returning word always finds room, and each word leaves with the
      `last` mark of its own command. */
  lemma ReadsAlwaysFit(depth: pos, ins: seq<Input>, i: Input)
    requires Admissible(depth, ins) && Contract(Run(depth, ins), i)
    ensures var w := Run(depth, ins);
            && Outstanding(w) + |w.s.data| == |w.s.reserved| <= depth
            && (i.rdata.Some? ==> |w.s.data| < depth)
            && (w.s.data != [] ==>
                  && SourceValid(w.s) && w.left < |w.arrived| <= |w.asked|
                  && w.s.data[0] == w.arrived[w.left] && w.s.reserved[0] == w.asked[w.left])
  {
    RunInv(depth, ins);
  }

  /** The reader as a clocked object. */
  class DmaReader {
    const depth: pos
    var reserved: seq<bool>
    var data: seq<Data>

    function Registers(): State reads this { State(reserved, data) }

    constructor (depth: pos)
      ensures this.depth == depth && Registers() == Reset
    {
      this.depth := depth;
      reserved, data := [], [];
    }

    method Tick(i: Input) returns (cmdValid: bool, sinkReady: bool, source: Option<Beat>)
      modifies this
      ensures Registers() == Step(depth, old(Registers()), i)
      ensures cmdValid == CmdValid(depth, old(Registers()), i)
      ensures sinkReady == (i.enable && i.cmdReady && |old(reserved)| < depth)
      ensures source == Source(old(Registers()))
    {
      var room := |reserved| < depth;
      cmdValid := i.enable && i.valid && room;
      sinkReady := i.enable && i.cmdReady && room;
      source := None;
      if reserved != [] && data != [] { source := Some(Beat(data[0], reserved[0])); }
      var pop, full := data != [] && (i.ready || !i.enable), |data| >= depth;
      if pop {
        data := data[1..];
        if reserved != [] { reserved := reserved[1..]; }
      }
      if i.rdata.Some? && !full { data := data + [i.rdata.value]; }
      if cmdValid && i.cmdReady { reserved := reserved + [i.last]; }
    }
  }
}

module DmaWriters {
  import opened Common

  type Data = nat

  /** Inputs of one cycle: the stream's word when valid, the port's `cmd.ready` and write data strobe. */
  datatype Input = Input(sink: Option<Data>, cmdReady: bool, strobe: bool)

  predicate CmdAccepted(depth: pos, s: seq<Data>, i: Input) { i.sink.Some? && i.cmdReady && |s| < depth }

  /** The queue of words whose commands were accepted. */
  function Step(depth: pos, s: seq<Data>, i: Input): seq<Data> {
    (if i.strobe && s != [] then s[1..] else s) + (if CmdAccepted(depth, s, i) then [i.sink.value] else [])
  }

  /** The queue, the words of all accepted commands, and how many strobes came. */
  datatype World = World(s: seq<Data>, commanded: seq<Data>, strobes: nat)

  function WorldStep(depth: pos, w: World, i: Input): World {
    World(Step(depth, w.s, i),
          w.commanded + (if CmdAccepted(depth, w.s, i) then [i.sink.value] else []),
          w.strobes + (if i.strobe then 1 else 0))
  }

  /** One strobe for each command, after it was accepted. */
  ghost predicate Contract(w: World, i: Input) { i.strobe ==> w.strobes < |w.commanded| }

  function Run(depth: pos, ins: seq<Input>): World {
    if ins == [] then World([], [], 0) else WorldStep(depth, Run(depth, ins[..|ins| - 1]), ins[|ins| - 1])
  }

  ghost predicate Admissible(depth: pos, ins: seq<Input>) {
    forall k | 0 <= k < |ins| :: Contract(Run(depth, ins[..k]), ins[k])
  }

  lemma {:induction false} RunInv(depth: pos, ins: seq<Input>)
    requires Admissible(depth, ins)
    ensures var w := Run(depth, ins);
            w.strobes <= |w.commanded| && w.s == w.commanded[w.strobes..] && |w.s| <= depth
  {
    if ins != [] {
      var n := |ins| - 1;
      forall k | 0 <= k < n ensures Contract(Run(depth, ins[..n][..k]), ins[..n][k]) {
        assert ins[..n][..k] == ins[..k];
      }
      RunInv(depth, ins[..n]);
      assert Contract(Run(depth, ins[..n]), ins[n]);
    }
  }

  /** Every strobe finds the word of its own command at the head of the queue. */
  lemma StrobeFindsWord(depth: pos, ins: seq<Input>, i: Input)
    requires Admissible(depth, ins) && Contract(Run(depth, ins), i) && i.strobe
    ensures var w := Run(depth, ins); w.s != [] && w.strobes < |w.commanded| && w.s[0] == w.commanded[w.strobes]
  {
    RunInv(depth, ins);
  }

  /** The writer as a clocked object. */
  class DmaWriter {
    const depth: pos
    var queue: seq<Data>

    constructor (depth: pos)
      ensures this.depth == depth && queue == []
    {
      this.depth := depth;
      queue := [];
    }

    method Tick(i: Input) returns (cmdValid: bool, sinkReady: bool, wdata: Option<Data>)
      modifies this
      ensures queue == Step(depth, old(queue), i)
      ensures cmdValid == (i.sink.Some? && |old(queue)| < depth)
      ensures sinkReady == (i.cmdReady && |old(queue)| < depth)
      ensures wdata == if old(queue) == [] then None else Some(old(queue)[0])
    {
      var room := |queue| < depth;
      cmdValid := i.sink.Some? && room;
      sinkReady := i.cmdReady && room;
      wdata := if queue == [] then None else Some(queue[0]);
      if i.strobe && queue != [] { queue := queue[1..]; }
      if cmdValid && i.cmdReady { queue := queue + [i.sink.value]; }
    }
  }
}
