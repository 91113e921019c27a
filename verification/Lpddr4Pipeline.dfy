/** litedram/phy/utils.py `CommandsPipeline` with its bit slips, for the eight phases of LPDDR4, cycle by cycle. */
module Lpddr4Pipelines {
  import opened Common
  import opened Lpddr4Commands
  import opened Lpddr4Streams
  import BS = BitSlips

  const NPHASES := 8

  /** A controller cycle: its eight DFI phases. */
  type Cycle = seq<Phase>

  ghost predicate Cycles(ws: seq<Cycle>) { BS.Words(ws, NPHASES) }

  /** Line 0 is CS, the others are CA. */
  function Bit(s: Symbol, line: nat): bool
    requires |s.ca| == 6 && line < 7
  {
    if line == 0 then s.cs else s.ca[line - 1]
  }

  function Zeros(n: nat): (r: seq<bool>)
    ensures |r| == n && forall k | 0 <= k < n :: !r[k]
  {
    seq(n, _ => false)
  }

  // Overlap mask -----------------------------------------------------------------------------------

  /** The slip that keeps the last cycle's `valid` bits, and those at line for adapter `phase`. */
  const ValidSlip := BS.Settings(NPHASES, 0, 1, false)

  function Slip(phase: nat): BS.Settings { BS.Settings(NPHASES, phase, 1, true) }

  function Valids(w: Cycle, masked: bool): (r: seq<bool>)
    ensures |r| == |w| && forall k | 0 <= k < |w| :: r[k] == HasCommand(w[k], masked)
  {
    seq(|w|, k requires 0 <= k < |w| => HasCommand(w[k], masked))
  }

  function AllValids(ws: seq<Cycle>, masked: bool): (r: seq<seq<bool>>)
    requires Cycles(ws)
    ensures |r| == |ws| && BS.Words(r, NPHASES) && forall n | 0 <= n < |ws| :: r[n] == Valids(ws[n], masked)
  {
    seq(|ws|, n requires 0 <= n < |ws| => Valids(ws[n], masked))
  }

  /** `valids.r`: the last cycle's valid bits, then this cycle's. */
  function History(ws: seq<Cycle>, masked: bool, n: nat): (r: seq<bool>)
    requires Cycles(ws) && n < |ws|
    ensures |r| == 2 * NPHASES
  {
    var valids := AllValids(ws, masked);
    BS.Line(ValidSlip, BS.Run(ValidSlip, Zeros(NPHASES), valids[..n]), valids[n])
  }

  /** The three positions before the adapter's own hold no valid bit. */
  predicate Unmasked(ws: seq<Cycle>, masked: bool, n: nat, phase: nat)
    requires Cycles(ws) && n < |ws| && phase < NPHASES
  {
    forall k | NPHASES + phase - 3 <= k < NPHASES + phase :: !History(ws, masked, n)[k]
  }

  // Lines ------------------------------------------------------------------------------------------

  /** What adapter `phase` feeds its slip of a line: four bits, and zeros above. */
  function Feed(ws: seq<Cycle>, masked: bool, n: nat, phase: nat, line: nat): (r: seq<bool>)
    requires Cycles(ws) && n < |ws| && phase < NPHASES && line < 7
    ensures |r| == NPHASES
  {
    seq(NPHASES, k requires 0 <= k < NPHASES && Cycles(ws) && n < |ws| =>
      k < 4 && Unmasked(ws, masked, n, phase) && Bit(Adapter(ws[n][phase], masked)[k], line))
  }

  function Feeds(ws: seq<Cycle>, masked: bool, phase: nat, line: nat): (r: seq<seq<bool>>)
    requires Cycles(ws) && phase < NPHASES && line < 7
    ensures |r| == |ws| && BS.Words(r, NPHASES)
    ensures forall n | 0 <= n < |ws| :: r[n] == Feed(ws, masked, n, phase, line)
  {
    seq(|ws|, n requires 0 <= n < |ws| && Cycles(ws) => Feed(ws, masked, n, phase, line))
  }

  /** An adapter's slipped line. */
  function Slipped(ws: seq<Cycle>, masked: bool, phase: nat, line: nat): (r: seq<seq<bool>>)
    requires Cycles(ws) && phase < NPHASES && line < 7
    ensures |r| == |ws| && BS.Words(r, NPHASES)
  {
    BS.Outputs(Slip(phase), Zeros(2 * NPHASES), Feeds(ws, masked, phase, line))
  }

  /** The module's output in cycle `n`: all adapters' slipped lines or-ed. */
  function Output(ws: seq<Cycle>, masked: bool, line: nat, n: nat): (r: seq<bool>)
    requires Cycles(ws) && line < 7 && n < |ws|
    ensures |r| == NPHASES
  {
    seq(NPHASES, k requires 0 <= k < NPHASES && Cycles(ws) && n < |ws| =>
      exists phase | 0 <= phase < NPHASES :: Slipped(ws, masked, phase, line)[n][k])
  }

  // Streams ----------------------------------------------------------------------------------------

  lemma {:induction false} FlatAt<T>(words: seq<seq<T>>, x: nat)
    requires BS.Words(words, NPHASES) && x / NPHASES < |words|
    ensures x < |BS.Flat(words)| == NPHASES * |words|
    ensures BS.Flat(words)[x] == words[x / NPHASES][x % NPHASES]
  {
    BS.FlatLength(words, NPHASES);
    var n := |words| - 1;
    BS.FlatLength(words[..n], NPHASES);
    if x / NPHASES < n { FlatAt(words[..n], x); }
  }

  lemma HistoryIs(ws: seq<Cycle>, masked: bool, n: nat, k: nat)
    requires Cycles(ws) && n < |ws| && k < 2 * NPHASES
    ensures History(ws, masked, n)[k]
         == if k >= NPHASES then HasCommand(ws[n][k - NPHASES], masked)
            else n > 0 && HasCommand(ws[n - 1][k], masked)
  {
    var valids := AllValids(ws, masked);
    if n > 0 {
      assert valids[..n][..n - 1] == valids[..n - 1];
      var before := BS.Run(ValidSlip, Zeros(NPHASES), valids[..n - 1]);
      assert (before + valids[n - 1])[NPHASES..] == valids[n - 1];
    }
  }

  /** A command `d` phases before. */
  predicate Before(fs: seq<Phase>, masked: bool, t: nat, d: nat)
    requires t < |fs|
  {
    d <= t && HasCommand(fs[t - d], masked)
  }

  lemma AllowedIs(fs: seq<Phase>, masked: bool, t: nat)
    requires t < |fs|
    ensures Allowed(fs, masked, t) == (!Before(fs, masked, t, 1) && !Before(fs, masked, t, 2)
        && !Before(fs, masked, t, 3))
  {
    hide HasCommand;
    if !Before(fs, masked, t, 1) && !Before(fs, masked, t, 2) && !Before(fs, masked, t, 3) {
      forall k | t - 3 <= k < t && 0 <= k ensures !HasCommand(fs[k], masked) {
        assert k == t - 1 || k == t - 2 || k == t - 3;
      }
    }
  }

  lemma HistoryBefore(ws: seq<Cycle>, masked: bool, n: nat, phase: nat, d: nat)
    requires Cycles(ws) && n < |ws| && phase < NPHASES && 1 <= d <= 3
    ensures NPHASES * n + phase < |BS.Flat(ws)|
    ensures History(ws, masked, n)[NPHASES + phase - d] == Before(BS.Flat(ws), masked, NPHASES * n + phase, d)
  {
    hide History, HasCommand;
    var t := NPHASES * n + phase;
    FlatAt(ws, t);
    HistoryIs(ws, masked, n, NPHASES + phase - d);
    if d <= t { FlatAt(ws, t - d); }
  }

  /** The mask is the stream's rule: no command in the three phases before. */
  lemma UnmaskedIsAllowed(ws: seq<Cycle>, masked: bool, n: nat, phase: nat)
    requires Cycles(ws) && n < |ws| && phase < NPHASES
    ensures NPHASES * n + phase < |BS.Flat(ws)|
    ensures Unmasked(ws, masked, n, phase) == Allowed(BS.Flat(ws), masked, NPHASES * n + phase)
  {
    hide History, Allowed, Before;
    HistoryBefore(ws, masked, n, phase, 1);
    HistoryBefore(ws, masked, n, phase, 2);
    HistoryBefore(ws, masked, n, phase, 3);
    AllowedIs(BS.Flat(ws), masked, NPHASES * n + phase);
  }

  /** A slipped bit is a bit that its adapter put on the line, `phase + 8` phases before. */
  lemma SlippedBit(ws: seq<Cycle>, masked: bool, phase: nat, line: nat, u: nat)
    requires Cycles(ws) && phase < NPHASES && line < 7 && u / NPHASES < |ws|
    ensures u >= phase + NPHASES ==> (u - phase - NPHASES) / NPHASES < |ws|
    ensures Slipped(ws, masked, phase, line)[u / NPHASES][u % NPHASES]
         == (u >= phase + NPHASES
             && Feed(ws, masked, (u - phase - NPHASES) / NPHASES, phase, line)[(u - phase - NPHASES) % NPHASES])
  {
    hide BS.Outputs, Feed;
    var feeds, s := Feeds(ws, masked, phase, line), Zeros(2 * NPHASES);
    BS.DelaysExactly(Slip(phase), s, feeds);
    FlatAt(Slipped(ws, masked, phase, line), u);
    if u >= phase + NPHASES { FlatAt(feeds, u - phase - NPHASES); }
    DelayedBit(s[|s| - phase - NPHASES..], BS.Flat(feeds), u);
  }

  lemma DelayedBit(garbage: seq<bool>, f: seq<bool>, u: nat)
    requires u < |f|
    ensures (garbage + f)[..|f|][u] == if u < |garbage| then garbage[u] else f[u - |garbage|]
  {
  }

  /** The phase `j` before `v` is unmasked, and raises the line in its edge `j`. */
  predicate Reaches(ws: seq<Cycle>, masked: bool, line: nat, v: nat, j: nat)
    requires Cycles(ws) && line < 7 && j < 4 && v < |BS.Flat(ws)|
  {
    j <= v && Allowed(BS.Flat(ws), masked, v - j) && Bit(Adapter(BS.Flat(ws)[v - j], masked)[j], line)
  }

  /** Such a phase has position `phase` in its cycle. */
  predicate ReachesFrom(ws: seq<Cycle>, masked: bool, line: nat, v: nat, phase: nat)
    requires Cycles(ws) && line < 7 && v < |BS.Flat(ws)|
  {
    exists j | 0 <= j < 4 :: Reaches(ws, masked, line, v, j) && (v - j) % NPHASES == phase
  }

  lemma FeedReaches(ws: seq<Cycle>, masked: bool, n: nat, phase: nat, line: nat, j: nat)
    requires Cycles(ws) && n < |ws| && phase < NPHASES && line < 7 && j < NPHASES
    requires NPHASES * n + phase + j < |BS.Flat(ws)|
    ensures Feed(ws, masked, n, phase, line)[j] == (j < 4 && Reaches(ws, masked, line, NPHASES * n + phase + j, j))
  {
    hide Allowed, Adapter, Unmasked;
    UnmaskedIsAllowed(ws, masked, n, phase);
    FlatAt(ws, NPHASES * n + phase);
  }

  /** The line of a phase is the or of the four contributions to it. */
  lemma LineBit(ws: seq<Cycle>, masked: bool, line: nat, v: nat)
    requires Cycles(ws) && line < 7 && v < |BS.Flat(ws)|
    ensures Bit(Line(BS.Flat(ws), masked, v), line)
         == (|| Reaches(ws, masked, line, v, 0) || Reaches(ws, masked, line, v, 1)
             || Reaches(ws, masked, line, v, 2) || Reaches(ws, masked, line, v, 3))
  {
    hide Allowed, Adapter;
  }

  lemma Positions(v: nat, phase: nat)
    requires phase < NPHASES
    ensures (v + NPHASES) / NPHASES == v / NPHASES + 1 && (v + NPHASES) % NPHASES == v % NPHASES
    ensures v >= phase ==> NPHASES * ((v - phase) / NPHASES) + phase + (v - phase) % NPHASES == v
  {
  }

  lemma OutputBit(ws: seq<Cycle>, masked: bool, line: nat, v: nat, phase: nat)
    requires Cycles(ws) && line < 7 && v / NPHASES + 1 < |ws| && phase < NPHASES && v < |BS.Flat(ws)|
    ensures Slipped(ws, masked, phase, line)[v / NPHASES + 1][v % NPHASES] == ReachesFrom(ws, masked, line, v, phase)
  {
    hide Feed, Slipped, Reaches, ReachesFrom, Cycles;
    Positions(v, phase);
    SlippedBit(ws, masked, phase, line, v + NPHASES);
    if v >= phase {
      var x := v - phase;
      FeedReaches(ws, masked, x / NPHASES, phase, line, x % NPHASES);
      OwnOffset(ws, masked, line, v, phase);
    } else {
      LaterPhase(ws, masked, line, v, phase);
    }
  }

  lemma OwnOffset(ws: seq<Cycle>, masked: bool, line: nat, v: nat, phase: nat)
    requires Cycles(ws) && line < 7 && v < |BS.Flat(ws)| && phase <= v && phase < NPHASES
    ensures var j := (v - phase) % NPHASES;
            ReachesFrom(ws, masked, line, v, phase) == (j < 4 && Reaches(ws, masked, line, v, j))
  {
    hide Reaches;
    OnlyOffset(v, phase);
    var j := (v - phase) % NPHASES;
    if j < 4 && Reaches(ws, masked, line, v, j) { assert (v - j) % NPHASES == phase; }
  }

  /** The offset of a phase's own position. */
  lemma OnlyOffset(v: nat, phase: nat)
    requires phase <= v && phase < NPHASES
    ensures forall j {:trigger (v - j) % NPHASES} | 0 <= j < 4 ::
              (v - j) % NPHASES == phase <==> j == (v - phase) % NPHASES
  {
  }

  lemma LaterPhase(ws: seq<Cycle>, masked: bool, line: nat, v: nat, phase: nat)
    requires Cycles(ws) && line < 7 && v < |BS.Flat(ws)| && v < phase < NPHASES
    ensures !ReachesFrom(ws, masked, line, v, phase)
  {
    hide Allowed, Adapter;
    forall j | 0 <= j < 4 && Reaches(ws, masked, line, v, j) ensures (v - j) % NPHASES != phase {
    }
  }

  /** The pipeline, bit by bit: eight phases after a phase its line carries exactly what the adapters of that phase and
      the three before it put there; and nothing before. */
  lemma OutputIsLine(ws: seq<Cycle>, masked: bool, line: nat, u: nat)
    requires Cycles(ws) && line < 7 && u / NPHASES < |ws|
    ensures u >= NPHASES ==> u - NPHASES < |BS.Flat(ws)|
    ensures Output(ws, masked, line, u / NPHASES)[u % NPHASES]
         == (u >= NPHASES && Bit(Line(BS.Flat(ws), masked, u - NPHASES), line))
  {
    hide Output, Reaches, Line, Bit;
    FlatAt(ws, u);
    if u < NPHASES {
      NothingFirst(ws, masked, line, u);
    } else {
      Positions(u - NPHASES, 0);
      OutputReaches(ws, masked, line, u - NPHASES);
      LineBit(ws, masked, line, u - NPHASES);
    }
  }

  lemma NothingFirst(ws: seq<Cycle>, masked: bool, line: nat, u: nat)
    requires Cycles(ws) && line < 7 && u < NPHASES && |ws| > 0
    ensures !Output(ws, masked, line, 0)[u]
  {
    hide Slipped;
    forall phase | 0 <= phase < NPHASES ensures !Slipped(ws, masked, phase, line)[0][u] {
      SlippedBit(ws, masked, phase, line, u);
    }
  }

  lemma OutputReaches(ws: seq<Cycle>, masked: bool, line: nat, v: nat)
    requires Cycles(ws) && line < 7 && v / NPHASES + 1 < |ws| && v < |BS.Flat(ws)|
    ensures Output(ws, masked, line, v / NPHASES + 1)[v % NPHASES]
         == (|| Reaches(ws, masked, line, v, 0) || Reaches(ws, masked, line, v, 1)
             || Reaches(ws, masked, line, v, 2) || Reaches(ws, masked, line, v, 3))
  {
    hide Slipped, Reaches;
    forall phase | 0 <= phase < NPHASES
      ensures Slipped(ws, masked, phase, line)[v / NPHASES + 1][v % NPHASES] == ReachesFrom(ws, masked, line, v, phase)
    {
      OutputBit(ws, masked, line, v, phase);
    }
    forall j | 0 <= j < 4 && Reaches(ws, masked, line, v, j)
      ensures ReachesFrom(ws, masked, line, v, (v - j) % NPHASES)
    {
    }
    assert Output(ws, masked, line, v / NPHASES + 1)[v % NPHASES]
        == exists phase | 0 <= phase < NPHASES :: ReachesFrom(ws, masked, line, v, phase);
  }

  // The emitted stream -----------------------------------------------------------------------------

  /** CS and CA of phase `u` as the pipeline emits them. */
  function Pads(ws: seq<Cycle>, masked: bool, u: nat): (r: Symbol)
    requires Cycles(ws) && u / NPHASES < |ws|
    ensures |r.ca| == 6
  {
    Symbol(Output(ws, masked, 0, u / NPHASES)[u % NPHASES],
           seq(6, k requires 0 <= k < 6 && Cycles(ws) && u / NPHASES < |ws| =>
             Output(ws, masked, k + 1, u / NPHASES)[u % NPHASES]))
  }

  /** The emitted lines are those of the phase eight before, and quiet until then. */
  lemma PadsAreLines(ws: seq<Cycle>, masked: bool, u: nat)
    requires Cycles(ws) && u / NPHASES < |ws|
    ensures u >= NPHASES ==> u - NPHASES < |BS.Flat(ws)|
    ensures Pads(ws, masked, u) == if u >= NPHASES then Line(BS.Flat(ws), masked, u - NPHASES) else Quiet
  {
    hide Output, Line;
    OutputIsLine(ws, masked, 0, u);
    forall k | 0 <= k < 6
      ensures Pads(ws, masked, u).ca[k]
           == (u >= NPHASES && Line(BS.Flat(ws), masked, u - NPHASES).ca[k])
    {
      OutputIsLine(ws, masked, k + 1, u);
    }
  }

  /** The simulator after `n` phases of the emitted stream. */
  function ReceiverAt(ws: seq<Cycle>, masked: bool, n: nat): (s: Decoder)
    requires Cycles(ws) && n <= NPHASES * |ws|
    ensures |s.tap0.ca| == |s.tap1.ca| == 6
  {
    if n == 0 then DecoderReset else DecoderStep(ReceiverAt(ws, masked, n - 1), Pads(ws, masked, n - 1))
  }

  /** Everything it has recognised by then. */
  function Received(ws: seq<Cycle>, masked: bool, n: nat): seq<Event>
    requires Cycles(ws) && n <= NPHASES * |ws|
  {
    if n == 0 then [] else Received(ws, masked, n - 1) + Emits(ReceiverAt(ws, masked, n - 1))
  }

  lemma StreamLength(ws: seq<Cycle>)
    requires Cycles(ws)
    ensures |BS.Flat(ws)| == NPHASES * |ws|
  {
    BS.FlatLength(ws, NPHASES);
  }

  /** Until the first emitted phase arrives the simulator rests. */
  lemma {:induction false} ReceiverWaits(ws: seq<Cycle>, masked: bool, n: nat)
    requires Cycles(ws) && n <= NPHASES * |ws| && n <= NPHASES
    ensures ReceiverAt(ws, masked, n) == DecoderReset && Received(ws, masked, n) == []
  {
    hide Pads;
    if n > 0 {
      ReceiverWaits(ws, masked, n - 1);
      PadsAreLines(ws, masked, n - 1);
    }
  }

  /** From then on it is eight phases behind the simulator that is given the phases' lines. */
  lemma {:induction false} ReceiverLags(ws: seq<Cycle>, masked: bool, n: nat)
    requires Cycles(ws) && NPHASES <= n <= NPHASES * |ws|
    ensures n - NPHASES <= |BS.Flat(ws)|
    ensures ReceiverAt(ws, masked, n) == DecoderAt(BS.Flat(ws), masked, n - NPHASES)
    ensures Received(ws, masked, n) == Log(BS.Flat(ws), masked, n - NPHASES)
  {
    hide Pads, Line, DecoderStep, Emits;
    StreamLength(ws);
    if n == NPHASES {
      ReceiverWaits(ws, masked, n);
    } else {
      ReceiverLags(ws, masked, n - 1);
      PadsAreLines(ws, masked, n - 1);
    }
  }

  /** Round trip of the emitted stream: from what the masked, slipped and or-ed adapters put on CS and CA, the simulator
      recognises exactly the commands with no DFI command in the three phases before, in order and with all their
      fields, and nothing unexpected. Eight phases are in the pipeline and four in the simulator. */
  lemma EmittedRoundTrip(ws: seq<Cycle>, masked: bool, n: nat)
    requires Cycles(ws) && Readable(BS.Flat(ws), masked) && n <= NPHASES * |ws|
    ensures n - 12 <= |BS.Flat(ws)|
    ensures Received(ws, masked, n) == Expected(BS.Flat(ws), masked, n - 12)
    ensures Unexpected !in Received(ws, masked, n)
  {
    hide Readable, Log, Received, ReceiverAt, Line;
    StreamLength(ws);
    if n < NPHASES {
      ReceiverWaits(ws, masked, n);
    } else {
      ReceiverLags(ws, masked, n);
      StreamRoundTrip(BS.Flat(ws), masked, n - NPHASES);
    }
  }

  /** The simulator's storage after `n` phases of the emitted stream. */
  function StoredAt(ws: seq<Cycle>, masked: bool, n: nat): (d: Store)
    requires Cycles(ws) && n <= NPHASES * |ws|
    ensures d.Valid()
  {
    if n == 0 then EmptyStore() else KeepAll(StoredAt(ws, masked, n - 1), Emits(ReceiverAt(ws, masked, n - 1)))
  }

  lemma {:induction false} StoredIsReceived(ws: seq<Cycle>, masked: bool, n: nat)
    requires Cycles(ws) && n <= NPHASES * |ws|
    ensures StoredAt(ws, masked, n) == KeepAll(EmptyStore(), Received(ws, masked, n))
  {
    hide Keep, Emits, DecoderStep, Pads;
    if n > 0 {
      StoredIsReceived(ws, masked, n - 1);
      KeepMore(EmptyStore(), Received(ws, masked, n - 1), Emits(ReceiverAt(ws, masked, n - 1)));
    }
  }

  /** The simulator knows the open rows of the DFI stream: a bank is active in it exactly when some unmasked activate
      of the bank was followed by no unmasked activate or precharge of it, and it stores that activate's row. */
  lemma OpenRowsFollow(ws: seq<Cycle>, masked: bool, n: nat, b: nat)
    requires Cycles(ws) && Readable(BS.Flat(ws), masked) && n <= NPHASES * |ws| && b < 8
    ensures n - 12 <= |BS.Flat(ws)|
    ensures var d, sent := StoredAt(ws, masked, n), Expected(BS.Flat(ws), masked, n - 12);
            d.active[b] <==> exists i: nat :: OpenSince(sent, b, d.rows[b], i)
  {
    hide Readable, Received, StoredAt, OpenSince;
    EmittedRoundTrip(ws, masked, n);
    StoredIsReceived(ws, masked, n);
    ActiveIsOpened(Received(ws, masked, n), b);
  }
}
