/** litedram/phy/model.py: banks with an open row and a memory, DFI phase decoding and the model's data latencies. */
module PhyModels {
  import opened Common
  import opened Bits

  /** A controller data word, one entry per byte lane. */
  type Word = seq<bv8>

  /** A registered DFI phase; `cas`, `ras` and `we` are the active-high commands. */
  datatype Phase = Phase(bank: nat, address: nat, cas: bool, ras: bool, we: bool)

  const Idle := Phase(0, 0, false, false, false)

  datatype Settings = Settings(
    nphases: pos,
    nbanks: pos,
    rowbits: nat,
    colbits: nat,
    align: nat,
    nbytes: nat,
    writeLatency: nat,
    readLatency: nat)
  {
    ghost predicate Valid() { align <= colbits <= 10 }
    function Cells(): pos { Pow2(rowbits + (if align <= colbits then colbits - align else 0)) }
  }

  /** A `BankModel` and the delay line in front of its write port (newest at index 0). */
  datatype Bank = Bank(active: bool, row: nat, mem: seq<Word>, writes: seq<Option<nat>>)

  datatype State = State(banks: seq<Bank>, pipe: seq<(bool, Word)>)

  function Zero(p: Settings): Word { seq(p.nbytes, _ => 0 as bv8) }

  /** Initial state for given memory images. */
  function Reset(p: Settings, images: seq<seq<Word>>): State {
    State(seq(|images|, b requires 0 <= b < |images| => Bank(false, 0, images[b], seq(p.writeLatency, _ => None))),
          seq(p.readLatency, _ => (false, Zero(p))))
  }

  ghost predicate WordOk(p: Settings, w: Word) { |w| == p.nbytes }

  ghost predicate BankOk(p: Settings, b: Bank) {
    && b.row < Pow2(p.rowbits)
    && |b.mem| == p.Cells() && (forall i | 0 <= i < |b.mem| :: WordOk(p, b.mem[i]))
    && |b.writes| == p.writeLatency
    && (forall i | 0 <= i < |b.writes| :: b.writes[i].Some? ==> b.writes[i].value < Pow2(p.colbits))
  }

  ghost predicate WellFormed(p: Settings, s: State) {
    && |s.banks| == p.nbanks && (forall b | 0 <= b < p.nbanks :: BankOk(p, s.banks[b]))
    && |s.pipe| == p.readLatency && (forall i | 0 <= i < |s.pipe| :: WordOk(p, s.pipe[i].1))
  }

  // Phase decoding ---------------------------------------------------------------------------------

  predicate Activates(f: Phase) { f.ras && !f.cas && !f.we }

  predicate Precharges(f: Phase) { f.ras && !f.cas && f.we }

  predicate Writes(f: Phase) { f.cas && !f.ras && f.we }

  predicate Reads(f: Phase) { f.cas && !f.ras && !f.we }

  /** Index of the only phase satisfying `sel`; the source's `Case` over one-hot values does nothing otherwise. */
  function Only(fs: seq<Phase>, sel: Phase -> bool): (k: Option<nat>)
    ensures k.Some? ==> k.value < |fs| && sel(fs[k.value])
  {
    if Count(fs, sel) == 1 then Some(First(fs, sel)) else None
  }

  function Count(fs: seq<Phase>, sel: Phase -> bool): nat {
    if fs == [] then 0 else (if sel(fs[0]) then 1 else 0) + Count(fs[1..], sel)
  }

  function First(fs: seq<Phase>, sel: Phase -> bool): (k: nat)
    requires Count(fs, sel) > 0
    ensures k < |fs| && sel(fs[k])
  {
    if sel(fs[0]) then 0 else 1 + First(fs[1..], sel)
  }

  /** Row activated in a bank. */
  function Activated(p: Settings, fs: seq<Phase>, b: nat): Option<nat> {
    match Only(fs, Activates)
    case None => None
    case Some(k) => if fs[k].bank == b then Some(To(fs[k].address, p.rowbits)) else None
  }

  predicate Precharged(fs: seq<Phase>, b: nat) {
    var k := Only(fs, Precharges);
    k.Some? && (fs[k.value].bank == b || From(fs[k.value].address, 10) % 2 == 1)
  }

  /** Column written in a bank. */
  function Written(p: Settings, fs: seq<Phase>, b: nat): (col: Option<nat>)
    ensures col.Some? ==> col.value < Pow2(p.colbits)
  {
    match Only(fs, Writes)
    case None => None
    case Some(k) => if fs[k].bank == b then Some(To(fs[k].address, p.colbits)) else None
  }

  /** Column read in a bank. */
  function ReadCol(p: Settings, fs: seq<Phase>, b: nat): Option<nat> {
    match Only(fs, Reads)
    case None => None
    case Some(k) => if fs[k].bank == b then Some(To(fs[k].address, p.colbits)) else None
  }

  // Memory -----------------------------------------------------------------------------------------

  /** Memory index of a row and a column. */
  function Cell(p: Settings, row: nat, col: nat): nat { From(col + Up(row, p.colbits), p.align) }

  lemma CellInRange(p: Settings, row: nat, col: nat)
    requires p.Valid() && row < Pow2(p.rowbits) && col < Pow2(p.colbits)
    ensures Cell(p, row, col) < p.Cells()
  {
    CatBound(col, row, p.colbits, p.rowbits);
    FromBound(col + Up(row, p.colbits), p.align, p.rowbits + p.colbits - p.align);
  }

  /** Byte-masked write. */
  function Merge(was: Word, data: Word, we: seq<bool>): (w: Word)
    ensures |w| == |was|
  {
    seq(|was|, i requires 0 <= i < |was| => if i < |data| && i < |we| && we[i] then data[i] else was[i])
  }

  function Or(a: Word, b: Word): (w: Word)
    requires |a| == |b|
    ensures |w| == |a|
  {
    seq(|a|, i requires 0 <= i < |a| => a[i] | b[i])
  }

  /** The write reaching a bank's memory in this cycle. */
  function Landing(p: Settings, fs: seq<Phase>, bank: Bank, b: nat): (col: Option<nat>)
    requires BankOk(p, bank)
    ensures col.Some? ==> col.value < Pow2(p.colbits)
  {
    if p.writeLatency == 0 then Written(p, fs, b) else bank.writes[p.writeLatency - 1]
  }

  /** Data a bank drives in this cycle: zero unless it is read with a row active. */
  function ReadData(p: Settings, fs: seq<Phase>, bank: Bank, b: nat): (w: Word)
    requires p.Valid() && BankOk(p, bank)
    ensures WordOk(p, w)
  {
    var col := ReadCol(p, fs, b);
    if col.Some? && bank.active then
      CellInRange(p, bank.row, col.value); bank.mem[Cell(p, bank.row, col.value)]
    else Zero(p)
  }

  /** The or of what the banks from `b` on drive. */
  function ReadBus(p: Settings, fs: seq<Phase>, banks: seq<Bank>, b: nat): (w: Word)
    requires p.Valid() && forall i | 0 <= i < |banks| :: BankOk(p, banks[i])
    ensures WordOk(p, w)
    decreases |banks| - b
  {
    if |banks| <= b then Zero(p)
    else Or(ReadData(p, fs, banks[b], b), ReadBus(p, fs, banks, b + 1))
  }

  predicate AnyRead(p: Settings, fs: seq<Phase>) {
    exists b | 0 <= b < p.nbanks :: ReadCol(p, fs, b).Some?
  }

  /** `rddata` and `rddata_valid` on the DFI. */
  function DfiRead(p: Settings, s: State, fs: seq<Phase>): (bool, Word)
    requires p.Valid() && WellFormed(p, s)
  {
    if p.readLatency == 0 then (AnyRead(p, fs), ReadBus(p, fs, s.banks, 0)) else s.pipe[p.readLatency - 1]
  }

  // Clock edge -------------------------------------------------------------------------------------

  function BankStep(p: Settings, bank: Bank, fs: seq<Phase>, b: nat, data: Word, we: seq<bool>): (r: Bank)
    requires p.Valid() && BankOk(p, bank)
    ensures BankOk(p, r)
  {
    var act := Activated(p, fs, b);
    var landing := Landing(p, fs, bank, b);
    Bank(
      !Precharged(fs, b) && (act.Some? || bank.active),
      if !Precharged(fs, b) && act.Some? then act.value else bank.row,
      if landing.Some? && bank.active then
        CellInRange(p, bank.row, landing.value);
        var cell := Cell(p, bank.row, landing.value);
        bank.mem[cell := Merge(bank.mem[cell], data, we)]
      else bank.mem,
      if p.writeLatency == 0 then [] else [Written(p, fs, b)] + bank.writes[..p.writeLatency - 1])
  }

  function Step(p: Settings, s: State, fs: seq<Phase>, data: Word, we: seq<bool>): (s': State)
    requires p.Valid() && WellFormed(p, s)
    ensures WellFormed(p, s')
  {
    State(
      seq(p.nbanks, b requires 0 <= b < p.nbanks && p.Valid() && WellFormed(p, s) =>
        BankStep(p, s.banks[b], fs, b, data, we)),
      if p.readLatency == 0 then []
      else [(AnyRead(p, fs), ReadBus(p, fs, s.banks, 0))] + s.pipe[..p.readLatency - 1])
  }

  // The clocked object -----------------------------------------------------------------------------

  /** A bank of the memory model: its row register, its memory, and the delay line in front of the write port. */
  class BankModel {
    const p: Settings
    const number: nat
    var active: bool
    var row: nat
    const mem: array<Word>
    var writes: seq<Option<nat>>

    function Registers(): Bank reads this, mem { Bank(active, row, mem[..], writes) }

    ghost predicate Valid() reads this, mem { p.Valid() && BankOk(p, Registers()) }

    constructor (p: Settings, number: nat, init: seq<Word>)
      requires p.Valid() && |init| == p.Cells() && forall i | 0 <= i < |init| :: WordOk(p, init[i])
      ensures Valid() && this.p == p && this.number == number && fresh(mem)
      ensures Registers() == Bank(false, 0, init, seq(p.writeLatency, _ => None))
    {
      this.p, this.number := p, number;
      active, row := false, 0;
      mem := new Word[|init|](k requires 0 <= k < |init| => init[k]);
      writes := seq(p.writeLatency, _ => None);
      new;
      assert mem[..] == init;
    }

    /** One clock cycle; `data` and `we` are the bus in the cycle, `rddata` what the bank drives onto it. */
    method Tick(fs: seq<Phase>, data: Word, we: seq<bool>) returns (rddata: Word)
      requires Valid()
      modifies this, mem
      ensures Valid() && Registers() == BankStep(p, old(Registers()), fs, number, data, we)
      ensures rddata == ReadData(p, fs, old(Registers()), number)
    {
      hide Activated, Precharged, Written, ReadCol, Merge, Cell;
      ghost var s := Registers();
      rddata := ReadOut(fs);
      var landing := if p.writeLatency == 0 then Written(p, fs, number) else writes[p.writeLatency - 1];
      if landing.Some? && active { Write(landing.value, data, we); }
      if p.writeLatency > 0 { writes := [Written(p, fs, number)] + writes[..p.writeLatency - 1]; }
      if Precharged(fs, number) {
        active := false;
      } else if Activated(p, fs, number).Some? {
        active, row := true, Activated(p, fs, number).value;
      }
      assert Registers() == BankStep(p, s, fs, number, data, we);
    }

    /** The asynchronous read port. */
    method ReadOut(fs: seq<Phase>) returns (w: Word)
      requires Valid()
      ensures w == ReadData(p, fs, Registers(), number)
    {
      w := Zero(p);
      var col := ReadCol(p, fs, number);
      if col.Some? && active {
        CellInRange(p, row, col.value);
        w := mem[Cell(p, row, col.value)];
      }
    }

    /** The write port, with its byte mask. */
    method Write(col: nat, data: Word, we: seq<bool>)
      requires Valid() && active && col < Pow2(p.colbits)
      modifies mem
      ensures row < Pow2(p.rowbits) && Cell(p, row, col) < |old(mem[..])|
      ensures mem[..] == old(mem[..])[Cell(p, row, col) := Merge(old(mem[..])[Cell(p, row, col)], data, we)]
    {
      CellInRange(p, row, col);
      mem[Cell(p, row, col)] := Merge(mem[Cell(p, row, col)], data, we);
    }
  }
}
