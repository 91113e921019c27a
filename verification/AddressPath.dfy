/** Address arithmetic: litedram/core/bankmachine.py `_AddressSlicer`, litedram/common.py port address getters, the
    default bank mapping of litedram/core/crossbar.py, and the cell index of litedram/phy/model.py. */
module AddressPath {
  import opened Common
  import opened Bits

  // Row and column ---------------------------------------------------------------------------------

  datatype Slicer = Slicer(colbits: nat, align: nat) {
    /** Alignment bits are column bits, and stay below the auto-precharge bit. */
    ghost predicate Valid() { align <= colbits && align <= 10 }
  }

  function Row(g: Slicer, address: nat): nat
    requires g.Valid()
  {
    From(address, g.colbits - g.align)
  }

  function Col(g: Slicer, address: nat): nat
    requires g.Valid()
  {
    var word := To(address, g.colbits - g.align);
    if g.colbits > 10 then
      // Bit 10 is reserved for auto-precharge: the bits above it move up by one.
      Up(To(word, 10 - g.align), g.align) + Up(From(word, 10 - g.align), 11)
    else
      Up(word, g.align)
  }

  /** The address that a row and a column stand for. */
  function Join(g: Slicer, row: nat, col: nat): nat
    requires g.Valid()
  {
    var word := if g.colbits > 10 then
                  From(To(col, 11), g.align) + Up(From(col, 11), 10 - g.align)
                else
                  From(col, g.align);
    word + Up(row, g.colbits - g.align)
  }

  /** Slicing loses nothing, for any geometry; and column bit 10 is always left free for auto-precharge. */
  lemma SlicerRoundTrip(g: Slicer, address: nat)
    requires g.Valid()
    ensures Join(g, Row(g, address), Col(g, address)) == address
    ensures From(Col(g, address), 10) % 2 == 0
    ensures Col(g, address) < Pow2(if g.colbits > 10 then g.colbits + 1 else g.colbits)
  {
    hide To, From, Up, Pow2;
    CatSlices(address, g.colbits - g.align);
    if g.colbits > 10 {
      WideColumn(g.colbits, g.align, 10, To(address, g.colbits - g.align));
    } else {
      NarrowColumn(g.colbits, g.align, To(address, g.colbits - g.align));
      Pow2Monotone(g.colbits, 10);
      SlicesOfSmall(Col(g, address), 10);
    }
  }

  lemma NarrowColumn(colbits: nat, align: nat, word: nat)
    requires align <= colbits && word < Pow2(colbits - align)
    ensures From(Up(word, align), align) == word && Up(word, align) < Pow2(colbits)
  {
    SlicesOfCat(0, word, align);
    CatBound(0, word, align, colbits - align);
  }

  /** A column with a zero inserted at bit `hole`. */
  lemma WideColumn(colbits: nat, align: nat, hole: nat, word: nat)
    requires align <= hole <= colbits && word < Pow2(colbits - align)
    ensures var col := Up(To(word, hole - align), align) + Up(From(word, hole - align), hole + 1);
            && From(To(col, hole + 1), align) + Up(From(col, hole + 1), hole - align) == word
            && From(col, hole) % 2 == 0
            && col < Pow2(colbits + 1)
  {
    hide To, From, Up, Pow2;
    var low, high := Up(To(word, hole - align), align), From(word, hole - align);
    CatSlices(word, hole - align);
    NarrowColumn(hole, align, To(word, hole - align));
    FromBound(word, hole - align, colbits - hole);
    ZeroAtHole(hole, low, high);
    CatBound(low, high, hole + 1, colbits - hole);
  }

  lemma ZeroAtHole(hole: nat, low: nat, high: nat)
    requires low < Pow2(hole)
    ensures To(low + Up(high, hole + 1), hole + 1) == low && From(low + Up(high, hole + 1), hole + 1) == high
    ensures From(low + Up(high, hole + 1), hole) == 2 * high
  {
    SlicesOfCat(low, high, hole + 1);
    UpUp(high, 1, hole);
    assert Up(high, 1) == 2 * high;
    SlicesOfCat(low, 2 * high, hole);
  }

  /** With at most ten column bits, the cell that the memory model indexes with a row and a column is the bank-local
      address itself. Row and column do not overlap, so the source's bitwise or of them is this sum. */
  lemma ModelCellIndex(g: Slicer, address: nat)
    requires g.Valid() && g.colbits <= 10
    ensures Col(g, address) < Pow2(g.colbits)
    ensures From(Col(g, address) + Up(Row(g, address), g.colbits), g.align) == address
  {
    CellIndex(g.colbits, g.align, address);
  }

  lemma CellIndex(colbits: nat, align: nat, address: nat)
    requires align <= colbits
    ensures Up(To(address, colbits - align), align) < Pow2(colbits)
    ensures From(Up(To(address, colbits - align), align) + Up(From(address, colbits - align), colbits), align)
         == address
  {
    var split := colbits - align;
    var word, row := To(address, split), From(address, split);
    NarrowColumn(colbits, align, word);
    CatSlices(address, split);
    UpUp(row, split, align);
    UpSum(word, Up(row, split), align);
    SlicesOfCat(0, address, align);
  }

  // Bank mapping -----------------------------------------------------------------------------------

  datatype BankMap = BankMap(bankBits: nat, rcaBits: nat, shift: nat)

  /** Number of native addresses of a port. */
  function Addresses(m: BankMap): pos { Pow2(m.rcaBits + m.bankBits) }

  /** `get_bank_address`. */
  function BankOf(m: BankMap, address: nat): (bank: nat)
    ensures bank < Pow2(m.bankBits)
  {
    To(From(address, m.shift), m.bankBits)
  }

  /** `get_row_column_address`. */
  function RcaOf(m: BankMap, address: nat): nat {
    if m.shift < m.rcaBits then
      if m.shift > 0 then To(address, m.shift) + Up(From(address, m.shift + m.bankBits), m.shift)
      else From(address, m.bankBits)
    else
      To(address, m.shift)
  }

  /** The native address of a bank's cell: the bank field inserted at `shift`. */
  function AddressOf(m: BankMap, bank: nat, rca: nat): nat {
    To(rca, m.shift) + Up(bank + Up(From(rca, m.shift), m.bankBits), m.shift)
  }

  /** Native address to (bank, row/column address) and back. */
  lemma AddressRoundTrip(m: BankMap, address: nat)
    requires m.shift <= m.rcaBits && address < Addresses(m)
    ensures RcaOf(m, address) < Pow2(m.rcaBits)
    ensures AddressOf(m, BankOf(m, address), RcaOf(m, address)) == address
  {
    hide To, From, Up, Pow2;
    var low, high := To(address, m.shift), From(address, m.shift + m.bankBits);
    ZeroWidth(high, m.bankBits);
    ZeroWidth(From(address, 0), 0);
    FromFrom(address, m.shift, m.bankBits);
    CatSlices(address, m.shift);
    CatSlices(From(address, m.shift), m.bankBits);
    FromBound(address, m.shift + m.bankBits, m.rcaBits - m.shift);
    CatBound(low, high, m.shift, m.rcaBits - m.shift);
    SlicesOfCat(low, high, m.shift);
    SlicesOfSmall(low, m.shift);
  }

  /** (bank, row/column address) to native address and back. */
  lemma CellRoundTrip(m: BankMap, bank: nat, rca: nat)
    requires m.shift <= m.rcaBits && bank < Pow2(m.bankBits) && rca < Pow2(m.rcaBits)
    ensures AddressOf(m, bank, rca) < Addresses(m)
    ensures BankOf(m, AddressOf(m, bank, rca)) == bank
    ensures RcaOf(m, AddressOf(m, bank, rca)) == rca
  {
    hide To, From, Up, Pow2;
    var low, high := To(rca, m.shift), From(rca, m.shift);
    var upper := bank + Up(high, m.bankBits);
    ZeroWidth(rca, m.bankBits);
    SlicesOfCat(low, upper, m.shift);
    SlicesOfCat(bank, high, m.bankBits);
    FromFrom(AddressOf(m, bank, rca), m.shift, m.bankBits);
    CatSlices(rca, m.shift);
    FromBound(rca, m.shift, m.rcaBits - m.shift);
    CatBound(bank, high, m.bankBits, m.rcaBits - m.shift);
    CatBound(low, upper, m.shift, m.rcaBits - m.shift + m.bankBits);
    if m.shift == m.rcaBits { SlicesOfSmall(rca, m.shift); }
  }

  /** The cell has a native address. */
  ghost predicate Reachable(m: BankMap, bank: nat, rca: nat) {
    exists address: nat :: address < Addresses(m) && Reaches(m, address, bank, rca)
  }

  ghost predicate Reaches(m: BankMap, address: nat, bank: nat, rca: nat) {
    BankOf(m, address) == bank && To(RcaOf(m, address), m.rcaBits) == rca
  }

  /** The mapping reaches all of memory exactly when the bank field starts no higher than the top of the row/column
      address: a `bank_byte_alignment` larger than a bank loses the top bank. */
  lemma EveryCellReachable(m: BankMap)
    requires m.bankBits > 0
    ensures (forall bank: nat, rca: nat | bank < Pow2(m.bankBits) && rca < Pow2(m.rcaBits) :: Reachable(m, bank, rca))
       <==> m.shift <= m.rcaBits
  {
    if m.shift <= m.rcaBits {
      forall bank: nat, rca: nat | bank < Pow2(m.bankBits) && rca < Pow2(m.rcaBits)
        ensures Reachable(m, bank, rca)
      {
        CellRoundTrip(m, bank, rca);
        SlicesOfSmall(rca, m.rcaBits);
        assert Reaches(m, AddressOf(m, bank, rca), bank, rca);
      }
    } else {
      var top: nat := Pow2(m.bankBits) - 1;
      forall address: nat | address < Addresses(m) ensures !Reaches(m, address, top, 0) {
        TopBankUnreached(m, address);
      }
      assert !Reachable(m, top, 0);
    }
  }

  lemma TopBankUnreached(m: BankMap, address: nat)
    requires m.bankBits > 0 && m.shift > m.rcaBits && address < Addresses(m)
    ensures BankOf(m, address) < Pow2(m.bankBits) - 1
  {
    Pow2Monotone(m.rcaBits + m.bankBits, m.bankBits - 1 + m.shift);
    FromBound(address, m.shift, m.bankBits - 1);
    SlicesOfSmall(From(address, m.shift), m.bankBits);
    assert Pow2(0) == 1;
  }
}
