/** litedram/phy/model.py: how a memory image is dealt out to the banks of the memory model. */
module ModelInit {
  import opened Common
  import opened Bits
  import A = AddressPath

  /** The slice `init[start:start + size]`, cut at the end of the image. */
  function Slice<T>(init: seq<T>, start: nat, size: nat): seq<T> {
    if start >= |init| then [] else init[start..Min(start + size, |init|)]
  }

  /** First word of a row of a bank, when rows of the banks alternate. */
  function RowStart(nbanks: nat, size: nat, row: nat, bank: nat): nat { row * nbanks * size + bank * size }

  /** What a bank receives from the first rows: its slices, one after the other. */
  function Dealt<T>(init: seq<T>, nbanks: nat, size: nat, bank: nat, rows: nat): seq<T> {
    if rows == 0 then []
    else Dealt(init, nbanks, size, bank, rows - 1) + Slice(init, RowStart(nbanks, size, rows - 1, bank), size)
  }

  /** `ROW_BANK_COL`: row by row, each bank's list grows by one slice, until the image ends. */
  method DealRows<T>(init: seq<T>, nbanks: nat, nrows: nat, size: nat) returns (bankInit: seq<seq<T>>)
    ensures |bankInit| == nbanks
    ensures forall b | 0 <= b < nbanks :: bankInit[b] == Dealt(init, nbanks, size, b, nrows)
  {
    bankInit := seq(nbanks, _ => []);
    for row := 0 to nrows
      invariant |bankInit| == nbanks
      invariant forall b | 0 <= b < nbanks :: bankInit[b] == Dealt(init, nbanks, size, b, row)
    {
      var bank := 0;
      while bank < nbanks
        invariant bank <= nbanks && |bankInit| == nbanks
        invariant forall b | 0 <= b < bank :: bankInit[b] == Dealt(init, nbanks, size, b, row + 1)
        invariant forall b | bank <= b < nbanks :: bankInit[b] == Dealt(init, nbanks, size, b, row)
      {
        var start := RowStart(nbanks, size, row, bank);
        var end := Min(start + size, |init|);
        if start > |init| {
          forall b | bank <= b < nbanks ensures Slice(init, RowStart(nbanks, size, row, b), size) == [] {
            LaterStart(nbanks, size, row, bank, b);
          }
          break;
        }
        bankInit := bankInit[bank := bankInit[bank] + init[start..end]];
        bank := bank + 1;
      }
      forall b | 0 <= b < nbanks ensures bankInit[b] == Dealt(init, nbanks, size, b, row + 1) {
      }
    }
  }

  lemma LaterStart(nbanks: nat, size: nat, row: nat, bank: nat, b: nat)
    requires bank <= b
    ensures RowStart(nbanks, size, row, bank) <= RowStart(nbanks, size, row, b)
  {
    assert b * size == bank * size + (b - bank) * size;
  }

  /** A bank's next row comes after its whole current one. */
  lemma NextRow(nbanks: nat, size: nat, row: nat, bank: nat)
    requires bank < nbanks
    ensures RowStart(nbanks, size, row, bank) + size <= RowStart(nbanks, size, row + 1, bank)
  {
    NextProduct(row, nbanks);
    ProductMonotone(row * nbanks + bank + 1, (row + 1) * nbanks + bank, size);
    NextProduct(row * nbanks + bank, size);
  }

  lemma DealtNext<T>(init: seq<T>, nbanks: nat, size: nat, bank: nat, row: nat)
    requires RowStart(nbanks, size, row, bank) + size <= |init|
    ensures |Dealt(init, nbanks, size, bank, row + 1)| == |Dealt(init, nbanks, size, bank, row)| + size
  {
    hide RowStart;
  }

  /** Rows that lie inside the image are dealt whole. */
  lemma {:induction false} DealtLength<T>(init: seq<T>, nbanks: nat, size: nat, bank: nat, rows: nat)
    requires bank < nbanks && RowStart(nbanks, size, rows, bank) <= |init|
    ensures |Dealt(init, nbanks, size, bank, rows)| == rows * size
  {
    hide RowStart;
    if rows > 0 {
      NextRow(nbanks, size, rows - 1, bank);
      DealtLength(init, nbanks, size, bank, rows - 1);
      DealtNext(init, nbanks, size, bank, rows - 1);
      NextProduct(rows - 1, size);
    }
  }

  /** Word `col` of row `row` of a bank comes from its place in the image; `k` is its index in the bank. */
  lemma {:induction false} DealtWord<T>(init: seq<T>, nbanks: nat, size: nat, bank: nat, rows: nat, row: nat, col: nat,
                                        k: nat)
    requires bank < nbanks && row < rows && col < size && RowStart(nbanks, size, row, bank) + col < |init|
    requires k == row * size + col
    ensures k < |Dealt(init, nbanks, size, bank, rows)|
    ensures Dealt(init, nbanks, size, bank, rows)[k] == init[RowStart(nbanks, size, row, bank) + col]
    decreases rows
  {
    hide RowStart, Slice;
    var before, start := Dealt(init, nbanks, size, bank, rows - 1), RowStart(nbanks, size, rows - 1, bank);
    if row == rows - 1 {
      DealtLength(init, nbanks, size, bank, row);
      SliceWord(init, start, size, col);
      assert k == |before| + col;
    } else {
      DealtWord(init, nbanks, size, bank, rows - 1, row, col, k);
    }
  }

  lemma SliceWord<T>(init: seq<T>, start: nat, size: nat, col: nat)
    requires col < size && start + col < |init|
    ensures col < |Slice(init, start, size)| && Slice(init, start, size)[col] == init[start + col]
  {
  }

  /** With the default mapping, word `i` of the image is at the cell that native address `i` reaches. */
  lemma ImageAtNativeAddress<T>(init: seq<T>, m: A.BankMap, i: nat)
    requires m.shift <= m.rcaBits && i < |init| && i < A.Addresses(m)
    ensures var bank := Dealt(init, Pow2(m.bankBits), Pow2(m.shift), A.BankOf(m, i), Pow2(m.rcaBits - m.shift));
            A.RcaOf(m, i) < |bank| && bank[A.RcaOf(m, i)] == init[i]
  {
    var bank, row, col := A.BankOf(m, i), From(i, m.shift + m.bankBits), To(i, m.shift);
    FromBound(i, m.shift + m.bankBits, m.rcaBits - m.shift);
    NativeParts(m, i);
    DealtWord(init, Pow2(m.bankBits), Pow2(m.shift), bank, Pow2(m.rcaBits - m.shift), row, col, A.RcaOf(m, i));
  }

  /** A native address as row, bank and column, as numbers. */
  lemma NativeParts(m: A.BankMap, i: nat)
    requires m.shift <= m.rcaBits && i < A.Addresses(m)
    ensures var bank, row, col := A.BankOf(m, i), From(i, m.shift + m.bankBits), To(i, m.shift);
            && RowStart(Pow2(m.bankBits), Pow2(m.shift), row, bank) + col == i
            && A.RcaOf(m, i) == row * Pow2(m.shift) + col
  {
    hide RowStart, A.RcaOf, A.BankOf, To, From, Up;
    AddressSum(m, i);
    CellSum(m, i);
    Distribute(A.BankOf(m, i), From(i, m.shift + m.bankBits), Pow2(m.bankBits), Pow2(m.shift));
  }

  lemma AddressSum(m: A.BankMap, i: nat)
    ensures i == To(i, m.shift) + (A.BankOf(m, i) + From(i, m.shift + m.bankBits) * Pow2(m.bankBits)) * Pow2(m.shift)
  {
    hide To, From, Up;
    var upper := From(i, m.shift);
    FromFrom(i, m.shift, m.bankBits);
    CatSlices(i, m.shift);
    CatSlices(upper, m.bankBits);
    UpIsProduct(From(upper, m.bankBits), m.bankBits);
    UpIsProduct(upper, m.shift);
  }

  lemma CellSum(m: A.BankMap, i: nat)
    requires m.shift <= m.rcaBits && i < A.Addresses(m)
    ensures A.RcaOf(m, i) == From(i, m.shift + m.bankBits) * Pow2(m.shift) + To(i, m.shift)
  {
    hide To, Up, From, Pow2;
    var row := From(i, m.shift + m.bankBits);
    if m.shift == m.rcaBits {
      NoRow(i, m.shift + m.bankBits);
    } else if m.shift == 0 {
      NoColumn(i, row);
    } else {
      UpIsProduct(row, m.shift);
    }
  }

  lemma NoRow(i: nat, bits: nat)
    requires i < Pow2(bits)
    ensures From(i, bits) == 0
  {
    SlicesOfSmall(i, bits);
  }

  lemma NoColumn(i: nat, row: nat)
    ensures To(i, 0) == 0 && row * Pow2(0) == row
  {
  }

  lemma Distribute(bank: nat, row: nat, nbanks: nat, size: nat)
    ensures (bank + row * nbanks) * size == RowStart(nbanks, size, row, bank)
  {
  }

  /** Nothing else is dealt: a bank holds as many words as the image has for it. */
  lemma {:induction false} DealtFits<T>(init: seq<T>, nbanks: nat, size: nat, bank: nat, rows: nat)
    ensures |Dealt(init, nbanks, size, bank, rows)| <= rows * size
  {
    if rows > 0 {
      DealtFits(init, nbanks, size, bank, rows - 1);
      assert rows * size == (rows - 1) * size + size;
    }
  }
}
