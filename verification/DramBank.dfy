/** One DRAM bank as the command bus sees it: which row is open and how long ago each command was issued. This is the
    reference the controller is held to; it knows nothing of the controller's own state. The rules are those of section
    4.1 of JESD79-3F and of the rule list in litedram/phy/model.py. */
module DramBank {
  import opened Common

  /** What one bank is told in one controller cycle. */
  datatype Command =
    | Nop
    | Act(row: nat)
    | Pre
    | PreAll
    | Rd(col: nat, autoPrecharge: bool)
    | Wr(col: nat, autoPrecharge: bool)
  {
    predicate Column() { Rd? || Wr? }
    predicate Closing() { Column() && autoPrecharge }
  }

  /** Timing settings of a bank, in controller cycles. `tWTP` is write-to-precharge: write latency plus tWR plus
      tCCD. */
  datatype Timing = Timing(tRP: pos, tRCD: pos, tWTP: pos, tRC: Option<pos>, tRAS: Option<pos>)

  datatype Bank = Bank(open: Option<nat>, selfClosed: bool, sinceAct: Since, sincePre: Since, sinceWr: Since)

  const Fresh := Bank(None, false, None, None, None)

  /** The bank after a command and one clock cycle. `selfClosed` marks a row closed by auto-precharge. */
  function Exec(d: Bank, c: Command): Bank {
    Bank(if c.Act? then Some(c.row) else if c.Pre? || c.PreAll? || c.Closing() then None else d.open,
         if c.Act? || c.Pre? || c.PreAll? then false else c.Closing() || d.selfClosed,
         Elapse(d.sinceAct, c.Act?),
         Elapse(d.sincePre, c.Pre? || c.PreAll?),
         Elapse(d.sinceWr, c.Wr?))
  }

  predicate AtLeastOpt(s: Since, n: Option<pos>, more: int) { n.Some? ==> AtLeast(s, n.value + more) }

  /** `slack` cycles from now, the bank has been closed for tRP. An auto-precharge starts once tRAS and write recovery
      have passed. */
  predicate Precharged(t: Timing, d: Bank, slack: int) {
    && d.open.None?
    && AtLeast(d.sincePre, t.tRP - slack)
    && (d.selfClosed ==>
          && AtLeastOpt(d.sinceAct, t.tRAS, t.tRP - slack)
          && AtLeast(d.sinceWr, t.tWTP + t.tRP - slack))
  }

  /** The bank accepts the command now. */
  predicate Legal(t: Timing, d: Bank, c: Command) {
    match c
    case Nop => true
    case Act(_) => Precharged(t, d, 0) && AtLeastOpt(d.sinceAct, t.tRC, 0)
    case Pre => d.open.Some? && AtLeastOpt(d.sinceAct, t.tRAS, 0) && AtLeast(d.sinceWr, t.tWTP)
    case PreAll => AtLeast(d.sinceWr, t.tWTP)
    case Rd(_, _) => d.open.Some? && AtLeast(d.sinceAct, t.tRCD)
    case Wr(_, _) => d.open.Some? && AtLeast(d.sinceAct, t.tRCD)
  }

  /** An access to a cell of the bank. */
  datatype Access = Access(we: bool, row: nat, col: nat)

  function Performed(d: Bank, c: Command): seq<Access> {
    if c.Column() && d.open.Some? then [Access(c.Wr?, d.open.value, c.col)] else []
  }

  // Whole traces -----------------------------------------------------------------------------------

  /** The bank after a trace of commands, one per controller cycle. */
  function Replay(trace: seq<Command>): Bank {
    if trace == [] then Fresh else Exec(Replay(trace[..|trace| - 1]), trace[|trace| - 1])
  }

  ghost predicate LegalTrace(t: Timing, trace: seq<Command>) {
    forall k | 0 <= k < |trace| :: Legal(t, Replay(trace[..k]), trace[k])
  }

  predicate Closes(c: Command) { c.Pre? || c.PreAll? }

  /** Cycles a trace must keep between an earlier and a later command of the same bank. */
  function Spacing(t: Timing, earlier: Command, later: Command): int {
    if Closes(earlier) && later.Act? then t.tRP
    else if earlier.Act? && later.Column() then t.tRCD
    else if earlier.Act? && later.Act? && t.tRC.Some? then t.tRC.value
    else if earlier.Act? && later.Pre? && t.tRAS.Some? then t.tRAS.value
    else if earlier.Wr? && Closes(later) then t.tWTP
    else 0
  }

  /** The bank's distances account for a command received `k` cycles ago. */
  ghost predicate Remembers(d: Bank, c: Command, k: int) {
    && (c.Act? ==> d.sinceAct.Some? && d.sinceAct.value <= k)
    && (Closes(c) ==> d.sincePre.Some? && d.sincePre.value <= k)
    && (c.Wr? ==> d.sinceWr.Some? && d.sinceWr.value <= k)
  }

  lemma LegalSpacing(t: Timing, d: Bank, earlier: Command, later: Command, k: int)
    requires Remembers(d, earlier, k) && Legal(t, d, later) && 0 <= k
    ensures Spacing(t, earlier, later) <= k
  {
  }

  lemma {:induction false} ReplayDistances(trace: seq<Command>, i: nat)
    requires i < |trace|
    ensures Remembers(Replay(trace), trace[i], |trace| - i)
  {
    if i < |trace| - 1 {
      ReplayDistances(trace[..|trace| - 1], i);
    }
  }

  /** A trace the bank accepts step by step keeps every distance of the rule list, between any two commands. */
  lemma LegalTraceSpacing(t: Timing, trace: seq<Command>, i: nat, j: nat)
    requires LegalTrace(t, trace) && i < j < |trace|
    ensures Spacing(t, trace[i], trace[j]) <= j - i
  {
    ReplayDistances(trace[..j], i);
    LegalSpacing(t, Replay(trace[..j]), trace[i], trace[j], j - i);
  }

  /** An auto-precharged row is not reopened before tRAS, write recovery and tRP have all passed. */
  lemma AutoPrechargeSpacing(t: Timing, trace: seq<Command>, i: nat, j: nat)
    requires LegalTrace(t, trace) && i < j < |trace| && trace[j].Act? && Replay(trace[..j]).selfClosed
    ensures trace[i].Wr? ==> t.tWTP + t.tRP <= j - i
    ensures trace[i].Act? && t.tRAS.Some? ==> t.tRAS.value + t.tRP <= j - i
  {
    ReplayDistances(trace[..j], i);
    assert Legal(t, Replay(trace[..j]), trace[j]);
  }
}
