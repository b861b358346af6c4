/**
 * The vault screen of `App.tsx` (`VaultSection`): the shown entries, kept
 * between two typed dates, and three sums over them.
 */
module Vault {
  import opened Wrappers
  import opened Numbers
  import opened Types
  import opened Seqs
  import DataService

  /** JavaScript's `a <= b` on strings: lexicographic by character code, a prefix first. */
  predicate LexLe(a: string, b: string) {
    a == [] || (b != [] && (a[0] < b[0] || (a[0] == b[0] && LexLe(a[1..], b[1..]))))
  }

  /** Every string is below itself. */
  lemma {:induction false} LexLeReflexive(a: string)
    ensures LexLe(a, a)
  {
    if a != [] {
      LexLeReflexive(a[1..]);
    }
  }

  /** The order is transitive. */
  lemma {:induction false} LexLeTransitive(a: string, b: string, c: string)
    requires LexLe(a, b) && LexLe(b, c)
    ensures LexLe(a, c)
  {
    if a != [] && a[0] == b[0] && b[0] == c[0] {
      LexLeTransitive(a[1..], b[1..], c[1..]);
    }
  }

  /** The order is antisymmetric: strings below each other are equal. */
  lemma {:induction false} LexLeAntisymmetric(a: string, b: string)
    requires LexLe(a, b) && LexLe(b, a)
    ensures a == b
  {
    if a != [] {
      LexLeAntisymmetric(a[1..], b[1..]);
      assert a == [a[0]] + a[1..] && b == [b[0]] + b[1..];
    }
  }

  /** `e.date >= range.start && e.date <= range.end`. */
  predicate InRange(e: Entry, startDate: string, endDate: string) {
    LexLe(startDate, e.date) && LexLe(e.date, endDate)
  }

  /** `filtered`: every entry when either bound is empty, otherwise those dated within the bounds. */
  function VaultFilter(entries: seq<Entry>, startDate: string, endDate: string): (r: seq<Entry>)
    ensures startDate == "" || endDate == "" ==> r == entries
    ensures startDate != "" && endDate != "" ==> forall e :: e in r <==> e in entries && InRange(e, startDate, endDate)
  {
    if startDate == "" || endDate == "" then entries
    else Filter(entries, (e: Entry) => InRange(e, startDate, endDate))
  }

  /** The three cards of the screen. */
  datatype VaultSums = VaultSums(total: Num, totalIn: Num, totalOut: Num)

  /**
   * `total`, `totalIn` and `totalOut`: balance, total entry and exit summed
   * over the filtered entries. On calculated entries with their exits
   * recorded, the vault holds what came in minus what went out.
   */
  function Summary(entries: seq<Entry>, startDate: string, endDate: string): (sums: VaultSums)
    ensures sums.total.Some? <==> forall e :: e in VaultFilter(entries, startDate, endDate) ==> e.Balance().Some?
    ensures sums.totalIn.Some? <==> forall e :: e in VaultFilter(entries, startDate, endDate) ==> e.TotalEntry().Some?
    ensures sums.totalOut.Some? <==> forall e :: e in VaultFilter(entries, startDate, endDate) ==> e.exit.Some?
    ensures (forall e :: e in entries ==> DataService.Fresh(e) && e.exit.Some?) ==>
      sums.total == Minus(sums.totalIn, sums.totalOut)
  {
    var filtered := VaultFilter(entries, startDate, endDate);
    DataService.SumOfBalances(filtered);
    VaultSums(
      SumNum(filtered, (e: Entry) => e.Balance()),
      SumNum(filtered, (e: Entry) => e.TotalEntry()),
      SumNum(filtered, (e: Entry) => e.exit))
  }

  /** A range that no entry falls in gives zero on all three cards. */
  lemma VaultEmptyRange(entries: seq<Entry>, startDate: string, endDate: string)
    requires startDate != "" && endDate != ""
    requires forall e :: e in entries ==> !InRange(e, startDate, endDate)
    ensures Summary(entries, startDate, endDate) == VaultSums(Some(0.0), Some(0.0), Some(0.0))
  {
    FilterDropsAll(entries, (e: Entry) => InRange(e, startDate, endDate));
  }

  /** A range whose start lies after its end selects nothing: all three cards show 0. */
  lemma VaultInvertedRange(entries: seq<Entry>, startDate: string, endDate: string)
    requires startDate != "" && endDate != ""
    requires !LexLe(startDate, endDate)
    ensures Summary(entries, startDate, endDate) == VaultSums(Some(0.0), Some(0.0), Some(0.0))
  {
    forall e | e in entries
      ensures !InRange(e, startDate, endDate)
    {
      if InRange(e, startDate, endDate) {
        LexLeTransitive(startDate, e.date, endDate);
      }
    }
    VaultEmptyRange(entries, startDate, endDate);
  }

  /** A range from a day to the same day selects exactly the entries of that day. */
  lemma VaultSingleDay(entries: seq<Entry>, day: string)
    requires day != ""
    ensures forall e :: e in VaultFilter(entries, day, day) <==> e in entries && e.date == day
  {
    LexLeReflexive(day);
    forall e | e in entries && InRange(e, day, day)
      ensures e.date == day
    {
      LexLeAntisymmetric(e.date, day);
    }
  }
}
