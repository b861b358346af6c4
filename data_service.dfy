/**
 * `services/dataService.ts`: the ledger calculator and the persistence
 * gateway.
 *
 * All state lives in one remote document whose top-level fields hold whole
 * collections. The document is modelled as a map from field name to value,
 * held by a `Store` object; a save merges one field, a load reads one field or
 * falls back to a default.
 */
module DataService {
  import opened Wrappers
  import opened Numbers
  import opened Types
  import opened Seqs

  // ---------------------------------------------------------------- calculator

  /**
   * `calculateEntry`: the entry with `totalEntry`, `balance` and `markup`
   * (re)computed, a missing or NaN field counting as 0.
   */
  function CalculateEntry(e: Entry): (c: Entry)
    ensures c.(derived := e.derived) == e
    ensures c.derived.Some?
  {
    var totalEntry := OrZero(e.cashIn) + OrZero(e.pixIn) + OrZero(e.cardIn);
    var balance := totalEntry - OrZero(e.exit);
    var markup := balance * OrZero(e.percentage);
    e.(derived := Some(Derived(totalEntry, balance, markup)))
  }

  /** On a complete entry the derived fields are the channel sum, that minus the exit, and that times the percentage. */
  lemma CalculateComplete(e: Entry)
    requires e.Complete()
    ensures CalculateEntry(e).TotalEntry() == Plus(Plus(e.cashIn, e.pixIn), e.cardIn)
    ensures CalculateEntry(e).Balance() == Minus(CalculateEntry(e).TotalEntry(), e.exit)
    ensures CalculateEntry(e).Markup() == Times(CalculateEntry(e).Balance(), e.percentage)
  {
    var d := CalculateEntry(e).derived.value;
    assert CalculateEntry(e).Balance() == Some(d.balance);
    assert CalculateEntry(e).Markup() == Some(d.markup);
    assert d.markup == d.balance * e.percentage.value;
    var t := Times(CalculateEntry(e).Balance(), e.percentage);
    assert t.Some? && t.value == d.markup;
  }

  /** A field that is `0` when missing: `x || 0` applied to the record. */
  function ZeroIfMissing(n: Num): Num {
    Some(OrZero(n))
  }

  /** A missing (or NaN) channel, exit or percentage contributes exactly what a 0 would. */
  lemma CalculateMissingIsZero(e: Entry)
    ensures CalculateEntry(e).derived == CalculateEntry(e.(
      cashIn := ZeroIfMissing(e.cashIn), pixIn := ZeroIfMissing(e.pixIn), cardIn := ZeroIfMissing(e.cardIn),
      exit := ZeroIfMissing(e.exit), percentage := ZeroIfMissing(e.percentage))).derived
  {
    var z := e.(
      cashIn := ZeroIfMissing(e.cashIn), pixIn := ZeroIfMissing(e.pixIn), cardIn := ZeroIfMissing(e.cardIn),
      exit := ZeroIfMissing(e.exit), percentage := ZeroIfMissing(e.percentage));
    SameMoneySameDerived(e, z);
  }

  /** Entries that read the same under `|| 0` get the same derived fields. */
  lemma SameMoneySameDerived(e: Entry, f: Entry)
    requires OrZero(e.cashIn) == OrZero(f.cashIn) && OrZero(e.pixIn) == OrZero(f.pixIn)
    requires OrZero(e.cardIn) == OrZero(f.cardIn) && OrZero(e.exit) == OrZero(f.exit)
    requires OrZero(e.percentage) == OrZero(f.percentage)
    ensures CalculateEntry(e).derived == CalculateEntry(f).derived
  {
    var d, d' := CalculateEntry(e).derived.value, CalculateEntry(f).derived.value;
    assert d.totalEntry == d'.totalEntry;
    assert d.balance == d'.balance;
    assert d.markup == d'.markup;
  }

  /** Stale derived fields carried by the input are overwritten, never read. */
  lemma CalculateIgnoresStale(e: Entry, stale: Option<Derived>)
    ensures CalculateEntry(e.(derived := stale)) == CalculateEntry(e)
  {
    SameMoneySameDerived(e.(derived := stale), e);
  }

  /** An entry whose derived fields agree with its own money fields. */
  predicate Fresh(e: Entry) {
    e == CalculateEntry(e)
  }

  /** Calculating is idempotent: its result is always fresh. */
  lemma CalculateIsFresh(e: Entry)
    ensures Fresh(CalculateEntry(e))
  {
    CalculateIgnoresStale(e, CalculateEntry(e).derived);
  }

  /**
   * On calculated entries with their exits recorded, the day balances sum to
   * the summed total entries minus the summed exits.
   */
  lemma SumOfBalances(s: seq<Entry>)
    ensures (forall e :: e in s ==> Fresh(e) && e.exit.Some?) ==>
      SumNum(s, (e: Entry) => e.Balance())
        == Minus(SumNum(s, (e: Entry) => e.TotalEntry()), SumNum(s, (e: Entry) => e.exit))
  {
    if forall e :: e in s ==> Fresh(e) && e.exit.Some? {
      forall e | e in s
        ensures e.Balance() == Minus(e.TotalEntry(), e.exit)
      {
        var d := CalculateEntry(e).derived.value;
        assert d.balance == d.totalEntry - e.exit.value;
      }
      SumNumMinus(s, (e: Entry) => e.TotalEntry(), (e: Entry) => e.exit, (e: Entry) => e.Balance());
    }
  }

  /** `entries.map(calculateEntry)`. */
  function CalculateAll(s: seq<Entry>): (r: seq<Entry>)
    ensures |r| == |s|
    ensures forall i :: 0 <= i < |s| ==> r[i] == CalculateEntry(s[i])
  {
    if s == [] then [] else [CalculateEntry(s[0])] + CalculateAll(s[1..])
  }

  /** Every entry `map(calculateEntry)` produces is fresh. */
  lemma CalculateAllFresh(s: seq<Entry>)
    ensures forall e :: e in CalculateAll(s) ==> Fresh(e)
  {
    var r := CalculateAll(s);
    forall e | e in r
      ensures Fresh(e)
    {
      var i :| 0 <= i < |r| && r[i] == e;
      CalculateIsFresh(s[i]);
    }
  }

  lemma {:induction false} CalculateAllConcat(a: seq<Entry>, b: seq<Entry>)
    ensures CalculateAll(a + b) == CalculateAll(a) + CalculateAll(b)
  {
  }

  /** Mapping a permutation gives a permutation of the mapped list. */
  lemma {:induction false} CalculateAllPermutation(a: seq<Entry>, b: seq<Entry>)
    requires multiset(a) == multiset(b)
    ensures multiset(CalculateAll(a)) == multiset(CalculateAll(b))
  {
    if a == [] {
      assert |multiset(b)| == 0;
    } else {
      var x := a[0];
      assert a == [x] + a[1..];
      assert x in multiset(b);
      var k :| 0 <= k < |b| && b[k] == x;
      assert b == b[..k] + [x] + b[k + 1..];
      var rest := b[..k] + b[k + 1..];
      assert multiset(a) == multiset{x} + multiset(a[1..]);
      assert multiset(b) == multiset(b[..k]) + multiset{x} + multiset(b[k + 1..]);
      assert multiset(rest) == multiset(b[..k]) + multiset(b[k + 1..]);
      calc {
        multiset(a[1..]);
        multiset(a) - multiset{x};
        multiset(b) - multiset{x};
        multiset(rest);
      }
      CalculateAllPermutation(a[1..], rest);
      CalculateAllConcat(b[..k] + [x], b[k + 1..]);
      CalculateAllConcat(b[..k], [x]);
      CalculateAllConcat(b[..k], b[k + 1..]);
      CalculateAllConcat([x], a[1..]);
    }
  }

  // ---------------------------------------------------------------- sorting

  /** Most recent first, by the time `time` gives each date (`new Date(date).getTime()`). */
  ghost predicate SortedByDateDesc(s: seq<Entry>, time: string -> int) {
    forall i, j :: 0 <= i < j < |s| ==> time(s[i].date) >= time(s[j].date)
  }

  /** Swaps two cells of the array and nothing else. */
  method Swap(a: array<Entry>, i: int, j: int)
    requires 0 <= i < a.Length && 0 <= j < a.Length
    modifies a
    ensures a[..] == old(a[..])[i := old(a[j])][j := old(a[i])]
    ensures multiset(a[..]) == multiset(old(a[..]))
  {
    a[i], a[j] := a[j], a[i];
  }

  /** The cells `lo..hi` of `s` are most recent first. */
  ghost predicate DescendingRange(s: seq<Entry>, lo: int, hi: int, time: string -> int)
    requires 0 <= lo <= hi <= |s|
  {
    forall p, q :: lo <= p < q < hi ==> time(s[p].date) >= time(s[q].date)
  }

  /**
   * Half-way through inserting the entry now at `j` into the sorted prefix
   * `0..i`: apart from it the prefix is sorted, it is newer than everything
   * after it, and its neighbours are in order with each other.
   */
  ghost predicate Inserting(s: seq<Entry>, i: int, j: int, time: string -> int) {
    && 0 <= j <= i < |s|
    && (forall p, q :: 0 <= p < q <= i && p != j && q != j ==> time(s[p].date) >= time(s[q].date))
    && (forall q :: j < q <= i ==> time(s[j].date) > time(s[q].date))
    && (0 < j < i ==> time(s[j - 1].date) >= time(s[j + 1].date))
  }

  lemma InsertingStart(s: seq<Entry>, i: int, time: string -> int)
    requires 0 <= i < |s| && DescendingRange(s, 0, i, time)
    ensures Inserting(s, i, i, time)
  {
  }

  lemma InsertingStep(s: seq<Entry>, i: int, j: int, time: string -> int)
    requires Inserting(s, i, j, time) && j > 0 && time(s[j - 1].date) < time(s[j].date)
    ensures Inserting(s[j - 1 := s[j]][j := s[j - 1]], i, j - 1, time)
  {
  }

  lemma InsertingDone(s: seq<Entry>, i: int, j: int, time: string -> int)
    requires Inserting(s, i, j, time) && (j == 0 || time(s[j - 1].date) >= time(s[j].date))
    ensures DescendingRange(s, 0, i + 1, time)
  {
  }

  /**
   * The in-place `sort` of `getCalculatedEntries`, with comparator
   * `time(b.date) - time(a.date)`: an insertion sort that moves an entry
   * forward only past strictly older ones.
   */
  method SortByDateDesc(a: array<Entry>, time: string -> int)
    modifies a
    ensures SortedByDateDesc(a[..], time)
    ensures multiset(a[..]) == multiset(old(a[..]))
  {
    var i := 0;
    while i < a.Length
      invariant 0 <= i <= a.Length
      invariant DescendingRange(a[..], 0, i, time)
      invariant multiset(a[..]) == multiset(old(a[..]))
    {
      InsertBackward(a, i, time);
      i := i + 1;
    }
  }

  /** One insertion step: moves `a[i]` forward past the strictly older entries before it. */
  method InsertBackward(a: array<Entry>, i: int, time: string -> int)
    requires 0 <= i < a.Length
    requires DescendingRange(a[..], 0, i, time)
    modifies a
    ensures DescendingRange(a[..], 0, i + 1, time)
    ensures multiset(a[..]) == multiset(old(a[..]))
  {
    InsertingStart(a[..], i, time);
    var j := i;
    while j > 0 && time(a[j - 1].date) < time(a[j].date)
      invariant Inserting(a[..], i, j, time)
      invariant multiset(a[..]) == multiset(old(a[..]))
    {
      InsertingStep(a[..], i, j, time);
      Swap(a, j - 1, j);
      j := j - 1;
    }
    InsertingDone(a[..], i, j, time);
  }

  // ---------------------------------------------------------------- document

  /** What a top-level field of the document can hold: one whole collection. */
  datatype Value =
    | EntryList(entries: seq<Entry>)
    | BillList(bills: seq<Bill>)
    | DebtList(debts: seq<DebtNote>)
    | EnergyList(readings: seq<EnergyReading>)
    | ComandaList(comandas: seq<Comanda>)
    | BudgetList(budgets: seq<ProductBudget>)

  type Document = map<string, Value>

  const EntriesField := "entries"
  const BillsField := "bills"
  const DebtsField := "debts"
  const EnergyField := "energy"
  const ComandasField := "comandas"
  const BudgetsField := "budgets"

  /** `getAllData`: the document's fields, or `{}` when the document does not exist. */
  function AllData(stored: Option<Document>): (data: Document)
    ensures stored.None? ==> data == map[]
    ensures stored.Some? ==> data == stored.value
  {
    stored.GetOr(map[])
  }

  /**
   * `setAllData({key: v})`: a merge write. The document is created if absent,
   * the named field is replaced wholesale and every other field is kept.
   */
  function MergeField(stored: Option<Document>, key: string, v: Value): (after: Option<Document>)
    ensures after.Some?
    ensures key in after.value && after.value[key] == v
    ensures forall k :: k != key ==> (k in after.value <==> k in AllData(stored))
    ensures forall k :: k != key && k in AllData(stored) ==> after.value[k] == AllData(stored)[k]
  {
    Some(AllData(stored)[key := v])
  }

  /** `data.entries || []`. */
  function EntriesIn(data: Document): (entries: seq<Entry>)
    ensures EntriesField in data && data[EntriesField].EntryList? ==> entries == data[EntriesField].entries
    ensures !(EntriesField in data && data[EntriesField].EntryList?) ==> entries == []
  {
    if EntriesField in data && data[EntriesField].EntryList? then data[EntriesField].entries else []
  }

  /** `data.bills || []`. */
  function BillsIn(data: Document): (bills: seq<Bill>)
    ensures BillsField in data && data[BillsField].BillList? ==> bills == data[BillsField].bills
    ensures !(BillsField in data && data[BillsField].BillList?) ==> bills == []
  {
    if BillsField in data && data[BillsField].BillList? then data[BillsField].bills else []
  }

  /** `data.debts || []`. */
  function DebtsIn(data: Document): (debts: seq<DebtNote>)
    ensures DebtsField in data && data[DebtsField].DebtList? ==> debts == data[DebtsField].debts
    ensures !(DebtsField in data && data[DebtsField].DebtList?) ==> debts == []
  {
    if DebtsField in data && data[DebtsField].DebtList? then data[DebtsField].debts else []
  }

  /** `data.energy || []`. */
  function EnergyIn(data: Document): (readings: seq<EnergyReading>)
    ensures EnergyField in data && data[EnergyField].EnergyList? ==> readings == data[EnergyField].readings
    ensures !(EnergyField in data && data[EnergyField].EnergyList?) ==> readings == []
  {
    if EnergyField in data && data[EnergyField].EnergyList? then data[EnergyField].readings else []
  }

  /** `data.budgets || []`. */
  function BudgetsIn(data: Document): (budgets: seq<ProductBudget>)
    ensures BudgetsField in data && data[BudgetsField].BudgetList? ==> budgets == data[BudgetsField].budgets
    ensures !(BudgetsField in data && data[BudgetsField].BudgetList?) ==> budgets == []
  {
    if BudgetsField in data && data[BudgetsField].BudgetList? then data[BudgetsField].budgets else []
  }

  /** The pool `loadComandas` seeds: ten tickets, ids 1 to 10, no client, no items. */
  function SeedComandas(): (pool: seq<Comanda>)
    ensures |pool| == 10
    ensures forall i :: 0 <= i < 10 ==> pool[i].id == i + 1 && pool[i].clientName == "" && pool[i].items == []
  {
    seq(10, i => Comanda(i + 1, "", []))
  }

  /** `loadComandas` on loaded data: the stored list (even an empty one), or the seeded pool. */
  function ComandasIn(data: Document): (comandas: seq<Comanda>)
    ensures ComandasField in data && data[ComandasField].ComandaList? ==> comandas == data[ComandasField].comandas
    ensures !(ComandasField in data && data[ComandasField].ComandaList?) ==> comandas == SeedComandas()
  {
    if ComandasField in data && data[ComandasField].ComandaList? then data[ComandasField].comandas
    else SeedComandas()
  }

  /** A load right after a save of the same collection gives back what was saved. */
  lemma SaveThenLoad(stored: Option<Document>, es: seq<Entry>, bs: seq<Bill>, ds: seq<DebtNote>,
                     rs: seq<EnergyReading>, cs: seq<Comanda>, ps: seq<ProductBudget>)
    ensures EntriesIn(AllData(MergeField(stored, EntriesField, EntryList(es)))) == es
    ensures BillsIn(AllData(MergeField(stored, BillsField, BillList(bs)))) == bs
    ensures DebtsIn(AllData(MergeField(stored, DebtsField, DebtList(ds)))) == ds
    ensures EnergyIn(AllData(MergeField(stored, EnergyField, EnergyList(rs)))) == rs
    ensures ComandasIn(AllData(MergeField(stored, ComandasField, ComandaList(cs)))) == cs
    ensures BudgetsIn(AllData(MergeField(stored, BudgetsField, BudgetList(ps)))) == ps
  {
  }

  /** Saving one field leaves what every other load returns unchanged. */
  lemma SaveIsolation(stored: Option<Document>, key: string, v: Value)
    ensures key != EntriesField ==> EntriesIn(AllData(MergeField(stored, key, v))) == EntriesIn(AllData(stored))
    ensures key != BillsField ==> BillsIn(AllData(MergeField(stored, key, v))) == BillsIn(AllData(stored))
    ensures key != DebtsField ==> DebtsIn(AllData(MergeField(stored, key, v))) == DebtsIn(AllData(stored))
    ensures key != EnergyField ==> EnergyIn(AllData(MergeField(stored, key, v))) == EnergyIn(AllData(stored))
    ensures key != ComandasField ==> ComandasIn(AllData(MergeField(stored, key, v))) == ComandasIn(AllData(stored))
    ensures key != BudgetsField ==> BudgetsIn(AllData(MergeField(stored, key, v))) == BudgetsIn(AllData(stored))
  {
  }

  /** With no document, or no such field, every load gives the empty list and the ticket load gives the seeded pool. */
  lemma LoadAbsent(data: Document)
    requires data == AllData(None) || (EntriesField !in data && BillsField !in data && DebtsField !in data
                                       && EnergyField !in data && ComandasField !in data && BudgetsField !in data)
    ensures EntriesIn(data) == [] && BillsIn(data) == [] && DebtsIn(data) == []
    ensures EnergyIn(data) == [] && BudgetsIn(data) == []
    ensures ComandasIn(data) == SeedComandas()
  {
  }

  /** The remote document, and the gateway's operations on it. */
  class Store {
    var stored: Option<Document>

    constructor (initial: Option<Document>)
      ensures stored == initial
    {
      stored := initial;
    }

    method GetAllData() returns (data: Document)
      ensures data == AllData(stored)
    {
      data := AllData(stored);
    }

    method SetAllData(key: string, v: Value)
      modifies this
      ensures stored == MergeField(old(stored), key, v)
    {
      stored := MergeField(stored, key, v);
    }

    method SaveEntries(entries: seq<Entry>)
      modifies this
      ensures stored == MergeField(old(stored), EntriesField, EntryList(entries))
    {
      SetAllData(EntriesField, EntryList(entries));
    }

    method LoadEntries() returns (entries: seq<Entry>)
      ensures entries == EntriesIn(AllData(stored))
    {
      var data := GetAllData();
      entries := EntriesIn(data);
    }

    /**
     * `getCalculatedEntries`: the stored entries, most recent first, each
     * with freshly computed derived fields.
     */
    method GetCalculatedEntries(time: string -> int) returns (calculated: seq<Entry>)
      ensures SortedByDateDesc(calculated, time)
      ensures multiset(calculated) == multiset(CalculateAll(EntriesIn(AllData(stored))))
      ensures forall e :: e in calculated ==> Fresh(e)
    {
      var entries := LoadEntries();
      var a := new Entry[|entries|](i requires 0 <= i < |entries| => entries[i]);
      assert a[..] == entries;
      SortByDateDesc(a, time);
      calculated := CalculateAll(a[..]);
      CalculateAllPermutation(a[..], entries);
      CalculateAllFresh(a[..]);
    }

    method SaveBills(bills: seq<Bill>)
      modifies this
      ensures stored == MergeField(old(stored), BillsField, BillList(bills))
    {
      SetAllData(BillsField, BillList(bills));
    }

    method LoadBills() returns (bills: seq<Bill>)
      ensures bills == BillsIn(AllData(stored))
    {
      var data := GetAllData();
      bills := BillsIn(data);
    }

    method SaveDebts(debts: seq<DebtNote>)
      modifies this
      ensures stored == MergeField(old(stored), DebtsField, DebtList(debts))
    {
      SetAllData(DebtsField, DebtList(debts));
    }

    method LoadDebts() returns (debts: seq<DebtNote>)
      ensures debts == DebtsIn(AllData(stored))
    {
      var data := GetAllData();
      debts := DebtsIn(data);
    }

    /** `saveEnergy` stores its readings under the field `energy`. */
    method SaveEnergy(readings: seq<EnergyReading>)
      modifies this
      ensures stored == MergeField(old(stored), EnergyField, EnergyList(readings))
    {
      SetAllData(EnergyField, EnergyList(readings));
    }

    method LoadEnergy() returns (readings: seq<EnergyReading>)
      ensures readings == EnergyIn(AllData(stored))
    {
      var data := GetAllData();
      readings := EnergyIn(data);
    }

    method SaveBudgets(budgets: seq<ProductBudget>)
      modifies this
      ensures stored == MergeField(old(stored), BudgetsField, BudgetList(budgets))
    {
      SetAllData(BudgetsField, BudgetList(budgets));
    }

    method LoadBudgets() returns (budgets: seq<ProductBudget>)
      ensures budgets == BudgetsIn(AllData(stored))
    {
      var data := GetAllData();
      budgets := BudgetsIn(data);
    }

    method SaveComandas(comandas: seq<Comanda>)
      modifies this
      ensures stored == MergeField(old(stored), ComandasField, ComandaList(comandas))
    {
      SetAllData(ComandasField, ComandaList(comandas));
    }

    /** `loadComandas`: the stored tickets when the field is there, else ten fresh ones. */
    method LoadComandas() returns (comandas: seq<Comanda>)
      ensures comandas == ComandasIn(AllData(stored))
      ensures ComandasField !in AllData(stored) ==> |comandas| == 10
    {
      var data := GetAllData();
      if ComandasField in data && data[ComandasField].ComandaList? {
        comandas := data[ComandasField].comandas;
      } else {
        comandas := seq(10, i => Comanda(i + 1, "", []));
      }
    }
  }
}
