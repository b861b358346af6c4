/**
 * The root component of `App.tsx`: the six lists the screens show, loaded
 * from the store on start-up and written back on every change.
 */
module App {
  import opened Wrappers
  import opened Numbers
  import opened Types
  import opened Seqs
  import opened DataService
  import EntryForm

  class AppState {
    var entries: seq<Entry>
    var bills: seq<Bill>
    var debts: seq<DebtNote>
    var energyReadings: seq<EnergyReading>
    var comandas: seq<Comanda>
    var budgets: seq<ProductBudget>
    /** The persisted document. */
    const store: Store
    /** `new Date(d).getTime()`, used to order the entries. */
    const time: string -> int

    /** The entries shown are the stored ones as `getCalculatedEntries` returns them. */
    ghost predicate ShowsStoredEntries()
      reads this, store
    {
      && SortedByDateDesc(entries, time)
      && multiset(entries) == multiset(CalculateAll(EntriesIn(AllData(store.stored))))
      && (forall e :: e in entries ==> Fresh(e))
    }

    /** Every other list shown is the stored one. */
    ghost predicate InSync()
      reads this, store
    {
      var data := AllData(store.stored);
      && bills == BillsIn(data) && debts == DebtsIn(data) && energyReadings == EnergyIn(data)
      && comandas == ComandasIn(data) && budgets == BudgetsIn(data)
    }

    /** The six `useState` hooks start empty. */
    constructor (store: Store, time: string -> int)
      ensures this.store == store && this.time == time
      ensures entries == [] && bills == [] && debts == [] && energyReadings == []
      ensures comandas == [] && budgets == []
    {
      this.store := store;
      this.time := time;
      entries := [];
      bills := [];
      debts := [];
      energyReadings := [];
      comandas := [];
      budgets := [];
    }

    /** `loadData`: every list is read from the store; nothing is written. */
    method LoadData()
      modifies this
      ensures ShowsStoredEntries() && InSync()
    {
      entries := store.GetCalculatedEntries(time);
      bills := store.LoadBills();
      debts := store.LoadDebts();
      energyReadings := store.LoadEnergy();
      comandas := store.LoadComandas();
      budgets := store.LoadBudgets();
    }

    /**
     * `handleUpdateEntries(updated)`: the list is saved as given, then the
     * shown entries are reloaded, sorted and recalculated from the store.
     */
    method HandleUpdateEntries(updated: seq<Entry>)
      modifies this, store
      ensures store.stored == MergeField(old(store.stored), EntriesField, EntryList(updated))
      ensures ShowsStoredEntries()
      ensures multiset(entries) == multiset(CalculateAll(updated))
      ensures bills == old(bills) && debts == old(debts) && energyReadings == old(energyReadings)
      ensures comandas == old(comandas) && budgets == old(budgets)
      ensures old(InSync()) ==> InSync()
    {
      ghost var before := store.stored;
      store.SaveEntries(updated);
      entries := store.GetCalculatedEntries(time);
      SaveThenLoad(before, updated, [], [], [], [], []);
      SaveIsolation(before, EntriesField, EntryList(updated));
    }

    /**
     * The history screen's delete: the shown list without the rows with the
     * id is saved and reloaded; every other row stays.
     */
    method DeleteEntry(id: string)
      modifies this, store
      ensures store.stored == MergeField(old(store.stored), EntriesField,
                                         EntryList(RemoveById(old(entries), (e: Entry) => e.id, id)))
      ensures ShowsStoredEntries()
      ensures forall e :: e in entries ==> e.id != id
      ensures forall e :: e in old(entries) && e.id != id ==> CalculateEntry(e) in entries
      ensures bills == old(bills) && debts == old(debts) && energyReadings == old(energyReadings)
      ensures comandas == old(comandas) && budgets == old(budgets)
      ensures old(InSync()) ==> InSync()
    {
      var updated := RemoveById(entries, (e: Entry) => e.id, id);
      HandleUpdateEntries(updated);
      var calculated := CalculateAll(updated);
      forall e | e in entries
        ensures e.id != id
      {
        assert e in multiset(calculated);
        var i :| 0 <= i < |calculated| && calculated[i] == e;
        assert updated[i] in updated;
      }
      forall e | e in old(entries) && e.id != id
        ensures CalculateEntry(e) in entries
      {
        var i :| 0 <= i < |updated| && updated[i] == e;
        assert calculated[i] == CalculateEntry(e);
        assert CalculateEntry(e) in multiset(calculated);
      }
    }

    /**
     * The daily console's amount buttons: what `addValue` emits (nothing for
     * an amount that is not a positive number) goes through
     * `handleUpdateEntries`.
     */
    method ConsoleAddValue(today: string, freshId: string, ch: EntryForm.Channel,
                           inputValue: string, parse: string -> Num)
      modifies this, store
      ensures parse(inputValue).None? || parse(inputValue).value <= 0.0 ==>
        store.stored == old(store.stored) && entries == old(entries)
      ensures parse(inputValue).Some? && parse(inputValue).value > 0.0 ==>
        && ShowsStoredEntries()
        && EntriesIn(AllData(store.stored)) != []
        && exists updated, list ::
             && EntryForm.ChannelAdded(EntryForm.CurrentEntry(old(entries), today, freshId), updated, ch,
                                       parse(inputValue).value)
             && EntryForm.Upserted(old(entries), today, updated, list)
             && store.stored == MergeField(old(store.stored), EntriesField, EntryList(list))
      ensures bills == old(bills) && debts == old(debts) && energyReadings == old(energyReadings)
      ensures comandas == old(comandas) && budgets == old(budgets)
      ensures old(InSync()) ==> InSync()
    {
      var update := EntryForm.AddValue(entries, today, freshId, ch, inputValue, parse);
      if update.Some? {
        HandleUpdateEntries(update.value);
        SaveThenLoad(old(store.stored), update.value, [], [], [], [], []);
      }
    }

    /** The console's markup box: what `updateMarkup` emits goes through `handleUpdateEntries`. */
    method ConsoleUpdateMarkup(today: string, freshId: string, value: string, parse: string -> Num)
      modifies this, store
      ensures parse(value).None? ==> store.stored == old(store.stored) && entries == old(entries)
      ensures parse(value).Some? ==>
        && ShowsStoredEntries()
        && exists list ::
             && EntryForm.Upserted(old(entries), today,
                                   EntryForm.CurrentEntry(old(entries), today, freshId).(
                                     percentage := Some(parse(value).value / 100.0)),
                                   list)
             && store.stored == MergeField(old(store.stored), EntriesField, EntryList(list))
      ensures bills == old(bills) && debts == old(debts) && energyReadings == old(energyReadings)
      ensures comandas == old(comandas) && budgets == old(budgets)
      ensures old(InSync()) ==> InSync()
    {
      var update := EntryForm.UpdateMarkup(entries, today, freshId, value, parse);
      if update.Some? {
        HandleUpdateEntries(update.value);
      }
    }

    /** The bills screen's `setBills`: shown and saved together. */
    method SetBills(b: seq<Bill>)
      modifies this, store
      ensures bills == b
      ensures store.stored == MergeField(old(store.stored), BillsField, BillList(b))
      ensures entries == old(entries) && debts == old(debts) && energyReadings == old(energyReadings)
      ensures comandas == old(comandas) && budgets == old(budgets)
      ensures old(ShowsStoredEntries()) ==> ShowsStoredEntries()
      ensures old(InSync()) ==> InSync()
    {
      ghost var before := store.stored;
      bills := b;
      store.SaveBills(b);
      SaveThenLoad(before, [], b, [], [], [], []);
      SaveIsolation(before, BillsField, BillList(b));
    }

    /** The catalogue screen's `setBudgets`. */
    method SetBudgets(b: seq<ProductBudget>)
      modifies this, store
      ensures budgets == b
      ensures store.stored == MergeField(old(store.stored), BudgetsField, BudgetList(b))
      ensures entries == old(entries) && bills == old(bills) && debts == old(debts)
      ensures energyReadings == old(energyReadings) && comandas == old(comandas)
      ensures old(ShowsStoredEntries()) ==> ShowsStoredEntries()
      ensures old(InSync()) ==> InSync()
    {
      ghost var before := store.stored;
      budgets := b;
      store.SaveBudgets(b);
      SaveThenLoad(before, [], [], [], [], [], b);
      SaveIsolation(before, BudgetsField, BudgetList(b));
    }

    /** The tickets screen's `setComandas`. */
    method SetComandas(c: seq<Comanda>)
      modifies this, store
      ensures comandas == c
      ensures store.stored == MergeField(old(store.stored), ComandasField, ComandaList(c))
      ensures entries == old(entries) && bills == old(bills) && debts == old(debts)
      ensures energyReadings == old(energyReadings) && budgets == old(budgets)
      ensures old(ShowsStoredEntries()) ==> ShowsStoredEntries()
      ensures old(InSync()) ==> InSync()
    {
      ghost var before := store.stored;
      comandas := c;
      store.SaveComandas(c);
      SaveThenLoad(before, [], [], [], [], c, []);
      SaveIsolation(before, ComandasField, ComandaList(c));
    }

    /** The customer-tab screen's `setDebts`. */
    method SetDebts(d: seq<DebtNote>)
      modifies this, store
      ensures debts == d
      ensures store.stored == MergeField(old(store.stored), DebtsField, DebtList(d))
      ensures entries == old(entries) && bills == old(bills) && energyReadings == old(energyReadings)
      ensures comandas == old(comandas) && budgets == old(budgets)
      ensures old(ShowsStoredEntries()) ==> ShowsStoredEntries()
      ensures old(InSync()) ==> InSync()
    {
      ghost var before := store.stored;
      debts := d;
      store.SaveDebts(d);
      SaveThenLoad(before, [], [], d, [], [], []);
      SaveIsolation(before, DebtsField, DebtList(d));
    }

    /** The energy screen's `setReadings`. */
    method SetEnergyReadings(r: seq<EnergyReading>)
      modifies this, store
      ensures energyReadings == r
      ensures store.stored == MergeField(old(store.stored), EnergyField, EnergyList(r))
      ensures entries == old(entries) && bills == old(bills) && debts == old(debts)
      ensures comandas == old(comandas) && budgets == old(budgets)
      ensures old(ShowsStoredEntries()) ==> ShowsStoredEntries()
      ensures old(InSync()) ==> InSync()
    {
      ghost var before := store.stored;
      energyReadings := r;
      store.SaveEnergy(r);
      SaveThenLoad(before, [], [], [], r, [], []);
      SaveIsolation(before, EnergyField, EnergyList(r));
    }
  }
}
