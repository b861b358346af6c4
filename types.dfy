/**
 * The records of `types.ts`.
 *
 * A ledger entry and a calculated entry are one JavaScript object shape: a
 * calculated entry is a ledger entry that also carries `totalEntry`, `balance`
 * and `markup`. Because the entry console is handed calculated entries and
 * writes them back, stored entries can carry these derived fields too, so the
 * model keeps them as one optional part, `derived`.
 */
module Types {
  import opened Wrappers
  import opened Numbers

  /** The three fields a `CalculatedEntry` adds to a `FinancialEntry`. */
  datatype Derived = Derived(totalEntry: real, balance: real, markup: real)

  /** A day's ledger row; `derived` is `None` for a plain `FinancialEntry`. */
  datatype Entry = Entry(
    id: string,
    date: string,
    cashIn: Num,
    pixIn: Num,
    cardIn: Num,
    exit: Num,
    percentage: Num,
    derived: Option<Derived>)
  {
    /** Every money field and the percentage is a number (the shape `types.ts` declares). */
    predicate Complete() {
      cashIn.Some? && pixIn.Some? && cardIn.Some? && exit.Some? && percentage.Some?
    }

    /** Reading `e.totalEntry`: undefined, hence NaN, on a plain entry. */
    function TotalEntry(): Num {
      if derived.Some? then Some(derived.value.totalEntry) else None
    }

    /** Reading `e.balance`. */
    function Balance(): Num {
      if derived.Some? then Some(derived.value.balance) else None
    }

    /** Reading `e.markup`. */
    function Markup(): Num {
      if derived.Some? then Some(derived.value.markup) else None
    }
  }

  datatype ProductBudget = ProductBudget(
    id: string,
    name: string,
    cost: Num,
    price: Num,
    profit: Num,
    marginPercent: Num)

  datatype Bill = Bill(id: string, description: string, value: Num, dueDate: string, paid: bool)

  datatype DebtNote = DebtNote(id: string, clientName: string, value: Num, date: string, description: string)

  datatype EnergyReading = EnergyReading(
    id: string,
    minReading: Num,
    maxReading: Num,
    factor: Num,
    startDate: string,
    endDate: string)

  /** One line of an order ticket; quantities only ever move by whole steps. */
  datatype ComandaItem = ComandaItem(id: string, name: string, price: Num, quantity: int)

  /** An order ticket of the fixed pool. */
  datatype Comanda = Comanda(id: int, clientName: string, items: seq<ComandaItem>)
}
