/**
 * The product catalogue screen of `App.tsx` (`BudgetListSection`): adding a
 * product with its profit and margin, and the colour band of a margin.
 */
module Catalogue {
  import opened Wrappers
  import opened Numbers
  import opened Types

  /**
   * The record `add` builds: profit and margin are computed once, here, and
   * stored. A NaN cost or price gives a NaN profit and margin.
   */
  function Priced(id: string, name: string, cost: Num, price: Num): (b: ProductBudget)
    requires price.None? || price.value != 0.0
    ensures b.id == id && b.name == name && b.cost == cost && b.price == price
    ensures b.profit == Minus(price, cost)
    ensures b.marginPercent.Some? <==> price.Some? && cost.Some?
    ensures b.marginPercent.Some? ==> b.marginPercent.value * price.value == b.profit.value * 100.0
  {
    var profit := Minus(price, cost);
    ProductBudget(id, name, cost, price, profit,
                  if price.Some? then Times(Div(profit, price.value), Some(100.0)) else None)
  }

  /**
   * `add()`: ignored while the name, cost or price box is empty; otherwise
   * the parsed cost and price give a new record put first. A price of 0
   * would give an infinite margin, which is outside this model.
   */
  function AddBudget(budgets: seq<ProductBudget>, name: string, cost: string, price: string,
                     parse: string -> Num, freshId: string): (r: seq<ProductBudget>)
    requires name != "" && cost != "" && price != "" ==> parse(price).None? || parse(price).value != 0.0
    ensures name == "" || cost == "" || price == "" ==> r == budgets
    ensures name != "" && cost != "" && price != "" ==>
      && |r| == |budgets| + 1 && r[1..] == budgets
      && r[0].id == freshId && r[0].name == name
      && r[0].cost == parse(cost) && r[0].price == parse(price)
      && r[0].profit == Minus(r[0].price, r[0].cost)
      && (r[0].marginPercent.Some? <==> r[0].cost.Some? && r[0].price.Some?)
      && (r[0].marginPercent.Some? ==>
            r[0].marginPercent.value == r[0].profit.value / r[0].price.value * 100.0)
  {
    if name == "" || cost == "" || price == "" then budgets
    else [Priced(freshId, name, parse(cost), parse(price))] + budgets
  }

  /** The four colour bands of `getMarginColor`, lowest margin first. */
  datatype Band = Rose | Orange | Amber | Emerald

  function BandRank(b: Band): nat {
    match b
    case Rose => 0
    case Orange => 1
    case Amber => 2
    case Emerald => 3
  }

  /**
   * `getMarginColor(pct)`: below 20, below 40, below 60, or the top band.
   * A NaN margin fails every comparison and lands in the top band.
   */
  function MarginBand(pct: Num): (b: Band)
    ensures b == Rose <==> pct.Some? && pct.value < 20.0
    ensures b == Orange <==> pct.Some? && 20.0 <= pct.value < 40.0
    ensures b == Amber <==> pct.Some? && 40.0 <= pct.value < 60.0
    ensures b == Emerald <==> pct.None? || 60.0 <= pct.value
  {
    if pct.Some? && pct.value < 20.0 then Rose
    else if pct.Some? && pct.value < 40.0 then Orange
    else if pct.Some? && pct.value < 60.0 then Amber
    else Emerald
  }

  /** A higher margin never gets a lower band. */
  lemma MarginBandMonotone(p: real, q: real)
    requires p <= q
    ensures BandRank(MarginBand(Some(p))) <= BandRank(MarginBand(Some(q)))
  {
  }
}
