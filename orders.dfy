/**
 * The order-ticket screen of `App.tsx` (`OrderSection`): the fixed pool of
 * tickets, the active ticket's lines, its total, and the catalogue search.
 *
 * Every action maps over the whole pool and rewrites only the ticket whose id
 * is the active tab; the screen then hands the new pool to the application's
 * setter. The clock-based id of a new line and the answer to the confirmation
 * dialog are parameters.
 */
module Orders {
  import opened Wrappers
  import opened Numbers
  import opened Types
  import opened Seqs
  import opened Formatters

  /** `comandas.map(c => c.id === active ? f(c) : c)`. */
  function UpdateActive(comandas: seq<Comanda>, active: int, f: Comanda -> Comanda): (r: seq<Comanda>)
    ensures |r| == |comandas|
    ensures forall i :: 0 <= i < |comandas| ==> r[i] == (if comandas[i].id == active then f(comandas[i]) else comandas[i])
  {
    seq(|comandas|, i requires 0 <= i < |comandas| => if comandas[i].id == active then f(comandas[i]) else comandas[i])
  }

  /** `(comandas.find(c => c.id === active) || { items: [] }).items`. */
  function CurrentItems(comandas: seq<Comanda>, active: int): (items: seq<ComandaItem>)
    ensures (forall i :: 0 <= i < |comandas| ==> comandas[i].id != active) ==> items == []
    ensures forall i :: (0 <= i < |comandas| && comandas[i].id == active
                         && forall j :: 0 <= j < i ==> comandas[j].id != active) ==> items == comandas[i].items
  {
    if comandas == [] then []
    else if comandas[0].id == active then comandas[0].items
    else CurrentItems(comandas[1..], active)
  }

  /** What one line costs: unit price times quantity. */
  function LineTotal(line: ComandaItem): Num {
    Times(line.price, Some(line.quantity as real))
  }

  /** `total`: the active ticket's lines summed; 0 when no ticket has the active id. */
  function TicketTotal(comandas: seq<Comanda>, active: int): (total: Num)
    ensures (forall i :: 0 <= i < |comandas| ==> comandas[i].id != active) ==> total == Some(0.0)
    ensures total.Some? <==> forall line :: line in CurrentItems(comandas, active) ==> line.price.Some?
  {
    SumNum(CurrentItems(comandas, active), LineTotal)
  }

  /** The ticket invariant: no line has a quantity of 0 or below. */
  predicate QuantitiesPositive(c: Comanda) {
    forall line :: line in c.items ==> line.quantity > 0
  }

  /** `updateClient(name)`: renames the active ticket and nothing else. */
  function UpdateClient(comandas: seq<Comanda>, active: int, name: string): (r: seq<Comanda>)
    ensures |r| == |comandas|
    ensures forall i :: 0 <= i < |comandas| && comandas[i].id != active ==> r[i] == comandas[i]
    ensures forall i :: 0 <= i < |comandas| && comandas[i].id == active ==>
      r[i].clientName == name && r[i].id == comandas[i].id && r[i].items == comandas[i].items
  {
    UpdateActive(comandas, active, (c: Comanda) => c.(clientName := name))
  }

  /** `clear()`: once confirmed, empties the active ticket's lines and client name. */
  function Clear(comandas: seq<Comanda>, active: int, confirmed: bool): (r: seq<Comanda>)
    ensures !confirmed ==> r == comandas
    ensures |r| == |comandas|
    ensures forall i :: 0 <= i < |comandas| && comandas[i].id != active ==> r[i] == comandas[i]
    ensures confirmed ==> forall i :: 0 <= i < |comandas| && comandas[i].id == active ==>
      r[i] == Comanda(comandas[i].id, "", [])
  {
    if confirmed then UpdateActive(comandas, active, (c: Comanda) => c.(items := [], clientName := "")) else comandas
  }

  /** A confirmed clear leaves the active ticket totalling 0. */
  lemma ClearedTicketTotalsZero(comandas: seq<Comanda>, active: int)
    ensures TicketTotal(Clear(comandas, active, true), active) == Some(0.0)
  {
    var r := Clear(comandas, active, true);
    NoItemsNoLines(r, active);
  }

  lemma {:induction false} NoItemsNoLines(comandas: seq<Comanda>, active: int)
    requires forall i :: 0 <= i < |comandas| && comandas[i].id == active ==> comandas[i].items == []
    ensures CurrentItems(comandas, active) == []
  {
    if comandas != [] && comandas[0].id != active {
      NoItemsNoLines(comandas[1..], active);
    }
  }

  /** The `map` step of `modifyQty`: every line with the id gets `max(0, quantity + delta)`. */
  function Bump(items: seq<ComandaItem>, itemId: string, delta: int): (r: seq<ComandaItem>)
    ensures |r| == |items|
    ensures forall j :: 0 <= j < |items| ==>
      r[j] == if items[j].id == itemId then items[j].(quantity := Max0(items[j].quantity + delta)) else items[j]
  {
    seq(|items|, j requires 0 <= j < |items| =>
      if items[j].id == itemId then items[j].(quantity := Max0(items[j].quantity + delta)) else items[j])
  }

  /** `Math.max(0, q)`. */
  function Max0(q: int): (m: nat)
    ensures m >= q && (m == 0 || m == q)
  {
    if q < 0 then 0 else q
  }

  /** The `filter` step of `modifyQty`. */
  predicate InStock(line: ComandaItem) {
    line.quantity > 0
  }

  /**
   * `modifyQty(itemId, delta)`: moves the line's quantity by `delta` (never
   * below 0), then drops every line of the active ticket whose quantity is 0
   * or less, whichever line it is. Other tickets are untouched.
   */
  function ModifyQty(comandas: seq<Comanda>, active: int, itemId: string, delta: int): (r: seq<Comanda>)
    ensures |r| == |comandas|
    ensures forall i :: 0 <= i < |comandas| && comandas[i].id != active ==> r[i] == comandas[i]
    ensures forall i :: 0 <= i < |comandas| && comandas[i].id == active ==>
      && r[i].id == comandas[i].id && r[i].clientName == comandas[i].clientName
      && QuantitiesPositive(r[i])
      && |r[i].items| <= |comandas[i].items|
      && (forall line :: line in r[i].items <==> line in Bump(comandas[i].items, itemId, delta) && line.quantity > 0)
  {
    UpdateActive(comandas, active, (c: Comanda) => c.(items := Filter(Bump(c.items, itemId, delta), InStock)))
  }

  /** Lines of other items stay exactly when they are in stock; the edited line stays with its new quantity if that is above 0. */
  lemma ModifyQtyLines(comandas: seq<Comanda>, active: int, itemId: string, delta: int, i: int, line: ComandaItem)
    requires 0 <= i < |comandas| && comandas[i].id == active && line in comandas[i].items
    ensures line.id != itemId ==> (line in ModifyQty(comandas, active, itemId, delta)[i].items <==> line.quantity > 0)
    ensures line.id == itemId && line.quantity + delta > 0 ==>
      line.(quantity := line.quantity + delta) in ModifyQty(comandas, active, itemId, delta)[i].items
  {
    var items := comandas[i].items;
    var j :| 0 <= j < |items| && items[j] == line;
    var b := Bump(items, itemId, delta);
    assert b[j] in b;
  }

  /** Taking a line's last unit away removes the line: no line with that id is left. */
  lemma {:induction false} DecrementToZeroRemoves(comandas: seq<Comanda>, active: int, itemId: string, delta: int, i: int)
    requires 0 <= i < |comandas| && comandas[i].id == active
    requires forall line :: line in comandas[i].items && line.id == itemId ==> line.quantity + delta <= 0
    ensures forall line :: line in ModifyQty(comandas, active, itemId, delta)[i].items ==> line.id != itemId
  {
    var items := comandas[i].items;
    var b := Bump(items, itemId, delta);
    forall line | line in ModifyQty(comandas, active, itemId, delta)[i].items
      ensures line.id != itemId
    {
      var j :| 0 <= j < |b| && b[j] == line;
      if items[j].id == itemId {
        assert items[j] in items;
      }
    }
  }

  /** `findIndex(i => i.name.toLowerCase() === name.toLowerCase())`. */
  function FindLine(items: seq<ComandaItem>, name: string): (k: int)
    ensures -1 <= k < |items|
    ensures k == -1 <==> forall j :: 0 <= j < |items| ==> ToLower(items[j].name) != ToLower(name)
    ensures k >= 0 ==> ToLower(items[k].name) == ToLower(name)
                       && forall j :: 0 <= j < k ==> ToLower(items[j].name) != ToLower(name)
  {
    if items == [] then -1
    else if ToLower(items[0].name) == ToLower(name) then 0
    else
      var k := FindLine(items[1..], name);
      if k == -1 then -1 else k + 1
  }

  /** The per-ticket step of `addItem`: one more of the first same-named line, or a new line of 1. */
  function AddLine(items: seq<ComandaItem>, name: string, price: Num, freshId: string): (r: seq<ComandaItem>)
    ensures var k := FindLine(items, name);
      k >= 0 ==> |r| == |items| && r[k] == items[k].(quantity := items[k].quantity + 1)
                 && forall j :: 0 <= j < |items| && j != k ==> r[j] == items[j]
    ensures FindLine(items, name) == -1 ==> r == items + [ComandaItem(freshId, name, price, 1)]
  {
    var k := FindLine(items, name);
    if k != -1 then items[k := items[k].(quantity := items[k].quantity + 1)]
    else items + [ComandaItem(freshId, name, price, 1)]
  }

  /**
   * `addItem(name, price)`: on the active ticket, the first line whose name
   * matches ignoring case gets one more unit (its own price is kept); with no
   * match a line of quantity 1 is appended. Other tickets are untouched.
   */
  function AddItem(comandas: seq<Comanda>, active: int, name: string, price: Num, freshId: string): (r: seq<Comanda>)
    ensures |r| == |comandas|
    ensures forall i :: 0 <= i < |comandas| && comandas[i].id != active ==> r[i] == comandas[i]
    ensures forall i :: 0 <= i < |comandas| && comandas[i].id == active ==>
      var items, k := comandas[i].items, FindLine(comandas[i].items, name);
      && r[i].id == comandas[i].id && r[i].clientName == comandas[i].clientName
      && (k >= 0 ==> |r[i].items| == |items| && r[i].items[k].quantity == items[k].quantity + 1
                     && r[i].items[k] == items[k].(quantity := items[k].quantity + 1)
                     && forall j :: 0 <= j < |items| && j != k ==> r[i].items[j] == items[j])
      && (k == -1 ==> r[i].items == items + [ComandaItem(freshId, name, price, 1)])
  {
    UpdateActive(comandas, active, (c: Comanda) => c.(items := AddLine(c.items, name, price, freshId)))
  }

  /** Adding an item raises the ticket's lines total by one unit price: the matched line's own, or the new one's. */
  lemma AddLineRaisesTotal(items: seq<ComandaItem>, name: string, price: Num, freshId: string)
    requires price.Some?
    requires forall line :: line in items ==> line.price.Some?
    ensures var k := FindLine(items, name);
      SumNum(AddLine(items, name, price, freshId), LineTotal)
        == Plus(SumNum(items, LineTotal), if k != -1 then items[k].price else price)
  {
    var k := FindLine(items, name);
    if k != -1 {
      assert items[k] in items;
      IncrementRaisesTotal(items, k);
    } else {
      AppendRaisesTotal(items, ComandaItem(freshId, name, price, 1));
    }
  }

  lemma IncrementRaisesTotal(items: seq<ComandaItem>, k: int)
    requires 0 <= k < |items| && items[k].price.Some?
    ensures SumNum(items[k := items[k].(quantity := items[k].quantity + 1)], LineTotal)
      == Plus(SumNum(items, LineTotal), items[k].price)
  {
    var old_, new_ := items[k], items[k].(quantity := items[k].quantity + 1);
    var p, q := old_.price.value, old_.quantity as real;
    assert new_.quantity as real == q + 1.0;
    assert LineTotal(old_).Some? && LineTotal(old_).value == p * q;
    assert LineTotal(new_).Some? && LineTotal(new_).value == p * (q + 1.0) == p * q + p;
    SumNumUpdate(items, k, new_, LineTotal);
    assert Some(LineTotal(new_).value - LineTotal(old_).value) == old_.price;
  }

  lemma AppendRaisesTotal(items: seq<ComandaItem>, added: ComandaItem)
    requires added.price.Some? && added.quantity == 1
    ensures SumNum(items + [added], LineTotal) == Plus(SumNum(items, LineTotal), added.price)
  {
    assert (items + [added])[..|items|] == items;
    var t := LineTotal(added);
    assert t.Some? && t.value == added.price.value;
  }

  /** Every ticket action keeps the invariant that no line has a quantity of 0 or below. */
  lemma ActionsKeepQuantitiesPositive(comandas: seq<Comanda>, active: int, name: string, price: Num,
                                      freshId: string, itemId: string, delta: int, confirmed: bool)
    requires forall c :: c in comandas ==> QuantitiesPositive(c)
    ensures forall c :: c in AddItem(comandas, active, name, price, freshId) ==> QuantitiesPositive(c)
    ensures forall c :: c in ModifyQty(comandas, active, itemId, delta) ==> QuantitiesPositive(c)
    ensures forall c :: c in UpdateClient(comandas, active, name) ==> QuantitiesPositive(c)
    ensures forall c :: c in Clear(comandas, active, confirmed) ==> QuantitiesPositive(c)
  {
    var r := AddItem(comandas, active, name, price, freshId);
    forall c | c in r ensures QuantitiesPositive(c) {
      var i :| 0 <= i < |r| && r[i] == c;
      assert comandas[i] in comandas;
      if comandas[i].id == active {
        var items := comandas[i].items;
        var k := FindLine(items, name);
        forall line | line in c.items ensures line.quantity > 0 {
          var j :| 0 <= j < |c.items| && c.items[j] == line;
          if j < |items| { assert items[j] in items; }
        }
      }
    }
    var u := UpdateClient(comandas, active, name);
    forall c | c in u ensures QuantitiesPositive(c) {
      var i :| 0 <= i < |u| && u[i] == c;
      assert comandas[i] in comandas;
    }
    var m := ModifyQty(comandas, active, itemId, delta);
    forall c | c in m ensures QuantitiesPositive(c) {
      var i :| 0 <= i < |m| && m[i] == c;
      assert comandas[i] in comandas;
    }
    var e := Clear(comandas, active, confirmed);
    forall c | c in e ensures QuantitiesPositive(c) {
      var i :| 0 <= i < |e| && e[i] == c;
      assert comandas[i] in comandas;
    }
  }

  /** The catalogue entries whose lower-cased name contains the lower-cased query, in catalogue order. */
  function Matches(budgets: seq<ProductBudget>, search: string): (r: seq<ProductBudget>)
    ensures |r| <= |budgets|
    ensures forall b :: b in r <==> b in budgets && Contains(ToLower(b.name), ToLower(search))
  {
    Filter(budgets, (b: ProductBudget) => Contains(ToLower(b.name), ToLower(search)))
  }

  /** `filteredCatalogue`: nothing for an empty query, otherwise the first five matches. */
  function FilteredCatalogue(budgets: seq<ProductBudget>, search: string): (r: seq<ProductBudget>)
    ensures search == "" ==> r == []
    ensures |r| <= 5
    ensures search != "" ==> |r| == if |Matches(budgets, search)| < 5 then |Matches(budgets, search)| else 5
    ensures search != "" ==> r == Matches(budgets, search)[..|r|]
    ensures forall b :: b in r ==> b in budgets && Contains(ToLower(b.name), ToLower(search))
  {
    if search == "" then []
    else
      var m := Matches(budgets, search);
      var r := if |m| < 5 then m else m[..5];
      assert forall b :: b in r ==> b in m;
      r
  }
}
