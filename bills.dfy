/** The bills screen of `App.tsx` (`BillsSection`): add, toggle paid, delete. */
module Bills {
  import opened Wrappers
  import opened Numbers
  import opened Types

  /**
   * `add()`: ignored while the description, value or due date is empty;
   * otherwise an unpaid bill with the value `Number(val)` is put first.
   */
  function AddBill(bills: seq<Bill>, description: string, value: string, dueDate: string,
                   parse: string -> Num, freshId: string): (r: seq<Bill>)
    ensures description == "" || value == "" || dueDate == "" ==> r == bills
    ensures description != "" && value != "" && dueDate != "" ==>
      |r| == |bills| + 1 && r[1..] == bills
      && r[0] == Bill(freshId, description, parse(value), dueDate, false)
  {
    if description == "" || value == "" || dueDate == "" then bills
    else [Bill(freshId, description, parse(value), dueDate, false)] + bills
  }

  /** The toggle button: flips `paid` on the bills with the id and leaves every other field and bill alone. */
  function ToggleBill(bills: seq<Bill>, id: string): (r: seq<Bill>)
    ensures |r| == |bills|
    ensures forall i :: 0 <= i < |bills| ==>
      r[i].id == bills[i].id && r[i].description == bills[i].description && r[i].value == bills[i].value
      && r[i].dueDate == bills[i].dueDate && r[i].paid == (if bills[i].id == id then !bills[i].paid else bills[i].paid)
  {
    if bills == [] then []
    else [if bills[0].id == id then bills[0].(paid := !bills[0].paid) else bills[0]] + ToggleBill(bills[1..], id)
  }

  /** Toggling twice restores the list. */
  lemma {:induction false} ToggleTwice(bills: seq<Bill>, id: string)
    ensures ToggleBill(ToggleBill(bills, id), id) == bills
  {
    var r := ToggleBill(ToggleBill(bills, id), id);
    assert |r| == |bills|;
    forall i | 0 <= i < |bills| ensures r[i] == bills[i] {
    }
  }
}
