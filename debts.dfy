/** The customer-tab screen of `App.tsx` (`DebtsSection`): add and delete. */
module Debts {
  import opened Wrappers
  import opened Numbers
  import opened Types

  /**
   * `add()`: ignored while the client name or value is empty (the value is not
   * checked to be positive); otherwise a note dated `todayIso`, the UTC
   * calendar day, is put first.
   */
  function AddDebt(debts: seq<DebtNote>, clientName: string, value: string, description: string,
                   parse: string -> Num, freshId: string, todayIso: string): (r: seq<DebtNote>)
    ensures clientName == "" || value == "" ==> r == debts
    ensures clientName != "" && value != "" ==>
      |r| == |debts| + 1 && r[1..] == debts
      && r[0] == DebtNote(freshId, clientName, parse(value), todayIso, description)
  {
    if clientName == "" || value == "" then debts
    else [DebtNote(freshId, clientName, parse(value), todayIso, description)] + debts
  }
}
