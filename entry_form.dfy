/**
 * `components/EntryForm.tsx`: the console that edits today's ledger entry.
 *
 * The console is handed the application's calculated entries and emits a new
 * whole list through `onUpdate`; here that emitted list is the method's
 * result, `None` when the action is ignored. The current date, the fresh id a
 * new entry would get, and the platform's `parseFloat` are parameters.
 */
module EntryForm {
  import opened Wrappers
  import opened Numbers
  import opened Types
  import DataService

  /** `entries.findIndex(e => e.date === today)`. */
  function TodayIndex(entries: seq<Entry>, today: string): (k: int)
    ensures -1 <= k < |entries|
    ensures k == -1 <==> forall i :: 0 <= i < |entries| ==> entries[i].date != today
    ensures k >= 0 ==> entries[k].date == today && forall i :: 0 <= i < k ==> entries[i].date != today
  {
    if entries == [] then -1
    else if entries[0].date == today then 0
    else
      var k := TodayIndex(entries[1..], today);
      if k == -1 then -1 else k + 1
  }

  /** The entry synthesised when today has none yet: all channels 0 and a 40% markup. */
  function NewEntry(today: string, freshId: string): Entry {
    Entry(freshId, today, Some(0.0), Some(0.0), Some(0.0), Some(0.0), Some(0.4), None)
  }

  /** `currentEntry`: the first entry dated today, or a new one that is not stored until edited. */
  function CurrentEntry(entries: seq<Entry>, today: string, freshId: string): (e: Entry)
    ensures e.date == today
    ensures TodayIndex(entries, today) >= 0 ==> e == entries[TodayIndex(entries, today)]
    ensures TodayIndex(entries, today) == -1 ==> e == NewEntry(today, freshId)
  {
    var k := TodayIndex(entries, today);
    if k != -1 then entries[k] else NewEntry(today, freshId)
  }

  /** The four buttons of the console. */
  datatype Channel = Cash | Pix | Card | Exit

  /** `after` is `before` with `v` added (`+=`) to the one field `ch` names, and nothing else changed. */
  predicate ChannelAdded(before: Entry, after: Entry, ch: Channel, v: real) {
    after == before.(
      cashIn := if ch == Cash then Plus(before.cashIn, Some(v)) else before.cashIn,
      pixIn := if ch == Pix then Plus(before.pixIn, Some(v)) else before.pixIn,
      cardIn := if ch == Card then Plus(before.cardIn, Some(v)) else before.cardIn,
      exit := if ch == Exit then Plus(before.exit, Some(v)) else before.exit)
  }

  /** The list the console emits: today's row replaced where it was, or the new row put first. */
  ghost predicate Upserted(entries: seq<Entry>, today: string, updated: Entry, list: seq<Entry>) {
    var k := TodayIndex(entries, today);
    if k >= 0 then
      |list| == |entries| && list[k] == updated
      && forall i :: 0 <= i < |entries| && i != k ==> list[i] == entries[i]
    else
      list == [updated] + entries
  }

  /**
   * `addValue(type)`: ignored unless the typed amount parses to a number above
   * 0; otherwise the amount is added to the chosen field of today's entry and
   * the whole list is emitted.
   */
  method AddValue(entries: seq<Entry>, today: string, freshId: string, ch: Channel,
                  inputValue: string, parse: string -> Num)
    returns (update: Option<seq<Entry>>)
    ensures update.None? <==> parse(inputValue).None? || parse(inputValue).value <= 0.0
    ensures update.Some? ==>
      exists updated :: ChannelAdded(CurrentEntry(entries, today, freshId), updated, ch, parse(inputValue).value)
                        && Upserted(entries, today, updated, update.value)
  {
    var val := parse(inputValue);
    if val.None? || val.value <= 0.0 {
      return None;
    }
    var current := CurrentEntry(entries, today, freshId);
    var updatedEntry := current;
    if ch == Cash { updatedEntry := updatedEntry.(cashIn := Plus(updatedEntry.cashIn, val)); }
    if ch == Pix { updatedEntry := updatedEntry.(pixIn := Plus(updatedEntry.pixIn, val)); }
    if ch == Card { updatedEntry := updatedEntry.(cardIn := Plus(updatedEntry.cardIn, val)); }
    if ch == Exit { updatedEntry := updatedEntry.(exit := Plus(updatedEntry.exit, val)); }
    var newEntriesList := entries;
    var todayEntryIndex := TodayIndex(entries, today);
    if todayEntryIndex != -1 {
      newEntriesList := newEntriesList[todayEntryIndex := updatedEntry];
    } else {
      newEntriesList := [updatedEntry] + newEntriesList;
    }
    assert ChannelAdded(current, updatedEntry, ch, val.value);
    assert Upserted(entries, today, updatedEntry, newEntriesList);
    update := Some(newEntriesList);
  }

  /**
   * `updateMarkup(value)`: ignored when the typed percentage is not a number;
   * otherwise today's `percentage` becomes that number over 100 and the whole
   * list is emitted.
   */
  method UpdateMarkup(entries: seq<Entry>, today: string, freshId: string,
                      value: string, parse: string -> Num)
    returns (update: Option<seq<Entry>>)
    ensures update.None? <==> parse(value).None?
    ensures update.Some? ==>
      Upserted(entries, today,
               CurrentEntry(entries, today, freshId).(percentage := Some(parse(value).value / 100.0)),
               update.value)
  {
    var percentNumber := parse(value);
    if percentNumber.None? {
      return None;
    }
    var updatedEntry := CurrentEntry(entries, today, freshId).(percentage := Some(percentNumber.value / 100.0));
    var newEntriesList := entries;
    var todayEntryIndex := TodayIndex(entries, today);
    if todayEntryIndex != -1 {
      newEntriesList := newEntriesList[todayEntryIndex := updatedEntry];
    } else {
      newEntriesList := [updatedEntry] + newEntriesList;
    }
    update := Some(newEntriesList);
  }

  /** Whatever it emits, the console leaves every entry not dated today as it was, in place. */
  lemma UpsertKeepsOtherDays(entries: seq<Entry>, today: string, updated: Entry, list: seq<Entry>)
    requires Upserted(entries, today, updated, list)
    requires updated.date == today
    ensures forall i :: 0 <= i < |entries| && entries[i].date != today ==>
      (if TodayIndex(entries, today) >= 0 then list[i] else list[i + 1]) == entries[i]
    ensures |list| == |entries| || |list| == |entries| + 1
  {
  }

  /** `liquidValue`: inflows minus the exit; NaN if any of the four fields is. */
  function LiquidValue(e: Entry): (liquid: Num)
    ensures liquid.Some? <==> e.cashIn.Some? && e.pixIn.Some? && e.cardIn.Some? && e.exit.Some?
    ensures liquid.Some? ==> liquid.value == e.cashIn.value + e.pixIn.value + e.cardIn.value - e.exit.value
  {
    Minus(Plus(Plus(e.cashIn, e.pixIn), e.cardIn), e.exit)
  }

  /** `markupValue`. */
  function MarkupValue(e: Entry): (markup: Num)
    ensures markup.Some? <==> LiquidValue(e).Some? && e.percentage.Some?
    ensures markup.Some? ==> markup.value == LiquidValue(e).value * e.percentage.value
  {
    Times(LiquidValue(e), e.percentage)
  }

  /** `realBalance`: what is left after the markup is set aside. */
  function RealBalance(e: Entry): (remaining: Num)
    ensures remaining.Some? <==> MarkupValue(e).Some?
    ensures remaining.Some? ==> remaining.value == LiquidValue(e).value * (1.0 - e.percentage.value)
  {
    Minus(LiquidValue(e), MarkupValue(e))
  }

  /**
   * On a complete entry the console shows the calculator's numbers: the
   * liquid value is the balance, the markup value is the markup, and the real
   * balance is the balance times one minus the percentage.
   */
  lemma ConsoleAgreesWithCalculator(e: Entry)
    requires e.Complete()
    ensures LiquidValue(e) == DataService.CalculateEntry(e).Balance()
    ensures MarkupValue(e) == DataService.CalculateEntry(e).Markup()
    ensures RealBalance(e).Some?
    ensures RealBalance(e).value == LiquidValue(e).value * (1.0 - e.percentage.value)
  {
    var d := DataService.CalculateEntry(e).derived.value;
    var l := LiquidValue(e);
    assert l.Some? && l.value == d.balance;
    var m := MarkupValue(e);
    assert m.Some? && m.value == d.markup;
  }

  /** A missing money field makes the console show NaN, where the calculator counts it as 0. */
  lemma ConsoleMissingField(e: Entry)
    requires e.cashIn.None? || e.pixIn.None? || e.cardIn.None? || e.exit.None?
    ensures LiquidValue(e).None? && MarkupValue(e).None? && RealBalance(e).None?
    ensures DataService.CalculateEntry(e).Balance().Some?
  {
  }

  /** Adding `v` to an inflow raises total and balance by `v`; adding it to the exit lowers the balance by `v`. */
  lemma AddedAmountMovesBalance(before: Entry, after: Entry, ch: Channel, v: real)
    requires ChannelAdded(before, after, ch, v)
    requires before.Complete()
    ensures var d, d' := DataService.CalculateEntry(before).derived.value, DataService.CalculateEntry(after).derived.value;
      && d'.totalEntry == d.totalEntry + (if ch == Exit then 0.0 else v)
      && d'.balance == d.balance + (if ch == Exit then -v else v)
  {
  }

  /** Adding to a channel that is missing from a stored entry gives NaN, so the calculator drops the amount. */
  lemma AddToMissingChannelIsLost(before: Entry, after: Entry, v: real)
    requires ChannelAdded(before, after, Cash, v)
    requires before.cashIn.None?
    ensures after.cashIn.None?
    ensures DataService.CalculateEntry(after).derived == DataService.CalculateEntry(before).derived
  {
    DataService.SameMoneySameDerived(after, before);
  }

  /** After a markup update the calculated markup is the balance times the typed percentage over 100. */
  lemma UpdatedMarkupIsApplied(before: Entry, p: real)
    ensures var d, d' := DataService.CalculateEntry(before).derived.value,
                         DataService.CalculateEntry(before.(percentage := Some(p / 100.0))).derived.value;
      && d'.balance == d.balance
      && d'.markup == d.balance * p / 100.0
  {
  }
}
