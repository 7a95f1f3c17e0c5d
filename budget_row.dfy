/**
 * One editable expense row of the budget planner (src/components/tools/BudgetRow.tsx):
 * an item is a label and an amount, each edit yields a new item with one field
 * replaced, and the amount box shows nothing for a zero or non-finite amount.
 */
module BudgetRow {
  import opened Wrappers

  /**
   * An amount as JavaScript holds it: a whole number of cents, or NaN (what
   * `Number` gives for non-numeric text or a malformed stored value).
   */
  datatype Amount = Cents(cents: int) | NaN

  datatype ExpenseItem = ExpenseItem(labelText: string, amount: Amount)

  /** `Number(x) || 0`: NaN and 0 are falsy, so both count as 0. */
  function OrZero(a: Amount): int {
    match a
    case Cents(c) => c
    case NaN => 0
  }

  /** Typing into the label box: `{ ...item, label: text }`. */
  function ChangeLabel(item: ExpenseItem, text: string): (r: ExpenseItem)
    ensures r.labelText == text
    ensures r.amount == item.amount
  {
    item.(labelText := text)
  }

  /**
   * Typing into the amount box: `{ ...item, amount: Number(text) || 0 }`, where
   * `parsed` is `Number(text)`.
   */
  function ChangeAmount(item: ExpenseItem, parsed: Amount): (r: ExpenseItem)
    ensures r.labelText == item.labelText
    ensures r.amount.Cents?
    ensures parsed.NaN? ==> r.amount == Cents(0)
    ensures parsed.Cents? ==> r.amount == parsed
  {
    item.(amount := Cents(OrZero(parsed)))
  }

  /** The value of the amount box: blank (None) for 0 and for NaN, else the amount. */
  function DisplayAmount(item: ExpenseItem): (r: Option<int>)
    ensures r.None? <==> (item.amount.NaN? || item.amount == Cents(0))
    ensures r.Some? ==> item.amount == Cents(r.value)
  {
    if item.amount.Cents? && item.amount.cents != 0 then Some(item.amount.cents) else None
  }

  /** What `Number(...)` makes of the box's text: a blank box reads back as 0. */
  function ReadBack(shown: Option<int>): Amount {
    match shown
    case Some(c) => Cents(c)
    case None => Cents(0)
  }

  /**
   * Re-entering what the amount box shows keeps the amount that counts towards
   * the totals, and turns a NaN amount into 0.
   */
  lemma DisplayRoundTrip(item: ExpenseItem)
    ensures OrZero(ChangeAmount(item, ReadBack(DisplayAmount(item))).amount) == OrZero(item.amount)
    ensures ChangeAmount(item, ReadBack(DisplayAmount(item))).amount
              == (if item.amount.NaN? then Cents(0) else item.amount)
  {
  }
}
