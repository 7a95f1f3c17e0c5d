/**
 * The monthly budget planner (src/pages/Tools.tsx): two expense ledgers with
 * append, replace-at-index and remove-at-index, their totals, the leftover
 * clamped at zero, the four-slice chart, the `YYYY-MM` month key, and the
 * effect that loads a month's record or resets the form when there is none.
 */
module Budget {
  import opened Wrappers
  import opened Text
  import opened BudgetRow

  // ---------------------------------------------------------------------------
  // Totals, leftover and chart

  /** `ledger.reduce((sum, i) => sum + (Number(i.amount) || 0), 0)`, folded left to right. */
  function Total(ledger: seq<ExpenseItem>): int {
    if ledger == [] then 0
    else Total(ledger[..|ledger| - 1]) + OrZero(ledger[|ledger| - 1].amount)
  }

  /** The total of two ledgers one after the other is the sum of their totals. */
  lemma {:induction false} TotalAppend(a: seq<ExpenseItem>, b: seq<ExpenseItem>)
    ensures Total(a + b) == Total(a) + Total(b)
    decreases |b|
  {
    if b != [] {
      var n := |b| - 1;
      assert (a + b)[..|a + b| - 1] == a + b[..n];
      assert (a + b)[|a + b| - 1] == b[n];
      TotalAppend(a, b[..n]);
    } else {
      assert a + b == a;
    }
  }

  /** A total does not depend on the order of the rows. */
  lemma {:induction false} TotalPermutation(a: seq<ExpenseItem>, b: seq<ExpenseItem>)
    requires multiset(a) == multiset(b)
    ensures Total(a) == Total(b)
    decreases |a|
  {
    if a != [] {
      var n := |a| - 1;
      var x := a[n];
      assert a == a[..n] + [x];
      assert x in multiset(b);
      var k :| 0 <= k < |b| && b[k] == x;
      var rest := b[..k] + b[k + 1..];
      assert b == b[..k] + [x] + b[k + 1..];
      assert multiset(a) == multiset(a[..n]) + multiset{x};
      assert multiset(b) == multiset(b[..k]) + multiset{x} + multiset(b[k + 1..]);
      assert multiset(rest) == multiset(b[..k]) + multiset(b[k + 1..]);
      assert multiset(a[..n]) == multiset(a) - multiset{x};
      assert multiset(rest) == multiset(b) - multiset{x};
      TotalPermutation(a[..n], rest);
      TotalAppend(b[..k] + [x], b[k + 1..]);
      TotalAppend(b[..k], [x]);
      TotalAppend(b[..k], b[k + 1..]);
      assert Total([x]) == OrZero(x.amount) by {
        assert [x][..0] == [];
      }
      TotalAppend(a[..n], [x]);
    } else {
      assert |b| == |multiset(b)| == 0;
    }
  }

  /** `Math.max(0, income - totalFixed - totalVariable - savingsGoal)`. */
  function Leftover(income: int, totalFixed: int, totalVariable: int, savingsGoal: int): (r: int)
    ensures r >= 0
    ensures r >= income - totalFixed - totalVariable - savingsGoal
    ensures r == 0 || r == income - totalFixed - totalVariable - savingsGoal
  {
    Max(0, income - totalFixed - totalVariable - savingsGoal)
  }

  datatype Slice = Slice(name: string, value: int, color: string)

  /** The pie chart's data: Fixed, Variable, Savings and Leftover, in that order. */
  function ChartData(totalFixed: int, totalVariable: int, savingsGoal: int, leftover: int): (r: seq<Slice>)
    ensures |r| == 4
    ensures r[0].name == "Fixed" && r[0].value == totalFixed
    ensures r[1].name == "Variable" && r[1].value == totalVariable
    ensures r[2].name == "Savings" && r[2].value == savingsGoal
    ensures r[3].name == "Leftover" && r[3].value == leftover
  {
    [ Slice("Fixed", totalFixed, "hsl(var(--accent))"),
      Slice("Variable", totalVariable, "hsl(var(--secondary))"),
      Slice("Savings", savingsGoal, "hsl(var(--muted))"),
      Slice("Leftover", leftover, "hsl(var(--primary))") ]
  }

  function SliceSum(slices: seq<Slice>): int {
    if slices == [] then 0 else slices[0].value + SliceSum(slices[1..])
  }

  /** The chart computed from a planner's inputs, as the page does it. */
  function Chart(income: int, savingsGoal: int, fixed: seq<ExpenseItem>, variable: seq<ExpenseItem>): seq<Slice> {
    var tf := Total(fixed);
    var tv := Total(variable);
    ChartData(tf, tv, savingsGoal, Leftover(income, tf, tv, savingsGoal))
  }

  /**
   * The four slices add up to the income when the income covers every
   * obligation, and to the obligations otherwise (the deficit is not drawn).
   */
  lemma ChartSum(income: int, savingsGoal: int, fixed: seq<ExpenseItem>, variable: seq<ExpenseItem>)
    ensures var obligations := Total(fixed) + Total(variable) + savingsGoal;
            SliceSum(Chart(income, savingsGoal, fixed, variable))
              == if income >= obligations then income else obligations
  {
    var c := Chart(income, savingsGoal, fixed, variable);
    assert SliceSum(c) == c[0].value + SliceSum(c[1..]);
    assert SliceSum(c[1..]) == c[1].value + SliceSum(c[2..]);
    assert SliceSum(c[2..]) == c[2].value + SliceSum(c[3..]);
    assert SliceSum(c[3..]) == c[3].value + SliceSum(c[4..]);
  }

  // ---------------------------------------------------------------------------
  // Ledger updates

  /** The row the Add button appends: `{ label: "", amount: 0 }`. */
  const BlankItem := ExpenseItem("", Cents(0))

  /** `[...arr, { label: "", amount: 0 }]`. */
  function Appended(ledger: seq<ExpenseItem>): (r: seq<ExpenseItem>)
    ensures |r| == |ledger| + 1 && r[..|ledger|] == ledger && r[|ledger|] == BlankItem
    ensures Total(r) == Total(ledger)
  {
    var r := ledger + [BlankItem];
    assert r[..|r| - 1] == ledger;
    r
  }

  /** `arr.map((a, i) => (i === idx ? next : a))`; an index past the end changes nothing. */
  function ReplaceAt(ledger: seq<ExpenseItem>, idx: nat, next: ExpenseItem): (r: seq<ExpenseItem>)
    ensures |r| == |ledger|
    ensures idx < |ledger| ==> r[idx] == next
    ensures forall i :: 0 <= i < |ledger| && i != idx ==> r[i] == ledger[i]
  {
    seq(|ledger|, i requires 0 <= i < |ledger| => if i == idx then next else ledger[i])
  }

  /** `arr.filter((_, i) => i !== idx)`; an index past the end changes nothing. */
  function RemoveAt(ledger: seq<ExpenseItem>, idx: nat): (r: seq<ExpenseItem>)
    ensures idx < |ledger| ==> |r| == |ledger| - 1
    ensures idx >= |ledger| ==> r == ledger
    ensures forall i :: 0 <= i < idx && i < |r| ==> r[i] == ledger[i]
    ensures forall i :: idx <= i < |r| ==> r[i] == ledger[i + 1]
  {
    if idx < |ledger| then ledger[..idx] + ledger[idx + 1..] else ledger
  }

  /** Replacing a row changes the ledger's total by the difference of the two rows. */
  lemma ReplaceAtTotal(ledger: seq<ExpenseItem>, idx: nat, next: ExpenseItem)
    requires idx < |ledger|
    ensures Total(ReplaceAt(ledger, idx, next))
              == Total(ledger) - OrZero(ledger[idx].amount) + OrZero(next.amount)
  {
    var r := ReplaceAt(ledger, idx, next);
    assert ledger == ledger[..idx] + [ledger[idx]] + ledger[idx + 1..];
    assert r == ledger[..idx] + [next] + ledger[idx + 1..];
    TotalAppend(ledger[..idx] + [ledger[idx]], ledger[idx + 1..]);
    TotalAppend(ledger[..idx], [ledger[idx]]);
    TotalAppend(ledger[..idx] + [next], ledger[idx + 1..]);
    TotalAppend(ledger[..idx], [next]);
    assert [next][..0] == [] && [ledger[idx]][..0] == [];
  }

  /** Removing a row takes exactly that row's amount off the total. */
  lemma RemoveAtTotal(ledger: seq<ExpenseItem>, idx: nat)
    requires idx < |ledger|
    ensures Total(RemoveAt(ledger, idx)) == Total(ledger) - OrZero(ledger[idx].amount)
  {
    assert ledger == ledger[..idx] + [ledger[idx]] + ledger[idx + 1..];
    TotalAppend(ledger[..idx] + [ledger[idx]], ledger[idx + 1..]);
    TotalAppend(ledger[..idx], [ledger[idx]]);
    TotalAppend(ledger[..idx], ledger[idx + 1..]);
    assert [ledger[idx]][..0] == [];
  }

  /** Removing a row leaves the other rows, in their order, as a multiset minus one. */
  lemma RemoveAtMultiset(ledger: seq<ExpenseItem>, idx: nat)
    requires idx < |ledger|
    ensures multiset(RemoveAt(ledger, idx)) == multiset(ledger) - multiset{ledger[idx]}
  {
    assert ledger == ledger[..idx] + [ledger[idx]] + ledger[idx + 1..];
  }

  // ---------------------------------------------------------------------------
  // Month key

  /**
   * `${getFullYear()}-${String(getMonth() + 1).padStart(2, "0")}`, where
   * `monthIndex` is the 0-based month `getMonth` returns.
   */
  function MonthKey(year: int, monthIndex: int): (r: string)
    requires 0 <= monthIndex < 12
  {
    IntToDecimal(year) + "-" + PadStart(NatToDecimal(monthIndex + 1), 2, '0')
  }

  /** Reads a key of the form `<year>-<two digits>` back into a year and a 1-based month. */
  function ParseMonthKey(key: string): Option<(int, int)> {
    if |key| < 4 || key[|key| - 3] != '-' || !IsDigit(key[|key| - 2]) || !IsDigit(key[|key| - 1]) then None
    else
      var y := key[..|key| - 3];
      var m := DecimalValue(key[|key| - 2..]);
      if y != [] && forall i :: 0 <= i < |y| ==> IsDigit(y[i]) then Some((DecimalValue(y), m))
      else if |y| >= 2 && y[0] == '-' && forall i :: 1 <= i < |y| ==> IsDigit(y[i]) then
        var v: int := DecimalValue(y[1..]);
        Some((-v, m))
      else None
  }

  /** The month part is always two digits, so the key reads back to its year and month. */
  lemma MonthKeyRoundTrip(year: int, monthIndex: int)
    requires 0 <= monthIndex < 12
    ensures ParseMonthKey(MonthKey(year, monthIndex)) == Some((year, monthIndex + 1))
  {
    var ms := PadStart(NatToDecimal(monthIndex + 1), 2, '0');
    MonthPartTwoDigits(monthIndex);
    MonthPartValue(monthIndex);
    ParseJoined(year, ms);
  }

  lemma MonthPartValue(monthIndex: int)
    requires 0 <= monthIndex < 12
    ensures var ms := PadStart(NatToDecimal(monthIndex + 1), 2, '0');
            (forall i :: 0 <= i < |ms| ==> IsDigit(ms[i])) && DecimalValue(ms) == monthIndex + 1
  {
    var ms := PadStart(NatToDecimal(monthIndex + 1), 2, '0');
    MonthPartTwoDigits(monthIndex);
    DecimalRoundTrip(monthIndex + 1);
    if monthIndex + 1 < 10 {
      assert ms == ['0'] + NatToDecimal(monthIndex + 1);
      assert ms[..1] == ['0'];
      assert DecimalValue(ms[..1]) == 0 by {
        assert ms[..1][..0] == [];
      }
    }
  }

  lemma ParseJoined(year: int, ms: string)
    requires |ms| == 2 && IsDigit(ms[0]) && IsDigit(ms[1])
    ensures ParseMonthKey(IntToDecimal(year) + "-" + ms) == Some((year, DecimalValue(ms)))
  {
    var ys := IntToDecimal(year);
    var key := ys + "-" + ms;
    assert key[|key| - 3] == '-' && key[|key| - 2..] == ms;
    assert key[..|key| - 3] == ys;
    if year >= 0 {
      DecimalRoundTrip(year);
    } else {
      DecimalRoundTrip(-year);
      assert ys[1..] == NatToDecimal(-year);
      assert ys[0] == '-';
    }
  }

  lemma MonthPartTwoDigits(monthIndex: int)
    requires 0 <= monthIndex < 12
    ensures var ms := PadStart(NatToDecimal(monthIndex + 1), 2, '0');
            |ms| == 2 && IsDigit(ms[0]) && IsDigit(ms[1])
  {
    var d := NatToDecimal(monthIndex + 1);
    if monthIndex + 1 >= 10 {
      assert d == NatToDecimal((monthIndex + 1) / 10) + [DigitChar((monthIndex + 1) % 10)];
    }
  }

  /** For a four-digit year the key has seven characters with the dash at index 4. */
  lemma MonthKeyLength(year: int, monthIndex: int)
    requires 1000 <= year <= 9999 && 0 <= monthIndex < 12
    ensures |MonthKey(year, monthIndex)| == 7 && MonthKey(year, monthIndex)[4] == '-'
  {
    MonthPartTwoDigits(monthIndex);
    assert |NatToDecimal(year / 1000)| == 1;
    assert |NatToDecimal(year / 100)| == 2;
    assert |NatToDecimal(year / 10)| == 3;
    assert |NatToDecimal(year)| == 4;
  }

  // ---------------------------------------------------------------------------
  // The planner page's state

  datatype LedgerKind = Fixed | Variable

  /** A stored expense field: a JSON array of rows, or anything else. */
  datatype ExpenseField = Rows(items: seq<ExpenseItem>) | NotAnArray

  /** A month's stored record, as the planner reads it. */
  datatype BudgetRecord = BudgetRecord(
    income: Amount,
    savingsGoal: Amount,
    fixedExpenses: ExpenseField,
    variableExpenses: ExpenseField)

  /** `Array.isArray(field) ? field : []`. */
  function LedgerOf(field: ExpenseField): seq<ExpenseItem> {
    match field
    case Rows(items) => items
    case NotAnArray => []
  }

  const DefaultFixed := [ExpenseItem("Rent", Cents(0))]
  const DefaultVariable := [ExpenseItem("Food", Cents(0))]

  class Planner {
    var selectedMonth: string
    var income: int
    var savingsGoal: int
    var fixed: seq<ExpenseItem>
    var variable: seq<ExpenseItem>

    /** The page's initial state; `currentMonth` is `monthKey()` for today's date. */
    constructor (currentMonth: string)
      ensures selectedMonth == currentMonth && income == 0 && savingsGoal == 0
      ensures fixed == DefaultFixed && variable == DefaultVariable
    {
      selectedMonth := currentMonth;
      income, savingsGoal := 0, 0;
      fixed, variable := DefaultFixed, DefaultVariable;
    }

    function Ledger(kind: LedgerKind): seq<ExpenseItem>
      reads this
    {
      match kind
      case Fixed => fixed
      case Variable => variable
    }

    /** Choosing another month; the other fields wait for that month's record. */
    method SelectMonth(month: string)
      modifies this
      ensures selectedMonth == month
      ensures income == old(income) && savingsGoal == old(savingsGoal)
      ensures fixed == old(fixed) && variable == old(variable)
    {
      selectedMonth := month;
    }

    /** The load effect: copy a record's fields, or reset when the month has none. */
    method Load(data: Option<BudgetRecord>)
      modifies this
      ensures selectedMonth == old(selectedMonth)
      ensures data.None? ==> income == 0 && savingsGoal == 0 && fixed == DefaultFixed && variable == DefaultVariable
      ensures data.Some? ==> income == OrZero(data.value.income) && savingsGoal == OrZero(data.value.savingsGoal)
      ensures data.Some? ==> fixed == LedgerOf(data.value.fixedExpenses) && variable == LedgerOf(data.value.variableExpenses)
    {
      if data.Some? {
        income := OrZero(data.value.income);
        savingsGoal := OrZero(data.value.savingsGoal);
        fixed := LedgerOf(data.value.fixedExpenses);
        variable := LedgerOf(data.value.variableExpenses);
      } else {
        income := 0;
        savingsGoal := 0;
        fixed := DefaultFixed;
        variable := DefaultVariable;
      }
    }

    /** The income box: `setIncome(Number(value) || 0)`. */
    method SetIncome(parsed: Amount)
      modifies this
      ensures income == OrZero(parsed)
      ensures selectedMonth == old(selectedMonth) && savingsGoal == old(savingsGoal)
      ensures fixed == old(fixed) && variable == old(variable)
    {
      income := OrZero(parsed);
    }

    /** The savings box: `setSavingsGoal(Number(value) || 0)`. */
    method SetSavingsGoal(parsed: Amount)
      modifies this
      ensures savingsGoal == OrZero(parsed)
      ensures selectedMonth == old(selectedMonth) && income == old(income)
      ensures fixed == old(fixed) && variable == old(variable)
    {
      savingsGoal := OrZero(parsed);
    }

    /** `addFixed` / `addVariable`: append a blank row; both totals stay as they were. */
    method Add(kind: LedgerKind)
      modifies this
      ensures Ledger(kind) == Appended(old(Ledger(kind)))
      ensures kind == Fixed ==> variable == old(variable)
      ensures kind == Variable ==> fixed == old(fixed)
      ensures Total(fixed) == old(Total(fixed)) && Total(variable) == old(Total(variable))
      ensures selectedMonth == old(selectedMonth) && income == old(income) && savingsGoal == old(savingsGoal)
    {
      if kind == Fixed {
        fixed := Appended(fixed);
      } else {
        variable := Appended(variable);
      }
    }

    /** A row's `onChange`: replace row `idx` of one ledger with `next`. */
    method Edit(kind: LedgerKind, idx: nat, next: ExpenseItem)
      modifies this
      ensures Ledger(kind) == ReplaceAt(old(Ledger(kind)), idx, next)
      ensures kind == Fixed ==> variable == old(variable)
      ensures kind == Variable ==> fixed == old(fixed)
      ensures selectedMonth == old(selectedMonth) && income == old(income) && savingsGoal == old(savingsGoal)
    {
      if kind == Fixed {
        fixed := ReplaceAt(fixed, idx, next);
      } else {
        variable := ReplaceAt(variable, idx, next);
      }
    }

    /** A row's `onRemove`: drop row `idx` of one ledger. */
    method Remove(kind: LedgerKind, idx: nat)
      modifies this
      ensures Ledger(kind) == RemoveAt(old(Ledger(kind)), idx)
      ensures kind == Fixed ==> variable == old(variable)
      ensures kind == Variable ==> fixed == old(fixed)
      ensures selectedMonth == old(selectedMonth) && income == old(income) && savingsGoal == old(savingsGoal)
    {
      if kind == Fixed {
        fixed := RemoveAt(fixed, idx);
      } else {
        variable := RemoveAt(variable, idx);
      }
    }
  }
}
