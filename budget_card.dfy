/** The budget progress card (components/ui/BudgetCard.tsx): how far `spent` has got into a
    budget's amount, what is left, and which label the card shows. Amounts are finite reals;
    `toFixed(2)` is a parameter. */
module BudgetCard {
  import opened Js

  /** `Math.min((spent / budgetAmount) * 100, 100)`, the width of the progress bar. A zero
      budget divides by zero: a positive spend gives 100, a negative one minus infinity, and
      no spend NaN. */
  function Percentage(spent: real, limit: real): (r: Number)
    ensures r != Infinity(false)
    ensures r.Finite? ==> r.value <= 100.0
    ensures r.NaN? <==> spent == 0.0 && limit == 0.0
    ensures limit != 0.0 ==> r == Finite(MinReal(spent / limit * 100.0, 100.0))
  {
    Min(Scale(Div(spent, limit), 100.0), Finite(100.0))
  }

  /** `Math.max(budgetAmount - spent, 0)` */
  function Remaining(spent: real, limit: real): (r: real)
    ensures r >= 0.0 && r >= limit - spent
    ensures r == 0.0 || r == limit - spent
  {
    MaxReal(limit - spent, 0.0)
  }

  /** `spent > budgetAmount`: spending exactly the budget is not over it. */
  predicate IsOverBudget(spent: real, limit: real) {
    spent > limit
  }

  /** The text under the bar. */
  function LabelText(spent: real, limit: real, toFixed2: real -> string): string {
    if IsOverBudget(spent, limit) then "Over budget"
    else "$" + toFixed2(Remaining(spent, limit)) + " remaining"
  }

  /** Within budget, what remains and what was spent add up to the budget. */
  lemma RemainingAddsUp(spent: real, limit: real)
    requires !IsOverBudget(spent, limit)
    ensures Remaining(spent, limit) + spent == limit
  {
  }

  /** Over a non-negative budget, nothing remains and the bar is full. */
  lemma OverBudgetIsFull(spent: real, limit: real)
    requires IsOverBudget(spent, limit) && limit >= 0.0
    ensures Remaining(spent, limit) == 0.0
    ensures Percentage(spent, limit) == Finite(100.0)
  {
    if limit > 0.0 {
      assert spent / limit * limit == spent;
      assert spent / limit > 1.0;
    } else {
      assert Div(spent, limit) == Infinity(false);
    }
  }

  /** Within a positive budget and for a non-negative spend, the bar is exactly the share
      spent, between 0 and 100. */
  lemma WithinBudgetShare(spent: real, limit: real)
    requires 0.0 <= spent && !IsOverBudget(spent, limit) && limit > 0.0
    ensures Percentage(spent, limit) == Finite(spent / limit * 100.0)
    ensures 0.0 <= spent / limit * 100.0 <= 100.0
  {
    assert spent / limit * limit == spent;
    assert spent / limit <= 1.0;
  }

  /** The card says "Over budget" exactly when over budget, and otherwise shows what remains. */
  lemma LabelMatchesState(spent: real, limit: real, toFixed2: real -> string)
    ensures LabelText(spent, limit, toFixed2) == "Over budget" <==> IsOverBudget(spent, limit)
    ensures !IsOverBudget(spent, limit) ==>
      LabelText(spent, limit, toFixed2) == "$" + toFixed2(limit - spent) + " remaining"
  {
    if !IsOverBudget(spent, limit) {
      assert LabelText(spent, limit, toFixed2)[0] == '$';
    }
  }

  /** A zero budget with nothing spent, which the budget form accepts ("0" is a non-empty
      amount), makes the bar width NaN. */
  lemma ZeroBudgetPercentageIsNaN()
    ensures Percentage(0.0, 0.0) == NaN
  {
  }

  /** The bar width with the 0/0 case read as an empty bar. */
  function ProgressPercentage(spent: real, limit: real): (r: Number)
    ensures r.Finite? || r == Infinity(true)
    ensures r.Finite? ==> r.value <= 100.0
    ensures 0.0 <= spent && 0.0 <= limit ==> r.Finite? && 0.0 <= r.value <= 100.0
    ensures !(spent == 0.0 && limit == 0.0) ==> r == Percentage(spent, limit)
  {
    var p := Percentage(spent, limit);
    if p.NaN? then Finite(0.0)
    else if 0.0 <= spent && 0.0 <= limit then
      ProgressIsShare(spent, limit);
      p
    else p
  }

  lemma ProgressIsShare(spent: real, limit: real)
    requires 0.0 <= spent && 0.0 <= limit && !(spent == 0.0 && limit == 0.0)
    ensures Percentage(spent, limit).Finite? && 0.0 <= Percentage(spent, limit).value <= 100.0
  {
    if limit == 0.0 {
      OverBudgetIsFull(spent, limit);
    } else if IsOverBudget(spent, limit) {
      OverBudgetIsFull(spent, limit);
    } else {
      WithinBudgetShare(spent, limit);
    }
  }
}
