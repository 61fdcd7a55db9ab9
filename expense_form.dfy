/**
 * The expense form: a two-mode (add / edit) form over four input fields and an error message.
 * Its mode follows the `editingExpense` it is given; its submit handler validates the fields
 * against the remaining budget and hands the assembled expense to the parent.
 */
module ExpenseForm {
  import opened Types

  /**
   * The amount field's state. Typing stores the input's text; the prefill effect stores the
   * edited record's amount, a number, as it is (`editingExpense.amount || ""`).
   */
  datatype AmountInput = Typed(text: string) | Prefilled(number: real)

  /** The object the form hands to `onSubmit`: `id` is absent in add mode. */
  datatype Draft = Draft(id: Option<int>, name: string, amount: Num, category: string, date: string)

  /** What the submit handler decides about the current field values. */
  datatype Verdict = Incomplete | OverBudget | Accepted(draft: Draft)

  const FieldsError := "Please fill in all fields correctly."
  const BudgetError := "Expense amount exceeds the remaining budget!"

  /** JavaScript truthiness of the amount field: the empty text and the number 0 are falsy. */
  predicate AmountFilled(a: AmountInput)
  {
    match a
    case Typed(t) => t != ""
    case Prefilled(x) => x != 0.0
  }

  /** `!name || !amount || !category || !date` is false. */
  predicate Complete(name: string, amount: AmountInput, category: string, date: string)
  {
    Filled(name) && AmountFilled(amount) && Filled(category) && Filled(date)
  }

  /** `parseFloat(amount)`: parsing a number gives it back. */
  function AmountValue(a: AmountInput, parseFloat: string -> Num): Num
  {
    match a
    case Typed(t) => parseFloat(t)
    case Prefilled(x) => Finite(x)
  }

  /** JavaScript's `expenseAmount > remainingBudget`, which is false when the amount is NaN. */
  predicate Exceeds(n: Num, remaining: real)
  {
    n.Finite? && n.value > remaining
  }

  /** `editingExpense?.id` */
  function EditedId(editing: Option<Expense>): Option<int>
  {
    if editing.Some? then Some(editing.value.id) else None
  }

  /** `editingExpense.amount || ""`: a zero amount leaves the field empty. */
  function PrefillAmount(x: real): (a: AmountInput)
    ensures AmountFilled(a) <==> x != 0.0
    ensures AmountFilled(a) ==> a == Prefilled(x)
  {
    if x != 0.0 then Prefilled(x) else Typed("")
  }

  /**
   * The decision of the submit handler. The empty-field check comes first, so an incomplete
   * form is reported as such whatever the budget; only an amount strictly above the remaining
   * budget is refused, so an amount equal to it, and an amount that parses to NaN, pass.
   */
  function Check(name: string, amount: AmountInput, category: string, date: string,
                 editing: Option<Expense>, remaining: real, parseFloat: string -> Num): (v: Verdict)
    ensures v.Incomplete? <==> !Complete(name, amount, category, date)
    ensures v.OverBudget? <==>
      Complete(name, amount, category, date)
      && AmountValue(amount, parseFloat).Finite? && AmountValue(amount, parseFloat).value > remaining
    ensures v.Accepted? ==>
      v.draft == Draft(EditedId(editing), name, AmountValue(amount, parseFloat), category, date)
    ensures v.Accepted? && v.draft.amount.Finite? ==> v.draft.amount.value <= remaining
    ensures v.Accepted? ==> (v.draft.id.Some? <==> editing.Some?)
  {
    if !Complete(name, amount, category, date) then Incomplete
    else
      var expenseAmount := AmountValue(amount, parseFloat);
      if Exceeds(expenseAmount, remaining) then OverBudget
      else Accepted(Draft(EditedId(editing), name, expenseAmount, category, date))
  }

  /** A complete form whose amount text parses to NaN is accepted, whatever the remaining budget. */
  lemma NaNAmountAccepted(name: string, text: string, category: string, date: string,
                          editing: Option<Expense>, remaining: real, parseFloat: string -> Num)
    requires Filled(name) && Filled(text) && Filled(category) && Filled(date)
    requires parseFloat(text) == NaN
    ensures Check(name, Typed(text), category, date, editing, remaining, parseFloat).Accepted?
    ensures Check(name, Typed(text), category, date, editing, remaining, parseFloat).draft.amount == NaN
  {
  }

  class Form {
    var name: string
    var amount: AmountInput
    var category: string
    var date: string
    var error: string

    /** All four fields empty. */
    ghost predicate Cleared()
      reads this
    {
      name == "" && amount == Typed("") && category == "" && date == ""
    }

    /** The five `useState("")` hooks. */
    constructor ()
      ensures Cleared() && error == ""
    {
      name, amount, category, date := "", Typed(""), "", "";
      error := "";
    }

    /**
     * The effect that runs whenever `editingExpense` changes: prefill the fields from the record
     * being edited, or empty them. It leaves the error message alone.
     */
    method Sync(editing: Option<Expense>)
      modifies this
      ensures editing.Some? ==>
        && name == editing.value.name
        && amount == PrefillAmount(editing.value.amount)
        && category == editing.value.category
        && date == editing.value.date
      ensures editing.None? ==> Cleared()
      ensures error == old(error)
    {
      if editing.Some? {
        var e := editing.value;
        // `x || ""` is `x` itself for a string
        name := e.name;
        amount := PrefillAmount(e.amount);
        category := e.category;
        date := e.date;
      } else {
        name := "";
        amount := Typed("");
        category := "";
        date := "";
      }
    }

    /**
     * The submit handler. A rejected submit sets the matching error, emits nothing and keeps the
     * fields; an accepted one emits the draft once, clears the error and empties the fields.
     * `submitted` is the argument of the one `onSubmit` call, if there is one.
     */
    method Submit(editing: Option<Expense>, remaining: real, parseFloat: string -> Num)
      returns (submitted: Option<Draft>)
      modifies this
      ensures
        var v := Check(old(name), old(amount), old(category), old(date), editing, remaining, parseFloat);
        && (v.Incomplete? ==> submitted == None && error == FieldsError)
        && (v.OverBudget? ==> submitted == None && error == BudgetError)
        && (!v.Accepted? ==>
              name == old(name) && amount == old(amount) && category == old(category) && date == old(date))
        && (v.Accepted? ==> submitted == Some(v.draft) && error == "" && Cleared())
    {
      if !Filled(name) || !AmountFilled(amount) || !Filled(category) || !Filled(date) {
        error := FieldsError;
        return None;
      }

      var expenseAmount := AmountValue(amount, parseFloat);
      if Exceeds(expenseAmount, remaining) {
        error := BudgetError;
        return None;
      }

      var expenseData := Draft(EditedId(editing), name, expenseAmount, category, date);
      submitted := Some(expenseData);
      error := "";

      name := "";
      amount := Typed("");
      category := "";
      date := "";
    }
  }
}
