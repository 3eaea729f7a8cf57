/** The manual expense form (components/ExpenseInput.tsx). */
module ExpenseInput {
  import opened Types
  import opened App

  /** The guard of `handleSubmit`: a non-empty description and a parsed
      amount that is a number (`None` stands for NaN) greater than zero.
      The accepted amount, if any, is the parsed one. */
  function Validate(description: string, parsed: Option<real>): (accepted: Option<real>)
    ensures accepted.Some? <==> |description| > 0 && parsed.Some? && parsed.value > 0.0
    ensures accepted.Some? ==> accepted == parsed && accepted.value > 0.0
  {
    if description != "" && parsed.Some? && parsed.value > 0.0 then parsed else None
  }

  /** What a well-formed expense looks like: what the guard lets through. */
  predicate ValidExpense(e: Expense)
  {
    |e.description| > 0 && e.amount > 0.0
  }

  /** The cases the guard turns away: an empty description, NaN, zero and negative amounts. */
  lemma ValidateRejects(description: string, parsed: Option<real>)
    ensures description == "" ==> Validate(description, parsed) == None
    ensures parsed == None ==> Validate(description, parsed) == None
    ensures parsed.Some? && parsed.value <= 0.0 ==> Validate(description, parsed) == None
  {
  }

  /** The form's two text fields. */
  class ExpenseForm {
    var description: string
    var amount: string

    constructor ()
      ensures description == "" && amount == ""
    {
      description := "";
      amount := "";
    }

    /** `handleSubmit`. `parseFloat` reads the amount field; `onAdd` is the
        session whose `AddExpense` the form calls, with `newId` as the id it
        draws. On acceptance the expense holds exactly the entered
        description and the parsed amount, and both fields are cleared; on
        rejection nothing changes. */
    method Submit(parseFloat: string -> Option<real>, onAdd: Session, newId: string) returns (accepted: bool)
      modifies this, onAdd
      ensures accepted <==> Validate(old(description), parseFloat(old(amount))).Some?
      ensures accepted ==>
        && onAdd.expenses == old(onAdd.expenses) + [Expense(newId, old(description), parseFloat(old(amount)).value)]
        && description == "" && amount == ""
      ensures !accepted ==>
        && onAdd.expenses == old(onAdd.expenses)
        && description == old(description) && amount == old(amount)
      ensures onAdd.transactions == old(onAdd.transactions)
      ensures (forall i :: 0 <= i < |old(onAdd.expenses)| ==> ValidExpense(old(onAdd.expenses)[i])) ==>
              forall i :: 0 <= i < |onAdd.expenses| ==> ValidExpense(onAdd.expenses[i])
    {
      var numAmount := parseFloat(amount);
      var checked := Validate(description, numAmount);
      accepted := checked.Some?;
      if accepted {
        onAdd.AddExpense(newId, description, checked.value);
        description := "";
        amount := "";
      }
    }
  }
}
