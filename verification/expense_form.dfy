/**
 * The expense form: four inputs (description, amount, category, date) and
 * an `isSubmitting` flag. Submission checks the inputs, validates the
 * parsed amount with the rupee range check, sends a create or an update,
 * and clears the inputs when the call succeeds. `parseFloat`, today's date
 * and the outcome of the API call are parameters.
 */
module ExpenseForm {
  import opened Wrappers
  import opened Js
  import opened ClientRecords
  import opened FormInputs
  import Currency

  /** What `handleSubmit` sends; the date is what `format('YYYY-MM-DD')` renders. */
  datatype ExpensePayload = ExpensePayload(description: string, amount: Number, date: CivilDate, categoryName: string)

  datatype ExpenseCall = CreateExpense(payload: ExpensePayload) | UpdateExpense(id: int, payload: ExpensePayload)

  /**
   * How a submission ends: ignored by the basic check, stopped with a
   * warning, thrown out of the handler (a cleared date picker leaves `date`
   * null, and `date.format` throws before the `try`), or sent.
   */
  datatype SubmitOutcome = Ignored | Warned(message: string) | Thrown | Sent(call: ExpenseCall, succeeded: bool)

  /** The basic check of `handleSubmit`, which is also what disables the button. */
  predicate Incomplete(description: string, amount: NumberInput, categoryId: string) {
    Blank(description) || !Truthy(amount) || |categoryId| == 0
  }

  class ExpenseFormState {
    const parseFloat: string -> Number
    var description: string
    var amount: NumberInput
    var categoryId: string
    var date: Option<CivilDate>
    var isSubmitting: bool

    constructor(parseFloat: string -> Number, today: CivilDate)
      ensures this.parseFloat == parseFloat
      ensures description == "" && amount == Typed("") && categoryId == "" && date == Some(today)
      ensures !isSubmitting
    {
      this.parseFloat := parseFloat;
      description := "";
      amount := Typed("");
      categoryId := "";
      date := Some(today);
      isSubmitting := false;
    }

    /** The submit button's `disabled` condition. */
    predicate SubmitDisabled()
      reads this
    {
      isSubmitting || Incomplete(description, amount, categoryId)
    }

    /**
     * The effect that runs when `currentExpense` changes: an expense's fields
     * are copied in (the category by its name, which the expense must carry),
     * and no expense resets the inputs to empty with today's date.
     */
    method LoadExpense(currentExpense: Option<ClientExpense>, today: CivilDate)
      requires currentExpense.Some? ==> currentExpense.value.nestedCategoryName.Some?
      modifies this`description, this`amount, this`categoryId, this`date
      ensures currentExpense.Some? ==>
        var e := currentExpense.value;
        && description == e.description && amount == Loaded(Finite(e.amount))
        && categoryId == e.nestedCategoryName.value && date == Some(e.date)
      ensures currentExpense.None? ==>
        description == "" && amount == Typed("") && categoryId == "" && date == Some(today)
    {
      if currentExpense.Some? {
        var e := currentExpense.value;
        description := e.description;
        amount := Loaded(Finite(e.amount));
        categoryId := e.nestedCategoryName.value;
        date := Some(e.date);
      } else {
        description := "";
        amount := Typed("");
        categoryId := "";
        date := Some(today);
      }
    }

    /**
     * `handleSubmit`. `succeeds` is whether the awaited create or update
     * resolves. On success the inputs are cleared; on failure they are kept.
     */
    method HandleSubmit(currentExpense: Option<int>, succeeds: bool, today: CivilDate) returns (outcome: SubmitOutcome)
      modifies this`description, this`amount, this`categoryId, this`date, this`isSubmitting
      ensures old(Incomplete(description, amount, categoryId)) <==> outcome == Ignored
      ensures outcome.Ignored? || outcome.Warned? ==>
        description == old(description) && amount == old(amount) && categoryId == old(categoryId)
        && date == old(date) && isSubmitting == old(isSubmitting)
      ensures outcome.Warned? <==>
        (!old(Incomplete(description, amount, categoryId)) && !Currency.ValidateINRAmount(Parse(old(amount), parseFloat)).isValid)
      ensures outcome.Warned? ==> outcome.message == Currency.ValidateINRAmount(Parse(old(amount), parseFloat)).message
      ensures outcome.Thrown? <==> outcome != Ignored && !outcome.Warned? && old(date).None?
      ensures outcome.Thrown? ==>
        isSubmitting && description == old(description) && amount == old(amount)
        && categoryId == old(categoryId) && date == old(date)
      ensures outcome.Sent? ==>
        && outcome.succeeded == succeeds
        && outcome.call.payload == ExpensePayload(Trim(old(description)), Parse(old(amount), parseFloat), old(date).value, old(categoryId))
        && (outcome.call.UpdateExpense? <==> currentExpense.Some?)
        && (currentExpense.Some? ==> outcome.call.id == currentExpense.value)
        && !isSubmitting
      ensures outcome.Sent? && succeeds ==>
        description == "" && amount == Typed("") && categoryId == "" && date == Some(today)
      ensures outcome.Sent? && !succeeds ==>
        description == old(description) && amount == old(amount) && categoryId == old(categoryId) && date == old(date)
    {
      if Blank(description) || !Truthy(amount) || |categoryId| == 0 {
        return Ignored;
      }
      var amountValue := Parse(amount, parseFloat);
      var validation := Currency.ValidateINRAmount(amountValue);
      if !validation.isValid {
        return Warned(validation.message);
      }
      isSubmitting := true;
      if date.None? {
        return Thrown;
      }
      var expenseData := ExpensePayload(Trim(description), amountValue, date.value, categoryId);
      var call := if currentExpense.Some? then UpdateExpense(currentExpense.value, expenseData) else CreateExpense(expenseData);
      if succeeds {
        description := "";
        amount := Typed("");
        categoryId := "";
        date := Some(today);
      }
      isSubmitting := false;
      outcome := Sent(call, succeeds);
    }
  }

  /** A complete form with an amount in (0, ₹99,99,99,999.99] and a date is sent. */
  lemma CompleteFormIsSent(description: string, amount: real, categoryId: string, parseFloat: string -> Number)
    requires !Blank(description) && |categoryId| != 0 && 0.0 < amount <= Currency.Cap
    ensures !Incomplete(description, Loaded(Finite(amount)), categoryId)
    ensures Currency.ValidateINRAmount(Parse(Loaded(Finite(amount)), parseFloat)).isValid
  {
  }
}
