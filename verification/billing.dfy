/**
 * Bills of itkufs/billing: a bill can be edited until a transaction has
 * been made from it, and each of its lines needs a description and a
 * positive amount (in cents).
 */
module Billing {
  import opened Outcomes

  /** A `Bill`: the id of the transaction made from it, if any. */
  datatype Bill = Bill(description: string, transaction: Option<nat>)

  /** `is_editable`: no transaction has been made from the bill. */
  predicate IsEditable(b: Bill)
  {
    b.transaction.None?
  }

  /** `status`, before translation. */
  function Status(b: Bill): (s: string)
    ensures s == "Pending" || s == "Committed"
  {
    if IsEditable(b) then "Pending" else "Committed"
  }

  /** `css_class`. */
  function CssClass(b: Bill): (c: string)
    ensures c == "pending" || c == "committed"
  {
    if IsEditable(b) then "pending" else "committed"
  }

  /** The status names the bill pending exactly when it is editable, and
      the CSS class always agrees with the status. */
  lemma StatusAgrees(b: Bill)
    ensures Status(b) == "Pending" <==> b.transaction.None?
    ensures CssClass(b) == "pending" <==> Status(b) == "Pending"
    ensures CssClass(b) == "committed" <==> Status(b) == "Committed"
  {
  }

  const DescriptionMissing := "Description missing"
  const AmountMissing := "Amount missing"

  /** The amount as `cleaned_data.get('amount', -1)` reads it: `amount` is
      absent (outer None) when the field failed validation and Python's None
      (inner None) when it was left blank. */
  function AmountRead(amount: Option<Option<int>>): Option<int>
  {
    if amount.None? then Some(-1) else amount.value
  }

  /** `BillingLineForm.clean` as written. A blank amount is compared with 0,
      which raises a TypeError; an absent description (one that failed its
      own validation) has no `strip`, an AttributeError. */
  function BillingLineCleanAsWritten(amount: Option<Option<int>>, description: Option<string>): (err: Option<FormError>)
    ensures AmountRead(amount).None? ==> err == Some(TypeError)
    ensures AmountRead(amount).Some? ==> err == BillingLineClean(amount, description)
  {
    var a := AmountRead(amount);
    if a.None? then Some(TypeError)
    else if a.value > 0 && description.None? then Some(AttributeError)
    else if a.value > 0 && !IsBlank(description.value) then None
    else if description.None? then Some(AttributeError)
    else Some(ValidationError(
      (if IsBlank(description.value) then [DescriptionMissing] else [])
      + (if !(a.value > 0) then [AmountMissing] else [])))
  }

  /** `BillingLineForm.clean` as intended: a blank amount is a missing
      amount. A line passes iff its amount is positive and its description
      is not blank; otherwise both complaints that apply are raised
      together, the description's first. */
  function BillingLineClean(amount: Option<Option<int>>, description: Option<string>): (err: Option<FormError>)
    ensures err.None? <==> description.Some? && !IsBlank(description.value) && AmountPositive(amount)
    ensures description.None? ==> err == Some(AttributeError)
    ensures description.Some? && err.Some? ==> err == Some(ValidationError(
      (if IsBlank(description.value) then [DescriptionMissing] else [])
      + (if AmountPositive(amount) then [] else [AmountMissing])))
  {
    var a := AmountRead(amount);
    var positive := a.Some? && a.value > 0;
    if description.None? then Some(AttributeError)
    else if positive && !IsBlank(description.value) then None
    else Some(ValidationError(
      (if IsBlank(description.value) then [DescriptionMissing] else [])
      + (if !positive then [AmountMissing] else [])))
  }

  predicate AmountPositive(amount: Option<Option<int>>)
  {
    AmountRead(amount).Some? && AmountRead(amount).value > 0
  }

  /** A line with a description and a blank amount: as written the form
      raises a TypeError, where it means to report the missing amount. */
  lemma BlankAmountCrashes(description: string)
    requires !IsBlank(description)
    ensures BillingLineCleanAsWritten(Some(None), Some(description)) == Some(TypeError)
    ensures BillingLineClean(Some(None), Some(description)) == Some(ValidationError([AmountMissing]))
  {
    var none: seq<string> := [];
    assert none + [AmountMissing] == [AmountMissing];
  }

  /** An amount that failed validation reads as -1 and counts as missing. */
  lemma InvalidAmountMissing(description: string)
    ensures BillingLineClean(None, Some(description)).Some?
    ensures BillingLineClean(None, Some(description)).value.ValidationError?
    ensures AmountMissing in BillingLineClean(None, Some(description)).value.messages
  {
  }
}
