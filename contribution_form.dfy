/**
 * The contribution form schema: a user must be chosen, the amount is at
 * least 100 FCFA and a date must be given. Each rule reports on its own
 * field, and every failing field is reported at once.
 */
module ContributionForm {
  import opened Wrappers

  /**
   * The submitted values. The user field is a controlled select with no
   * default value, so it is absent until a colleague is picked.
   */
  datatype FormData = FormData(userId: Option<string>, amount: int, date: string)

  /**
   * A problem with the user field: absent (zod's own type error, whose wording
   * depends on the zod version) or present but failing the rule's message.
   */
  datatype Issue = NotAString | Message(text: string)

  /** The error shown under each field, if any. */
  datatype FieldErrors = FieldErrors(userId: Option<Issue>, amount: Option<string>, date: Option<string>)

  const UserRequired := "User is required"
  const MinimumContribution := "Minimum contribution is 100 FCFA"
  const DateRequired := "Date is required"

  /** The smallest amount the schema accepts. */
  const MinimumAmount := 100

  function Validate(f: FormData): FieldErrors {
    FieldErrors(
      match f.userId
      case None => Some(NotAString)
      case Some(id) => if |id| >= 1 then None else Some(Message(UserRequired)),
      if f.amount >= MinimumAmount then None else Some(MinimumContribution),
      if |f.date| >= 1 then None else Some(DateRequired))
  }

  predicate Accepts(f: FormData) {
    Validate(f) == FieldErrors(None, None, None)
  }

  /** The form is accepted exactly when a user id is given and non-empty, the date is non-empty and the amount is at least 100. */
  lemma AcceptsExactly(f: FormData)
    ensures Accepts(f) <==> f.userId.Some? && |f.userId.value| >= 1 && f.amount >= 100 && |f.date| >= 1
  {
  }

  /** Each field is judged on its own value alone, with its own fixed message. */
  lemma EachFieldJudgedAlone(f: FormData, g: FormData)
    ensures f.userId == g.userId ==> Validate(f).userId == Validate(g).userId
    ensures f.amount == g.amount ==> Validate(f).amount == Validate(g).amount
    ensures f.date == g.date ==> Validate(f).date == Validate(g).date
    ensures f.userId == Some("") <==> Validate(f).userId == Some(Message("User is required"))
    ensures f.userId.None? <==> Validate(f).userId == Some(NotAString)
    ensures Validate(f).amount.Some? ==> Validate(f).amount == Some("Minimum contribution is 100 FCFA")
    ensures Validate(f).date.Some? ==> Validate(f).date == Some("Date is required")
  {
  }

  /** 100 is accepted, 99 is not, and no amount above the minimum is refused. */
  lemma AmountThreshold(f: FormData)
    requires f.userId.Some? && |f.userId.value| >= 1 && |f.date| >= 1
    ensures f.amount >= 100 ==> Accepts(f)
    ensures f.amount < 100 ==> Validate(f) == FieldErrors(None, Some("Minimum contribution is 100 FCFA"), None)
  {
  }

  /** Any non-empty date text passes: its format is not checked. */
  lemma AnyDateTextPasses(f: FormData, date: string)
    requires Accepts(f) && |date| >= 1
    ensures Accepts(f.(date := date))
  {
  }
}
