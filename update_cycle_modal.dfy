/**
 * The "Update Cycle" form: the values it starts from and the payload it
 * builds (src/app/dashboard/investments/components/UpdateCycleModal.tsx).
 * `new Date(s).toISOString()` is the parameter `toIso`.
 */
module UpdateCycleModal {
  import opened Options
  import opened Text
  import opened Cycles

  /** The form's values; every field of the zod schema is optional. */
  datatype UpdateForm = UpdateForm(
    name: Option<string>,
    totalDeposit: Option<real>,
    totalProfit: Option<real>,
    isInvested: Option<bool>,
    distributed: Option<bool>,
    endDate: Option<string>)

  /** `x || 0` on a number: 0 stays 0, anything else is kept. */
  function OrZero(x: real): (r: real)
    ensures r == x
  {
    if x != 0.0 then x else 0.0
  }

  /** `defaultValues`: the form as it opens for cycle `c`. */
  function DefaultValues(c: Cycle): (f: UpdateForm)
    ensures f.name == Some(c.name.GetOr(""))
    ensures f.totalDeposit == Some(c.totalDeposit) && f.totalProfit == Some(c.totalProfit)
    ensures f.isInvested == Some(c.isInvested) && f.distributed == Some(c.distributed)
    ensures !Truthy(c.endDate) ==> f.endDate == Some("")
    ensures Truthy(c.endDate) ==>
      && f.endDate.Some?
      && var d := f.endDate.value;
      && |d| <= |c.endDate.value|
      && d == c.endDate.value[..|d|]
      && 'T' !in d
      && (|d| < |c.endDate.value| ==> c.endDate.value[|d|] == 'T')
  {
    UpdateForm(
      Some(if Truthy(c.name) then c.name.value else ""),
      Some(OrZero(c.totalDeposit)),
      Some(OrZero(c.totalProfit)),
      Some(c.isInvested),
      Some(c.distributed),
      Some(if Truthy(c.endDate) then BeforeFirst(c.endDate.value, 'T') else ""))
  }

  /** `data.name?.trim() || undefined`. */
  function PayloadName(name: Option<string>): (r: Option<string>)
    ensures r.None? <==> name.None? || Trim(name.value) == ""
    ensures r.Some? ==> r.value == Trim(name.value) && r.value != ""
  {
    if name.Some? && Trim(name.value) != "" then Some(Trim(name.value)) else None
  }

  /** `handleFormSubmit`: the payload sent for the edited form. */
  function BuildPayload(form: UpdateForm, toIso: string -> string): (p: UpdatePayload)
    ensures p.name == PayloadName(form.name)
    ensures p.totalDeposit == form.totalDeposit && p.totalProfit == form.totalProfit
    ensures p.isInvested == Some(form.isInvested.GetOr(false))
    ensures p.distributed == Some(form.distributed.GetOr(false))
    ensures Truthy(form.endDate) ==> p.endDate == Some(toIso(form.endDate.value))
    ensures !Truthy(form.endDate) ==> p.endDate == None
  {
    UpdatePayload(
      PayloadName(form.name),
      form.totalDeposit,
      form.totalProfit,
      Some(form.isInvested.GetOr(false)),
      Some(form.distributed.GetOr(false)),
      if Truthy(form.endDate) then Some(toIso(form.endDate.value)) else None)
  }

  /** A name of only whitespace is not sent, so the update leaves the name alone. */
  lemma BlankNameNotSent(form: UpdateForm, toIso: string -> string)
    requires form.name.Some?
    requires forall k :: 0 <= k < |form.name.value| ==> IsWhitespace(form.name.value[k])
    ensures BuildPayload(form, toIso).name == None
  {
    TrimEmptyIff(form.name.value);
  }

  /**
   * Submitting the form as it opened resends the cycle's own deposit,
   * profit and flags, and its end date cut to the day: an unedited update
   * does not move the cycle through its life cycle.
   */
  lemma UnchangedFormKeepsState(c: Cycle, toIso: string -> string)
    ensures var p := BuildPayload(DefaultValues(c), toIso);
      && p.totalDeposit == Some(c.totalDeposit)
      && p.totalProfit == Some(c.totalProfit)
      && p.isInvested == Some(c.isInvested)
      && p.distributed == Some(c.distributed)
      && (!Truthy(c.endDate) ==> p.endDate == None)
      && (Truthy(c.endDate) && c.endDate.value[0] != 'T' ==>
            p.endDate == Some(toIso(BeforeFirst(c.endDate.value, 'T'))))
  {
  }

  /** The name field reaches the payload trimmed, and trimming it again changes nothing. */
  lemma PayloadNameIsTrimmed(name: Option<string>)
    ensures PayloadName(name).Some? ==> Trim(PayloadName(name).value) == PayloadName(name).value
  {
    if name.Some? {
      TrimIdempotent(name.value);
    }
  }

  /** The form can send "distributed" without "invested": nothing here keeps the two consistent. */
  lemma FlagsSentIndependently(toIso: string -> string)
    ensures var p := BuildPayload(UpdateForm(None, None, None, Some(false), Some(true), None), toIso);
      p.isInvested == Some(false) && p.distributed == Some(true)
  {
  }
}
