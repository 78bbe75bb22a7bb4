/**
 * The "Create Investment Cycle" form: its validation schema and the
 * payload it hands to the page
 * (src/app/dashboard/investments/components/CreateCycleModal.tsx).
 * `new Date(s).toISOString()` is the parameter `toIso`; the clock reading
 * `new Date().toISOString()` is the parameter `nowIso`.
 */
module CreateCycleModal {
  import opened Options
  import opened Cycles

  /** The form's values: the name box and the two optional date inputs. */
  datatype CreateForm = CreateForm(name: string, startDate: Option<string>, endDate: Option<string>)

  const NameRequired: string := "Name is required"

  /** What submitting the form does: show a field error, or call `onSubmit` with a payload. */
  datatype Submission = Rejected(nameError: string) | Submitted(payload: CreatePayload)

  /** The zod schema: a name of at least one character; both dates optional. */
  predicate SchemaAccepts(form: CreateForm)
  {
    |form.name| >= 1
  }

  /** `handleFormSubmit`: the payload built from a form the schema accepted. */
  function BuildPayload(form: CreateForm, toIso: string -> string, nowIso: string): (p: CreatePayload)
    ensures p.name == form.name
    ensures p.isInvested
    ensures Truthy(form.startDate) ==> p.startDate == Some(toIso(form.startDate.value))
    ensures !Truthy(form.startDate) ==> p.startDate == Some(nowIso)
    ensures Truthy(form.endDate) ==> p.endDate == Some(toIso(form.endDate.value))
    ensures !Truthy(form.endDate) ==> p.endDate == None
  {
    CreatePayload(
      form.name,
      Some(if Truthy(form.startDate) then toIso(form.startDate.value) else nowIso),
      if Truthy(form.endDate) then Some(toIso(form.endDate.value)) else None,
      true)
  }

  /** `handleSubmit(handleFormSubmit)`: the resolver runs first and stops an empty name. */
  function Submit(form: CreateForm, toIso: string -> string, nowIso: string): (r: Submission)
    ensures r.Rejected? <==> form.name == ""
    ensures r.Rejected? ==> r.nameError == NameRequired
    ensures r.Submitted? ==> r.payload == BuildPayload(form, toIso, nowIso)
  {
    if SchemaAccepts(form) then Submitted(BuildPayload(form, toIso, nowIso)) else Rejected(NameRequired)
  }

  /**
   * What the server is asked to store: the name exactly as typed (spaces
   * included), a start date always, and the cycle already marked invested.
   */
  lemma SubmittedPayloadShape(form: CreateForm, toIso: string -> string, nowIso: string)
    requires form.name != ""
    ensures Submit(form, toIso, nowIso).Submitted?
    ensures var p := Submit(form, toIso, nowIso).payload;
      p.name == form.name && p.startDate.Some? && p.isInvested
  {
  }

  /** A name of only spaces passes the schema: the length test does not trim. */
  lemma BlankNameAccepted(toIso: string -> string, nowIso: string)
    ensures Submit(CreateForm("  ", None, None), toIso, nowIso) ==
      Submitted(CreatePayload("  ", Some(nowIso), None, true))
  {
  }
}
