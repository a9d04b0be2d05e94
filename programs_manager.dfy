/** The program editor: the request its submit sends (an entered slug, or one derived from the
    name; empty optional fields as `null` on update and `undefined` on create), the prefill of
    the form from a stored program, and the form state after submit, edit and cancel. */
module ProgramsManager {
  import opened Results
  import opened Schema
  import opened Text
  import opened Slug

  /** The form's fields, all plain text as the inputs hold them. */
  datatype ProgramForm = ProgramForm(name: string, description: string, hostId: string, slug: string)

  const EmptyProgramForm := ProgramForm("", "", "", "")

  /** What `createProgram` or `updateProgram` is given. */
  datatype ProgramPayload = ProgramPayload(name: string, description: Field<string>, hostId: Field<Id>, slug: string)

  datatype ProgramRequest = UpdateProgram(id: Id, payload: ProgramPayload) | CreateProgram(payload: ProgramPayload)

  /** `slug || generateSlug(name)` */
  function SlugOrGenerated(slug: string, name: string): string
  {
    if slug != "" then slug else GenerateSlug(name, DefaultMaxLength)
  }

  function UpdatePayload(f: ProgramForm): ProgramPayload
  {
    ProgramPayload(f.name, NullIfEmpty(f.description), NullIfEmpty(f.hostId), SlugOrGenerated(f.slug, f.name))
  }

  function CreatePayload(f: ProgramForm): ProgramPayload
  {
    ProgramPayload(f.name, UndefinedIfEmpty(f.description), UndefinedIfEmpty(f.hostId), SlugOrGenerated(f.slug, f.name))
  }

  /** An entered slug is sent as it is, even one `generateSlug` would never produce. */
  lemma EnteredSlugVerbatim(f: ProgramForm)
    requires f.slug != ""
    ensures UpdatePayload(f).slug == f.slug && CreatePayload(f).slug == f.slug
  {
  }

  lemma EnteredSlugNotSanitised()
    ensures UpdatePayload(ProgramForm("Эфир", "", "", "Эфир №1")).slug == "Эфир №1"
    ensures !WellFormed("Эфир №1")
  {
    assert !IsSlugChar("Эфир №1"[0]);
  }

  /** Without an entered slug, the slug sent is derived from the name and has the slug shape. */
  lemma DerivedSlug(f: ProgramForm)
    requires f.slug == ""
    ensures UpdatePayload(f).slug == GenerateSlug(f.name, DefaultMaxLength)
    ensures CreatePayload(f).slug == UpdatePayload(f).slug
    ensures WellFormed(UpdatePayload(f).slug) && |UpdatePayload(f).slug| <= DefaultMaxLength
  {
    SlugIsWellFormed(f.name, DefaultMaxLength);
    SlugLength(f.name, DefaultMaxLength);
  }

  /** An empty description or host is `null` in an update and `undefined` in a create; any other
      text is sent as it is, and both requests agree on the name and the slug. */
  lemma EmptyFieldsMapping(f: ProgramForm)
    ensures UpdatePayload(f).description == (if f.description == "" then Null else Value(f.description))
    ensures CreatePayload(f).description == (if f.description == "" then Undefined else Value(f.description))
    ensures UpdatePayload(f).hostId == (if f.hostId == "" then Null else Value(f.hostId))
    ensures CreatePayload(f).hostId == (if f.hostId == "" then Undefined else Value(f.hostId))
    ensures UpdatePayload(f).name == CreatePayload(f).name == f.name
  {
  }

  /** `handleEdit`: NULL columns become "", an empty slug is derived from the name. */
  function Prefill(p: Program): ProgramForm
  {
    ProgramForm(p.name, OrEmpty(p.description), OrEmpty(p.hostId), SlugOrGenerated(p.slug, p.name))
  }

  /** A stored optional column as a request field: NULL stays `null`. */
  function FieldOf(s: Option<string>): Field<string>
  {
    if s.Some? then Value(s.value) else Null
  }

  /** Opening a program and saving it unchanged sends its own columns back, with an empty slug
      replaced by the derived one. The empty text "" in an optional column is the one case that
      does not survive: it comes back as `null`. */
  lemma PrefillRoundTrip(p: Program)
    requires p.description != Some("") && p.hostId != Some("")
    ensures UpdatePayload(Prefill(p)) ==
      ProgramPayload(p.name, FieldOf(p.description), FieldOf(p.hostId), SlugOrGenerated(p.slug, p.name))
  {
  }

  /** For every stored program, what opening and saving it unchanged sends: an optional column
      comes back as its text unless it is NULL or "", which both come back as `null`. */
  lemma PrefillSaved(p: Program)
    ensures UpdatePayload(Prefill(p)).name == p.name
    ensures UpdatePayload(Prefill(p)).description ==
      (if p.description.Some? && p.description.value != "" then Value(p.description.value) else Null)
    ensures UpdatePayload(Prefill(p)).hostId ==
      (if p.hostId.Some? && p.hostId.value != "" then Value(p.hostId.value) else Null)
    ensures UpdatePayload(Prefill(p)).slug == SlugOrGenerated(p.slug, p.name)
  {
  }

  /** The program list page's editor state. */
  class ProgramEditor {
    var formData: ProgramForm
    var editingId: Option<Id>
    var isCreating: bool

    constructor ()
      ensures formData == EmptyProgramForm && editingId == None && !isCreating
    {
      formData := EmptyProgramForm;
      editingId := None;
      isCreating := false;
    }

    /** `handleSubmit`. The request is sent; `outcome` is how the call ended. After any call that
        returned, succeeded or not, the form is cleared; a success also closes the editor. */
    method HandleSubmit(outcome: CallOutcome) returns (sent: ProgramRequest)
      modifies this
      ensures sent == if Truthy(old(editingId)) then UpdateProgram(old(editingId).value, UpdatePayload(old(formData)))
                      else CreateProgram(CreatePayload(old(formData)))
      ensures outcome.Threw? ==>
        formData == old(formData) && editingId == old(editingId) && isCreating == old(isCreating)
      ensures !outcome.Threw? ==> formData == EmptyProgramForm
      ensures outcome.Failed? ==> editingId == old(editingId) && isCreating == old(isCreating)
      ensures outcome.Succeeded? ==> !isCreating && !Truthy(editingId)
    {
      if Truthy(editingId) {
        sent := UpdateProgram(editingId.value, UpdatePayload(formData));
        if outcome.Threw? {
          return;
        }
        if outcome.Succeeded? {
          editingId := None;
          isCreating := false;
        }
      } else {
        sent := CreateProgram(CreatePayload(formData));
        if outcome.Threw? {
          return;
        }
        if outcome.Succeeded? {
          isCreating := false;
        }
      }
      formData := EmptyProgramForm;
    }

    /** `handleEdit` */
    method HandleEdit(p: Program)
      modifies this
      ensures editingId == Some(p.id) && formData == Prefill(p) && isCreating
    {
      editingId := Some(p.id);
      formData := Prefill(p);
      isCreating := true;
    }

    /** `handleCancel` */
    method HandleCancel()
      modifies this
      ensures formData == EmptyProgramForm && editingId == None && !isCreating
    {
      isCreating := false;
      editingId := None;
      formData := EmptyProgramForm;
    }
  }
}
