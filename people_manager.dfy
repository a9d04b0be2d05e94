/** The people editor: the telegram handle loses one leading "@", an empty handle is sent as
    `null` on update and `undefined` on create, the profile link is "https://t.me/" and the
    handle, and the form state after submit, edit and cancel. */
module PeopleManager {
  import opened Results
  import opened Schema
  import opened Text

  datatype PersonForm = PersonForm(name: string, telegramAccount: string)

  const EmptyPersonForm := PersonForm("", "")

  datatype PersonPayload = PersonPayload(name: string, telegramAccount: Field<string>)

  datatype PersonRequest = UpdatePerson(id: Id, payload: PersonPayload) | CreatePerson(payload: PersonPayload)

  /** `replace(/^@/, "")`: one "@" at the start is removed. */
  function StripAt(handle: string): (r: string)
    ensures handle != [] && handle[0] == '@' ==> handle == "@" + r
    ensures handle == [] || handle[0] != '@' ==> r == handle
  {
    if handle != [] && handle[0] == '@' then handle[1..] else handle
  }

  /** Only the first character can go: "@@a" keeps one "@", and an "@" further in stays. */
  lemma StripAtOnlyFirst()
    ensures StripAt("@@a") == "@a"
    ensures StripAt("a@b") == "a@b"
  {
    assert "@@a"[1..] == "@a";
  }

  /** Stripping twice can remove a second "@"; stripping is idempotent on handles that do not
      start with "@@". */
  lemma StripAtIdempotent(handle: string)
    requires |handle| < 2 || handle[..2] != "@@"
    ensures StripAt(StripAt(handle)) == StripAt(handle)
  {
    if |handle| >= 2 && handle[0] == '@' {
      assert handle[..2] == [handle[0], handle[1]];
    }
  }

  function UpdatePayload(f: PersonForm): PersonPayload
  {
    PersonPayload(f.name, NullIfEmpty(StripAt(f.telegramAccount)))
  }

  function CreatePayload(f: PersonForm): PersonPayload
  {
    PersonPayload(f.name, UndefinedIfEmpty(StripAt(f.telegramAccount)))
  }

  /** An empty handle, or a bare "@", is `null` in an update and `undefined` in a create. */
  lemma EmptyHandle(f: PersonForm)
    requires f.telegramAccount == "" || f.telegramAccount == "@"
    ensures UpdatePayload(f).telegramAccount == Null
    ensures CreatePayload(f).telegramAccount == Undefined
  {
  }

  /** Any other handle is sent without its leading "@", the same way by both requests. */
  lemma HandleSent(f: PersonForm)
    requires StripAt(f.telegramAccount) != ""
    ensures UpdatePayload(f).telegramAccount == CreatePayload(f).telegramAccount
      == Value(StripAt(f.telegramAccount))
    ensures "@" + StripAt(f.telegramAccount) == f.telegramAccount
         || StripAt(f.telegramAccount) == f.telegramAccount
  {
  }

  const TelegramPrefix := "https://t.me/"

  /** `getTelegramUrl` */
  function TelegramUrl(username: string): (url: string)
    ensures StartsWith(url, TelegramPrefix) && url[|TelegramPrefix|..] == username
  {
    TelegramPrefix + username
  }

  /** `handleEdit`: a NULL handle becomes "". */
  function Prefill(p: Person): PersonForm
  {
    PersonForm(p.name, OrEmpty(p.telegramAccount))
  }

  /** Opening a person and saving unchanged sends the stored handle back, when it has no leading
      "@" and is not ""; NULL comes back as `null`. */
  lemma PrefillRoundTrip(p: Person)
    requires p.telegramAccount.Some? ==> p.telegramAccount.value != "" && p.telegramAccount.value[0] != '@'
    ensures UpdatePayload(Prefill(p)) ==
      PersonPayload(p.name, if p.telegramAccount.Some? then Value(p.telegramAccount.value) else Null)
  {
  }

  /** For every stored person, what opening and saving unchanged sends: the stored handle without
      one leading "@", or `null` when that leaves nothing or the column is NULL. A stored "@a" is
      sent as "a". */
  lemma PrefillSaved(p: Person)
    ensures UpdatePayload(Prefill(p)).name == p.name
    ensures UpdatePayload(Prefill(p)).telegramAccount ==
      (if p.telegramAccount.Some? && StripAt(p.telegramAccount.value) != "" then Value(StripAt(p.telegramAccount.value)) else Null)
  {
  }

  /** The people page's editor state. */
  class PersonEditor {
    var formData: PersonForm
    var editingId: Option<Id>
    var isCreating: bool

    constructor ()
      ensures formData == EmptyPersonForm && editingId == None && !isCreating
    {
      formData := EmptyPersonForm;
      editingId := None;
      isCreating := false;
    }

    /** `handleSubmit`. After any call that returned, succeeded or not, the form is cleared; a
        success also closes the editor. */
    method HandleSubmit(outcome: CallOutcome) returns (sent: PersonRequest)
      modifies this
      ensures sent == if Truthy(old(editingId)) then UpdatePerson(old(editingId).value, UpdatePayload(old(formData)))
                      else CreatePerson(CreatePayload(old(formData)))
      ensures outcome.Threw? ==>
        formData == old(formData) && editingId == old(editingId) && isCreating == old(isCreating)
      ensures !outcome.Threw? ==> formData == EmptyPersonForm
      ensures outcome.Failed? ==> editingId == old(editingId) && isCreating == old(isCreating)
      ensures outcome.Succeeded? ==> !isCreating && !Truthy(editingId)
    {
      if Truthy(editingId) {
        sent := UpdatePerson(editingId.value, UpdatePayload(formData));
        if outcome.Threw? {
          return;
        }
        if outcome.Succeeded? {
          editingId := None;
          isCreating := false;
        }
      } else {
        sent := CreatePerson(CreatePayload(formData));
        if outcome.Threw? {
          return;
        }
        if outcome.Succeeded? {
          isCreating := false;
        }
      }
      formData := EmptyPersonForm;
    }

    /** `handleEdit` */
    method HandleEdit(p: Person)
      modifies this
      ensures editingId == Some(p.id) && formData == Prefill(p) && isCreating
    {
      editingId := Some(p.id);
      formData := Prefill(p);
      isCreating := true;
    }

    /** `handleCancel` */
    method HandleCancel()
      modifies this
      ensures formData == EmptyPersonForm && editingId == None && !isCreating
    {
      isCreating := false;
      editingId := None;
      formData := EmptyPersonForm;
    }
  }
}
