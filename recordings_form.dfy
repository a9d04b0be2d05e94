/** The recording editor: the multi-select toggle for genres, hosts and guests, the MP3 check
    and the hex form of the file digest used by the upload, the prefill from load-for-edit, the
    required-field check, and the submit that saves through the form actions and resets the
    form only when the save succeeded. */
module RecordingsForm {
  import opened Results
  import opened Seqs
  import opened Schema
  import opened Store
  import opened Database
  import opened FormActions
  import opened Text

  // ---------------------------------------------------------------------------
  // The multi-select toggle
  // ---------------------------------------------------------------------------

  function Other(value: Id): Id -> bool
  {
    (x: Id) => x != value
  }

  /** `list.includes(value) ? list.filter((id) => id !== value) : [...list, value]` */
  function Toggle(list: seq<Id>, value: Id): seq<Id>
  {
    if value in list then Filter(list, Other(value)) else list + [value]
  }

  /** Toggling flips the membership of the value and of nothing else. */
  lemma ToggleMembership(list: seq<Id>, value: Id)
    ensures value in Toggle(list, value) <==> value !in list
    ensures forall x :: x != value ==> (x in Toggle(list, value) <==> x in list)
  {
  }

  /** The other ids keep their order: without the value, the list is the same before and after. */
  lemma ToggleKeepsOthers(list: seq<Id>, value: Id)
    ensures Filter(Toggle(list, value), Other(value)) == Filter(list, Other(value))
  {
    if value in list {
      FilterFilter(list, Other(value), Other(value));
    } else {
      FilterDistributes(list, [value], Other(value));
      assert Filter([value], Other(value)) == [];
    }
  }

  /** An absent value is appended at the end; toggling it again restores the list. */
  lemma ToggleTwiceAbsent(list: seq<Id>, value: Id)
    requires value !in list
    ensures Toggle(list, value) == list + [value]
    ensures Toggle(Toggle(list, value), value) == list
  {
    FilterDistributes(list, [value], Other(value));
    assert Filter([value], Other(value)) == [];
    FilterAll(list, Other(value));
  }

  /** A list without repeats stays without repeats. */
  lemma ToggleKeepsNoRepeats(list: seq<Id>, value: Id)
    requires NoRepeats(list)
    ensures NoRepeats(Toggle(list, value))
  {
    if value in list {
      FilterKeepsNoRepeats(list, Other(value));
    } else {
      NoRepeatsAppend(list, [value]);
    }
  }

  /** The three multi-select fields of the form. */
  datatype MultiField = GenreIds | Hosts | Guests

  // ---------------------------------------------------------------------------
  // The upload checks
  // ---------------------------------------------------------------------------

  /** The file is taken when its type mentions "audio/mpeg" or its lower-cased name ends in ".mp3". */
  predicate IsMp3(fileType: string, fileName: string)
  {
    Contains(fileType, "audio/mpeg") || EndsWith(AsciiLower(fileName), ".mp3")
  }

  /** When the type does not mention MP3, the name decides, in any mix of letter case. */
  lemma IsMp3ByName(fileType: string, fileName: string)
    requires !Contains(fileType, "audio/mpeg")
    ensures IsMp3(fileType, fileName) <==>
      var n := |fileName|;
      n >= 4 && fileName[n - 4] == '.' && fileName[n - 3] in "mM" && fileName[n - 2] in "pP"
      && fileName[n - 1] == '3'
  {
    var n := |fileName|;
    if n >= 4 {
      var l := AsciiLower(fileName);
      assert l[n - 4..] == [l[n - 4], l[n - 3], l[n - 2], l[n - 1]];
    }
  }

  /** A type that mentions "audio/mpeg" is enough, whatever the name. */
  lemma IsMp3ByType(fileType: string, fileName: string, i: nat)
    requires OccursAt(fileType, "audio/mpeg", i)
    ensures IsMp3(fileType, fileName)
  {
    ContainsIff(fileType, "audio/mpeg");
  }

  type Byte = b: int | 0 <= b < 256

  predicate IsLowerHex(c: char) { '0' <= c <= '9' || 'a' <= c <= 'f' }

  function HexDigit(n: nat): char
    requires n < 16
  {
    if n < 10 then ('0' as int + n) as char else ('a' as int + n - 10) as char
  }

  /** `n.toString(16)` */
  function ToHex(n: nat): string
  {
    if n < 16 then [HexDigit(n)] else ToHex(n / 16) + [HexDigit(n % 16)]
  }

  /** `b.toString(16).padStart(2, "0")` */
  function ByteToHex(b: Byte): string
  {
    PadStart2(ToHex(b))
  }

  /** `[...bytes].map(ByteToHex).join("")` */
  function HexEncode(bytes: seq<Byte>): string
  {
    if bytes == [] then "" else ByteToHex(bytes[0]) + HexEncode(bytes[1..])
  }

  /** Every byte becomes its high and its low hex digit. */
  lemma ByteToHexDigits(b: Byte)
    ensures ByteToHex(b) == [HexDigit(b / 16), HexDigit(b % 16)]
  {
    if b >= 16 {
      assert ToHex(b / 16) == [HexDigit(b / 16)];
    }
  }

  /** Two characters per byte, all of them lower-case hex digits. */
  lemma {:induction false} HexEncodeShape(bytes: seq<Byte>)
    ensures |HexEncode(bytes)| == 2 * |bytes|
    ensures forall i :: 0 <= i < |HexEncode(bytes)| ==> IsLowerHex(HexEncode(bytes)[i])
  {
    if bytes != [] {
      ByteToHexDigits(bytes[0]);
      HexEncodeShape(bytes[1..]);
      var h := ByteToHex(bytes[0]);
      var rest := HexEncode(bytes[1..]);
      assert HexEncode(bytes) == h + rest;
      assert forall i :: 2 <= i < |h + rest| ==> (h + rest)[i] == rest[i - 2];
    }
  }

  function HexValue(c: char): nat
    requires IsLowerHex(c)
  {
    if c <= '9' then c as int - '0' as int else c as int - 'a' as int + 10
  }

  /** Reads pairs of hex digits back into bytes. */
  function HexDecode(s: string): seq<Byte>
    requires |s| % 2 == 0 && forall i :: 0 <= i < |s| ==> IsLowerHex(s[i])
  {
    if s == [] then [] else [HexValue(s[0]) * 16 + HexValue(s[1])] + HexDecode(s[2..])
  }

  /** The hex text gives the bytes back, so different digests have different hex forms. */
  lemma {:induction false} HexDecodeEncode(bytes: seq<Byte>)
    ensures |HexEncode(bytes)| % 2 == 0
    ensures forall i :: 0 <= i < |HexEncode(bytes)| ==> IsLowerHex(HexEncode(bytes)[i])
    ensures HexDecode(HexEncode(bytes)) == bytes
  {
    HexEncodeShape(bytes);
    if bytes != [] {
      var b := bytes[0];
      ByteToHexDigits(b);
      HexDecodeEncode(bytes[1..]);
      var s := HexEncode(bytes);
      assert s == [HexDigit(b / 16), HexDigit(b % 16)] + HexEncode(bytes[1..]);
      assert s[2..] == HexEncode(bytes[1..]);
      assert HexValue(s[0]) == b / 16 && HexValue(s[1]) == b % 16;
    }
  }

  lemma HexEncodeInjective(a: seq<Byte>, b: seq<Byte>)
    requires HexEncode(a) == HexEncode(b)
    ensures a == b
  {
    HexDecodeEncode(a);
    HexDecodeEncode(b);
  }

  // ---------------------------------------------------------------------------
  // The form's values
  // ---------------------------------------------------------------------------

  /** The empty form; `now` is the `new Date()` it is created with. */
  function EmptyForm(now: int): RecordingFormData
  {
    RecordingFormData("", "", Some(""), Live, now, None, Published, Some(""), [], [], [], "")
  }

  /** Submit is refused while a required field is empty. The release date is a `Date` object,
      which is never falsy, so its part of the check never refuses. */
  predicate MissingRequired(f: RecordingFormData)
  {
    f.programId == "" || f.episodeTitle == "" || f.fileUrl == ""
  }

  /** The form filled from load-for-edit: NULL text becomes "", a NULL or zero duration becomes
      `undefined`, the link ids are copied. */
  function FormFromEdit(e: EditData): RecordingFormData
  {
    var v := e.recording.values;
    RecordingFormData(v.programId, v.episodeTitle, Some(OrEmpty(v.description)), v.kind, v.releaseDate,
      NumberOrNull(v.duration), v.status, Some(OrEmpty(v.keywords)), e.genreIds, e.hosts, e.guests,
      v.fileUrl)
  }

  /** The optional columns hold no "" and no 0, which the form actions always store as NULL. */
  predicate StoredNormally(v: RecordingValues)
  {
    v.description != Some("") && v.duration != Some(0) && v.keywords != Some("")
  }

  /** Every row the form actions write is stored normally. */
  lemma ValuesOfStoredNormally(f: RecordingFormData)
    ensures StoredNormally(ValuesOf(f))
  {
  }

  /** Opening a stored row in the editor and saving it unchanged writes the same column values
      and the same links back. */
  lemma EditRoundTrip(e: EditData)
    requires StoredNormally(e.recording.values)
    ensures ValuesOf(FormFromEdit(e)) == e.recording.values
    ensures FormFromEdit(e).genreIds == e.genreIds && FormFromEdit(e).hosts == e.hosts
    ensures FormFromEdit(e).guests == e.guests
  {
  }

  /** What a submit ended in. */
  datatype SubmitOutcome = Refused | Saved | NotSaved(error: string)

  /** The upload's result, from outside the model: the stored file's id and the probed duration. */
  datatype Uploaded = Uploaded(fileId: string, duration: int)

  /** The editor's state: the form, the id being edited and whether the editor is open (the last
      two belong to the list page and are passed in as setters). */
  class RecordingEditor {
    var formData: RecordingFormData
    var editingId: Option<Id>
    var isCreating: bool

    constructor (editingId: Option<Id>, now: int)
      ensures formData == EmptyForm(now) && this.editingId == editingId && isCreating
    {
      formData := EmptyForm(now);
      this.editingId := editingId;
      isCreating := true;
    }

    /** `loadRecording`: when editing, the form takes the loaded recording; a failure leaves it. */
    method LoadRecording(db: Db, faults: seq<Option<Thrown>>)
      modifies this
      ensures editingId == old(editingId) && isCreating == old(isCreating)
      ensures formData ==
        if Truthy(editingId) && LoadForEdit(db.Snapshot(), editingId.value, faults).Success?
        then FormFromEdit(LoadForEdit(db.Snapshot(), editingId.value, faults).data)
        else old(formData)
    {
      if !Truthy(editingId) {
        return;
      }
      var r := GetRecordingForForm(db, editingId.value, faults);
      if r.Success? {
        formData := FormFromEdit(r.data);
      }
    }

    /** `handleMultiSelect` */
    method HandleMultiSelect(field: MultiField, value: Id)
      modifies this
      ensures editingId == old(editingId) && isCreating == old(isCreating)
      ensures formData == match field
        case GenreIds => old(formData).(genreIds := Toggle(old(formData).genreIds, value))
        case Hosts => old(formData).(hosts := Toggle(old(formData).hosts, value))
        case Guests => old(formData).(guests := Toggle(old(formData).guests, value))
    {
      match field
      case GenreIds => formData := formData.(genreIds := Toggle(formData.genreIds, value));
      case Hosts => formData := formData.(hosts := Toggle(formData.hosts, value));
      case Guests => formData := formData.(guests := Toggle(formData.guests, value));
    }

    /** `handleFileUpload`: a file that is not MP3 is refused; otherwise `upload` is what the
        upload returned (`None` when it threw), and a stored file sets the file id and duration. */
    method HandleFileUpload(fileType: string, fileName: string, upload: Option<Uploaded>)
      returns (fileId: Option<string>)
      modifies this
      ensures editingId == old(editingId) && isCreating == old(isCreating)
      ensures fileId.Some? <==> IsMp3(fileType, fileName) && upload.Some?
      ensures fileId.Some? ==>
        fileId.value == upload.value.fileId
        && formData == old(formData).(fileUrl := upload.value.fileId, duration := Some(upload.value.duration))
      ensures fileId.None? ==> formData == old(formData)
    {
      if !IsMp3(fileType, fileName) {
        return None;
      }
      if upload.None? {
        return None;
      }
      formData := formData.(fileUrl := upload.value.fileId, duration := Some(upload.value.duration));
      return Some(upload.value.fileId);
    }

    /** `handleSubmit`: refuses an incomplete form; otherwise updates the recording being edited
        or creates one with id `newId`, and on success clears the form (to a fresh date `now`)
        and closes the editor. */
    method HandleSubmit(db: Db, newId: Id, now: int, faults: seq<Option<Thrown>>) returns (o: SubmitOutcome)
      modifies this, db
      ensures MissingRequired(old(formData)) ==> o == Refused && db.Snapshot() == old(db.Snapshot())
      ensures !MissingRequired(old(formData)) && Truthy(old(editingId)) ==>
        var u := Update(old(db.Snapshot()), old(editingId).value, old(formData), faults);
        db.Snapshot() == u.tables && o == (if u.result.Success? then Saved else NotSaved(u.result.error))
      ensures !MissingRequired(old(formData)) && !Truthy(old(editingId)) ==>
        var c := Create(old(db.Snapshot()), old(formData), newId, faults);
        db.Snapshot() == c.tables && o == (if c.result.Success? then Saved else NotSaved(c.result.error))
      ensures o == Saved ==> formData == EmptyForm(now) && !Truthy(editingId) && !isCreating
      ensures o != Saved ==>
        formData == old(formData) && editingId == old(editingId) && isCreating == old(isCreating)
      ensures old(db.Valid()) ==> db.Valid()
    {
      if MissingRequired(formData) {
        return Refused;
      }
      if Truthy(editingId) {
        var r := UpdateRecordingWithRelations(db, editingId.value, formData, faults);
        if r.Failure? {
          return NotSaved(r.error);
        }
        editingId := None;
        isCreating := false;
      } else {
        var r := CreateRecordingWithRelations(db, formData, newId, faults);
        if r.Failure? {
          return NotSaved(r.error);
        }
        isCreating := false;
      }
      formData := EmptyForm(now);
      return Saved;
    }

    /** `handleCancel` */
    method HandleCancel(now: int)
      modifies this
      ensures formData == EmptyForm(now) && editingId == None && !isCreating
    {
      isCreating := false;
      editingId := None;
      formData := EmptyForm(now);
    }
  }
}
