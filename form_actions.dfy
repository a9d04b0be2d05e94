/** The recording form's server actions: create, update, load-for-edit and delete of a recording
    together with its genre and person links. Each action runs its statements one after another with
    no transaction around them, so a statement that throws leaves the earlier ones in place; every
    exception becomes a failure result. `Create`, `Update`, `LoadForEdit` and `Delete` say what an
    action does to the tables and returns; the methods at the end perform the same steps on a
    `Database.Db`. `faults[k]` is what the k-th statement of an action throws for reasons outside
    the model (a lost connection, a full disk), if anything. */
module FormActions {
  import opened Results
  import opened Seqs
  import opened Schema
  import opened Store
  import opened Database

  const PersonInBothRoles: string := "человек не может быть одновременно ведущим и гостем"
  const CreateFailed: string := "не удалось создать запись"
  const UpdateFailed: string := "не удалось обновить запись"
  const RecordingNotFound: string := "запись не найдена"
  const LoadFailed: string := "не удалось загрузить запись"
  const DeleteFailed: string := "не удалось удалить запись"

  /** What the recording form submits; the optional fields may be absent. */
  datatype RecordingFormData = RecordingFormData(
    programId: Id,
    episodeTitle: string,
    description: Option<string>,
    kind: RecordingType,
    releaseDate: int,
    duration: Option<int>,
    status: Status,
    keywords: Option<string>,
    genreIds: seq<Id>,
    hosts: seq<Id>,
    guests: seq<Id>,
    fileUrl: string)

  /** What load-for-edit returns: the row and the ids of its links. */
  datatype EditData = EditData(recording: Recording, genreIds: seq<Id>, hosts: seq<Id>, guests: seq<Id>)

  function FaultAt(faults: seq<Option<Thrown>>, k: nat): Option<Thrown>
  {
    if k < |faults| then faults[k] else None
  }

  /** `s || null` on an optional text field: absent and empty are both stored as NULL. */
  function TextOrNull(s: Option<string>): (r: Option<string>)
    ensures r.None? <==> s.None? || s.value == ""
    ensures r.Some? ==> r == s
  {
    if s.Some? && s.value != "" then s else None
  }

  /** `n || null` on an optional number: absent and zero are both stored as NULL. */
  function NumberOrNull(n: Option<int>): (r: Option<int>)
    ensures r.None? <==> n.None? || n.value == 0
    ensures r.Some? ==> r == n
  {
    if n.Some? && n.value != 0 then n else None
  }

  /** The column values the form writes. */
  function ValuesOf(f: RecordingFormData): RecordingValues
  {
    RecordingValues(f.programId, f.episodeTitle, TextOrNull(f.description), f.kind, f.releaseDate,
                    NumberOrNull(f.duration), f.status, TextOrNull(f.keywords), f.fileUrl)
  }

  /** The host/guest check as written: the list of all people is longer than the set of them. */
  predicate PeopleRepeat(f: RecordingFormData)
  {
    var all := f.hosts + f.guests;
    |all| != |set p | p in all|
  }

  function GenreRows(recordingId: Id, genreIds: seq<Id>): (rows: seq<RecordingGenre>)
    ensures |rows| == |genreIds|
    ensures forall i :: 0 <= i < |rows| ==> rows[i] == RecordingGenre(recordingId, genreIds[i])
    ensures GenreIdsIn(rows) == genreIds
  {
    seq(|genreIds|, i requires 0 <= i < |genreIds| => RecordingGenre(recordingId, genreIds[i]))
  }

  function PersonRows(recordingId: Id, personIds: seq<Id>, role: Role): (rows: seq<RecordingPerson>)
    ensures |rows| == |personIds|
    ensures forall i :: 0 <= i < |rows| ==> rows[i] == RecordingPerson(recordingId, personIds[i], role)
    ensures PersonIdsIn(rows) == personIds
  {
    seq(|personIds|, i requires 0 <= i < |personIds| => RecordingPerson(recordingId, personIds[i], role))
  }

  /** The junction inserts are issued only for a non-empty list. */
  function InsertGenreLinksIfAny(t: Tables, rows: seq<RecordingGenre>, fault: Option<Thrown>): Exec
  {
    if |rows| == 0 then Done(t) else InsertGenreLinks(t, rows, fault)
  }

  function InsertPersonLinksIfAny(t: Tables, rows: seq<RecordingPerson>, fault: Option<Thrown>): Exec
  {
    if |rows| == 0 then Done(t) else InsertPersonLinks(t, rows, fault)
  }

  // ---------------------------------------------------------------------------
  // The actions
  // ---------------------------------------------------------------------------

  /** `createRecordingWithRelations`; `newId` is the key the row's default generates. */
  function Create(t: Tables, f: RecordingFormData, newId: Id, faults: seq<Option<Thrown>>): Outcome<Id>
  {
    if PeopleRepeat(f) then Outcome(t, Failure(PersonInBothRoles))
    else
      var e0 := InsertRecording(t, Recording(newId, ValuesOf(f)), FaultAt(faults, 0));
      if e0.Raised? then Outcome(t, Caught(e0.thrown, CreateFailed))
      else
        var e1 := InsertGenreLinksIfAny(e0.tables, GenreRows(newId, f.genreIds), FaultAt(faults, 1));
        if e1.Raised? then Outcome(e0.tables, Caught(e1.thrown, CreateFailed))
        else
          var e2 := InsertPersonLinksIfAny(e1.tables, PersonRows(newId, f.hosts, Host), FaultAt(faults, 2));
          if e2.Raised? then Outcome(e1.tables, Caught(e2.thrown, CreateFailed))
          else
            var e3 := InsertPersonLinksIfAny(e2.tables, PersonRows(newId, f.guests, Guest), FaultAt(faults, 3));
            if e3.Raised? then Outcome(e2.tables, Caught(e3.thrown, CreateFailed))
            else Outcome(e3.tables, Success(newId))
  }

  /** `updateRecordingWithRelations` */
  function Update(t: Tables, id: Id, f: RecordingFormData, faults: seq<Option<Thrown>>): Outcome<()>
  {
    if PeopleRepeat(f) then Outcome(t, Failure(PersonInBothRoles))
    else
      var e0 := UpdateRecording(t, id, ValuesOf(f), FaultAt(faults, 0));
      if e0.Raised? then Outcome(t, Caught(e0.thrown, UpdateFailed))
      else
        var e1 := DeleteGenreLinksOf(e0.tables, id, FaultAt(faults, 1));
        if e1.Raised? then Outcome(e0.tables, Caught(e1.thrown, UpdateFailed))
        else
          var e2 := DeletePersonLinksOf(e1.tables, id, FaultAt(faults, 2));
          if e2.Raised? then Outcome(e1.tables, Caught(e2.thrown, UpdateFailed))
          else
            var e3 := InsertGenreLinksIfAny(e2.tables, GenreRows(id, f.genreIds), FaultAt(faults, 3));
            if e3.Raised? then Outcome(e2.tables, Caught(e3.thrown, UpdateFailed))
            else
              var e4 := InsertPersonLinksIfAny(e3.tables, PersonRows(id, f.hosts, Host), FaultAt(faults, 4));
              if e4.Raised? then Outcome(e3.tables, Caught(e4.thrown, UpdateFailed))
              else
                var e5 := InsertPersonLinksIfAny(e4.tables, PersonRows(id, f.guests, Guest), FaultAt(faults, 5));
                if e5.Raised? then Outcome(e4.tables, Caught(e5.thrown, UpdateFailed))
                else Outcome(e5.tables, Success(()))
  }

  /** `getRecordingForForm`: three selects, nothing written. */
  function LoadForEdit(t: Tables, id: Id, faults: seq<Option<Thrown>>): ActionResult<EditData>
  {
    if FaultAt(faults, 0).Some? then Caught(FaultAt(faults, 0).value, LoadFailed)
    else match FindRecording(t.recordings, id)
      case None => Failure(RecordingNotFound)
      case Some(r) =>
        if FaultAt(faults, 1).Some? then Caught(FaultAt(faults, 1).value, LoadFailed)
        else if FaultAt(faults, 2).Some? then Caught(FaultAt(faults, 2).value, LoadFailed)
        else Success(EditData(r, GenreIdsOf(t.recordingGenres, id),
                              PersonIdsWithRole(t.recordingPeople, id, Host),
                              PersonIdsWithRole(t.recordingPeople, id, Guest)))
  }

  /** `deleteRecordingWithRelations`: one delete; the links go by cascade. */
  function Delete(t: Tables, id: Id, fault: Option<Thrown>): Outcome<()>
  {
    Finish(t, DeleteRecording(t, id, fault), (), DeleteFailed)
  }

  // ---------------------------------------------------------------------------
  // Helpers about the rows the actions write
  // ---------------------------------------------------------------------------

  lemma GenreRowsMembers(recordingId: Id, genreIds: seq<Id>)
    ensures forall l :: l in GenreRows(recordingId, genreIds) <==> l.recordingId == recordingId && l.genreId in genreIds
  {
    var rows := GenreRows(recordingId, genreIds);
    forall l: RecordingGenre | l.recordingId == recordingId && l.genreId in genreIds ensures l in rows {
      var i :| 0 <= i < |genreIds| && genreIds[i] == l.genreId;
      assert rows[i] == l;
    }
  }

  lemma PersonRowsMembers(recordingId: Id, personIds: seq<Id>, role: Role)
    ensures forall l :: l in PersonRows(recordingId, personIds, role) <==>
              l.recordingId == recordingId && l.personId in personIds && l.role == role
  {
    var rows := PersonRows(recordingId, personIds, role);
    forall l: RecordingPerson | l.recordingId == recordingId && l.personId in personIds && l.role == role ensures l in rows {
      var i :| 0 <= i < |personIds| && personIds[i] == l.personId;
      assert rows[i] == l;
    }
  }

  lemma GenreRowsUnique(recordingId: Id, genreIds: seq<Id>)
    ensures UniqueKeys(GenreRows(recordingId, genreIds), GenreLinkKey) <==> NoRepeats(genreIds)
  {
    var rows := GenreRows(recordingId, genreIds);
    assert forall i :: 0 <= i < |rows| ==> GenreLinkKey(rows[i]) == (recordingId, genreIds[i]);
  }

  lemma PersonRowsUnique(recordingId: Id, personIds: seq<Id>, role: Role)
    ensures UniqueKeys(PersonRows(recordingId, personIds, role), PersonLinkKey) <==> NoRepeats(personIds)
  {
    var rows := PersonRows(recordingId, personIds, role);
    assert forall i :: 0 <= i < |rows| ==> PersonLinkKey(rows[i]) == (recordingId, personIds[i]);
  }

  /** New rows of one recording, appended after the rows of a store that has no links of it, are
      exactly the links the selects of that recording see. */
  lemma FreshGenreLinks(old_: seq<RecordingGenre>, id: Id, genreIds: seq<Id>)
    requires forall l :: l in old_ ==> l.recordingId != id
    ensures GenreLinksOf(old_ + GenreRows(id, genreIds), id) == GenreRows(id, genreIds)
  {
    GenreLinksOfAppend(old_, GenreRows(id, genreIds), id);
    FilterNone(old_, GenreLinkOf(id));
    FilterAll(GenreRows(id, genreIds), GenreLinkOf(id));
  }

  lemma FreshPersonLinks(old_: seq<RecordingPerson>, id: Id, hosts: seq<Id>, guests: seq<Id>)
    requires forall l :: l in old_ ==> l.recordingId != id
    ensures PersonLinksOf(old_ + PersonRows(id, hosts, Host) + PersonRows(id, guests, Guest), id) ==
              PersonRows(id, hosts, Host) + PersonRows(id, guests, Guest)
  {
    var h, g := PersonRows(id, hosts, Host), PersonRows(id, guests, Guest);
    assert old_ + h + g == old_ + (h + g);
    PersonLinksOfAppend(old_, h + g, id);
    FilterNone(old_, PersonLinkOf(id));
    FilterAll(h + g, PersonLinkOf(id));
  }

  /** Splitting the written person rows by role gives back the host and guest lists. */
  lemma RoleSplitOfRows(id: Id, hosts: seq<Id>, guests: seq<Id>)
    ensures PersonIdsIn(Filter(PersonRows(id, hosts, Host) + PersonRows(id, guests, Guest), HasRole(Host))) == hosts
    ensures PersonIdsIn(Filter(PersonRows(id, hosts, Host) + PersonRows(id, guests, Guest), HasRole(Guest))) == guests
  {
    var h, g := PersonRows(id, hosts, Host), PersonRows(id, guests, Guest);
    FilterDistributes(h, g, HasRole(Host));
    FilterDistributes(h, g, HasRole(Guest));
    FilterAll(h, HasRole(Host));
    FilterNone(g, HasRole(Host));
    FilterNone(h, HasRole(Guest));
    FilterAll(g, HasRole(Guest));
  }

  /** The host/guest check rejects exactly the forms whose people list repeats an id: a person in
      both lists, or twice in one. */
  lemma PeopleRepeatMeansRepeats(f: RecordingFormData)
    ensures PeopleRepeat(f) <==> !NoRepeats(f.hosts + f.guests)
  {
    SetSizeDetectsRepeats(f.hosts + f.guests);
  }

  // ---------------------------------------------------------------------------
  // Create
  // ---------------------------------------------------------------------------

  lemma CreateRejectsRepeats(t: Tables, f: RecordingFormData, newId: Id, faults: seq<Option<Thrown>>)
    requires !NoRepeats(f.hosts + f.guests)
    ensures Create(t, f, newId, faults) == Outcome(t, Failure(PersonInBothRoles))
  {
    PeopleRepeatMeansRepeats(f);
  }

  /** A successful create adds exactly one recording row, one genre link per genre id, and one
      person link per host and per guest with that role; nothing else changes. */
  lemma CreateSuccessEffect(t: Tables, f: RecordingFormData, newId: Id, faults: seq<Option<Thrown>>)
    requires Create(t, f, newId, faults).result.Success?
    ensures Create(t, f, newId, faults).result == Success(newId)
    ensures NoRepeats(f.hosts + f.guests)
    ensures newId !in RecordingIds(t.recordings) && f.programId in ProgramIds(t.programs)
    ensures Create(t, f, newId, faults).tables ==
              t.(recordings := t.recordings + [Recording(newId, ValuesOf(f))],
                 recordingGenres := t.recordingGenres + GenreRows(newId, f.genreIds),
                 recordingPeople := t.recordingPeople + PersonRows(newId, f.hosts, Host) + PersonRows(newId, f.guests, Guest))
  {
    PeopleRepeatMeansRepeats(f);
    var h, g := PersonRows(newId, f.hosts, Host), PersonRows(newId, f.guests, Guest);
    if |f.genreIds| == 0 {
      assert t.recordingGenres + GenreRows(newId, f.genreIds) == t.recordingGenres;
    }
    if |h| == 0 {
      assert t.recordingPeople + h == t.recordingPeople;
    }
    if |g| == 0 {
      assert t.recordingPeople + h + g == t.recordingPeople + h;
    }
  }

  /** A store without a recording has no links that name it. */
  lemma LinkedRecordingsExist(t: Tables, id: Id)
    requires Consistent(t) && id !in RecordingIds(t.recordings)
    ensures forall l :: l in t.recordingGenres ==> l.recordingId != id
    ensures forall l :: l in t.recordingPeople ==> l.recordingId != id
  {
  }

  /** When no statement throws on its own, a create on a consistent store succeeds exactly when the
      people have no repeats, the key is new, the program exists, the genre ids have no repeats and
      name genres, and every person id names a person. */
  lemma CreateSucceedsIff(t: Tables, f: RecordingFormData, newId: Id)
    requires Consistent(t)
    ensures Create(t, f, newId, []).result.Success? <==>
              && NoRepeats(f.hosts + f.guests)
              && newId !in RecordingIds(t.recordings)
              && f.programId in ProgramIds(t.programs)
              && NoRepeats(f.genreIds)
              && (forall g :: g in f.genreIds ==> g in GenreIds(t.genres))
              && (forall p :: p in f.hosts + f.guests ==> p in PersonIds(t.people))
  {
    PeopleRepeatMeansRepeats(f);
    if NoRepeats(f.hosts + f.guests) && newId !in RecordingIds(t.recordings) && f.programId in ProgramIds(t.programs) {
      var row := Recording(newId, ValuesOf(f));
      var t1 := t.(recordings := t.recordings + [row]);
      assert InsertRecording(t, row, None) == Done(t1);
      assert newId in RecordingIds(t1.recordings);
      LinkedRecordingsExist(t, newId);
      NoRepeatsAppend(f.hosts, f.guests);
      // genre links
      var gr := GenreRows(newId, f.genreIds);
      GenreRowsMembers(newId, f.genreIds);
      GenreRowsUnique(newId, f.genreIds);
      UniqueKeysAppend(t1.recordingGenres, gr, GenreLinkKey);
      var e1 := InsertGenreLinksIfAny(t1, gr, None);
      assert e1.Done? <==> NoRepeats(f.genreIds) && (forall g :: g in f.genreIds ==> g in GenreIds(t.genres));
      if e1.Done? {
        var t2 := e1.tables;
        assert t2.recordingPeople == t.recordingPeople && t2.people == t.people && t2.recordings == t1.recordings;
        var h, g := PersonRows(newId, f.hosts, Host), PersonRows(newId, f.guests, Guest);
        PersonRowsMembers(newId, f.hosts, Host);
        PersonRowsMembers(newId, f.guests, Guest);
        PersonRowsUnique(newId, f.hosts, Host);
        PersonRowsUnique(newId, f.guests, Guest);
        UniqueKeysAppend(t.recordingPeople, h, PersonLinkKey);
        var e2 := InsertPersonLinksIfAny(t2, h, None);
        assert e2.Done? <==> forall p :: p in f.hosts ==> p in PersonIds(t.people);
        if e2.Done? {
          var t3 := e2.tables;
          assert t3.recordingPeople == t.recordingPeople + h;
          UniqueKeysAppend(t.recordingPeople + h, g, PersonLinkKey);
          forall x, y | x in t.recordingPeople + h && y in g ensures PersonLinkKey(x) != PersonLinkKey(y) {
            if x in h {
              assert x.personId in f.hosts && y.personId in f.guests;
            }
          }
          var e3 := InsertPersonLinksIfAny(t3, g, None);
          assert e3.Done? <==> forall p :: p in f.guests ==> p in PersonIds(t.people);
        }
      }
    }
  }

  /** There is no transaction: once the recording row is in, it stays, whatever the later inserts do. */
  lemma CreateKeepsRecordingRow(t: Tables, f: RecordingFormData, newId: Id, faults: seq<Option<Thrown>>)
    requires NoRepeats(f.hosts + f.guests)
    requires InsertRecording(t, Recording(newId, ValuesOf(f)), FaultAt(faults, 0)).Done?
    ensures Create(t, f, newId, faults).tables.recordings == t.recordings + [Recording(newId, ValuesOf(f))]
  {
    PeopleRepeatMeansRepeats(f);
  }

  /** For instance, when the genre insert throws, the action fails and the new row remains. */
  lemma CreateGenreFaultLeavesRow(t: Tables, f: RecordingFormData, newId: Id, e: Thrown)
    requires NoRepeats(f.hosts + f.guests) && |f.genreIds| > 0
    requires newId !in RecordingIds(t.recordings) && f.programId in ProgramIds(t.programs)
    ensures Create(t, f, newId, [None, Some(e)]) ==
              Outcome(t.(recordings := t.recordings + [Recording(newId, ValuesOf(f))]), Caught(e, CreateFailed))
  {
    PeopleRepeatMeansRepeats(f);
  }

  /** Round trip: loading a recording just created gives back its row, genre ids, hosts and guests,
      in the order the form listed them. */
  lemma CreateThenLoad(t: Tables, f: RecordingFormData, newId: Id, faults: seq<Option<Thrown>>)
    requires Consistent(t)
    requires Create(t, f, newId, faults).result.Success?
    ensures LoadForEdit(Create(t, f, newId, faults).tables, newId, []) ==
              Success(EditData(Recording(newId, ValuesOf(f)), f.genreIds, f.hosts, f.guests))
  {
    CreateSuccessEffect(t, f, newId, faults);
    var t' := Create(t, f, newId, faults).tables;
    var row := Recording(newId, ValuesOf(f));
    LinkedRecordingsExist(t, newId);
    FindFreshRow(t.recordings, row);
    FreshGenreLinks(t.recordingGenres, newId, f.genreIds);
    FreshPersonLinks(t.recordingPeople, newId, f.hosts, f.guests);
    RoleSplitOfRows(newId, f.hosts, f.guests);
  }

  lemma {:induction false} FindFreshRow(rs: seq<Recording>, row: Recording)
    requires row.id !in RecordingIds(rs)
    ensures FindRecording(rs + [row], row.id) == Some(row)
  {
    if rs != [] {
      assert (rs + [row])[1..] == rs[1..] + [row];
      assert RecordingIds(rs[1..]) <= RecordingIds(rs);
      FindFreshRow(rs[1..], row);
    }
  }

  // ---------------------------------------------------------------------------
  // Update
  // ---------------------------------------------------------------------------

  lemma UpdateRejectsRepeats(t: Tables, id: Id, f: RecordingFormData, faults: seq<Option<Thrown>>)
    requires !NoRepeats(f.hosts + f.guests)
    ensures Update(t, id, f, faults) == Outcome(t, Failure(PersonInBothRoles))
  {
    PeopleRepeatMeansRepeats(f);
  }

  lemma {:induction false} FindAfterSet(rs: seq<Recording>, id: Id, v: RecordingValues, other: Id)
    ensures FindRecording(SetRecordingValues(rs, id, v), other) ==
              if other == id && id in RecordingIds(rs) then Some(Recording(id, v)) else FindRecording(rs, other)
  {
    if rs != [] {
      var rs' := SetRecordingValues(rs, id, v);
      assert rs'[1..] == SetRecordingValues(rs[1..], id, v);
      assert RecordingIds(rs) == {rs[0].id} + RecordingIds(rs[1..]) by {
        assert rs == [rs[0]] + rs[1..];
      }
      FindAfterSet(rs[1..], id, v, other);
    }
  }

  /** The tables a successful update leaves: the row of `id` rewritten, and the links of `id`
      replaced by the submitted ones, appended after the links that remain. */
  lemma UpdateSuccessShape(t: Tables, id: Id, f: RecordingFormData, faults: seq<Option<Thrown>>)
    requires Update(t, id, f, faults).result.Success?
    ensures Update(t, id, f, faults).result == Success(())
    ensures NoRepeats(f.hosts + f.guests)
    ensures Update(t, id, f, faults).tables ==
              t.(recordings := if id in RecordingIds(t.recordings) then SetRecordingValues(t.recordings, id, ValuesOf(f))
                               else t.recordings,
                 recordingGenres := Filter(t.recordingGenres, GenreLinkNotOf(id)) + GenreRows(id, f.genreIds),
                 recordingPeople := Filter(t.recordingPeople, PersonLinkNotOf(id)) +
                                    PersonRows(id, f.hosts, Host) + PersonRows(id, f.guests, Guest))
  {
    PeopleRepeatMeansRepeats(f);
    var kept := Filter(t.recordingGenres, GenreLinkNotOf(id));
    var keptP := Filter(t.recordingPeople, PersonLinkNotOf(id));
    var gr := GenreRows(id, f.genreIds);
    var h, g := PersonRows(id, f.hosts, Host), PersonRows(id, f.guests, Guest);
    if |gr| == 0 { assert kept + gr == kept; }
    if |h| == 0 { assert keptP + h == keptP; }
    if |g| == 0 { assert keptP + h + g == keptP + h; }
  }

  /** Tables whose links of `id` were deleted and then re-inserted from the form, and whose row of
      `id` (if any) was rewritten. */
  ghost predicate ReplacedFrom(t: Tables, t': Tables, id: Id, f: RecordingFormData)
  {
    t' == t.(recordings := if id in RecordingIds(t.recordings) then SetRecordingValues(t.recordings, id, ValuesOf(f))
                           else t.recordings,
             recordingGenres := Filter(t.recordingGenres, GenreLinkNotOf(id)) + GenreRows(id, f.genreIds),
             recordingPeople := Filter(t.recordingPeople, PersonLinkNotOf(id)) +
                                PersonRows(id, f.hosts, Host) + PersonRows(id, f.guests, Guest))
  }

  /** Replacing the genre links of `id` leaves the links of every other recording as they were. */
  lemma ReplacedGenreLinksOfOther(ls: seq<RecordingGenre>, id: Id, genreIds: seq<Id>, other: Id)
    requires other != id
    ensures GenreLinksOf(Filter(ls, GenreLinkNotOf(id)) + GenreRows(id, genreIds), other) == GenreLinksOf(ls, other)
  {
    var kept := Filter(ls, GenreLinkNotOf(id));
    var gr := GenreRows(id, genreIds);
    GenreLinksOfAppend(kept, gr, other);
    GenreLinksOfAfterDelete(ls, id, other);
    FilterNone(gr, GenreLinkOf(other));
  }

  /** Replacing the person links of `id` leaves the links of every other recording as they were. */
  lemma ReplacedPersonLinksOfOther(ls: seq<RecordingPerson>, id: Id, hosts: seq<Id>, guests: seq<Id>, other: Id)
    requires other != id
    ensures PersonLinksOf(Filter(ls, PersonLinkNotOf(id)) + PersonRows(id, hosts, Host) + PersonRows(id, guests, Guest), other)
              == PersonLinksOf(ls, other)
  {
    var kept := Filter(ls, PersonLinkNotOf(id));
    var h, g := PersonRows(id, hosts, Host), PersonRows(id, guests, Guest);
    assert kept + h + g == kept + (h + g);
    PersonLinksOfAppend(kept, h + g, other);
    PersonLinksOfAfterDelete(ls, id, other);
    FilterNone(h + g, PersonLinkOf(other));
  }

  /** What the selects see after a full replace: exactly the submitted links for `id`, and for
      every other recording what it had before. */
  lemma ReplacedLinks(t: Tables, t': Tables, id: Id, f: RecordingFormData)
    requires ReplacedFrom(t, t', id, f)
    ensures GenreLinksOf(t'.recordingGenres, id) == GenreRows(id, f.genreIds)
    ensures PersonLinksOf(t'.recordingPeople, id) == PersonRows(id, f.hosts, Host) + PersonRows(id, f.guests, Guest)
    ensures id in RecordingIds(t.recordings) ==> FindRecording(t'.recordings, id) == Some(Recording(id, ValuesOf(f)))
    ensures RecordingIds(t'.recordings) == RecordingIds(t.recordings)
    ensures forall other :: other != id ==> GenreLinksOf(t'.recordingGenres, other) == GenreLinksOf(t.recordingGenres, other)
    ensures forall other :: other != id ==> PersonLinksOf(t'.recordingPeople, other) == PersonLinksOf(t.recordingPeople, other)
    ensures forall other :: other != id ==> FindRecording(t'.recordings, other) == FindRecording(t.recordings, other)
  {
    var v := ValuesOf(f);
    SetKeepsIds(t.recordings, id, v);
    FreshGenreLinks(Filter(t.recordingGenres, GenreLinkNotOf(id)), id, f.genreIds);
    FreshPersonLinks(Filter(t.recordingPeople, PersonLinkNotOf(id)), id, f.hosts, f.guests);
    forall other | other != id
      ensures GenreLinksOf(t'.recordingGenres, other) == GenreLinksOf(t.recordingGenres, other)
    {
      ReplacedGenreLinksOfOther(t.recordingGenres, id, f.genreIds, other);
    }
    forall other | other != id
      ensures PersonLinksOf(t'.recordingPeople, other) == PersonLinksOf(t.recordingPeople, other)
    {
      ReplacedPersonLinksOfOther(t.recordingPeople, id, f.hosts, f.guests, other);
    }
    forall other | other != id
      ensures FindRecording(t'.recordings, other) == FindRecording(t.recordings, other)
    {
      FindAfterSet(t.recordings, id, v, other);
    }
    FindAfterSet(t.recordings, id, v, id);
  }

  /** A successful update replaces the links of `id` by exactly the submitted genre ids, hosts and
      guests, writes the new values into the row of `id` (if there is one) and leaves every other
      recording, its links, and the other tables as they were. */
  lemma UpdateReplacesLinks(t: Tables, id: Id, f: RecordingFormData, faults: seq<Option<Thrown>>)
    requires Update(t, id, f, faults).result.Success?
    ensures var t' := Update(t, id, f, faults).tables;
      && GenreLinksOf(t'.recordingGenres, id) == GenreRows(id, f.genreIds)
      && PersonLinksOf(t'.recordingPeople, id) == PersonRows(id, f.hosts, Host) + PersonRows(id, f.guests, Guest)
      && (id in RecordingIds(t.recordings) ==> FindRecording(t'.recordings, id) == Some(Recording(id, ValuesOf(f))))
      && RecordingIds(t'.recordings) == RecordingIds(t.recordings)
      && (forall other :: other != id ==> GenreLinksOf(t'.recordingGenres, other) == GenreLinksOf(t.recordingGenres, other))
      && (forall other :: other != id ==> PersonLinksOf(t'.recordingPeople, other) == PersonLinksOf(t.recordingPeople, other))
      && (forall other :: other != id ==> FindRecording(t'.recordings, other) == FindRecording(t.recordings, other))
      && t'.users == t.users && t'.sessions == t.sessions && t'.people == t.people
      && t'.programs == t.programs && t'.genres == t.genres
  {
    UpdateSuccessShape(t, id, f, faults);
    ReplacedLinks(t, Update(t, id, f, faults).tables, id, f);
  }

  lemma SetKeepsIds(rs: seq<Recording>, id: Id, v: RecordingValues)
    ensures RecordingIds(SetRecordingValues(rs, id, v)) == RecordingIds(rs)
  {
    var rs' := SetRecordingValues(rs, id, v);
    forall x | x in RecordingIds(rs) ensures x in RecordingIds(rs') {
      var i :| 0 <= i < |rs| && rs[i].id == x;
      assert rs'[i].id == x;
    }
  }

  /** Round trip: after a successful update of an existing recording, loading it gives back the
      submitted values and lists, in the submitted order. */
  lemma UpdateThenLoad(t: Tables, id: Id, f: RecordingFormData, faults: seq<Option<Thrown>>)
    requires id in RecordingIds(t.recordings)
    requires Update(t, id, f, faults).result.Success?
    ensures LoadForEdit(Update(t, id, f, faults).tables, id, []) ==
              Success(EditData(Recording(id, ValuesOf(f)), f.genreIds, f.hosts, f.guests))
  {
    UpdateReplacesLinks(t, id, f, faults);
    RoleSplitOfRows(id, f.hosts, f.guests);
  }

  /** Updating a recording that does not exist changes nothing; it reports success only when there
      are no links to insert (the inserts that remain break the reference to the recording). */
  lemma UpdateMissingRecording(t: Tables, id: Id, f: RecordingFormData)
    requires Consistent(t)
    requires id !in RecordingIds(t.recordings)
    requires NoRepeats(f.hosts + f.guests)
    ensures Update(t, id, f, []).tables == t
    ensures Update(t, id, f, []).result.Success? <==> f.genreIds == [] && f.hosts == [] && f.guests == []
  {
    PeopleRepeatMeansRepeats(f);
    LinkedRecordingsExist(t, id);
    FilterAll(t.recordingGenres, GenreLinkNotOf(id));
    FilterAll(t.recordingPeople, PersonLinkNotOf(id));
    assert UpdateRecording(t, id, ValuesOf(f), None) == Done(t);
    assert DeleteGenreLinksOf(t, id, None) == Done(t);
    assert DeletePersonLinksOf(t, id, None) == Done(t);
    var e3 := InsertGenreLinksIfAny(t, GenreRows(id, f.genreIds), None);
    if |f.genreIds| > 0 {
      assert GenreRows(id, f.genreIds)[0].recordingId == id;
      assert e3.Raised?;
    } else {
      assert e3 == Done(t);
      var e4 := InsertPersonLinksIfAny(t, PersonRows(id, f.hosts, Host), None);
      if |f.hosts| > 0 {
        assert PersonRows(id, f.hosts, Host)[0].recordingId == id;
        assert e4.Raised?;
      } else {
        assert e4 == Done(t);
        var e5 := InsertPersonLinksIfAny(t, PersonRows(id, f.guests, Guest), None);
        if |f.guests| > 0 {
          assert PersonRows(id, f.guests, Guest)[0].recordingId == id;
          assert e5.Raised?;
        } else {
          assert e5 == Done(t);
        }
      }
    }
  }

  // ---------------------------------------------------------------------------
  // Load for edit
  // ---------------------------------------------------------------------------

  /** Without faults, loading fails exactly for an id that has no row, with the not-found message. */
  lemma LoadFindsExactlyExisting(t: Tables, id: Id)
    ensures LoadForEdit(t, id, []).Failure? <==> id !in RecordingIds(t.recordings)
    ensures LoadForEdit(t, id, []).Failure? ==> LoadForEdit(t, id, []).error == RecordingNotFound
    ensures LoadForEdit(t, id, []).Success? ==>
              LoadForEdit(t, id, []).data.recording.id == id && LoadForEdit(t, id, []).data.recording in t.recordings
  {
  }

  lemma MembersOfPersonIds(ls: seq<RecordingPerson>)
    ensures forall p :: p in PersonIdsIn(ls) <==> exists l :: l in ls && l.personId == p
  {
    forall p | exists l :: l in ls && l.personId == p ensures p in PersonIdsIn(ls) {
      var l :| l in ls && l.personId == p;
      var i :| 0 <= i < |ls| && ls[i] == l;
      assert PersonIdsIn(ls)[i] == p;
    }
  }

  lemma MembersOfGenreIds(ls: seq<RecordingGenre>)
    ensures forall g :: g in GenreIdsIn(ls) <==> exists l :: l in ls && l.genreId == g
  {
    forall g | exists l :: l in ls && l.genreId == g ensures g in GenreIdsIn(ls) {
      var l :| l in ls && l.genreId == g;
      var i :| 0 <= i < |ls| && ls[i] == l;
      assert GenreIdsIn(ls)[i] == g;
    }
  }

  /** Load-for-edit splits the person links of the recording by role: a person is listed as a host
      exactly when a host link to it exists, and as a guest exactly when a guest link exists; the
      genre ids are exactly those linked to the recording. */
  lemma LoadSplitsByRole(t: Tables, id: Id, faults: seq<Option<Thrown>>)
    requires LoadForEdit(t, id, faults).Success?
    ensures var d := LoadForEdit(t, id, faults).data;
      && (forall p :: p in d.hosts <==> RecordingPerson(id, p, Host) in t.recordingPeople)
      && (forall p :: p in d.guests <==> RecordingPerson(id, p, Guest) in t.recordingPeople)
      && (forall g :: g in d.genreIds <==> RecordingGenre(id, g) in t.recordingGenres)
  {
    var mine := PersonLinksOf(t.recordingPeople, id);
    MembersOfPersonIds(Filter(mine, HasRole(Host)));
    MembersOfPersonIds(Filter(mine, HasRole(Guest)));
    MembersOfGenreIds(GenreLinksOf(t.recordingGenres, id));
    forall p ensures RecordingPerson(id, p, Host) in t.recordingPeople ==> p in PersonIdsWithRole(t.recordingPeople, id, Host) {
      if RecordingPerson(id, p, Host) in t.recordingPeople {
        assert RecordingPerson(id, p, Host) in Filter(mine, HasRole(Host));
      }
    }
    forall p ensures RecordingPerson(id, p, Guest) in t.recordingPeople ==> p in PersonIdsWithRole(t.recordingPeople, id, Guest) {
      if RecordingPerson(id, p, Guest) in t.recordingPeople {
        assert RecordingPerson(id, p, Guest) in Filter(mine, HasRole(Guest));
      }
    }
    forall g ensures RecordingGenre(id, g) in t.recordingGenres ==> g in GenreIdsOf(t.recordingGenres, id) {
      if RecordingGenre(id, g) in t.recordingGenres {
        assert RecordingGenre(id, g) in GenreLinksOf(t.recordingGenres, id);
      }
    }
  }

  /** On a consistent store nobody is loaded as both host and guest of one recording. */
  lemma LoadedRolesDisjoint(t: Tables, id: Id, faults: seq<Option<Thrown>>)
    requires Consistent(t)
    requires LoadForEdit(t, id, faults).Success?
    ensures forall p :: p in LoadForEdit(t, id, faults).data.hosts ==> p !in LoadForEdit(t, id, faults).data.guests
  {
    LoadSplitsByRole(t, id, faults);
    forall p | p in LoadForEdit(t, id, faults).data.hosts ensures p !in LoadForEdit(t, id, faults).data.guests {
      if p in LoadForEdit(t, id, faults).data.guests {
        OneRolePerRecording(t, RecordingPerson(id, p, Host), RecordingPerson(id, p, Guest));
      }
    }
  }

  // ---------------------------------------------------------------------------
  // Delete
  // ---------------------------------------------------------------------------

  lemma {:induction false} FindAfterFilter(rs: seq<Recording>, id: Id, other: Id)
    ensures FindRecording(Filter(rs, RecordingIsNot(id)), other) == if other == id then None else FindRecording(rs, other)
  {
    if rs != [] {
      FindAfterFilter(rs[1..], id, other);
      var rest := Filter(rs[1..], RecordingIsNot(id));
      if rs[0].id == id {
        assert Filter(rs, RecordingIsNot(id)) == rest;
      } else {
        assert Filter(rs, RecordingIsNot(id)) == [rs[0]] + rest;
        assert ([rs[0]] + rest)[1..] == rest;
      }
    }
  }

  /** A successful delete removes the recording and every link of it, and leaves every other
      recording and its links as they were. */
  lemma DeleteRemovesLinks(t: Tables, id: Id, fault: Option<Thrown>)
    requires Delete(t, id, fault).result.Success?
    ensures var t' := Delete(t, id, fault).tables;
      && id !in RecordingIds(t'.recordings)
      && GenreLinksOf(t'.recordingGenres, id) == [] && PersonLinksOf(t'.recordingPeople, id) == []
      && (forall other :: other != id ==> GenreLinksOf(t'.recordingGenres, other) == GenreLinksOf(t.recordingGenres, other))
      && (forall other :: other != id ==> PersonLinksOf(t'.recordingPeople, other) == PersonLinksOf(t.recordingPeople, other))
      && (forall other :: other != id ==> FindRecording(t'.recordings, other) == FindRecording(t.recordings, other))
      && t'.users == t.users && t'.sessions == t.sessions && t'.people == t.people
      && t'.programs == t.programs && t'.genres == t.genres
  {
    GenreLinksOfAfterDelete(t.recordingGenres, id, id);
    PersonLinksOfAfterDelete(t.recordingPeople, id, id);
    forall other | other != id
      ensures GenreLinksOf(Filter(t.recordingGenres, GenreLinkNotOf(id)), other) == GenreLinksOf(t.recordingGenres, other)
      ensures PersonLinksOf(Filter(t.recordingPeople, PersonLinkNotOf(id)), other) == PersonLinksOf(t.recordingPeople, other)
      ensures FindRecording(Filter(t.recordings, RecordingIsNot(id)), other) == FindRecording(t.recordings, other)
    {
      GenreLinksOfAfterDelete(t.recordingGenres, id, other);
      PersonLinksOfAfterDelete(t.recordingPeople, id, other);
      FindAfterFilter(t.recordings, id, other);
    }
  }

  // ---------------------------------------------------------------------------
  // The actions keep the schema's invariant, whether they succeed or not
  // ---------------------------------------------------------------------------

  lemma GenreIfAnyKeepsConsistent(t: Tables, rows: seq<RecordingGenre>, fault: Option<Thrown>)
    requires Consistent(t)
    ensures InsertGenreLinksIfAny(t, rows, fault).Done? ==> Consistent(InsertGenreLinksIfAny(t, rows, fault).tables)
  {
    InsertGenreLinksKeepsConsistent(t, rows, fault);
  }

  lemma PersonIfAnyKeepsConsistent(t: Tables, rows: seq<RecordingPerson>, fault: Option<Thrown>)
    requires Consistent(t)
    ensures InsertPersonLinksIfAny(t, rows, fault).Done? ==> Consistent(InsertPersonLinksIfAny(t, rows, fault).tables)
  {
    InsertPersonLinksKeepsConsistent(t, rows, fault);
  }

  lemma CreateKeepsConsistent(t: Tables, f: RecordingFormData, newId: Id, faults: seq<Option<Thrown>>)
    requires Consistent(t)
    ensures Consistent(Create(t, f, newId, faults).tables)
  {
    var e0 := InsertRecording(t, Recording(newId, ValuesOf(f)), FaultAt(faults, 0));
    InsertRecordingKeepsConsistent(t, Recording(newId, ValuesOf(f)), FaultAt(faults, 0));
    if e0.Done? {
      var e1 := InsertGenreLinksIfAny(e0.tables, GenreRows(newId, f.genreIds), FaultAt(faults, 1));
      GenreIfAnyKeepsConsistent(e0.tables, GenreRows(newId, f.genreIds), FaultAt(faults, 1));
      if e1.Done? {
        var e2 := InsertPersonLinksIfAny(e1.tables, PersonRows(newId, f.hosts, Host), FaultAt(faults, 2));
        PersonIfAnyKeepsConsistent(e1.tables, PersonRows(newId, f.hosts, Host), FaultAt(faults, 2));
        if e2.Done? {
          PersonIfAnyKeepsConsistent(e2.tables, PersonRows(newId, f.guests, Guest), FaultAt(faults, 3));
        }
      }
    }
  }

  lemma UpdateKeepsConsistent(t: Tables, id: Id, f: RecordingFormData, faults: seq<Option<Thrown>>)
    requires Consistent(t)
    ensures Consistent(Update(t, id, f, faults).tables)
  {
    var e0 := UpdateRecording(t, id, ValuesOf(f), FaultAt(faults, 0));
    UpdateRecordingKeepsConsistent(t, id, ValuesOf(f), FaultAt(faults, 0));
    if e0.Done? {
      var e1 := DeleteGenreLinksOf(e0.tables, id, FaultAt(faults, 1));
      DeleteGenreLinksOfKeepsConsistent(e0.tables, id, FaultAt(faults, 1));
      if e1.Done? {
        var e2 := DeletePersonLinksOf(e1.tables, id, FaultAt(faults, 2));
        DeletePersonLinksOfKeepsConsistent(e1.tables, id, FaultAt(faults, 2));
        if e2.Done? {
          var e3 := InsertGenreLinksIfAny(e2.tables, GenreRows(id, f.genreIds), FaultAt(faults, 3));
          GenreIfAnyKeepsConsistent(e2.tables, GenreRows(id, f.genreIds), FaultAt(faults, 3));
          if e3.Done? {
            var e4 := InsertPersonLinksIfAny(e3.tables, PersonRows(id, f.hosts, Host), FaultAt(faults, 4));
            PersonIfAnyKeepsConsistent(e3.tables, PersonRows(id, f.hosts, Host), FaultAt(faults, 4));
            if e4.Done? {
              PersonIfAnyKeepsConsistent(e4.tables, PersonRows(id, f.guests, Guest), FaultAt(faults, 5));
            }
          }
        }
      }
    }
  }

  lemma DeleteKeepsConsistent(t: Tables, id: Id, fault: Option<Thrown>)
    requires Consistent(t)
    ensures Consistent(Delete(t, id, fault).tables)
  {
    DeleteRecordingKeepsConsistent(t, id, fault);
  }

  // ---------------------------------------------------------------------------
  // The actions on the database object
  // ---------------------------------------------------------------------------

  method InsertGenreLinksIfAnyOn(db: Db, rows: seq<RecordingGenre>, fault: Option<Thrown>) returns (err: Option<Thrown>)
    modifies db
    ensures ExecOf(err, db.Snapshot()) == InsertGenreLinksIfAny(old(db.Snapshot()), rows, fault)
    ensures err.Some? ==> db.Snapshot() == old(db.Snapshot())
  {
    err := None;
    if |rows| > 0 {
      err := db.InsertGenreLinks(rows, fault);
    }
  }

  method InsertPersonLinksIfAnyOn(db: Db, rows: seq<RecordingPerson>, fault: Option<Thrown>) returns (err: Option<Thrown>)
    modifies db
    ensures ExecOf(err, db.Snapshot()) == InsertPersonLinksIfAny(old(db.Snapshot()), rows, fault)
    ensures err.Some? ==> db.Snapshot() == old(db.Snapshot())
  {
    err := None;
    if |rows| > 0 {
      err := db.InsertPersonLinks(rows, fault);
    }
  }

  method CreateRecordingWithRelations(db: Db, f: RecordingFormData, newId: Id, faults: seq<Option<Thrown>>)
    returns (r: ActionResult<Id>)
    modifies db
    ensures Outcome(db.Snapshot(), r) == Create(old(db.Snapshot()), f, newId, faults)
    ensures old(db.Valid()) ==> db.Valid()
  {
    if db.Valid() {
      CreateKeepsConsistent(db.Snapshot(), f, newId, faults);
    }
    var allPeople := f.hosts + f.guests;
    if |allPeople| != |set p | p in allPeople| {
      return Failure(PersonInBothRoles);
    }
    var err := db.InsertRecording(Recording(newId, ValuesOf(f)), FaultAt(faults, 0));
    if err.Some? {
      return Caught(err.value, CreateFailed);
    }
    err := InsertGenreLinksIfAnyOn(db, GenreRows(newId, f.genreIds), FaultAt(faults, 1));
    if err.Some? {
      return Caught(err.value, CreateFailed);
    }
    err := InsertPersonLinksIfAnyOn(db, PersonRows(newId, f.hosts, Host), FaultAt(faults, 2));
    if err.Some? {
      return Caught(err.value, CreateFailed);
    }
    err := InsertPersonLinksIfAnyOn(db, PersonRows(newId, f.guests, Guest), FaultAt(faults, 3));
    if err.Some? {
      return Caught(err.value, CreateFailed);
    }
    return Success(newId);
  }

  method UpdateRecordingWithRelations(db: Db, id: Id, f: RecordingFormData, faults: seq<Option<Thrown>>)
    returns (r: ActionResult<()>)
    modifies db
    ensures Outcome(db.Snapshot(), r) == Update(old(db.Snapshot()), id, f, faults)
    ensures old(db.Valid()) ==> db.Valid()
  {
    if db.Valid() {
      UpdateKeepsConsistent(db.Snapshot(), id, f, faults);
    }
    var allPeople := f.hosts + f.guests;
    if |allPeople| != |set p | p in allPeople| {
      return Failure(PersonInBothRoles);
    }
    var err := db.UpdateRecording(id, ValuesOf(f), FaultAt(faults, 0));
    if err.Some? {
      return Caught(err.value, UpdateFailed);
    }
    err := db.DeleteGenreLinksOf(id, FaultAt(faults, 1));
    if err.Some? {
      return Caught(err.value, UpdateFailed);
    }
    err := db.DeletePersonLinksOf(id, FaultAt(faults, 2));
    if err.Some? {
      return Caught(err.value, UpdateFailed);
    }
    err := InsertGenreLinksIfAnyOn(db, GenreRows(id, f.genreIds), FaultAt(faults, 3));
    if err.Some? {
      return Caught(err.value, UpdateFailed);
    }
    err := InsertPersonLinksIfAnyOn(db, PersonRows(id, f.hosts, Host), FaultAt(faults, 4));
    if err.Some? {
      return Caught(err.value, UpdateFailed);
    }
    err := InsertPersonLinksIfAnyOn(db, PersonRows(id, f.guests, Guest), FaultAt(faults, 5));
    if err.Some? {
      return Caught(err.value, UpdateFailed);
    }
    return Success(());
  }

  method GetRecordingForForm(db: Db, id: Id, faults: seq<Option<Thrown>>) returns (r: ActionResult<EditData>)
    ensures r == LoadForEdit(db.Snapshot(), id, faults)
  {
    if FaultAt(faults, 0).Some? {
      return Caught(FaultAt(faults, 0).value, LoadFailed);
    }
    var found := FindRecording(db.recordings, id);
    if found.None? {
      return Failure(RecordingNotFound);
    }
    if FaultAt(faults, 1).Some? {
      return Caught(FaultAt(faults, 1).value, LoadFailed);
    }
    var genreIds := GenreIdsOf(db.recordingGenres, id);
    if FaultAt(faults, 2).Some? {
      return Caught(FaultAt(faults, 2).value, LoadFailed);
    }
    var people := PersonLinksOf(db.recordingPeople, id);
    var hosts := PersonIdsIn(Filter(people, HasRole(Host)));
    var guests := PersonIdsIn(Filter(people, HasRole(Guest)));
    return Success(EditData(found.value, genreIds, hosts, guests));
  }

  method DeleteRecordingWithRelations(db: Db, id: Id, fault: Option<Thrown>) returns (r: ActionResult<()>)
    modifies db
    ensures Outcome(db.Snapshot(), r) == Delete(old(db.Snapshot()), id, fault)
    ensures old(db.Valid()) ==> db.Valid()
  {
    if db.Valid() {
      DeleteKeepsConsistent(db.Snapshot(), id, fault);
    }
    var err := db.DeleteRecording(id, fault);
    if err.Some? {
      return Caught(err.value, DeleteFailed);
    }
    return Success(());
  }
}
