/** The admin server actions on single rows: adding, removing and re-roling one link of a recording,
    the selects that list a recording's genres and people, the recordings listing with its joined
    names and genre ids, and the deletes whose cascades reach the link tables. Each action issues one
    statement and turns an exception into a failure result (`Store.Finish`). */
module Actions {
  import opened Results
  import opened Seqs
  import opened Schema
  import opened Store
  import opened Database

  const AddGenreFailed: string := "failed to add genre to recording"
  const RemoveGenreFailed: string := "failed to remove genre from recording"
  const AddPersonFailed: string := "failed to add person to recording"
  const RemovePersonFailed: string := "failed to remove person from recording"
  const UpdateRoleFailed: string := "failed to update role"
  const FetchGenresFailed: string := "failed to fetch genres"
  const FetchPeopleFailed: string := "failed to fetch people"
  const FetchRecordingsFailed: string := "failed to fetch recordings"
  const DeleteRecordingFailed: string := "failed to delete recording"
  const DeletePersonFailed: string := "failed to delete person"
  const DeleteGenreFailed: string := "failed to delete genre"
  const DeleteUserFailed: string := "failed to delete user"
  const DeleteProgramFailed: string := "failed to delete program"
  const DeleteSessionFailed: string := "failed to delete session"
  const UpdatePersonFailed: string := "failed to update person"

  // ---------------------------------------------------------------------------
  // Writes
  // ---------------------------------------------------------------------------

  function AddGenre(t: Tables, recordingId: Id, genreId: Id, fault: Option<Thrown>): Outcome<()>
  {
    Finish(t, InsertGenreLinks(t, [RecordingGenre(recordingId, genreId)], fault), (), AddGenreFailed)
  }

  function RemoveGenre(t: Tables, recordingId: Id, genreId: Id, fault: Option<Thrown>): Outcome<()>
  {
    Finish(t, DeleteGenreLink(t, recordingId, genreId, fault), (), RemoveGenreFailed)
  }

  function AddPerson(t: Tables, recordingId: Id, personId: Id, role: Role, fault: Option<Thrown>): Outcome<()>
  {
    Finish(t, InsertPersonLinks(t, [RecordingPerson(recordingId, personId, role)], fault), (), AddPersonFailed)
  }

  function RemovePerson(t: Tables, recordingId: Id, personId: Id, fault: Option<Thrown>): Outcome<()>
  {
    Finish(t, DeletePersonLink(t, recordingId, personId, fault), (), RemovePersonFailed)
  }

  function UpdateRole(t: Tables, recordingId: Id, personId: Id, role: Role, fault: Option<Thrown>): Outcome<()>
  {
    Finish(t, SetPersonLinkRole(t, recordingId, personId, role, fault), (), UpdateRoleFailed)
  }

  function RemoveRecording(t: Tables, id: Id, fault: Option<Thrown>): Outcome<()>
  {
    Finish(t, DeleteRecording(t, id, fault), (), DeleteRecordingFailed)
  }

  function RemovePersonRow(t: Tables, id: Id, fault: Option<Thrown>): Outcome<()>
  {
    Finish(t, DeletePerson(t, id, fault), (), DeletePersonFailed)
  }

  function RemoveGenreRow(t: Tables, id: Id, fault: Option<Thrown>): Outcome<()>
  {
    Finish(t, DeleteGenre(t, id, fault), (), DeleteGenreFailed)
  }

  function RemoveUserRow(t: Tables, id: Id, fault: Option<Thrown>): Outcome<()>
  {
    Finish(t, DeleteUser(t, id, fault), (), DeleteUserFailed)
  }

  function RemoveProgramRow(t: Tables, id: Id, fault: Option<Thrown>): Outcome<()>
  {
    Finish(t, DeleteProgram(t, id, fault), (), DeleteProgramFailed)
  }

  function RemoveSessionRow(t: Tables, token: string, fault: Option<Thrown>): Outcome<()>
  {
    Finish(t, DeleteSession(t, token, fault), (), DeleteSessionFailed)
  }

  function EditPerson(t: Tables, id: Id, name: string, telegramAccount: Option<string>, fault: Option<Thrown>): Outcome<()>
  {
    Finish(t, UpdatePerson(t, id, name, telegramAccount, fault), (), UpdatePersonFailed)
  }

  // ---------------------------------------------------------------------------
  // Joins
  // ---------------------------------------------------------------------------

  datatype GenreOfRecording = GenreOfRecording(genreId: Id, genreName: string)
  datatype PersonOfRecording = PersonOfRecording(personId: Id, personName: string, telegramAccount: Option<string>, role: Role)

  /** One row of the recordings listing: the recording, its program's name (NULL when the left join
      finds none), the joined person names and the ids of its genres. */
  datatype Listing = Listing(recording: Recording, program: Option<string>, peopleNames: string, genreIds: seq<Id>)

  function GenreIs(id: Id): Genre -> bool { (g: Genre) => g.id == id }
  function PersonIs(id: Id): Person -> bool { (p: Person) => p.id == id }
  function ProgramIs(id: Id): Program -> bool { (p: Program) => p.id == id }

  function GenreEntries(gs: seq<Genre>): (r: seq<GenreOfRecording>)
    ensures |r| == |gs| && forall i :: 0 <= i < |gs| ==> r[i] == GenreOfRecording(gs[i].id, gs[i].name)
  {
    seq(|gs|, i requires 0 <= i < |gs| => GenreOfRecording(gs[i].id, gs[i].name))
  }

  function PersonEntries(ps: seq<Person>, role: Role): (r: seq<PersonOfRecording>)
    ensures |r| == |ps| && forall i :: 0 <= i < |ps| ==> r[i] == PersonOfRecording(ps[i].id, ps[i].name, ps[i].telegramAccount, role)
  {
    seq(|ps|, i requires 0 <= i < |ps| => PersonOfRecording(ps[i].id, ps[i].name, ps[i].telegramAccount, role))
  }

  /** `recordingGenres inner join genres on genreId = genres.id`, link by link. */
  function GenreJoin(ls: seq<RecordingGenre>, gs: seq<Genre>): seq<GenreOfRecording>
  {
    if ls == [] then [] else GenreEntries(Filter(gs, GenreIs(ls[0].genreId))) + GenreJoin(ls[1..], gs)
  }

  /** `recordingPeople inner join people on personId = people.id`, link by link. */
  function PersonJoin(ls: seq<RecordingPerson>, ps: seq<Person>): seq<PersonOfRecording>
  {
    if ls == [] then [] else PersonEntries(Filter(ps, PersonIs(ls[0].personId)), ls[0].role) + PersonJoin(ls[1..], ps)
  }

  /** `getGenresForRecording` */
  function GenresForRecording(t: Tables, recordingId: Id, fault: Option<Thrown>): ActionResult<seq<GenreOfRecording>>
  {
    if fault.Some? then Caught(fault.value, FetchGenresFailed)
    else Success(GenreJoin(GenreLinksOf(t.recordingGenres, recordingId), t.genres))
  }

  /** `getPeopleForRecording` */
  function PeopleForRecording(t: Tables, recordingId: Id, fault: Option<Thrown>): ActionResult<seq<PersonOfRecording>>
  {
    if fault.Some? then Caught(fault.value, FetchPeopleFailed)
    else Success(PersonJoin(PersonLinksOf(t.recordingPeople, recordingId), t.people))
  }

  function NamesOf(ps: seq<PersonOfRecording>): (r: seq<string>)
    ensures |r| == |ps| && forall i :: 0 <= i < |ps| ==> r[i] == ps[i].personName
  {
    seq(|ps|, i requires 0 <= i < |ps| => ps[i].personName)
  }

  function IdsOf(gs: seq<GenreOfRecording>): (r: seq<Id>)
    ensures |r| == |gs| && forall i :: 0 <= i < |gs| ==> r[i] == gs[i].genreId
  {
    seq(|gs|, i requires 0 <= i < |gs| => gs[i].genreId)
  }

  /** `Array.prototype.join`: the parts with `sep` between neighbours. */
  function JoinWith(parts: seq<string>, sep: string): string
  {
    if |parts| == 0 then "" else if |parts| == 1 then parts[0] else parts[0] + sep + JoinWith(parts[1..], sep)
  }

  /** Joining after appending one part adds the separator and that part. */
  lemma {:induction false} JoinWithAppend(parts: seq<string>, x: string, sep: string)
    requires |parts| > 0
    ensures JoinWith(parts + [x], sep) == JoinWith(parts, sep) + sep + x
  {
    if |parts| == 1 {
      assert (parts + [x])[1..] == [x];
    } else {
      assert (parts + [x])[1..] == parts[1..] + [x];
      JoinWithAppend(parts[1..], x, sep);
    }
  }

  /** The listing rows of one recording: one per program the left join matches, or one with no
      program name. */
  function ListingsOf(t: Tables, r: Recording): seq<Listing>
  {
    var names := JoinWith(NamesOf(PersonJoin(PersonLinksOf(t.recordingPeople, r.id), t.people)), ", ");
    var genreIds := IdsOf(GenreJoin(GenreLinksOf(t.recordingGenres, r.id), t.genres));
    var ms := Filter(t.programs, ProgramIs(r.values.programId));
    if ms == [] then [Listing(r, None, names, genreIds)]
    else seq(|ms|, i requires 0 <= i < |ms| => Listing(r, Some(ms[i].name), names, genreIds))
  }

  function AllListings(t: Tables, rs: seq<Recording>): seq<Listing>
  {
    FlatMap(rs, r => ListingsOf(t, r))
  }

  /** `getRecordings` */
  function Recordings(t: Tables, fault: Option<Thrown>): ActionResult<seq<Listing>>
  {
    if fault.Some? then Caught(fault.value, FetchRecordingsFailed) else Success(AllListings(t, t.recordings))
  }

  // ---------------------------------------------------------------------------
  // What the joins return
  // ---------------------------------------------------------------------------

  /** Every genre row the join returns comes from a link given to it and names an existing genre. */
  lemma {:induction false} GenreJoinSound(ls: seq<RecordingGenre>, gs: seq<Genre>)
    ensures forall e :: e in GenreJoin(ls, gs) ==>
              (exists l :: l in ls && l.genreId == e.genreId) && Genre(e.genreId, e.genreName) in gs
  {
    if ls != [] {
      GenreJoinSound(ls[1..], gs);
      var head := GenreEntries(Filter(gs, GenreIs(ls[0].genreId)));
      forall e | e in head ensures e.genreId == ls[0].genreId && Genre(e.genreId, e.genreName) in gs {
        var i :| 0 <= i < |head| && head[i] == e;
        var g := Filter(gs, GenreIs(ls[0].genreId))[i];
        assert g in Filter(gs, GenreIs(ls[0].genreId));
        assert g == Genre(e.genreId, e.genreName);
      }
      forall e | e in GenreJoin(ls[1..], gs) ensures exists l :: l in ls && l.genreId == e.genreId {
        var l :| l in ls[1..] && l.genreId == e.genreId;
        assert l in ls;
      }
    }
  }

  /** The joined row `e` carries the genre of link `l` and that genre's name. */
  predicate JoinedGenre(e: GenreOfRecording, l: RecordingGenre, gs: seq<Genre>)
  {
    e.genreId == l.genreId && Genre(l.genreId, e.genreName) in gs
  }

  /** On a store whose links resolve, the inner join loses no link and adds none: one row per link,
      in link order, carrying the link's genre and that genre's name. */
  /** A link whose genre exists exactly once contributes exactly one row. */
  lemma {:induction false} GenreJoinStep(ls: seq<RecordingGenre>, gs: seq<Genre>, g: Genre)
    requires ls != [] && UniqueKeys(gs, GenreKey) && g in gs && g.id == ls[0].genreId
    ensures GenreJoin(ls, gs) == [GenreOfRecording(g.id, g.name)] + GenreJoin(ls[1..], gs)
  {
    FilterUniqueKey(gs, GenreKey, GenreIs(ls[0].genreId), g);
    var es := GenreEntries([g]);
    assert es == [GenreOfRecording(g.id, g.name)];
  }

  lemma {:induction false} GenreJoinComplete(ls: seq<RecordingGenre>, gs: seq<Genre>)
    requires UniqueKeys(gs, GenreKey)
    requires forall l :: l in ls ==> l.genreId in GenreIds(gs)
    ensures |GenreJoin(ls, gs)| == |ls|
    ensures forall i :: 0 <= i < |ls| ==> JoinedGenre(GenreJoin(ls, gs)[i], ls[i], gs)
  {
    if ls != [] {
      var tail := ls[1..];
      assert ls[0] in ls;
      var g :| g in gs && g.id == ls[0].genreId;
      GenreJoinStep(ls, gs, g);
      forall l | l in tail ensures l.genreId in GenreIds(gs) {
        assert l in ls;
      }
      GenreJoinComplete(tail, gs);
      var rest := GenreJoin(tail, gs);
      var all := GenreJoin(ls, gs);
      assert JoinedGenre(all[0], ls[0], gs);
      forall i | 0 < i < |ls| ensures JoinedGenre(all[i], ls[i], gs) {
        assert all[i] == rest[i - 1] && ls[i] == tail[i - 1];
      }
    }
  }

  lemma {:induction false} PersonJoinSound(ls: seq<RecordingPerson>, ps: seq<Person>)
    ensures forall e :: e in PersonJoin(ls, ps) ==>
              RecordingPersonOf(ls, e) && Person(e.personId, e.personName, e.telegramAccount) in ps
  {
    if ls != [] {
      PersonJoinSound(ls[1..], ps);
      var ms := Filter(ps, PersonIs(ls[0].personId));
      var head := PersonEntries(ms, ls[0].role);
      forall e | e in head ensures RecordingPersonOf(ls, e) && Person(e.personId, e.personName, e.telegramAccount) in ps {
        var i :| 0 <= i < |head| && head[i] == e;
        assert ms[i] in ms;
        assert ms[i] == Person(e.personId, e.personName, e.telegramAccount);
        assert ls[0] in ls && ls[0].personId == e.personId && ls[0].role == e.role;
      }
      forall e | e in PersonJoin(ls[1..], ps) ensures RecordingPersonOf(ls, e) {
        var l :| l in ls[1..] && l.personId == e.personId && l.role == e.role;
        assert l in ls;
      }
    }
  }

  /** Some link of `ls` carries the person and role of `e`. */
  ghost predicate RecordingPersonOf(ls: seq<RecordingPerson>, e: PersonOfRecording)
  {
    exists l :: l in ls && l.personId == e.personId && l.role == e.role
  }

  /** The joined row `e` carries the person and role of link `l` and that person's name and account. */
  predicate JoinedPerson(e: PersonOfRecording, l: RecordingPerson, ps: seq<Person>)
  {
    e.personId == l.personId && e.role == l.role && Person(l.personId, e.personName, e.telegramAccount) in ps
  }

  /** A link whose person exists exactly once contributes exactly one row. */
  lemma {:induction false} PersonJoinStep(ls: seq<RecordingPerson>, ps: seq<Person>, p: Person)
    requires ls != [] && UniqueKeys(ps, PersonKey) && p in ps && p.id == ls[0].personId
    ensures PersonJoin(ls, ps) == [PersonOfRecording(p.id, p.name, p.telegramAccount, ls[0].role)] + PersonJoin(ls[1..], ps)
  {
    FilterUniqueKey(ps, PersonKey, PersonIs(ls[0].personId), p);
    var es := PersonEntries([p], ls[0].role);
    assert es == [PersonOfRecording(p.id, p.name, p.telegramAccount, ls[0].role)];
  }

  lemma {:induction false} PersonJoinComplete(ls: seq<RecordingPerson>, ps: seq<Person>)
    requires UniqueKeys(ps, PersonKey)
    requires forall l :: l in ls ==> l.personId in PersonIds(ps)
    ensures |PersonJoin(ls, ps)| == |ls|
    ensures forall i :: 0 <= i < |ls| ==> JoinedPerson(PersonJoin(ls, ps)[i], ls[i], ps)
  {
    if ls != [] {
      var tail := ls[1..];
      assert ls[0] in ls;
      var p :| p in ps && p.id == ls[0].personId;
      PersonJoinStep(ls, ps, p);
      forall l | l in tail ensures l.personId in PersonIds(ps) {
        assert l in ls;
      }
      PersonJoinComplete(tail, ps);
      var rest := PersonJoin(tail, ps);
      var all := PersonJoin(ls, ps);
      assert JoinedPerson(all[0], ls[0], ps);
      forall i | 0 < i < |ls| ensures JoinedPerson(all[i], ls[i], ps) {
        assert all[i] == rest[i - 1] && ls[i] == tail[i - 1];
      }
    }
  }

  /** `getGenresForRecording` returns only genres linked to the recording asked for; on a consistent
      store it returns every such link, in link order. */
  lemma GenresForRecordingExact(t: Tables, recordingId: Id)
    ensures forall e :: e in GenresForRecording(t, recordingId, None).data ==>
              RecordingGenre(recordingId, e.genreId) in t.recordingGenres && Genre(e.genreId, e.genreName) in t.genres
    ensures Consistent(t) ==> IdsOf(GenresForRecording(t, recordingId, None).data) == GenreIdsOf(t.recordingGenres, recordingId)
  {
    var mine := GenreLinksOf(t.recordingGenres, recordingId);
    GenreJoinSound(mine, t.genres);
    forall e | e in GenresForRecording(t, recordingId, None).data
      ensures RecordingGenre(recordingId, e.genreId) in t.recordingGenres
    {
      var l :| l in mine && l.genreId == e.genreId;
      assert l == RecordingGenre(recordingId, e.genreId);
    }
    if Consistent(t) {
      GenreJoinComplete(mine, t.genres);
    }
  }

  /** `getPeopleForRecording` returns only people linked to the recording asked for, each with the
      role of its link; on a consistent store one row per link, in link order. */
  lemma PeopleForRecordingExact(t: Tables, recordingId: Id)
    ensures forall e :: e in PeopleForRecording(t, recordingId, None).data ==>
              RecordingPerson(recordingId, e.personId, e.role) in t.recordingPeople &&
              Person(e.personId, e.personName, e.telegramAccount) in t.people
    ensures Consistent(t) ==>
              var rows := PeopleForRecording(t, recordingId, None).data;
              var mine := PersonLinksOf(t.recordingPeople, recordingId);
              |rows| == |mine| &&
              forall i :: 0 <= i < |rows| ==> rows[i].personId == mine[i].personId && rows[i].role == mine[i].role
  {
    var mine := PersonLinksOf(t.recordingPeople, recordingId);
    PersonJoinSound(mine, t.people);
    forall e | e in PeopleForRecording(t, recordingId, None).data
      ensures RecordingPerson(recordingId, e.personId, e.role) in t.recordingPeople
    {
      var l :| l in mine && l.personId == e.personId && l.role == e.role;
      assert l == RecordingPerson(recordingId, e.personId, e.role);
    }
    if Consistent(t) {
      PersonJoinComplete(mine, t.people);
    }
  }

  /** The listing row `e` is the row of recording `r`: the name of its program, its people's names
      joined with ", " and exactly its genre ids. */
  ghost predicate ListingFor(t: Tables, r: Recording, e: Listing)
  {
    && e.recording == r
    && e.program.Some?
    && (exists p :: p in t.programs && p.id == r.values.programId && p.name == e.program.value)
    && e.genreIds == GenreIdsOf(t.recordingGenres, r.id)
    && PeopleNamesFor(t, r, e.peopleNames)
  }

  /** `names` is the names of the people linked to recording `r`, one per link in link order,
      joined with ", ". */
  ghost predicate PeopleNamesFor(t: Tables, r: Recording, names: string)
  {
    var ls := PersonLinksOf(t.recordingPeople, r.id);
    exists js: seq<PersonOfRecording> ::
      && |js| == |ls|
      && (forall i :: 0 <= i < |ls| ==> JoinedPerson(js[i], ls[i], t.people))
      && names == JoinWith(NamesOf(js), ", ")
  }

  /** On a consistent store a recording has exactly one listing row, since its program exists once. */
  lemma ListingOfRecording(t: Tables, r: Recording)
    requires Consistent(t) && r in t.recordings
    ensures |ListingsOf(t, r)| == 1 && ListingFor(t, r, ListingsOf(t, r)[0])
  {
    var p :| p in t.programs && p.id == r.values.programId;
    FilterUniqueKey(t.programs, ProgramKey, ProgramIs(r.values.programId), p);
    GenresForRecordingExact(t, r.id);
    var ls := PersonLinksOf(t.recordingPeople, r.id);
    forall l | l in ls ensures l.personId in PersonIds(t.people) {
      assert l in t.recordingPeople;
    }
    PersonJoinComplete(ls, t.people);
    var e := ListingsOf(t, r)[0];
    assert e.program == Some(p.name);
    assert PeopleNamesFor(t, r, e.peopleNames) by {
      var js := PersonJoin(ls, t.people);
      assert e.peopleNames == JoinWith(NamesOf(js), ", ");
    }
  }

  /** On a consistent store the listing has one row per recording, in table order, each the row of
      its recording. */
  lemma {:induction false} ListingsExact(t: Tables, rs: seq<Recording>)
    requires Consistent(t)
    requires forall r :: r in rs ==> r in t.recordings
    ensures |AllListings(t, rs)| == |rs|
    ensures forall i :: 0 <= i < |rs| ==> ListingFor(t, rs[i], AllListings(t, rs)[i])
  {
    forall i | 0 <= i < |rs| ensures |ListingsOf(t, rs[i])| == 1 && ListingFor(t, rs[i], ListingsOf(t, rs[i])[0]) {
      assert rs[i] in rs;
      ListingOfRecording(t, rs[i]);
    }
    FlatMapSingles(rs, r => ListingsOf(t, r));
  }

  // ---------------------------------------------------------------------------
  // What the writes do
  // ---------------------------------------------------------------------------

  /** Adding a genre link that exists breaks the composite key: the action fails and writes nothing,
      so no duplicate row appears. */
  lemma AddExistingGenreFails(t: Tables, recordingId: Id, genreId: Id, fault: Option<Thrown>)
    requires RecordingGenre(recordingId, genreId) in t.recordingGenres
    ensures AddGenre(t, recordingId, genreId, fault).tables == t
    ensures AddGenre(t, recordingId, genreId, fault).result.Failure?
    ensures fault.None? ==> AddGenre(t, recordingId, genreId, fault).result == Failure(GenreLinkTaken)
  {
    var x := RecordingGenre(recordingId, genreId);
    var ls := t.recordingGenres;
    var k :| 0 <= k < |ls| && ls[k] == x;
    assert (ls + [x])[k] == (ls + [x])[|ls|];
  }

  /** Without a fault, adding a genre link to a consistent store succeeds exactly when the link is
      new and both ends exist, and then appends that one row. */
  lemma AddGenreSucceedsIff(t: Tables, recordingId: Id, genreId: Id)
    requires Consistent(t)
    ensures AddGenre(t, recordingId, genreId, None).result.Success? <==>
              && RecordingGenre(recordingId, genreId) !in t.recordingGenres
              && recordingId in RecordingIds(t.recordings) && genreId in GenreIds(t.genres)
    ensures AddGenre(t, recordingId, genreId, None).result.Success? ==>
              AddGenre(t, recordingId, genreId, None).tables ==
                t.(recordingGenres := t.recordingGenres + [RecordingGenre(recordingId, genreId)])
  {
    var x := RecordingGenre(recordingId, genreId);
    UniqueKeysAppendOne(t.recordingGenres, x, GenreLinkKey);
    assert (forall y :: y in t.recordingGenres ==> GenreLinkKey(y) != GenreLinkKey(x)) <==> x !in t.recordingGenres;
  }

  /** Adding a person who already has a link to the recording fails whatever the roles, and writes
      nothing. */
  lemma AddExistingPersonFails(t: Tables, recordingId: Id, personId: Id, role: Role, existing: Role, fault: Option<Thrown>)
    requires RecordingPerson(recordingId, personId, existing) in t.recordingPeople
    ensures AddPerson(t, recordingId, personId, role, fault).tables == t
    ensures AddPerson(t, recordingId, personId, role, fault).result.Failure?
    ensures fault.None? ==> AddPerson(t, recordingId, personId, role, fault).result == Failure(PersonLinkTaken)
  {
    var x := RecordingPerson(recordingId, personId, role);
    var ls := t.recordingPeople;
    var k :| 0 <= k < |ls| && ls[k] == RecordingPerson(recordingId, personId, existing);
    assert PersonLinkKey((ls + [x])[k]) == PersonLinkKey((ls + [x])[|ls|]);
  }

  lemma AddPersonSucceedsIff(t: Tables, recordingId: Id, personId: Id, role: Role)
    requires Consistent(t)
    ensures AddPerson(t, recordingId, personId, role, None).result.Success? <==>
              && (forall l :: l in t.recordingPeople ==> PersonLinkKey(l) != (recordingId, personId))
              && recordingId in RecordingIds(t.recordings) && personId in PersonIds(t.people)
    ensures AddPerson(t, recordingId, personId, role, None).result.Success? ==>
              AddPerson(t, recordingId, personId, role, None).tables ==
                t.(recordingPeople := t.recordingPeople + [RecordingPerson(recordingId, personId, role)])
  {
    UniqueKeysAppendOne(t.recordingPeople, RecordingPerson(recordingId, personId, role), PersonLinkKey);
  }

  /** Removing a genre from a recording deletes that one link and keeps every other row. */
  lemma RemoveGenreOnlyThatLink(t: Tables, recordingId: Id, genreId: Id, fault: Option<Thrown>)
    requires RemoveGenre(t, recordingId, genreId, fault).result.Success?
    ensures var t' := RemoveGenre(t, recordingId, genreId, fault).tables;
      && (forall l :: l in t'.recordingGenres <==> l in t.recordingGenres && l != RecordingGenre(recordingId, genreId))
      && t' == t.(recordingGenres := t'.recordingGenres)
  {
  }

  /** Removing a person from a recording deletes the link of that pair, whatever its role, and keeps
      every other row. */
  lemma RemovePersonOnlyThatLink(t: Tables, recordingId: Id, personId: Id, fault: Option<Thrown>)
    requires RemovePerson(t, recordingId, personId, fault).result.Success?
    ensures var t' := RemovePerson(t, recordingId, personId, fault).tables;
      && (forall l :: l in t'.recordingPeople <==>
            l in t.recordingPeople && PersonLinkKey(l) != (recordingId, personId))
      && t' == t.(recordingPeople := t'.recordingPeople)
  {
  }

  /** Changing a role touches only the role of the link of that pair: every row keeps its place and
      its key, every other row is unchanged, and the pair is linked with the new role exactly when
      it was linked before. */
  lemma UpdateRoleOnlyThatLink(t: Tables, recordingId: Id, personId: Id, role: Role, fault: Option<Thrown>)
    requires UpdateRole(t, recordingId, personId, role, fault).result.Success?
    ensures var t' := UpdateRole(t, recordingId, personId, role, fault).tables;
      && |t'.recordingPeople| == |t.recordingPeople|
      && (forall i :: 0 <= i < |t.recordingPeople| ==> PersonLinkKey(t'.recordingPeople[i]) == PersonLinkKey(t.recordingPeople[i]))
      && (forall i :: 0 <= i < |t.recordingPeople| && PersonLinkKey(t.recordingPeople[i]) != (recordingId, personId) ==>
            t'.recordingPeople[i] == t.recordingPeople[i])
      && ((exists r :: RecordingPerson(recordingId, personId, r) in t.recordingPeople) <==>
            RecordingPerson(recordingId, personId, role) in t'.recordingPeople)
      && t' == t.(recordingPeople := t'.recordingPeople)
  {
    var ls := t.recordingPeople;
    var ls' := SetRoles(ls, recordingId, personId, role);
    if exists r :: RecordingPerson(recordingId, personId, r) in ls {
      var r :| RecordingPerson(recordingId, personId, r) in ls;
      var i :| 0 <= i < |ls| && ls[i] == RecordingPerson(recordingId, personId, r);
      assert ls'[i] == RecordingPerson(recordingId, personId, role);
    }
    if RecordingPerson(recordingId, personId, role) in ls' {
      var i :| 0 <= i < |ls'| && ls'[i] == RecordingPerson(recordingId, personId, role);
      assert ls[i] in ls;
      assert RecordingPerson(recordingId, personId, ls[i].role) == ls[i];
    }
  }

  /** Deleting a person is refused while a program names them as its host; otherwise it removes the
      person and exactly their links. */
  lemma DeletePersonCascades(t: Tables, id: Id, fault: Option<Thrown>)
    ensures (exists p :: p in t.programs && p.hostId == Some(id)) ==>
              RemovePersonRow(t, id, fault).tables == t && RemovePersonRow(t, id, fault).result.Failure?
    ensures RemovePersonRow(t, id, fault).result.Success? ==>
              var t' := RemovePersonRow(t, id, fault).tables;
              && id !in PersonIds(t'.people)
              && (forall q :: q in t'.people <==> q in t.people && q.id != id)
              && (forall l :: l in t'.recordingPeople <==> l in t.recordingPeople && l.personId != id)
              && t' == t.(people := t'.people, recordingPeople := t'.recordingPeople)
  {
  }

  /** Deleting a genre removes the genre and exactly its links. */
  lemma DeleteGenreCascades(t: Tables, id: Id, fault: Option<Thrown>)
    requires RemoveGenreRow(t, id, fault).result.Success?
    ensures var t' := RemoveGenreRow(t, id, fault).tables;
      && id !in GenreIds(t'.genres)
      && (forall g :: g in t'.genres <==> g in t.genres && g.id != id)
      && (forall l :: l in t'.recordingGenres <==> l in t.recordingGenres && l.genreId != id)
      && t' == t.(genres := t'.genres, recordingGenres := t'.recordingGenres)
  {
  }

  /** Deleting a user removes the user and exactly their sessions. */
  lemma DeleteUserCascades(t: Tables, id: Id, fault: Option<Thrown>)
    requires RemoveUserRow(t, id, fault).result.Success?
    ensures var t' := RemoveUserRow(t, id, fault).tables;
      && id !in UserIds(t'.users)
      && (forall u :: u in t'.users <==> u in t.users && u.id != id)
      && (forall s :: s in t'.sessions <==> s in t.sessions && s.userId != id)
      && t' == t.(users := t'.users, sessions := t'.sessions)
  {
  }

  /** Deleting a program is refused while a recording belongs to it; otherwise it removes exactly
      that program row and nothing else. */
  lemma DeleteProgramRestricted(t: Tables, id: Id, fault: Option<Thrown>)
    ensures (exists r :: r in t.recordings && r.values.programId == id) ==>
              RemoveProgramRow(t, id, fault).tables == t && RemoveProgramRow(t, id, fault).result.Failure?
    ensures RemoveProgramRow(t, id, fault).result.Success? <==>
              fault.None? && forall r :: r in t.recordings ==> r.values.programId != id
    ensures RemoveProgramRow(t, id, fault).result.Success? ==>
              var t' := RemoveProgramRow(t, id, fault).tables;
              && id !in ProgramIds(t'.programs)
              && (forall p :: p in t'.programs <==> p in t.programs && p.id != id)
              && t' == t.(programs := t'.programs)
  {
  }

  /** Deleting a session removes exactly the session with that token. */
  lemma DeleteSessionOnlyThatRow(t: Tables, token: string, fault: Option<Thrown>)
    requires RemoveSessionRow(t, token, fault).result.Success?
    ensures var t' := RemoveSessionRow(t, token, fault).tables;
      && (forall s :: s in t'.sessions <==> s in t.sessions && s.sessionToken != token)
      && t' == t.(sessions := t'.sessions)
  {
  }

  /** Deleting a recording removes the row and exactly its links. */
  lemma DeleteRecordingCascades(t: Tables, id: Id, fault: Option<Thrown>)
    requires RemoveRecording(t, id, fault).result.Success?
    ensures var t' := RemoveRecording(t, id, fault).tables;
      && id !in RecordingIds(t'.recordings)
      && (forall r :: r in t'.recordings <==> r in t.recordings && r.id != id)
      && (forall l :: l in t'.recordingGenres <==> l in t.recordingGenres && l.recordingId != id)
      && (forall l :: l in t'.recordingPeople <==> l in t.recordingPeople && l.recordingId != id)
      && t' == t.(recordings := t'.recordings, recordingGenres := t'.recordingGenres, recordingPeople := t'.recordingPeople)
  {
  }

  /** Updating a person rewrites the row with that id and no other. */
  lemma EditPersonOnlyThatRow(t: Tables, id: Id, name: string, telegramAccount: Option<string>, fault: Option<Thrown>)
    requires EditPerson(t, id, name, telegramAccount, fault).result.Success?
    ensures var t' := EditPerson(t, id, name, telegramAccount, fault).tables;
      && PersonIds(t'.people) == PersonIds(t.people)
      && (forall q :: q in t'.people && q.id != id ==> q in t.people)
      && (forall q :: q in t.people && q.id != id ==> q in t'.people)
      && (forall q :: q in t'.people && q.id == id ==> q == Person(id, name, telegramAccount))
      && t' == t.(people := t'.people)
  {
    var ps := t.people;
    var ps' := SetPersonFields(ps, id, name, telegramAccount);
    forall x | x in PersonIds(ps) ensures x in PersonIds(ps') {
      var i :| 0 <= i < |ps| && ps[i].id == x;
      assert ps'[i].id == x;
    }
    forall q | q in ps && q.id != id ensures q in ps' {
      var i :| 0 <= i < |ps| && ps[i] == q;
      assert ps'[i] == q;
    }
  }

  // ---------------------------------------------------------------------------
  // The actions on the database object
  // ---------------------------------------------------------------------------

  method AddGenreToRecording(db: Db, recordingId: Id, genreId: Id, fault: Option<Thrown>) returns (r: ActionResult<()>)
    modifies db
    ensures Outcome(db.Snapshot(), r) == AddGenre(old(db.Snapshot()), recordingId, genreId, fault)
    ensures old(db.Valid()) ==> db.Valid()
  {
    var err := db.InsertGenreLinks([RecordingGenre(recordingId, genreId)], fault);
    if err.Some? {
      return Caught(err.value, AddGenreFailed);
    }
    return Success(());
  }

  method RemoveGenreFromRecording(db: Db, recordingId: Id, genreId: Id, fault: Option<Thrown>) returns (r: ActionResult<()>)
    modifies db
    ensures Outcome(db.Snapshot(), r) == RemoveGenre(old(db.Snapshot()), recordingId, genreId, fault)
    ensures old(db.Valid()) ==> db.Valid()
  {
    var err := db.DeleteGenreLink(recordingId, genreId, fault);
    if err.Some? {
      return Caught(err.value, RemoveGenreFailed);
    }
    return Success(());
  }

  method AddPersonToRecording(db: Db, recordingId: Id, personId: Id, role: Role, fault: Option<Thrown>)
    returns (r: ActionResult<()>)
    modifies db
    ensures Outcome(db.Snapshot(), r) == AddPerson(old(db.Snapshot()), recordingId, personId, role, fault)
    ensures old(db.Valid()) ==> db.Valid()
  {
    var err := db.InsertPersonLinks([RecordingPerson(recordingId, personId, role)], fault);
    if err.Some? {
      return Caught(err.value, AddPersonFailed);
    }
    return Success(());
  }

  method RemovePersonFromRecording(db: Db, recordingId: Id, personId: Id, fault: Option<Thrown>) returns (r: ActionResult<()>)
    modifies db
    ensures Outcome(db.Snapshot(), r) == RemovePerson(old(db.Snapshot()), recordingId, personId, fault)
    ensures old(db.Valid()) ==> db.Valid()
  {
    var err := db.DeletePersonLink(recordingId, personId, fault);
    if err.Some? {
      return Caught(err.value, RemovePersonFailed);
    }
    return Success(());
  }

  method UpdatePersonRoleInRecording(db: Db, recordingId: Id, personId: Id, role: Role, fault: Option<Thrown>)
    returns (r: ActionResult<()>)
    modifies db
    ensures Outcome(db.Snapshot(), r) == UpdateRole(old(db.Snapshot()), recordingId, personId, role, fault)
    ensures old(db.Valid()) ==> db.Valid()
  {
    var err := db.SetPersonLinkRole(recordingId, personId, role, fault);
    if err.Some? {
      return Caught(err.value, UpdateRoleFailed);
    }
    return Success(());
  }

  method DeleteRecordingAction(db: Db, id: Id, fault: Option<Thrown>) returns (r: ActionResult<()>)
    modifies db
    ensures Outcome(db.Snapshot(), r) == RemoveRecording(old(db.Snapshot()), id, fault)
    ensures old(db.Valid()) ==> db.Valid()
  {
    var err := db.DeleteRecording(id, fault);
    if err.Some? {
      return Caught(err.value, DeleteRecordingFailed);
    }
    return Success(());
  }

  method DeletePersonAction(db: Db, id: Id, fault: Option<Thrown>) returns (r: ActionResult<()>)
    modifies db
    ensures Outcome(db.Snapshot(), r) == RemovePersonRow(old(db.Snapshot()), id, fault)
    ensures old(db.Valid()) ==> db.Valid()
  {
    var err := db.DeletePerson(id, fault);
    if err.Some? {
      return Caught(err.value, DeletePersonFailed);
    }
    return Success(());
  }

  method DeleteGenreAction(db: Db, id: Id, fault: Option<Thrown>) returns (r: ActionResult<()>)
    modifies db
    ensures Outcome(db.Snapshot(), r) == RemoveGenreRow(old(db.Snapshot()), id, fault)
    ensures old(db.Valid()) ==> db.Valid()
  {
    var err := db.DeleteGenre(id, fault);
    if err.Some? {
      return Caught(err.value, DeleteGenreFailed);
    }
    return Success(());
  }

  method DeleteUserAction(db: Db, id: Id, fault: Option<Thrown>) returns (r: ActionResult<()>)
    modifies db
    ensures Outcome(db.Snapshot(), r) == RemoveUserRow(old(db.Snapshot()), id, fault)
    ensures old(db.Valid()) ==> db.Valid()
  {
    var err := db.DeleteUser(id, fault);
    if err.Some? {
      return Caught(err.value, DeleteUserFailed);
    }
    return Success(());
  }

  method DeleteProgramAction(db: Db, id: Id, fault: Option<Thrown>) returns (r: ActionResult<()>)
    modifies db
    ensures Outcome(db.Snapshot(), r) == RemoveProgramRow(old(db.Snapshot()), id, fault)
    ensures old(db.Valid()) ==> db.Valid()
  {
    var err := db.DeleteProgram(id, fault);
    if err.Some? {
      return Caught(err.value, DeleteProgramFailed);
    }
    return Success(());
  }

  method DeleteSessionAction(db: Db, token: string, fault: Option<Thrown>) returns (r: ActionResult<()>)
    modifies db
    ensures Outcome(db.Snapshot(), r) == RemoveSessionRow(old(db.Snapshot()), token, fault)
    ensures old(db.Valid()) ==> db.Valid()
  {
    var err := db.DeleteSession(token, fault);
    if err.Some? {
      return Caught(err.value, DeleteSessionFailed);
    }
    return Success(());
  }

  method UpdatePersonAction(db: Db, id: Id, name: string, telegramAccount: Option<string>, fault: Option<Thrown>)
    returns (r: ActionResult<()>)
    modifies db
    ensures Outcome(db.Snapshot(), r) == EditPerson(old(db.Snapshot()), id, name, telegramAccount, fault)
    ensures old(db.Valid()) ==> db.Valid()
  {
    var err := db.UpdatePerson(id, name, telegramAccount, fault);
    if err.Some? {
      return Caught(err.value, UpdatePersonFailed);
    }
    return Success(());
  }

  method GetGenresForRecording(db: Db, recordingId: Id, fault: Option<Thrown>) returns (r: ActionResult<seq<GenreOfRecording>>)
    ensures r == GenresForRecording(db.Snapshot(), recordingId, fault)
  {
    if fault.Some? {
      return Caught(fault.value, FetchGenresFailed);
    }
    return Success(GenreJoin(GenreLinksOf(db.recordingGenres, recordingId), db.genres));
  }

  method GetPeopleForRecording(db: Db, recordingId: Id, fault: Option<Thrown>) returns (r: ActionResult<seq<PersonOfRecording>>)
    ensures r == PeopleForRecording(db.Snapshot(), recordingId, fault)
  {
    if fault.Some? {
      return Caught(fault.value, FetchPeopleFailed);
    }
    return Success(PersonJoin(PersonLinksOf(db.recordingPeople, recordingId), db.people));
  }

  method GetRecordings(db: Db, fault: Option<Thrown>) returns (r: ActionResult<seq<Listing>>)
    ensures r == Recordings(db.Snapshot(), fault)
  {
    if fault.Some? {
      return Caught(fault.value, FetchRecordingsFailed);
    }
    return Success(AllListings(db.Snapshot(), db.recordings));
  }
}
