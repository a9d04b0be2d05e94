/** The relational store behind the actions: what each SQL statement the actions issue does to the
    tables of `Schema`, as pure functions, and a `Db` object whose methods run those statements in
    place. A statement either completes or throws and leaves every table as it was (SQLite runs each
    statement atomically); a multi-row insert is one statement. */
module Store {
  import opened Results
  import opened Seqs
  import opened Schema

  /** The effect of one statement: the tables it leaves, or the value it throws. */
  datatype Exec = Done(tables: Tables) | Raised(thrown: Thrown)

  function ExecOf(err: Option<Thrown>, t: Tables): Exec
  {
    if err.Some? then Raised(err.value) else Done(t)
  }

  /** The tables an action leaves and the result it returns. */
  datatype Outcome<T> = Outcome(tables: Tables, result: ActionResult<T>)

  /** An action of one statement: `value` when it completes; when it throws, the store is as it
      was and the action returns the thrown message, or `fallback` for a value that is no `Error`. */
  function Finish<T>(t: Tables, e: Exec, value: T, fallback: string): (o: Outcome<T>)
    ensures e.Done? ==> o == Outcome(e.tables, Success(value))
    ensures e.Raised? && e.thrown.ErrorValue? ==> o == Outcome(t, Failure(e.thrown.message))
    ensures e.Raised? && e.thrown.OtherValue? ==> o == Outcome(t, Failure(fallback))
  {
    if e.Raised? then Outcome(t, Caught(e.thrown, fallback)) else Outcome(e.tables, Success(value))
  }

  // The messages SQLite gives for the constraint violations the model detects.
  const ForeignKeyFailed: string := "FOREIGN KEY constraint failed"
  const RecordingIdTaken: string := "UNIQUE constraint failed: recordings.id"
  const GenreLinkTaken: string := "UNIQUE constraint failed: recordingGenres.recordingId, recordingGenres.genreId"
  const PersonLinkTaken: string := "UNIQUE constraint failed: recordingPeople.recordingId, recordingPeople.personId"

  // ---------------------------------------------------------------------------
  // WHERE clauses
  // ---------------------------------------------------------------------------

  function RecordingIs(id: Id): Recording -> bool { (r: Recording) => r.id == id }
  function RecordingIsNot(id: Id): Recording -> bool { (r: Recording) => r.id != id }
  function GenreLinkOf(id: Id): RecordingGenre -> bool { (l: RecordingGenre) => l.recordingId == id }
  function GenreLinkNotOf(id: Id): RecordingGenre -> bool { (l: RecordingGenre) => l.recordingId != id }
  function PersonLinkOf(id: Id): RecordingPerson -> bool { (l: RecordingPerson) => l.recordingId == id }
  function PersonLinkNotOf(id: Id): RecordingPerson -> bool { (l: RecordingPerson) => l.recordingId != id }
  function HasRole(role: Role): RecordingPerson -> bool { (l: RecordingPerson) => l.role == role }

  /** The genre links of one recording, in storage order. */
  function GenreLinksOf(ls: seq<RecordingGenre>, recordingId: Id): seq<RecordingGenre>
  {
    Filter(ls, GenreLinkOf(recordingId))
  }

  /** The person links of one recording, in storage order. */
  function PersonLinksOf(ls: seq<RecordingPerson>, recordingId: Id): seq<RecordingPerson>
  {
    Filter(ls, PersonLinkOf(recordingId))
  }

  function GenreIdsIn(ls: seq<RecordingGenre>): (ids: seq<Id>)
    ensures |ids| == |ls| && forall i :: 0 <= i < |ls| ==> ids[i] == ls[i].genreId
  {
    seq(|ls|, i requires 0 <= i < |ls| => ls[i].genreId)
  }

  function PersonIdsIn(ls: seq<RecordingPerson>): (ids: seq<Id>)
    ensures |ids| == |ls| && forall i :: 0 <= i < |ls| ==> ids[i] == ls[i].personId
  {
    seq(|ls|, i requires 0 <= i < |ls| => ls[i].personId)
  }

  /** `select genreId from recordingGenres where recordingId = ?` */
  function GenreIdsOf(ls: seq<RecordingGenre>, recordingId: Id): seq<Id>
  {
    GenreIdsIn(GenreLinksOf(ls, recordingId))
  }

  /** The ids of the people linked to a recording in one role. */
  function PersonIdsWithRole(ls: seq<RecordingPerson>, recordingId: Id, role: Role): seq<Id>
  {
    PersonIdsIn(Filter(PersonLinksOf(ls, recordingId), HasRole(role)))
  }

  /** `select * from recordings where id = ?`, the first row. */
  function FindRecording(rs: seq<Recording>, id: Id): (r: Option<Recording>)
    ensures r.Some? <==> id in RecordingIds(rs)
    ensures r.Some? ==> r.value in rs && r.value.id == id
  {
    if rs == [] then None
    else if rs[0].id == id then Some(rs[0])
    else
      assert RecordingIds(rs) == {rs[0].id} + RecordingIds(rs[1..]) by {
        assert rs == [rs[0]] + rs[1..];
      }
      FindRecording(rs[1..], id)
  }

  lemma GenreIdsInAppend(a: seq<RecordingGenre>, b: seq<RecordingGenre>)
    ensures GenreIdsIn(a + b) == GenreIdsIn(a) + GenreIdsIn(b)
  {
    assert forall i :: 0 <= i < |a + b| ==> GenreIdsIn(a + b)[i] == (GenreIdsIn(a) + GenreIdsIn(b))[i];
  }

  lemma PersonIdsInAppend(a: seq<RecordingPerson>, b: seq<RecordingPerson>)
    ensures PersonIdsIn(a + b) == PersonIdsIn(a) + PersonIdsIn(b)
  {
    assert forall i :: 0 <= i < |a + b| ==> PersonIdsIn(a + b)[i] == (PersonIdsIn(a) + PersonIdsIn(b))[i];
  }

  // ---------------------------------------------------------------------------
  // Statements
  // ---------------------------------------------------------------------------

  /** `insert into recordings values (row)`: the key must be new and the program must exist. */
  function InsertRecording(t: Tables, row: Recording, fault: Option<Thrown>): Exec
  {
    if fault.Some? then Raised(fault.value)
    else if row.id in RecordingIds(t.recordings) then Raised(ErrorValue(RecordingIdTaken))
    else if row.values.programId !in ProgramIds(t.programs) then Raised(ErrorValue(ForeignKeyFailed))
    else Done(t.(recordings := t.recordings + [row]))
  }

  function SetRecordingValues(rs: seq<Recording>, id: Id, v: RecordingValues): (rs': seq<Recording>)
    ensures |rs'| == |rs|
    ensures forall i :: 0 <= i < |rs| ==> rs'[i] == if rs[i].id == id then Recording(id, v) else rs[i]
  {
    seq(|rs|, i requires 0 <= i < |rs| => if rs[i].id == id then Recording(id, v) else rs[i])
  }

  /** `update recordings set v where id = ?`: no matching row is no change; a matching row must keep
      a program reference that resolves. */
  function UpdateRecording(t: Tables, id: Id, v: RecordingValues, fault: Option<Thrown>): Exec
  {
    if fault.Some? then Raised(fault.value)
    else if id !in RecordingIds(t.recordings) then Done(t)
    else if v.programId !in ProgramIds(t.programs) then Raised(ErrorValue(ForeignKeyFailed))
    else Done(t.(recordings := SetRecordingValues(t.recordings, id, v)))
  }

  /** `delete from recordings where id = ?`, with the cascades of both link tables. */
  function DeleteRecording(t: Tables, id: Id, fault: Option<Thrown>): Exec
  {
    if fault.Some? then Raised(fault.value)
    else Done(t.(recordings := Filter(t.recordings, RecordingIsNot(id)),
                 recordingGenres := Filter(t.recordingGenres, GenreLinkNotOf(id)),
                 recordingPeople := Filter(t.recordingPeople, PersonLinkNotOf(id))))
  }

  /** `insert into recordingGenres values rows...`: all rows or none. */
  function InsertGenreLinks(t: Tables, rows: seq<RecordingGenre>, fault: Option<Thrown>): Exec
  {
    if fault.Some? then Raised(fault.value)
    else if !UniqueKeys(t.recordingGenres + rows, GenreLinkKey) then Raised(ErrorValue(GenreLinkTaken))
    else if !(forall l :: l in rows ==> l.recordingId in RecordingIds(t.recordings) && l.genreId in GenreIds(t.genres))
    then Raised(ErrorValue(ForeignKeyFailed))
    else Done(t.(recordingGenres := t.recordingGenres + rows))
  }

  /** `delete from recordingGenres where recordingId = ?` */
  function DeleteGenreLinksOf(t: Tables, recordingId: Id, fault: Option<Thrown>): Exec
  {
    if fault.Some? then Raised(fault.value)
    else Done(t.(recordingGenres := Filter(t.recordingGenres, GenreLinkNotOf(recordingId))))
  }

  function NotGenreLink(recordingId: Id, genreId: Id): RecordingGenre -> bool
  {
    (l: RecordingGenre) => !(l.recordingId == recordingId && l.genreId == genreId)
  }

  /** `delete from recordingGenres where recordingId = ? and genreId = ?` */
  function DeleteGenreLink(t: Tables, recordingId: Id, genreId: Id, fault: Option<Thrown>): Exec
  {
    if fault.Some? then Raised(fault.value)
    else Done(t.(recordingGenres := Filter(t.recordingGenres, NotGenreLink(recordingId, genreId))))
  }

  /** `insert into recordingPeople values rows...`: all rows or none. */
  function InsertPersonLinks(t: Tables, rows: seq<RecordingPerson>, fault: Option<Thrown>): Exec
  {
    if fault.Some? then Raised(fault.value)
    else if !UniqueKeys(t.recordingPeople + rows, PersonLinkKey) then Raised(ErrorValue(PersonLinkTaken))
    else if !(forall l :: l in rows ==> l.recordingId in RecordingIds(t.recordings) && l.personId in PersonIds(t.people))
    then Raised(ErrorValue(ForeignKeyFailed))
    else Done(t.(recordingPeople := t.recordingPeople + rows))
  }

  /** `delete from recordingPeople where recordingId = ?` */
  function DeletePersonLinksOf(t: Tables, recordingId: Id, fault: Option<Thrown>): Exec
  {
    if fault.Some? then Raised(fault.value)
    else Done(t.(recordingPeople := Filter(t.recordingPeople, PersonLinkNotOf(recordingId))))
  }

  function NotPersonLink(recordingId: Id, personId: Id): RecordingPerson -> bool
  {
    (l: RecordingPerson) => !(l.recordingId == recordingId && l.personId == personId)
  }

  /** `delete from recordingPeople where recordingId = ? and personId = ?`, whatever the role. */
  function DeletePersonLink(t: Tables, recordingId: Id, personId: Id, fault: Option<Thrown>): Exec
  {
    if fault.Some? then Raised(fault.value)
    else Done(t.(recordingPeople := Filter(t.recordingPeople, NotPersonLink(recordingId, personId))))
  }

  function SetRoles(ls: seq<RecordingPerson>, recordingId: Id, personId: Id, role: Role): (ls': seq<RecordingPerson>)
    ensures |ls'| == |ls|
    ensures forall i :: 0 <= i < |ls| ==>
              ls'[i] == if ls[i].recordingId == recordingId && ls[i].personId == personId
                        then ls[i].(role := role) else ls[i]
  {
    seq(|ls|, i requires 0 <= i < |ls| =>
      if ls[i].recordingId == recordingId && ls[i].personId == personId then ls[i].(role := role) else ls[i])
  }

  /** `update recordingPeople set role = ? where recordingId = ? and personId = ?` */
  function SetPersonLinkRole(t: Tables, recordingId: Id, personId: Id, role: Role, fault: Option<Thrown>): Exec
  {
    if fault.Some? then Raised(fault.value)
    else Done(t.(recordingPeople := SetRoles(t.recordingPeople, recordingId, personId, role)))
  }

  function PersonIsNot(id: Id): Person -> bool { (p: Person) => p.id != id }
  function GenreIsNot(id: Id): Genre -> bool { (g: Genre) => g.id != id }
  function UserIsNot(id: Id): User -> bool { (u: User) => u.id != id }
  function LinkNotToPerson(id: Id): RecordingPerson -> bool { (l: RecordingPerson) => l.personId != id }
  function LinkNotToGenre(id: Id): RecordingGenre -> bool { (l: RecordingGenre) => l.genreId != id }
  function SessionNotOf(id: Id): Session -> bool { (s: Session) => s.userId != id }
  function ProgramIsNot(id: Id): Program -> bool { (p: Program) => p.id != id }
  function SessionTokenIsNot(token: string): Session -> bool { (s: Session) => s.sessionToken != token }

  /** `delete from people where id = ?`: the links to the person go with it (cascade); a program
      that names the person as its host blocks the delete (a reference without a cascade). */
  function DeletePerson(t: Tables, id: Id, fault: Option<Thrown>): Exec
  {
    if fault.Some? then Raised(fault.value)
    else if exists p :: p in t.programs && p.hostId == Some(id) then Raised(ErrorValue(ForeignKeyFailed))
    else Done(t.(people := Filter(t.people, PersonIsNot(id)),
                 recordingPeople := Filter(t.recordingPeople, LinkNotToPerson(id))))
  }

  /** `delete from genres where id = ?`, with the cascade of its recording links. */
  function DeleteGenre(t: Tables, id: Id, fault: Option<Thrown>): Exec
  {
    if fault.Some? then Raised(fault.value)
    else Done(t.(genres := Filter(t.genres, GenreIsNot(id)),
                 recordingGenres := Filter(t.recordingGenres, LinkNotToGenre(id))))
  }

  /** `delete from programs where id = ?`: a recording of the program blocks the delete (a
      reference without a cascade). */
  function DeleteProgram(t: Tables, id: Id, fault: Option<Thrown>): Exec
  {
    if fault.Some? then Raised(fault.value)
    else if exists r :: r in t.recordings && r.values.programId == id then Raised(ErrorValue(ForeignKeyFailed))
    else Done(t.(programs := Filter(t.programs, ProgramIsNot(id))))
  }

  /** `delete from session where sessionToken = ?`; nothing references a session. */
  function DeleteSession(t: Tables, token: string, fault: Option<Thrown>): Exec
  {
    if fault.Some? then Raised(fault.value)
    else Done(t.(sessions := Filter(t.sessions, SessionTokenIsNot(token))))
  }

  /** `delete from user where id = ?`, with the cascade of the user's sessions. */
  function DeleteUser(t: Tables, id: Id, fault: Option<Thrown>): Exec
  {
    if fault.Some? then Raised(fault.value)
    else Done(t.(users := Filter(t.users, UserIsNot(id)),
                 sessions := Filter(t.sessions, SessionNotOf(id))))
  }

  function SetPersonFields(ps: seq<Person>, id: Id, name: string, telegramAccount: Option<string>): (ps': seq<Person>)
    ensures |ps'| == |ps|
    ensures forall i :: 0 <= i < |ps| ==>
              ps'[i] == if ps[i].id == id then Person(id, name, telegramAccount) else ps[i]
  {
    seq(|ps|, i requires 0 <= i < |ps| => if ps[i].id == id then Person(id, name, telegramAccount) else ps[i])
  }

  /** `update people set name = ?, telegramAccount = ? where id = ?` */
  function UpdatePerson(t: Tables, id: Id, name: string, telegramAccount: Option<string>, fault: Option<Thrown>): Exec
  {
    if fault.Some? then Raised(fault.value)
    else Done(t.(people := SetPersonFields(t.people, id, name, telegramAccount)))
  }

  // ---------------------------------------------------------------------------
  // What the selects see after the statements
  // ---------------------------------------------------------------------------

  lemma GenreLinksOfAppend(a: seq<RecordingGenre>, b: seq<RecordingGenre>, id: Id)
    ensures GenreLinksOf(a + b, id) == GenreLinksOf(a, id) + GenreLinksOf(b, id)
  {
    FilterDistributes(a, b, GenreLinkOf(id));
  }

  lemma PersonLinksOfAppend(a: seq<RecordingPerson>, b: seq<RecordingPerson>, id: Id)
    ensures PersonLinksOf(a + b, id) == PersonLinksOf(a, id) + PersonLinksOf(b, id)
  {
    FilterDistributes(a, b, PersonLinkOf(id));
  }

  /** After the links of `id` are deleted, `id` has none and every other recording keeps its own. */
  lemma GenreLinksOfAfterDelete(ls: seq<RecordingGenre>, id: Id, other: Id)
    ensures GenreLinksOf(Filter(ls, GenreLinkNotOf(id)), other) ==
              if other == id then [] else GenreLinksOf(ls, other)
  {
    if other == id {
      FilterDisjoint(ls, GenreLinkNotOf(id), GenreLinkOf(other));
    } else {
      FilterFilter(ls, GenreLinkNotOf(id), GenreLinkOf(other));
    }
  }

  lemma PersonLinksOfAfterDelete(ls: seq<RecordingPerson>, id: Id, other: Id)
    ensures PersonLinksOf(Filter(ls, PersonLinkNotOf(id)), other) ==
              if other == id then [] else PersonLinksOf(ls, other)
  {
    if other == id {
      FilterDisjoint(ls, PersonLinkNotOf(id), PersonLinkOf(other));
    } else {
      FilterFilter(ls, PersonLinkNotOf(id), PersonLinkOf(other));
    }
  }

  /** A recording that is not in the table has no links in a consistent store. */
  lemma NoLinksOfMissingRecording(t: Tables, id: Id)
    requires ReferencesResolve(t)
    requires id !in RecordingIds(t.recordings)
    ensures GenreLinksOf(t.recordingGenres, id) == []
    ensures PersonLinksOf(t.recordingPeople, id) == []
  {
    FilterNone(t.recordingGenres, GenreLinkOf(id));
    FilterNone(t.recordingPeople, PersonLinkOf(id));
  }

  // ---------------------------------------------------------------------------
  // Every statement keeps the schema's invariant
  // ---------------------------------------------------------------------------

  lemma InsertRecordingKeepsConsistent(t: Tables, row: Recording, fault: Option<Thrown>)
    requires Consistent(t)
    ensures InsertRecording(t, row, fault).Done? ==> Consistent(InsertRecording(t, row, fault).tables)
  {
    if InsertRecording(t, row, fault).Done? {
      var t' := InsertRecording(t, row, fault).tables;
      UniqueKeysAppend(t.recordings, [row], RecordingKey);
      assert RecordingIds(t'.recordings) == RecordingIds(t.recordings) + {row.id};
    }
  }

  lemma UpdateRecordingKeepsConsistent(t: Tables, id: Id, v: RecordingValues, fault: Option<Thrown>)
    requires Consistent(t)
    ensures UpdateRecording(t, id, v, fault).Done? ==> Consistent(UpdateRecording(t, id, v, fault).tables)
  {
    var e := UpdateRecording(t, id, v, fault);
    if e.Done? && id in RecordingIds(t.recordings) {
      var rs := t.recordings;
      var rs' := e.tables.recordings;
      SameKeysKeepUniqueKeys(rs, rs', RecordingKey);
      assert RecordingIds(rs') == RecordingIds(rs) by {
        forall x | x in RecordingIds(rs) ensures x in RecordingIds(rs') {
          var i :| 0 <= i < |rs| && rs[i].id == x;
          assert rs'[i].id == x;
        }
        forall x | x in RecordingIds(rs') ensures x in RecordingIds(rs) {
          var i :| 0 <= i < |rs'| && rs'[i].id == x;
          assert rs[i].id == x;
        }
      }
      forall r | r in rs' ensures r.values.programId in ProgramIds(t.programs) {
        var i :| 0 <= i < |rs'| && rs'[i] == r;
        assert rs[i] in rs;
      }
    }
  }

  lemma DeleteRecordingKeepsConsistent(t: Tables, id: Id, fault: Option<Thrown>)
    requires Consistent(t)
    ensures DeleteRecording(t, id, fault).Done? ==> Consistent(DeleteRecording(t, id, fault).tables)
  {
    if fault.None? {
      var t' := DeleteRecording(t, id, fault).tables;
      FilterKeepsUniqueKeys(t.recordings, RecordingIsNot(id), RecordingKey);
      FilterKeepsUniqueKeys(t.recordingGenres, GenreLinkNotOf(id), GenreLinkKey);
      FilterKeepsUniqueKeys(t.recordingPeople, PersonLinkNotOf(id), PersonLinkKey);
      forall l | l in t'.recordingGenres ensures l.recordingId in RecordingIds(t'.recordings) {
        var r :| r in t.recordings && r.id == l.recordingId;
        assert r in t'.recordings;
      }
      forall l | l in t'.recordingPeople ensures l.recordingId in RecordingIds(t'.recordings) {
        var r :| r in t.recordings && r.id == l.recordingId;
        assert r in t'.recordings;
      }
    }
  }

  lemma InsertGenreLinksKeepsConsistent(t: Tables, rows: seq<RecordingGenre>, fault: Option<Thrown>)
    requires Consistent(t)
    ensures InsertGenreLinks(t, rows, fault).Done? ==> Consistent(InsertGenreLinks(t, rows, fault).tables)
  {
  }

  lemma DeleteGenreLinksOfKeepsConsistent(t: Tables, recordingId: Id, fault: Option<Thrown>)
    requires Consistent(t)
    ensures DeleteGenreLinksOf(t, recordingId, fault).Done? ==> Consistent(DeleteGenreLinksOf(t, recordingId, fault).tables)
  {
    FilterKeepsUniqueKeys(t.recordingGenres, GenreLinkNotOf(recordingId), GenreLinkKey);
  }

  lemma DeleteGenreLinkKeepsConsistent(t: Tables, recordingId: Id, genreId: Id, fault: Option<Thrown>)
    requires Consistent(t)
    ensures DeleteGenreLink(t, recordingId, genreId, fault).Done? ==>
              Consistent(DeleteGenreLink(t, recordingId, genreId, fault).tables)
  {
    FilterKeepsUniqueKeys(t.recordingGenres, NotGenreLink(recordingId, genreId), GenreLinkKey);
  }

  lemma InsertPersonLinksKeepsConsistent(t: Tables, rows: seq<RecordingPerson>, fault: Option<Thrown>)
    requires Consistent(t)
    ensures InsertPersonLinks(t, rows, fault).Done? ==> Consistent(InsertPersonLinks(t, rows, fault).tables)
  {
  }

  lemma DeletePersonLinksOfKeepsConsistent(t: Tables, recordingId: Id, fault: Option<Thrown>)
    requires Consistent(t)
    ensures DeletePersonLinksOf(t, recordingId, fault).Done? ==> Consistent(DeletePersonLinksOf(t, recordingId, fault).tables)
  {
    FilterKeepsUniqueKeys(t.recordingPeople, PersonLinkNotOf(recordingId), PersonLinkKey);
  }

  lemma DeletePersonLinkKeepsConsistent(t: Tables, recordingId: Id, personId: Id, fault: Option<Thrown>)
    requires Consistent(t)
    ensures DeletePersonLink(t, recordingId, personId, fault).Done? ==>
              Consistent(DeletePersonLink(t, recordingId, personId, fault).tables)
  {
    FilterKeepsUniqueKeys(t.recordingPeople, NotPersonLink(recordingId, personId), PersonLinkKey);
  }

  lemma SetPersonLinkRoleKeepsConsistent(t: Tables, recordingId: Id, personId: Id, role: Role, fault: Option<Thrown>)
    requires Consistent(t)
    ensures SetPersonLinkRole(t, recordingId, personId, role, fault).Done? ==>
              Consistent(SetPersonLinkRole(t, recordingId, personId, role, fault).tables)
  {
    if fault.None? {
      var ls := t.recordingPeople;
      var ls' := SetRoles(ls, recordingId, personId, role);
      SameKeysKeepUniqueKeys(ls, ls', PersonLinkKey);
      forall l | l in ls' ensures l.recordingId in RecordingIds(t.recordings) && l.personId in PersonIds(t.people) {
        var i :| 0 <= i < |ls'| && ls'[i] == l;
        assert ls[i] in ls;
      }
    }
  }

  lemma DeletePersonKeepsConsistent(t: Tables, id: Id, fault: Option<Thrown>)
    requires Consistent(t)
    ensures DeletePerson(t, id, fault).Done? ==> Consistent(DeletePerson(t, id, fault).tables)
  {
    if DeletePerson(t, id, fault).Done? {
      var t' := DeletePerson(t, id, fault).tables;
      FilterKeepsUniqueKeys(t.people, PersonIsNot(id), PersonKey);
      FilterKeepsUniqueKeys(t.recordingPeople, LinkNotToPerson(id), PersonLinkKey);
      forall p | p in t'.programs && p.hostId.Some? ensures p.hostId.value in PersonIds(t'.people) {
        var q :| q in t.people && q.id == p.hostId.value;
        assert q in t'.people;
      }
      forall l | l in t'.recordingPeople ensures l.personId in PersonIds(t'.people) {
        var q :| q in t.people && q.id == l.personId;
        assert q in t'.people;
      }
    }
  }

  lemma DeleteGenreKeepsConsistent(t: Tables, id: Id, fault: Option<Thrown>)
    requires Consistent(t)
    ensures DeleteGenre(t, id, fault).Done? ==> Consistent(DeleteGenre(t, id, fault).tables)
  {
    if fault.None? {
      var t' := DeleteGenre(t, id, fault).tables;
      FilterKeepsUniqueKeys(t.genres, GenreIsNot(id), GenreKey);
      FilterKeepsUniqueKeys(t.recordingGenres, LinkNotToGenre(id), GenreLinkKey);
      forall l | l in t'.recordingGenres ensures l.genreId in GenreIds(t'.genres) {
        var g :| g in t.genres && g.id == l.genreId;
        assert g in t'.genres;
      }
    }
  }

  lemma DeleteUserKeepsConsistent(t: Tables, id: Id, fault: Option<Thrown>)
    requires Consistent(t)
    ensures DeleteUser(t, id, fault).Done? ==> Consistent(DeleteUser(t, id, fault).tables)
  {
    if fault.None? {
      var t' := DeleteUser(t, id, fault).tables;
      FilterKeepsUniqueKeys(t.users, UserIsNot(id), UserKey);
      FilterKeepsUniqueKeys(t.sessions, SessionNotOf(id), SessionKey);
      forall s | s in t'.sessions ensures s.userId in UserIds(t'.users) {
        var u :| u in t.users && u.id == s.userId;
        assert u in t'.users;
      }
    }
  }

  lemma DeleteProgramKeepsConsistent(t: Tables, id: Id, fault: Option<Thrown>)
    requires Consistent(t)
    ensures DeleteProgram(t, id, fault).Done? ==> Consistent(DeleteProgram(t, id, fault).tables)
  {
    if DeleteProgram(t, id, fault).Done? {
      var t' := DeleteProgram(t, id, fault).tables;
      FilterKeepsUniqueKeys(t.programs, ProgramIsNot(id), ProgramKey);
      forall r | r in t'.recordings ensures r.values.programId in ProgramIds(t'.programs) {
        var p :| p in t.programs && p.id == r.values.programId;
        assert p in t'.programs;
      }
    }
  }

  lemma DeleteSessionKeepsConsistent(t: Tables, token: string, fault: Option<Thrown>)
    requires Consistent(t)
    ensures DeleteSession(t, token, fault).Done? ==> Consistent(DeleteSession(t, token, fault).tables)
  {
    if fault.None? {
      FilterKeepsUniqueKeys(t.sessions, SessionTokenIsNot(token), SessionKey);
    }
  }

  lemma UpdatePersonKeepsConsistent(t: Tables, id: Id, name: string, telegramAccount: Option<string>, fault: Option<Thrown>)
    requires Consistent(t)
    ensures UpdatePerson(t, id, name, telegramAccount, fault).Done? ==>
              Consistent(UpdatePerson(t, id, name, telegramAccount, fault).tables)
  {
    if fault.None? {
      var ps := t.people;
      var ps' := SetPersonFields(ps, id, name, telegramAccount);
      SameKeysKeepUniqueKeys(ps, ps', PersonKey);
      assert PersonIds(ps') == PersonIds(ps) by {
        forall x | x in PersonIds(ps) ensures x in PersonIds(ps') {
          var i :| 0 <= i < |ps| && ps[i].id == x;
          assert ps'[i].id == x;
        }
        forall x | x in PersonIds(ps') ensures x in PersonIds(ps) {
          var i :| 0 <= i < |ps'| && ps'[i].id == x;
          assert ps[i].id == x;
        }
      }
    }
  }

}
