/** The database as an object: one sequence of rows per table, changed in place by methods that
    perform the statements of `Store` one at a time. */
module Database {
  import opened Results
  import opened Seqs
  import opened Schema
  import opened Store

  /** The database: one sequence of rows per table, changed in place by the statements. */
  class Db {
    var users: seq<User>
    var sessions: seq<Session>
    var people: seq<Person>
    var programs: seq<Program>
    var genres: seq<Genre>
    var recordings: seq<Recording>
    var recordingGenres: seq<RecordingGenre>
    var recordingPeople: seq<RecordingPerson>

    /** The tables as a value. */
    function Snapshot(): Tables
      reads this
    {
      Tables(users, sessions, people, programs, genres, recordings, recordingGenres, recordingPeople)
    }

    ghost predicate Valid()
      reads this
    {
      Consistent(Snapshot())
    }

    constructor ()
      ensures Snapshot() == Tables([], [], [], [], [], [], [], [])
      ensures Valid()
    {
      users, sessions, people, programs, genres := [], [], [], [], [];
      recordings, recordingGenres, recordingPeople := [], [], [];
    }

    method InsertRecording(row: Recording, fault: Option<Thrown>) returns (err: Option<Thrown>)
      modifies this
      ensures ExecOf(err, Snapshot()) == Store.InsertRecording(old(Snapshot()), row, fault)
      ensures err.Some? ==> Snapshot() == old(Snapshot())
      ensures old(Valid()) ==> Valid()
    {
      if Valid() {
        InsertRecordingKeepsConsistent(Snapshot(), row, fault);
      }
      if fault.Some? {
        return fault;
      }
      if row.id in RecordingIds(recordings) {
        return Some(ErrorValue(RecordingIdTaken));
      }
      if row.values.programId !in ProgramIds(programs) {
        return Some(ErrorValue(ForeignKeyFailed));
      }
      recordings := recordings + [row];
      return None;
    }

    method UpdateRecording(id: Id, v: RecordingValues, fault: Option<Thrown>) returns (err: Option<Thrown>)
      modifies this
      ensures ExecOf(err, Snapshot()) == Store.UpdateRecording(old(Snapshot()), id, v, fault)
      ensures err.Some? ==> Snapshot() == old(Snapshot())
      ensures old(Valid()) ==> Valid()
    {
      if Valid() {
        UpdateRecordingKeepsConsistent(Snapshot(), id, v, fault);
      }
      if fault.Some? {
        return fault;
      }
      if id !in RecordingIds(recordings) {
        return None;
      }
      if v.programId !in ProgramIds(programs) {
        return Some(ErrorValue(ForeignKeyFailed));
      }
      recordings := SetRecordingValues(recordings, id, v);
      return None;
    }

    method DeleteRecording(id: Id, fault: Option<Thrown>) returns (err: Option<Thrown>)
      modifies this
      ensures ExecOf(err, Snapshot()) == Store.DeleteRecording(old(Snapshot()), id, fault)
      ensures err.Some? ==> Snapshot() == old(Snapshot())
      ensures old(Valid()) ==> Valid()
    {
      if Valid() {
        DeleteRecordingKeepsConsistent(Snapshot(), id, fault);
      }
      if fault.Some? {
        return fault;
      }
      recordings := Filter(recordings, RecordingIsNot(id));
      recordingGenres := Filter(recordingGenres, GenreLinkNotOf(id));
      recordingPeople := Filter(recordingPeople, PersonLinkNotOf(id));
      return None;
    }

    method InsertGenreLinks(rows: seq<RecordingGenre>, fault: Option<Thrown>) returns (err: Option<Thrown>)
      modifies this
      ensures ExecOf(err, Snapshot()) == Store.InsertGenreLinks(old(Snapshot()), rows, fault)
      ensures err.Some? ==> Snapshot() == old(Snapshot())
      ensures old(Valid()) ==> Valid()
    {
      if Valid() {
        InsertGenreLinksKeepsConsistent(Snapshot(), rows, fault);
      }
      if fault.Some? {
        return fault;
      }
      if !UniqueKeys(recordingGenres + rows, GenreLinkKey) {
        return Some(ErrorValue(GenreLinkTaken));
      }
      if !(forall l :: l in rows ==> l.recordingId in RecordingIds(recordings) && l.genreId in GenreIds(genres)) {
        return Some(ErrorValue(ForeignKeyFailed));
      }
      recordingGenres := recordingGenres + rows;
      return None;
    }

    method DeleteGenreLinksOf(recordingId: Id, fault: Option<Thrown>) returns (err: Option<Thrown>)
      modifies this
      ensures ExecOf(err, Snapshot()) == Store.DeleteGenreLinksOf(old(Snapshot()), recordingId, fault)
      ensures err.Some? ==> Snapshot() == old(Snapshot())
      ensures old(Valid()) ==> Valid()
    {
      if Valid() {
        DeleteGenreLinksOfKeepsConsistent(Snapshot(), recordingId, fault);
      }
      if fault.Some? {
        return fault;
      }
      recordingGenres := Filter(recordingGenres, GenreLinkNotOf(recordingId));
      return None;
    }

    method DeleteGenreLink(recordingId: Id, genreId: Id, fault: Option<Thrown>) returns (err: Option<Thrown>)
      modifies this
      ensures ExecOf(err, Snapshot()) == Store.DeleteGenreLink(old(Snapshot()), recordingId, genreId, fault)
      ensures err.Some? ==> Snapshot() == old(Snapshot())
      ensures old(Valid()) ==> Valid()
    {
      if Valid() {
        DeleteGenreLinkKeepsConsistent(Snapshot(), recordingId, genreId, fault);
      }
      if fault.Some? {
        return fault;
      }
      recordingGenres := Filter(recordingGenres, NotGenreLink(recordingId, genreId));
      return None;
    }

    method InsertPersonLinks(rows: seq<RecordingPerson>, fault: Option<Thrown>) returns (err: Option<Thrown>)
      modifies this
      ensures ExecOf(err, Snapshot()) == Store.InsertPersonLinks(old(Snapshot()), rows, fault)
      ensures err.Some? ==> Snapshot() == old(Snapshot())
      ensures old(Valid()) ==> Valid()
    {
      if Valid() {
        InsertPersonLinksKeepsConsistent(Snapshot(), rows, fault);
      }
      if fault.Some? {
        return fault;
      }
      if !UniqueKeys(recordingPeople + rows, PersonLinkKey) {
        return Some(ErrorValue(PersonLinkTaken));
      }
      if !(forall l :: l in rows ==> l.recordingId in RecordingIds(recordings) && l.personId in PersonIds(people)) {
        return Some(ErrorValue(ForeignKeyFailed));
      }
      recordingPeople := recordingPeople + rows;
      return None;
    }

    method DeletePersonLinksOf(recordingId: Id, fault: Option<Thrown>) returns (err: Option<Thrown>)
      modifies this
      ensures ExecOf(err, Snapshot()) == Store.DeletePersonLinksOf(old(Snapshot()), recordingId, fault)
      ensures err.Some? ==> Snapshot() == old(Snapshot())
      ensures old(Valid()) ==> Valid()
    {
      if Valid() {
        DeletePersonLinksOfKeepsConsistent(Snapshot(), recordingId, fault);
      }
      if fault.Some? {
        return fault;
      }
      recordingPeople := Filter(recordingPeople, PersonLinkNotOf(recordingId));
      return None;
    }

    method DeletePersonLink(recordingId: Id, personId: Id, fault: Option<Thrown>) returns (err: Option<Thrown>)
      modifies this
      ensures ExecOf(err, Snapshot()) == Store.DeletePersonLink(old(Snapshot()), recordingId, personId, fault)
      ensures err.Some? ==> Snapshot() == old(Snapshot())
      ensures old(Valid()) ==> Valid()
    {
      if Valid() {
        DeletePersonLinkKeepsConsistent(Snapshot(), recordingId, personId, fault);
      }
      if fault.Some? {
        return fault;
      }
      recordingPeople := Filter(recordingPeople, NotPersonLink(recordingId, personId));
      return None;
    }

    method SetPersonLinkRole(recordingId: Id, personId: Id, role: Role, fault: Option<Thrown>) returns (err: Option<Thrown>)
      modifies this
      ensures ExecOf(err, Snapshot()) == Store.SetPersonLinkRole(old(Snapshot()), recordingId, personId, role, fault)
      ensures err.Some? ==> Snapshot() == old(Snapshot())
      ensures old(Valid()) ==> Valid()
    {
      if Valid() {
        SetPersonLinkRoleKeepsConsistent(Snapshot(), recordingId, personId, role, fault);
      }
      if fault.Some? {
        return fault;
      }
      recordingPeople := SetRoles(recordingPeople, recordingId, personId, role);
      return None;
    }

    method DeletePerson(id: Id, fault: Option<Thrown>) returns (err: Option<Thrown>)
      modifies this
      ensures ExecOf(err, Snapshot()) == Store.DeletePerson(old(Snapshot()), id, fault)
      ensures err.Some? ==> Snapshot() == old(Snapshot())
      ensures old(Valid()) ==> Valid()
    {
      if Valid() {
        DeletePersonKeepsConsistent(Snapshot(), id, fault);
      }
      if fault.Some? {
        return fault;
      }
      if exists p :: p in programs && p.hostId == Some(id) {
        return Some(ErrorValue(ForeignKeyFailed));
      }
      people := Filter(people, PersonIsNot(id));
      recordingPeople := Filter(recordingPeople, LinkNotToPerson(id));
      return None;
    }

    method DeleteProgram(id: Id, fault: Option<Thrown>) returns (err: Option<Thrown>)
      modifies this
      ensures ExecOf(err, Snapshot()) == Store.DeleteProgram(old(Snapshot()), id, fault)
      ensures err.Some? ==> Snapshot() == old(Snapshot())
      ensures old(Valid()) ==> Valid()
    {
      if Valid() {
        DeleteProgramKeepsConsistent(Snapshot(), id, fault);
      }
      if fault.Some? {
        return fault;
      }
      if exists r :: r in recordings && r.values.programId == id {
        return Some(ErrorValue(ForeignKeyFailed));
      }
      programs := Filter(programs, ProgramIsNot(id));
      return None;
    }

    method DeleteSession(token: string, fault: Option<Thrown>) returns (err: Option<Thrown>)
      modifies this
      ensures ExecOf(err, Snapshot()) == Store.DeleteSession(old(Snapshot()), token, fault)
      ensures err.Some? ==> Snapshot() == old(Snapshot())
      ensures old(Valid()) ==> Valid()
    {
      if Valid() {
        DeleteSessionKeepsConsistent(Snapshot(), token, fault);
      }
      if fault.Some? {
        return fault;
      }
      sessions := Filter(sessions, SessionTokenIsNot(token));
      return None;
    }

    method DeleteGenre(id: Id, fault: Option<Thrown>) returns (err: Option<Thrown>)
      modifies this
      ensures ExecOf(err, Snapshot()) == Store.DeleteGenre(old(Snapshot()), id, fault)
      ensures err.Some? ==> Snapshot() == old(Snapshot())
      ensures old(Valid()) ==> Valid()
    {
      if Valid() {
        DeleteGenreKeepsConsistent(Snapshot(), id, fault);
      }
      if fault.Some? {
        return fault;
      }
      genres := Filter(genres, GenreIsNot(id));
      recordingGenres := Filter(recordingGenres, LinkNotToGenre(id));
      return None;
    }

    method DeleteUser(id: Id, fault: Option<Thrown>) returns (err: Option<Thrown>)
      modifies this
      ensures ExecOf(err, Snapshot()) == Store.DeleteUser(old(Snapshot()), id, fault)
      ensures err.Some? ==> Snapshot() == old(Snapshot())
      ensures old(Valid()) ==> Valid()
    {
      if Valid() {
        DeleteUserKeepsConsistent(Snapshot(), id, fault);
      }
      if fault.Some? {
        return fault;
      }
      users := Filter(users, UserIsNot(id));
      sessions := Filter(sessions, SessionNotOf(id));
      return None;
    }

    method UpdatePerson(id: Id, name: string, telegramAccount: Option<string>, fault: Option<Thrown>)
      returns (err: Option<Thrown>)
      modifies this
      ensures ExecOf(err, Snapshot()) == Store.UpdatePerson(old(Snapshot()), id, name, telegramAccount, fault)
      ensures err.Some? ==> Snapshot() == old(Snapshot())
      ensures old(Valid()) ==> Valid()
    {
      if Valid() {
        UpdatePersonKeepsConsistent(Snapshot(), id, name, telegramAccount, fault);
      }
      if fault.Some? {
        return fault;
      }
      people := SetPersonFields(people, id, name, telegramAccount);
      return None;
    }
  }
}
