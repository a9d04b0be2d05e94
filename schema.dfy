/** The tables of the radio library: rows, enumerations, primary keys and references.
    NULL-able columns are `Option`s; the columns declared `notNull()` are plain values, and the
    text enumerations (`type`, `status`, `role`) are datatypes, so no row can hold anything else. */
module Schema {
  import opened Results
  import opened Seqs

  /** Every primary key of the schema is a text column. */
  type Id = string

  datatype RecordingType = Live | Podcast
  datatype Status = Published | Hidden
  datatype Role = Host | Guest

  datatype User = User(id: Id, username: Option<string>, password: Option<string>)
  /** `expires` is the timestamp column, as an integer. */
  datatype Session = Session(sessionToken: string, userId: Id, expires: int)
  datatype Person = Person(id: Id, name: string, telegramAccount: Option<string>)
  datatype Program = Program(id: Id, name: string, description: Option<string>, hostId: Option<Id>, slug: string)
  datatype Genre = Genre(id: Id, name: string)

  /** The columns of a recording other than its key (the `type` column is `kind` here). */
  datatype RecordingValues = RecordingValues(
    programId: Id,
    episodeTitle: string,
    description: Option<string>,
    kind: RecordingType,
    releaseDate: int,
    duration: Option<int>,
    status: Status,
    keywords: Option<string>,
    fileUrl: string)

  datatype Recording = Recording(id: Id, values: RecordingValues)
  datatype RecordingGenre = RecordingGenre(recordingId: Id, genreId: Id)
  datatype RecordingPerson = RecordingPerson(recordingId: Id, personId: Id, role: Role)

  /** A snapshot of the whole database, each table a sequence of rows in storage order. */
  datatype Tables = Tables(
    users: seq<User>,
    sessions: seq<Session>,
    people: seq<Person>,
    programs: seq<Program>,
    genres: seq<Genre>,
    recordings: seq<Recording>,
    recordingGenres: seq<RecordingGenre>,
    recordingPeople: seq<RecordingPerson>)

  // Primary keys.
  function UserKey(u: User): Id { u.id }
  function SessionKey(s: Session): string { s.sessionToken }
  function PersonKey(p: Person): Id { p.id }
  function ProgramKey(p: Program): Id { p.id }
  function GenreKey(g: Genre): Id { g.id }
  function RecordingKey(r: Recording): Id { r.id }
  /** The composite key `(recordingId, genreId)`. */
  function GenreLinkKey(l: RecordingGenre): (Id, Id) { (l.recordingId, l.genreId) }
  /** The composite key `(recordingId, personId)`; the role is not part of it. */
  function PersonLinkKey(l: RecordingPerson): (Id, Id) { (l.recordingId, l.personId) }

  // The keys present in a table.
  function UserIds(us: seq<User>): set<Id> { set u | u in us :: u.id }
  function PersonIds(ps: seq<Person>): set<Id> { set p | p in ps :: p.id }
  function ProgramIds(ps: seq<Program>): set<Id> { set p | p in ps :: p.id }
  function GenreIds(gs: seq<Genre>): set<Id> { set g | g in gs :: g.id }
  function RecordingIds(rs: seq<Recording>): set<Id> { set r | r in rs :: r.id }

  predicate KeysUnique(t: Tables)
  {
    && UniqueKeys(t.users, UserKey)
    && UniqueKeys(t.sessions, SessionKey)
    && UniqueKeys(t.people, PersonKey)
    && UniqueKeys(t.programs, ProgramKey)
    && UniqueKeys(t.genres, GenreKey)
    && UniqueKeys(t.recordings, RecordingKey)
    && UniqueKeys(t.recordingGenres, GenreLinkKey)
    && UniqueKeys(t.recordingPeople, PersonLinkKey)
  }

  /** Every `references(...)` column names an existing row. */
  predicate ReferencesResolve(t: Tables)
  {
    && (forall s :: s in t.sessions ==> s.userId in UserIds(t.users))
    && (forall p :: p in t.programs && p.hostId.Some? ==> p.hostId.value in PersonIds(t.people))
    && (forall r :: r in t.recordings ==> r.values.programId in ProgramIds(t.programs))
    && (forall l :: l in t.recordingGenres ==>
          l.recordingId in RecordingIds(t.recordings) && l.genreId in GenreIds(t.genres))
    && (forall l :: l in t.recordingPeople ==>
          l.recordingId in RecordingIds(t.recordings) && l.personId in PersonIds(t.people))
  }

  /** The schema's invariant: primary keys are unique and references resolve. */
  predicate Consistent(t: Tables)
  {
    KeysUnique(t) && ReferencesResolve(t)
  }

  /** Because `(recordingId, personId)` is the key of `recordingPeople`, a person has one role per
      recording: two rows for the same pair are the same row. */
  lemma OneRolePerRecording(t: Tables, a: RecordingPerson, b: RecordingPerson)
    requires KeysUnique(t)
    requires a in t.recordingPeople && b in t.recordingPeople
    requires a.recordingId == b.recordingId && a.personId == b.personId
    ensures a.role == b.role
  {
    var ls := t.recordingPeople;
    var i :| 0 <= i < |ls| && ls[i] == a;
    var j :| 0 <= j < |ls| && ls[j] == b;
    UniqueKeysAt(ls, PersonLinkKey, i, j);
  }

  /** Likewise a genre is attached to a recording by at most one row. */
  lemma OneRowPerGenreLink(t: Tables, i: nat, j: nat)
    requires KeysUnique(t)
    requires i < |t.recordingGenres| && j < |t.recordingGenres|
    requires t.recordingGenres[i] == t.recordingGenres[j]
    ensures i == j
  {
    UniqueKeysAt(t.recordingGenres, GenreLinkKey, i, j);
  }
}
