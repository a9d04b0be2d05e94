# radioznb-admin, modelled in Dafny

This project models the admin back office of a radio station's archive. The back office has
programs, people (hosts and guests), genres and recordings, kept in an SQLite database. A
recording links to genres, and to people each with the role host or guest. The model covers:

- **The store.** The tables of `db/schema.ts` with their keys, references and cascades, and the
  invariant they keep (`Schema.Consistent`). Each SQL statement the actions issue is a pure
  function on the tables (`Store`). A `Database.Db` object holds the tables as sequence fields,
  and its methods run these statements in place.
- **The recording workflow.** This is `lib/form-actions.ts`:
  - create a recording with its links;
  - update, which overwrites the row, deletes every link and reinserts the links;
  - load-for-edit, which splits the linked people into hosts and guests;
  - delete, whose cascades remove the links.

  Each action is a specification function, `FormActions.Create` and its siblings. A method on the
  `Db` is proved to do exactly what that function says. There is no transaction: a statement that
  throws leaves the earlier statements' writes in place, and the action returns a failure.
- **The single-link actions, the deletes, the person update and the listings** of
  `lib/actions.ts` (module `Actions`).
- **`generateSlug`** (`Slug`): the Cyrillic table, the clean-up and the truncation. It is proved
  to be well formed, bounded in length and idempotent.
- **The UI logic of the components**, one module each:
  - duration formatting (`Duration`);
  - the filter state and its persistence (`Filters`);
  - the filter bar (`FilterBar`);
  - the recording form (`RecordingsForm`);
  - the program, person and genre editors (`ProgramsManager`, `PeopleManager`, `GenresManager`);
  - the NextAuth callbacks (`AuthConfig`).

  Component state that the handlers update is a class with `modifies` clauses. The pure mappings
  are functions with lemmas.

Shared pieces:

- `Results` holds the action result shape and the `catch` convention.
- `Text` holds the JavaScript string operations the components use (`trim`, `includes`,
  `endsWith`, `padStart`, truthiness of text).
- `Seqs` holds filtering and uniqueness lemmas.

Things outside the program are parameters:

- A statement's failure for reasons the model does not see is a `faults` parameter, for example a
  lost connection. The constraint failures the schema declares are modelled:
  - a duplicate key;
  - a dangling reference;
  - a delete blocked by a reference: a person who hosts a program, a program that has recordings.
- A generated key is a parameter (`newId`).
- The current date (`now`) is a parameter.
- How a component's server call ended is a `CallOutcome` parameter.

Three facts about the code shape the model:

- Create and update with relations are not transactional. Each statement is awaited in turn, so a
  fault after the recording insert leaves that row in place and the action returns a failure
  (`FormActions.CreateKeepsRecordingRow`, `FormActions.CreateGenreFaultLeavesRow`).
- No core file applies the filter state's `searchQuery` or `sortBy` to a list. Only the filter
  state and its transitions exist, and only those are modelled.
- No select in the core has an `ORDER BY`. The model returns the rows of a select in insertion
  order, which is an assumption (see "## Left out").

## Model

| member | source | states |
|---|---|---|
| Schema.OneRolePerRecording | db/schema.ts:84-98 | with the composite key (recordingId, personId), two link rows for the same recording and person have the same role: a person has one role per recording |
| Schema.OneRowPerGenreLink | db/schema.ts:69-82 | with the composite key (recordingId, genreId), a genre link row occurs at most once |
| Store.GenreLinksOf | lib/form-actions.ts:222-225 | the genre links of one recording, in insertion order; Store.GenreLinksOfAfterDelete and Store.NoLinksOfMissingRecording state what it returns after a delete and for a missing recording |
| Store.PersonLinksOf | lib/form-actions.ts:228-234 | the person links of one recording, in insertion order; Store.PersonLinksOfAfterDelete states what it returns after a delete |
| Store.GenreIdsOf | lib/form-actions.ts:222-225 | the genre ids of those links; FormActions.LoadSplitsByRole states what load-for-edit gets from it |
| Store.PersonIdsWithRole | lib/form-actions.ts:236-241 | the ids of the people linked in one role; FormActions.LoadSplitsByRole and FormActions.LoadedRolesDisjoint state its contract |
| Store.InsertRecording | lib/form-actions.ts:58-71 | the recording insert: a taken id or a missing program raises, else the row is appended; Store.InsertRecordingKeepsConsistent states its contract |
| Store.UpdateRecording | lib/form-actions.ts:135-148 | the recording update; a missing id changes nothing; Store.UpdateRecordingKeepsConsistent and FormActions.UpdateMissingRecording state its contract |
| Store.DeleteRecording | lib/form-actions.ts:268 | the recording delete with the cascade of both link tables; Actions.DeleteRecordingCascades and Store.DeleteRecordingKeepsConsistent state its contract |
| Store.InsertGenreLinks | lib/form-actions.ts:74-81 | the multi-row genre-link insert, all rows or none; Actions.AddGenreSucceedsIff, FormActions.GenreRowsUnique and Store.InsertGenreLinksKeepsConsistent state its contract |
| Store.DeleteGenreLinksOf | lib/form-actions.ts:151 | the delete of a recording's genre links; Store.GenreLinksOfAfterDelete states its contract |
| Store.DeleteGenreLink | lib/actions.ts:608-633 | the delete of one genre link; Actions.RemoveGenreOnlyThatLink states its contract |
| Store.InsertPersonLinks | lib/form-actions.ts:84-103 | the multi-row person-link insert, all rows or none; Actions.AddPersonSucceedsIff and FormActions.PersonRowsUnique state its contract |
| Store.DeletePersonLinksOf | lib/form-actions.ts:152 | the delete of a recording's person links; Store.PersonLinksOfAfterDelete states its contract |
| Store.DeletePersonLink | lib/actions.ts:707-732 | the delete of one person link, whatever its role; Actions.RemovePersonOnlyThatLink states its contract |
| Store.SetPersonLinkRole | lib/actions.ts:734-758 | the role update of one link; Actions.UpdateRoleOnlyThatLink states its contract |
| Store.DeletePerson | lib/actions.ts:193-205 | the person delete, blocked while a program hosts the person, cascading to the links; Actions.DeletePersonCascades states its contract |
| Store.DeleteGenre | lib/actions.ts:376-388 | the genre delete with the cascade of its links; Actions.DeleteGenreCascades states its contract |
| Store.DeleteUser | lib/actions.ts:67-79 | the user delete with the cascade of the sessions; Actions.DeleteUserCascades states its contract |
| Store.DeleteProgram | lib/actions.ts:270-283 | the program delete, blocked while a recording belongs to the program; Actions.DeleteProgramRestricted states its contract |
| Store.DeleteSession | lib/actions.ts:126-139 | the session delete by token; Actions.DeleteSessionOnlyThatRow states its contract |
| Store.UpdatePerson | lib/actions.ts:176-191 | the person update; Actions.EditPersonOnlyThatRow and Store.UpdatePersonKeepsConsistent state its contract |
| Store.Finish | lib/actions.ts:26-28 | an action of one statement returns success with the statement's tables, or on an exception leaves the tables as they were and returns the error's message, or the fixed fallback for a value that is not an `Error` |
| Store.FindRecording | lib/form-actions.ts:209-212 | the select by id finds a row exactly when a recording with that id exists, and the row it finds has that id |
| Store.InsertRecordingKeepsConsistent | db/schema.ts:52-67 | an insert into recordings that completes keeps keys unique and references resolved |
| Store.UpdateRecordingKeepsConsistent | db/schema.ts:52-67 | an update of a recording that completes keeps the store consistent |
| Store.DeleteRecordingKeepsConsistent | db/schema.ts:69-98 | deleting a recording together with the cascades of both link tables keeps the store consistent |
| Store.InsertGenreLinksKeepsConsistent | db/schema.ts:69-82 | a genre-link insert that completes keeps the store consistent |
| Store.DeleteGenreLinksOfKeepsConsistent | db/schema.ts:69-82 | deleting a recording's genre links keeps the store consistent |
| Store.DeleteGenreLinkKeepsConsistent | db/schema.ts:69-82 | deleting one genre link keeps the store consistent |
| Store.InsertPersonLinksKeepsConsistent | db/schema.ts:84-98 | a person-link insert that completes keeps the store consistent |
| Store.DeletePersonLinksOfKeepsConsistent | db/schema.ts:84-98 | deleting a recording's person links keeps the store consistent |
| Store.DeletePersonLinkKeepsConsistent | db/schema.ts:84-98 | deleting one person link keeps the store consistent |
| Store.SetPersonLinkRoleKeepsConsistent | db/schema.ts:84-98 | changing a link's role keeps the store consistent |
| Store.DeletePersonKeepsConsistent | db/schema.ts:27-43 | deleting a person (cascading to the person's links, blocked while a program names them as host) keeps the store consistent |
| Store.DeleteGenreKeepsConsistent | db/schema.ts:69-82 | deleting a genre with the cascade of its links keeps the store consistent |
| Store.DeleteUserKeepsConsistent | db/schema.ts:10-24 | deleting a user with the cascade of the user's sessions keeps the store consistent |
| Store.DeleteProgramKeepsConsistent | db/schema.ts:54-60 | a completed program delete, which no recording references, keeps the store consistent |
| Store.DeleteSessionKeepsConsistent | db/schema.ts:18-24 | deleting a session keeps the store consistent |
| Store.UpdatePersonKeepsConsistent | db/schema.ts:27-33 | updating a person's fields keeps the store consistent |
| Store.GenreLinksOfAfterDelete | lib/form-actions.ts:151 | after deleting the genre links of one recording, that recording has none and every other recording has exactly the links it had |
| Store.PersonLinksOfAfterDelete | lib/form-actions.ts:152 | the same for the person links |
| Store.NoLinksOfMissingRecording | db/schema.ts:72-89 | in a store whose references resolve, a recording that does not exist has no links |
| Database.Db.constructor | db/schema.ts:10-98 | a new store is empty and valid |
| Database.Db.InsertRecording | lib/form-actions.ts:58-71 | the insert changes the object's tables exactly as `Store.InsertRecording` says, and leaves them as they were when it throws; a valid store stays valid |
| Database.Db.UpdateRecording | lib/form-actions.ts:135-148 | the update changes the tables as `Store.UpdateRecording` says; a valid store stays valid |
| Database.Db.DeleteRecording | lib/form-actions.ts:268 | the delete, with its cascades, changes the tables as `Store.DeleteRecording` says; a valid store stays valid |
| Database.Db.InsertGenreLinks | lib/form-actions.ts:74-81 | the multi-row insert adds all rows or none, as `Store.InsertGenreLinks` says; a valid store stays valid |
| Database.Db.DeleteGenreLinksOf | lib/form-actions.ts:151 | the delete of a recording's genre links is `Store.DeleteGenreLinksOf`; a valid store stays valid |
| Database.Db.DeleteGenreLink | lib/actions.ts:608-633 | the delete of one genre link is `Store.DeleteGenreLink`; a valid store stays valid |
| Database.Db.InsertPersonLinks | lib/form-actions.ts:84-103 | the multi-row insert of person links is `Store.InsertPersonLinks`; a valid store stays valid |
| Database.Db.DeletePersonLinksOf | lib/form-actions.ts:152 | the delete of a recording's person links is `Store.DeletePersonLinksOf`; a valid store stays valid |
| Database.Db.DeletePersonLink | lib/actions.ts:707-732 | the delete of one person link is `Store.DeletePersonLink`; a valid store stays valid |
| Database.Db.SetPersonLinkRole | lib/actions.ts:734-758 | the role update is `Store.SetPersonLinkRole`; a valid store stays valid |
| Database.Db.DeletePerson | lib/actions.ts:193-205 | the delete of a person is `Store.DeletePerson`; a valid store stays valid |
| Database.Db.DeleteGenre | lib/actions.ts:376-388 | the delete of a genre is `Store.DeleteGenre`; a valid store stays valid |
| Database.Db.DeleteUser | lib/actions.ts:67-79 | the delete of a user is `Store.DeleteUser`; a valid store stays valid |
| Database.Db.DeleteProgram | lib/actions.ts:270-283 | the delete of a program is `Store.DeleteProgram`; a valid store stays valid |
| Database.Db.DeleteSession | lib/actions.ts:126-139 | the delete of a session is `Store.DeleteSession`; a valid store stays valid |
| Database.Db.UpdatePerson | lib/actions.ts:176-191 | the update of a person is `Store.UpdatePerson`; a valid store stays valid |
| FormActions.ValuesOf | lib/form-actions.ts:60-70 | the row values built from the form data; RecordingsForm.ValuesOfStoredNormally and RecordingsForm.EditRoundTrip state its contract |
| FormActions.PeopleRepeat | lib/form-actions.ts:48-50 | the length-against-set-size test; FormActions.PeopleRepeatMeansRepeats states its contract |
| FormActions.InsertGenreLinksIfAny | lib/form-actions.ts:74-81 | the genre insert, skipped for an empty list; FormActions.CreateSuccessEffect and FormActions.UpdateReplacesLinks state what it adds |
| FormActions.InsertPersonLinksIfAny | lib/form-actions.ts:84-103 | the host or guest insert, skipped for an empty list; FormActions.CreateSuccessEffect and FormActions.UpdateReplacesLinks state what it adds |
| FormActions.Create | lib/form-actions.ts:43-114 | create-with-relations, statement by statement; FormActions.CreateSucceedsIff, FormActions.CreateSuccessEffect, FormActions.CreateKeepsRecordingRow, FormActions.CreateThenLoad and FormActions.CreateKeepsConsistent state its contract |
| FormActions.Update | lib/form-actions.ts:119-195 | update-with-relations; FormActions.UpdateSuccessShape, FormActions.UpdateReplacesLinks, FormActions.UpdateThenLoad, FormActions.UpdateMissingRecording and FormActions.UpdateKeepsConsistent state its contract |
| FormActions.LoadForEdit | lib/form-actions.ts:200-259 | load-for-edit; FormActions.LoadFindsExactlyExisting, FormActions.LoadSplitsByRole and FormActions.LoadedRolesDisjoint state its contract |
| FormActions.Delete | lib/form-actions.ts:264-279 | delete-with-relations; FormActions.DeleteRemovesLinks and FormActions.DeleteKeepsConsistent state its contract |
| FormActions.TextOrNull | lib/form-actions.ts:63-68 | the "or null" of optional text: NULL exactly when absent or empty, else the text itself |
| FormActions.NumberOrNull | lib/form-actions.ts:66 | the "or null" of the duration: NULL exactly when absent or 0, else the number itself |
| FormActions.GenreRows | lib/form-actions.ts:74-81 | one genre link row per genre id, in order, for the given recording |
| FormActions.PersonRows | lib/form-actions.ts:84-103 | one person link row per id, in order, with the given role |
| FormActions.GenreRowsUnique | lib/form-actions.ts:74-81 | the genre rows keep the composite key unique exactly when the genre ids have no repeats |
| FormActions.PersonRowsUnique | lib/form-actions.ts:84-103 | the person rows keep the composite key unique exactly when the ids have no repeats |
| FormActions.PeopleRepeatMeansRepeats | lib/form-actions.ts:48-50 | the check "list length differs from set size" holds exactly when hosts followed by guests contain a repeated id |
| FormActions.CreateRejectsRepeats | lib/form-actions.ts:48-55 | a repeated id across or within hosts and guests gives the host/guest failure and changes no table |
| FormActions.CreateSuccessEffect | lib/form-actions.ts:58-106 | a successful create returns the new id and adds exactly one recording row, one genre link per genre id, and one person link per host (role host) and per guest (role guest); nothing else changes |
| FormActions.CreateSucceedsIff | lib/form-actions.ts:46-113 | without outside faults, a create succeeds exactly when there are no repeated people, the id is new, the program exists, the genre ids have no repeats, and every genre and person exists |
| FormActions.CreateKeepsRecordingRow | lib/form-actions.ts:58-113 | once the recording row is inserted it stays, whatever later insert fails (no transaction) |
| FormActions.CreateGenreFaultLeavesRow | lib/form-actions.ts:58-113 | when the genre insert throws, the recording row remains and the action returns the caught failure |
| FormActions.CreateThenLoad | lib/form-actions.ts:74-103 | after a successful create, load-for-edit returns the row and exactly the submitted genre ids, hosts and guests |
| FormActions.UpdateRejectsRepeats | lib/form-actions.ts:125-132 | a repeated person id gives the host/guest failure and no change |
| FormActions.UpdateSuccessShape | lib/form-actions.ts:134-187 | a successful update sets the row's values, removes all links of the recording and appends the new ones |
| FormActions.UpdateReplacesLinks | lib/form-actions.ts:151-184 | after a successful update the recording's links are exactly the new genre ids, hosts and guests; the other recordings, their links and the other tables are unchanged |
| FormActions.UpdateThenLoad | lib/form-actions.ts:134-184 | after a successful update of an existing recording, load-for-edit returns the new values and exactly the submitted links |
| FormActions.UpdateMissingRecording | lib/form-actions.ts:134-184 | updating an id that does not exist changes nothing, and succeeds exactly when no links were submitted (a link insert for it breaks the reference) |
| FormActions.LoadFindsExactlyExisting | lib/form-actions.ts:209-219 | load-for-edit fails exactly when the id does not exist, with the "not found" message; otherwise it returns that row |
| FormActions.LoadSplitsByRole | lib/form-actions.ts:221-249 | hosts are exactly the people linked with role host, guests those with role guest, genre ids exactly the linked genres |
| FormActions.LoadedRolesDisjoint | lib/form-actions.ts:236-241 | in a consistent store no loaded id is both a host and a guest |
| FormActions.DeleteRemovesLinks | lib/form-actions.ts:264-279 | a successful delete removes the row and all its links and leaves other recordings, their links and the other tables unchanged |
| FormActions.CreateKeepsConsistent | lib/form-actions.ts:43-114 | a create, whatever its outcome, leaves a consistent store consistent |
| FormActions.UpdateKeepsConsistent | lib/form-actions.ts:119-195 | an update, whatever its outcome, leaves a consistent store consistent |
| FormActions.DeleteKeepsConsistent | lib/form-actions.ts:264-279 | a delete leaves a consistent store consistent |
| FormActions.CreateRecordingWithRelations | lib/form-actions.ts:43-114 | the method's result and the tables it leaves are those of `Create`, and the store stays valid |
| FormActions.UpdateRecordingWithRelations | lib/form-actions.ts:119-195 | the method's result and tables are those of `Update`, and the store stays valid |
| FormActions.GetRecordingForForm | lib/form-actions.ts:200-259 | the method returns `LoadForEdit` of the current tables, changing nothing |
| FormActions.DeleteRecordingWithRelations | lib/form-actions.ts:264-279 | the method's result and tables are those of `Delete`, and the store stays valid |
| Actions.AddGenre | lib/actions.ts:585-606 | `addGenreToRecording`; Actions.AddExistingGenreFails and Actions.AddGenreSucceedsIff state its contract |
| Actions.RemoveGenre | lib/actions.ts:608-633 | `removeGenreFromRecording`; Actions.RemoveGenreOnlyThatLink states its contract |
| Actions.AddPerson | lib/actions.ts:682-705 | `addPersonToRecording`; Actions.AddExistingPersonFails and Actions.AddPersonSucceedsIff state its contract |
| Actions.RemovePerson | lib/actions.ts:707-732 | `removePersonFromRecording`; Actions.RemovePersonOnlyThatLink states its contract |
| Actions.UpdateRole | lib/actions.ts:734-758 | `updatePersonRoleInRecording`; Actions.UpdateRoleOnlyThatLink states its contract |
| Actions.RemoveRecording | lib/actions.ts:453-466 | `deleteRecording`; Actions.DeleteRecordingCascades states its contract |
| Actions.RemovePersonRow | lib/actions.ts:193-205 | `deletePerson`; Actions.DeletePersonCascades states its contract |
| Actions.RemoveGenreRow | lib/actions.ts:376-388 | `deleteGenre`; Actions.DeleteGenreCascades states its contract |
| Actions.RemoveUserRow | lib/actions.ts:67-79 | `deleteUser`; Actions.DeleteUserCascades states its contract |
| Actions.RemoveProgramRow | lib/actions.ts:270-283 | `deleteProgram`; Actions.DeleteProgramRestricted states its contract |
| Actions.RemoveSessionRow | lib/actions.ts:126-139 | `deleteSession`; Actions.DeleteSessionOnlyThatRow states its contract |
| Actions.EditPerson | lib/actions.ts:176-191 | `updatePerson`; Actions.EditPersonOnlyThatRow states its contract |
| Actions.GenreJoin | lib/actions.ts:637-644 | the inner join of the genre links with the genres; Actions.GenreJoinSound and Actions.GenreJoinComplete state its contract |
| Actions.PersonJoin | lib/actions.ts:760-780 | the inner join of the person links with the people; Actions.PersonJoinSound and Actions.PersonJoinComplete state its contract |
| Actions.GenresForRecording | lib/actions.ts:635-653 | `getGenresForRecording`; Actions.GenresForRecordingExact states its contract |
| Actions.PeopleForRecording | lib/actions.ts:760-780 | `getPeopleForRecording`; Actions.PeopleForRecordingExact states its contract |
| Actions.JoinWith | lib/actions.ts:501 | `join(", ")` of the people's names; Actions.JoinWithAppend and Actions.ListingOfRecording state its contract |
| Actions.JoinWithAppend | lib/actions.ts:501 | joining parts with one more part at the end adds the separator and that part, as `Array.prototype.join` does |
| Actions.ListingsOf | lib/actions.ts:470-519 | the listing rows of one recording through the left join with programs; Actions.ListingOfRecording states its contract |
| Actions.AllListings | lib/actions.ts:489-521 | the listing rows of every recording; Actions.ListingsExact states its contract |
| Actions.Recordings | lib/actions.ts:468-531 | `getRecordings`; Actions.ListingsExact states what it returns |
| Actions.AddExistingGenreFails | lib/actions.ts:585-606 | adding a genre link that exists breaks the composite key: failure, no duplicate, tables unchanged |
| Actions.AddGenreSucceedsIff | lib/actions.ts:585-606 | without outside faults, adding a genre link succeeds exactly when the pair is new and both ends exist, and then appends exactly that row |
| Actions.AddExistingPersonFails | lib/actions.ts:682-705 | adding a person already linked to the recording, under any role, fails and changes nothing |
| Actions.AddPersonSucceedsIff | lib/actions.ts:682-705 | adding a person link succeeds exactly when the pair is new and both ends exist, and then appends exactly that row |
| Actions.RemoveGenreOnlyThatLink | lib/actions.ts:608-633 | removal deletes only the row matching both recording and genre, and no other table changes |
| Actions.RemovePersonOnlyThatLink | lib/actions.ts:707-732 | removal deletes only the (recording, person) row, whatever its role |
| Actions.UpdateRoleOnlyThatLink | lib/actions.ts:734-758 | the role update changes only the role of the matching pair; keys, other rows and other tables are unchanged |
| Actions.DeletePersonCascades | lib/actions.ts:193-205 | deleting a person removes the row and its links; a program hosting the person blocks the delete, with no change |
| Actions.DeleteGenreCascades | lib/actions.ts:376-388 | deleting a genre removes the row and exactly its links |
| Actions.DeleteUserCascades | lib/actions.ts:67-79 | deleting a user removes the row and exactly that user's sessions |
| Actions.DeleteProgramRestricted | lib/actions.ts:270-283 | deleting a program succeeds exactly when there is no fault and no recording belongs to it; then exactly that program row goes; otherwise nothing changes and the action fails |
| Actions.DeleteSessionOnlyThatRow | lib/actions.ts:126-139 | deleting a session removes exactly the sessions with that token and nothing else |
| Actions.DeleteRecordingCascades | lib/actions.ts:453-466 | deleting a recording removes the row and exactly its links of both kinds |
| Actions.EditPersonOnlyThatRow | lib/actions.ts:176-191 | updating a person changes only the row with that id |
| Actions.GenresForRecordingExact | lib/actions.ts:635-653 | every listed genre is linked to the recording and has that name; in a consistent store the listed ids are exactly the recording's genre links in order |
| Actions.PeopleForRecordingExact | lib/actions.ts:760-780 | every listed person is linked with that role and has that name and account; in a consistent store the list is exactly the recording's links in order |
| Actions.ListingOfRecording | lib/actions.ts:468-531 | on a consistent store a recording yields exactly one listing row, carrying its program's name, its genre ids in link order, and as `peopleNames` the names of the people its links point to, one per link in link order, joined with ", " |
| Actions.ListingsExact | lib/actions.ts:468-531 | one listing row per recording, in table order, each holding its recording, its program's name, its genre ids, and the names of its linked people, one per link in link order, joined with ", " |
| Actions.AddGenreToRecording | lib/actions.ts:585-606 | the method's result and tables are those of `AddGenre`; a valid store stays valid |
| Actions.RemoveGenreFromRecording | lib/actions.ts:608-633 | as `RemoveGenre`; a valid store stays valid |
| Actions.AddPersonToRecording | lib/actions.ts:682-705 | as `AddPerson`; a valid store stays valid |
| Actions.RemovePersonFromRecording | lib/actions.ts:707-732 | as `RemovePerson`; a valid store stays valid |
| Actions.UpdatePersonRoleInRecording | lib/actions.ts:734-758 | as `UpdateRole`; a valid store stays valid |
| Actions.DeleteRecordingAction | lib/actions.ts:453-466 | as `RemoveRecording`; a valid store stays valid |
| Actions.DeletePersonAction | lib/actions.ts:193-205 | as `RemovePersonRow`; a valid store stays valid |
| Actions.DeleteGenreAction | lib/actions.ts:376-388 | as `RemoveGenreRow`; a valid store stays valid |
| Actions.DeleteUserAction | lib/actions.ts:67-79 | as `RemoveUserRow`; a valid store stays valid |
| Actions.DeleteProgramAction | lib/actions.ts:270-283 | as `RemoveProgramRow`; a valid store stays valid |
| Actions.DeleteSessionAction | lib/actions.ts:126-139 | as `RemoveSessionRow`; a valid store stays valid |
| Actions.UpdatePersonAction | lib/actions.ts:176-191 | as `EditPerson`; a valid store stays valid |
| Actions.GetGenresForRecording | lib/actions.ts:635-653 | returns `GenresForRecording` of the current tables, changing nothing |
| Actions.GetPeopleForRecording | lib/actions.ts:760-780 | returns `PeopleForRecording`, changing nothing |
| Actions.GetRecordings | lib/actions.ts:468-531 | returns the listings `Recordings`, changing nothing |
| Results.CaughtMessage | lib/actions.ts:42-47 | a `catch` reports the error's own message for an `Error`, else the fixed fallback |
| Slug.GenerateSlug | lib/utils.ts:8-62 | `generateSlug`; Slug.SlugIsWellFormed, Slug.SlugLength, Slug.SlugIdempotent, Slug.SlugOfWellFormed and Slug.SlugWithoutLetters state its contract |
| Slug.Transliterate | lib/utils.ts:46-50 | lower-casing and the per-letter table; Slug.TransliterateAppend and Slug.TransliterateSigns state its contract |
| Slug.Translit | lib/utils.ts:9-49 | a Russian lower-case letter becomes Latin lower-case letters; exactly ь and ъ become nothing; every other character stands for itself |
| Slug.TransliterateSigns | lib/utils.ts:16-49 | "объём" becomes "obyom": the hard sign vanishes and ё becomes "yo"; ь alone becomes nothing |
| Slug.StripMarksMembers | lib/utils.ts:55 | exactly the combining marks U+0300..U+036F are removed |
| Slug.SlugIsWellFormed | lib/utils.ts:56-59 | every slug has only `a-z0-9-`, no two hyphens in a row, and no hyphen at either end |
| Slug.SlugLength | lib/utils.ts:56-59 | a slug is never longer than `maxLength` |
| Slug.SlugIdempotent | lib/utils.ts:46-61 | the slug of a slug is the slug itself |
| Slug.SlugOfWellFormed | lib/utils.ts:46-61 | a well-formed text no longer than `maxLength` is its own slug |
| Slug.SlugWithoutLetters | lib/utils.ts:56-57 | a text with no Latin or Russian letter and no digit gives the empty slug |
| Slug.TransliterateAppend | lib/utils.ts:46-50 | the transliteration works character by character: of a concatenation it is the concatenation of the transliterations |
| Slug.SlugExample | lib/utils.ts:8-62 | "Эфир №1" becomes "efir-1" |
| Duration.FormatDuration | components/recordings-manager.tsx:75-82 | `formatDuration`; Duration.ParseFormatDuration, Duration.PartsOfDuration and Duration.FormatDurationExample state its contract |
| Duration.JsRem | components/recordings-manager.tsx:77-78 | JavaScript's `%`: for a non-negative dividend the mathematical remainder, for a negative one a value in (-b, 0] |
| Duration.PartsOfDuration | components/recordings-manager.tsx:75-82 | for d >= 0, minutes and seconds lie in 0..59 and hours·3600 + minutes·60 + seconds = d |
| Duration.PaddedTwoDigits | components/recordings-manager.tsx:79-81 | a minute or second value is shown as exactly two digits that read back as the value |
| Duration.ParseFormatDuration | components/recordings-manager.tsx:75-82 | reading the H:MM:SS text back gives the duration: hours unpadded, minutes and seconds padded |
| Duration.FormatDurationExample | components/recordings-manager.tsx:75-82 | 3661 is shown as "1:01:01" |
| Duration.ParseNatToString | components/recordings-manager.tsx:79 | `toString` of a natural number reads back as the number |
| Filters.Merge | contexts/filter-context.tsx:81-83 | `{...prev, ...updates}`; Filters.MergeSetsPresentKeys, Filters.MergeNoChange, Filters.MergeIdempotent, Filters.MergeThen and Filters.MergeFull state its contract |
| Filters.MergeSetsPresentKeys | contexts/filter-context.tsx:81-83 | `{...prev, ...updates}` sets exactly the keys the update holds; every other key keeps its value |
| Filters.MergeNoChange | contexts/filter-context.tsx:81-83 | an empty update changes nothing |
| Filters.MergeIdempotent | contexts/filter-context.tsx:81-83 | applying the same update twice is applying it once |
| Filters.MergeThen | contexts/filter-context.tsx:81-83 | two updates in a row are one combined update |
| Filters.MergeFull | contexts/filter-context.tsx:81-87 | an update holding every key, such as the defaults in a reset, replaces the whole state |
| Filters.Hydrated | contexts/filter-context.tsx:57-68 | no stored value or a parse error leaves the defaults |
| Filters.HydratedKeys | contexts/filter-context.tsx:35-46 | on hydration a missing key takes its default (search "", sort date-desc, no genres) and a stored key wins |
| Filters.HydrateSaved | contexts/filter-context.tsx:59-79 | what was saved after hydration hydrates back to the same state |
| Filters.FilterProvider.constructor | contexts/filter-context.tsx:52-54 | the provider starts with the defaults, not hydrated, storage untouched |
| Filters.FilterProvider.Persist | contexts/filter-context.tsx:71-79 | the state is saved only once hydrated; before that the storage is untouched |
| Filters.FilterProvider.Hydrate | contexts/filter-context.tsx:57-68 | hydration sets the stored keys over the defaults and marks the provider hydrated |
| Filters.FilterProvider.UpdateFilters | contexts/filter-context.tsx:81-83 | the new state is the merge of the old state and the update; storage follows only after hydration |
| Filters.FilterProvider.ResetFilters | contexts/filter-context.tsx:85-87 | the state becomes the defaults whatever it was |
| FilterBar.Split | components/filter-bar.tsx:25 | `split("/")` gives at least one part and no part holds the separator |
| FilterBar.JoinSplit | components/filter-bar.tsx:25 | joining the parts with the separator gives the path back |
| FilterBar.ActiveTabOfPath | components/filter-bar.tsx:25-46 | for a path "/tab" or "/tab/...", the active tab is `tab`, and the bar shows exactly when `tab` is not empty |
| FilterBar.NoTabWithoutSlash | components/filter-bar.tsx:25-46 | a path without "/" has no active tab and no bar |
| FilterBar.SelectionFor | components/filter-bar.tsx:205-231 | the selection has at most one entry, and is empty exactly for "all" |
| FilterBar.DisplaySelection | components/filter-bar.tsx:202-205 | choosing a value and displaying the selection shows that value again |
| FilterBar.ChooseProgram | components/filter-bar.tsx:202-207 | after a program choice at most one program is selected, the select shows the choice, and nothing else changes |
| FilterBar.ChooseGenre | components/filter-bar.tsx:228-233 | the same for the genre select |
| RecordingsForm.Toggle | components/recordings-form.tsx:264-269 | the multi-select toggle; RecordingsForm.ToggleMembership, RecordingsForm.ToggleKeepsOthers, RecordingsForm.ToggleTwiceAbsent and RecordingsForm.ToggleKeepsNoRepeats state its contract |
| RecordingsForm.IsMp3 | components/recordings-form.tsx:115-121 | the MP3 test; RecordingsForm.IsMp3ByName and RecordingsForm.IsMp3ByType state its contract |
| RecordingsForm.HexEncode | components/recordings-form.tsx:135-137 | the hex text of the digest; RecordingsForm.HexEncodeShape, RecordingsForm.HexDecodeEncode and RecordingsForm.HexEncodeInjective state its contract |
| RecordingsForm.EmptyForm | components/recordings-form.tsx:27-40 | the initial form; RecordingsForm.RecordingEditor.constructor states it |
| RecordingsForm.MissingRequired | components/recordings-form.tsx:180-188 | the required-field guard; RecordingsForm.RecordingEditor.HandleSubmit states its effect |
| RecordingsForm.FormFromEdit | components/recordings-form.tsx:79-92 | the form filled from load-for-edit; RecordingsForm.EditRoundTrip states its contract |
| RecordingsForm.ToggleMembership | components/recordings-form.tsx:264-269 | the toggle flips the membership of the value and of nothing else |
| RecordingsForm.ToggleKeepsOthers | components/recordings-form.tsx:264-269 | the other ids keep their order |
| RecordingsForm.ToggleTwiceAbsent | components/recordings-form.tsx:264-269 | an absent value is appended at the end, and toggling it twice restores the list |
| RecordingsForm.ToggleKeepsNoRepeats | components/recordings-form.tsx:264-269 | a list without repeats stays without repeats |
| RecordingsForm.IsMp3ByName | components/recordings-form.tsx:115-121 | when the type does not mention audio/mpeg, the file is accepted exactly when its name ends in ".mp3" in any letter case |
| RecordingsForm.IsMp3ByType | components/recordings-form.tsx:115-121 | a type containing "audio/mpeg" is accepted whatever the name |
| RecordingsForm.ByteToHexDigits | components/recordings-form.tsx:135-137 | a byte becomes its two lower-case hex digits, zero-padded |
| RecordingsForm.HexEncodeShape | components/recordings-form.tsx:135-137 | the hex text has two lower-case hex characters per byte |
| RecordingsForm.HexDecodeEncode | components/recordings-form.tsx:135-137 | the hex text decodes back to the bytes |
| RecordingsForm.HexEncodeInjective | components/recordings-form.tsx:135-137 | different digests give different hex texts |
| RecordingsForm.ValuesOfStoredNormally | lib/form-actions.ts:58-71 | what the actions store never holds an empty description or keywords, nor a zero duration |
| RecordingsForm.EditRoundTrip | components/recordings-form.tsx:76-92 | loading a stored recording into the form and submitting it unchanged stores the same values and the same links |
| RecordingsForm.RecordingEditor.constructor | components/recordings-form.tsx:25-40 | the form starts empty |
| RecordingsForm.RecordingEditor.LoadRecording | components/recordings-form.tsx:72-99 | with an editing id and a successful load, the form holds the loaded values (NULL text as "", NULL duration as absent); otherwise it is unchanged |
| RecordingsForm.RecordingEditor.HandleMultiSelect | components/recordings-form.tsx:260-270 | only the named list is toggled |
| RecordingsForm.RecordingEditor.HandleFileUpload | components/recordings-form.tsx:114-175 | a file that is not MP3 is refused with no change; an accepted upload sets the file id and duration and nothing else |
| RecordingsForm.RecordingEditor.HandleSubmit | components/recordings-form.tsx:177-236 | a missing program, title or file refuses the submit with no write; otherwise the tables are those of the update or create action; a save empties the form and closes the editor, and anything else leaves the form as it was |
| RecordingsForm.RecordingEditor.HandleCancel | components/recordings-form.tsx:238-258 | cancel empties the form and closes the editor |
| ProgramsManager.SlugOrGenerated | components/programms-manager.tsx:75 | the entered slug or the derived one; ProgramsManager.EnteredSlugVerbatim and ProgramsManager.DerivedSlug state its contract |
| ProgramsManager.UpdatePayload | components/programms-manager.tsx:71-76 | the update request; ProgramsManager.EmptyFieldsMapping and ProgramsManager.PrefillRoundTrip state its contract |
| ProgramsManager.CreatePayload | components/programms-manager.tsx:87-92 | the create request; ProgramsManager.EmptyFieldsMapping states its contract |
| ProgramsManager.Prefill | components/programms-manager.tsx:112-117 | the form filled from a program; ProgramsManager.PrefillRoundTrip states its contract |
| ProgramsManager.EnteredSlugVerbatim | components/programms-manager.tsx:75-91 | an entered slug is sent as entered |
| ProgramsManager.EnteredSlugNotSanitised | components/programms-manager.tsx:75 | an entered slug is not made well formed: "Эфир №1" is sent as it is |
| ProgramsManager.DerivedSlug | components/programms-manager.tsx:75-91 | with no slug entered, the derived slug is sent, well formed and at most 32 characters |
| ProgramsManager.EmptyFieldsMapping | components/programms-manager.tsx:71-92 | an empty description or host is `null` in an update and `undefined` in a create; other text is sent as it is |
| ProgramsManager.PrefillRoundTrip | components/programms-manager.tsx:110-117 | for a program whose description and host are not the empty text "", opening it and saving it unchanged sends back its own columns, NULL as `null`, and an empty slug replaced by the derived one |
| ProgramsManager.PrefillSaved | components/programms-manager.tsx:71-117 | for every program, opening and saving sends its name, each optional column as its text unless it is NULL or "" (both sent as `null`), and the entered or derived slug |
| ProgramsManager.ProgramEditor.constructor | components/programms-manager.tsx:26-33 | the editor starts with an empty form, closed |
| ProgramsManager.ProgramEditor.HandleSubmit | components/programms-manager.tsx:65-108 | an update is sent when an id is being edited, else a create; after a call that does not throw the form is cleared whether it succeeded or failed; success closes the editor |
| ProgramsManager.ProgramEditor.HandleEdit | components/programms-manager.tsx:110-119 | edit opens the editor on the program with the prefilled form |
| ProgramsManager.ProgramEditor.HandleCancel | components/programms-manager.tsx:140-144 | cancel clears the form, the editing id and the creating state |
| PeopleManager.UpdatePayload | components/people-manager.tsx:52-58 | the update request; PeopleManager.EmptyHandle, PeopleManager.HandleSent and PeopleManager.PrefillRoundTrip state its contract |
| PeopleManager.CreatePayload | components/people-manager.tsx:68-71 | the create request; PeopleManager.EmptyHandle and PeopleManager.HandleSent state its contract |
| PeopleManager.Prefill | components/people-manager.tsx:92-95 | the form filled from a person; PeopleManager.PrefillRoundTrip states its contract |
| PeopleManager.StripAt | components/people-manager.tsx:52 | one leading "@" is removed; a handle without one is kept |
| PeopleManager.StripAtOnlyFirst | components/people-manager.tsx:52 | "@@a" becomes "@a", and an "@" further in is kept |
| PeopleManager.StripAtIdempotent | components/people-manager.tsx:52 | stripping again changes nothing unless the handle started with "@@" |
| PeopleManager.EmptyHandle | components/people-manager.tsx:57-71 | an empty handle, or a bare "@", is `null` in an update and `undefined` in a create |
| PeopleManager.HandleSent | components/people-manager.tsx:52-71 | any other handle is sent without its leading "@", the same in both requests |
| PeopleManager.TelegramUrl | components/people-manager.tsx:124-126 | the link is "https://t.me/" followed by the handle |
| PeopleManager.PrefillRoundTrip | components/people-manager.tsx:90-96 | for a person whose stored handle is NULL or a text that is not empty and does not start with "@", opening and saving unchanged sends that handle back, NULL as `null` |
| PeopleManager.PrefillSaved | components/people-manager.tsx:52-96 | for every person, opening and saving sends the stored handle without one leading "@" (a stored "@a" goes as "a"), and `null` when that leaves nothing or the column is NULL |
| PeopleManager.PersonEditor.constructor | components/people-manager.tsx:19-24 | the editor starts with an empty form, closed |
| PeopleManager.PersonEditor.HandleSubmit | components/people-manager.tsx:46-88 | update or create by the editing id; the form is cleared after any call that does not throw; success closes the editor |
| PeopleManager.PersonEditor.HandleEdit | components/people-manager.tsx:90-97 | edit opens the editor with the handle prefilled, NULL as "" |
| PeopleManager.PersonEditor.HandleCancel | components/people-manager.tsx:118-122 | cancel clears the form and closes the editor |
| GenresManager.Submits | components/genres-manager.tsx:39 | the guard of the submit; GenresManager.SubmitsIff states its contract |
| GenresManager.AddDisabled | components/genres-manager.tsx:94-96 | the button's disabled test; GenresManager.BlankInputEnabledButIgnored states its contract |
| GenresManager.SubmitsIff | components/genres-manager.tsx:39 | a name is submitted exactly when it holds a character other than white space |
| GenresManager.BlankInputEnabledButIgnored | components/genres-manager.tsx:39-96 | a white-space-only input enables the button, yet submitting it does nothing |
| GenresManager.SentNameShape | components/genres-manager.tsx:43 | the name sent is trimmed: it has no white space at either end |
| GenresManager.GenreEditor.constructor | components/genres-manager.tsx:14 | the input starts empty |
| GenresManager.GenreEditor.SetName | components/genres-manager.tsx:90 | typing sets the input |
| GenresManager.GenreEditor.HandleSubmit | components/genres-manager.tsx:36-56 | a blank name sends nothing; otherwise the trimmed name is sent, a success clears the input, and a failure or exception keeps it |
| AuthConfig.Authorized | app/auth.config.ts:17-25 | the `authorized` callback; AuthConfig.SignedInAuthorized, AuthConfig.AnonymousAuthorizedIff and AuthConfig.LoginPrefixOnly state its contract |
| AuthConfig.Jwt | app/auth.config.ts:26-32 | the `jwt` callback; AuthConfig.JwtCopiesUser states its contract |
| AuthConfig.SessionOf | app/auth.config.ts:33-37 | the `session` callback; AuthConfig.SessionCopiesToken states its contract |
| AuthConfig.SignedInAuthorized | app/auth.config.ts:17-25 | a signed-in user is admitted on every path |
| AuthConfig.AnonymousAuthorizedIff | app/auth.config.ts:17-25 | without a user, exactly the paths starting with "/login" are admitted |
| AuthConfig.LoginPrefixOnly | app/auth.config.ts:19 | the prefix test also admits "/loginx" and "/login/reset", and not "/" |
| AuthConfig.JwtCopiesUser | app/auth.config.ts:26-32 | on sign-in the token takes the user's id and role and keeps its other claims; without a user it is returned unchanged |
| AuthConfig.SessionCopiesToken | app/auth.config.ts:33-37 | the session's user gets the token's id and role; nothing else in the session changes |
| AuthConfig.SessionAfterSignIn | app/auth.config.ts:26-37 | after a sign-in and any number of later token refreshes, the session carries the signed-in user's id and role |
| Text.IndexOf | components/recordings-form.tsx:116 | the search finds the first occurrence at or after the start, or -1 exactly when there is none |
| Text.ContainsIff | components/recordings-form.tsx:116 | `includes` holds exactly when the part occurs somewhere |
| Text.Trim | components/genres-manager.tsx:39-43 | `trim`; Text.TrimShape, Text.TrimIdempotent and Text.TrimEmptyIff state its contract |
| Text.AsciiLower | components/recordings-form.tsx:117 | `toLowerCase` on ASCII: every character lower-cased in place |
| Text.TrimShape | components/genres-manager.tsx:39-43 | `trim` gives the input without its leading and trailing white space |
| Text.TrimIdempotent | components/genres-manager.tsx:43 | trimming twice is trimming once |
| Text.TrimEmptyIff | components/genres-manager.tsx:39 | the trimmed text is empty exactly when the input is white space only |
| Text.NullIfEmpty | components/programms-manager.tsx:73-74 | the "or null" of a text field: `null` exactly for the empty text, else the text |
| Text.UndefinedIfEmpty | components/programms-manager.tsx:89-90 | the "or undefined" of a text field: `undefined` exactly for the empty text, else the text |

## Left out

- The ORM, the SQLite driver, `revalidatePath` and caching are left out. Statements are modelled by their effect on the tables. A failure for reasons outside the tables is a `faults` parameter.
- `createdAt` and `addedAt` are not modelled. `getPrograms` selects `createdAt` (lib/actions.ts:294) and `getRecordings` selects `addedAt` (lib/actions.ts:482), but no query orders by either, and `db/schema.ts` does not declare them.
- Selects are modelled as returning rows in insertion order. SQLite leaves the order of a select without `ORDER BY` undefined (it usually follows the index it walks), so the sequences that FormActions.CreateThenLoad, FormActions.UpdateThenLoad, Actions.GenresForRecordingExact, Actions.PeopleForRecordingExact and Actions.ListingsExact state "in order" hold under that assumption; the source promises them only up to order.
- Foreign-key enforcement is assumed to be on. SQLite enforces foreign keys only when the connection enables them, and the driver setup is not part of this model; the cascades of Actions.DeletePersonCascades, Actions.DeleteGenreCascades, Actions.DeleteUserCascades and Actions.DeleteRecordingCascades, the failure of a person delete while a program hosts the person, and the failure of a program delete while a recording belongs to it (Actions.DeleteProgramRestricted), rely on it.
- `Promise.all` in `getRecordings` is treated as a sequential map.
- Of the plain single-table actions in `lib/actions.ts`, the model covers the six deletes (`deleteUser`, `deleteSession`, `deletePerson`, `deleteProgram`, `deleteGenre`, `deleteRecording`) and `updatePerson`. These are not modelled:
  - the creates: `createUser`, `createSession`, `createPerson`, `createProgram`, `createGenre`, `createRecording`;
  - the other updates: `updateUser`, `updateProgram`, `updateGenre`, `updateRecording`;
  - the list selects: `getUsers`, `getPeople`, `getPrograms`, `getGenres`;
  - the lookups: `getUserById`, `getSessionByToken`, `getPersonById`, `getProgramById`, `getProgramBySlug`, `getGenreById`, `getRecordingById`;
  - the recordings-by-program and recordings-by-status queries;
  - the recordings-for-genre and recordings-for-person queries.

  Each is one insert, one update of the row with that id, or one select, with no cascade and no reference check beyond the ones the modelled statements already show. The recording form goes through `lib/form-actions.ts`, which is modelled, not through `createRecording` or `updateRecording`.
- The editors' calls to `createProgram`, `updateProgram`, `createPerson`, `updatePerson` and `createGenre` are not executed against the store. How each call ended is a `CallOutcome` parameter. The list reloads after success, toasts and `confirm` are presentation.
- The upload is left out:
  - the upload-link request in `app/api/b2-upload-link/route.ts` and the upload `fetch` (network);
  - the SHA-1 digest (`crypto.subtle`);
  - the `Audio` duration probe, which rounds a float.

  The model takes the upload's file id and duration as a parameter.
- The double `response.json()` read in the recording form (components/recordings-form.tsx:155-158) is not modelled. Under the Fetch standard the second read of a consumed body rejects, so the upload as written would fail. It needs the network, so it cannot be stated here.
- Slug.GenerateSlug: `toLowerCase` is modelled for ASCII and the Cyrillic capitals only, and NFD decomposition as the identity because Unicode tables are out of reach. So a precomposed Latin letter such as "é" gives "-" in the model where the source gives "e". Stripping the combining marks U+0300..U+036F is exact.
- Slug.SlugExample: the example "Утренний Кофе" → "utrenniy-kofe" is not evaluated, because the solver's budget covers only short literal strings. The per-letter table (`Slug.Translit`) and the character-by-character transliteration (`Slug.TransliterateAppend`) state what that example relies on.
- `JSON.parse` and `JSON.stringify` of the filter state are left out. Stored text is already parsed into the keys it holds (`Filters.Stored`). Extra keys, keys of the wrong type and keys set explicitly to `undefined` are not modelled. `localStorage` errors are left out.
- Searching and sorting of lists are not modelled, because no core file applies `searchQuery` or `sortBy`. Only the filter state exists. The tab-specific sections of the filter bar and its checkbox and search callbacks are presentation.
- The `releaseDate` test in the recording form's required-field check is not modelled, because a `Date` object is always truthy. The form's date picker is presentation.
- The duration line of the recordings list (components/recordings-manager.tsx:153) renders "0" for a zero duration. The actions never store 0 (`FormActions.NumberOrNull`), so this is modelled only as `Duration.ShowsDuration`.
- Duration.PartsOfDuration: stated for non-negative durations only. A negative duration, which the form never produces, gives JavaScript's signed remainders (`Duration.JsRem`).
- `authorized` is modelled on the boolean `!!auth?.user`; the session object behind it is NextAuth's. NextAuth internals, bcrypt, the login form and the password hashing are library wrappers and are left out.
- React hooks, `useTransition`'s pending flag (a `GenresManager.AddDisabled` input), effects and JSX rendering are left out.
