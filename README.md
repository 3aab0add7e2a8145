# Persistent subsection grades, modelled in Dafny

This project models the grade-snapshot core of the LMS grading app: how the grade of one
subsection for one student is computed from the course tree, frozen into a saved row, and read
back later even when the course has changed since.

- `common.dfy` (`Common`): `Option`, `Result`, `Outcome` and the error kinds the core raises.
- `keys.dfy` (`Keys`): course and usage keys, and their string forms with a parser. The
  round trip is proved.
- `block_json.dfy` (`BlockJson`): the compact, key-sorted JSON text that `to_json` writes, and
  a reader for that shape. `Loads(Dumps(d)) == Some(d)` is proved.
- `block_records.dfy` (`BlockRecords`): `BlockRecord` and the `BlockRecordList` class, which
  caches its JSON text and its hash. `to_json`/`from_json` are specified as the functions
  `JsonOf`/`FromJson`. `JsonOf` has no contract of its own: what `to_json` promises is stated by
  the lemmas about it. `FromJsonOfJson`, `RoundTrip` and `RoundTripExactly` prove that the two
  are inverse exactly on lists whose blocks share one course, and say what `from_json` does to a
  list that mixes courses. `JsonOfInjective` proves that distinct lists get distinct text.
- `visible_blocks.dfy` (`VisibleBlocks`): the content-addressed `VisibleBlocks` table as a class
  over a map from hash to JSON text, with `get_or_create` as a function.
- `persistent_grades.dfy` (`PersistentGrades`): the `PersistentSubsectionGrade` table as a class
  over a map keyed by (course, user, subsection). It keeps the unique constraint and the foreign
  key into `VisibleBlocks` as its invariant. It models `read_grade`,
  `read_grades_for_user_in_course`, `_prepare_grade_params`, `update_or_create_grade`,
  `create_grade` and `bulk_create_grades`, with their integrity errors.
- `ordered_maps.dfy` (`OrderedMaps`): Python's `OrderedDict`.
- `subsection_grade.dfy` (`SubsectionGrades`): the `SubsectionGrade` class and its per-block
  scoring rule. Lemmas cover recording order and the preservation of saved denominators across
  a save and a reload.
- `grade_factory.dfy` (`GradeFactory`): the `SubsectionGradeFactory` class, with its cached
  score fetches and saved grades, its feature flag and its sub-structure check.

`subsection_grade.py` calls `PersistentSubsectionGrade.save_grade` and
`read_all_grades_for_course`. Neither name is defined in `models.py`. The model binds them to
`update_or_create_grade` (`PersistentGrades.GradeTable.UpdateOrCreateGrade`) and to
`read_grades_for_user_in_course` (`PersistentGrades.GradeTable.ReadGradesForUserInCourse`).
Their arguments match those two methods.

## Model

| member | source | states |
|---|---|---|
| Keys.ReplaceCourseKey | lms/djangoapps/grades/models.py:94 | `replace(course_key=k)` keeps the block and re-homes it in course `k` |
| Keys.CourseKeyRoundTrip | lms/djangoapps/grades/models.py:52 | `CourseKey.from_string(unicode(k)) == k` for every well-formed course key, with or without a run |
| Keys.UsageKeyRoundTrip | lms/djangoapps/grades/models.py:66 | `UsageKey.from_string(unicode(u)) == u` for every well-formed usage key |
| Keys.UsageKeyToStringInjective | lms/djangoapps/grades/models.py:66 | distinct well-formed usage keys have distinct strings |
| Keys.CourseKeyLacksAt | lms/djangoapps/grades/models.py:52 | the string of a course key contains no block separator and no quote |
| Keys.UsageKeyQuoteFree | lms/djangoapps/grades/models.py:66 | the string of a usage key contains no quote, so it needs no JSON escaping |
| BlockJson.NatToStringValue | lms/djangoapps/grades/models.py:72-76 | the decimal digits written for a number denote that number |
| BlockJson.IntRoundTrip | lms/djangoapps/grades/models.py:72-76 | a written integer, followed by any non-digit, reads back as the same integer and leaves the rest |
| BlockJson.NumberRoundTrip | lms/djangoapps/grades/models.py:95-96 | a weight or max score, `null` included, reads back unchanged |
| BlockJson.StringRoundTrip | lms/djangoapps/grades/models.py:66 | a quote-free string written as a JSON string reads back unchanged |
| BlockJson.NullableStringRoundTrip | lms/djangoapps/grades/models.py:68 | a course key string or `null` reads back unchanged |
| BlockJson.BlockRoundTrip | lms/djangoapps/grades/models.py:62-66 | one block dict, written with sorted keys and no spaces, reads back unchanged |
| BlockJson.TailRoundTrip | lms/djangoapps/grades/models.py:69 | a non-empty list of block dicts reads back unchanged, whatever follows it |
| BlockJson.BlocksRoundTrip | lms/djangoapps/grades/models.py:69 | a list of block dicts, `[]` included, reads back unchanged |
| BlockJson.LoadsDumps | lms/djangoapps/grades/models.py:72-76 | `json.loads(json.dumps(data))` gives back `data` for every quote-free document |
| BlockJson.DumpsInjective | lms/djangoapps/grades/models.py:72-76 | two documents with the same text are the same document, which makes the text a sound hash input |
| BlockRecords.CourseKeyString | lms/djangoapps/grades/models.py:45-54 | None exactly for the empty list; for a same-course list, the course of every block, not only the first |
| BlockRecords.RecordsFrom | lms/djangoapps/grades/models.py:92-99 | a failure is InvalidKey; otherwise one record per block, in order, each locator parsed and re-homed in the top-level course, weight and max score kept |
| BlockRecords.RecordsFromFails | lms/djangoapps/grades/models.py:92-99 | the record generator fails exactly when some locator does not parse |
| BlockRecords.FromDocument | lms/djangoapps/grades/models.py:84-100 | a null course key is accepted only with no blocks, otherwise MissingCourseKey; an unparsable course key is InvalidKey; with a parsed course key it succeeds exactly when every locator parses; a result has one record per block, in one course (the parsed top-level key), each keeping its block id, weight and max score |
| BlockRecords.RecordsFromRawBlocks | lms/djangoapps/grades/models.py:92-99 | re-reading the written blocks of a list gives the list re-homed in the given course |
| BlockRecords.FromJson | lms/djangoapps/grades/models.py:79-100 | MalformedJson exactly when the text does not read as a document; any other failure is MissingCourseKey or InvalidKey (the cases FromDocument tells apart); a result has one record per block of the document, all in one course |
| BlockRecords.FromJsonOfJson | lms/djangoapps/grades/models.py:56-100 | `from_json(to_json(l))` is `l` with every locator moved into the course of its first block |
| BlockRecords.RoundTrip | lms/djangoapps/grades/models.py:56-100 | `from_json(to_json(l)) == l` for every list whose blocks share one course |
| BlockRecords.RoundTripExactly | lms/djangoapps/grades/models.py:45-54 | the round trip holds if and only if all blocks share one course, as `to_json` assumes |
| BlockRecords.JsonOfInjective | lms/djangoapps/grades/models.py:56-77 | two lists with the same JSON text are the same list |
| BlockRecords.BlockRecordList.FromList | lms/djangoapps/grades/models.py:37-43 | the list keeps the given blocks, in order, with both caches empty |
| BlockRecords.BlockRecordList.ToJson | lms/djangoapps/grades/models.py:56-77 | returns the canonical text of the list and caches it; a cached text is never recomputed |
| BlockRecords.BlockRecordList.ToHash | lms/djangoapps/grades/models.py:109-120 | returns the digest of the canonical text and caches it; once cached, neither cache changes |
| VisibleBlocks.GetOrCreate | lms/djangoapps/grades/models.py:128-135 | returns the existing row under the hash unchanged, or adds one holding the given text; no other row changes |
| VisibleBlocks.GetOrCreateIdempotent | lms/djangoapps/grades/models.py:128-135 | a second `get_or_create` under the same hash changes nothing and returns the first row |
| VisibleBlocks.VisibleBlocksStore.constructor | lms/djangoapps/grades/models.py:138-150 | an empty table, whose every row is stored under the digest of its text |
| VisibleBlocks.VisibleBlocksStore.CreateFromBlockRecords | lms/djangoapps/grades/models.py:128-135 | `get_or_create(hashed=blocks.to_hash(), blocks_json=blocks.to_json())`; the returned row's text has the list's digest |
| PersistentGrades.GradeRow.FullUsageKey | lms/djangoapps/grades/models.py:209-217 | a key with a run is returned as is; one without a run is re-homed in the row's course; the result lacks a run only when both do |
| PersistentGrades.Prepared | lms/djangoapps/grades/models.py:266-276 | course_version becomes "" exactly when absent or empty; a missing course_id becomes the usage key's course; all other fields are carried over |
| PersistentGrades.PrepareOne | lms/djangoapps/grades/models.py:266-276 | the row is the parameter set prepared, pointing at the VisibleBlocks row under the digest of the block list's JSON, holding that JSON when the digest was new; the table now holds that row and loses none |
| PersistentGrades.PrepareAll | lms/djangoapps/grades/models.py:310-312 | one row per parameter set; the VisibleBlocks table only grows and holds every prepared row's VisibleBlocks row afterwards |
| PersistentGrades.PrepareAllRows | lms/djangoapps/grades/models.py:310-312 | the i-th prepared row is the i-th parameter set prepared, its values carried over and pointing at the VisibleBlocks row under the hash of its own block records |
| PersistentGrades.UpdateOrCreate | lms/djangoapps/grades/models.py:289-294 | the `update_or_create` lookup is usage-key based, but the stored row takes the prepared course_id; it fails exactly when that moves the row onto another existing row's key |
| PersistentGrades.UpdateOrCreateOwnKey | lms/djangoapps/grades/models.py:289-294 | when the stored row's key is the looked-up key, `update_or_create` always succeeds and replaces that one row |
| PersistentGrades.UpdateOrCreateKeepsValid | lms/djangoapps/grades/models.py:172-178 | a successful `update_or_create` of a row whose VisibleBlocks row is stored keeps the unique key and the foreign key intact |
| PersistentGrades.Create | lms/djangoapps/grades/models.py:303 | `objects.create` adds the row, or fails exactly when its key is taken |
| PersistentGrades.InsertAll | lms/djangoapps/grades/models.py:313-316 | `bulk_create` adds every row or none: it fails exactly when two new rows share a key or one clashes with a stored row |
| PersistentGrades.ReferencedExtends | lms/djangoapps/grades/models.py:204 | the foreign key into VisibleBlocks survives any growth of that table |
| PersistentGrades.LastWriteWins | lms/djangoapps/grades/models.py:278-295 | two saves of the same grade leave the second one stored |
| PersistentGrades.InsertAllKeepsValid | lms/djangoapps/grades/models.py:172-178 | a successful bulk insert keeps the unique key and the foreign key intact |
| PersistentGrades.PreparedSoFarStep | lms/djangoapps/grades/models.py:311-312 | preparing the next parameter set on the current table moves the loop of `bulk_create_grades` one step towards preparing the whole list |
| PersistentGrades.GradeTable.constructor | lms/djangoapps/grades/models.py:167-204 | an empty grade table over a valid VisibleBlocks table |
| PersistentGrades.GradeTable.ReadGrade | lms/djangoapps/grades/models.py:235-250 | the row of (user, usage key) in the usage key's course, or NotFound exactly when there is none |
| PersistentGrades.GradeTable.ReadGradesForUserInCourse | lms/djangoapps/grades/models.py:252-264 | every row of the user in the course and nothing else, with no subsection listed twice |
| PersistentGrades.GradeTable.PrepareGradeParams | lms/djangoapps/grades/models.py:266-276 | adds the VisibleBlocks row of the block list and returns the prepared row |
| PersistentGrades.GradeTable.PrepareGradeParamsList | lms/djangoapps/grades/models.py:310-312 | preparing each parameter set in turn gives the prepared rows and the VisibleBlocks table of preparing the whole list |
| PersistentGrades.GradeTable.UpdateOrCreateGrade | lms/djangoapps/grades/models.py:278-295 | stores the prepared row under the lookup key, or IntegrityViolation; a caller passing no course_id, or the usage key's own course, always succeeds |
| PersistentGrades.GradeTable.CreateGrade | lms/djangoapps/grades/models.py:297-303 | inserts the prepared row, or IntegrityViolation when its key is taken; the VisibleBlocks row stays either way |
| PersistentGrades.GradeTable.BulkCreateGrades | lms/djangoapps/grades/models.py:305-316 | an empty list does nothing; otherwise all rows are prepared, then inserted all at once or not at all |
| OrderedMaps.OrderedMap.Insert | lms/djangoapps/grades/new/subsection_grade.py:141-150 | a new key goes last; an existing key keeps its place and takes the new value |
| OrderedMaps.OrderedMap.Values | lms/djangoapps/grades/new/subsection_grade.py:39 | the values in key order |
| SubsectionGrades.BlockScore | lms/djangoapps/grades/new/subsection_grade.py:108-150 | blocks that are absent or unscored record nothing; persisted values override possible and weight; nothing is recorded when earned and possible are both None; graded exactly when the block is graded and possible > 0 |
| SubsectionGrades.Record | lms/djangoapps/grades/new/subsection_grade.py:141-150 | no entry leaves the map as it was; an entry is stored under its location, appended as the last key when the location is new and keeping its place otherwise; the map stays valid |
| SubsectionGrades.RecordAll | lms/djangoapps/grades/new/subsection_grade.py:46-50 | the entries after a run of visits, each recorded in turn; the ordered map stays valid (order and contents: RecordAllKeepsOrder, RecordAllInVisitOrder) |
| SubsectionGrades.ScoresOf | lms/djangoapps/grades/new/subsection_grade.py:34-39 | one score per entry, in insertion order |
| SubsectionGrades.VisibleBlocksOf | lms/djangoapps/grades/new/subsection_grade.py:61-64 | one BlockRecord(location, weight, possible) per entry, in insertion order |
| SubsectionGrades.RecordAllKeepsOrder | lms/djangoapps/grades/new/subsection_grade.py:32 | scoring more blocks never reorders the blocks already recorded |
| SubsectionGrades.RecordAllInVisitOrder | lms/djangoapps/grades/new/subsection_grade.py:46-50 | with distinct locations, the entries are the recorded ones in visiting order |
| SubsectionGrades.LoadKeepsSavedDenominators | lms/djangoapps/grades/new/subsection_grade.py:57-91 | the row that saving the entries prepares reads back as exactly their block records (when the hash holds no other text), and every block re-scored from them reports the saved possible and weight, whatever the live course says |
| SubsectionGrades.SubsectionGrade.constructor | lms/djangoapps/grades/new/subsection_grade.py:21-32 | location of the subsection, no totals, no entries |
| SubsectionGrades.SubsectionGrade.Scores | lms/djangoapps/grades/new/subsection_grade.py:34-39 | computed from the entries on first use, then the cached list |
| SubsectionGrades.SubsectionGrade.ComputeBlockScore | lms/djangoapps/grades/new/subsection_grade.py:108-150 | records the scoring rule's entry for one block |
| SubsectionGrades.SubsectionGrade.ComputeBlockScores | lms/djangoapps/grades/new/subsection_grade.py:46-50 | scoring the visits one after the other leaves exactly the entries of recording them all, in order |
| SubsectionGrades.SubsectionGrade.Compute | lms/djangoapps/grades/new/subsection_grade.py:41-55 | entries from the post-order traversal under the subsection; the cache is refreshed; both totals come from aggregating those scores |
| SubsectionGrades.SubsectionGrade.Save | lms/djangoapps/grades/new/subsection_grade.py:57-76 | the grade's row is the prepared `save` arguments: both totals, the course version ("" when none), the subsection's edit time and the digest of its entries' block list; no other row changes |
| SubsectionGrades.SubsectionGrade.LoadFromData | lms/djangoapps/grades/new/subsection_grade.py:78-106 | each stored block is re-scored with its stored weight and max score; totals come from the row; an unreadable block list fails with nothing changed |
| GradeFactory.FirstMatch | lms/djangoapps/grades/new/subsection_grade.py:245-253 | a saved grade of the subsection, or None exactly when there is none |
| GradeFactory.FirstMatchIsFirst | lms/djangoapps/grades/new/subsection_grade.py:251-253 | the match is the first grade in list order whose usage key is the subsection's |
| GradeFactory.FirstMatchUnique | lms/djangoapps/grades/new/subsection_grade.py:245-253 | with no subsection listed twice, the match found is the only one |
| GradeFactory.SavedGradeIsStoredRow | lms/djangoapps/grades/new/subsection_grade.py:237-253 | the saved grade found is exactly the row stored under (course, student, subsection), and is found exactly when that row exists |
| GradeFactory.SubStructure | lms/djangoapps/grades/new/subsection_grade.py:255-266 | no structure means the course structure; a given one is accepted exactly when its root is in the course structure, otherwise NotSubStructure |
| GradeFactory.ScorableLocations | lms/djangoapps/grades/new/subsection_grade.py:225 | exactly the blocks of the course structure that may hold a score |
| GradeFactory.SubsectionGradeFactory.constructor | lms/djangoapps/grades/new/subsection_grade.py:157-160 | the student, course and structure are kept; no cache is filled |
| GradeFactory.SubsectionGradeFactory.ScoresClient | lms/djangoapps/grades/new/subsection_grade.py:219-226 | fetched once for the scorable blocks of the course and the student, then cached |
| GradeFactory.SubsectionGradeFactory.SubmissionsScores | lms/djangoapps/grades/new/subsection_grade.py:228-235 | fetched once for the student in the course, then cached |
| GradeFactory.SubsectionGradeFactory.SavedSubsectionGrades | lms/djangoapps/grades/new/subsection_grade.py:237-243 | read once as all the student's grades in the course, then cached |
| GradeFactory.SubsectionGradeFactory.GetSavedSubsectionGrade | lms/djangoapps/grades/new/subsection_grade.py:245-253 | the first cached saved grade of the subsection, or None |
| GradeFactory.SubsectionGradeFactory.SaveGrade | lms/djangoapps/grades/new/subsection_grade.py:211-217 | with the flag on, the row under (course, student, location) is the prepared `save` arguments (totals, course version, edit time, block digest) and no other row changes; the VisibleBlocks table is the old one after `get_or_create` of the grade's block list, and nothing else; with the flag off neither table changes |
| GradeFactory.SubsectionGradeFactory.ComputeAndSaveGrade | lms/djangoapps/grades/new/subsection_grade.py:187-194 | a fresh grade whose entries are the post-order traversal and whose totals are aggregated from them; the scores used are the student's: a cache already filled is kept, one filled now holds the fetched scores; with the flag on only the row under (course, student, subsection) changes, recording the totals, course version, edit time and the digest of the grade's block list, and the VisibleBlocks table is the old one after `get_or_create` of the grade's block list, and nothing else; with it off neither table changes |
| GradeFactory.SubsectionGradeFactory.GetSavedGrade | lms/djangoapps/grades/new/subsection_grade.py:196-209 | None with the flag off, with every cache unchanged; None with no saved grade; otherwise the grade loaded from the first saved row of the subsection, or that row's read error; a filled saved-grades cache is kept, one filled now holds the student's rows in the course; the scores used are the student's: a cache already filled is kept, one filled now holds the fetched scores |
| GradeFactory.SubsectionGradeFactory.LoadSavedGrade | lms/djangoapps/grades/new/subsection_grade.py:204-209 | a new grade loaded from the found row with the student's scores (stored blocks re-scored with stored weights and max scores, both totals from the row), or the row's read error |
| GradeFactory.SubsectionGradeFactory.Create | lms/djangoapps/grades/new/subsection_grade.py:162-172 | a foreign structure is NotSubStructure with neither table nor any cache changed; otherwise what CreateOver states for the course's structure |
| GradeFactory.SubsectionGradeFactory.CreateOver | lms/djangoapps/grades/new/subsection_grade.py:168-172 | with the flag off, a freshly computed grade (traversal entries, aggregated totals) and no table or saved-grade cache change; with it on, the grade loaded from the saved row (stored blocks re-scored, both totals from the row) or that row's read error, with neither table changed, and with no saved row a freshly computed grade whose row (totals, course version, edit time, block digest) is saved and the VisibleBlocks table is the old one after `get_or_create` of the grade's block list, and nothing else; a filled saved-grades cache is kept, one filled now holds the student's rows in the course; the scores used are the student's: a cache already filled is kept, one filled now holds the fetched scores |
| GradeFactory.SubsectionGradeFactory.Update | lms/djangoapps/grades/new/subsection_grade.py:174-185 | nothing with the flag off, every cache included; NotSubStructure or MissingBlock with neither table changed; otherwise a freshly computed grade of the block (traversal entries, aggregated totals) whose row (totals, course version, edit time, block digest) replaces only the row under its key, and the VisibleBlocks table is the old one after `get_or_create` of the grade's block list, and nothing else; the scores used are the student's: a cache already filled is kept, one filled now holds the fetched scores |

## Left out

- Numbers: earned, possible and weight are integers. The float columns and float scores are
  not modelled, so neither is rounding.
- JSON: strings are written without escapes, and `Loads` reads only the shape that `Dumps`
  writes. Other JSON layouts, whitespace and escaped characters are not modelled.
- Keys: course and usage keys use their own string form, `course[+run]@block`, over letters,
  digits and `_ - .`. The opaque-keys string formats (`course-v1:…`, `block-v1:…`, old-style
  slashed keys) are not modelled.
- Hash: SHA-1 followed by base64 is an uninterpreted `digest` function. No property of SHA-1
  is assumed; where two texts share a digest, the first stored text stays.
- Database: the ORM, transactions, `select_related` and concurrency between requests are not
  modelled. Each table is a map and each call is atomic. Row ids, `TimeStampedModel`
  timestamps and the order in which the database returns rows are not modelled;
  `ReadGradesForUserInCourse` may return the rows in any order.
- `subtree_edited_timestamp` is an integer, not a date.
- Display names, url names, `format`, `due`, the subsection's own `graded`, the `section` of a
  total, `__unicode__` and logging carry no grading logic and are left out.
- The `lazy` library: `@lazy` properties are `Option` fields filled on first use.
  `lazy.invalidate` sets the field back to None.
- Course structure: `post_order_traversal(filter_func=possibly_scored, start_node=…)` is the
  function field `postOrder` of the structure. `possibly_scored` is a parameter of the
  factory. The traversal library is not part of this model.
- `get_score`, `aggregate_scores`, `ScoresClient.create_for_locations` and
  `submissions_api.get_scores` are function parameters, and their results are maps. Their code
  is not part of this model.
- `PersistentGradesEnabledFlag.feature_enabled(course.id)` is a boolean fixed when the factory
  is built.
- `User.objects.get(id=model.user_id)` and `anonymous_id_for_user` are folded into the student's
  integer id.
- `_prepare_grade_params` and `bulk_create_grades` rewrite the caller's keyword dicts in place
  (course_version, course_id, visible_blocks). The model returns the prepared row as a new
  value and leaves the caller's parameters unchanged, so that aliasing is not modelled.
- `_get_block_structure` checks only whether a structure was given, not Python truthiness.
- `SubsectionGrades.SubsectionGrade.LoadFromData`: an exception raised by `get_score` halfway
  through the loop is not modelled. The collaborators are total functions.
