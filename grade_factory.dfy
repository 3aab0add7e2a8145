/**
 * SubsectionGradeFactory: hands out the grade of a subsection for one student, read from the
 * saved grades when persistent grades are enabled for the course, computed (and saved) otherwise.
 */
module GradeFactory {
  import opened Common
  import opened Keys
  import opened BlockRecords
  import opened PersistentGrades
  import opened OrderedMaps
  import opened SubsectionGrades

  /** The first saved grade of the subsection `key` in `grades`, if any. */
  function FirstMatch(grades: seq<GradeRow>, key: UsageKey): (r: Option<GradeRow>)
    ensures r.Some? ==> r.value in grades && r.value.usageKey == key
    ensures r.None? <==> forall i :: 0 <= i < |grades| ==> grades[i].usageKey != key
    decreases |grades|
  {
    if grades == [] then None
    else if grades[0].usageKey == key then Some(grades[0])
    else FirstMatch(grades[1..], key)
  }

  /** The match is the first saved grade of the subsection in list order. */
  lemma {:induction false} FirstMatchIsFirst(grades: seq<GradeRow>, key: UsageKey, i: nat)
    requires i < |grades| && grades[i].usageKey == key
    requires forall j :: 0 <= j < i ==> grades[j].usageKey != key
    ensures FirstMatch(grades, key) == Some(grades[i])
    decreases i
  {
    if i > 0 {
      assert grades[0].usageKey != key;
      assert forall j :: 0 <= j < i - 1 ==> grades[1..][j] == grades[j + 1];
      FirstMatchIsFirst(grades[1..], key, i - 1);
    }
  }

  /** When no two saved grades share a subsection, the first match is the only one. */
  lemma {:induction false} FirstMatchUnique(grades: seq<GradeRow>, key: UsageKey, i: nat)
    requires forall m, n :: 0 <= m < n < |grades| ==> grades[m].usageKey != grades[n].usageKey
    requires i < |grades| && grades[i].usageKey == key
    ensures FirstMatch(grades, key) == Some(grades[i])
    decreases |grades|
  {
    if i > 0 {
      assert grades[0].usageKey != key;
      FirstMatchUnique(grades[1..], key, i - 1);
    }
  }

  /**
   * Reading the saved grades of the student in the course and picking the one of a subsection
   * finds exactly the row stored under (course, student, subsection).
   */
  lemma SavedGradeIsStoredRow(rows: map<GradeKey, GradeRow>, userId: int, courseId: CourseKey, grades: seq<GradeRow>, key: UsageKey)
    requires KeysMatch(rows) && GradesOf(rows, userId, courseId, grades)
    ensures FirstMatch(grades, key).Some? <==> GradeKey(courseId, userId, key) in rows
    ensures FirstMatch(grades, key).Some? ==> FirstMatch(grades, key).value == rows[GradeKey(courseId, userId, key)]
  {
    var k := GradeKey(courseId, userId, key);
    var found := FirstMatch(grades, key);
    if found.Some? {
      var i :| 0 <= i < |grades| && grades[i] == found.value;
      assert grades[i].Key() == k;
    }
    if k in rows {
      assert rows[k].Key() == k;
      var i :| 0 <= i < |grades| && grades[i] == rows[k];
      FirstMatchUnique(grades, key, i);
    }
  }

  /**
   * `_get_block_structure`: the course structure when no structure is given, the given one when
   * its root belongs to the course structure, NotSubStructure otherwise.
   */
  function SubStructure(courseStructure: BlockStructure, given: Option<BlockStructure>): (r: Result<BlockStructure>)
    ensures given.None? ==> r == Ok(courseStructure)
    ensures given.Some? ==> (r.Ok? <==> given.value.root in courseStructure.blocks)
    ensures r.Ok? ==> r.value.root in courseStructure.blocks || r.value == courseStructure
    ensures r.Err? ==> r.error == NotSubStructure
  {
    match given
    case None => Ok(courseStructure)
    case Some(s) => if s.root in courseStructure.blocks then Ok(s) else Err(NotSubStructure)
  }

  /** The blocks of the course structure that may hold a score. */
  function ScorableLocations(courseStructure: BlockStructure, possiblyScored: UsageKey -> bool): (r: set<UsageKey>)
    ensures forall k :: k in r <==> k in courseStructure.blocks && possiblyScored(k)
  {
    set k | k in courseStructure.blocks && possiblyScored(k)
  }

  /**
   * The row `save` leaves for a grade at `location`: its student, subsection and course, the
   * course version ("" when there is none), the subsection's edit time and both totals.
   */
  ghost predicate RowRecords(row: GradeRow, student: int, location: UsageKey, editedOn: int, course: Course, all: Total, graded: Total) {
    && row.userId == student && row.usageKey == location && row.courseId == location.courseKey
    && row.courseVersion == (if course.courseVersion.Some? then course.courseVersion.value else "")
    && row.subtreeEditedTimestamp == editedOn
    && row.earnedAll == all.earned && row.possibleAll == all.possible
    && row.earnedGraded == graded.earned && row.possibleGraded == graded.possible
  }

  class SubsectionGradeFactory {
    const student: int
    const course: Course
    const courseStructure: BlockStructure
    const scoring: Scoring
    const possiblyScored: UsageKey -> bool
    /** `ScoresClient.create_for_locations(course_id, user_id, locations)`. */
    const fetchScoresClient: (CourseKey, int, set<UsageKey>) -> ScoreMap
    /** `submissions_api.get_scores` for the student's anonymous id in the course. */
    const fetchSubmissionsScores: (CourseKey, int) -> ScoreMap
    /** `PersistentGradesEnabledFlag.feature_enabled(course.id)`. */
    const persistentGradesEnabled: bool
    const table: GradeTable
    var scoresClientMemo: Option<ScoreMap>
    var submissionsScoresMemo: Option<ScoreMap>
    var savedGradesMemo: Option<seq<GradeRow>>

    ghost predicate Valid()
      reads this, table, table.visibleBlocks
    {
      table.Valid()
    }

    constructor (
      student: int, course: Course, courseStructure: BlockStructure, scoring: Scoring,
      possiblyScored: UsageKey -> bool,
      fetchScoresClient: (CourseKey, int, set<UsageKey>) -> ScoreMap,
      fetchSubmissionsScores: (CourseKey, int) -> ScoreMap,
      persistentGradesEnabled: bool, table: GradeTable)
      requires table.Valid()
      ensures Valid()
      ensures this.student == student && this.course == course && this.courseStructure == courseStructure
      ensures this.scoring == scoring && this.possiblyScored == possiblyScored
      ensures this.fetchScoresClient == fetchScoresClient && this.fetchSubmissionsScores == fetchSubmissionsScores
      ensures this.persistentGradesEnabled == persistentGradesEnabled && this.table == table
      ensures scoresClientMemo == None && submissionsScoresMemo == None && savedGradesMemo == None
    {
      this.student := student;
      this.course := course;
      this.courseStructure := courseStructure;
      this.scoring := scoring;
      this.possiblyScored := possiblyScored;
      this.fetchScoresClient := fetchScoresClient;
      this.fetchSubmissionsScores := fetchSubmissionsScores;
      this.persistentGradesEnabled := persistentGradesEnabled;
      this.table := table;
      scoresClientMemo := None;
      submissionsScoresMemo := None;
      savedGradesMemo := None;
    }

    /** `_scores_client`: fetched for the scorable blocks of the course on first use, then cached. */
    method ScoresClient() returns (s: ScoreMap)
      modifies this`scoresClientMemo
      ensures scoresClientMemo == Some(s)
      ensures s == ClientScoresAfter(old(scoresClientMemo))
      ensures old(scoresClientMemo).Some? ==> s == old(scoresClientMemo).value
      ensures old(scoresClientMemo).None? ==>
        s == fetchScoresClient(course.id, student, ScorableLocations(courseStructure, possiblyScored))
    {
      if scoresClientMemo.None? {
        var locations := ScorableLocations(courseStructure, possiblyScored);
        scoresClientMemo := Some(fetchScoresClient(course.id, student, locations));
      }
      s := scoresClientMemo.value;
    }

    /** `_submissions_scores`: fetched on first use, then cached. */
    method SubmissionsScores() returns (s: ScoreMap)
      modifies this`submissionsScoresMemo
      ensures submissionsScoresMemo == Some(s)
      ensures s == SubmissionsScoresAfter(old(submissionsScoresMemo))
      ensures old(submissionsScoresMemo).Some? ==> s == old(submissionsScoresMemo).value
      ensures old(submissionsScoresMemo).None? ==> s == fetchSubmissionsScores(course.id, student)
    {
      if submissionsScoresMemo.None? {
        submissionsScoresMemo := Some(fetchSubmissionsScores(course.id, student));
      }
      s := submissionsScoresMemo.value;
    }

    /** `_saved_subsection_grades`: every saved grade of the student in the course, read once. */
    method SavedSubsectionGrades() returns (grades: seq<GradeRow>)
      requires Valid()
      modifies this`savedGradesMemo
      ensures savedGradesMemo == Some(grades)
      ensures old(savedGradesMemo).Some? ==> grades == old(savedGradesMemo).value
      ensures old(savedGradesMemo).None? ==> GradesOf(table.rows, student, course.id, grades)
    {
      if savedGradesMemo.None? {
        var read := table.ReadGradesForUserInCourse(student, course.id);
        savedGradesMemo := Some(read);
      }
      grades := savedGradesMemo.value;
    }

    /** `_get_saved_subsection_grade`: the first saved grade of the subsection, or None. */
    method GetSavedSubsectionGrade(key: UsageKey) returns (r: Option<GradeRow>)
      requires Valid()
      modifies this`savedGradesMemo
      ensures savedGradesMemo.Some? && r == FirstMatch(savedGradesMemo.value, key)
      ensures old(savedGradesMemo).Some? ==> savedGradesMemo == old(savedGradesMemo)
      ensures old(savedGradesMemo).None? ==> GradesOf(table.rows, student, course.id, savedGradesMemo.value)
    {
      var grades := SavedSubsectionGrades();
      var i := 0;
      while i < |grades|
        invariant 0 <= i <= |grades|
        invariant FirstMatch(grades, key) == FirstMatch(grades[i..], key)
      {
        if grades[i].usageKey == key {
          return Some(grades[i]);
        }
        assert grades[i..][1..] == grades[i + 1..];
        i := i + 1;
      }
      r := None;
    }

    /** The scores client once `_scores_client` has run on the cache `memo`: the cached one, else a fetch. */
    function ClientScoresAfter(memo: Option<ScoreMap>): ScoreMap {
      if memo.Some? then memo.value else fetchScoresClient(course.id, student, ScorableLocations(courseStructure, possiblyScored))
    }

    /** The submissions scores once `_submissions_scores` has run on the cache `memo`: the cached ones, else a fetch. */
    function SubmissionsScoresAfter(memo: Option<ScoreMap>): ScoreMap {
      if memo.Some? then memo.value else fetchSubmissionsScores(course.id, student)
    }

    /**
     * The score caches, starting from `client` and `submissions`: a filled cache is kept, and a
     * cache filled since holds the student's fetched scores.
     */
    ghost predicate CachesFrom(client: Option<ScoreMap>, submissions: Option<ScoreMap>)
      reads this
    {
      && (client.Some? ==> scoresClientMemo == client)
      && (submissions.Some? ==> submissionsScoresMemo == submissions)
      && (scoresClientMemo.Some? ==> scoresClientMemo.value == ClientScoresAfter(client))
      && (submissionsScoresMemo.Some? ==> submissionsScoresMemo.value == SubmissionsScoresAfter(submissions))
    }

    /**
     * The saved-grades cache, starting from `memo` over the grade rows `rows`: filled, kept when it
     * was filled, and otherwise holding the student's rows of the course.
     */
    ghost predicate SavedGradesFrom(memo: Option<seq<GradeRow>>, rows: map<GradeKey, GradeRow>)
      reads this
    {
      && savedGradesMemo.Some?
      && (memo.Some? ==> savedGradesMemo == memo)
      && (memo.None? ==> GradesOf(rows, student, course.id, savedGradesMemo.value))
    }

    /**
     * `grade` is what `_compute_and_save_grade` computes for `subsection` over `structure`: the
     * post-order entries scored with the cached scores, and both totals aggregated from them.
     */
    ghost predicate Computed(grade: SubsectionGrade, subsection: Block, structure: BlockStructure)
      reads this, grade
    {
      && grade.Valid() && grade.location == subsection.location
      && scoresClientMemo.Some? && submissionsScoresMemo.Some?
      && var src := Sources(structure, scoring, scoresClientMemo.value, submissionsScoresMemo.value);
         var totals := scoring.aggregate(ScoresOf(grade.locationsToWeightedScores), grade.location);
         && grade.locationsToWeightedScores
            == RecordAll(Empty(), student, src, TraversalVisits(structure.postOrder(subsection.location)))
         && grade.allTotal == Some(totals.0) && grade.gradedTotal == Some(totals.1)
    }

    /**
     * `grade` is what `_get_saved_grade` loads for `subsection` from the saved row: the stored
     * blocks re-scored with their stored weights and max scores, and both totals from the row.
     */
    ghost predicate Loaded(grade: SubsectionGrade, subsection: Block, structure: BlockStructure, saved: GradeRow)
      reads this, grade
    {
      && grade.Valid() && grade.location == subsection.location
      && scoresClientMemo.Some? && submissionsScoresMemo.Some?
      && saved.visibleBlocks.Blocks().Ok?
      && var src := Sources(structure, scoring, scoresClientMemo.value, submissionsScoresMemo.value);
         && grade.locationsToWeightedScores
            == RecordAll(Empty(), saved.userId, src, LoadVisits(saved.visibleBlocks.Blocks().value))
         && grade.allTotal == Some(Total(saved.earnedAll, saved.possibleAll, false, grade.location))
         && grade.gradedTotal == Some(Total(saved.earnedGraded, saved.possibleGraded, true, grade.location))
    }

    /**
     * The tables after saving `grade` of `subsection`: one row under (course, student, the grade's
     * location) recording it and pointing at the VisibleBlocks row of its entries' block list,
     * every other row as it was in `before`; the VisibleBlocks table is `beforeEntries` after
     * `get_or_create` of that block list, and nothing else.
     */
    ghost predicate SavedOver(before: map<GradeKey, GradeRow>, beforeEntries: map<string, string>,
                              grade: SubsectionGrade, subsection: Block)
      reads this, table, table.visibleBlocks, grade
    {
      var k := GradeKey(grade.location.courseKey, student, grade.location);
      && grade.Valid() && grade.allTotal.Some? && grade.gradedTotal.Some?
      && k in table.rows && table.rows == before[k := table.rows[k]]
      && RowRecords(table.rows[k], student, grade.location, subsection.subtreeEditedOn, course,
                    grade.allTotal.value, grade.gradedTotal.value)
      && table.rows[k].visibleBlocks.hashed
         == table.visibleBlocks.digest(JsonOf(VisibleBlocksOf(grade.locationsToWeightedScores)))
      && table.visibleBlocks.entries
         == PrepareOne(beforeEntries, table.visibleBlocks.digest, grade.GradeParamsOf(student, subsection, course)).0
    }

    /** `_save_grade`: saves the grade when persistent grades are enabled, and does nothing otherwise. */
    method SaveGrade(grade: SubsectionGrade, subsection: Block)
      requires Valid() && grade.Valid() && grade.allTotal.Some? && grade.gradedTotal.Some?
      modifies table, table.visibleBlocks
      ensures Valid()
      ensures !persistentGradesEnabled ==>
        table.rows == old(table.rows) && table.visibleBlocks.entries == old(table.visibleBlocks.entries)
      ensures persistentGradesEnabled ==>
        var k := GradeKey(grade.location.courseKey, student, grade.location);
        && SavedOver(old(table.rows), old(table.visibleBlocks.entries), grade, subsection)
        && table.rows[k] == PrepareOne(old(table.visibleBlocks.entries), table.visibleBlocks.digest,
                                       grade.GradeParamsOf(student, subsection, course)).1
        && table.rows[k].visibleBlocks.hashed
           == table.visibleBlocks.digest(JsonOf(VisibleBlocksOf(grade.locationsToWeightedScores)))
    {
      if persistentGradesEnabled {
        var row := grade.Save(student, subsection, course, table);
      }
    }

    /** `_compute_and_save_grade`: a fresh grade computed over `structure`, then saved. */
    method ComputeAndSaveGrade(subsection: Block, structure: BlockStructure) returns (grade: SubsectionGrade)
      requires Valid()
      modifies this`scoresClientMemo, this`submissionsScoresMemo, table, table.visibleBlocks
      ensures Valid() && fresh(grade) && Computed(grade, subsection, structure)
      ensures scoresClientMemo == Some(ClientScoresAfter(old(scoresClientMemo)))
      ensures submissionsScoresMemo == Some(SubmissionsScoresAfter(old(submissionsScoresMemo)))
      ensures !persistentGradesEnabled ==>
        table.rows == old(table.rows) && table.visibleBlocks.entries == old(table.visibleBlocks.entries)
      ensures persistentGradesEnabled ==> SavedOver(old(table.rows), old(table.visibleBlocks.entries), grade, subsection)
    {
      grade := new SubsectionGrade(subsection);
      var scoresClient := ScoresClient();
      var submissionsScores := SubmissionsScores();
      grade.Compute(student, Sources(structure, scoring, scoresClient, submissionsScores));
      SaveGrade(grade, subsection);
    }

    /**
     * `_get_saved_grade`: None when persistent grades are disabled or the subsection has no saved
     * grade; otherwise a grade loaded from the saved row, or the error reading its blocks raised.
     */
    method GetSavedGrade(subsection: Block, structure: BlockStructure) returns (r: Result<Option<SubsectionGrade>>)
      requires Valid()
      modifies this`scoresClientMemo, this`submissionsScoresMemo, this`savedGradesMemo
      ensures Valid()
      ensures CachesFrom(old(scoresClientMemo), old(submissionsScoresMemo))
      ensures !persistentGradesEnabled ==>
        && r == Ok(None) && savedGradesMemo == old(savedGradesMemo)
        && scoresClientMemo == old(scoresClientMemo) && submissionsScoresMemo == old(submissionsScoresMemo)
      ensures persistentGradesEnabled ==>
        && SavedGradesFrom(old(savedGradesMemo), table.rows)
        && var saved := FirstMatch(savedGradesMemo.value, subsection.location);
           && (saved.None? ==> r == Ok(None))
           && (saved.Some? && saved.value.visibleBlocks.Blocks().Err? ==> r == Err(saved.value.visibleBlocks.Blocks().error))
           && (saved.Some? && saved.value.visibleBlocks.Blocks().Ok? ==>
                 r.Ok? && r.value.Some? && fresh(r.value.value) && Loaded(r.value.value, subsection, structure, saved.value))
    {
      if !persistentGradesEnabled {
        return Ok(None);
      }
      var saved := GetSavedSubsectionGrade(subsection.location);
      if saved.None? {
        return Ok(None);
      }
      var loaded := LoadSavedGrade(subsection, structure, saved.value);
      if loaded.Err? {
        return Err(loaded.error);
      }
      r := Ok(Some(loaded.value));
    }

    /**
     * The body of `_get_saved_grade` once a saved row was found: a new grade of the subsection
     * loaded from the row with the student's cached scores, or the error reading its blocks.
     */
    method LoadSavedGrade(subsection: Block, structure: BlockStructure, saved: GradeRow) returns (r: Result<SubsectionGrade>)
      modifies this`scoresClientMemo, this`submissionsScoresMemo
      ensures CachesFrom(old(scoresClientMemo), old(submissionsScoresMemo))
      ensures saved.visibleBlocks.Blocks().Err? ==> r == Err(saved.visibleBlocks.Blocks().error)
      ensures saved.visibleBlocks.Blocks().Ok? ==> r.Ok? && fresh(r.value) && Loaded(r.value, subsection, structure, saved)
    {
      var grade := new SubsectionGrade(subsection);
      var scoresClient := ScoresClient();
      var submissionsScores := SubmissionsScores();
      var outcome := grade.LoadFromData(saved, Sources(structure, scoring, scoresClient, submissionsScores));
      if outcome.Fail? {
        return Err(outcome.error);
      }
      r := Ok(grade);
    }

    /**
     * `create`: the saved grade of the subsection when there is one, a freshly computed and saved
     * one otherwise; NotSubStructure, with nothing changed, when the given structure does not
     * belong to the course.
     */
    method Create(subsection: Block, given: Option<BlockStructure>) returns (r: Result<SubsectionGrade>)
      requires Valid()
      modifies this`scoresClientMemo, this`submissionsScoresMemo, this`savedGradesMemo, table, table.visibleBlocks
      ensures Valid()
      ensures r.Ok? ==> fresh(r.value)
      ensures CachesFrom(old(scoresClientMemo), old(submissionsScoresMemo))
      ensures SubStructure(courseStructure, given).Err? ==>
        && r == Err(NotSubStructure) && table.rows == old(table.rows)
        && table.visibleBlocks.entries == old(table.visibleBlocks.entries)
        && savedGradesMemo == old(savedGradesMemo)
        && scoresClientMemo == old(scoresClientMemo) && submissionsScoresMemo == old(submissionsScoresMemo)
      ensures SubStructure(courseStructure, given).Ok? && !persistentGradesEnabled ==>
        && r.Ok? && table.rows == old(table.rows)
        && table.visibleBlocks.entries == old(table.visibleBlocks.entries)
        && savedGradesMemo == old(savedGradesMemo)
        && Computed(r.value, subsection, SubStructure(courseStructure, given).value)
      ensures SubStructure(courseStructure, given).Ok? && persistentGradesEnabled ==>
        && SavedGradesFrom(old(savedGradesMemo), old(table.rows))
        && var structure := SubStructure(courseStructure, given).value;
           var saved := FirstMatch(savedGradesMemo.value, subsection.location);
           && (saved.Some? ==>
                 && table.rows == old(table.rows)
                 && table.visibleBlocks.entries == old(table.visibleBlocks.entries)
                 && (saved.value.visibleBlocks.Blocks().Err? ==> r == Err(saved.value.visibleBlocks.Blocks().error))
                 && (saved.value.visibleBlocks.Blocks().Ok? ==> r.Ok? && Loaded(r.value, subsection, structure, saved.value)))
           && (saved.None? ==>
                 r.Ok? && Computed(r.value, subsection, structure) && SavedOver(old(table.rows), old(table.visibleBlocks.entries), r.value, subsection))
    {
      var structure :- SubStructure(courseStructure, given);
      r := CreateOver(subsection, structure);
    }

    /** The body of `create` once the structure is known to belong to the course. */
    method CreateOver(subsection: Block, structure: BlockStructure) returns (r: Result<SubsectionGrade>)
      requires Valid()
      modifies this`scoresClientMemo, this`submissionsScoresMemo, this`savedGradesMemo, table, table.visibleBlocks
      ensures Valid()
      ensures r.Ok? ==> fresh(r.value)
      ensures CachesFrom(old(scoresClientMemo), old(submissionsScoresMemo))
      ensures !persistentGradesEnabled ==>
        && r.Ok? && table.rows == old(table.rows)
        && table.visibleBlocks.entries == old(table.visibleBlocks.entries)
        && savedGradesMemo == old(savedGradesMemo)
        && Computed(r.value, subsection, structure)
      ensures persistentGradesEnabled ==>
        && SavedGradesFrom(old(savedGradesMemo), old(table.rows))
        && var saved := FirstMatch(savedGradesMemo.value, subsection.location);
           && (saved.Some? ==>
                 && table.rows == old(table.rows)
                 && table.visibleBlocks.entries == old(table.visibleBlocks.entries)
                 && (saved.value.visibleBlocks.Blocks().Err? ==> r == Err(saved.value.visibleBlocks.Blocks().error))
                 && (saved.value.visibleBlocks.Blocks().Ok? ==> r.Ok? && Loaded(r.value, subsection, structure, saved.value)))
           && (saved.None? ==>
                 r.Ok? && Computed(r.value, subsection, structure) && SavedOver(old(table.rows), old(table.visibleBlocks.entries), r.value, subsection))
    {
      var saved := GetSavedGrade(subsection, structure);
      if saved.Err? {
        return Err(saved.error);
      }
      if saved.value.Some? {
        return Ok(saved.value.value);
      }
      var grade := ComputeAndSaveGrade(subsection, structure);
      r := Ok(grade);
    }

    /**
     * `update`: nothing when persistent grades are disabled; otherwise the grade of the block
     * `usageKey`, freshly computed and saved. NotSubStructure for a foreign structure and
     * MissingBlock for a block the structure does not hold, with nothing changed.
     */
    method Update(usageKey: UsageKey, given: Option<BlockStructure>) returns (r: Result<Option<SubsectionGrade>>)
      requires Valid()
      modifies this`scoresClientMemo, this`submissionsScoresMemo, table, table.visibleBlocks
      ensures Valid()
      ensures CachesFrom(old(scoresClientMemo), old(submissionsScoresMemo))
      ensures !persistentGradesEnabled ==>
        && r == Ok(None) && table.rows == old(table.rows) && table.visibleBlocks.entries == old(table.visibleBlocks.entries)
        && scoresClientMemo == old(scoresClientMemo) && submissionsScoresMemo == old(submissionsScoresMemo)
      ensures persistentGradesEnabled && SubStructure(courseStructure, given).Err? ==>
        r == Err(NotSubStructure) && table.rows == old(table.rows)
        && table.visibleBlocks.entries == old(table.visibleBlocks.entries)
      ensures (persistentGradesEnabled && SubStructure(courseStructure, given).Ok?
        && SubStructure(courseStructure, given).value.Get(usageKey).None?) ==>
        r == Err(MissingBlock) && table.rows == old(table.rows)
        && table.visibleBlocks.entries == old(table.visibleBlocks.entries)
      ensures (persistentGradesEnabled && SubStructure(courseStructure, given).Ok?
        && SubStructure(courseStructure, given).value.Get(usageKey).Some?) ==>
        var structure := SubStructure(courseStructure, given).value;
        var subsection := structure.Get(usageKey).value;
        && r.Ok? && r.value.Some? && fresh(r.value.value)
        && Computed(r.value.value, subsection, structure)
        && SavedOver(old(table.rows), old(table.visibleBlocks.entries), r.value.value, subsection)
    {
      if !persistentGradesEnabled {
        return Ok(None);
      }
      var structure :- SubStructure(courseStructure, given);
      var subsection := structure.Get(usageKey);
      if subsection.None? {
        return Err(MissingBlock);
      }
      var grade := ComputeAndSaveGrade(subsection.value, structure);
      r := Ok(Some(grade));
    }
  }
}
