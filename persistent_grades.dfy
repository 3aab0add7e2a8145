/**
 * The PersistentSubsectionGrade table: one row per (course_id, user_id, usage_key), each row
 * pointing at the VisibleBlocks row of the block records it was computed from.
 */
module PersistentGrades {
  import opened Common
  import opened Keys
  import opened BlockRecords
  import opened VisibleBlocks

  /** The `unique_together` columns. */
  datatype GradeKey = GradeKey(courseId: CourseKey, userId: int, usageKey: UsageKey)

  datatype GradeRow = GradeRow(
    userId: int,
    courseId: CourseKey,
    usageKey: UsageKey,
    subtreeEditedTimestamp: int,
    courseVersion: string,
    earnedAll: int,
    possibleAll: int,
    earnedGraded: int,
    possibleGraded: int,
    visibleBlocks: Entry)
  {
    function Key(): GradeKey {
      GradeKey(courseId, userId, usageKey)
    }

    /** `full_usage_key`: the stored usage key with the run filled in from the row's course. */
    function FullUsageKey(): (k: UsageKey)
      ensures k.block == usageKey.block
      ensures Run(usageKey).Some? ==> k == usageKey
      ensures Run(usageKey).None? ==> k.courseKey == courseId
      ensures Run(k).None? <==> Run(usageKey).None? && courseId.run.None?
    {
      if Run(usageKey).None? then ReplaceCourseKey(usageKey, courseId) else usageKey
    }
  }

  /** The keyword arguments of `update_or_create_grade` / `create_grade`; absent means None. */
  datatype GradeParams = GradeParams(
    userId: int,
    usageKey: UsageKey,
    courseId: Option<CourseKey>,
    courseVersion: Option<string>,
    subtreeEditedTimestamp: int,
    earnedAll: int,
    possibleAll: int,
    earnedGraded: int,
    possibleGraded: int,
    visibleBlocks: seq<BlockRecord>)

  /**
   * The rewriting half of `_prepare_grade_params`: an absent, None or empty course_version
   * becomes "", an absent course_id becomes the usage key's course, and the block records give
   * way to their VisibleBlocks row `e`.
   */
  function Prepared(p: GradeParams, e: Entry): (row: GradeRow)
    ensures row.courseVersion == "" <==> p.courseVersion.None? || p.courseVersion == Some("")
    ensures p.courseVersion.Some? ==> row.courseVersion == p.courseVersion.value
    ensures row.courseId == if p.courseId.Some? then p.courseId.value else p.usageKey.courseKey
    ensures row.visibleBlocks == e
    ensures row.userId == p.userId && row.usageKey == p.usageKey
    ensures row.subtreeEditedTimestamp == p.subtreeEditedTimestamp
    ensures row.earnedAll == p.earnedAll && row.possibleAll == p.possibleAll
    ensures row.earnedGraded == p.earnedGraded && row.possibleGraded == p.possibleGraded
  {
    GradeRow(
      p.userId,
      if p.courseId.Some? then p.courseId.value else p.usageKey.courseKey,
      p.usageKey,
      p.subtreeEditedTimestamp,
      if p.courseVersion.Some? then p.courseVersion.value else "",
      p.earnedAll, p.possibleAll, p.earnedGraded, p.possibleGraded,
      e)
  }

  /** The row's VisibleBlocks row is in `entries`, with the text the row refers to. */
  predicate InStore(entries: map<string, string>, row: GradeRow) {
    row.visibleBlocks.hashed in entries && entries[row.visibleBlocks.hashed] == row.visibleBlocks.blocksJson
  }

  /** Growing the VisibleBlocks table twice grows it, and keeps every row it held. */
  lemma StoreGrows(a: map<string, string>, b: map<string, string>, c: map<string, string>, row: GradeRow)
    requires Extends(a, b) && Extends(b, c)
    ensures Extends(a, c)
    ensures InStore(b, row) ==> InStore(c, row)
  {
  }

  /** `_prepare_grade_params` on a VisibleBlocks table `entries` hashed with `digest`. */
  function PrepareOne(entries: map<string, string>, digest: string -> string, p: GradeParams): (r: (map<string, string>, GradeRow))
    ensures Extends(entries, r.0)
    ensures r.1 == Prepared(p, r.1.visibleBlocks)
    ensures r.1.visibleBlocks.hashed == digest(JsonOf(p.visibleBlocks))
    ensures digest(JsonOf(p.visibleBlocks)) !in entries ==> r.1.visibleBlocks.blocksJson == JsonOf(p.visibleBlocks)
    ensures InStore(r.0, r.1)
  {
    var json := JsonOf(p.visibleBlocks);
    var stored := GetOrCreate(entries, digest(json), json);
    (stored.0, Prepared(p, stored.1))
  }

  /** `_prepare_grade_params` applied to each parameter set in turn. */
  function PrepareAll(entries: map<string, string>, digest: string -> string, ps: seq<GradeParams>): (r: (map<string, string>, seq<GradeRow>))
    ensures |r.1| == |ps|
    ensures Extends(entries, r.0)
    ensures forall i :: 0 <= i < |ps| ==> InStore(r.0, r.1[i])
    decreases |ps|
  {
    if ps == [] then (entries, [])
    else
      var first := PrepareOne(entries, digest, ps[0]);
      var others := PrepareAll(first.0, digest, ps[1..]);
      StoreGrows(entries, first.0, others.0, first.1);
      (others.0, [first.1] + others.1)
  }

  /**
   * `row` is the parameter set `p` prepared: its values carried over, pointing at the
   * VisibleBlocks row under the hash of its own block records.
   */
  predicate PreparedFrom(p: GradeParams, row: GradeRow, digest: string -> string) {
    row == Prepared(p, row.visibleBlocks) && row.visibleBlocks.hashed == digest(JsonOf(p.visibleBlocks))
  }

  /** PrepareAll of a non-empty list: the first parameter set, then the rest on the grown table. */
  lemma PrepareAllCons(entries: map<string, string>, digest: string -> string, ps: seq<GradeParams>)
    requires ps != []
    ensures var first := PrepareOne(entries, digest, ps[0]);
            PrepareAll(entries, digest, ps).1 == [first.1] + PrepareAll(first.0, digest, ps[1..]).1
  {
  }

  /** The i-th row that PrepareAll returns is the i-th parameter set prepared. */
  lemma {:induction false} PrepareAllRows(entries: map<string, string>, digest: string -> string, ps: seq<GradeParams>, i: nat)
    requires i < |ps|
    ensures PreparedFrom(ps[i], PrepareAll(entries, digest, ps).1[i], digest)
    decreases i
  {
    var first := PrepareOne(entries, digest, ps[0]);
    var rows := PrepareAll(entries, digest, ps).1;
    var others := PrepareAll(first.0, digest, ps[1..]).1;
    PrepareAllCons(entries, digest, ps);
    if i > 0 {
      PrepareAllRows(first.0, digest, ps[1..], i - 1);
      assert rows[i] == others[i - 1];
      assert ps[1..][i - 1] == ps[i];
    } else {
      assert rows[0] == first.1;
    }
  }

  /**
   * `update_or_create(user_id, course_id=usage_key.course_key, usage_key, defaults=…)` with
   * `lookup` the looked-up key and `row` the row the defaults describe. The defaults carry the
   * prepared course_id, so the saved row lives under `row.Key()`; None is the IntegrityError of
   * a row that would collide with another one.
   */
  function UpdateOrCreate(rows: map<GradeKey, GradeRow>, lookup: GradeKey, row: GradeRow): (r: Option<map<GradeKey, GradeRow>>)
    ensures r.Some? <==> row.Key() == lookup || row.Key() !in rows
    ensures r.Some? ==> row.Key() in r.value && r.value[row.Key()] == row
    ensures r.Some? ==> forall k :: k in rows && k != lookup && k != row.Key() ==> k in r.value && r.value[k] == rows[k]
    ensures r.Some? ==> r.value.Keys == rows.Keys - {lookup} + {row.Key()}
  {
    if row.Key() != lookup && row.Key() in rows then None
    else Some((rows - {lookup})[row.Key() := row])
  }

  /** Saving a row under its own key replaces whatever was there. */
  lemma UpdateOrCreateOwnKey(rows: map<GradeKey, GradeRow>, row: GradeRow)
    ensures UpdateOrCreate(rows, row.Key(), row) == Some(rows[row.Key() := row])
  {
    var k := row.Key();
    var r := (rows - {k})[k := row];
    assert r.Keys == rows[k := row].Keys;
    assert forall j :: j in r ==> r[j] == rows[k := row][j];
    assert r == rows[k := row];
    assert UpdateOrCreate(rows, k, row) == Some(r);
  }

  /** A successful update_or_create keeps the unique key and the foreign key intact. */
  lemma UpdateOrCreateKeepsValid(rows: map<GradeKey, GradeRow>, lookup: GradeKey, row: GradeRow, entries: map<string, string>)
    requires KeysMatch(rows) && Referenced(rows, entries)
    requires InStore(entries, row)
    ensures UpdateOrCreate(rows, lookup, row).Some? ==>
      KeysMatch(UpdateOrCreate(rows, lookup, row).value) && Referenced(UpdateOrCreate(rows, lookup, row).value, entries)
  {
  }

  /** `objects.create` of one row; None is the IntegrityError of an existing key. */
  function Create(rows: map<GradeKey, GradeRow>, row: GradeRow): (r: Option<map<GradeKey, GradeRow>>)
    ensures r.Some? <==> row.Key() !in rows
    ensures r.Some? ==> r.value == rows[row.Key() := row]
  {
    if row.Key() in rows then None else Some(rows[row.Key() := row])
  }

  predicate DistinctKeys(news: seq<GradeRow>) {
    forall i, j :: 0 <= i < j < |news| ==> news[i].Key() != news[j].Key()
  }

  /** The keys of a list of rows. */
  function KeysOf(news: seq<GradeRow>): (r: set<GradeKey>)
    ensures forall i :: 0 <= i < |news| ==> news[i].Key() in r
  {
    set i | 0 <= i < |news| :: news[i].Key()
  }

  lemma KeysOfCons(news: seq<GradeRow>)
    requires news != []
    ensures KeysOf(news) == {news[0].Key()} + KeysOf(news[1..])
  {
    forall k | k in KeysOf(news) ensures k in {news[0].Key()} + KeysOf(news[1..]) {
      var i :| 0 <= i < |news| && news[i].Key() == k;
      if i > 0 {
        assert news[1..][i - 1] == news[i];
      }
    }
  }

  /** The rows can all go in after the first exactly when they could with it. */
  lemma InsertableCons(rows: map<GradeKey, GradeRow>, news: seq<GradeRow>)
    requires news != [] && news[0].Key() !in rows
    ensures (DistinctKeys(news) && forall i :: 0 <= i < |news| ==> news[i].Key() !in rows)
        <==> (DistinctKeys(news[1..]) && forall i :: 0 <= i < |news| - 1 ==> news[1..][i].Key() !in rows[news[0].Key() := news[0]])
  {
    if DistinctKeys(news[1..]) && forall i :: 0 <= i < |news| - 1 ==> news[1..][i].Key() !in rows[news[0].Key() := news[0]] {
      forall i, j | 0 <= i < j < |news| ensures news[i].Key() != news[j].Key() {
        assert news[j] == news[1..][j - 1];
        if i > 0 {
          assert news[i] == news[1..][i - 1];
        }
      }
    }
  }

  /** `objects.bulk_create`: one INSERT of all rows, refused as a whole on any key clash. */
  function InsertAll(rows: map<GradeKey, GradeRow>, news: seq<GradeRow>): (r: Option<map<GradeKey, GradeRow>>)
    ensures r.Some? <==> DistinctKeys(news) && forall i :: 0 <= i < |news| ==> news[i].Key() !in rows
    ensures r.Some? ==> forall k :: k in rows ==> k in r.value && r.value[k] == rows[k]
    ensures r.Some? ==> forall i :: 0 <= i < |news| ==> news[i].Key() in r.value && r.value[news[i].Key()] == news[i]
    ensures r.Some? ==> r.value.Keys == rows.Keys + KeysOf(news)
    decreases |news|
  {
    if news == [] then Some(rows)
    else if news[0].Key() in rows then None
    else
      KeysOfCons(news);
      InsertableCons(rows, news);
      InsertAll(rows[news[0].Key() := news[0]], news[1..])
  }

  /** Every row holds under its own key. */
  ghost predicate KeysMatch(rows: map<GradeKey, GradeRow>) {
    forall k :: k in rows ==> rows[k].Key() == k
  }

  /** Every row's VisibleBlocks row is present in `entries` (the foreign key). */
  ghost predicate Referenced(rows: map<GradeKey, GradeRow>, entries: map<string, string>) {
    forall k :: k in rows ==> InStore(entries, rows[k])
  }

  /**
   * `grades` lists every row of the user in the course and nothing else, and no two of them share
   * a usage key.
   */
  ghost predicate GradesOf(rows: map<GradeKey, GradeRow>, userId: int, courseId: CourseKey, grades: seq<GradeRow>) {
    && (forall k :: k in rows && rows[k].userId == userId && rows[k].courseId == courseId ==> rows[k] in grades)
    && (forall i :: 0 <= i < |grades| ==>
         grades[i].Key() in rows && rows[grades[i].Key()] == grades[i]
         && grades[i].userId == userId && grades[i].courseId == courseId)
    && (forall i, j :: 0 <= i < j < |grades| ==> grades[i].usageKey != grades[j].usageKey)
  }

  lemma ReferencedExtends(rows: map<GradeKey, GradeRow>, before: map<string, string>, after: map<string, string>)
    requires Referenced(rows, before) && Extends(before, after)
    ensures Referenced(rows, after)
  {
  }

  /** Two upserts of the same key leave one row, the second one. */
  lemma LastWriteWins(rows: map<GradeKey, GradeRow>, first: GradeRow, second: GradeRow)
    requires first.Key() == second.Key()
    ensures UpdateOrCreate(rows, first.Key(), first).Some?
    ensures UpdateOrCreate(UpdateOrCreate(rows, first.Key(), first).value, second.Key(), second)
         == Some(rows[first.Key() := second])
  {
    var k := first.Key();
    var once := UpdateOrCreate(rows, k, first).value;
    assert once == rows[k := first];
    assert (once - {k})[k := second] == rows[k := second];
  }

  /** Inserting rows whose VisibleBlocks rows exist keeps the table valid. */
  lemma {:induction false} InsertAllKeepsValid(rows: map<GradeKey, GradeRow>, news: seq<GradeRow>, entries: map<string, string>)
    requires KeysMatch(rows) && Referenced(rows, entries)
    requires forall i :: 0 <= i < |news| ==> InStore(entries, news[i])
    ensures InsertAll(rows, news).Some? ==>
      KeysMatch(InsertAll(rows, news).value) && Referenced(InsertAll(rows, news).value, entries)
    decreases |news|
  {
    if news != [] && news[0].Key() !in rows {
      var next := rows[news[0].Key() := news[0]];
      InsertAllKeepsValid(next, news[1..], entries);
    }
  }

  /**
   * After `prepared` has been built from the parameter sets before `remaining`, which left the
   * table at `entries`, preparing `remaining` from there completes `whole`.
   */
  ghost predicate PreparedSoFar(whole: (map<string, string>, seq<GradeRow>), entries: map<string, string>,
                                digest: string -> string, remaining: seq<GradeParams>, prepared: seq<GradeRow>)
  {
    whole == (PrepareAll(entries, digest, remaining).0, prepared + PrepareAll(entries, digest, remaining).1)
  }

  /** Preparing the next parameter set on the table `entries` moves PreparedSoFar one step on. */
  lemma PreparedSoFarStep(whole: (map<string, string>, seq<GradeRow>), entries: map<string, string>,
                          digest: string -> string, remaining: seq<GradeParams>, prepared: seq<GradeRow>)
    requires remaining != [] && PreparedSoFar(whole, entries, digest, remaining, prepared)
    ensures var first := PrepareOne(entries, digest, remaining[0]);
            PreparedSoFar(whole, first.0, digest, remaining[1..], prepared + [first.1])
  {
    var first := PrepareOne(entries, digest, remaining[0]);
    var others := PrepareAll(first.0, digest, remaining[1..]);
    assert prepared + ([first.1] + others.1) == (prepared + [first.1]) + others.1;
  }

  /** With every parameter set prepared, `prepared` and the table are `whole`. */
  lemma PreparedSoFarDone(whole: (map<string, string>, seq<GradeRow>), entries: map<string, string>,
                          digest: string -> string, prepared: seq<GradeRow>)
    requires PreparedSoFar(whole, entries, digest, [], prepared)
    ensures whole == (entries, prepared)
  {
    assert prepared + [] == prepared;
  }

  class GradeTable {
    const visibleBlocks: VisibleBlocksStore
    var rows: map<GradeKey, GradeRow>

    /** The unique constraint, and the foreign key into VisibleBlocks. */
    ghost predicate Valid()
      reads this, visibleBlocks
    {
      visibleBlocks.Valid() && KeysMatch(rows) && Referenced(rows, visibleBlocks.entries)
    }

    constructor (visibleBlocks: VisibleBlocksStore)
      requires visibleBlocks.Valid()
      ensures Valid() && this.visibleBlocks == visibleBlocks && rows == map[]
    {
      this.visibleBlocks := visibleBlocks;
      rows := map[];
    }

    /** `read_grade`: the row of (usage_key.course_key, user_id, usage_key), or NotFound. */
    function ReadGrade(userId: int, usageKey: UsageKey): (r: Result<GradeRow>)
      reads this, visibleBlocks
      requires Valid()
      ensures r.Ok? <==> GradeKey(usageKey.courseKey, userId, usageKey) in rows
      ensures r.Ok? ==> r.value in rows.Values
      ensures r.Ok? ==> r.value.userId == userId && r.value.usageKey == usageKey && r.value.courseId == usageKey.courseKey
      ensures r.Err? ==> r.error == NotFound
    {
      var k := GradeKey(usageKey.courseKey, userId, usageKey);
      if k in rows then Ok(rows[k]) else Err(NotFound)
    }

    /**
     * `read_grades_for_user_in_course`: every row of the user in the course, in no particular
     * order; no two of them share a usage key.
     */
    method ReadGradesForUserInCourse(userId: int, courseId: CourseKey) returns (grades: seq<GradeRow>)
      requires Valid()
      ensures GradesOf(rows, userId, courseId, grades)
    {
      grades := [];
      var remaining := rows.Keys;
      while remaining != {}
        invariant remaining <= rows.Keys
        invariant forall k :: k in rows.Keys - remaining && rows[k].userId == userId && rows[k].courseId == courseId ==> rows[k] in grades
        invariant forall i :: 0 <= i < |grades| ==>
          grades[i].Key() in rows.Keys - remaining && rows[grades[i].Key()] == grades[i]
          && grades[i].userId == userId && grades[i].courseId == courseId
        invariant forall i, j :: 0 <= i < j < |grades| ==> grades[i].usageKey != grades[j].usageKey
        decreases remaining
      {
        var k :| k in remaining;
        var row := rows[k];
        if row.userId == userId && row.courseId == courseId {
          grades := grades + [row];
        }
        remaining := remaining - {k};
      }
    }

    /** `_prepare_grade_params`: stores the block records and returns the row the params describe. */
    method PrepareGradeParams(params: GradeParams) returns (row: GradeRow)
      requires visibleBlocks.Valid()
      modifies visibleBlocks
      ensures visibleBlocks.Valid()
      ensures (visibleBlocks.entries, row) == PrepareOne(old(visibleBlocks.entries), visibleBlocks.digest, params)
    {
      var blocks := new BlockRecordList.FromList(params.visibleBlocks, visibleBlocks.digest);
      var entry := visibleBlocks.CreateFromBlockRecords(blocks);
      row := Prepared(params, entry);
    }

    /**
     * `update_or_create_grade`: leaves one row under (usage_key.course_key, user_id, usage_key)
     * carrying the new values when no other course_id was given.
     */
    method UpdateOrCreateGrade(params: GradeParams) returns (r: Result<GradeRow>)
      requires Valid()
      modifies this, visibleBlocks
      ensures Valid()
      ensures var prepared := PrepareOne(old(visibleBlocks.entries), visibleBlocks.digest, params);
        && visibleBlocks.entries == prepared.0
        && var lookup := GradeKey(params.usageKey.courseKey, params.userId, params.usageKey);
           var updated := UpdateOrCreate(old(rows), lookup, prepared.1);
           && (r.Ok? <==> updated.Some?)
           && (r.Ok? ==> r.value == prepared.1 && rows == updated.value)
           && (r.Err? ==> r.error == IntegrityViolation && rows == old(rows))
      ensures params.courseId.None? || params.courseId == Some(params.usageKey.courseKey) ==>
        r.Ok? && rows == old(rows)[GradeKey(params.usageKey.courseKey, params.userId, params.usageKey) := r.value]
    {
      var row := PrepareGradeParams(params);
      ReferencedExtends(rows, old(visibleBlocks.entries), visibleBlocks.entries);
      var lookup := GradeKey(params.usageKey.courseKey, params.userId, params.usageKey);
      UpdateOrCreateKeepsValid(rows, lookup, row, visibleBlocks.entries);
      if params.courseId.None? || params.courseId == Some(params.usageKey.courseKey) {
        assert row.Key() == lookup;
        UpdateOrCreateOwnKey(rows, row);
      }
      var updated := UpdateOrCreate(rows, lookup, row);
      if updated.Some? {
        rows := updated.value;
        r := Ok(row);
      } else {
        r := Err(IntegrityViolation);
      }
    }

    /** `create_grade`: inserts the row the params describe; IntegrityViolation if its key is taken. */
    method CreateGrade(params: GradeParams) returns (r: Result<GradeRow>)
      requires Valid()
      modifies this, visibleBlocks
      ensures Valid()
      ensures var prepared := PrepareOne(old(visibleBlocks.entries), visibleBlocks.digest, params);
        && visibleBlocks.entries == prepared.0
        && var created := Create(old(rows), prepared.1);
           && (r.Ok? <==> created.Some?)
           && (r.Ok? ==> r.value == prepared.1 && rows == created.value)
           && (r.Err? ==> r.error == IntegrityViolation && rows == old(rows))
    {
      var row := PrepareGradeParams(params);
      ReferencedExtends(rows, old(visibleBlocks.entries), visibleBlocks.entries);
      var created := Create(rows, row);
      if created.Some? {
        rows := created.value;
        r := Ok(row);
      } else {
        r := Err(IntegrityViolation);
      }
    }

    /** The loop of `bulk_create_grades`: `_prepare_grade_params` on each parameter set in turn. */
    method PrepareGradeParamsList(paramsList: seq<GradeParams>) returns (prepared: seq<GradeRow>)
      requires visibleBlocks.Valid()
      modifies visibleBlocks
      ensures visibleBlocks.Valid()
      ensures (visibleBlocks.entries, prepared) == PrepareAll(old(visibleBlocks.entries), visibleBlocks.digest, paramsList)
    {
      ghost var whole := PrepareAll(visibleBlocks.entries, visibleBlocks.digest, paramsList);
      prepared := [];
      var i := 0;
      assert paramsList[0..] == paramsList;
      assert prepared + whole.1 == whole.1;
      while i < |paramsList|
        invariant 0 <= i <= |paramsList|
        invariant visibleBlocks.Valid()
        invariant PreparedSoFar(whole, visibleBlocks.entries, visibleBlocks.digest, paramsList[i..], prepared)
      {
        ghost var before := visibleBlocks.entries;
        assert paramsList[i..][0] == paramsList[i];
        assert paramsList[i..][1..] == paramsList[i + 1..];
        var row := PrepareGradeParams(paramsList[i]);
        PreparedSoFarStep(whole, before, visibleBlocks.digest, paramsList[i..], prepared);
        prepared := prepared + [row];
        i := i + 1;
      }
      assert paramsList[i..] == [];
      PreparedSoFarDone(whole, visibleBlocks.entries, visibleBlocks.digest, prepared);
    }

    /**
     * `bulk_create_grades`: None for an empty list, without touching either table; otherwise
     * every parameter set is prepared in order and all rows are inserted at once, or none of
     * them when a key is taken or repeated.
     */
    method BulkCreateGrades(paramsList: seq<GradeParams>) returns (r: Option<Result<seq<GradeRow>>>)
      requires Valid()
      modifies this, visibleBlocks
      ensures Valid()
      ensures paramsList == [] ==> r.None? && rows == old(rows) && visibleBlocks.entries == old(visibleBlocks.entries)
      ensures paramsList != [] ==>
        var prepared := PrepareAll(old(visibleBlocks.entries), visibleBlocks.digest, paramsList);
        var inserted := InsertAll(old(rows), prepared.1);
        && visibleBlocks.entries == prepared.0
        && r.Some?
        && (r.value.Ok? <==> inserted.Some?)
        && (r.value.Ok? ==> r.value.value == prepared.1 && rows == inserted.value)
        && (r.value.Err? ==> r.value.error == IntegrityViolation && rows == old(rows))
    {
      if paramsList == [] {
        return None;
      }
      var prepared := PrepareGradeParamsList(paramsList);
      ReferencedExtends(rows, old(visibleBlocks.entries), visibleBlocks.entries);
      InsertAllKeepsValid(rows, prepared, visibleBlocks.entries);
      var inserted := InsertAll(rows, prepared);
      if inserted.Some? {
        rows := inserted.value;
        r := Some(Ok(prepared));
      } else {
        r := Some(Err(IntegrityViolation));
      }
    }
  }
}
