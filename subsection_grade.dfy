/**
 * SubsectionGrade: the grade of one subsection for one student, computed from the live course
 * tree or loaded from a saved PersistentSubsectionGrade row.
 */
module SubsectionGrades {
  import opened Common
  import opened Keys
  import opened BlockRecords
  import opened VisibleBlocks
  import opened PersistentGrades
  import opened OrderedMaps

  /** A block of the course tree, with the fields the grading core reads from it. */
  datatype Block = Block(location: UsageKey, hasScore: bool, weight: Option<int>, graded: bool, subtreeEditedOn: int)

  /**
   * A block structure: its root, its blocks by usage key, and its post-order traversal
   * restricted to possibly-scored blocks, `postOrder(start)` for the subtree under `start`.
   */
  datatype BlockStructure = BlockStructure(
    root: UsageKey,
    blocks: map<UsageKey, Block>,
    postOrder: UsageKey -> seq<UsageKey>)
  {
    /** `structure[key]`, None for a key the structure does not hold. */
    function Get(key: UsageKey): Option<Block> {
      if key in blocks then Some(blocks[key]) else None
    }
  }

  /** `Score` of one problem; earned and possible may be None. */
  datatype Score = Score(earned: Option<int>, possible: Option<int>, graded: bool, moduleId: UsageKey)

  /** `Score` of an aggregated total. */
  datatype Total = Total(earned: int, possible: int, graded: bool, moduleId: UsageKey)

  /** The `(Score, weight)` pair that `locations_to_weighted_scores` holds. */
  datatype Weighted = Weighted(score: Score, weight: Option<int>)

  /** The `persisted_values` dict: both keys are always present. */
  datatype Persisted = Persisted(weight: Option<int>, possible: Option<int>)

  /** What `get_score` returns: `(earned, possible)`. */
  datatype RawScore = RawScore(earned: Option<int>, possible: Option<int>)

  /** The fetched scores of the student (the scores client, the submissions scores). */
  type ScoreMap = map<UsageKey, RawScore>

  /** The course as the grading core sees it. */
  datatype Course = Course(id: CourseKey, courseVersion: Option<string>)

  /**
   * The outside collaborators: `get_score(student, block, scores_client, submissions_scores)`
   * and `aggregate_scores(scores, display_name, location)`.
   */
  datatype Scoring = Scoring(
    getScore: (int, Block, ScoreMap, ScoreMap) -> RawScore,
    aggregate: (seq<Score>, UsageKey) -> (Total, Total))

  /** What one pass over blocks reads: the structure, the collaborators and the fetched scores. */
  datatype Sources = Sources(
    structure: BlockStructure,
    scoring: Scoring,
    scoresClient: ScoreMap,
    submissionsScores: ScoreMap)

  /** One call of `_compute_block_score`: a block key and, when loading, its persisted values. */
  datatype Visit = Visit(key: UsageKey, persisted: Option<Persisted>)

  /** `possible > 0` in Python 2, where `None > 0` is False. */
  predicate Positive(o: Option<int>) {
    o.Some? && o.value > 0
  }

  function RawScoreOf(student: int, src: Sources, b: Block): RawScore {
    src.scoring.getScore(student, b, src.scoresClient, src.submissionsScores)
  }

  /**
   * The scoring rule of `_compute_block_score`: the `(location, (score, weight))` entry it
   * records for one visit, or None when it records nothing.
   */
  function BlockScore(student: int, src: Sources, v: Visit): (r: Option<(UsageKey, Weighted)>)
    ensures (src.structure.Get(v.key).None? || !src.structure.Get(v.key).value.hasScore) ==> r.None?
    ensures r.Some? ==>
      var b := src.structure.Get(v.key).value;
      var raw := RawScoreOf(student, src, b);
      && b.hasScore
      && r.value.0 == b.location && r.value.1.score.moduleId == b.location
      && r.value.1.score.earned == raw.earned
      && (v.persisted.Some? ==> r.value.1.score.possible == v.persisted.value.possible && r.value.1.weight == v.persisted.value.weight)
      && (v.persisted.None? ==> r.value.1.score.possible == raw.possible && r.value.1.weight == b.weight)
      && (r.value.1.score.graded <==> b.graded && Positive(r.value.1.score.possible))
    ensures src.structure.Get(v.key).Some? && src.structure.Get(v.key).value.hasScore ==>
      var b := src.structure.Get(v.key).value;
      var raw := RawScoreOf(student, src, b);
      var possible := if v.persisted.Some? then v.persisted.value.possible else raw.possible;
      (r.None? <==> raw.earned.None? && possible.None?)
  {
    match src.structure.Get(v.key)
    case None => None
    case Some(b) =>
      if !b.hasScore then None
      else
        var raw := RawScoreOf(student, src, b);
        var possible := if v.persisted.Some? then v.persisted.value.possible else raw.possible;
        var weight := if v.persisted.Some? then v.persisted.value.weight else b.weight;
        if raw.earned.None? && possible.None? then None
        else
          var graded := if Positive(possible) then b.graded else false;
          Some((b.location, Weighted(Score(raw.earned, possible, graded, b.location), weight)))
  }

  /** The entry of one visit, inserted into `entries` when there is one. */
  function Record(entries: OrderedMap<UsageKey, Weighted>, scored: Option<(UsageKey, Weighted)>): (r: OrderedMap<UsageKey, Weighted>)
    requires entries.Valid()
    ensures r.Valid()
    ensures scored.None? ==> r == entries
    ensures scored.Some? ==>
      && r.values == entries.values[scored.value.0 := scored.value.1]
      && (scored.value.0 in entries.keys ==> r.keys == entries.keys)
      && (scored.value.0 !in entries.keys ==> r.keys == entries.keys + [scored.value.0])
  {
    if scored.None? then entries else entries.Insert(scored.value.0, scored.value.1)
  }

  /** `locations_to_weighted_scores` after the visits, in order, starting from `entries`. */
  function RecordAll(entries: OrderedMap<UsageKey, Weighted>, student: int, src: Sources, visits: seq<Visit>): (r: OrderedMap<UsageKey, Weighted>)
    requires entries.Valid()
    ensures r.Valid()
    decreases |visits|
  {
    if visits == [] then entries
    else
      var last := |visits| - 1;
      Record(RecordAll(entries, student, src, visits[..last]), BlockScore(student, src, visits[last]))
  }

  /** The entries the visits produce, in visiting order, before any key is merged. */
  function Recorded(student: int, src: Sources, visits: seq<Visit>): (r: seq<(UsageKey, Weighted)>)
    ensures |r| <= |visits|
    decreases |visits|
  {
    if visits == [] then []
    else
      var last := |visits| - 1;
      var scored := BlockScore(student, src, visits[last]);
      Recorded(student, src, visits[..last]) + if scored.Some? then [scored.value] else []
  }

  predicate DistinctLocations(entries: seq<(UsageKey, Weighted)>) {
    forall i, j :: 0 <= i < j < |entries| ==> entries[i].0 != entries[j].0
  }

  /** Visits to the blocks of a traversal: nothing persisted. */
  function TraversalVisits(keys: seq<UsageKey>): (r: seq<Visit>)
    ensures |r| == |keys| && forall i :: 0 <= i < |keys| ==> r[i] == Visit(keys[i], None)
  {
    seq(|keys|, i requires 0 <= i < |keys| => Visit(keys[i], None))
  }

  /** Visits to the blocks of a stored list, each with its stored weight and max score. */
  function LoadVisits(records: seq<BlockRecord>): (r: seq<Visit>)
    ensures |r| == |records|
    ensures forall i :: 0 <= i < |records| ==>
      r[i] == Visit(records[i].locator, Some(Persisted(records[i].weight, records[i].maxScore)))
  {
    seq(|records|, i requires 0 <= i < |records| =>
      Visit(records[i].locator, Some(Persisted(records[i].weight, records[i].maxScore))))
  }

  /** The `scores` property: the recorded scores in insertion order. */
  function ScoresOf(entries: OrderedMap<UsageKey, Weighted>): (r: seq<Score>)
    requires entries.Valid()
    ensures |r| == |entries.keys|
    ensures forall i :: 0 <= i < |r| ==> r[i] == entries.values[entries.keys[i]].score
  {
    var ws := entries.Values();
    seq(|ws|, i requires 0 <= i < |ws| => ws[i].score)
  }

  /** The list comprehension of `save`: one BlockRecord(location, weight, possible) per entry. */
  function VisibleBlocksOf(entries: OrderedMap<UsageKey, Weighted>): (r: seq<BlockRecord>)
    requires entries.Valid()
    ensures |r| == |entries.keys|
    ensures forall i :: 0 <= i < |r| ==>
      var w := entries.values[entries.keys[i]];
      r[i] == BlockRecord(entries.keys[i], w.weight, w.score.possible)
  {
    seq(|entries.keys|, i requires 0 <= i < |entries.keys| =>
      BlockRecord(entries.keys[i], entries.values[entries.keys[i]].weight, entries.values[entries.keys[i]].score.possible))
  }

  /** Recording never moves an entry that is already there. */
  lemma {:induction false} RecordAllKeepsOrder(entries: OrderedMap<UsageKey, Weighted>, student: int, src: Sources, visits: seq<Visit>)
    requires entries.Valid()
    ensures IsPrefix(entries.keys, RecordAll(entries, student, src, visits).keys)
    decreases |visits|
  {
    if visits != [] {
      var last := |visits| - 1;
      var before := RecordAll(entries, student, src, visits[..last]);
      RecordAllKeepsOrder(entries, student, src, visits[..last]);
      var after := RecordAll(entries, student, src, visits);
      assert after.keys == before.keys || after.keys == before.keys + [BlockScore(student, src, visits[last]).value.0];
      assert after.keys[..|before.keys|] == before.keys;
    }
  }

  /**
   * Starting from no entries, and when no two visits record the same location, the entries
   * are exactly the recorded ones, in visiting order.
   */
  lemma {:induction false} RecordAllInVisitOrder(student: int, src: Sources, visits: seq<Visit>)
    requires DistinctLocations(Recorded(student, src, visits))
    ensures var r := RecordAll(Empty(), student, src, visits);
            var rec := Recorded(student, src, visits);
            && |r.keys| == |rec|
            && forall i :: 0 <= i < |rec| ==> r.keys[i] == rec[i].0 && r.values[r.keys[i]] == rec[i].1
    decreases |visits|
  {
    if visits != [] {
      var last := |visits| - 1;
      var recBefore := Recorded(student, src, visits[..last]);
      var rec := Recorded(student, src, visits);
      assert recBefore == rec[..|recBefore|];
      assert DistinctLocations(recBefore);
      RecordAllInVisitOrder(student, src, visits[..last]);
      var before := RecordAll(Empty(), student, src, visits[..last]);
      var scored := BlockScore(student, src, visits[last]);
      if scored.Some? {
        assert rec[|rec| - 1] == scored.value;
        assert scored.value.0 !in before.keys by {
          forall i | 0 <= i < |before.keys| ensures before.keys[i] != scored.value.0 {
            assert before.keys[i] == rec[i].0;
          }
        }
      }
    }
  }

  /**
   * Denominator preservation: when the entries of a grade are saved with parameters `p` (as
   * `save` does) and the VisibleBlocks table holds no other text under their hash, the saved
   * row reads back as exactly those entries' block records, and each block that is still scored
   * on reload reports the saved `possible` and `weight`, whatever the live course and the fresh
   * scores now say.
   */
  lemma LoadKeepsSavedDenominators(entries: OrderedMap<UsageKey, Weighted>, p: GradeParams,
                                   before: map<string, string>, digest: string -> string,
                                   student: int, live: Sources, i: nat)
    requires entries.Valid() && p.visibleBlocks == VisibleBlocksOf(entries)
    requires WellFormed(p.visibleBlocks) && SameCourse(p.visibleBlocks)
    requires digest(JsonOf(p.visibleBlocks)) in before ==> before[digest(JsonOf(p.visibleBlocks))] == JsonOf(p.visibleBlocks)
    requires i < |entries.keys|
    ensures PrepareOne(before, digest, p).1.visibleBlocks.Blocks() == Ok(VisibleBlocksOf(entries))
    ensures var saved := entries.values[entries.keys[i]];
            var reloaded := BlockScore(student, live, LoadVisits(VisibleBlocksOf(entries))[i]);
            reloaded.Some? ==> reloaded.value.1.score.possible == saved.score.possible && reloaded.value.1.weight == saved.weight
  {
    var json := JsonOf(p.visibleBlocks);
    var stored := GetOrCreate(before, digest(json), json);
    assert stored.1.blocksJson == json;
    assert PrepareOne(before, digest, p).1.visibleBlocks == stored.1;
    RoundTrip(p.visibleBlocks);
  }

  class SubsectionGrade {
    const location: UsageKey
    var gradedTotal: Option<Total>
    var allTotal: Option<Total>
    var locationsToWeightedScores: OrderedMap<UsageKey, Weighted>
    /** The lazily computed `scores`; None when not computed or invalidated. */
    var scoresMemo: Option<seq<Score>>

    ghost predicate Valid()
      reads this
    {
      locationsToWeightedScores.Valid()
    }

    constructor (subsection: Block)
      ensures Valid() && location == subsection.location
      ensures gradedTotal == None && allTotal == None
      ensures locationsToWeightedScores == Empty() && scoresMemo == None
    {
      location := subsection.location;
      gradedTotal := None;
      allTotal := None;
      locationsToWeightedScores := Empty();
      scoresMemo := None;
    }

    /** `scores`: the scores of the entries, computed on first use and cached until invalidated. */
    method Scores() returns (s: seq<Score>)
      requires Valid()
      modifies this`scoresMemo
      ensures scoresMemo == Some(s)
      ensures old(scoresMemo).Some? ==> s == old(scoresMemo).value
      ensures old(scoresMemo).None? ==> s == ScoresOf(locationsToWeightedScores)
    {
      if scoresMemo.None? {
        var ws := locationsToWeightedScores.Values();
        var scores: seq<Score> := [];
        var i := 0;
        while i < |ws|
          invariant 0 <= i <= |ws|
          invariant scores == ScoresOf(locationsToWeightedScores)[..i]
        {
          scores := scores + [ws[i].score];
          i := i + 1;
        }
        scoresMemo := Some(scores);
      }
      s := scoresMemo.value;
    }

    /** `_compute_block_score`: records the entry of one visit, if it has one. */
    method ComputeBlockScore(student: int, src: Sources, blockKey: UsageKey, persisted: Option<Persisted>)
      requires Valid()
      modifies this`locationsToWeightedScores
      ensures Valid()
      ensures locationsToWeightedScores
           == Record(old(locationsToWeightedScores), BlockScore(student, src, Visit(blockKey, persisted)))
    {
      var scored := BlockScore(student, src, Visit(blockKey, persisted));
      if scored.Some? {
        locationsToWeightedScores := locationsToWeightedScores.Insert(scored.value.0, scored.value.1);
      }
    }

    /** The `for` loops of `compute` and `load_from_data`: one `_compute_block_score` per visit, in order. */
    method ComputeBlockScores(student: int, src: Sources, visits: seq<Visit>)
      requires Valid()
      modifies this`locationsToWeightedScores
      ensures Valid()
      ensures locationsToWeightedScores == RecordAll(old(locationsToWeightedScores), student, src, visits)
    {
      ghost var start := locationsToWeightedScores;
      var i := 0;
      while i < |visits|
        invariant 0 <= i <= |visits|
        invariant Valid()
        invariant locationsToWeightedScores == RecordAll(start, student, src, visits[..i])
      {
        assert visits[..i + 1][..i] == visits[..i];
        ComputeBlockScore(student, src, visits[i].key, visits[i].persisted);
        i := i + 1;
      }
      assert visits[..i] == visits;
    }

    /**
     * `compute`: visits the possibly-scored blocks under this subsection in post order, then
     * aggregates the freshly listed scores into the two totals.
     */
    method Compute(student: int, src: Sources)
      requires Valid()
      modifies this
      ensures Valid()
      ensures locationsToWeightedScores
           == RecordAll(old(locationsToWeightedScores), student, src, TraversalVisits(src.structure.postOrder(location)))
      ensures scoresMemo == Some(ScoresOf(locationsToWeightedScores))
      ensures var totals := src.scoring.aggregate(ScoresOf(locationsToWeightedScores), location);
              allTotal == Some(totals.0) && gradedTotal == Some(totals.1)
    {
      var traversal := src.structure.postOrder(location);
      ComputeBlockScores(student, src, TraversalVisits(traversal));
      scoresMemo := None;
      var scores := Scores();
      var totals := src.scoring.aggregate(scores, location);
      allTotal, gradedTotal := Some(totals.0), Some(totals.1);
    }

    /**
     * `save`: stores the entries as block records, in order, with the totals, through
     * `update_or_create_grade`; the row of this student and subsection then holds them.
     */
    method Save(student: int, subsection: Block, course: Course, table: GradeTable) returns (row: GradeRow)
      requires Valid() && table.Valid()
      requires allTotal.Some? && gradedTotal.Some?
      modifies table, table.visibleBlocks
      ensures table.Valid()
      ensures var params := GradeParamsOf(student, subsection, course);
              var prepared := PrepareOne(old(table.visibleBlocks.entries), table.visibleBlocks.digest, params);
              && table.visibleBlocks.entries == prepared.0
              && row == prepared.1
              && table.rows == old(table.rows)[GradeKey(location.courseKey, student, location) := row]
      ensures row.userId == student && row.usageKey == location && row.courseId == location.courseKey
      ensures row.subtreeEditedTimestamp == subsection.subtreeEditedOn
      ensures row.courseVersion == (if course.courseVersion.Some? then course.courseVersion.value else "")
      ensures row.earnedAll == allTotal.value.earned && row.possibleAll == allTotal.value.possible
      ensures row.earnedGraded == gradedTotal.value.earned && row.possibleGraded == gradedTotal.value.possible
      ensures row.visibleBlocks.hashed == table.visibleBlocks.digest(JsonOf(VisibleBlocksOf(locationsToWeightedScores)))
    {
      var visibleBlocks: seq<BlockRecord> := [];
      var i := 0;
      while i < |locationsToWeightedScores.keys|
        invariant 0 <= i <= |locationsToWeightedScores.keys|
        invariant visibleBlocks == VisibleBlocksOf(locationsToWeightedScores)[..i]
      {
        var k := locationsToWeightedScores.keys[i];
        var w := locationsToWeightedScores.values[k];
        visibleBlocks := visibleBlocks + [BlockRecord(k, w.weight, w.score.possible)];
        i := i + 1;
      }
      var params := GradeParams(
        student, location, None, course.courseVersion, subsection.subtreeEditedOn,
        allTotal.value.earned, allTotal.value.possible, gradedTotal.value.earned, gradedTotal.value.possible,
        visibleBlocks);
      assert params == GradeParamsOf(student, subsection, course);
      var r := table.UpdateOrCreateGrade(params);
      row := r.value;
    }

    /** The keyword arguments that `save` passes. */
    ghost function GradeParamsOf(student: int, subsection: Block, course: Course): GradeParams
      reads this
      requires Valid() && allTotal.Some? && gradedTotal.Some?
    {
      GradeParams(
        student, location, None, course.courseVersion, subsection.subtreeEditedOn,
        allTotal.value.earned, allTotal.value.possible, gradedTotal.value.earned, gradedTotal.value.possible,
        VisibleBlocksOf(locationsToWeightedScores))
    }

    /**
     * `load_from_data`: re-scores the stored blocks against the live course with the stored
     * weight and max score of each, and takes both totals from the row; MalformedJson,
     * InvalidKey or MissingCourseKey when the stored list cannot be read, with nothing changed.
     */
    method LoadFromData(row: GradeRow, src: Sources) returns (outcome: Outcome)
      requires Valid()
      modifies this
      ensures Valid()
      ensures row.visibleBlocks.Blocks().Err? ==>
        outcome == Fail(row.visibleBlocks.Blocks().error)
        && locationsToWeightedScores == old(locationsToWeightedScores)
        && allTotal == old(allTotal) && gradedTotal == old(gradedTotal)
      ensures row.visibleBlocks.Blocks().Ok? ==>
        && outcome == Pass
        && locationsToWeightedScores
           == RecordAll(old(locationsToWeightedScores), row.userId, src, LoadVisits(row.visibleBlocks.Blocks().value))
        && gradedTotal == Some(Total(row.earnedGraded, row.possibleGraded, true, location))
        && allTotal == Some(Total(row.earnedAll, row.possibleAll, false, location))
      ensures scoresMemo == old(scoresMemo)
    {
      var blocks := row.visibleBlocks.Blocks();
      if blocks.Err? {
        return Fail(blocks.error);
      }
      ComputeBlockScores(row.userId, src, LoadVisits(blocks.value));
      gradedTotal := Some(Total(row.earnedGraded, row.possibleGraded, true, location));
      allTotal := Some(Total(row.earnedAll, row.possibleAll, false, location));
      outcome := Pass;
    }
  }
}
