/**
 * BlockRecord and BlockRecordList: the ordered list of (locator, weight, max_score) records
 * that a subsection grade was computed from, its canonical JSON text and the parser for it.
 */
module BlockRecords {
  import opened Common
  import opened Keys
  import opened BlockJson

  datatype BlockRecord = BlockRecord(locator: UsageKey, weight: Option<int>, maxScore: Option<int>)

  predicate WellFormed(records: seq<BlockRecord>) {
    forall i :: 0 <= i < |records| ==> WellFormedUsageKey(records[i].locator)
  }

  /** Every block of the list belongs to the course of the first block. */
  predicate SameCourse(records: seq<BlockRecord>) {
    forall i :: 0 <= i < |records| ==> records[i].locator.courseKey == records[0].locator.courseKey
  }

  /** `_get_course_key_string`: the course of the list, taken from its first block. */
  function CourseKeyString(records: seq<BlockRecord>): (r: Option<string>)
    ensures r.None? <==> records == []
    ensures SameCourse(records) ==>
      forall i :: 0 <= i < |records| ==> r == Some(CourseKeyToString(records[i].locator.courseKey))
  {
    if records != [] then Some(CourseKeyToString(records[0].locator.courseKey)) else None
  }

  /** One block dict of `to_json`, its locator turned into a string. */
  function RawBlockOf(b: BlockRecord): RawBlock {
    RawBlock(UsageKeyToString(b.locator), b.weight, b.maxScore)
  }

  function RawBlocksOf(records: seq<BlockRecord>): (r: seq<RawBlock>)
    ensures |r| == |records|
  {
    seq(|records|, i requires 0 <= i < |records| => RawBlockOf(records[i]))
  }

  /** The `data` dict that `to_json` serialises. */
  function DocumentOf(records: seq<BlockRecord>): Document {
    Document(RawBlocksOf(records), CourseKeyString(records))
  }

  /** `to_json`: the canonical text of the list. */
  function JsonOf(records: seq<BlockRecord>): string {
    Dumps(DocumentOf(records))
  }

  /** Every record of the list with its locator moved into course `k`. */
  function Rekeyed(records: seq<BlockRecord>, k: CourseKey): (r: seq<BlockRecord>)
    ensures |r| == |records|
  {
    seq(|records|, i requires 0 <= i < |records| =>
      records[i].(locator := ReplaceCourseKey(records[i].locator, k)))
  }

  /**
   * The record generator of `from_json`: each locator string is parsed and re-homed in the
   * document's course; the first locator that does not parse stops the whole list.
   */
  function RecordsFrom(raws: seq<RawBlock>, k: CourseKey): (r: Result<seq<BlockRecord>>)
    ensures r.Ok? ==> |r.value| == |raws|
    ensures r.Ok? ==> forall i :: 0 <= i < |raws| ==>
      && r.value[i].locator.courseKey == k
      && UsageKeyFromString(raws[i].locator).Some?
      && r.value[i].locator == ReplaceCourseKey(UsageKeyFromString(raws[i].locator).value, k)
      && r.value[i].weight == raws[i].weight
      && r.value[i].maxScore == raws[i].maxScore
    ensures r.Err? ==> r.error == InvalidKey
  {
    if raws == [] then Ok([])
    else
      match UsageKeyFromString(raws[0].locator)
      case None => Err(InvalidKey)
      case Some(u) =>
        var others :- RecordsFrom(raws[1..], k);
        Ok([BlockRecord(ReplaceCourseKey(u, k), raws[0].weight, raws[0].maxScore)] + others)
  }

  /** The record generator fails exactly when some locator does not parse. */
  lemma {:induction false} RecordsFromFails(raws: seq<RawBlock>, k: CourseKey)
    ensures RecordsFrom(raws, k).Err? <==> exists i :: 0 <= i < |raws| && UsageKeyFromString(raws[i].locator).None?
    decreases |raws|
  {
    if raws != [] && UsageKeyFromString(raws[0].locator).Some? {
      RecordsFromFails(raws[1..], k);
      assert forall i :: 1 <= i < |raws| ==> raws[i] == raws[1..][i - 1];
      if RecordsFrom(raws[1..], k).Err? {
        var j :| 0 <= j < |raws| - 1 && UsageKeyFromString(raws[1..][j].locator).None?;
        assert raws[j + 1] == raws[1..][j];
      }
    }
  }

  /** `from_json` once the text has been read: the course key first, then the blocks. */
  function FromDocument(d: Document): (r: Result<seq<BlockRecord>>)
    ensures d.courseKey.None? ==> (r.Ok? <==> d.blocks == [])
    ensures d.courseKey.None? && d.blocks != [] ==> r == Err(MissingCourseKey)
    ensures r.Ok? ==> |r.value| == |d.blocks| && SameCourse(r.value)
    ensures r.Ok? && d.courseKey.Some? ==>
      forall i :: 0 <= i < |r.value| ==> CourseKeyFromString(d.courseKey.value) == Some(r.value[i].locator.courseKey)
    ensures d.courseKey.Some? && CourseKeyFromString(d.courseKey.value).None? ==> r == Err(InvalidKey)
    ensures d.courseKey.Some? && CourseKeyFromString(d.courseKey.value).Some? ==>
      (r.Ok? <==> forall i :: 0 <= i < |d.blocks| ==> UsageKeyFromString(d.blocks[i].locator).Some?)
    ensures r.Err? ==> r.error == MissingCourseKey || r.error == InvalidKey
    ensures r.Ok? ==> forall i :: 0 <= i < |r.value| ==>
      && UsageKeyFromString(d.blocks[i].locator).Some?
      && r.value[i].locator.block == UsageKeyFromString(d.blocks[i].locator).value.block
      && r.value[i].weight == d.blocks[i].weight
      && r.value[i].maxScore == d.blocks[i].maxScore
  {
    if d.courseKey.None? then
      if |d.blocks| != 0 then Err(MissingCourseKey) else Ok([])
    else
      match CourseKeyFromString(d.courseKey.value)
      case None => Err(InvalidKey)
      case Some(k) =>
        RecordsFromFails(d.blocks, k);
        RecordsFrom(d.blocks, k)
  }

  /**
   * `from_json`: text that is not a block-record document is MalformedJson; any list it returns
   * lies in one course.
   */
  function FromJson(text: string): (r: Result<seq<BlockRecord>>)
    ensures r == Err(MalformedJson) <==> Loads(text).None?
    ensures r.Err? ==> r.error == MalformedJson || r.error == MissingCourseKey || r.error == InvalidKey
    ensures r.Ok? ==> Loads(text).Some? && |r.value| == |Loads(text).value.blocks| && SameCourse(r.value)
  {
    match Loads(text)
    case None => Err(MalformedJson)
    case Some(d) => FromDocument(d)
  }

  /** One step of RecordsFrom, for a first locator that parses as `u`. */
  lemma RecordsFromStep(raws: seq<RawBlock>, k: CourseKey, u: UsageKey, others: seq<BlockRecord>)
    requires raws != [] && UsageKeyFromString(raws[0].locator) == Some(u)
    requires RecordsFrom(raws[1..], k) == Ok(others)
    ensures RecordsFrom(raws, k) == Ok([BlockRecord(ReplaceCourseKey(u, k), raws[0].weight, raws[0].maxScore)] + others)
  {
  }

  lemma RawBlocksTail(records: seq<BlockRecord>)
    requires records != []
    ensures RawBlocksOf(records)[0] == RawBlockOf(records[0])
    ensures RawBlocksOf(records)[1..] == RawBlocksOf(records[1..])
  {
  }

  lemma RekeyedCons(records: seq<BlockRecord>, k: CourseKey)
    requires records != []
    ensures Rekeyed(records, k)
         == [BlockRecord(ReplaceCourseKey(records[0].locator, k), records[0].weight, records[0].maxScore)] + Rekeyed(records[1..], k)
  {
  }

  lemma {:induction false} RecordsFromRawBlocks(records: seq<BlockRecord>, k: CourseKey)
    requires WellFormed(records)
    ensures RecordsFrom(RawBlocksOf(records), k) == Ok(Rekeyed(records, k))
  {
    if records != [] {
      var raws := RawBlocksOf(records);
      var u := records[0].locator;
      UsageKeyRoundTrip(u);
      RawBlocksTail(records);
      RecordsFromRawBlocks(records[1..], k);
      RecordsFromStep(raws, k, u, Rekeyed(records[1..], k));
      RekeyedCons(records, k);
    }
  }

  lemma DocumentQuoteFree(records: seq<BlockRecord>)
    requires WellFormed(records)
    ensures QuoteFree(DocumentOf(records))
  {
    var raws := RawBlocksOf(records);
    forall i | 0 <= i < |raws| ensures '"' !in raws[i].locator {
      UsageKeyQuoteFree(records[i].locator);
    }
    if records != [] {
      CourseKeyLacksAt(records[0].locator.courseKey);
    }
  }

  /**
   * Parsing the text of any well-formed list gives back its records in order, every locator
   * re-homed in the course of the first block.
   */
  lemma FromJsonOfJson(records: seq<BlockRecord>)
    requires WellFormed(records)
    ensures FromJson(JsonOf(records))
         == Ok(if records == [] then [] else Rekeyed(records, records[0].locator.courseKey))
  {
    DocumentQuoteFree(records);
    LoadsDumps(DocumentOf(records));
    if records != [] {
      CourseKeyRoundTrip(records[0].locator.courseKey);
      RecordsFromRawBlocks(records, records[0].locator.courseKey);
    }
  }

  /** The round trip `from_json(to_json(x)) == x` for a list whose blocks share one course. */
  lemma RoundTrip(records: seq<BlockRecord>)
    requires WellFormed(records) && SameCourse(records)
    ensures FromJson(JsonOf(records)) == Ok(records)
  {
    FromJsonOfJson(records);
    if records != [] {
      assert Rekeyed(records, records[0].locator.courseKey) == records;
    }
  }

  /** The round trip holds exactly for the lists whose blocks share one course. */
  lemma RoundTripExactly(records: seq<BlockRecord>)
    requires WellFormed(records)
    ensures FromJson(JsonOf(records)) == Ok(records) <==> SameCourse(records)
  {
    FromJsonOfJson(records);
    if SameCourse(records) {
      RoundTrip(records);
    }
  }

  /** Two well-formed lists with the same text are the same list. */
  lemma JsonOfInjective(a: seq<BlockRecord>, b: seq<BlockRecord>)
    requires WellFormed(a) && WellFormed(b)
    requires JsonOf(a) == JsonOf(b)
    ensures a == b
  {
    DocumentQuoteFree(a);
    DocumentQuoteFree(b);
    DumpsInjective(DocumentOf(a), DocumentOf(b));
    assert RawBlocksOf(a) == RawBlocksOf(b);
    forall i | 0 <= i < |a| ensures a[i] == b[i] {
      assert RawBlocksOf(a)[i] == RawBlocksOf(b)[i];
      UsageKeyToStringInjective(a[i].locator, b[i].locator);
    }
  }

  /**
   * An immutable list of block records that memoises its JSON text (`_json`) and its hash
   * (`_hash`). The hash function (SHA-1 of the text, base64-encoded) is `digest`.
   */
  class BlockRecordList {
    const records: seq<BlockRecord>
    const digest: string -> string
    var json: Option<string>
    var hash: Option<string>

    /** A memo field, once filled, holds what it memoises. */
    ghost predicate Valid()
      reads this
    {
      && (json.Some? ==> json.value == JsonOf(records))
      && (hash.Some? ==> hash.value == digest(JsonOf(records)))
    }

    /** `BlockRecordList.from_list`: nothing memoised yet. */
    constructor FromList(blocks: seq<BlockRecord>, digest: string -> string)
      ensures Valid()
      ensures records == blocks && this.digest == digest
      ensures json == None && hash == None
    {
      records := blocks;
      this.digest := digest;
      json := None;
      hash := None;
    }

    /** `to_json`: builds the text on the first call and returns the memo afterwards. */
    method ToJson() returns (text: string)
      requires Valid()
      modifies this`json
      ensures Valid()
      ensures text == JsonOf(records) && json == Some(text)
      ensures old(json).Some? ==> json == old(json)
    {
      if json.None? {
        var blockDicts: seq<RawBlock> := [];
        var i := 0;
        while i < |records|
          invariant 0 <= i <= |records|
          invariant |blockDicts| == i
          invariant forall j :: 0 <= j < i ==> blockDicts[j] == RawBlockOf(records[j])
        {
          blockDicts := blockDicts + [RawBlockOf(records[i])];
          i := i + 1;
        }
        assert blockDicts == RawBlocksOf(records);
        json := Some(Dumps(Document(blockDicts, CourseKeyString(records))));
      }
      text := json.value;
    }

    /** `to_hash`: the digest of the text, computed on the first call only. */
    method ToHash() returns (h: string)
      requires Valid()
      modifies this`json, this`hash
      ensures Valid()
      ensures h == digest(JsonOf(records)) && hash == Some(h)
      ensures old(hash).Some? ==> hash == old(hash) && json == old(json)
      ensures old(json).Some? ==> json == old(json)
    {
      if hash.None? {
        var text := ToJson();
        hash := Some(digest(text));
      }
      h := hash.value;
    }
  }
}
