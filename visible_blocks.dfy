/**
 * The VisibleBlocks table: a content-addressed store from the hash of a block-record list to
 * its JSON text. Rows are created with get-or-create and never updated.
 */
module VisibleBlocks {
  import opened Common
  import opened BlockRecords

  /** One row: `hashed` (unique) and `blocks_json`. */
  datatype Entry = Entry(hashed: string, blocksJson: string) {
    /** The `blocks` property: the stored text read back as records. */
    function Blocks(): Result<seq<BlockRecord>> {
      FromJson(blocksJson)
    }
  }

  /** Every row of `before` is still in `after`, with the same text. */
  ghost predicate Extends(before: map<string, string>, after: map<string, string>) {
    forall h :: h in before ==> h in after && after[h] == before[h]
  }

  /**
   * `get_or_create(hashed=…, defaults={'blocks_json': …})` on the table `entries`: the row
   * under `hashed` if there is one, a new row holding `json` otherwise.
   */
  function GetOrCreate(entries: map<string, string>, hashed: string, json: string): (r: (map<string, string>, Entry))
    ensures r.1.hashed == hashed && hashed in r.0 && r.0[hashed] == r.1.blocksJson
    ensures r.0.Keys == entries.Keys + {hashed}
    ensures Extends(entries, r.0)
    ensures hashed in entries ==> r.0 == entries
    ensures hashed !in entries ==> r.1.blocksJson == json
  {
    if hashed in entries then (entries, Entry(hashed, entries[hashed]))
    else (entries[hashed := json], Entry(hashed, json))
  }

  /** A second get-or-create of the same hash finds the first one's row and adds nothing. */
  lemma GetOrCreateIdempotent(entries: map<string, string>, hashed: string, json: string, json': string)
    ensures var first := GetOrCreate(entries, hashed, json);
            GetOrCreate(first.0, hashed, json') == first
  {
  }

  class VisibleBlocksStore {
    /** The hash of a block-record text (base64 of its SHA-1 digest). */
    const digest: string -> string
    var entries: map<string, string>

    /** Content addressing: every row is keyed by the hash of its own text. */
    ghost predicate Valid()
      reads this
    {
      forall h :: h in entries ==> digest(entries[h]) == h
    }

    constructor (digest: string -> string)
      ensures Valid() && this.digest == digest && entries == map[]
    {
      this.digest := digest;
      entries := map[];
    }

    /** `create_from_blockrecords`: get-or-create of the row for the list's hash. */
    method CreateFromBlockRecords(blocks: BlockRecordList) returns (e: Entry)
      requires Valid() && blocks.Valid() && blocks.digest == digest
      modifies this, blocks
      ensures Valid() && blocks.Valid()
      ensures (entries, e) == GetOrCreate(old(entries), digest(JsonOf(blocks.records)), JsonOf(blocks.records))
      ensures digest(e.blocksJson) == digest(JsonOf(blocks.records))
    {
      var hashed := blocks.ToHash();
      var json := blocks.ToJson();
      var r := GetOrCreate(entries, hashed, json);
      entries := r.0;
      e := r.1;
    }
  }
}
