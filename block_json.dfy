/**
 * The JSON text of a block-record document, for the one shape the grading core writes:
 *   {"blocks":[{"locator":"…","max_score":N,"weight":N},…],"course_key":"…"}
 * `Dumps` is `json.dumps(data, separators=(',', ':'), sort_keys=True)` for that shape (keys in
 * sorted order, no whitespace); `Loads` is `json.loads` restricted to it. Strings are written
 * without escapes, numbers as decimal integers, `None` as `null`.
 */
module BlockJson {
  import opened Common
  import Keys

  /** A block dict after `to_json` has turned its locator into a string. */
  datatype RawBlock = RawBlock(locator: string, weight: Option<int>, maxScore: Option<int>)

  /** The `data` dict: `{'course_key': …, 'blocks': […]}`. */
  datatype Document = Document(blocks: seq<RawBlock>, courseKey: Option<string>)

  // ---------------------------------------------------------------- numbers

  predicate IsDigit(c: char) {
    '0' <= c <= '9'
  }

  function DigitChar(d: nat): (c: char)
    requires d < 10
    ensures IsDigit(c) && c as int - '0' as int == d
  {
    ('0' as int + d) as char
  }

  function NatToString(n: nat): (s: string)
    ensures |s| > 0 && forall i :: 0 <= i < |s| ==> IsDigit(s[i])
  {
    if n < 10 then [DigitChar(n)] else NatToString(n / 10) + [DigitChar(n % 10)]
  }

  function IntToString(n: int): string {
    if n < 0 then "-" + NatToString(-n) else NatToString(n)
  }

  function DigitValue(c: char): nat
    requires IsDigit(c)
  {
    c as int - '0' as int
  }

  /** The value of a string of decimal digits, most significant first. */
  function DigitsValue(ds: string): nat
    requires forall i :: 0 <= i < |ds| ==> IsDigit(ds[i])
  {
    if |ds| == 0 then 0 else DigitsValue(ds[..|ds| - 1]) * 10 + DigitValue(ds[|ds| - 1])
  }

  /** The length of the longest run of digits that `s` starts with. */
  function DigitSpan(s: string): (k: nat)
    ensures k <= |s|
    ensures forall i :: 0 <= i < k ==> IsDigit(s[i])
    ensures k < |s| ==> !IsDigit(s[k])
  {
    if |s| == 0 || !IsDigit(s[0]) then 0 else 1 + DigitSpan(s[1..])
  }

  function ParseNat(s: string): (r: Option<(nat, string)>)
    ensures r.Some? ==> |r.value.1| < |s|
  {
    var k := DigitSpan(s);
    if k == 0 then None else Some((DigitsValue(s[..k]), s[k..]))
  }

  function ParseInt(s: string): (r: Option<(int, string)>)
    ensures r.Some? ==> |r.value.1| < |s|
  {
    if |s| > 0 && s[0] == '-' then
      var p :- ParseNat(s[1..]);
      var value: int := 0 - (p.0 as int);
      Some((value, p.1))
    else
      ParseNat(s)
  }

  lemma {:induction false} NatToStringValue(n: nat)
    ensures DigitsValue(NatToString(n)) == n
  {
    if n >= 10 {
      var s := NatToString(n);
      assert s[..|s| - 1] == NatToString(n / 10);
      NatToStringValue(n / 10);
    }
  }

  lemma DigitSpanExact(s: string, m: nat)
    requires m <= |s|
    requires forall i :: 0 <= i < m ==> IsDigit(s[i])
    requires m < |s| ==> !IsDigit(s[m])
    ensures DigitSpan(s) == m
  {
  }

  predicate StartsNonDigit(rest: string) {
    rest == [] || !IsDigit(rest[0])
  }

  lemma NatRoundTrip(n: nat, rest: string)
    requires StartsNonDigit(rest)
    ensures ParseNat(NatToString(n) + rest) == Some((n, rest))
  {
    var d := NatToString(n);
    var s := d + rest;
    DigitSpanExact(s, |d|);
    assert s[..|d|] == d;
    assert s[|d|..] == rest;
    NatToStringValue(n);
  }

  lemma ParseIntNegative(s: string, n: nat, rest: string)
    requires |s| > 0 && s[0] == '-' && ParseNat(s[1..]) == Some((n, rest))
    ensures ParseInt(s) == Some((0 - (n as int), rest))
  {
  }

  lemma ParseIntUnsigned(s: string)
    requires |s| == 0 || s[0] != '-'
    ensures ParseInt(s) == ParseNat(s)
  {
  }

  lemma IntRoundTrip(n: int, rest: string)
    requires StartsNonDigit(rest)
    ensures ParseInt(IntToString(n) + rest) == Some((n, rest))
  {
    if n < 0 {
      var t := NatToString(-n) + rest;
      Associative("-", NatToString(-n), rest);
      assert ("-" + t)[1..] == t;
      NatRoundTrip(-n, rest);
      ParseIntNegative("-" + t, -n, rest);
    } else {
      var s := NatToString(n) + rest;
      assert s[0] == NatToString(n)[0];
      ParseIntUnsigned(s);
      NatRoundTrip(n, rest);
    }
  }

  // ---------------------------------------------------------------- tokens

  lemma Associative(a: string, b: string, c: string)
    ensures (a + b) + c == a + (b + c)
  {
  }

  /** `s` with the literal `lit` taken off its front, if it starts with `lit`. */
  function Lit(lit: string, s: string): (r: Option<string>)
    ensures r.Some? ==> |r.value| == |s| - |lit|
  {
    if |lit| <= |s| && s[..|lit|] == lit then Some(s[|lit|..]) else None
  }

  lemma LitRoundTrip(lit: string, rest: string)
    ensures Lit(lit, lit + rest) == Some(rest)
  {
    assert (lit + rest)[..|lit|] == lit;
  }

  function DumpNumber(o: Option<int>): string {
    if o.None? then "null" else IntToString(o.value)
  }

  function ParseNumber(s: string): (r: Option<(Option<int>, string)>)
    ensures r.Some? ==> |r.value.1| < |s|
  {
    match Lit("null", s)
    case Some(rest) => Some((None, rest))
    case None =>
      var p :- ParseInt(s);
      Some((Some(p.0), p.1))
  }

  lemma NumberRoundTrip(o: Option<int>, rest: string)
    requires StartsNonDigit(rest)
    ensures ParseNumber(DumpNumber(o) + rest) == Some((o, rest))
  {
    if o.None? {
      LitRoundTrip("null", rest);
    } else {
      var s := DumpNumber(o) + rest;
      var t := IntToString(o.value);
      assert s[0] == t[0];
      assert t[0] == '-' || IsDigit(t[0]);
      assert Lit("null", s).None?;
      IntRoundTrip(o.value, rest);
    }
  }

  function DumpString(str: string): string {
    "\"" + str + "\""
  }

  function ParseString(s: string): (r: Option<(string, string)>)
    ensures r.Some? ==> |r.value.1| < |s|
  {
    var s1 :- Lit("\"", s);
    var p :- Keys.SplitAt(s1, '"');
    Some(p)
  }

  lemma StringRoundTrip(str: string, rest: string)
    requires '"' !in str
    ensures ParseString(DumpString(str) + rest) == Some((str, rest))
  {
    var s := DumpString(str) + rest;
    assert s == "\"" + (str + ['"'] + rest);
    LitRoundTrip("\"", str + ['"'] + rest);
    Keys.SplitAtFirst(str, '"', rest);
  }

  function DumpNullableString(o: Option<string>): string {
    if o.None? then "null" else DumpString(o.value)
  }

  function ParseNullableString(s: string): (r: Option<(Option<string>, string)>)
    ensures r.Some? ==> |r.value.1| < |s|
  {
    match Lit("null", s)
    case Some(rest) => Some((None, rest))
    case None =>
      var p :- ParseString(s);
      Some((Some(p.0), p.1))
  }

  lemma NullableStringRoundTrip(o: Option<string>, rest: string)
    requires o.Some? ==> '"' !in o.value
    ensures ParseNullableString(DumpNullableString(o) + rest) == Some((o, rest))
  {
    if o.None? {
      LitRoundTrip("null", rest);
    } else {
      var s := DumpNullableString(o) + rest;
      assert s[0] == '"';
      assert Lit("null", s).None?;
      StringRoundTrip(o.value, rest);
    }
  }

  // ---------------------------------------------------------------- blocks

  function DumpBlock(b: RawBlock): string {
    "{\"locator\":" + DumpString(b.locator)
    + ",\"max_score\":" + DumpNumber(b.maxScore)
    + ",\"weight\":" + DumpNumber(b.weight) + "}"
  }

  function ParseBlock(s: string): (r: Option<(RawBlock, string)>)
    ensures r.Some? ==> |r.value.1| < |s|
  {
    var s1 :- Lit("{\"locator\":", s);
    var loc :- ParseString(s1);
    var s3 :- Lit(",\"max_score\":", loc.1);
    var maxScore :- ParseNumber(s3);
    var s5 :- Lit(",\"weight\":", maxScore.1);
    var weight :- ParseNumber(s5);
    var s7 :- Lit("}", weight.1);
    Some((RawBlock(loc.0, weight.0, maxScore.0), s7))
  }

  lemma BlockText(b: RawBlock, rest: string)
    ensures DumpBlock(b) + rest
         == "{\"locator\":" + (DumpString(b.locator) + (",\"max_score\":" + (DumpNumber(b.maxScore)
            + (",\"weight\":" + (DumpNumber(b.weight) + ("}" + rest))))))
  {
  }

  lemma BlockRoundTrip(b: RawBlock, rest: string)
    requires '"' !in b.locator
    ensures ParseBlock(DumpBlock(b) + rest) == Some((b, rest))
  {
    var t7 := "}" + rest;
    var t6 := DumpNumber(b.weight) + t7;
    var t5 := ",\"weight\":" + t6;
    var t4 := DumpNumber(b.maxScore) + t5;
    var t3 := ",\"max_score\":" + t4;
    var t2 := DumpString(b.locator) + t3;
    BlockText(b, rest);
    LitRoundTrip("{\"locator\":", t2);
    StringRoundTrip(b.locator, t3);
    LitRoundTrip(",\"max_score\":", t4);
    NumberRoundTrip(b.maxScore, t5);
    LitRoundTrip(",\"weight\":", t6);
    NumberRoundTrip(b.weight, t7);
    LitRoundTrip("}", rest);
  }

  /** The blocks of a non-empty list and the closing bracket. */
  function DumpTail(bs: seq<RawBlock>): string
    requires bs != []
  {
    DumpBlock(bs[0]) + if |bs| == 1 then "]" else "," + DumpTail(bs[1..])
  }

  function DumpBlocks(bs: seq<RawBlock>): string {
    if bs == [] then "[]" else "[" + DumpTail(bs)
  }

  function ParseTail(s: string): (r: Option<(seq<RawBlock>, string)>)
    ensures r.Some? ==> |r.value.1| < |s|
    decreases |s|
  {
    var first :- ParseBlock(s);
    match Lit("]", first.1)
    case Some(rest) => Some(([first.0], rest))
    case None =>
      var s2 :- Lit(",", first.1);
      var others :- ParseTail(s2);
      Some(([first.0] + others.0, others.1))
  }

  function ParseBlocks(s: string): (r: Option<(seq<RawBlock>, string)>)
    ensures r.Some? ==> |r.value.1| < |s|
  {
    var s1 :- Lit("[", s);
    match Lit("]", s1)
    case Some(rest) => Some(([], rest))
    case None => ParseTail(s1)
  }

  predicate LocatorsQuoteFree(bs: seq<RawBlock>) {
    forall i :: 0 <= i < |bs| ==> '"' !in bs[i].locator
  }

  lemma TailLast(s: string, b: RawBlock, rest: string)
    requires ParseBlock(s) == Some((b, "]" + rest))
    ensures ParseTail(s) == Some(([b], rest))
  {
    LitRoundTrip("]", rest);
  }

  lemma TailNext(s: string, b: RawBlock, more: string, bs: seq<RawBlock>, rest: string)
    requires ParseBlock(s) == Some((b, "," + more))
    requires ParseTail(more) == Some((bs, rest))
    ensures ParseTail(s) == Some(([b] + bs, rest))
  {
    assert Lit("]", "," + more).None?;
    LitRoundTrip(",", more);
  }

  lemma TailHeadLast(bs: seq<RawBlock>, rest: string)
    requires |bs| == 1 && LocatorsQuoteFree(bs)
    ensures ParseBlock(DumpTail(bs) + rest) == Some((bs[0], "]" + rest))
  {
    Associative(DumpBlock(bs[0]), "]", rest);
    BlockRoundTrip(bs[0], "]" + rest);
  }

  lemma TailHeadNext(bs: seq<RawBlock>, rest: string)
    requires |bs| > 1 && LocatorsQuoteFree(bs)
    ensures ParseBlock(DumpTail(bs) + rest) == Some((bs[0], "," + (DumpTail(bs[1..]) + rest)))
  {
    var more := DumpTail(bs[1..]);
    Associative(DumpBlock(bs[0]), "," + more, rest);
    Associative(",", more, rest);
    BlockRoundTrip(bs[0], "," + (more + rest));
  }

  lemma {:induction false} TailRoundTrip(bs: seq<RawBlock>, rest: string)
    requires bs != [] && LocatorsQuoteFree(bs)
    ensures ParseTail(DumpTail(bs) + rest) == Some((bs, rest))
    decreases |bs|
  {
    if |bs| == 1 {
      TailHeadLast(bs, rest);
      TailLast(DumpTail(bs) + rest, bs[0], rest);
      assert [bs[0]] == bs;
    } else {
      TailHeadNext(bs, rest);
      TailRoundTrip(bs[1..], rest);
      TailNext(DumpTail(bs) + rest, bs[0], DumpTail(bs[1..]) + rest, bs[1..], rest);
      assert [bs[0]] + bs[1..] == bs;
    }
  }

  lemma ParseBlocksEmpty(s: string, s1: string, rest: string)
    requires Lit("[", s) == Some(s1) && Lit("]", s1) == Some(rest)
    ensures ParseBlocks(s) == Some(([], rest))
  {
  }

  lemma ParseBlocksNonEmpty(s: string, s1: string)
    requires Lit("[", s) == Some(s1) && Lit("]", s1).None?
    ensures ParseBlocks(s) == ParseTail(s1)
  {
  }

  /** The text of a non-empty list, after its `[`, starts with the `{` of its first block. */
  lemma TailStartsWithBrace(bs: seq<RawBlock>, rest: string)
    requires bs != []
    ensures Lit("]", DumpTail(bs) + rest).None?
  {
    var t := DumpTail(bs) + rest;
    assert t[0] == '{';
    assert t[..1] != "]";
  }

  lemma BlocksRoundTrip(bs: seq<RawBlock>, rest: string)
    requires LocatorsQuoteFree(bs)
    ensures ParseBlocks(DumpBlocks(bs) + rest) == Some((bs, rest))
  {
    if bs == [] {
      assert DumpBlocks(bs) + rest == "[" + ("]" + rest);
      LitRoundTrip("[", "]" + rest);
      LitRoundTrip("]", rest);
      ParseBlocksEmpty("[" + ("]" + rest), "]" + rest, rest);
    } else {
      var t := DumpTail(bs) + rest;
      Associative("[", DumpTail(bs), rest);
      LitRoundTrip("[", t);
      TailStartsWithBrace(bs, rest);
      ParseBlocksNonEmpty("[" + t, t);
      TailRoundTrip(bs, rest);
    }
  }

  // ---------------------------------------------------------------- documents

  /** `json.dumps(data, separators=(',', ':'), sort_keys=True)`: "blocks" sorts before "course_key". */
  function Dumps(d: Document): string {
    "{\"blocks\":" + DumpBlocks(d.blocks) + ",\"course_key\":" + DumpNullableString(d.courseKey) + "}"
  }

  /** `json.loads` for the document shape; None for any other text. */
  function Loads(s: string): Option<Document> {
    var s1 :- Lit("{\"blocks\":", s);
    var blocks :- ParseBlocks(s1);
    var s3 :- Lit(",\"course_key\":", blocks.1);
    var courseKey :- ParseNullableString(s3);
    var s5 :- Lit("}", courseKey.1);
    if s5 == [] then Some(Document(blocks.0, courseKey.0)) else None
  }

  predicate QuoteFree(d: Document) {
    LocatorsQuoteFree(d.blocks) && (d.courseKey.Some? ==> '"' !in d.courseKey.value)
  }

  /** `Loads` on any text made of the document's four parts, each read in turn. */
  lemma LoadsParts(s: string, t2: string, t3: string, t4: string, blocks: seq<RawBlock>, courseKey: Option<string>)
    requires Lit("{\"blocks\":", s) == Some(t2)
    requires ParseBlocks(t2) == Some((blocks, t3))
    requires Lit(",\"course_key\":", t3) == Some(t4)
    requires ParseNullableString(t4) == Some((courseKey, "}"))
    ensures Loads(s) == Some(Document(blocks, courseKey))
  {
    LitRoundTrip("}", []);
    assert "}" + [] == "}";
  }

  /** The text of a document, re-associated to the right. */
  lemma DumpsText(d: Document)
    ensures Dumps(d) == "{\"blocks\":" + (DumpBlocks(d.blocks) + (",\"course_key\":" + (DumpNullableString(d.courseKey) + "}")))
  {
    var a, b, c, e := DumpBlocks(d.blocks), ",\"course_key\":", DumpNullableString(d.courseKey), "}";
    Associative(c, [], e);
    Associative(b, c, e);
    Associative(a, b, c + e);
    Associative("{\"blocks\":", a, b + (c + e));
  }

  /** Reading back what `Dumps` wrote gives the same document. */
  lemma LoadsDumps(d: Document)
    requires QuoteFree(d)
    ensures Loads(Dumps(d)) == Some(d)
  {
    var t4 := DumpNullableString(d.courseKey) + "}";
    var t3 := ",\"course_key\":" + t4;
    var t2 := DumpBlocks(d.blocks) + t3;
    DumpsText(d);
    LitRoundTrip("{\"blocks\":", t2);
    BlocksRoundTrip(d.blocks, t3);
    LitRoundTrip(",\"course_key\":", t4);
    NullableStringRoundTrip(d.courseKey, "}");
    LoadsParts(Dumps(d), t2, t3, t4, d.blocks, d.courseKey);
  }

  /** Quote-free documents with the same text are the same document. */
  lemma DumpsInjective(d: Document, e: Document)
    requires QuoteFree(d) && QuoteFree(e)
    requires Dumps(d) == Dumps(e)
    ensures d == e
  {
    LoadsDumps(d);
    LoadsDumps(e);
  }
}
