/**
 * Course and usage keys. A usage key names one block of a course; its course key may lack the
 * run (keys of old-style courses), which is what `full_usage_key` repairs. The string forms
 * below are this model's own stand-in for the opaque-keys serialisation: a course key is
 * `course` or `course+run`, a usage key is `<course key>@block`, every part a non-empty
 * segment of letters, digits, `_`, `-` and `.`.
 */
module Keys {
  import opened Common

  datatype CourseKey = CourseKey(course: string, run: Option<string>)
  datatype UsageKey = UsageKey(courseKey: CourseKey, block: string)

  predicate IsSegmentChar(c: char) {
    ('a' <= c <= 'z') || ('A' <= c <= 'Z') || ('0' <= c <= '9') || c == '_' || c == '-' || c == '.'
  }

  predicate IsSegment(s: string) {
    |s| > 0 && forall i :: 0 <= i < |s| ==> IsSegmentChar(s[i])
  }

  predicate WellFormedCourseKey(k: CourseKey) {
    IsSegment(k.course) && (k.run.Some? ==> IsSegment(k.run.value))
  }

  predicate WellFormedUsageKey(u: UsageKey) {
    WellFormedCourseKey(u.courseKey) && IsSegment(u.block)
  }

  /** The `run` of a usage key: None for a key of an old-style course. */
  function Run(u: UsageKey): Option<string> {
    u.courseKey.run
  }

  /** `usage_key.replace(course_key=k)`: the same block, re-homed in course `k`. */
  function ReplaceCourseKey(u: UsageKey, k: CourseKey): (r: UsageKey)
    ensures r.block == u.block && r.courseKey == k
  {
    UsageKey(k, u.block)
  }

  /** `unicode(course_key)` */
  function CourseKeyToString(k: CourseKey): string {
    if k.run.Some? then k.course + "+" + k.run.value else k.course
  }

  /** `unicode(usage_key)` */
  function UsageKeyToString(u: UsageKey): string {
    CourseKeyToString(u.courseKey) + "@" + u.block
  }

  /** The position of the first `c` in `s`, if any. */
  function IndexOf(s: string, c: char): (r: Option<nat>)
    ensures r.Some? ==> r.value < |s| && s[r.value] == c && c !in s[..r.value]
    ensures r.None? ==> c !in s
  {
    if |s| == 0 then None
    else if s[0] == c then Some(0)
    else match IndexOf(s[1..], c)
      case None => None
      case Some(i) =>
        assert s[..i + 1] == [s[0]] + s[1..][..i];
        Some(i + 1)
  }

  /** `s` cut at its first `c`, the `c` itself dropped. */
  function SplitAt(s: string, c: char): Option<(string, string)> {
    match IndexOf(s, c)
    case None => None
    case Some(i) => Some((s[..i], s[i + 1..]))
  }

  lemma SplitAtFirst(a: string, c: char, b: string)
    requires c !in a
    ensures SplitAt(a + [c] + b, c) == Some((a, b))
  {
    var s := a + [c] + b;
    assert s[|a|] == c;
    assert forall j :: 0 <= j < |a| ==> s[j] == a[j];
    var i := IndexOf(s, c).value;
    assert i <= |a| ==> s[..i] == a[..i];
    assert i == |a|;
    assert s[..i] == a;
    assert s[i + 1..] == b;
  }

  /** `CourseKey.from_string`: None when the string is not a course key. */
  function CourseKeyFromString(s: string): Option<CourseKey> {
    match SplitAt(s, '+')
    case None => if IsSegment(s) then Some(CourseKey(s, None)) else None
    case Some((course, run)) =>
      if IsSegment(course) && IsSegment(run) then Some(CourseKey(course, Some(run))) else None
  }

  /** `UsageKey.from_string`: None when the string is not a usage key. */
  function UsageKeyFromString(s: string): Option<UsageKey> {
    match SplitAt(s, '@')
    case None => None
    case Some((course, block)) =>
      match CourseKeyFromString(course)
      case None => None
      case Some(k) => if IsSegment(block) then Some(UsageKey(k, block)) else None
  }

  lemma SegmentLacks(s: string, c: char)
    requires IsSegment(s) && !IsSegmentChar(c)
    ensures c !in s
  {
  }

  /** Parsing the string form of a well-formed course key gives the key back. */
  lemma CourseKeyRoundTrip(k: CourseKey)
    requires WellFormedCourseKey(k)
    ensures CourseKeyFromString(CourseKeyToString(k)) == Some(k)
  {
    SegmentLacks(k.course, '+');
    if k.run.Some? {
      SplitAtFirst(k.course, '+', k.run.value);
    }
  }

  /** Parsing the string form of a well-formed usage key gives the key back. */
  lemma UsageKeyRoundTrip(u: UsageKey)
    requires WellFormedUsageKey(u)
    ensures UsageKeyFromString(UsageKeyToString(u)) == Some(u)
  {
    var cs := CourseKeyToString(u.courseKey);
    CourseKeyLacksAt(u.courseKey);
    SplitAtFirst(cs, '@', u.block);
    CourseKeyRoundTrip(u.courseKey);
  }

  lemma CourseKeyLacksAt(k: CourseKey)
    requires WellFormedCourseKey(k)
    ensures '@' !in CourseKeyToString(k) && '"' !in CourseKeyToString(k)
  {
    SegmentLacks(k.course, '@');
    SegmentLacks(k.course, '"');
    if k.run.Some? {
      SegmentLacks(k.run.value, '@');
      SegmentLacks(k.run.value, '"');
      var s := CourseKeyToString(k);
      assert s == k.course + ("+" + k.run.value);
    }
  }

  /** The string form of a well-formed usage key needs no escaping inside a JSON string. */
  lemma UsageKeyQuoteFree(u: UsageKey)
    requires WellFormedUsageKey(u)
    ensures '"' !in UsageKeyToString(u)
  {
    CourseKeyLacksAt(u.courseKey);
    SegmentLacks(u.block, '"');
  }

  /** Distinct well-formed usage keys have distinct string forms. */
  lemma UsageKeyToStringInjective(u: UsageKey, v: UsageKey)
    requires WellFormedUsageKey(u) && WellFormedUsageKey(v)
    requires UsageKeyToString(u) == UsageKeyToString(v)
    ensures u == v
  {
    UsageKeyRoundTrip(u);
    UsageKeyRoundTrip(v);
  }
}
