/** Message text as the context manager measures and rewrites it: strings are sequences of runes. */
module Text {

  /** The white space that Go's strings.TrimSpace removes. */
  predicate IsSpace(c: char) {
    || '\t' <= c <= '\r' || c == ' ' || c == '\U{0085}' || c == '\U{00A0}' || c == '\U{1680}'
    || '\U{2000}' <= c <= '\U{200A}' || c == '\U{2028}' || c == '\U{2029}' || c == '\U{202F}'
    || c == '\U{205F}' || c == '\U{3000}'
  }

  function TrimLeft(s: string): (r: string) {
    if s != [] && IsSpace(s[0]) then TrimLeft(s[1..]) else s
  }

  function TrimRight(s: string): (r: string)
    ensures r <= s
  {
    if s != [] && IsSpace(s[|s| - 1]) then TrimRight(s[..|s| - 1]) else s
  }

  function Trim(s: string): (r: string) {
    TrimRight(TrimLeft(s))
  }

  predicate Blank(s: string) {
    Trim(s) == ""
  }

  predicate OccursAt(s: string, sub: string, i: nat) {
    i + |sub| <= |s| && s[i..i + |sub|] == sub
  }

  /** strings.Index from position `from`: the first occurrence of `sub`, or -1. */
  function IndexFrom(s: string, sub: string, from: nat): (i: int)
    ensures i == -1 || (from <= i && OccursAt(s, sub, i))
    ensures forall j: nat :: OccursAt(s, sub, j) && from <= j ==> -1 < i <= j
    decreases |s| - from
  {
    if OccursAt(s, sub, from) then from
    else if from >= |s| then -1
    else IndexFrom(s, sub, from + 1)
  }

  predicate Contains(s: string, sub: string) {
    IndexFrom(s, sub, 0) >= 0
  }

  const TRUNCATION_SUFFIX: string := "\n...[truncated]"

  /** truncateContextText: a limit of zero or less keeps the whole text. */
  function Truncate(text: string, maxChars: int): (r: string)
    ensures maxChars <= 0 ==> r == text
    ensures maxChars > 0 ==> |r| == if |text| <= maxChars then |text| else maxChars
  {
    if maxChars <= 0 || |text| <= maxChars then text
    else if maxChars <= |TRUNCATION_SUFFIX| then text[..maxChars]
    else text[..maxChars - |TRUNCATION_SUFFIX|] + TRUNCATION_SUFFIX
  }

  /** A text that is cut shows its beginning, and says so at its end where there is room for it. */
  lemma TruncateShows(text: string, maxChars: int)
    requires 0 < maxChars < |text|
    ensures var r := Truncate(text, maxChars);
            && |r| == maxChars
            && (forall i :: 0 <= i < maxChars - |TRUNCATION_SUFFIX| ==> r[i] == text[i])
            && (maxChars <= |TRUNCATION_SUFFIX| ==> r <= text)
            && (maxChars > |TRUNCATION_SUFFIX| ==> r[maxChars - |TRUNCATION_SUFFIX|..] == TRUNCATION_SUFFIX)
  {
    var r := Truncate(text, maxChars);
    if maxChars > |TRUNCATION_SUFFIX| { assert r[maxChars - |TRUNCATION_SUFFIX|..] == TRUNCATION_SUFFIX; }
  }

  function AsciiCount(text: string): (n: nat)
    ensures n <= |text|
  {
    if text == [] then 0 else (if text[0] < '\U{0080}' then 1 else 0) + AsciiCount(text[1..])
  }

  /** estimateContextText: four ASCII characters to a token, every other rune a token of its own. */
  function Estimate(text: string): (tokens: nat) {
    (AsciiCount(text) + 3) / 4 + (|text| - AsciiCount(text))
  }

  lemma {:induction false} AsciiCountConcat(a: string, b: string)
    ensures AsciiCount(a + b) == AsciiCount(a) + AsciiCount(b)
  {
    if a == [] {
      assert a + b == b;
    } else {
      AsciiCountConcat(a[1..], b);
      assert (a + b)[1..] == a[1..] + b;
    }
  }

  /** Splitting a text costs at most one token of rounding, and never saves any. */
  lemma EstimateConcat(a: string, b: string)
    ensures Estimate(a + b) <= Estimate(a) + Estimate(b) <= Estimate(a + b) + 1
  {
    AsciiCountConcat(a, b);
  }

  /** A longer prefix never costs less. */
  lemma EstimateMonotone(a: string, b: string)
    requires a <= b
    ensures Estimate(a) <= Estimate(b)
  {
    assert b == a + b[|a|..];
    AsciiCountConcat(a, b[|a|..]);
  }

  // Compaction summaries inside message text.

  const MARKER: string := "## Compacted Agent Context\n"
  const PREAMBLE_0: string := "This session is being continued "
  const PREAMBLE_1: string := "from a previous conversation "
  const PREAMBLE_2: string := "that ran out of context. "
  const PREAMBLE_3: string := "The summary below covers "
  const PREAMBLE_4: string := "the earlier portion of "
  const PREAMBLE_5: string := "the conversation."
  const PREAMBLE: string := PREAMBLE_0 + PREAMBLE_1 + PREAMBLE_2 + PREAMBLE_3 + PREAMBLE_4 + PREAMBLE_5

  predicate HasMarker(content: string) {
    Contains(content, MARKER)
  }

  /** splitCompactionSummary: the text before the first marker and the summary behind it. */
  function SplitSummary(content: string): (r: (string, string)) {
    var i := IndexFrom(content, MARKER, 0);
    if i < 0 then (content, "") else (Trim(content[..i]), Trim(content[i + |MARKER|..]))
  }

  /** appendCompactionSummary. */
  function AppendSummary(base: string, summary: string): (r: string) {
    var b, s := Trim(base), Trim(summary);
    if s == "" then b
    else if b == "" then PREAMBLE + "\n\n" + MARKER + s
    else b + "\n\n" + (PREAMBLE + "\n\n" + MARKER + s)
  }

  /** mergeCompactionSummary. */
  function MergeSummary(existing: string, next: string): (r: string) {
    var e, n := Trim(existing), Trim(next);
    if e == "" then n else if n == "" then e else Truncate(e + "\n" + n, 16000)
  }

  lemma {:induction false} TrimLeftIsSuffix(s: string) returns (k: nat)
    ensures k <= |s| && TrimLeft(s) == s[k..]
    ensures TrimLeft(s) != "" ==> !IsSpace(TrimLeft(s)[0])
    ensures forall i :: 0 <= i < k ==> IsSpace(s[i])
  {
    if s != [] && IsSpace(s[0]) {
      var j := TrimLeftIsSuffix(s[1..]);
      k := j + 1;
      assert s[1..][j..] == s[k..];
      forall i | 0 <= i < k ensures IsSpace(s[i]) {
        if i > 0 { assert s[1..][i - 1] == s[i]; }
      }
    } else {
      k := 0;
    }
  }

  lemma {:induction false} TrimRightEnds(s: string)
    ensures TrimRight(s) != "" ==> !IsSpace(TrimRight(s)[|TrimRight(s)| - 1])
    ensures forall i :: |TrimRight(s)| <= i < |s| ==> IsSpace(s[i])
  {
    if s != [] && IsSpace(s[|s| - 1]) { TrimRightEnds(s[..|s| - 1]); }
  }

  /** Trimming an already trimmed text changes nothing. */
  lemma TrimIdempotent(s: string)
    ensures Trim(Trim(s)) == Trim(s)
  {
    var k := TrimLeftIsSuffix(s);
    TrimRightEnds(TrimLeft(s));
    var t := Trim(s);
    if t != "" {
      assert t[0] == TrimLeft(s)[0];
      assert TrimLeft(t) == t;
    }
  }

  /** An occurrence inside a window of a text is an occurrence in the text. */
  lemma OccursInWindow(window: string, text: string, k: nat, sub: string, j: nat)
    requires k + |window| <= |text| && forall x :: 0 <= x < |window| ==> window[x] == text[k + x]
    ensures OccursAt(window, sub, j) ==> OccursAt(text, sub, k + j)
  {
    if j + |sub| <= |window| {
      assert window[j..j + |sub|] == text[k + j..k + j + |sub|];
    }
  }

  lemma TrimmedHeadHasNoOccurrence(content: string, sub: string, i: nat)
    requires sub != "" && i <= |content| && IndexFrom(content, sub, 0) == i
    ensures !Contains(Trim(content[..i]), sub)
  {
    var head := content[..i];
    var k := TrimLeftIsSuffix(head);
    var base, tail := Trim(head), TrimLeft(head);
    assert base <= tail && forall x :: 0 <= x < |base| ==> base[x] == tail[x] == content[k + x];
    var j := IndexFrom(base, sub, 0);
    OccursInWindow(base, content, k, sub, if j < 0 then 0 else j);
  }

  /** The base that splitting leaves behind holds no marker, so stripping makes progress. */
  lemma SplitBaseHasNoMarker(content: string)
    requires HasMarker(content)
    ensures !HasMarker(SplitSummary(content).0)
  {
    TrimmedHeadHasNoOccurrence(content, MARKER, IndexFrom(content, MARKER, 0));
  }

  // A summary survives being wrapped into a message and split off again.

  predicate Trimmed(s: string) {
    s != "" ==> !IsSpace(s[0]) && !IsSpace(s[|s| - 1])
  }

  lemma TrimmedIffTrimKeeps(s: string)
    ensures Trimmed(s) <==> Trim(s) == s
    ensures Trimmed(Trim(s))
  {
    var k := TrimLeftIsSuffix(s);
    TrimRightEnds(TrimLeft(s));
    var t := Trim(s);
    if t != "" { assert t[0] == TrimLeft(s)[0]; }
  }

  lemma PreambleHasNoHash()
    ensures forall i :: 0 <= i < |PREAMBLE| ==> PREAMBLE[i] != '#'
  {
    FirstPartHasNoHash();
    SecondPartHasNoHash();
    hide PREAMBLE_0, PREAMBLE_1, PREAMBLE_2, PREAMBLE_3, PREAMBLE_4, PREAMBLE_5;
    assert '#' !in PREAMBLE;
  }

  lemma FirstPartHasNoHash()
    ensures '#' !in PREAMBLE_0 && '#' !in PREAMBLE_1 && '#' !in PREAMBLE_2
  {
  }

  lemma SecondPartHasNoHash()
    ensures '#' !in PREAMBLE_3 && '#' !in PREAMBLE_4 && '#' !in PREAMBLE_5
  {
  }

  lemma MarkerStart()
    ensures MARKER != "" && MARKER[0] == '#'
  {
  }

  lemma FirstMarkerBehind(head: string, marker: string, tail: string)
    requires marker != "" && forall i :: 0 <= i < |head| ==> head[i] != marker[0]
    ensures IndexFrom(head + marker + tail, marker, 0) == |head|
  {
    var text := head + marker + tail;
    assert OccursAt(text, marker, |head|);
    var j := IndexFrom(text, marker, 0);
    assert text[j..j + |marker|][0] == text[j];
  }

  lemma WrapThenSplit(summary: string)
    requires Trimmed(summary) && summary != ""
    ensures HasMarker(AppendSummary("", summary))
    ensures SplitSummary(AppendSummary("", summary)).1 == summary
  {
    TrimmedIffTrimKeeps(summary);
    TrimmedIffTrimKeeps("");
    PreambleHasNoHash();
    MarkerStart();
    FirstMarkerBehind(PREAMBLE + "\n\n", MARKER, summary);
  }
}
