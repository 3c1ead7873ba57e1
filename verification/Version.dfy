/** Version triples: printing, parsing, and finding one in a tool's output. */
module Version {
  import opened Common
  import opened Text
  import opened Decimal

  const U32_LIMIT: nat := 0x1_0000_0000

  type U32 = n: nat | n < U32_LIMIT

  datatype Version = Version(major: U32, minor: U32, patch: U32)

  function Display(v: Version): string {
    Print(v.major) + ("." + (Print(v.minor) + ("." + Print(v.patch))))
  }

  function TrimStart(s: string): string {
    if s != [] && IsWhitespace(s[0]) then TrimStart(s[1..]) else s
  }

  function TrimEnd(s: string): string {
    if s != [] && IsWhitespace(s[|s| - 1]) then TrimEnd(s[..|s| - 1]) else s
  }

  function Trim(s: string): string { TrimEnd(TrimStart(s)) }

  ghost predicate Solid(s: string) { forall i :: 0 <= i < |s| ==> !IsWhitespace(s[i]) }

  lemma {:induction false} TrimEndDrops(s: string, right: string)
    requires s == [] || !IsWhitespace(s[|s| - 1])
    requires forall i :: 0 <= i < |right| ==> IsWhitespace(right[i])
    ensures TrimEnd(s + right) == s
  {
    if right == [] {
      assert s + right == s;
    } else {
      assert (s + right)[..|s + right| - 1] == s + right[..|right| - 1];
      TrimEndDrops(s, right[..|right| - 1]);
    }
  }

  lemma {:induction false} TrimStartDrops(left: string, s: string)
    requires s == [] || !IsWhitespace(s[0])
    requires forall i :: 0 <= i < |left| ==> IsWhitespace(left[i])
    ensures TrimStart(left + s) == s
  {
    if left == [] {
      assert left + s == s;
    } else {
      assert (left + s)[1..] == left[1..] + s;
      TrimStartDrops(left[1..], s);
    }
  }

  /** Trimming removes exactly the white space around text that neither starts nor ends with white space. */
  lemma TrimDropsSurroundings(left: string, s: string, right: string)
    requires s != [] && !IsWhitespace(s[0]) && !IsWhitespace(s[|s| - 1])
    requires forall i :: 0 <= i < |left| ==> IsWhitespace(left[i])
    requires forall i :: 0 <= i < |right| ==> IsWhitespace(right[i])
    ensures Trim(left + s + right) == s
  {
    assert left + s + right == left + (s + right);
    TrimStartDrops(left, s + right);
    TrimEndDrops(s, right);
  }

  // ---- which texts are versions ----

  /** A numeral: one or more digits, leading zeros allowed. */
  predicate IsGroup(s: string) { s != [] && AllDigits(s) }

  /** `s` reads as this number, which fits in 32 bits. */
  predicate Reads(s: string, n: nat) { IsGroup(s) && Value(s) == n && n < U32_LIMIT }

  /** `s` is three numerals with dots between them, for exactly these numbers. */
  ghost predicate Denotes(s: string, v: Version) {
    exists a, b, c :: Triple(s, a, b, c) && Reads(a, v.major) && Reads(b, v.minor) && Reads(c, v.patch)
  }

  ghost predicate Triple(s: string, a: string, b: string, c: string) { s == a + ("." + (b + ("." + c))) }

  function ParseGroup(s: string): (r: Option<U32>)
  {
    if IsGroup(s) && Value(s) < U32_LIMIT then Some(Value(s)) else None
  }

  function ParseTriple(s: string): Option<Version> {
    var parts := Split(s, '.');
    if |parts| != 3 then None
    else
      match (ParseGroup(parts[0]), ParseGroup(parts[1]), ParseGroup(parts[2]))
      case (Some(a), Some(b), Some(c)) => Some(Version(a, b, c))
      case _ => None
  }

  lemma DigitsHoldNoDot(s: string)
    requires AllDigits(s)
    ensures '.' !in s
  {
  }

  lemma JoinOfThree(a: string, b: string, c: string)
    ensures Join([a, b, c], '.') == a + ("." + (b + ("." + c)))
  {
    assert [a, b, c][1..] == [b, c] && [b, c][1..] == [c];
    assert Join([b, c], '.') == b + ("." + c);
  }

  lemma SplitOfTriple(a: string, b: string, c: string)
    requires '.' !in a && '.' !in b && '.' !in c
    ensures Split(a + ("." + (b + ("." + c))), '.') == [a, b, c]
  {
    JoinOfThree(a, b, c);
    SplitUndoesJoin([a, b, c], '.');
  }

  lemma ThreePieces(s: string)
    requires |Split(s, '.')| == 3
    ensures var parts := Split(s, '.'); Triple(s, parts[0], parts[1], parts[2])
  {
    var parts := Split(s, '.');
    JoinUndoesSplit(s, '.');
    JoinOfThree(parts[0], parts[1], parts[2]);
    assert parts == [parts[0], parts[1], parts[2]];
  }

  /** The parser accepts exactly three non-empty digit groups, each below 2^32, and reads their numbers. */
  lemma ParsesExactlyTriples(s: string, v: Version)
    ensures ParseTriple(s) == Some(v) <==> Denotes(s, v)
  {
    if Denotes(s, v) {
      var a, b, c :| Triple(s, a, b, c) && Reads(a, v.major) && Reads(b, v.minor) && Reads(c, v.patch);
      DigitsHoldNoDot(a);
      DigitsHoldNoDot(b);
      DigitsHoldNoDot(c);
      SplitOfTriple(a, b, c);
    }
    if ParseTriple(s) == Some(v) {
      ThreePieces(s);
    }
  }

  lemma DisplayDenotes(v: Version)
    ensures Denotes(Display(v), v)
  {
    ValueOfPrint(v.major);
    ValueOfPrint(v.minor);
    ValueOfPrint(v.patch);
    assert Triple(Display(v), Print(v.major), Print(v.minor), Print(v.patch));
  }

  lemma DigitIsNoSpace(s: string)
    requires AllDigits(s)
    ensures Solid(s)
  {
  }

  /** Printing, with any white space put around it, then parsing is the identity. */
  lemma ParseUndoesDisplay(v: Version, left: string, right: string)
    requires forall i :: 0 <= i < |left| ==> IsWhitespace(left[i])
    requires forall i :: 0 <= i < |right| ==> IsWhitespace(right[i])
    ensures ParseTriple(Trim(left + Display(v) + right)) == Some(v)
  {
    var s := Display(v);
    DigitIsNoSpace(Print(v.major));
    DigitIsNoSpace(Print(v.patch));
    assert s[0] == Print(v.major)[0];
    assert s[|s| - 1] == Print(v.patch)[|Print(v.patch)| - 1];
    TrimDropsSurroundings(left, s, right);
    DisplayDenotes(v);
    ParsesExactlyTriples(s, v);
  }

  /** Different versions print differently. */
  lemma DisplayInjective(v: Version, w: Version)
    requires Display(v) == Display(w)
    ensures v == w
  {
    DisplayDenotes(v);
    DisplayDenotes(w);
    ParsesExactlyTriples(Display(v), v);
    ParsesExactlyTriples(Display(v), w);
  }

  // ---- the parser ----

  method ParseVersion3(s: string) returns (r: Option<Version>)
    ensures forall v :: r == Some(v) <==> Denotes(Trim(s), v)
  {
    var parts := Split(Trim(s), '.');
    forall v ensures ParseTriple(Trim(s)) == Some(v) <==> Denotes(Trim(s), v) { ParsesExactlyTriples(Trim(s), v); }
    if |parts| != 3 { return None; }
    var nums := new U32[3](_ => 0);
    for i := 0 to 3
      invariant forall j :: 0 <= j < i ==> ParseGroup(parts[j]) == Some(nums[j])
    {
      var number := ParseGroup(parts[i]);
      if number.None? { return None; }
      nums[i] := number.value;
    }
    r := Some(Version(nums[0], nums[1], nums[2]));
  }

  // ---- finding a version in a text ----

  predicate InRun(c: char) { IsDigit(c) || c == '.' }

  /** The digits and dots from `start` on. */
  function RunAt(text: string, start: nat): (run: string)
    requires start <= |text|
    ensures start + |run| <= |text| && run == text[start..start + |run|]
    ensures forall i :: 0 <= i < |run| ==> '0' <= run[i] <= '9' || run[i] == '.'
    ensures start + |run| == |text| || !('0' <= text[start + |run|] <= '9' || text[start + |run|] == '.')
    decreases |text| - start
  {
    if start < |text| && InRun(text[start]) then [text[start]] + RunAt(text, start + 1) else []
  }

  /** A marker at `i` whose whole run of digits and dots is a version. */
  ghost predicate VersionAt(text: string, i: int, v: Version) {
    0 <= i < |text| && (text[i] == 'v' || text[i] == 'V') && Denotes(RunAt(text, i + 1), v)
  }

  lemma {:induction false} SolidIsTrimmed(s: string)
    requires Solid(s)
    ensures Trim(s) == s
  {
    if s != [] {
      TrimDropsSurroundings("", s, "");
      assert "" + s + "" == s;
    }
  }

  lemma {:induction false} RunEndsAt(text: string, start: nat, end: nat)
    requires start <= end <= |text| && (forall i :: start <= i < end ==> InRun(text[i]))
    requires end == |text| || !InRun(text[end])
    ensures RunAt(text, start) == text[start..end] && Solid(text[start..end])
    decreases end - start
  {
    if start < end {
      RunEndsAt(text, start + 1, end);
      assert text[start..end] == [text[start]] + text[start + 1..end];
    }
  }

  /** Cut the token at the first character that is neither a digit nor a dot, then parse it. */
  method ParseVersion3At(text: string, start: nat) returns (r: Option<Version>)
    requires start <= |text|
    ensures forall v :: r == Some(v) <==> Denotes(RunAt(text, start), v)
  {
    var end := start;
    while end < |text| && InRun(text[end])
      invariant start <= end <= |text|
      invariant forall i :: start <= i < end ==> InRun(text[i])
    {
      end := end + 1;
    }
    RunEndsAt(text, start, end);
    SolidIsTrimmed(text[start..end]);
    r := ParseVersion3(text[start..end]);
  }

  /** The version at the leftmost marker that has one. */
  method ScanForVersion(text: string) returns (r: Option<Version>, ghost at: int)
    ensures r.Some? ==> VersionAt(text, at, r.value) && forall j, v :: 0 <= j < at ==> !VersionAt(text, j, v)
    ensures r.None? ==> forall j, v :: !VersionAt(text, j, v)
  {
    at := 0;
    for i := 0 to |text|
      invariant forall j, v :: 0 <= j < i ==> !VersionAt(text, j, v)
    {
      if text[i] == 'v' || text[i] == 'V' {
        r := ParseVersion3At(text, i + 1);
        at := i;
        if r.Some? { return; }
      }
    }
    r := None;
  }

  // ---- the patterns of the tool matrix ----

  const LABEL := "Version"

  predicate LabelAt(text: string, i: int) { 0 <= i && i + |LABEL| <= |text| && text[i..i + |LABEL|] == LABEL }

  method FindLabel(text: string) returns (at: Option<nat>)
    ensures at.Some? ==> LabelAt(text, at.value) && forall j :: 0 <= j < at.value ==> !LabelAt(text, j)
    ensures at.None? ==> forall j :: !LabelAt(text, j)
  {
    var i := 0;
    while i + |LABEL| <= |text|
      invariant forall j :: 0 <= j < i ==> !LabelAt(text, j)
    {
      if text[i..i + |LABEL|] == LABEL { return Some(i); }
      i := i + 1;
    }
    return None;
  }

  /** The first word of `text`, empty when there is none: everything up to the next white space. */
  function FirstWord(text: string): (word: string)
    ensures Solid(word)
  {
    var s := TrimStart(text);
    if s == [] then [] else WordOf(s)
  }

  /** The first word stands between white space, or at an end of the text; there is none in white space alone. */
  lemma FirstWordIs(text: string) returns (at: nat)
    ensures var word := FirstWord(text);
      && at + |word| <= |text| && word == text[at..at + |word|] && (forall i :: 0 <= i < at ==> IsWhitespace(text[i]))
      && (forall i :: 0 <= i < |word| ==> !IsWhitespace(word[i]))
      && (at + |word| < |text| ==> IsWhitespace(text[at + |word|]))
      && (word == "" ==> at == |text|)
  {
    at := TrimStartCuts(text);
    var s := TrimStart(text);
    if s != [] {
      var word := WordOf(s);
      assert text[at..][..|word|] == text[at..at + |word|];
    }
  }

  lemma {:induction false} TrimStartCuts(text: string) returns (at: nat)
    ensures at <= |text| && TrimStart(text) == text[at..]
    ensures forall i :: 0 <= i < at ==> IsWhitespace(text[i])
    ensures at < |text| ==> !IsWhitespace(text[at])
  {
    if text != [] && IsWhitespace(text[0]) {
      at := TrimStartCuts(text[1..]);
      assert forall i :: 0 <= i < at ==> text[1..][i] == text[i + 1];
      assert text[1..][at..] == text[at + 1..];
      at := at + 1;
    } else {
      at := 0;
    }
  }

  function WordOf(s: string): (word: string)
    ensures Solid(word) && |word| <= |s| && word == s[..|word|]
    ensures |word| < |s| ==> IsWhitespace(s[|word|])
  {
    if s == [] || IsWhitespace(s[0]) then [] else [s[0]] + WordOf(s[1..])
  }

  /** The word after the first label is the version. */
  ghost predicate Labelled(output: string, v: Version) {
    exists i :: FirstLabel(output, i) && Denotes(FirstWord(output[i + |LABEL|..]), v)
  }

  ghost predicate FirstLabel(output: string, i: int) {
    LabelAt(output, i) && forall j :: 0 <= j < i ==> !LabelAt(output, j)
  }

  /** The leftmost marker that has a version has this one. */
  ghost predicate Marked(output: string, v: Version) {
    exists i :: VersionAt(output, i, v) && forall j, w :: 0 <= j < i ==> !VersionAt(output, j, w)
  }

  /** Which version the output names, by the pattern's kind: labelled, marked by a `v`, or alone. */
  ghost predicate Names(pattern: string, output: string, v: Version) {
    if LABEL <= pattern then Labelled(output, v)
    else if "v" <= pattern then Marked(output, v)
    else Denotes(Trim(output), v)
  }

  method LabelledVersion(output: string) returns (r: Option<Version>)
    ensures forall v :: r == Some(v) <==> Labelled(output, v)
  {
    var at := FindLabel(output);
    if at.None? { return None; }
    var word := FirstWord(output[at.value + |LABEL|..]);
    SolidIsTrimmed(word);
    r := ParseVersion3(word);
    assert FirstLabel(output, at.value);
    forall i | FirstLabel(output, i) ensures i == at.value {
      assert !(i < at.value) && !(at.value < i);
    }
  }

  /** A text names at most one version by its leftmost marker. */
  lemma MarkedOnce(output: string, i: int, v: Version, w: Version)
    requires VersionAt(output, i, v) && (forall j, u :: 0 <= j < i ==> !VersionAt(output, j, u)) && Marked(output, w)
    ensures v == w
  {
    var k :| VersionAt(output, k, w) && forall j, u :: 0 <= j < k ==> !VersionAt(output, j, u);
    assert i == k;
    ParsesExactlyTriples(RunAt(output, i + 1), v);
    ParsesExactlyTriples(RunAt(output, i + 1), w);
  }

  method MarkedVersion(output: string) returns (r: Option<Version>)
    ensures forall v :: r == Some(v) <==> Marked(output, v)
  {
    ghost var at: int;
    r, at := ScanForVersion(output);
    if r.Some? {
      forall w | Marked(output, w) ensures w == r.value { MarkedOnce(output, at, r.value, w); }
    }
  }

  method RegexLike(pattern: string, output: string) returns (r: Option<Version>)
    ensures forall v :: r == Some(v) <==> Names(pattern, output, v)
  {
    if LABEL <= pattern {
      r := LabelledVersion(output);
    } else if "v" <= pattern {
      r := MarkedVersion(output);
    } else {
      TrimTwice(output);
      r := ParseVersion3(Trim(output));
    }
  }

  lemma {:induction false} TrimmedEnds(s: string)
    ensures var t := TrimEnd(s); t <= s && (t != [] ==> !IsWhitespace(t[|t| - 1]))
  {
    if s != [] && IsWhitespace(s[|s| - 1]) { TrimmedEnds(s[..|s| - 1]); }
  }

  lemma {:induction false} TrimmedStarts(s: string)
    ensures var t := TrimStart(s); t != [] ==> !IsWhitespace(t[0])
  {
    if s != [] && IsWhitespace(s[0]) { TrimmedStarts(s[1..]); }
  }

  lemma TrimTwice(s: string)
    ensures Trim(Trim(s)) == Trim(s)
  {
    var t := Trim(s);
    TrimmedStarts(s);
    TrimmedEnds(TrimStart(s));
    if t != [] {
      TrimDropsSurroundings("", t, "");
      assert "" + t + "" == t;
    }
  }
}
