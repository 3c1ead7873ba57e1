/** Scrubbing kubeconfig secrets out of output lines. */
module Redaction {
  import opened Common
  import opened Text
  import StderrTail

  predicate AllWhitespace(s: string) {
    s == [] || (IsWhitespace(s[0]) && AllWhitespace(s[1..]))
  }

  /** Keys are made of these characters: no whitespace, no colon. */
  predicate IsKeyChar(c: char) {
    'a' <= c <= 'z' || c == '-'
  }

  predicate IsWord(s: string) {
    s != [] && forall i :: 0 <= i < |s| ==> IsKeyChar(s[i])
  }

  /** A table of keys: distinct words. */
  ghost predicate KeyTable(keys: seq<string>) {
    NoDup(keys) && forall k :: 0 <= k < |keys| ==> IsWord(keys[k])
  }

  const KUBECONFIG_SECRET_KEYS: seq<string> :=
    ["client-key-data", "client-certificate-data", "token", "password", "client-secret"]
  const REDACTED := "<redacted>"

  lemma TableOfFive(a: string, b: string, c: string, d: string, e: string)
    requires IsWord(a) && IsWord(b) && IsWord(c) && IsWord(d) && IsWord(e)
    requires |a| == 15 && |b| == 23 && |c| == 5 && |d| == 8 && |e| == 13
    ensures KeyTable([a, b, c, d, e])
  {
  }

  lemma SecretKeysAreATable()
    ensures KeyTable(KUBECONFIG_SECRET_KEYS)
  {
    TableOfFive("client-key-data", "client-certificate-data", "token", "password", "client-secret");
  }

  /** Length of the leading whitespace. */
  function Blank(s: string): (n: nat)
    ensures n <= |s| && AllWhitespace(s[..n]) && (n < |s| ==> !IsWhitespace(s[n]))
  {
    if s == [] || !IsWhitespace(s[0]) then 0
    else
      var n := Blank(s[1..]) + 1;
      assert s[..n][1..] == s[1..][..n - 1];
      n
  }

  lemma {:induction false} BlankOf(a: string, b: string)
    requires AllWhitespace(a) && (b == [] || !IsWhitespace(b[0]))
    ensures Blank(a + b) == |a|
  {
    if a != [] {
      assert (a + b)[1..] == a[1..] + b;
      BlankOf(a[1..], b);
    } else {
      assert a + b == b;
    }
  }

  lemma BlankSplits(a: string, b: string)
    requires AllWhitespace(a) && (b == [] || !IsWhitespace(b[0]))
    ensures Blank(a + b) == |a| && (a + b)[..|a|] == a && (a + b)[|a|..] == b
  {
    BlankOf(a, b);
  }

  /** A secret field of a line: `indent key gap : lead value`, where the value is not empty. */
  datatype SecretField = SecretField(indent: string, key: string, gap: string, lead: string, value: string) {
    function Rest(): string { gap + (":" + (lead + value)) }

    function Line(): string { indent + (key + Rest()) }

    function Scrubbed(): string { indent + (key + (gap + (":" + (lead + REDACTED)))) }

    ghost predicate Blanks() {
      AllWhitespace(indent) && AllWhitespace(gap) && AllWhitespace(lead) && (value != [] ==> !IsWhitespace(value[0]))
    }

    /** The line holds this field. */
    ghost predicate In(keys: seq<string>, line: string) {
      Blanks() && key in keys && value != [] && line == Line()
    }
  }

  /** What follows `key` in `trimmed` is whitespace and then a colon. */
  predicate KeyApplies(trimmed: string, key: string) {
    && key <= trimmed
    && var rest := trimmed[|key|..];
    && var gap := Blank(rest);
    && gap < |rest| && rest[gap] == ':'
  }

  /** The key is the text up to the first whitespace or colon, so no longer word can also be a prefix. */
  lemma KeyEnds(trimmed: string, a: string, b: string)
    requires KeyApplies(trimmed, a) && b <= trimmed && IsWord(b)
    ensures |b| <= |a|
  {
    var rest := trimmed[|a|..];
    assert IsWhitespace(rest[0]) || rest[0] == ':';
    assert rest[0] == trimmed[|a|];
    assert !IsKeyChar(trimmed[|a|]);
    assert b == trimmed[..|b|];
  }

  /** At most one key can apply to a line. */
  lemma OneKeyApplies(keys: seq<string>, trimmed: string, i: nat, j: nat)
    requires KeyTable(keys) && i < |keys| && j < |keys| && KeyApplies(trimmed, keys[i]) && KeyApplies(trimmed, keys[j])
    ensures i == j
  {
    KeyEnds(trimmed, keys[i], keys[j]);
    KeyEnds(trimmed, keys[j], keys[i]);
    assert keys[i] == trimmed[..|keys[i]|] && keys[j] == trimmed[..|keys[j]|];
  }

  /** What scrubbing means: the value of a secret field is replaced, and nothing else changes. */
  ghost predicate IsRedactionOf(keys: seq<string>, line: string, r: string) {
    && (forall f: SecretField :: f.In(keys, line) ==> r == f.Scrubbed())
    && ((forall f: SecretField :: !f.In(keys, line)) ==> r == line)
  }

  /** The field found under a key that applies to a line without indentation. */
  function FieldUnder(trimmed: string, key: string): SecretField
    requires KeyApplies(trimmed, key)
  {
    var rest := trimmed[|key|..];
    var after := rest[Blank(rest) + 1..];
    SecretField("", key, rest[..Blank(rest)], after[..Blank(after)], after[Blank(after)..])
  }

  function FieldAt(line: string, key: string): SecretField
    requires KeyApplies(line[Blank(line)..], key)
  {
    FieldUnder(line[Blank(line)..], key).(indent := line[..Blank(line)])
  }

  /** The line scrubbed under a key that applies; a key without a value leaves the line alone. */
  function ScrubbedAt(line: string, key: string): string
    requires KeyApplies(line[Blank(line)..], key)
  {
    var f := FieldAt(line, key);
    if f.value == [] then line else f.Scrubbed()
  }

  lemma FieldAtBlanks(line: string, key: string)
    requires KeyApplies(line[Blank(line)..], key)
    ensures FieldAt(line, key).Blanks()
  {
  }

  lemma FieldUnderIsThere(trimmed: string, key: string)
    requires KeyApplies(trimmed, key)
    ensures trimmed == key + FieldUnder(trimmed, key).Rest()
  {
    var rest := trimmed[|key|..];
    RestSplits(trimmed, key, Blank(rest), Blank(rest[Blank(rest) + 1..]));
  }

  lemma FieldAtIsThere(line: string, key: string)
    requires KeyApplies(line[Blank(line)..], key)
    ensures line == FieldAt(line, key).Line()
  {
    FieldUnderIsThere(line[Blank(line)..], key);
    CutAt(line, Blank(line));
  }

  lemma RestSplits(trimmed: string, key: string, gap: nat, lead: nat)
    requires key <= trimmed && gap < |trimmed| - |key| && trimmed[|key|..][gap] == ':'
    requires lead <= |trimmed| - |key| - gap - 1
    ensures var rest := trimmed[|key|..];
      var after := rest[gap + 1..];
      trimmed == key + (rest[..gap] + (":" + (after[..lead] + after[lead..])))
  {
    var rest := trimmed[|key|..];
    var after := rest[gap + 1..];
    CutAt(after, lead);
    CutAtColon(rest, gap);
    CutPrefix(trimmed, key);
  }

  lemma CutPrefix(s: string, prefix: string)
    requires prefix <= s
    ensures s == prefix + s[|prefix|..]
  {
  }

  lemma CutAt(s: string, n: nat)
    requires n <= |s|
    ensures s == s[..n] + s[n..]
  {
  }

  lemma CutAtColon(s: string, n: nat)
    requires n < |s| && s[n] == ':'
    ensures s == s[..n] + (":" + s[n + 1..])
  {
  }

  /** Any field in the line shows that its key applies, and is the one found there. */
  lemma FieldIsFound(keys: seq<string>, line: string, f: SecretField)
    requires KeyTable(keys) && f.In(keys, line)
    ensures KeyApplies(line[Blank(line)..], f.key) && FieldAt(line, f.key) == f
  {
    var k :| 0 <= k < |keys| && keys[k] == f.key;
    FieldIsThere(line, f);
    FieldUnderIs(f);
  }

  /** Without its indentation the line starts with the key. */
  lemma FieldIsThere(line: string, f: SecretField)
    requires IsWord(f.key) && f.Blanks() && line == f.Line()
    ensures line[..Blank(line)] == f.indent && line[Blank(line)..] == f.key + f.Rest()
  {
    var trimmed := f.key + f.Rest();
    assert trimmed[0] == f.key[0] && IsKeyChar(f.key[0]);
    BlankSplits(f.indent, trimmed);
  }

  lemma FieldUnderIs(f: SecretField)
    requires f.Blanks()
    ensures KeyApplies(f.key + f.Rest(), f.key)
    ensures FieldUnder(f.key + f.Rest(), f.key) == f.(indent := "")
  {
    SuffixOf(f.key, f.Rest());
    FieldOfRest(f);
  }

  lemma SuffixOf(a: string, b: string)
    ensures a <= a + b && (a + b)[|a|..] == b
  {
  }

  lemma FieldOfRest(f: SecretField)
    requires f.Blanks()
    ensures var rest := f.Rest();
      && Blank(rest) == |f.gap| < |rest| && rest[|f.gap|] == ':' && rest[..|f.gap|] == f.gap
      && var after := rest[|f.gap| + 1..];
      && Blank(after) == |f.lead| && after[..|f.lead|] == f.lead && after[|f.lead|..] == f.value
  {
    BlankSplits(f.gap, ":" + (f.lead + f.value));
    AfterColon(f.gap, f.lead + f.value);
    BlankSplits(f.lead, f.value);
  }

  lemma AfterColon(gap: string, tail: string)
    ensures var rest := gap + (":" + tail);
      |gap| < |rest| && rest[|gap|] == ':' && rest[|gap| + 1..] == tail
  {
  }

  lemma OnlyField(keys: seq<string>, line: string, f: SecretField, k: nat)
    requires KeyTable(keys) && f.In(keys, line) && k < |keys| && KeyApplies(line[Blank(line)..], keys[k])
    ensures f == FieldAt(line, keys[k])
  {
    FieldIsFound(keys, line, f);
    var j :| 0 <= j < |keys| && keys[j] == f.key;
    OneKeyApplies(keys, line[Blank(line)..], j, k);
  }

  /** When a key applies, it decides what scrubbing the line gives. */
  lemma KeyDecides(keys: seq<string>, line: string, k: nat)
    requires KeyTable(keys) && k < |keys| && KeyApplies(line[Blank(line)..], keys[k])
    ensures IsRedactionOf(keys, line, ScrubbedAt(line, keys[k]))
  {
    var field := FieldAt(line, keys[k]);
    FieldAtIsThere(line, keys[k]);
    FieldAtBlanks(line, keys[k]);
    forall f: SecretField | f.In(keys, line) ensures f == field {
      OnlyField(keys, line, f, k);
    }
    if field.value != [] {
      assert field.In(keys, line);
    }
  }

  lemma NoKeyNoChange(keys: seq<string>, line: string)
    requires KeyTable(keys) && forall j :: 0 <= j < |keys| ==> !KeyApplies(line[Blank(line)..], keys[j])
    ensures IsRedactionOf(keys, line, line)
  {
    forall f: SecretField ensures !f.In(keys, line) {
      if f.In(keys, line) {
        FieldIsFound(keys, line, f);
      }
    }
  }

  /** Scrub one line: the first key that applies decides. */
  method RedactWith(keys: seq<string>, line: string) returns (r: string)
    requires KeyTable(keys)
    ensures IsRedactionOf(keys, line, r)
  {
    for k := 0 to |keys|
      invariant forall j :: 0 <= j < k ==> !KeyApplies(line[Blank(line)..], keys[j])
    {
      var done := TryKey(keys, line, k);
      if done.Some? {
        return done.value;
      }
    }
    NoKeyNoChange(keys, line);
    return line;
  }

  /** What one key does to the line: nothing if it does not apply; a key without a value leaves the line alone. */
  method TryKey(keys: seq<string>, line: string, k: nat) returns (r: Option<string>)
    requires KeyTable(keys) && k < |keys|
    ensures r.Some? <==> KeyApplies(line[Blank(line)..], keys[k])
    ensures r.Some? ==> IsRedactionOf(keys, line, r.value)
  {
    var indent := WhitespaceRun(line);
    var field := MatchKey(line[indent..], keys[k]);
    if field.None? {
      r := None;
    } else {
      KeyDecides(keys, line, k);
      r := Some(if field.value.value == [] then line else field.value.(indent := line[..indent]).Scrubbed());
    }
  }

  /** The field under `key` in a line without indentation, if the key applies. */
  method MatchKey(trimmed: string, key: string) returns (field: Option<SecretField>)
    ensures field.Some? <==> KeyApplies(trimmed, key)
    ensures field.Some? ==> field.value == FieldUnder(trimmed, key)
  {
    if !(key <= trimmed) {
      return None;
    }
    field := MatchColon(key, trimmed[|key|..]);
  }

  /** Only whitespace may separate the key from the colon. */
  method MatchColon(key: string, rest: string) returns (field: Option<SecretField>)
    ensures field.Some? <==> Blank(rest) < |rest| && rest[Blank(rest)] == ':'
    ensures field.Some? ==>
      var after := rest[Blank(rest) + 1..];
      field.value == SecretField("", key, rest[..Blank(rest)], after[..Blank(after)], after[Blank(after)..])
  {
    var preColon := WhitespaceRun(rest);
    if preColon == |rest| || rest[preColon] != ':' {
      return None;
    }
    var afterColon := rest[preColon + 1..];
    var valueStart := WhitespaceRun(afterColon);
    return Some(SecretField("", key, rest[..preColon], afterColon[..valueStart], afterColon[valueStart..]));
  }

  /** Scrub one line of kubeconfig secrets. */
  method RedactKubeconfigSecrets(line: string) returns (r: string)
    ensures IsRedactionOf(KUBECONFIG_SECRET_KEYS, line, r) && r == Redacted(line)
  {
    SecretKeysAreATable();
    r := RedactWith(KUBECONFIG_SECRET_KEYS, line);
    RedactionIsUnique(KUBECONFIG_SECRET_KEYS, line, r, Redacted(line));
  }

  /** The first of the keys from `k` on that applies; past the end if none does. */
  function FirstKey(keys: seq<string>, trimmed: string, k: nat): (first: nat)
    requires k <= |keys|
    ensures k <= first <= |keys| && (first < |keys| ==> KeyApplies(trimmed, keys[first]))
    ensures forall j :: k <= j < first ==> !KeyApplies(trimmed, keys[j])
    decreases |keys| - k
  {
    if k == |keys| || KeyApplies(trimmed, keys[k]) then k else FirstKey(keys, trimmed, k + 1)
  }

  function RedactedBy(keys: seq<string>, line: string): string {
    var k := FirstKey(keys, line[Blank(line)..], 0);
    if k < |keys| then ScrubbedAt(line, keys[k]) else line
  }

  lemma RedactedByIsRedaction(keys: seq<string>, line: string)
    requires KeyTable(keys)
    ensures IsRedactionOf(keys, line, RedactedBy(keys, line))
  {
    var k := FirstKey(keys, line[Blank(line)..], 0);
    if k < |keys| { KeyDecides(keys, line, k); } else { NoKeyNoChange(keys, line); }
  }

  /** The one scrubbed form of a line. */
  function Redacted(line: string): (r: string)
    ensures IsRedactionOf(KUBECONFIG_SECRET_KEYS, line, r)
  {
    SecretKeysAreATable();
    RedactedByIsRedaction(KUBECONFIG_SECRET_KEYS, line);
    RedactedBy(KUBECONFIG_SECRET_KEYS, line)
  }

  function RedactAll(lines: seq<string>): (r: seq<string>)
    ensures |r| == |lines|
  {
    if lines == [] then [] else [Redacted(lines[0])] + RedactAll(lines[1..])
  }

  lemma {:induction false} RedactAllAt(lines: seq<string>, k: nat)
    requires k < |lines|
    ensures RedactAll(lines)[k] == Redacted(lines[k])
    ensures IsRedactionOf(KUBECONFIG_SECRET_KEYS, lines[k], RedactAll(lines)[k])
  {
    if k > 0 { RedactAllAt(lines[1..], k - 1); }
  }

  /** Scan over leading whitespace. */
  method WhitespaceRun(s: string) returns (n: nat)
    ensures n == Blank(s)
  {
    n := 0;
    assert s[0..] == s;
    while n < |s| && IsWhitespace(s[n])
      invariant n <= |s| && Blank(s) == n + Blank(s[n..])
    {
      assert s[n..][1..] == s[n + 1..];
      n := n + 1;
    }
  }

  // ---- what scrubbing guarantees ----

  /** A line has at most one scrubbed form, so `IsRedactionOf` determines the result. */
  lemma RedactionIsUnique(keys: seq<string>, line: string, r1: string, r2: string)
    requires IsRedactionOf(keys, line, r1) && IsRedactionOf(keys, line, r2)
    ensures r1 == r2
  {
    if f: SecretField :| f.In(keys, line) {
      assert r1 == f.Scrubbed() == r2;
    }
  }

  /** Scrubbing a scrubbed line changes nothing. */
  lemma RedactionIsIdempotent(keys: seq<string>, line: string, r: string)
    requires KeyTable(keys) && IsRedactionOf(keys, line, r)
    ensures IsRedactionOf(keys, r, r)
  {
    if f: SecretField :| f.In(keys, line) {
      var g := f.(value := REDACTED);
      assert g.In(keys, r);
      forall h: SecretField | h.In(keys, r) ensures h == g {
        FieldIsFound(keys, r, g);
        FieldIsFound(keys, r, h);
        TwoFieldsOneKey(keys, r, g, h);
      }
    }
  }

  lemma TwoFieldsOneKey(keys: seq<string>, line: string, g: SecretField, h: SecretField)
    requires KeyTable(keys) && g.In(keys, line) && h.In(keys, line)
    ensures g == h
  {
    FieldIsFound(keys, line, g);
    var k :| 0 <= k < |keys| && keys[k] == g.key;
    OnlyField(keys, line, h, k);
  }

  /** The scrubbed line depends only on the text before the value: any two values give the same output. */
  lemma ValueDoesNotShow(keys: seq<string>, f: SecretField, value: string, r1: string, r2: string)
    requires KeyTable(keys) && f.In(keys, f.Line())
    requires value != [] && !IsWhitespace(value[0])
    requires IsRedactionOf(keys, f.Line(), r1) && IsRedactionOf(keys, f.(value := value).Line(), r2)
    ensures r1 == r2
  {
    var g := f.(value := value);
    assert g.In(keys, g.Line());
    assert g.Scrubbed() == f.Scrubbed();
  }

  // ---- the error tail ----

  /** Scrubbing a line adds no newline. */
  lemma RedactionAddsNoNewline(keys: seq<string>, line: string, r: string)
    requires KeyTable(keys) && IsRedactionOf(keys, line, r) && '\n' !in line
    ensures '\n' !in r
  {
    if f: SecretField :| f.In(keys, line) {
      LineHolds(f, '\n');
    }
  }

  lemma LineHolds(f: SecretField, c: char)
    ensures c in f.Line() <==> c in f.indent || c in f.key || c in f.gap || c == ':' || c in f.lead || c in f.value
    ensures c in f.Scrubbed() <==> c in f.indent || c in f.key || c in f.gap || c == ':' || c in f.lead || c in REDACTED
  {
    InConcat(f.lead, f.value, c);
    InConcat(":", f.lead + f.value, c);
    InConcat(f.gap, ":" + (f.lead + f.value), c);
    InConcat(f.key, f.Rest(), c);
    InConcat(f.indent, f.key + f.Rest(), c);
    InConcat(f.lead, REDACTED, c);
    InConcat(":", f.lead + REDACTED, c);
    InConcat(f.gap, ":" + (f.lead + REDACTED), c);
    InConcat(f.key, f.gap + (":" + (f.lead + REDACTED)), c);
    InConcat(f.indent, f.key + (f.gap + (":" + (f.lead + REDACTED))), c);
  }

  lemma InConcat(a: string, b: string, c: char)
    ensures c in a + b <==> c in a || c in b
  {
  }

  /** `shown` is `text` scrubbed line by line. */
  ghost predicate ScrubbedByLine(keys: seq<string>, text: string, shown: string) {
    var cut, lines := Split(text, '\n'), Split(shown, '\n');
    |lines| == |cut| && forall i :: 0 <= i < |cut| ==> IsRedactionOf(keys, cut[i], lines[i])
  }

  /** The stderr tail shown in errors: cut to size, then scrubbed line by line. The line structure survives. */
  method TailForError(tail: string) returns (shown: string)
    ensures ScrubbedByLine(KUBECONFIG_SECRET_KEYS, StderrTail.FittingTail(tail), shown)
  {
    SecretKeysAreATable();
    var cut := StderrTail.Trim(tail);
    shown := RedactLines(KUBECONFIG_SECRET_KEYS, cut);
  }

  /** Split into lines, scrub each, and join them again. */
  method RedactLines(keys: seq<string>, text: string) returns (shown: string)
    requires KeyTable(keys)
    ensures ScrubbedByLine(keys, text, shown)
  {
    var pieces := Split(text, '\n');
    var lines: seq<string> := [];
    for i := 0 to |pieces|
      invariant |lines| == i
      invariant forall j :: 0 <= j < i ==> '\n' !in lines[j] && IsRedactionOf(keys, pieces[j], lines[j])
    {
      PiecesHoldNoSeparator(text, '\n', i);
      var line := RedactPiece(keys, pieces[i]);
      lines := lines + [line];
    }
    shown := Join(lines, '\n');
    SplitUndoesJoin(lines, '\n');
  }

  method RedactPiece(keys: seq<string>, piece: string) returns (line: string)
    requires KeyTable(keys) && '\n' !in piece
    ensures '\n' !in line && IsRedactionOf(keys, piece, line)
  {
    line := RedactWith(keys, piece);
    RedactionAddsNoNewline(keys, piece, line);
  }
}
