/** Shell quoting nested in an AppleScript string literal, and the two readers that undo it. */
module Quoting {
  import opened Common

  /** Replace every occurrence of the character `c` by `with`. */
  function Replace(s: string, c: char, with: string): string {
    if s == [] then [] else (if s[0] == c then with else [s[0]]) + Replace(s[1..], c, with)
  }

  /** Always single-quoted; an embedded quote becomes `'\''`. */
  function ShSingleQuote(s: string): string {
    "'" + Replace(s, '\'', "'\\''") + "'"
  }

  /** `\` first, then `"`: the other order would escape the escapes. */
  function ApplescriptStringEscape(s: string): string {
    Replace(Replace(s, '\\', "\\\\"), '"', "\\\"")
  }

  function ShellCommand(bin: string, context: string): string {
    ShSingleQuote(bin) + " --context " + ShSingleQuote(context)
  }

  const DO_SCRIPT := "tell application \"Terminal\" to do script \""

  /** The argv that makes Terminal.app run the command in a new window. */
  function MacosDefaultArgv(bin: string, context: string): seq<string> {
    ["osascript",
     "-e", DO_SCRIPT + ApplescriptStringEscape(ShellCommand(bin, context)) + "\"",
     "-e", "tell application \"Terminal\" to activate"]
  }

  // ---- the AppleScript reader ----

  datatype Literal = Literal(text: string, rest: string)

  function Prepend(c: char, l: Option<Literal>): Option<Literal> {
    match l
    case None => None
    case Some(Literal(text, rest)) => Some(Literal([c] + text, rest))
  }

  /** Read a string literal whose opening quote was consumed; `None` if it never closes or holds an unknown escape. */
  function ReadLiteral(s: string): Option<Literal> {
    if s == [] then None
    else if s[0] == '"' then Some(Literal([], s[1..]))
    else if s[0] == '\\' then
      if |s| < 2 then None
      else match s[1]
        case '\\' => Prepend('\\', ReadLiteral(s[2..]))
        case '"' => Prepend('"', ReadLiteral(s[2..]))
        case 'n' => Prepend('\n', ReadLiteral(s[2..]))
        case 'r' => Prepend('\r', ReadLiteral(s[2..]))
        case 't' => Prepend('\t', ReadLiteral(s[2..]))
        case _ => None
    else Prepend(s[0], ReadLiteral(s[1..]))
  }

  /** What one character looks like inside the literal. */
  function Escaped(c: char): string {
    if c == '\\' then "\\\\" else if c == '"' then "\\\"" else [c]
  }

  lemma EscapeStep(c: char, s: string)
    ensures ApplescriptStringEscape([c] + s) == Escaped(c) + ApplescriptStringEscape(s)
  {
    assert ([c] + s)[1..] == s;
    var inner := Replace(s, '\\', "\\\\");
    if c == '\\' {
      ReplaceTwo('\\', '\\', inner);
      assert "\\\\" == ['\\'] + ['\\'];
      assert Replace([c] + s, '\\', "\\\\") == ['\\'] + (['\\'] + inner);
    } else {
      assert Replace([c] + s, '\\', "\\\\") == [c] + inner;
      assert ([c] + inner)[1..] == inner;
    }
  }

  lemma ReplaceTwo(a: char, b: char, s: string)
    requires a != '"' && b != '"'
    ensures Replace([a] + ([b] + s), '"', "\\\"") == [a] + ([b] + Replace(s, '"', "\\\""))
  {
    assert ([a] + ([b] + s))[1..] == [b] + s;
    assert ([b] + s)[1..] == s;
  }

  lemma ReadEscaped(c: char, more: string)
    ensures ReadLiteral(Escaped(c) + more) == Prepend(c, ReadLiteral(more))
  {
    var s := Escaped(c) + more;
    if c == '\\' || c == '"' {
      assert s[0] == '\\' && s[1] == c && s[2..] == more;
    } else {
      assert s[0] == c && s[1..] == more;
    }
  }

  lemma {:induction false} ReadToQuote(s: string, end: string)
    requires end != [] && end[0] == '"'
    ensures ReadLiteral(ApplescriptStringEscape(s) + end) == Some(Literal(s, end[1..]))
  {
    if s == [] {
      assert ApplescriptStringEscape(s) + end == end;
    } else {
      var tail := ApplescriptStringEscape(s[1..]);
      ReadToQuote(s[1..], end);
      assert s == [s[0]] + s[1..];
      EscapeStep(s[0], s[1..]);
      ConcatAssociates(Escaped(s[0]), tail, end);
      ReadEscaped(s[0], tail + end);
    }
  }

  /** The literal ends at the quote that follows the escaped text and at no earlier one, and reads back as the text. */
  lemma ReadUndoesEscape(s: string, rest: string)
    ensures ReadLiteral(ApplescriptStringEscape(s) + "\"" + rest) == Some(Literal(s, rest))
  {
    ConcatAssociates(ApplescriptStringEscape(s), "\"", rest);
    ReadToQuote(s, "\"" + rest);
  }

  // ---- the POSIX shell reader ----

  /** Unquoted characters with a meaning of their own: nothing is assumed about them. */
  predicate IsShellSpecial(c: char) {
    c in "|&;<>()$`\"*?[#~=%\n"
  }

  datatype Quoting = Plain | InSingle

  /**
   * Split a command line into words: blanks separate words, a backslash preserves the next character
   * (section 2.2.1 of the POSIX Shell Command Language), single quotes preserve every character between
   * them (section 2.2.2). Anything else with a meaning to the shell is refused.
   * `word` is the word being read, if one has begun.
   */
  function Words(s: string, mode: Quoting, word: Option<string>): Option<seq<string>>
    decreases |s|
  {
    if s == [] then
      if mode == InSingle then None else Some(if word.Some? then [word.value] else [])
    else
      var c, sofar := s[0], if word.Some? then word.value else [];
      match mode
      case InSingle =>
        if c == '\'' then Words(s[1..], Plain, Some(sofar)) else Words(s[1..], InSingle, Some(sofar + [c]))
      case Plain =>
        if c == '\'' then Words(s[1..], InSingle, Some(sofar))
        else if c == '\\' then
          if |s| < 2 || s[1] == '\n' then None else Words(s[2..], Plain, Some(sofar + [s[1]]))
        else if c == ' ' || c == '\t' then
          match Words(s[1..], Plain, None)
          case None => None
          case Some(more) => Some(if word.Some? then [word.value] + more else more)
        else if IsShellSpecial(c) then None
        else Words(s[1..], Plain, Some(sofar + [c]))
  }

  /** Inside single quotes, a quoted character reads back as itself. */
  lemma ReadQuotedChar(c: char, more: string, sofar: string)
    ensures Words((if c == '\'' then "'\\''" else [c]) + more, InSingle, Some(sofar)) == Words(more, InSingle, Some(sofar + [c]))
  {
    if c == '\'' {
      var s := "'\\''" + more;
      assert s[1..] == "\\''" + more;
      assert s[1..][2..] == "'" + more && s[1..][1] == '\'';
      assert ("'" + more)[1..] == more;
      assert Words(s, InSingle, Some(sofar)) == Words(s[1..], Plain, Some(sofar));
      assert Words(s[1..], Plain, Some(sofar)) == Words(s[1..][2..], Plain, Some(sofar + ['\'']));
    } else {
      assert ([c] + more)[1..] == more;
    }
  }

  lemma {:induction false} ReadQuotedBody(s: string, more: string, sofar: string)
    ensures Words(Replace(s, '\'', "'\\''") + ("'" + more), InSingle, Some(sofar)) == Words(more, Plain, Some(sofar + s))
  {
    var close := "'" + more;
    if s == [] {
      assert Replace(s, '\'', "'\\''") + close == close;
      assert close[1..] == more && sofar + s == sofar;
    } else {
      var head := if s[0] == '\'' then "'\\''" else [s[0]];
      var tail := Replace(s[1..], '\'', "'\\''") + close;
      assert Replace(s, '\'', "'\\''") + close == head + tail;
      ReadQuotedChar(s[0], tail, sofar);
      ReadQuotedBody(s[1..], more, sofar + [s[0]]);
      assert sofar + [s[0]] + s[1..] == sofar + s;
    }
  }

  /** A quoted string contributes exactly its own text to the word being read. */
  lemma ReadQuoted(s: string, more: string, word: Option<string>)
    ensures Words(ShSingleQuote(s) + more, Plain, word) == Words(more, Plain, Some((if word.Some? then word.value else []) + s))
  {
    var all := ShSingleQuote(s) + more;
    var body := Replace(s, '\'', "'\\''") + ("'" + more);
    assert all == "'" + body;
    assert all[1..] == body;
    ReadQuotedBody(s, more, if word.Some? then word.value else []);
  }

  /** Characters that stand for themselves are read one by one. */
  lemma {:induction false} ReadOrdinary(s: string, more: string, sofar: string)
    requires forall i :: 0 <= i < |s| ==> s[i] == '-' || 'a' <= s[i] <= 'z'
    ensures Words(s + more, Plain, Some(sofar)) == Words(more, Plain, Some(sofar + s))
  {
    if s == [] {
      assert s + more == more && sofar + s == sofar;
    } else {
      assert (s + more)[1..] == s[1..] + more;
      ReadOrdinary(s[1..], more, sofar + [s[0]]);
      assert sofar + [s[0]] + s[1..] == sofar + s;
    }
  }

  lemma ReadWordStart(c: char, more: string)
    requires c == '-' || 'a' <= c <= 'z'
    ensures Words([c] + more, Plain, None) == Words(more, Plain, Some([c]))
  {
    assert ([c] + more)[1..] == more;
    var empty: string := [];
    assert empty + [c] == [c];
  }

  lemma ReadBlank(more: string, word: string)
    ensures Words(" " + more, Plain, Some(word)) ==
      match Words(more, Plain, None) case None => None case Some(rest) => Some([word] + rest)
  {
    assert (" " + more)[1..] == more;
  }

  lemma ReadOption(last: string)
    ensures Words("--context" + last, Plain, None) == Words(last, Plain, Some("--context"))
  {
    var tail := "-context";
    assert "--context" == ['-'] + tail;
    ReadWordStart('-', tail + last);
    ReadOrdinary(tail, last, ['-']);
    assert "--context" + last == ['-'] + (tail + last);
  }

  /** The shell sees exactly three words, whatever the binary path and the context name contain. */
  lemma ShellReadsThreeWords(bin: string, context: string)
    ensures Words(ShellCommand(bin, context), Plain, None) == Some([bin, "--context", context])
  {
    var last := ShSingleQuote(context);
    var option := "--context" + (" " + last);
    assert ShellCommand(bin, context) == ShSingleQuote(bin) + (" " + option);
    ReadQuoted(bin, " " + option, None);
    ReadBlank(option, bin);
    ReadOption(" " + last);
    ReadBlank(last, "--context");
    ReadQuoted(context, "", None);
    assert last + "" == last && "" + context == context && "" + bin == bin;
    assert Words("", Plain, Some(context)) == Some([context]);
    assert [bin] + (["--context"] + [context]) == [bin, "--context", context];
  }

  /** The script `osascript` runs holds the command as one literal, closed by its own final quote. */
  lemma TerminalRunsTheCommand(bin: string, context: string)
    ensures var argv := MacosDefaultArgv(bin, context);
      && |argv| == 5 && DO_SCRIPT <= argv[2]
      && ReadLiteral(argv[2][|DO_SCRIPT|..]) == Some(Literal(ShellCommand(bin, context), ""))
      && Words(ShellCommand(bin, context), Plain, None) == Some([bin, "--context", context])
  {
    var literal := ApplescriptStringEscape(ShellCommand(bin, context)) + "\"";
    var script := DO_SCRIPT + ApplescriptStringEscape(ShellCommand(bin, context)) + "\"";
    assert script == DO_SCRIPT + literal;
    assert script[|DO_SCRIPT|..] == literal && literal + "" == literal;
    ReadUndoesEscape(ShellCommand(bin, context), "");
    ShellReadsThreeWords(bin, context);
  }

  /** The literals of a whole script line. `None` if one never closes. */
  function Literals(s: string): Option<seq<string>>
    decreases |s|
  {
    if s == [] then Some([])
    else if s[0] != '"' then Literals(s[1..])
    else
      match ReadLiteral(s[1..])
      case None => None
      case Some(Literal(text, rest)) =>
        if |rest| >= |s| then None
        else match Literals(rest) case None => None case Some(more) => Some([text] + more)
  }

  lemma {:induction false} LiteralsSkip(code: string, more: string)
    requires '"' !in code
    ensures Literals(code + more) == Literals(more)
  {
    if code == [] {
      assert code + more == more;
    } else {
      assert (code + more)[1..] == code[1..] + more;
      LiteralsSkip(code[1..], more);
    }
  }

  /** Code without quotes, then an escaped literal: the scan finds the literal's text and goes on behind it. */
  lemma LiteralFollows(code: string, text: string, more: string)
    requires '"' !in code
    ensures Literals(code + ("\"" + (ApplescriptStringEscape(text) + "\"" + more))) ==
      match Literals(more) case None => None case Some(rest) => Some([text] + rest)
  {
    var body := ApplescriptStringEscape(text) + "\"" + more;
    LiteralsSkip(code, "\"" + body);
    assert ("\"" + body)[1..] == body;
    ReadUndoesEscape(text, more);
  }

  function Literally(code: string, escaped: string, more: string): string {
    code + ("\"" + (escaped + "\"" + more))
  }

  lemma TwoLiterals(code1: string, name: string, code2: string, command: string)
    requires '"' !in code1 && '"' !in code2 && '"' !in name && '\\' !in name
    ensures Literals(Literally(code1, name, Literally(code2, ApplescriptStringEscape(command), ""))) == Some([name, command])
  {
    PlainTextUnescaped(name);
    LiteralFollows(code2, command, "");
    LiteralFollows(code1, name, Literally(code2, ApplescriptStringEscape(command), ""));
    assert Literals("") == Some([]) && [command] + [] == [command];
    assert [name] + [command] == [name, command];
  }

  /** The script line holds two literals: the application name, and the command exactly. */
  lemma ScriptHoldsTwoLiterals(bin: string, context: string)
    ensures Literals(MacosDefaultArgv(bin, context)[2]) == Some(["Terminal", ShellCommand(bin, context)])
  {
    TwoLiterals("tell application ", "Terminal", " to do script ", ShellCommand(bin, context));
    ScriptParts(ApplescriptStringEscape(ShellCommand(bin, context)));
  }

  lemma ScriptParts(escaped: string)
    ensures DO_SCRIPT + escaped + "\"" == Literally("tell application ", "Terminal", Literally(" to do script ", escaped, ""))
  {
    assert DO_SCRIPT == "tell application " + ("\"" + ("Terminal" + "\"" + " to do script " + "\""));
    assert escaped + "\"" + "" == escaped + "\"";
  }

  lemma {:induction false} PlainTextUnescaped(s: string)
    requires '\\' !in s && '"' !in s
    ensures ApplescriptStringEscape(s) == s
  {
    if s != [] {
      PlainTextUnescaped(s[1..]);
      EscapeStep(s[0], s[1..]);
      assert s == [s[0]] + s[1..];
    }
  }

  /** Different requests never produce the same script. */
  lemma ScriptsAreDistinct(bin1: string, context1: string, bin2: string, context2: string)
    requires MacosDefaultArgv(bin1, context1) == MacosDefaultArgv(bin2, context2)
    ensures bin1 == bin2 && context1 == context2
  {
    TerminalRunsTheCommand(bin1, context1);
    TerminalRunsTheCommand(bin2, context2);
    assert [bin1, "--context", context1][0] == [bin2, "--context", context2][0];
    assert [bin1, "--context", context1][2] == [bin2, "--context", context2][2];
  }

  /** Escaping in the other order is wrong: this text does not come back. */
  lemma EscapeOrderMatters()
    ensures ReadLiteral(Replace(Replace("\"", '"', "\\\""), '\\', "\\\\") + "\"") != Some(Literal("\"", ""))
  {
    var q: string := "\"";
    assert q[1..] == [];
    assert Replace(q, '"', "\\\"") == "\\\"" + [];
    var e := "\\\"";
    assert e[1..] == q;
    assert Replace(q, '\\', "\\\\") == q + [];
    assert Replace(e, '\\', "\\\\") == "\\\\" + q;
    var s := "\\\\" + q + "\"";
    assert s[0] == '\\' && s[1] == '\\' && s[2..][0] == '"';
  }
}
