/** White space; splitting text at a separator and joining it again. */
module Text {

  /** Unicode White_Space, the set `char::is_whitespace` tests. */
  predicate IsWhitespace(c: char) {
    var n := c as int;
    || 0x09 <= n <= 0x0D || n == 0x20 || n == 0x85 || n == 0xA0 || n == 0x1680
    || 0x2000 <= n <= 0x200A || n == 0x2028 || n == 0x2029 || n == 0x202F || n == 0x205F || n == 0x3000
  }

  /** The pieces between separators; there is always at least one. */
  function Split(s: string, sep: char): (pieces: seq<string>)
    ensures pieces != []
  {
    if s == [] then [""]
    else
      var rest := Split(s[1..], sep);
      if s[0] == sep then [""] + rest else [[s[0]] + rest[0]] + rest[1..]
  }

  function Join(pieces: seq<string>, sep: char): string
    requires pieces != []
  {
    if |pieces| == 1 then pieces[0] else pieces[0] + ([sep] + Join(pieces[1..], sep))
  }

  lemma {:induction false} SplitPrepends(piece: string, s: string, sep: char)
    requires sep !in piece
    ensures Split(piece + s, sep) == [piece + Split(s, sep)[0]] + Split(s, sep)[1..]
  {
    var rest := Split(s, sep);
    if piece == [] {
      assert piece + s == s && piece + rest[0] == rest[0];
    } else {
      assert (piece + s)[1..] == piece[1..] + s;
      SplitPrepends(piece[1..], s, sep);
      assert piece + rest[0] == [piece[0]] + (piece[1..] + rest[0]);
    }
  }

  lemma {:induction false} SplitUndoesJoin(pieces: seq<string>, sep: char)
    requires pieces != [] && forall i :: 0 <= i < |pieces| ==> sep !in pieces[i]
    ensures Split(Join(pieces, sep), sep) == pieces
  {
    if |pieces| == 1 {
      SplitPrepends(pieces[0], "", sep);
      assert pieces[0] + "" == pieces[0] && pieces == [pieces[0]];
    } else {
      var rest := [sep] + Join(pieces[1..], sep);
      SplitUndoesJoin(pieces[1..], sep);
      assert rest[1..] == Join(pieces[1..], sep);
      SplitPrepends(pieces[0], rest, sep);
      assert pieces[0] + "" == pieces[0] && pieces == [pieces[0]] + pieces[1..];
    }
  }

  lemma {:induction false} JoinUndoesSplit(s: string, sep: char)
    ensures Join(Split(s, sep), sep) == s
  {
    if s != [] {
      JoinUndoesSplit(s[1..], sep);
      var rest := Split(s[1..], sep);
      if s[0] == sep {
        assert ([""] + rest)[1..] == rest;
        assert s == [sep] + s[1..];
        assert "" + ([sep] + s[1..]) == s;
      } else {
        JoinOfFirst([s[0]], rest, sep);
        assert s == [s[0]] + s[1..];
      }
    }
  }

  lemma JoinOfFirst(front: string, pieces: seq<string>, sep: char)
    requires pieces != []
    ensures Join([front + pieces[0]] + pieces[1..], sep) == front + Join(pieces, sep)
  {
    var all := [front + pieces[0]] + pieces[1..];
    assert all[1..] == pieces[1..];
    if |pieces| > 1 {
      var rest := [sep] + Join(pieces[1..], sep);
      assert front + pieces[0] + rest == front + (pieces[0] + rest);
    }
  }

  lemma {:induction false} PiecesHoldNoSeparator(s: string, sep: char, i: nat)
    requires i < |Split(s, sep)|
    ensures sep !in Split(s, sep)[i]
  {
    if s != [] {
      if s[0] == sep {
        if i > 0 { PiecesHoldNoSeparator(s[1..], sep, i - 1); }
      } else {
        PiecesHoldNoSeparator(s[1..], sep, i);
      }
    }
  }
}
