/** The bounded stderr tail: UTF-8 aware, always ending where the stream ends. */
module StderrTail {
  import opened Common

  const STDERR_TAIL_BYTES: nat := 2048

  /** Length of one character in UTF-8. */
  function Utf8Len(c: char): (n: nat)
    ensures 1 <= n <= 4
  {
    if c as int < 0x80 then 1 else if c as int < 0x800 then 2 else if c as int < 0x1_0000 then 3 else 4
  }

  /** One past the largest character that UTF-8 writes in `n` bytes: 7 bits in one, 11, 16 and 21 in more. */
  function Capacity(n: nat): nat { if n == 0 then 0 else if n == 1 then 128 else 32 * Power32(n - 1) * 2 }

  function Power32(n: nat): nat { if n == 0 then 1 else 32 * Power32(n - 1) }

  /** A character takes as many bytes as it needs, and no more. */
  lemma Utf8LenIsLeast(c: char)
    ensures Capacity(Utf8Len(c) - 1) <= c as int < Capacity(Utf8Len(c))
  {
    assert Power32(0) == 1 && Power32(1) == 32 && Power32(2) == 1024 && Power32(3) == 32768;
  }

  function Bytes(s: string): (n: nat)
    ensures n >= |s|
  {
    if s == [] then 0 else Utf8Len(s[0]) + Bytes(s[1..])
  }

  lemma {:induction false} BytesConcat(a: string, b: string)
    ensures Bytes(a + b) == Bytes(a) + Bytes(b)
  {
    if a == [] {
      assert a + b == b;
    } else {
      BytesConcat(a[1..], b);
      assert (a + b)[1..] == a[1..] + b;
    }
  }

  lemma BytesSplit(s: string, k: nat)
    requires k <= |s|
    ensures Bytes(s) == Bytes(s[..k]) + Bytes(s[k..])
  {
    var a, b := s[..k], s[k..];
    assert s == a + b;
    BytesConcat(a, b);
  }

  /** The longest suffix of `s` (starting on a character boundary) that fits in the tail. */
  function FittingTail(s: string): (tail: string)
    ensures |tail| <= |s| && tail == s[|s| - |tail|..]
    ensures Bytes(tail) <= STDERR_TAIL_BYTES
  {
    if Bytes(s) <= STDERR_TAIL_BYTES then s else FittingTail(s[1..])
  }

  lemma EmptyTail()
    ensures FittingTail("") == ""
  {
    assert Bytes("") == 0;
  }

  lemma SuffixIsShorter(s: string, j: nat, k: nat)
    requires j <= k <= |s|
    ensures Bytes(s[k..]) <= Bytes(s[j..])
  {
    BytesSplit(s[j..], k - j);
    assert s[j..][k - j..] == s[k..];
  }

  /** Every suffix that starts earlier is too long. */
  lemma {:induction false} FittingTailIsLongest(s: string, j: nat)
    requires j < |s| - |FittingTail(s)|
    ensures Bytes(s[j..]) > STDERR_TAIL_BYTES
  {
    if j > 0 {
      FittingTailIsLongest(s[1..], j - 1);
      assert s[1..][j - 1..] == s[j..];
    } else {
      assert s[0..] == s;
    }
  }

  lemma {:induction false} DropsOverflow(s: string, k: nat)
    requires k <= |s| && (k > 0 ==> Bytes(s[k - 1..]) > STDERR_TAIL_BYTES)
    ensures FittingTail(s) == FittingTail(s[k..])
  {
    if k > 0 {
      SuffixIsShorter(s, 0, k - 1);
      assert s[0..] == s;
      if k > 1 { assert s[1..][k - 2..] == s[k - 1..]; }
      DropsOverflow(s[1..], k - 1);
      assert s[1..][k - 1..] == s[k..];
    } else {
      assert s[0..] == s;
    }
  }

  lemma OverflowStays(a: string, b: string, k: nat)
    requires k <= |a| && (k > 0 ==> Bytes(a[k - 1..]) > STDERR_TAIL_BYTES)
    ensures FittingTail(a + b) == FittingTail(a[k..] + b)
  {
    var whole := a + b;
    assert whole[k..] == a[k..] + b;
    if k > 0 {
      assert whole[k - 1..] == a[k - 1..] + b;
      BytesConcat(a[k - 1..], b);
    }
    DropsOverflow(whole, k);
  }

  /** Cutting early loses nothing: the tail of a tail plus more text is the tail of the whole. */
  lemma TailOfTail(a: string, b: string)
    ensures FittingTail(FittingTail(a) + b) == FittingTail(a + b)
  {
    var k := |a| - |FittingTail(a)|;
    if k > 0 {
      FittingTailIsLongest(a, k - 1);
    }
    OverflowStays(a, b, k);
  }

  /** Once the stream is longer than the cap, at most three bytes of it are given up. */
  lemma FullTailLength(s: string)
    requires Bytes(s) > STDERR_TAIL_BYTES
    ensures 2045 <= Bytes(FittingTail(s)) <= 2048
  {
    var k := |s| - |FittingTail(s)|;
    assert FittingTail(s) == FittingTail(s[1..]);
    FittingTailIsLongest(s, k - 1);
    assert s[k - 1..][1..] == s[k..];
  }

  /** Index of the first character at byte offset `start` or later; the end if there is none. */
  method BoundaryFrom(s: string, start: nat) returns (k: nat)
    ensures k <= |s| && (k < |s| ==> Bytes(s[..k]) >= start)
    ensures forall j :: 0 <= j < k ==> Bytes(s[..j]) < start
  {
    var offset := 0;
    k := 0;
    while k < |s| && offset < start
      invariant k <= |s| && offset == Bytes(s[..k])
      invariant forall j :: 0 <= j < k ==> Bytes(s[..j]) < start
    {
      BytesConcat(s[..k], [s[k]]);
      assert s[..k + 1] == s[..k] + [s[k]];
      assert Bytes([s[k]]) == Utf8Len(s[k]);
      offset := offset + Utf8Len(s[k]);
      k := k + 1;
    }
  }

  /** Trim text that is too long to its longest fitting suffix. */
  method Trim(s: string) returns (tail: string)
    ensures tail == FittingTail(s)
  {
    if Bytes(s) <= STDERR_TAIL_BYTES {
      return s;
    }
    var boundary := BoundaryFrom(s, Bytes(s) - STDERR_TAIL_BYTES);
    if boundary > 0 {
      BytesSplit(s, boundary - 1);
    }
    DropsOverflow(s, boundary);
    BytesSplit(s, boundary);
    return s[boundary..];
  }

  /** The tail shared between the stderr reader and the waiter. */
  class SharedTail {
    var text: string
    /** Everything appended so far. */
    ghost var whole: string

    ghost predicate Valid()
      reads this
    {
      text == FittingTail(whole)
    }

    constructor ()
      ensures Valid() && whole == ""
    {
      text, whole := "", "";
      new;
      EmptyTail();
    }

    /** Append a chunk; a poisoned lock drops the chunk. */
    method Append(chunk: string, poisoned: bool)
      requires Valid()
      modifies this
      ensures Valid() && whole == if poisoned then old(whole) else old(whole) + chunk
    {
      if poisoned {
        return;
      }
      TailOfTail(whole, chunk);
      text := Trim(text + chunk);
      whole := whole + chunk;
    }
  }

  function Concat(chunks: seq<string>): string {
    if chunks == [] then "" else Concat(chunks[..|chunks| - 1]) + chunks[|chunks| - 1]
  }

  /** After any sequence of chunks the tail is the longest fitting suffix of their concatenation. */
  method AppendAll(chunks: seq<string>) returns (tail: string)
    ensures tail == FittingTail(Concat(chunks))
  {
    var shared := new SharedTail();
    for i := 0 to |chunks|
      invariant shared.Valid() && shared.whole == Concat(chunks[..i])
    {
      assert chunks[..i + 1][..i] == chunks[..i];
      shared.Append(chunks[i], false);
    }
    assert chunks[..|chunks|] == chunks;
    return shared.text;
  }
}
