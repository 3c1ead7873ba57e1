/** Stable sorting by a total preorder. */
module Sorting {
  import opened Common

  ghost predicate TotalPreorder<T(!new)>(le: (T, T) -> bool) {
    && (forall x, y :: le(x, y) || le(y, x))
    && (forall x, y, z :: le(x, y) && le(y, z) ==> le(x, z))
  }

  ghost predicate Sorted<T>(s: seq<T>, le: (T, T) -> bool) {
    forall i, j :: 0 <= i < j < |s| ==> le(s[i], s[j])
  }

  predicate Ties<T>(x: T, y: T, le: (T, T) -> bool) { le(x, y) && le(y, x) }

  /** The elements that tie with `x`, in order. */
  function TiesOf<T>(s: seq<T>, x: T, le: (T, T) -> bool): seq<T> {
    if s == [] then [] else (if Ties(x, s[0], le) then [s[0]] else []) + TiesOf(s[1..], x, le)
  }

  /** Insert after everything that is not greater. */
  function Insert<T>(s: seq<T>, x: T, le: (T, T) -> bool): seq<T> {
    if s != [] && le(s[0], x) then [s[0]] + Insert(s[1..], x, le) else [x] + s
  }

  function StableSort<T>(s: seq<T>, le: (T, T) -> bool): seq<T> {
    if s == [] then [] else Insert(StableSort(s[..|s| - 1], le), s[|s| - 1], le)
  }

  lemma {:induction false} InsertKeepsElements<T>(s: seq<T>, x: T, le: (T, T) -> bool)
    ensures multiset(Insert(s, x, le)) == multiset(s) + multiset{x}
  {
    if s != [] && le(s[0], x) {
      InsertKeepsElements(s[1..], x, le);
      assert s == [s[0]] + s[1..];
    }
  }

  lemma {:induction false} SortKeepsElements<T>(s: seq<T>, le: (T, T) -> bool)
    ensures multiset(StableSort(s, le)) == multiset(s)
    ensures |StableSort(s, le)| == |s|
  {
    if s != [] {
      var front, last := s[..|s| - 1], s[|s| - 1];
      SortKeepsElements(front, le);
      InsertKeepsElements(StableSort(front, le), last, le);
      assert s == front + [last];
    }
    assert |multiset(StableSort(s, le))| == |multiset(s)|;
  }

  lemma {:induction false} InsertSorts<T(!new)>(s: seq<T>, x: T, le: (T, T) -> bool)
    requires TotalPreorder(le) && Sorted(s, le)
    ensures Sorted(Insert(s, x, le), le)
  {
    var r := Insert(s, x, le);
    if s != [] && le(s[0], x) {
      InsertSorts(s[1..], x, le);
      InsertKeepsElements(s[1..], x, le);
      forall j | 0 < j < |r| ensures le(r[0], r[j]) {
        assert r[j] == Insert(s[1..], x, le)[j - 1];
        assert r[j] in multiset(Insert(s[1..], x, le));
        assert r[j] in multiset(s[1..]) || r[j] == x;
      }
    } else if s != [] {
      assert le(x, s[0]);
    }
  }

  lemma {:induction false} SortSorts<T(!new)>(s: seq<T>, le: (T, T) -> bool)
    requires TotalPreorder(le)
    ensures Sorted(StableSort(s, le), le)
  {
    if s != [] {
      SortSorts(s[..|s| - 1], le);
      InsertSorts(StableSort(s[..|s| - 1], le), s[|s| - 1], le);
    }
  }

  lemma TiesOfCons<T>(c: T, s: seq<T>, x: T, le: (T, T) -> bool)
    ensures TiesOf([c] + s, x, le) == (if Ties(x, c, le) then [c] else []) + TiesOf(s, x, le)
  {
    assert ([c] + s)[1..] == s;
  }

  lemma {:induction false} TiesOfConcat<T>(a: seq<T>, b: seq<T>, x: T, le: (T, T) -> bool)
    ensures TiesOf(a + b, x, le) == TiesOf(a, x, le) + TiesOf(b, x, le)
  {
    if a == [] {
      assert a + b == b;
    } else {
      var c, rest := a[0], a[1..];
      assert a == [c] + rest;
      ConcatAssociates([c], rest, b);
      TiesOfCons(c, rest, x, le);
      TiesOfCons(c, rest + b, x, le);
      TiesOfConcat(rest, b, x, le);
    }
  }

  lemma {:induction false} NoTies<T>(s: seq<T>, x: T, le: (T, T) -> bool)
    requires forall i :: 0 <= i < |s| ==> !Ties(x, s[i], le)
    ensures TiesOf(s, x, le) == []
  {
    if s != [] { NoTies(s[1..], x, le); }
  }

  lemma {:induction false} InsertIsStable<T(!new)>(s: seq<T>, added: T, x: T, le: (T, T) -> bool)
    requires TotalPreorder(le) && Sorted(s, le)
    ensures TiesOf(Insert(s, added, le), x, le) == TiesOf(s + [added], x, le)
  {
    if s != [] && le(s[0], added) {
      InsertIsStable(s[1..], added, x, le);
      TiesOfConcat([s[0]], Insert(s[1..], added, le), x, le);
      TiesOfConcat([s[0]], s[1..] + [added], x, le);
      assert s + [added] == [s[0]] + (s[1..] + [added]);
    } else {
      TiesOfConcat([added], s, x, le);
      TiesOfConcat(s, [added], x, le);
      if Ties(x, added, le) {
        forall i | 0 <= i < |s| ensures !Ties(x, s[i], le) {
          assert le(s[0], s[i]);
        }
        NoTies(s, x, le);
      } else {
        NoTies([added], x, le);
      }
    }
  }

  /** Elements that tie keep their order. */
  lemma {:induction false} SortIsStable<T(!new)>(s: seq<T>, x: T, le: (T, T) -> bool)
    requires TotalPreorder(le)
    ensures TiesOf(StableSort(s, le), x, le) == TiesOf(s, x, le)
  {
    if s != [] {
      var front, last := s[..|s| - 1], s[|s| - 1];
      SortIsStable(front, x, le);
      SortSorts(front, le);
      InsertIsStable(StableSort(front, le), last, x, le);
      TiesOfConcat(StableSort(front, le), [last], x, le);
      TiesOfConcat(front, [last], x, le);
      assert s == front + [last];
    }
  }

  // ---- text order ----

  /** Lexicographic order of texts. */
  predicate TextLe(a: string, b: string) {
    a == [] || (b != [] && (a[0] < b[0] || (a[0] == b[0] && TextLe(a[1..], b[1..]))))
  }

  lemma {:induction false} TextLeTotal(a: string, b: string)
    ensures TextLe(a, b) || TextLe(b, a)
    ensures TextLe(a, b) && TextLe(b, a) ==> a == b
  {
    if a != [] && b != [] && a[0] == b[0] {
      TextLeTotal(a[1..], b[1..]);
      assert a == [a[0]] + a[1..] && b == [b[0]] + b[1..];
    }
  }

  lemma {:induction false} TextLeTransitive(a: string, b: string, c: string)
    requires TextLe(a, b) && TextLe(b, c)
    ensures TextLe(a, c)
  {
    if a != [] && a[0] == b[0] && b[0] == c[0] { TextLeTransitive(a[1..], b[1..], c[1..]); }
  }
}
