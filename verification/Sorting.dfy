/** Sorted lists without repetition, over any strict total order. */
module Sorting {
  import opened Basics

  ghost predicate StrictOrder<T(!new)>(lt: (T, T) -> bool) {
    && (forall a :: !lt(a, a))
    && (forall a, b, c :: lt(a, b) && lt(b, c) ==> lt(a, c))
    && (forall a, b :: a == b || lt(a, b) || lt(b, a))
  }

  predicate Increasing<T>(lt: (T, T) -> bool, s: seq<T>) {
    forall i, j | 0 <= i < j < |s| :: lt(s[i], s[j])
  }

  function Elements<T>(s: seq<T>): set<T> {
    set x | x in s
  }

  function Insert<T(==)>(lt: (T, T) -> bool, x: T, s: seq<T>): seq<T> {
    if s == [] then [x]
    else if x == s[0] then s
    else if lt(x, s[0]) then [x] + s
    else [s[0]] + Insert(lt, x, s[1..])
  }

  /** The elements of `s`, sorted, each once. */
  function Sort<T(==)>(lt: (T, T) -> bool, s: seq<T>): seq<T> {
    if s == [] then [] else Insert(lt, s[0], Sort(lt, s[1..]))
  }

  lemma {:induction false} InsertKeeps<T(!new)>(lt: (T, T) -> bool, x: T, s: seq<T>)
    requires StrictOrder(lt) && Increasing(lt, s)
    ensures Increasing(lt, Insert(lt, x, s))
    ensures forall y :: y in Insert(lt, x, s) <==> y == x || y in s
  {
    if s != [] && x != s[0] && !lt(x, s[0]) {
      InsertKeeps(lt, x, s[1..]);
      var r := Insert(lt, x, s);
      var rest := Insert(lt, x, s[1..]);
      forall y | y in rest ensures lt(s[0], y) {
        if y != x {
          var k :| 0 <= k < |s[1..]| && s[1..][k] == y;
          assert y == s[k + 1];
        }
      }
      forall i, j | 0 <= i < j < |r| ensures lt(r[i], r[j]) {
        if i == 0 { assert r[j] == rest[j - 1]; }
      }
    }
  }

  lemma {:induction false} SortSorts<T(!new)>(lt: (T, T) -> bool, s: seq<T>)
    requires StrictOrder(lt)
    ensures Increasing(lt, Sort(lt, s))
    ensures Elements(Sort(lt, s)) == Elements(s)
  {
    if s != [] {
      SortSorts(lt, s[1..]);
      InsertKeeps(lt, s[0], Sort(lt, s[1..]));
      forall y ensures y in Sort(lt, s) <==> y in s {
        assert y in Sort(lt, s[1..]) <==> y in Elements(Sort(lt, s[1..]));
        assert y in s[1..] <==> y in Elements(s[1..]);
      }
    }
  }

  lemma FirstElement<T>(s: seq<T>)
    ensures s != [] ==> s[0] in Elements(s)
  {
    FirstIsIn(s);
  }

  /** A set has one increasing listing. */
  lemma {:induction false} OneListing<T(!new)>(lt: (T, T) -> bool, a: seq<T>, b: seq<T>)
    requires StrictOrder(lt) && Increasing(lt, a) && Increasing(lt, b) && Elements(a) == Elements(b)
    ensures a == b
  {
    FirstElement(a);
    FirstElement(b);
    if a != [] {
      assert a[0] in Elements(a) && a[0] in Elements(b);
      if b == [] {
        assert false;
      } else {
        assert b[0] in Elements(b) && b[0] in Elements(a);
        var i :| 0 <= i < |b| && b[i] == a[0];
        var j :| 0 <= j < |a| && a[j] == b[0];
        assert a[0] == b[0];
        forall y ensures y in Elements(a[1..]) <==> y in Elements(b[1..]) {
          TailElements(lt, a, y);
          TailElements(lt, b, y);
        }
        OneListing(lt, a[1..], b[1..]);
      }
    }
  }

  lemma TailElements<T(!new)>(lt: (T, T) -> bool, s: seq<T>, y: T)
    requires StrictOrder(lt) && Increasing(lt, s) && s != []
    ensures y in Elements(s[1..]) <==> y in Elements(s) && y != s[0]
  {
    if y in s && y != s[0] {
      var k :| 0 <= k < |s| && s[k] == y;
      assert s[1..][k - 1] == y;
    }
    if y in s[1..] {
      var k :| 0 <= k < |s[1..]| && s[1..][k] == y;
      assert lt(s[0], s[k + 1]);
    }
  }

  /** Sorting depends on the elements alone. */
  lemma SortByElements<T(!new)>(lt: (T, T) -> bool, a: seq<T>, b: seq<T>)
    requires StrictOrder(lt) && Elements(a) == Elements(b)
    ensures Sort(lt, a) == Sort(lt, b)
  {
    SortSorts(lt, a);
    SortSorts(lt, b);
    OneListing(lt, Sort(lt, a), Sort(lt, b));
  }

  /** No element occurs twice in an increasing list. */
  lemma IncreasingDistinct<T(!new)>(lt: (T, T) -> bool, s: seq<T>)
    requires StrictOrder(lt) && Increasing(lt, s)
    ensures forall i, j | 0 <= i < j < |s| :: s[i] != s[j]
    ensures |Elements(s)| == |s|
  {
    DistinctSize(s);
  }

  lemma {:induction false} DistinctSize<T>(s: seq<T>)
    requires forall i, j | 0 <= i < j < |s| :: s[i] != s[j]
    ensures |Elements(s)| == |s|
  {
    if s != [] {
      DistinctSize(s[1..]);
      assert Elements(s) == {s[0]} + Elements(s[1..]);
    }
  }
}
