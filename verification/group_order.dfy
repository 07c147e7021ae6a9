/** Sorted listings of finite sets: what sorting makes of a map walked in any order. */
module Listings {
  import opened Basics

  ghost predicate StrictTotal<T(!new)>(less: (T, T) -> bool) {
    && (forall a :: !less(a, a))
    && (forall a, b, c :: less(a, b) && less(b, c) ==> less(a, c))
    && (forall a, b :: less(a, b) || a == b || less(b, a))
  }

  // s lists the elements of S in increasing order.
  ghost predicate IsListing<T(!new)>(s: seq<T>, S: set<T>, less: (T, T) -> bool) {
    && (forall i, j :: 0 <= i < j < |s| ==> less(s[i], s[j]))
    && (forall x :: x in s <==> x in S)
  }

  lemma FirstIsLeast<T(!new)>(s: seq<T>, S: set<T>, less: (T, T) -> bool, x: T)
    requires StrictTotal(less) && IsListing(s, S, less) && s != [] && x in S
    ensures x == s[0] || less(s[0], x)
  {
    assert x in s;
  }

  lemma RestIsListing<T(!new)>(s: seq<T>, S: set<T>, less: (T, T) -> bool)
    requires StrictTotal(less) && IsListing(s, S, less) && s != []
    ensures s[0] in S && IsListing(s[1..], S - {s[0]}, less)
  {
    forall x ensures x in s[1..] <==> x in S - {s[0]} {
      if x in S - {s[0]} {
        var i :| 0 <= i < |s| && s[i] == x;
        assert s[1..][i - 1] == x;
      }
    }
  }

  /** A set has only one listing. */
  lemma {:induction false} ListingIsUnique<T(!new)>(a: seq<T>, b: seq<T>, S: set<T>, less: (T, T) -> bool)
    requires StrictTotal(less) && IsListing(a, S, less) && IsListing(b, S, less)
    ensures a == b
  {
    assert a != [] ==> a[0] in b;
    assert b != [] ==> b[0] in a;
    if a != [] {
      FirstIsLeast(a, S, less, b[0]);
      FirstIsLeast(b, S, less, a[0]);
      RestIsListing(a, S, less);
      RestIsListing(b, S, less);
      ListingIsUnique(a[1..], b[1..], S - {a[0]}, less);
    }
  }

  function Inserted<T>(s: seq<T>, x: T, less: (T, T) -> bool): seq<T> {
    if s == [] || !less(s[0], x) then [x] + s else [s[0]] + Inserted(s[1..], x, less)
  }

  lemma {:induction false} InsertedIsListing<T(!new)>(s: seq<T>, S: set<T>, x: T, less: (T, T) -> bool)
    requires StrictTotal(less) && IsListing(s, S, less) && x !in S
    ensures IsListing(Inserted(s, x, less), S + {x}, less)
  {
    var r := Inserted(s, x, less);
    if s == [] || !less(s[0], x) {
      forall i | 0 <= i < |s| ensures less(x, s[i]) {
        assert s[i] in S && s[0] in S;
      }
    } else {
      RestIsListing(s, S, less);
      InsertedIsListing(s[1..], S - {s[0]}, x, less);
      forall i | 0 < i < |r| ensures less(s[0], r[i]) {
        assert r[i] in r[1..];
        if r[i] != x {
          FirstIsLeast(s, S, less, r[i]);
        }
      }
    }
  }

  // Sorting, for a sequence without repeats.
  function Sorted<T>(s: seq<T>, less: (T, T) -> bool): seq<T> {
    if s == [] then [] else Inserted(Sorted(s[..|s| - 1], less), s[|s| - 1], less)
  }

  // s lists the elements of S in some order, without repeats.
  ghost predicate Enumerates<T(!new)>(s: seq<T>, S: set<T>) {
    (forall i, j :: 0 <= i < j < |s| ==> s[i] != s[j]) && (forall x :: x in s <==> x in S)
  }

  lemma FrontEnumerates<T(!new)>(s: seq<T>, S: set<T>)
    requires s != [] && Enumerates(s, S)
    ensures s[|s| - 1] in S && Enumerates(s[..|s| - 1], S - {s[|s| - 1]})
  {
    var x := s[|s| - 1];
    assert x in s;
    forall y ensures y in s[..|s| - 1] <==> y in S - {x} {
      if y in S - {x} {
        var i :| 0 <= i < |s| && s[i] == y;
        assert s[..|s| - 1][i] == y;
      }
    }
  }

  /** Sorting gives the listing, whatever the order the elements came in. */
  lemma {:induction false} SortedIsListing<T(!new)>(s: seq<T>, S: set<T>, less: (T, T) -> bool)
    requires StrictTotal(less) && Enumerates(s, S)
    ensures IsListing(Sorted(s, less), S, less)
  {
    if s != [] {
      var x := s[|s| - 1];
      FrontEnumerates(s, S);
      SortedIsListing(s[..|s| - 1], S - {x}, less);
      InsertedIsListing(Sorted(s[..|s| - 1], less), S - {x}, x, less);
      assert S - {x} + {x} == S;
    }
  }

  lemma {:induction false} SomeEnumeration<T(!new)>(S: set<T>) returns (s: seq<T>)
    ensures Enumerates(s, S)
  {
    if S == {} {
      s := [];
    } else {
      var x := SomeMember(S);
      s := SomeEnumeration(S - {x});
      s := s + [x];
    }
  }

  lemma HasListing<T(!new)>(S: set<T>, less: (T, T) -> bool)
    requires StrictTotal(less)
    ensures exists s :: IsListing(s, S, less)
  {
    var s := SomeEnumeration(S);
    SortedIsListing(s, S, less);
  }

  /** The listing of a set: the only one there is. */
  ghost function Listing<T(!new)>(S: set<T>, less: (T, T) -> bool): (s: seq<T>)
    requires StrictTotal(less)
    ensures IsListing(s, S, less)
  {
    HasListing(S, less);
    var s :| IsListing(s, S, less);
    s
  }

  lemma {:induction false} ListingSize<T(!new)>(s: seq<T>, S: set<T>, less: (T, T) -> bool)
    requires StrictTotal(less) && IsListing(s, S, less)
    ensures |s| == |S|
  {
    if s == [] {
      assert S == {};
    } else {
      RestIsListing(s, S, less);
      ListingSize(s[1..], S - {s[0]}, less);
    }
  }

  // The elements of S that come before y.
  ghost function Under<T(!new)>(S: set<T>, less: (T, T) -> bool, y: T): set<T> {
    set x | x in S && less(x, y)
  }

  /** In a listing, an element stands at the position that its predecessors in the set number. */
  lemma {:induction false} ListingRank<T(!new)>(s: seq<T>, S: set<T>, less: (T, T) -> bool, i: nat)
    requires StrictTotal(less) && IsListing(s, S, less) && i < |s|
    ensures |Under(S, less, s[i])| == i
  {
    var smaller := Under(S, less, s[i]);
    if i == 0 {
      forall x <- S ensures !less(x, s[0]) {
        FirstIsLeast(s, S, less, x);
      }
      assert smaller == {};
    } else {
      RestIsListing(s, S, less);
      var rest := Under(S - {s[0]}, less, s[1..][i - 1]);
      ListingRank(s[1..], S - {s[0]}, less, i - 1);
      assert smaller == rest + {s[0]};
    }
  }

  // Lexicographic order.
  predicate Before(a: string, b: string) {
    b != [] && (a == [] || a[0] < b[0] || (a[0] == b[0] && Before(a[1..], b[1..])))
  }

  // a is a proper prefix of b, or has the smaller character where they first differ.
  ghost predicate Lexicographic(a: string, b: string) {
    exists k :: FirstDifference(a, b, k)
  }

  predicate FirstDifference(a: string, b: string, k: int) {
    && 0 <= k <= |a| && k <= |b| && a[..k] == b[..k]
    && if k == |a| then k < |b| else k < |b| && a[k] < b[k]
  }

  lemma {:induction false} BeforeIff(a: string, b: string)
    ensures Before(a, b) <==> Lexicographic(a, b)
  {
    if a == [] || b == [] || a[0] != b[0] {
      assert FirstDifference(a, b, 0) <==> Before(a, b);
      forall k | 0 < k <= |a| && k <= |b| ensures a[..k] != b[..k] {
        assert a[..k][0] != b[..k][0];
      }
    } else {
      BeforeIff(a[1..], b[1..]);
      if Before(a, b) {
        var k :| FirstDifference(a[1..], b[1..], k);
        PrefixFromFirst(a, k);
        PrefixFromFirst(b, k);
        assert FirstDifference(a, b, k + 1);
      }
      if Lexicographic(a, b) {
        var k :| FirstDifference(a, b, k);
        assert k > 0;
        assert a[1..][..k - 1] == a[..k][1..] && b[1..][..k - 1] == b[..k][1..];
        assert FirstDifference(a[1..], b[1..], k - 1);
      }
    }
  }

  lemma {:induction false} BeforeIsTransitive(a: string, b: string, c: string)
    requires Before(a, b) && Before(b, c)
    ensures Before(a, c)
  {
    if a != [] && a[0] == b[0] == c[0] {
      BeforeIsTransitive(a[1..], b[1..], c[1..]);
    }
  }

  lemma {:induction false} BeforeIsStrict(a: string, b: string)
    ensures !Before(a, a)
    ensures Before(a, b) || a == b || Before(b, a)
  {
    if a != [] {
      BeforeIsStrict(a[1..], if b == [] then b else b[1..]);
      if b != [] && a[0] == b[0] && a[1..] == b[1..] {
        assert a == [a[0]] + a[1..] && b == [b[0]] + b[1..];
      }
    }
  }

  lemma BeforeIsTotal()
    ensures StrictTotal(Before)
  {
    forall a, b ensures !Before(a, a) && (Before(a, b) || a == b || Before(b, a)) {
      BeforeIsStrict(a, b);
    }
    forall a, b, c | Before(a, b) && Before(b, c) ensures Before(a, c) {
      BeforeIsTransitive(a, b, c);
    }
  }
}
