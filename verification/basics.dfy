/** Facts about sets, sequences and division shared by the other modules. */
module Basics {

  // Any element: the order in which a map is walked is not specified.
  method AnyOf<T>(s: set<T>) returns (x: T)
    requires s != {}
    ensures x in s
  {
    x :| x in s;
  }

  lemma SliceOneMore<T>(s: seq<T>, from: int, to: int)
    requires 0 <= from <= to < |s|
    ensures s[from..to] + [s[to]] == s[from..to + 1]
  {
  }

  lemma PrefixFromFirst<T>(s: seq<T>, k: nat)
    requires k < |s|
    ensures s[..k + 1] == [s[0]] + s[1..][..k]
  {
  }

  lemma JoinIsAssociative<T>(a: seq<T>, b: seq<T>, c: seq<T>)
    ensures a + b + c == a + (b + c)
  {
  }

  lemma SliceOfPrefix<T>(s: seq<T>, p: seq<T>, from: int, to: int)
    requires p <= s && 0 <= from <= to <= |p|
    ensures s[from..to] == p[from..to]
  {
    assert s[..|p|] == p;
  }

  lemma SliceOfRest<T>(s: seq<T>, drop: nat, at: nat, len: nat)
    requires drop + at + len <= |s|
    ensures s[drop..][at..at + len] == s[drop + at..drop + at + len]
  {
  }

  lemma SomeMember<T>(s: set<T>) returns (x: T)
    requires s != {}
    ensures x in s
  {
    x :| x in s;
  }

  lemma {:induction false} SubsetSize<T>(a: set<T>, b: set<T>)
    requires a <= b
    ensures |a| <= |b|
    ensures |a| == |b| ==> a == b
  {
    if a != {} {
      var x := SomeMember(a);
      SubsetSize(a - {x}, b - {x});
    }
  }

  /** Two subsets whose sizes add up to more than the whole share an element. */
  lemma BigSetsMeet<T>(a: set<T>, b: set<T>, whole: set<T>) returns (x: T)
    requires a <= whole && b <= whole
    requires |a| + |b| > |whole|
    ensures x in a && x in b
  {
    if a * b == {} {
      assert |a + b| == |a| + |b|;
      SubsetSize(a + b, whole);
      assert false;
    }
    x := SomeMember(a * b);
  }

  lemma TimesMonotone(a: int, b: int, m: nat)
    requires a < b
    ensures a * m + m <= b * m
  {
    assert b * m - a * m - m == (b - a - 1) * m;
    assert (b - a - 1) * m >= 0;
  }

  lemma QuotientIs(d: int, q: int, r: int, m: nat)
    requires m > 0 && d == q * m + r && 0 <= r < m
    ensures d / m == q && d % m == r
  {
    var p := d / m;
    assert d == p * m + d % m;
    if p > q {
      TimesMonotone(q, p, m);
    } else if p < q {
      TimesMonotone(p, q, m);
    }
  }
}
