/** Finite sets in order: sorting for ORDER BY, maxima for MAX, and the
    contiguous head of a set of sequence numbers. */
module Ordering {
  import opened Base

  /** The byte order of UTF-8, which is that of the code points. */
  predicate Less(s: string, t: string) {
    t != "" && (s == "" || s[0] < t[0] || (s[0] == t[0] && Less(s[1..], t[1..])))
  }

  /** The texts are equal before position n, where s ends or has the smaller character. */
  predicate Differs(s: string, t: string, n: nat) {
    n <= |s| && n < |t| && s[..n] == t[..n] && (n == |s| || s[n] < t[n])
  }

  lemma {:induction false} DifferenceDecides(s: string, t: string, n: nat)
    requires Differs(s, t, n)
    ensures Less(s, t)
  {
    if n > 0 {
      assert s[..n][0] == t[..n][0];
      assert s[1..][..n - 1] == s[..n][1..] == t[1..][..n - 1];
      DifferenceDecides(s[1..], t[1..], n - 1);
    }
  }

  lemma {:induction false} LessDiffers(s: string, t: string) returns (n: nat)
    requires Less(s, t)
    ensures Differs(s, t, n)
  {
    n := 0;
    if s != "" && s[0] == t[0] {
      var m := LessDiffers(s[1..], t[1..]);
      n := m + 1;
      assert s[..n] == [s[0]] + s[1..][..m] && t[..n] == [t[0]] + t[1..][..m];
    }
  }

  /** The first difference decides, and what goes on is greater than what ends. */
  lemma LessExactly(s: string, t: string)
    ensures Less(s, t) <==> exists n: nat :: Differs(s, t, n)
  {
    if Less(s, t) {
      var n := LessDiffers(s, t);
    }
    if n: nat :| Differs(s, t, n) {
      DifferenceDecides(s, t, n);
    }
  }

  lemma {:induction false} LessIsTotal(s: string, t: string)
    ensures s != t ==> Less(s, t) || Less(t, s)
  {
    if s != "" && t != "" {
      LessIsTotal(s[1..], t[1..]);
      assert s == [s[0]] + s[1..] && t == [t[0]] + t[1..];
    }
  }

  lemma {:induction false} LessIsTransitive(r: string, s: string, t: string)
    requires Less(r, s) && Less(s, t)
    ensures Less(r, t)
  {
    if r != "" && r[0] == s[0] && s[0] == t[0] {
      LessIsTransitive(r[1..], s[1..], t[1..]);
    }
  }

  lemma {:induction false} LessIsStrict(s: string)
    ensures !Less(s, s)
  {
    if s != "" {
      LessIsStrict(s[1..]);
    }
  }

  /** A row of sort columns, compared in the order of the arguments, except that the text
      comes before the last number. */
  datatype SortKey = SortKey(first: int, second: nat, third: int, fourth: nat, text: string := "")

  predicate Before(a: SortKey, b: SortKey) {
    if a.first != b.first then a.first < b.first
    else if a.second != b.second then a.second < b.second
    else if a.third != b.third then a.third < b.third
    else if a.text != b.text then Less(a.text, b.text)
    else a.fourth < b.fourth
  }

  lemma BeforeIsTotal(a: SortKey, b: SortKey)
    ensures a != b ==> Before(a, b) || Before(b, a)
  {
    LessIsTotal(a.text, b.text);
  }

  lemma BeforeIsTransitive(a: SortKey, b: SortKey, c: SortKey)
    requires Before(a, b) && Before(b, c)
    ensures Before(a, c)
  {
    if Less(a.text, b.text) && Less(b.text, c.text) {
      LessIsTransitive(a.text, b.text, c.text);
    }
    LessIsStrict(a.text);
  }

  predicate IsLeast(x: SortKey, s: set<SortKey>) {
    x in s && forall y :: y in s && y != x ==> Before(x, y)
  }

  lemma {:induction false} LeastExists(s: set<SortKey>)
    requires s != {}
    ensures exists x :: IsLeast(x, s)
  {
    var a :| a in s;
    if s == {a} {
      assert IsLeast(a, s);
    } else {
      var rest := s - {a};
      LeastExists(rest);
      var m :| IsLeast(m, rest);
      var least := if Before(a, m) then a else m;
      forall y | y in s && y != least
        ensures Before(least, y)
      {
        assert y == a || y in rest;
        BeforeIsTotal(a, m);
        if y != a && y != m && least == a {
          BeforeIsTransitive(a, m, y);
        }
      }
      assert IsLeast(least, s);
    }
  }

  lemma LeastIsUnique(s: set<SortKey>)
    ensures forall x, y :: IsLeast(x, s) && IsLeast(y, s) ==> x == y
  {
    forall x, y | IsLeast(x, s) && IsLeast(y, s)
      ensures x == y
    {
      if x != y {
        BeforeIsTransitive(x, y, x);
        LessIsStrict(x.text);
      }
    }
  }

  function Sort(s: set<SortKey>): seq<SortKey> {
    if s == {} then []
    else
      LeastExists(s);
      LeastIsUnique(s);
      var x :| IsLeast(x, s);
      [x] + Sort(s - {x})
  }

  predicate Ascending(xs: seq<SortKey>) {
    forall i, j :: 0 <= i < j < |xs| ==> Before(xs[i], xs[j])
  }

  /** Sorting lists each element once, in strictly ascending order. */
  lemma {:induction false} SortCorrect(s: set<SortKey>)
    ensures Ascending(Sort(s))
    ensures |Sort(s)| == |s|
    ensures forall x :: x in Sort(s) <==> x in s
  {
    if s != {} {
      LeastExists(s);
      var x :| IsLeast(x, s) && Sort(s) == [x] + Sort(s - {x});
      SortCorrect(s - {x});
      var rest := Sort(s - {x});
      assert forall j :: 0 <= j < |rest| ==> rest[j] in s - {x};
    }
  }

  lemma {:induction false} MaxExists(s: set<int>)
    requires s != {}
    ensures exists m :: m in s && forall x :: x in s ==> x <= m
  {
    assert (forall a: int :: a !in s) ==> s == {};
    var a: int :| a in s;
    if s != {a} {
      MaxExists(s - {a});
      var m :| m in s - {a} && forall x :: x in s - {a} ==> x <= m;
      var top := Max(a, m);
      assert forall x :: x in s ==> x == a || x in s - {a};
      assert top in s && forall x :: x in s ==> x <= top;
    }
  }

  /** COALESCE(MAX(column), fallback). */
  function MaxOr(s: set<int>, fallback: int): (m: int)
    ensures s == {} ==> m == fallback
    ensures s != {} ==> m in s
    ensures forall x :: x in s ==> x <= m
  {
    if s == {} then fallback
    else
      MaxExists(s);
      var m :| m in s && forall x :: x in s ==> x <= m;
      m
  }

  /** All of 1..n are in the set. */
  predicate HoldsUpTo(s: set<int>, n: int) {
    forall i :: 1 <= i <= n ==> i in s
  }

  predicate IsHead(s: set<int>, n: nat) {
    HoldsUpTo(s, n) && n + 1 !in s
  }

  /** The greatest n such that 1..n are all in the set. */
  function Head(s: set<int>): (n: nat)
    ensures IsHead(s, n)
  {
    HeadFrom(s, 0)
  }

  function HeadFrom(s: set<int>, n: nat): (m: nat)
    requires HoldsUpTo(s, n)
    ensures IsHead(s, m)
    decreases set x | x in s && x > n
  {
    if n + 1 in s then
      assert (set x | x in s && x > n) == (set x | x in s && x > n + 1) + {n + 1};
      HeadFrom(s, n + 1)
    else n
  }

  lemma HeadUnique(s: set<int>, n: nat)
    requires IsHead(s, n)
    ensures Head(s) == n
  {
    var m := Head(s);
    assert m < n ==> m + 1 in s;
    assert n < m ==> n + 1 in s;
  }
}
