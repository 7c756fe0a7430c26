/** Strings as Go compares and splits them. */
module Strings {

  /******* Lexicographic order *******/

  predicate Before(a: string, b: string) {
    a == [] || (b != [] && (a[0] < b[0] || (a[0] == b[0] && Before(a[1..], b[1..]))))
  }

  lemma {:induction false} BeforeTotal(a: string, b: string)
    ensures Before(a, b) || Before(b, a)
    ensures Before(a, b) && Before(b, a) ==> a == b
  {
    if a != [] && b != [] {
      BeforeTotal(a[1..], b[1..]);
      if Before(a, b) && Before(b, a) {
        assert a == [a[0]] + a[1..] && b == [b[0]] + b[1..];
      }
    }
  }

  lemma {:induction false} BeforeReflexive(a: string)
    ensures Before(a, a)
  {
    BeforeTotal(a, a);
  }

  lemma {:induction false} BeforeTransitive(a: string, b: string, c: string)
    requires Before(a, b) && Before(b, c)
    ensures Before(a, c)
  {
    if a != [] {
      if a[0] == b[0] && b[0] == c[0] {
        BeforeTransitive(a[1..], b[1..], c[1..]);
      }
    }
  }

  /******* Sorting *******/

  ghost predicate Sorted(s: seq<string>) {
    forall i, j :: 0 <= i < j < |s| ==> Before(s[i], s[j])
  }

  ghost predicate Distinct<T>(s: seq<T>) {
    forall i, j :: 0 <= i < j < |s| ==> s[i] != s[j]
  }

  ghost function Elements<T>(s: seq<T>): set<T> {
    set x | x in s
  }

  /** There is only one way to put a set of strings in order. */
  lemma {:induction false} SortedUnique(a: seq<string>, b: seq<string>)
    requires Sorted(a) && Sorted(b) && Distinct(a) && Distinct(b) && Elements(a) == Elements(b)
    ensures a == b
  {
    if a == [] {
      if b != [] {
        HeadIn(b);
      }
    } else {
      assert a[0] in Elements(b) && b != [];
      assert b[0] in Elements(a);
      FirstIsLeast(a, b[0]);
      FirstIsLeast(b, a[0]);
      BeforeTotal(a[0], b[0]);
      assert Elements(a[1..]) == Elements(a) - {a[0]} by { TailElements(a); }
      assert Elements(b[1..]) == Elements(b) - {b[0]} by { TailElements(b); }
      SortedUnique(a[1..], b[1..]);
      assert a == [a[0]] + a[1..] && b == [b[0]] + b[1..];
    }
  }

  lemma HeadIn<T>(s: seq<T>)
    requires s != []
    ensures s[0] in Elements(s)
  {
  }

  lemma FirstIsLeast(s: seq<string>, x: string)
    requires Sorted(s) && x in s
    ensures Before(s[0], x)
  {
    BeforeReflexive(s[0]);
  }

  lemma TailElements<T>(s: seq<T>)
    requires s != [] && Distinct(s)
    ensures Elements(s[1..]) == Elements(s) - {s[0]}
  {
    assert s == [s[0]] + s[1..];
    assert forall x :: x in s[1..] ==> x != s[0];
  }

  /** `sort.Strings` on distinct strings. */
  method Sort(s: seq<string>) returns (r: seq<string>)
    requires Distinct(s)
    ensures Sorted(r) && Distinct(r) && Elements(r) == Elements(s)
  {
    r := [];
    for i := 0 to |s|
      invariant Sorted(r) && Distinct(r) && Elements(r) == Elements(s[..i])
    {
      assert s[..i + 1] == s[..i] + [s[i]];
      assert s[i] !in s[..i];
      assert s[i] !in Elements(s[..i]);
      r := Insert(r, s[i]);
    }
    assert s[..|s|] == s;
  }

  method Insert(s: seq<string>, x: string) returns (r: seq<string>)
    requires Sorted(s) && Distinct(s) && x !in s
    ensures Sorted(r) && Distinct(r) && Elements(r) == Elements(s) + {x}
  {
    var i := 0;
    while i < |s| && Before(s[i], x)
      invariant 0 <= i <= |s|
      invariant forall j :: 0 <= j < i ==> Before(s[j], x)
    {
      i := i + 1;
    }
    forall j | i <= j < |s| ensures Before(x, s[j]) {
      BeforeTotal(s[i], x);
      if i < j {
        BeforeTransitive(x, s[i], s[j]);
      }
    }
    r := s[..i] + [x] + s[i..];
    Inserted(s, i, x, r);
  }

  lemma Inserted(s: seq<string>, i: nat, x: string, r: seq<string>)
    requires Sorted(s) && Distinct(s) && x !in s && i <= |s| && r == s[..i] + [x] + s[i..]
    requires forall j :: 0 <= j < i ==> Before(s[j], x)
    requires forall j :: i <= j < |s| ==> Before(x, s[j])
    ensures Sorted(r) && Distinct(r) && Elements(r) == Elements(s) + {x}
  {
    InsertedAt(s, i, x, r);
  }

  lemma InsertedAt<T>(s: seq<T>, i: nat, x: T, r: seq<T>)
    requires i <= |s| && r == s[..i] + [x] + s[i..]
    ensures |r| == |s| + 1 && forall k :: 0 <= k < |r| ==>
      r[k] == if k < i then s[k] else if k == i then x else s[k - 1]
    ensures Elements(r) == Elements(s) + {x}
    ensures Distinct(s) && x !in s ==> Distinct(r)
  {
    assert s == s[..i] + s[i..];
  }

  /** A set of strings in order. */
  ghost function InOrder(s: set<string>): (r: seq<string>)
    ensures Sorted(r) && Distinct(r) && Elements(r) == s
  {
    if s == {} then [] else
      LeastExists(s);
      var x :| Least(s, x);
      Prepended(x, InOrder(s - {x}), s);
      [x] + InOrder(s - {x})
  }

  lemma Prepended(x: string, rest: seq<string>, s: set<string>)
    requires Sorted(rest) && Distinct(rest) && Elements(rest) == s - {x}
    requires x in s && forall y :: y in s ==> Before(x, y)
    ensures Sorted([x] + rest) && Distinct([x] + rest) && Elements([x] + rest) == s
  {
    assert forall i :: 0 <= i < |rest| ==> rest[i] in Elements(rest);
    assert Elements([x] + rest) == {x} + Elements(rest);
  }

  ghost predicate Least(s: set<string>, x: string) {
    x in s && forall y :: y in s ==> Before(x, y)
  }

  lemma {:induction false} LeastExists(s: set<string>)
    requires s != {}
    ensures exists x :: Least(s, x)
  {
    var a :| a in s;
    var rest := s - {a};
    if rest == {} {
      BeforeReflexive(a);
      assert s == {a};
      assert Least(s, a);
    } else {
      LeastExists(rest);
      var b :| Least(rest, b);
      LesserOf(s, a, b);
    }
  }

  lemma LesserOf(s: set<string>, a: string, b: string)
    requires a in s && Least(s - {a}, b)
    ensures Least(s, a) || Least(s, b)
  {
    BeforeTotal(a, b);
    BeforeReflexive(a);
    if Before(a, b) {
      forall y | y in s ensures Before(a, y) {
        if y != a {
          BeforeTransitive(a, b, y);
        }
      }
    }
  }

  /******* Splitting *******/

  /** `strings.Split` at a single character. */
  function Split(s: string, c: char): (r: seq<string>)
    ensures |r| >= 1
  {
    if s == [] then [[]]
    else if s[0] == c then [[]] + Split(s[1..], c)
    else
      var rest := Split(s[1..], c);
      [[s[0]] + rest[0]] + rest[1..]
  }

  /** Splitting gives a token for every separator and one more. */
  lemma {:induction false} SplitHead(a: string, c: char, b: string)
    requires c !in a
    ensures Split(a + [c] + b, c) == [a] + Split(b, c)
  {
    if a == [] {
      assert a + [c] + b == [c] + b;
      assert ([c] + b)[1..] == b;
    } else {
      var s := a + [c] + b;
      assert s[1..] == a[1..] + [c] + b;
      SplitHead(a[1..], c, b);
      assert [s[0]] + a[1..] == a;
      assert ([a[1..]] + Split(b, c))[1..] == Split(b, c);
    }
  }

  lemma {:induction false} SplitWhole(a: string, c: char)
    requires c !in a
    ensures Split(a, c) == [a]
  {
    if a != [] {
      SplitWhole(a[1..], c);
      assert [a[0]] + a[1..] == a;
    }
  }

  /** Where the character occurs first. */
  lemma {:induction false} FirstSplit(s: string, c: char) returns (a: string, b: string)
    requires c in s
    ensures s == a + [c] + b && c !in a
  {
    if s[0] == c {
      a, b := [], s[1..];
      assert s == [c] + s[1..];
    } else {
      assert s == [s[0]] + s[1..];
      var a', b' := FirstSplit(s[1..], c);
      a, b := [s[0]] + a', b';
      assert s == a + [c] + b;
    }
  }
}
