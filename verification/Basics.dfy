/** Options, and the string order and sorting that Go's `sort.Strings` provides. */
module Basics {

  datatype Option<+T> = None | Some(value: T)

  /** Unicode white space, as `strings.TrimSpace` removes it. */
  predicate IsSpace(c: char)
  {
    '\t' <= c <= '\r' || c == ' ' || c == '\U{0085}' || c == '\U{00A0}' || c == '\U{1680}'
    || '\U{2000}' <= c <= '\U{200A}' || c == '\U{2028}' || c == '\U{2029}' || c == '\U{202F}'
    || c == '\U{205F}' || c == '\U{3000}'
  }

  predicate Blank(s: string)
  {
    forall i | 0 <= i < |s| :: IsSpace(s[i])
  }

  /** Lexicographic order, as used by `sort.Strings`. */
  predicate Leq(a: string, b: string)
  {
    a == "" || (b != "" && (a[0] < b[0] || (a[0] == b[0] && Leq(a[1..], b[1..]))))
  }

  lemma {:induction false} LeqTotal(a: string, b: string)
    ensures Leq(a, b) || Leq(b, a)
    ensures Leq(a, a)
  {
    if a != "" {
      LeqTotal(a[1..], if b == "" then "" else b[1..]);
    }
  }

  lemma {:induction false} LeqAntisymmetric(a: string, b: string)
    requires Leq(a, b) && Leq(b, a)
    ensures a == b
  {
    if a != "" {
      LeqAntisymmetric(a[1..], b[1..]);
      assert a == [a[0]] + a[1..] && b == [b[0]] + b[1..];
    }
  }

  lemma {:induction false} LeqTransitive(a: string, b: string, c: string)
    requires Leq(a, b) && Leq(b, c)
    ensures Leq(a, c)
  {
    if a != "" && a[0] == b[0] && b[0] == c[0] {
      LeqTransitive(a[1..], b[1..], c[1..]);
    }
  }

  predicate IsLeast(x: string, s: set<string>)
  {
    x in s && forall y | y in s :: Leq(x, y)
  }

  lemma {:induction false} LeastExists(s: set<string>) returns (x: string)
    requires s != {}
    ensures IsLeast(x, s)
    decreases |s|
  {
    var z :| z in s;
    LeqTotal(z, z);
    if s == {z} {
      x := z;
    } else {
      var rest := s - {z};
      assert s == rest + {z};
      var m := LeastExists(rest);
      LeqTotal(z, m);
      if Leq(z, m) {
        x := z;
        forall y | y in s ensures Leq(x, y) {
          if y != z { LeqTransitive(z, m, y); }
        }
      } else {
        x := m;
      }
    }
  }

  function Least(s: set<string>): (x: string)
    requires s != {}
    ensures IsLeast(x, s)
  {
    assert exists x :: IsLeast(x, s) by { var w := LeastExists(s); }
    assert forall x, y | IsLeast(x, s) && IsLeast(y, s) :: x == y by {
      forall x, y | IsLeast(x, s) && IsLeast(y, s) ensures x == y { LeqAntisymmetric(x, y); }
    }
    var x :| x in s && IsLeast(x, s);
    x
  }

  ghost predicate StrictlySorted(q: seq<string>)
  {
    forall i, j | 0 <= i < j < |q| :: Leq(q[i], q[j]) && q[i] != q[j]
  }

  /** The keys of a map in the order Go obtains by collecting and sorting them. */
  function SortedKeys(s: set<string>): (q: seq<string>)
    ensures forall x :: x in q <==> x in s
    ensures |q| == |s|
    decreases |s|
  {
    if s == {} then [] else
      var x := Least(s);
      [x] + SortedKeys(s - {x})
  }

  lemma {:induction false} SortedKeysSorted(s: set<string>)
    ensures StrictlySorted(SortedKeys(s))
    decreases |s|
  {
    if s != {} {
      var x := Least(s);
      var rest := SortedKeys(s - {x});
      SortedKeysSorted(s - {x});
      forall i | 0 <= i < |rest| ensures Leq(x, rest[i]) && x != rest[i] { assert rest[i] in rest; }
    }
  }

  /** A strictly sorted listing is determined by its elements. */
  lemma {:induction false} StrictlySortedUnique(p: seq<string>, q: seq<string>)
    requires StrictlySorted(p) && StrictlySorted(q)
    requires forall x :: x in p <==> x in q
    ensures p == q
  {
    if |q| > 0 { assert q[0] in p; }
    if |p| > 0 {
      assert p[0] in q;
      var i :| 0 <= i < |q| && q[i] == p[0];
      assert q[0] in q;
      var j :| 0 <= j < |p| && p[j] == q[0];
      LeqTotal(p[0], p[0]);
      LeqTotal(q[0], q[0]);
      LeqAntisymmetric(p[0], q[0]);
      forall x ensures x in p[1..] <==> x in q[1..] {
        if x in p[1..] { assert x in p && x != p[0]; }
        if x in q[1..] { assert x in q && x != q[0]; }
      }
      StrictlySortedUnique(p[1..], q[1..]);
      assert p == [p[0]] + p[1..] && q == [q[0]] + q[1..];
    }
  }

  ghost predicate Sorted(q: seq<string>)
  {
    forall i, j | 0 <= i < j < |q| :: Leq(q[i], q[j])
  }

  function Insert(x: string, q: seq<string>): (r: seq<string>)
    requires Sorted(q)
    ensures Sorted(r) && multiset(r) == multiset(q) + multiset{x}
    ensures |r| == |q| + 1
  {
    if q == [] then [x]
    else if Leq(x, q[0]) then
      assert forall j | 0 <= j < |q| :: Leq(x, q[j]) by {
        forall j | 0 <= j < |q| ensures Leq(x, q[j]) { if j > 0 { LeqTransitive(x, q[0], q[j]); } }
      }
      [x] + q
    else
      var rest := Insert(x, q[1..]);
      assert q == [q[0]] + q[1..];
      assert Leq(q[0], x) by { LeqTotal(q[0], x); }
      assert forall y | y in rest :: Leq(q[0], y) by {
        forall y | y in rest ensures Leq(q[0], y) {
          assert y in multiset(rest);
          assert y == x || y in q[1..];
        }
      }
      [q[0]] + rest
  }

  /** `sort.Strings` on a copy, keeping duplicates. */
  function SortStrings(q: seq<string>): (r: seq<string>)
    ensures Sorted(r) && multiset(r) == multiset(q) && |r| == |q|
  {
    if q == [] then [] else
      assert q == [q[0]] + q[1..];
      Insert(q[0], SortStrings(q[1..]))
  }

  lemma {:induction false} SortedHead(p: seq<string>, q: seq<string>)
    requires Sorted(p) && Sorted(q) && multiset(p) == multiset(q) && |p| > 0
    ensures |q| > 0 && p[0] == q[0]
  {
    assert p[0] in multiset(q);
    assert |q| > 0 && q[0] in multiset(p);
    var i :| 0 <= i < |q| && q[i] == p[0];
    var j :| 0 <= j < |p| && p[j] == q[0];
    LeqTotal(p[0], p[0]);
    LeqAntisymmetric(p[0], q[0]);
  }

  /** A sorted listing is determined by its elements counted with repetition. */
  lemma {:induction false} SortedUnique(p: seq<string>, q: seq<string>)
    requires Sorted(p) && Sorted(q) && multiset(p) == multiset(q)
    ensures p == q
  {
    if |p| > 0 {
      SortedHead(p, q);
      assert p == [p[0]] + p[1..] && q == [q[0]] + q[1..];
      assert multiset(p[1..]) == multiset(p) - multiset{p[0]};
      assert multiset(q[1..]) == multiset(q) - multiset{q[0]};
      SortedUnique(p[1..], q[1..]);
    } else {
      assert |multiset(p)| == 0 == |q|;
    }
  }
}
