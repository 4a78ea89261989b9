/** Ordering of strings for the `ORDER BY` clauses of the catalog queries:
    lexicographic by character code, and the listing of a set of strings
    in that order. */
module Order {

  /** `a` sorts before or equal to `b`, character by character, a proper
      prefix sorting first. */
  predicate StrLe(a: string, b: string)
    decreases |a|
  {
    a == [] || (b != [] && (a[0] < b[0] || (a[0] == b[0] && StrLe(a[1..], b[1..]))))
  }

  lemma {:induction false} StrLeReflexive(a: string)
    ensures StrLe(a, a)
  {
    if a != [] {
      StrLeReflexive(a[1..]);
    }
  }

  lemma {:induction false} StrLeTotal(a: string, b: string)
    ensures StrLe(a, b) || StrLe(b, a)
  {
    if a != [] && b != [] && a[0] == b[0] {
      StrLeTotal(a[1..], b[1..]);
    }
  }

  lemma {:induction false} StrLeAntisymmetric(a: string, b: string)
    requires StrLe(a, b) && StrLe(b, a)
    ensures a == b
  {
    if a != [] && b != [] {
      StrLeAntisymmetric(a[1..], b[1..]);
      assert a == [a[0]] + a[1..] && b == [b[0]] + b[1..];
    }
  }

  lemma {:induction false} StrLeTransitive(a: string, b: string, c: string)
    requires StrLe(a, b) && StrLe(b, c)
    ensures StrLe(a, c)
  {
    if a != [] && b != [] && c != [] && a[0] == b[0] == c[0] {
      StrLeTransitive(a[1..], b[1..], c[1..]);
    }
  }

  /** `k` sorts before or equal to every member of `s`. */
  predicate IsLeast(k: string, s: set<string>) {
    forall j | j in s :: StrLe(k, j)
  }

  /** Every non-empty finite set of strings has a least member. */
  lemma {:induction false} HasLeast(s: set<string>)
    requires s != {}
    ensures exists k :: k in s && IsLeast(k, s)
    decreases |s|
  {
    var x :| x in s;
    if s == {x} {
      StrLeReflexive(x);
      assert IsLeast(x, s);
    } else {
      HasLeast(s - {x});
      var m :| m in s - {x} && IsLeast(m, s - {x});
      StrLeTotal(x, m);
      if StrLe(x, m) {
        forall j | j in s ensures StrLe(x, j) {
          if j == x {
            StrLeReflexive(x);
          } else {
            StrLeTransitive(x, m, j);
          }
        }
        assert IsLeast(x, s);
      } else {
        assert IsLeast(m, s);
      }
    }
  }

  /** Strictly increasing: sorted, and therefore without repetitions. */
  predicate Ascending(r: seq<string>) {
    forall i, j | 0 <= i < j < |r| :: StrLe(r[i], r[j]) && r[i] != r[j]
  }

  /** A set has at most one least member. */
  lemma LeastUnique(s: set<string>)
    ensures forall a, b | a in s && b in s && IsLeast(a, s) && IsLeast(b, s) :: a == b
  {
    forall a, b | a in s && b in s && IsLeast(a, s) && IsLeast(b, s) ensures a == b {
      StrLeAntisymmetric(a, b);
    }
  }

  /** The least member of `s` in front of the ascending listing of the
      rest is an ascending listing of `s`. */
  lemma ConsAscending(k: string, rest: seq<string>, s: set<string>)
    requires k in s && IsLeast(k, s)
    requires Ascending(rest)
    requires forall x :: x in rest <==> x in s - {k}
    ensures Ascending([k] + rest)
  {
    var r := [k] + rest;
    forall i, j | 0 <= i < j < |r| ensures StrLe(r[i], r[j]) && r[i] != r[j] {
      assert r[j] == rest[j - 1];
      if i > 0 {
        assert r[i] == rest[i - 1];
      } else {
        assert r[j] in s - {k};
      }
    }
  }

  /** The members of `s` in ascending order, each exactly once. */
  function SortedList(s: set<string>): (r: seq<string>)
    ensures |r| == |s|
    ensures forall k :: k in r <==> k in s
    ensures Ascending(r)
    decreases |s|
  {
    if s == {} then []
    else
      HasLeast(s);
      LeastUnique(s);
      var k :| k in s && IsLeast(k, s);
      var rest := SortedList(s - {k});
      ConsAscending(k, rest, s);
      [k] + rest
  }
}
