/**
 * Python's ordering of strings (code point by code point, a proper prefix
 * first) and `sorted` over a set of distinct strings.
 */
module Order {
  /** `a < b` on Python strings. */
  predicate Lt(a: string, b: string)
    decreases |a|
  {
    if a == [] then b != []
    else if b == [] then false
    else if a[0] != b[0] then a[0] < b[0]
    else Lt(a[1..], b[1..])
  }

  lemma {:induction false} LtIrreflexive(a: string)
    ensures !Lt(a, a)
    decreases |a|
  {
    if a != [] {
      LtIrreflexive(a[1..]);
    }
  }

  lemma {:induction false} LtTransitive(a: string, b: string, c: string)
    requires Lt(a, b) && Lt(b, c)
    ensures Lt(a, c)
    decreases |a|
  {
    if a != [] && b != [] && c != [] && a[0] == b[0] && b[0] == c[0] {
      LtTransitive(a[1..], b[1..], c[1..]);
    }
  }

  /** Two different strings are always ordered one way or the other. */
  lemma {:induction false} LtTotal(a: string, b: string)
    requires a != b
    ensures Lt(a, b) || Lt(b, a)
    decreases |a|
  {
    if a != [] && b != [] && a[0] == b[0] {
      assert a == [a[0]] + a[1..] && b == [b[0]] + b[1..];
      LtTotal(a[1..], b[1..]);
    }
  }

  /** Each string before the next: strictly increasing, hence without duplicates. */
  predicate Sorted(s: seq<string>)
    decreases |s|
  {
    |s| < 2 || (Lt(s[0], s[1]) && Sorted(s[1..]))
  }

  /** The first string of a sorted sequence is below every later one. */
  lemma {:induction false} SortedFirst(s: seq<string>)
    requires Sorted(s) && s != []
    ensures forall k :: k in s[1..] ==> Lt(s[0], k)
    decreases |s|
  {
    if |s| >= 2 {
      SortedFirst(s[1..]);
      forall k | k in s[1..] ensures Lt(s[0], k) {
        if k != s[1] {
          assert k in s[1..][1..];
          LtTransitive(s[0], s[1], k);
        }
      }
    }
  }

  /** Sorted means every earlier string is below every later one. */
  lemma {:induction false} SortedPairwise(s: seq<string>, i: nat, j: nat)
    requires Sorted(s) && i < j < |s|
    ensures Lt(s[i], s[j])
    decreases i
  {
    if i == 0 {
      SortedFirst(s);
      assert s[j] == s[1..][j - 1];
    } else {
      SortedPairwise(s[1..], i - 1, j - 1);
    }
  }

  /** Places `x` among the sorted strings of `s`. */
  function Insert(x: string, s: seq<string>): (r: seq<string>)
    requires Sorted(s) && x !in s
    ensures Sorted(r) && |r| == |s| + 1
    ensures forall y :: y in r <==> y == x || y in s
    ensures r[0] == x || (s != [] && r[0] == s[0])
  {
    if s == [] then [x]
    else if Lt(x, s[0]) then
      assert ([x] + s)[1..] == s;
      [x] + s
    else
      LtTotal(x, s[0]);
      var t := Insert(x, s[1..]);
      assert ([s[0]] + t)[1..] == t;
      [s[0]] + t
  }

  /** `sorted(keys)` for a set of distinct strings. */
  method SortNames(keys: set<string>) returns (names: seq<string>)
    ensures Sorted(names) && |names| == |keys|
    ensures forall k :: k in names <==> k in keys
    ensures names == SortedKeys(keys)
  {
    names := [];
    var rest := keys;
    while rest != {}
      invariant rest <= keys && Sorted(names) && |names| + |rest| == |keys|
      invariant forall k :: k in names <==> k in keys && k !in rest
      decreases rest
    {
      var k :| k in rest;
      names := Insert(k, names);
      rest := rest - {k};
    }
    SortedUnique(names, SortedKeys(keys));
  }

  /** A set has exactly one sorted listing. */
  lemma {:induction false} SortedUnique(a: seq<string>, b: seq<string>)
    requires Sorted(a) && Sorted(b) && |a| == |b|
    requires forall k :: k in a <==> k in b
    ensures a == b
    decreases |a|
  {
    if a != [] {
      SortedFirst(a);
      SortedFirst(b);
      LtIrreflexive(a[0]);
      LtIrreflexive(b[0]);
      assert a[0] in b;
      if a[0] != b[0] {
        var j :| 0 <= j < |b| && b[j] == a[0];
        assert b[1..][j - 1] == a[0];
        assert b[0] in a;
        var i :| 0 <= i < |a| && a[i] == b[0];
        assert a[1..][i - 1] == b[0];
        LtTransitive(a[0], b[0], a[0]);
      }
      forall k | k in a[1..] ensures k in b[1..] {
        assert k in b && k != b[0];
      }
      forall k | k in b[1..] ensures k in a[1..] {
        assert k in a && k != a[0];
      }
      SortedUnique(a[1..], b[1..]);
      assert a == [a[0]] + a[1..] && b == [b[0]] + b[1..];
    }
  }

  lemma {:induction false} ExistsSorted(keys: set<string>)
    ensures exists names :: Sorted(names) && |names| == |keys| && forall k :: k in names <==> k in keys
    decreases keys
  {
    if keys != {} {
      var k :| k in keys;
      ExistsSorted(keys - {k});
      var rest :| Sorted(rest) && |rest| == |keys - {k}| && forall j :: j in rest <==> j in keys - {k};
      var names := Insert(k, rest);
      assert Sorted(names) && |names| == |keys| && forall j :: j in names <==> j in keys;
    } else {
      assert Sorted([]);
    }
  }

  /** `sorted(keys)` for a set of strings: the keys in increasing order, each exactly once. */
  ghost function SortedKeys(keys: set<string>): (names: seq<string>)
    ensures Sorted(names) && |names| == |keys|
    ensures forall k :: k in names <==> k in keys
  {
    ExistsSorted(keys);
    var names :| Sorted(names) && |names| == |keys| && forall k :: k in names <==> k in keys;
    names
  }
}
