/** The key order of a `BTreeMap<String, _>`: `String`'s `Ord`, which is
    byte-wise on UTF-8 and therefore lexicographic on code points. Only
    `values().next()` depends on it: it yields the value at the least key. */
module Order {

  /** `a <= b` lexicographically; a proper prefix comes first. */
  predicate Below(a: string, b: string)
    decreases |a|
  {
    a == [] || (b != [] && (a[0] < b[0] || (a[0] == b[0] && Below(a[1..], b[1..]))))
  }

  lemma {:induction false} BelowTotal(a: string, b: string)
    ensures Below(a, b) || Below(b, a)
    decreases |a|
  {
    if a != [] && b != [] && a[0] == b[0] {
      BelowTotal(a[1..], b[1..]);
    }
  }

  lemma {:induction false} BelowAntisymmetric(a: string, b: string)
    requires Below(a, b) && Below(b, a)
    ensures a == b
    decreases |a|
  {
    if a != [] {
      BelowAntisymmetric(a[1..], b[1..]);
      assert a == [a[0]] + a[1..] && b == [b[0]] + b[1..];
    }
  }

  lemma {:induction false} BelowTransitive(a: string, b: string, c: string)
    requires Below(a, b) && Below(b, c)
    ensures Below(a, c)
    decreases |a|
  {
    if a != [] && b != [] && c != [] && a[0] == b[0] && b[0] == c[0] {
      BelowTransitive(a[1..], b[1..], c[1..]);
    }
  }

  /** `least` comes first among `keys`. */
  predicate IsLeast(least: string, keys: set<string>)
  {
    least in keys && forall k | k in keys :: Below(least, k)
  }

  /** Every non-empty finite set of strings has a least element. */
  lemma {:induction false} LeastExists(keys: set<string>)
    requires keys != {}
    ensures exists least :: IsLeast(least, keys)
    decreases |keys|
  {
    var k :| k in keys;
    var rest := keys - {k};
    if rest == {} {
      assert keys == {k};
      BelowTotal(k, k);
      assert IsLeast(k, keys);
    } else {
      LeastExists(rest);
      var m :| IsLeast(m, rest);
      BelowTotal(k, m);
      if Below(k, m) {
        forall x | x in keys ensures Below(k, x) {
          if x != k { BelowTransitive(k, m, x); } else { BelowTotal(k, k); }
        }
        assert IsLeast(k, keys);
      } else {
        assert IsLeast(m, keys);
      }
    }
  }

  /** There is only one least element. */
  lemma {:induction false} LeastIsUnique(a: string, b: string, keys: set<string>)
    requires IsLeast(a, keys) && IsLeast(b, keys)
    ensures a == b
  {
    BelowAntisymmetric(a, b);
  }

  /** The first key of a non-empty map, in iteration order. */
  ghost function MinKey(keys: set<string>): (least: string)
    requires keys != {}
    ensures IsLeast(least, keys)
  {
    LeastExists(keys);
    var least :| IsLeast(least, keys);
    least
  }

  /** `values().next().unwrap()` on a non-empty map: a scan for the least key. */
  method FirstValue<V>(m: map<string, V>) returns (v: V)
    requires |m| > 0
    ensures v == m[MinKey(m.Keys)]
  {
    var todo := m.Keys;
    var best :| best in todo;
    todo := todo - {best};
    BelowTotal(best, best);
    while todo != {}
      invariant todo <= m.Keys && best in m.Keys && best !in todo
      invariant forall k | k in m.Keys - todo :: Below(best, k)
      decreases todo
    {
      var k :| k in todo;
      BelowTotal(best, k);
      BelowTotal(k, k);
      if !Below(best, k) {
        forall x | x in m.Keys - todo ensures Below(k, x) {
          BelowTransitive(k, best, x);
        }
        best := k;
      }
      todo := todo - {k};
    }
    LeastIsUnique(best, MinKey(m.Keys), m.Keys);
    v := m[best];
  }
}
