/** The order of JavaScript's default array sort and of SQLite's BINARY collation on text. */
module Text {

  /** Lexicographic order, a proper prefix first. */
  predicate Less(a: string, b: string)
    decreases |a|
  {
    b != [] && (a == [] || a[0] < b[0] || (a[0] == b[0] && Less(a[1..], b[1..])))
  }

  lemma {:induction false} LessIrreflexive(a: string)
    ensures !Less(a, a)
  {
    if a != [] { LessIrreflexive(a[1..]); }
  }

  lemma {:induction false} LessTransitive(a: string, b: string, c: string)
    requires Less(a, b) && Less(b, c)
    ensures Less(a, c)
    decreases |a|
  {
    if a != [] && a[0] == b[0] == c[0] { LessTransitive(a[1..], b[1..], c[1..]); }
  }

  lemma {:induction false} LessTotal(a: string, b: string)
    ensures a == b || Less(a, b) || Less(b, a)
    decreases |a|
  {
    if a != [] && b != [] && a[0] == b[0] {
      LessTotal(a[1..], b[1..]);
      assert a == [a[0]] + a[1..] && b == [b[0]] + b[1..];
    }
  }

  lemma {:induction false} LessAsymmetric(a: string, b: string)
    requires Less(a, b)
    ensures !Less(b, a) && a != b
  {
    LessIrreflexive(a);
    if Less(b, a) { LessTransitive(a, b, a); }
  }

  predicate Ascending(q: seq<string>) {
    forall i, j | 0 <= i < j < |q| :: Less(q[i], q[j])
  }

  /** `k` is the first of `keys`. */
  predicate IsFirst(k: string, keys: set<string>) {
    k in keys && forall x | x in keys && x != k :: Less(k, x)
  }

  lemma {:induction false} FirstExists(keys: set<string>)
    requires keys != {}
    ensures exists k :: IsFirst(k, keys)
    decreases |keys|
  {
    var x :| x in keys;
    if keys == {x} {
      assert IsFirst(x, keys);
    } else {
      var rest := keys - {x};
      assert keys == rest + {x};
      FirstExists(rest);
      var k :| IsFirst(k, rest);
      LessTotal(x, k);
      if Less(x, k) {
        forall y | y in keys && y != x ensures Less(x, y) {
          if y != k { LessTransitive(x, k, y); }
        }
        assert IsFirst(x, keys);
      } else {
        assert IsFirst(k, keys);
      }
    }
  }

  lemma FirstIsUnique(keys: set<string>, a: string, b: string)
    requires IsFirst(a, keys) && IsFirst(b, keys)
    ensures a == b
  {
    if a != b { LessAsymmetric(a, b); }
  }

  /** `Object.keys(record).sort()`, and any `ORDER BY` on a text column. */
  function Sorted(keys: set<string>): (q: seq<string>)
    ensures Ascending(q)
    ensures forall k :: k in q <==> k in keys
    ensures |q| == |keys|
    decreases |keys|
  {
    if keys == {} then []
    else
      FirstExists(keys);
      assert forall a, b | IsFirst(a, keys) && IsFirst(b, keys) :: a == b by {
        forall a, b | IsFirst(a, keys) && IsFirst(b, keys) ensures a == b { FirstIsUnique(keys, a, b); }
      }
      var k :| IsFirst(k, keys);
      var rest := Sorted(keys - {k});
      assert forall i | 0 <= i < |rest| :: rest[i] in rest;
      [k] + rest
  }

  lemma HasMember(q: seq<string>)
    ensures q != [] ==> exists k :: k in q
  {
    if q != [] { assert q[0] in q; }
  }

  lemma TailMembers(q: seq<string>, k: string)
    requires q != [] && Ascending(q)
    ensures k in q[1..] <==> k in q && k != q[0]
  {
    LessIrreflexive(k);
    assert q == [q[0]] + q[1..];
  }

  /** An ascending listing is determined by its members. */
  lemma {:induction false} AscendingUnique(p: seq<string>, q: seq<string>)
    requires Ascending(p) && Ascending(q)
    requires forall k :: k in p <==> k in q
    ensures p == q
    decreases |p|
  {
    HasMember(q);
    if p != [] {
      assert p[0] in q && q != [];
      assert q[0] in p;
      var i :| 0 <= i < |q| && q[i] == p[0];
      var j :| 0 <= j < |p| && p[j] == q[0];
      if i > 0 && j > 0 {
        LessAsymmetric(p[0], p[j]);
        assert false;
      }
      assert p[0] == q[0];
      forall k ensures k in p[1..] <==> k in q[1..] {
        TailMembers(p, k);
        TailMembers(q, k);
      }
      AscendingUnique(p[1..], q[1..]);
    }
  }
}
