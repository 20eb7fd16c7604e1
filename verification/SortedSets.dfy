/** Redis sorted sets: members with a score, ordered by score and, for equal
    scores, by the bytes of the member. */
module SortedSets {
  import opened Basics

  /** Member to score; in this bot always user id to time of entry. */
  type ZSet = map<string, real>

  predicate LexLess(a: string, b: string) {
    b != [] && (a == [] || a[0] < b[0] || (a[0] == b[0] && LexLess(a[1..], b[1..])))
  }

  lemma {:induction false} LexTotal(a: string, b: string)
    ensures a == b || LexLess(a, b) || LexLess(b, a)
  {
    if a != [] && b != [] && a[0] == b[0] {
      LexTotal(a[1..], b[1..]);
      assert a == [a[0]] + a[1..] && b == [b[0]] + b[1..];
    }
  }

  lemma {:induction false} LexAsymmetric(a: string, b: string)
    ensures !(LexLess(a, b) && LexLess(b, a))
  {
    if a != [] && b != [] {
      LexAsymmetric(a[1..], b[1..]);
    }
  }

  lemma {:induction false} LexTransitive(a: string, b: string, c: string)
    requires LexLess(a, b) && LexLess(b, c)
    ensures LexLess(a, c)
  {
    if a != [] && a[0] == b[0] == c[0] {
      LexTransitive(a[1..], b[1..], c[1..]);
    }
  }

  /** `a` comes before `b` in the order of ZRANGE. */
  predicate Precedes(z: ZSet, a: string, b: string)
    requires a in z && b in z
  {
    z[a] < z[b] || (z[a] == z[b] && LexLess(a, b))
  }

  lemma PrecedesTransitive(z: ZSet, a: string, b: string, c: string)
    requires a in z && b in z && c in z && Precedes(z, a, b) && Precedes(z, b, c)
    ensures Precedes(z, a, c)
  {
    if z[a] == z[b] == z[c] {
      LexTransitive(a, b, c);
    }
  }

  predicate IsFirst(z: ZSet, m: string) {
    m in z && forall k | k in z && k != m :: Precedes(z, m, k)
  }

  lemma FirstExists(z: ZSet)
    requires z != map[]
    ensures exists m :: IsFirst(z, m)
    decreases |z|
  {
    var k :| k in z;
    var rest := z - {k};
    if rest == map[] {
      assert z.Keys == rest.Keys + {k};
      assert IsFirst(z, k);
    } else {
      RemoveKeySize(z, k);
      FirstExists(rest);
      var m :| IsFirst(rest, m);
      LexTotal(k, m);
      if Precedes(z, k, m) {
        forall j | j in z && j != k ensures Precedes(z, k, j) {
          if j != m {
            assert Precedes(rest, m, j);
            PrecedesTransitive(z, k, m, j);
          }
        }
        assert IsFirst(z, k);
      } else {
        forall j | j in z && j != m ensures Precedes(z, m, j) {
          if j != k { assert Precedes(rest, m, j); }
        }
        assert IsFirst(z, m);
      }
    }
  }

  lemma FirstUnique(z: ZSet, m: string, n: string)
    requires IsFirst(z, m) && IsFirst(z, n)
    ensures m == n
  {
    if m != n {
      LexAsymmetric(m, n);
      assert false;
    }
  }

  /** ZRANGE key 0 0 on a non-empty set. */
  function First(z: ZSet): (m: string)
    requires z != map[]
    ensures IsFirst(z, m)
  {
    FirstExists(z);
    assert forall m, n | IsFirst(z, m) && IsFirst(z, n) :: m == n by {
      forall m, n | IsFirst(z, m) && IsFirst(z, n) ensures m == n { FirstUnique(z, m, n); }
    }
    var m :| m in z && IsFirst(z, m);
    m
  }

  ghost predicate Ordered(z: ZSet, s: seq<string>)
    requires forall k | k in s :: k in z
  {
    forall i, j | 0 <= i < j < |s| :: s[i] != s[j] && Precedes(z, s[i], s[j])
  }

  lemma OrderedCons(z: ZSet, m: string, rest: seq<string>)
    requires IsFirst(z, m)
    requires forall k :: k in rest <==> k in z - {m}
    requires Ordered(z - {m}, rest)
    ensures forall k :: k in [m] + rest <==> k in z
    ensures Ordered(z, [m] + rest)
  {
    var s := [m] + rest;
    forall i, j | 0 <= i < j < |s| ensures s[i] != s[j] && Precedes(z, s[i], s[j]) {
      assert s[j] == rest[j - 1] && s[j] in rest;
      if i > 0 {
        assert s[i] == rest[i - 1];
        assert Precedes(z - {m}, rest[i - 1], rest[j - 1]);
      }
    }
  }

  /** ZRANGE key 0 -1. */
  function Range(z: ZSet): (s: seq<string>)
    ensures forall k :: k in s <==> k in z
    ensures Ordered(z, s)
    decreases |z|
  {
    if z == map[] then [] else
      var m := First(z);
      RemoveKeySize(z, m);
      var rest := Range(z - {m});
      OrderedCons(z, m, rest);
      [m] + rest
  }

  /** ZREMRANGEBYSCORE key -inf cutoff. */
  function DropUpTo(z: ZSet, cutoff: real): ZSet {
    map m | m in z && z[m] > cutoff :: z[m]
  }
}
