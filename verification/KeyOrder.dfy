/** The byte-wise order of keys, in which etcd returns a range. */
module KeyOrder {

  predicate Less(a: string, b: string) {
    b != "" && (a == "" || a[0] < b[0] || (a[0] == b[0] && Less(a[1..], b[1..])))
  }

  /** `a` ends at position `i`, or has the smaller byte there; before it the two agree. */
  predicate SmallerAt(a: string, b: string, i: nat) {
    i <= |a| && i < |b| && a[..i] == b[..i] && (i == |a| || a[i] < b[i])
  }

  lemma {:induction false} SmallerAtTheFirstDifference(a: string, b: string) returns (i: nat)
    requires Less(a, b)
    ensures SmallerAt(a, b, i)
  {
    if a == "" || a[0] < b[0] {
      i := 0;
    } else {
      var j := SmallerAtTheFirstDifference(a[1..], b[1..]);
      i := j + 1;
      assert a[..i] == [a[0]] + a[1..][..j] && b[..i] == [b[0]] + b[1..][..j];
    }
  }

  lemma {:induction false} SmallerIsLess(a: string, b: string, i: nat)
    requires SmallerAt(a, b, i)
    ensures Less(a, b)
  {
    if i > 0 {
      assert a[0] == a[..i][0] == b[..i][0] == b[0];
      assert a[1..][..i - 1] == a[..i][1..] && b[1..][..i - 1] == b[..i][1..];
      SmallerIsLess(a[1..], b[1..], i - 1);
    }
  }

  /** The order is that of bytes: the first difference decides, and a proper prefix comes first. */
  lemma LessIsTheByteOrder(a: string, b: string)
    ensures Less(a, b) <==> exists i: nat :: SmallerAt(a, b, i)
  {
    if Less(a, b) {
      var i := SmallerAtTheFirstDifference(a, b);
    }
    if i: nat :| SmallerAt(a, b, i) {
      SmallerIsLess(a, b, i);
    }
  }

  lemma {:induction false} LessIsTransitive(a: string, b: string, c: string)
    requires Less(a, b) && Less(b, c)
    ensures Less(a, c)
  {
    if a != "" && a[0] == b[0] == c[0] {
      LessIsTransitive(a[1..], b[1..], c[1..]);
    }
  }

  lemma {:induction false} LessIsAsymmetric(a: string, b: string)
    requires Less(a, b)
    ensures a != b && !Less(b, a)
  {
    if a != "" && a[0] == b[0] {
      LessIsAsymmetric(a[1..], b[1..]);
    }
  }

  lemma {:induction false} LessIsTotal(a: string, b: string)
    ensures a == b || Less(a, b) || Less(b, a)
  {
    if a != "" && b != "" && a[0] == b[0] {
      LessIsTotal(a[1..], b[1..]);
      assert a == [a[0]] + a[1..] && b == [b[0]] + b[1..];
    }
  }

  lemma {:induction false} LessUnderPrefix(prefix: string, a: string, b: string)
    ensures Less(prefix + a, prefix + b) <==> Less(a, b)
  {
    if prefix == "" {
      assert prefix + a == a && prefix + b == b;
    } else {
      LessUnderPrefix(prefix[1..], a, b);
      assert (prefix + a)[1..] == prefix[1..] + a && (prefix + b)[1..] == prefix[1..] + b;
    }
  }

  predicate Precedes(keys: seq<string>, i: nat, j: nat)
    requires i < j < |keys|
  {
    Less(keys[i], keys[j])
  }

  predicate Ordered(keys: seq<string>) {
    forall i: nat, j: nat | i < j < |keys| :: Precedes(keys, i, j)
  }

  lemma PrependIsOrdered(k: string, a: seq<string>)
    requires Ordered(a) && forall j | j in a :: Less(k, j)
    ensures Ordered([k] + a)
  {
    forall i: nat, j: nat | i < j < |a| + 1 ensures Precedes([k] + a, i, j) {
      assert i > 0 ==> Precedes(a, i - 1, j - 1);
    }
  }

  lemma AppendIsOrdered(a: seq<string>, k: string)
    requires Ordered(a) && forall j | j in a :: Less(j, k)
    ensures Ordered(a + [k])
  {
    forall i: nat, j: nat | i < j < |a| + 1 ensures Precedes(a + [k], i, j) {
      assert j < |a| ==> Precedes(a, i, j);
    }
  }

  ghost predicate IsLeast(k: string, keys: set<string>) {
    k in keys && forall j | j in keys && j != k :: Less(k, j)
  }

  lemma {:induction false} LeastExists(keys: set<string>) returns (k: string)
    requires keys != {}
    ensures IsLeast(k, keys)
  {
    var any :| any in keys;
    var rest := keys - {any};
    assert keys == rest + {any};
    if rest == {} {
      k := any;
    } else {
      var l := LeastExists(rest);
      LessIsTotal(any, l);
      if Less(l, any) {
        k := l;
      } else {
        k := any;
        forall j | j in rest && j != l ensures Less(any, j) {
          LessIsTransitive(any, l, j);
        }
      }
    }
  }

  /** The keys of a set, least first. */
  ghost function Enumerate(keys: set<string>): seq<string> {
    if keys == {} then []
    else
      assert exists k :: IsLeast(k, keys) by { var k := LeastExists(keys); }
      var k :| IsLeast(k, keys);
      [k] + Enumerate(keys - {k})
  }

  lemma {:induction false} EnumerateIsOrdered(keys: set<string>)
    ensures |Enumerate(keys)| == |keys| && Ordered(Enumerate(keys))
    ensures forall k :: k in Enumerate(keys) <==> k in keys
  {
    if keys != {} {
      var k := Enumerate(keys)[0];
      var rest := Enumerate(keys - {k});
      assert IsLeast(k, keys) && Enumerate(keys) == [k] + rest;
      EnumerateIsOrdered(keys - {k});
      PrependIsOrdered(k, rest);
    }
  }

  /** The same with what it is good for. */
  ghost function Sorted(keys: set<string>): (r: seq<string>)
    ensures |r| == |keys|
    ensures Ordered(r)
    ensures forall k :: k in r <==> k in keys
  {
    EnumerateIsOrdered(keys);
    Enumerate(keys)
  }

  lemma TailIsOrdered(a: seq<string>)
    requires Ordered(a) && a != []
    ensures Ordered(a[1..])
  {
    forall i: nat, j: nat | i < j < |a| - 1 ensures Precedes(a[1..], i, j) {
      assert Precedes(a, i + 1, j + 1);
    }
  }

  /** An ordered sequence is determined by its elements. */
  lemma {:induction false} OrderedIsUnique(a: seq<string>, b: seq<string>)
    requires Ordered(a) && Ordered(b)
    requires forall k :: k in a <==> k in b
    ensures a == b
  {
    if b != [] {
      assert b[0] in a;
    }
    if a != [] {
      assert a[0] in b;
      FirstIsLeast(a, b[0]);
      FirstIsLeast(b, a[0]);
      if a[0] != b[0] {
        LessIsAsymmetric(a[0], b[0]);
      }
      forall k ensures k in a[1..] <==> k in b[1..] {
        NoRepeat(a, k);
        NoRepeat(b, k);
      }
      TailIsOrdered(a);
      TailIsOrdered(b);
      OrderedIsUnique(a[1..], b[1..]);
    }
  }

  lemma FirstIsLeast(a: seq<string>, k: string)
    requires Ordered(a) && k in a
    ensures a[0] == k || Less(a[0], k)
  {
    var i :| 0 <= i < |a| && a[i] == k;
    assert i > 0 ==> Precedes(a, 0, i);
  }

  lemma NoRepeat(a: seq<string>, k: string)
    requires Ordered(a) && a != []
    ensures k in a[1..] <==> k in a && k != a[0]
  {
    if k in a[1..] {
      var i :| 0 <= i < |a[1..]| && a[1..][i] == k;
      assert Precedes(a, 0, i + 1);
      LessIsAsymmetric(a[0], k);
    }
  }

  /** An ordered sequence has no repeated element. */
  lemma OrderedIsDistinct(a: seq<string>, i: nat, j: nat)
    requires Ordered(a) && i < j < |a|
    ensures a[i] != a[j]
  {
    assert Precedes(a, i, j);
    LessIsAsymmetric(a[i], a[j]);
  }

  lemma NotBefore(a: seq<string>, i: nat)
    requires Ordered(a) && i < |a|
    ensures a[i] !in a[..i]
  {
    if a[i] in a[..i] {
      var j :| 0 <= j < i && a[j] == a[i];
      OrderedIsDistinct(a, j, i);
    }
  }
}
