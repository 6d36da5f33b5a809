/** Facts about sequences used as Python lists and sets. */
module Collections {

  predicate NoDuplicates<T(==)>(s: seq<T>) {
    forall p, q :: 0 <= p < q < |s| ==> s[p] != s[q]
  }

  /** The concatenation of the parts, in order. */
  function Flatten<T>(parts: seq<seq<T>>): seq<T> {
    if parts == [] then [] else parts[0] + Flatten(parts[1..])
  }

  lemma {:induction false} FlattenSnoc<T>(parts: seq<seq<T>>, last: seq<T>)
    ensures Flatten(parts + [last]) == Flatten(parts) + last
  {
    if parts == [] {
      assert [last][1..] == [];
    } else {
      assert (parts + [last])[1..] == parts[1..] + [last];
      FlattenSnoc(parts[1..], last);
    }
  }

  /** `set(s)`. */
  function Elements<T>(s: seq<T>): set<T> {
    set x | x in s
  }

  lemma {:induction false} SubsetCard<T>(a: set<T>, b: set<T>)
    requires a <= b
    ensures |a| <= |b|
    decreases a
  {
    if a != {} {
      var x :| x in a;
      SubsetCard(a - {x}, b - {x});
    }
  }

  /** A subset as large as its superset is the superset. */
  lemma SubsetSameCard<T>(a: set<T>, b: set<T>)
    requires a <= b && |a| == |b|
    ensures a == b
  {
    if a != b {
      var x :| x in b && x !in a;
      SubsetCard(a, b - {x});
    }
  }

  /** `len(set(s)) <= len(s)`, with equality exactly when no element repeats. */
  lemma {:induction false} ElementsCard<T>(s: seq<T>)
    ensures |Elements(s)| <= |s|
    ensures |Elements(s)| == |s| <==> NoDuplicates(s)
  {
    if s != [] {
      var init := s[..|s| - 1];
      var x := s[|s| - 1];
      ElementsCard(init);
      assert Elements(s) == Elements(init) + {x};
      if x in init {
        assert Elements(s) == Elements(init);
        var p :| 0 <= p < |init| && init[p] == x;
        assert s[p] == s[|s| - 1];
      } else {
        assert |Elements(s)| == |Elements(init)| + 1;
        if NoDuplicates(s) {
          assert NoDuplicates(init) by {
            forall p, q | 0 <= p < q < |init| ensures init[p] != init[q] {
              assert init[p] == s[p] && init[q] == s[q];
            }
          }
        }
        if NoDuplicates(init) {
          forall p, q | 0 <= p < q < |s| ensures s[p] != s[q] {
            if q == |s| - 1 {
              assert s[p] == init[p];
            } else {
              assert s[p] == init[p] && s[q] == init[q];
            }
          }
        }
      }
    }
  }

  /** Regrouping a four-part concatenation around its middle. */
  lemma Regroup<T>(a: seq<T>, b: seq<T>, c: seq<T>, d: seq<T>)
    ensures a + ((b + c) + d) == (a + b) + (c + d)
  {
  }

  lemma AppendAssoc<T>(a: seq<T>, b: seq<T>, c: seq<T>)
    ensures a + (b + c) == (a + b) + c
  {
  }
}
