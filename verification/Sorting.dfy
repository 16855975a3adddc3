/** slices.Sort on strings, and the sort-then-DeepEqual comparison built on it. */
module Sorting {
  import opened Basics

  /** Go's string order: lexicographic. */
  predicate Leq(a: string, b: string) {
    a == "" || (b != "" && (a[0] < b[0] || (a[0] == b[0] && Leq(a[1..], b[1..]))))
  }

  lemma LeqTotal(a: string, b: string)
    ensures Leq(a, b) || Leq(b, a)
  {
  }

  lemma LeqAntisymmetric(a: string, b: string)
    requires Leq(a, b) && Leq(b, a)
    ensures a == b
  {
    if a != "" {
      LeqAntisymmetric(a[1..], b[1..]);
      assert a == [a[0]] + a[1..] && b == [b[0]] + b[1..];
    }
  }

  lemma LeqTransitive(a: string, b: string, c: string)
    requires Leq(a, b) && Leq(b, c)
    ensures Leq(a, c)
  {
  }

  /** The first position where two texts differ. */
  ghost predicate FirstDifference(a: string, b: string, k: nat) {
    k < |a| && k < |b| && a[k] != b[k] && forall i | 0 <= i < k :: a[i] == b[i]
  }

  /** Of two texts that differ somewhere, the one with the smaller character there comes first. */
  lemma {:induction false} LeqAtDifference(a: string, b: string, k: nat)
    requires FirstDifference(a, b, k)
    ensures Leq(a, b) <==> a[k] < b[k]
  {
    if k > 0 {
      assert a[0] == b[0];
      LeqAtDifference(a[1..], b[1..], k - 1);
    }
  }

  /** Of a text and its own start, the start comes first. */
  lemma {:induction false} LeqOfStart(a: string, b: string)
    requires a <= b
    ensures Leq(a, b) && (Leq(b, a) <==> a == b)
  {
    if a != "" {
      assert a[0] == b[0] && a == [a[0]] + a[1..] && b == [b[0]] + b[1..];
      assert a[1..] == b[..|a|][1..] == b[1..][..|a| - 1];
      LeqOfStart(a[1..], b[1..]);
    }
  }

  ghost predicate Sorted(s: seq<string>) {
    forall i, j | 0 <= i < j < |s| :: Leq(s[i], s[j])
  }

  function Insert(x: string, s: seq<string>): seq<string> {
    if s == [] || Leq(x, s[0]) then [x] + s else [s[0]] + Insert(x, s[1..])
  }

  /** slices.Sort */
  function Sort(s: seq<string>): seq<string> {
    if s == [] then [] else Insert(s[0], Sort(s[1..]))
  }

  lemma {:induction false} InsertSorts(x: string, s: seq<string>)
    requires Sorted(s)
    ensures Sorted(Insert(x, s))
    ensures multiset(Insert(x, s)) == multiset{x} + multiset(s)
  {
    if s == [] {
    } else if Leq(x, s[0]) {
      forall j | 0 <= j < |s| ensures Leq(x, s[j]) {
        if j > 0 { LeqTransitive(x, s[0], s[j]); }
      }
    } else {
      InsertSorts(x, s[1..]);
      var t := Insert(x, s[1..]);
      assert s == [s[0]] + s[1..];
      LeqTotal(x, s[0]);
      forall j | 0 <= j < |t| ensures Leq(s[0], t[j]) {
        assert t[j] in multiset(t);
        assert t[j] == x || t[j] in s[1..];
      }
    }
  }

  /** Sorting permutes its input and orders it. */
  lemma {:induction false} SortSorts(s: seq<string>)
    ensures Sorted(Sort(s))
    ensures multiset(Sort(s)) == multiset(s)
    ensures |Sort(s)| == |s|
  {
    if s != [] {
      SortSorts(s[1..]);
      InsertSorts(s[0], Sort(s[1..]));
      assert s == [s[0]] + s[1..];
    }
    assert |Sort(s)| == |multiset(Sort(s))| == |multiset(s)|;
  }

  lemma HeadIsLeast(s: seq<string>, x: string)
    requires Sorted(s) && x in s
    ensures Leq(s[0], x)
  {
    var i :| 0 <= i < |s| && s[i] == x;
    if i == 0 { LeqReflexive(x); }
  }

  lemma {:induction false} SortedHeadsAgree(a: seq<string>, b: seq<string>)
    requires Sorted(a) && Sorted(b) && multiset(a) == multiset(b) && a != []
    ensures b != [] && a[0] == b[0]
  {
    assert a[0] in multiset(b);
    assert b[0] in multiset(a);
    HeadIsLeast(b, a[0]);
    HeadIsLeast(a, b[0]);
    LeqAntisymmetric(a[0], b[0]);
  }

  lemma TailMultiset(a: seq<string>)
    requires a != []
    ensures multiset(a[1..]) == multiset(a) - multiset{a[0]}
  {
    assert a == [a[0]] + a[1..];
  }

  lemma SortedTail(a: seq<string>)
    requires Sorted(a) && a != []
    ensures Sorted(a[1..])
  {
  }

  lemma {:induction false} SortedUnique(a: seq<string>, b: seq<string>)
    requires Sorted(a) && Sorted(b) && multiset(a) == multiset(b)
    ensures a == b
  {
    if a == [] {
      assert |multiset(b)| == 0;
    } else {
      SortedHeadsAgree(a, b);
      TailMultiset(a);
      TailMultiset(b);
      SortedTail(a);
      SortedTail(b);
      SortedUnique(a[1..], b[1..]);
      assert a == [a[0]] + a[1..];
    }
  }

  lemma LeqReflexive(a: string)
    ensures Leq(a, a)
  {
  }

  /** Sorting is canonical: two lists sort to the same list exactly when they are permutations
      of each other. */
  lemma {:induction false} SortCanonical(a: seq<string>, b: seq<string>)
    ensures Sort(a) == Sort(b) <==> multiset(a) == multiset(b)
  {
    SortSorts(a);
    SortSorts(b);
    if multiset(a) == multiset(b) {
      SortedUnique(Sort(a), Sort(b));
    }
  }

  /** stringArrayEqual and stringPtrArrayEqual: sort both, then reflect.DeepEqual, for which
      the nil slice differs from the empty one. */
  predicate StringArrayEqual(got: Slice, want: Slice) {
    got.Nil? == want.Nil? && Sort(got.Elems()) == Sort(want.Elems())
  }

  /** The comparison is permutation equality, refined only by nil against empty. */
  lemma {:induction false} StringArrayEqualIsPermutation(got: Slice, want: Slice)
    ensures StringArrayEqual(got, want) <==>
            got.Nil? == want.Nil? && multiset(got.Elems()) == multiset(want.Elems())
  {
    SortCanonical(got.Elems(), want.Elems());
  }

  /** What the in-place sort leaves behind in the caller's slice. */
  function SortSlice(s: Slice): Slice {
    if s.Nil? then Nil else Items(Sort(s.list))
  }

  lemma SortSliceMeans(s: Slice)
    ensures SortSlice(s).Nil? == s.Nil? && Sorted(SortSlice(s).Elems())
    ensures multiset(SortSlice(s).Elems()) == multiset(s.Elems())
  {
    SortSorts(s.Elems());
  }

  lemma SortSliceEqual(s: Slice, want: Slice)
    requires StringArrayEqual(s, want)
    ensures StringArrayEqual(SortSlice(s), want)
  {
    SortSorts(s.Elems());
    SortCanonical(s.Elems(), Sort(s.Elems()));
  }
}
