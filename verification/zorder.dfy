/** The element order of the XML projection: `sorted(elements, key=z_index)`,
    Python's stable sort, modelled as an insertion sort on sequences. */
module ZOrder {

  import opened UiState

  /** Ascending by z-index. */
  predicate SortedByZ(s: seq<Element>) {
    forall i, j :: 0 <= i < j < |s| ==> s[i].zIndex <= s[j].zIndex
  }

  /** The elements of `s` whose z-index is `k`, in their order in `s`. A sort
      is stable exactly when it keeps every one of these subsequences. */
  function WithZ(s: seq<Element>, k: int): seq<Element> {
    if |s| == 0 then [] else (if s[0].zIndex == k then [s[0]] else []) + WithZ(s[1..], k)
  }

  /** The subsequence for `k` holds exactly the elements of `s` with z-index `k`. */
  lemma {:induction false} WithZMember(s: seq<Element>, k: int, e: Element)
    ensures e in WithZ(s, k) <==> e in s && e.zIndex == k
  {
    if |s| > 0 {
      WithZMember(s[1..], k, e);
      assert s == [s[0]] + s[1..];
    }
  }

  lemma {:induction false} WithZConcat(a: seq<Element>, b: seq<Element>, k: int)
    ensures WithZ(a + b, k) == WithZ(a, k) + WithZ(b, k)
  {
    if |a| == 0 {
      assert a + b == b;
    } else {
      var head := if a[0].zIndex == k then [a[0]] else [];
      assert (a + b)[0] == a[0];
      assert (a + b)[1..] == a[1..] + b;
      WithZConcat(a[1..], b, k);
      assert WithZ(a + b, k) == head + (WithZ(a[1..], k) + WithZ(b, k));
    }
  }

  /** Put `e` in front of the first element whose z-index is not smaller. */
  function Insert(e: Element, s: seq<Element>): (r: seq<Element>)
    ensures multiset(r) == multiset(s) + multiset{e}
  {
    if |s| == 0 then [e]
    else if e.zIndex <= s[0].zIndex then [e] + s
    else
      assert s == [s[0]] + s[1..];
      [s[0]] + Insert(e, s[1..])
  }

  /** Every z-index in `s` is at least `b`. */
  predicate AllAtLeast(s: seq<Element>, b: int) {
    forall i :: 0 <= i < |s| ==> b <= s[i].zIndex
  }

  lemma {:induction false} InsertAtLeast(e: Element, s: seq<Element>, b: int)
    requires AllAtLeast(s, b) && b <= e.zIndex
    ensures AllAtLeast(Insert(e, s), b)
  {
    if |s| > 0 && e.zIndex > s[0].zIndex {
      InsertAtLeast(e, s[1..], b);
    }
  }

  /** Insertion keeps a sequence sorted. */
  lemma {:induction false} InsertSorted(e: Element, s: seq<Element>)
    requires SortedByZ(s)
    ensures SortedByZ(Insert(e, s))
  {
    if |s| > 0 && e.zIndex > s[0].zIndex {
      InsertSorted(e, s[1..]);
      var rest := Insert(e, s[1..]);
      InsertAtLeast(e, s[1..], s[0].zIndex);
      var r := [s[0]] + rest;
      forall i, j | 0 <= i < j < |r| ensures r[i].zIndex <= r[j].zIndex {
        if i > 0 {
          assert r[i] == rest[i - 1];
        }
        assert r[j] == rest[j - 1];
      }
    }
  }

  /** Insertion puts `e` first among the elements with its z-index and
      changes no other z-index subsequence. */
  lemma {:induction false} InsertWithZ(e: Element, s: seq<Element>)
    ensures forall k :: WithZ(Insert(e, s), k) == if e.zIndex == k then [e] + WithZ(s, k) else WithZ(s, k)
  {
    if |s| == 0 {
    } else if e.zIndex <= s[0].zIndex {
      assert ([e] + s)[1..] == s;
    } else {
      InsertWithZ(e, s[1..]);
      var rest := Insert(e, s[1..]);
      assert ([s[0]] + rest)[1..] == rest;
      assert WithZ(s, s[0].zIndex) == [s[0]] + WithZ(s[1..], s[0].zIndex);
    }
  }

  /** `sorted(elements, key=lambda x: x.get('z_index', 0))`: a permutation of
      the input, ascending by z-index, keeping the input order among equal
      z-indices. */
  function SortByZ(s: seq<Element>): (r: seq<Element>)
    ensures multiset(r) == multiset(s)
    ensures SortedByZ(r)
  {
    if |s| == 0 then []
    else
      var t := SortByZ(s[1..]);
      InsertSorted(s[0], t);
      assert s == [s[0]] + s[1..];
      Insert(s[0], t)
  }

  /** The sort is stable: every z-index subsequence is kept. */
  lemma {:induction false} SortByZStable(s: seq<Element>)
    ensures forall k :: WithZ(SortByZ(s), k) == WithZ(s, k)
  {
    if |s| > 0 {
      SortByZStable(s[1..]);
      InsertWithZ(s[0], SortByZ(s[1..]));
    }
  }

  /** A sorted sequence is determined by its subsequences per z-index: there
      is only one stable ascending order of a given sequence. */
  lemma {:induction false} StableOrderUnique(a: seq<Element>, b: seq<Element>)
    requires SortedByZ(a) && SortedByZ(b)
    requires forall k :: WithZ(a, k) == WithZ(b, k)
    ensures a == b
    decreases |a|
  {
    if |a| == 0 || |b| == 0 {
      FirstKeyPresent(a);
      FirstKeyPresent(b);
    } else {
      var ka, kb := a[0].zIndex, b[0].zIndex;
      WithZMember(a, ka, a[0]);
      WithZMember(b, ka, a[0]);
      WithZMember(a, kb, b[0]);
      WithZMember(b, kb, b[0]);
      assert kb <= ka by {
        var j :| 0 <= j < |b| && b[j] == a[0];
        if j > 0 { assert b[0].zIndex <= b[j].zIndex; }
      }
      assert ka <= kb by {
        var j :| 0 <= j < |a| && a[j] == b[0];
        if j > 0 { assert a[0].zIndex <= a[j].zIndex; }
      }
      assert WithZ(a, ka) == [a[0]] + WithZ(a[1..], ka);
      assert WithZ(b, ka) == [b[0]] + WithZ(b[1..], ka);
      assert a[0] == WithZ(a, ka)[0] == WithZ(b, ka)[0] == b[0];
      forall k ensures WithZ(a[1..], k) == WithZ(b[1..], k) {
        var head := if a[0].zIndex == k then [a[0]] else [];
        assert WithZ(a, k) == head + WithZ(a[1..], k);
        assert WithZ(b, k) == head + WithZ(b[1..], k);
        assert WithZ(a[1..], k) == WithZ(a, k)[|head|..];
        assert WithZ(b[1..], k) == WithZ(b, k)[|head|..];
      }
      StableOrderUnique(a[1..], b[1..]);
      assert a == [a[0]] + a[1..] && b == [b[0]] + b[1..];
    }
  }

  /** A non-empty sequence has a non-empty subsequence for its first key. */
  lemma FirstKeyPresent(s: seq<Element>)
    ensures |s| > 0 ==> WithZ(s, s[0].zIndex) != []
  {
  }

  /** Sorting is characterised by its contract: any stable ascending
      rearrangement of `s` is `SortByZ(s)`. */
  lemma SortByZUnique(s: seq<Element>, t: seq<Element>)
    requires SortedByZ(t)
    requires forall k :: WithZ(t, k) == WithZ(s, k)
    ensures SortByZ(s) == t
  {
    SortByZStable(s);
    StableOrderUnique(SortByZ(s), t);
  }

  lemma {:induction false} WithZUniform(s: seq<Element>, key: int, k: int)
    requires forall i :: 0 <= i < |s| ==> s[i].zIndex == key
    ensures WithZ(s, k) == if k == key then s else []
  {
    if |s| > 0 {
      WithZUniform(s[1..], key, k);
      assert s == [s[0]] + s[1..];
    }
  }

  /** Ascending keys across three uniform groups make a sorted sequence. */
  lemma ThreeGroupsSorted(y: seq<Element>, z: seq<Element>, x: seq<Element>, ky: int, kz: int, kx: int)
    requires forall i :: 0 <= i < |x| ==> x[i].zIndex == kx
    requires forall i :: 0 <= i < |y| ==> y[i].zIndex == ky
    requires forall i :: 0 <= i < |z| ==> z[i].zIndex == kz
    requires ky < kz < kx
    ensures SortedByZ(y + z + x)
  {
    var t := y + z + x;
    forall i | 0 <= i < |t|
      ensures t[i].zIndex == if i < |y| then ky else if i < |y| + |z| then kz else kx
    {
      if i < |y| { assert t[i] == y[i]; }
      else if i < |y| + |z| { assert t[i] == z[i - |y|]; }
      else { assert t[i] == x[i - |y| - |z|]; }
    }
  }

  /** Three groups with uniform z-indices `ky < kz < kx` come out in
      ascending key order, each group in its own order. */
  lemma SortThreeGroups(x: seq<Element>, y: seq<Element>, z: seq<Element>, kx: int, ky: int, kz: int)
    requires forall i :: 0 <= i < |x| ==> x[i].zIndex == kx
    requires forall i :: 0 <= i < |y| ==> y[i].zIndex == ky
    requires forall i :: 0 <= i < |z| ==> z[i].zIndex == kz
    requires ky < kz < kx
    ensures SortByZ(x + y + z) == y + z + x
  {
    var s, t := x + y + z, y + z + x;
    forall k ensures WithZ(t, k) == WithZ(s, k) {
      RotatedGroupsWithZ(x, y, z, kx, ky, kz, k);
    }
    ThreeGroupsSorted(y, z, x, ky, kz, kx);
    SortByZUnique(s, t);
  }

  /** Moving the first of three uniform groups with distinct keys to the end
      keeps every z-index subsequence. */
  lemma RotatedGroupsWithZ(x: seq<Element>, y: seq<Element>, z: seq<Element>, kx: int, ky: int, kz: int, k: int)
    requires forall i :: 0 <= i < |x| ==> x[i].zIndex == kx
    requires forall i :: 0 <= i < |y| ==> y[i].zIndex == ky
    requires forall i :: 0 <= i < |z| ==> z[i].zIndex == kz
    requires ky < kz < kx
    ensures WithZ(y + z + x, k) == WithZ(x + y + z, k)
  {
    WithZConcat(x + y, z, k);
    WithZConcat(x, y, k);
    WithZConcat(y + z, x, k);
    WithZConcat(y, z, k);
    WithZUniform(x, kx, k);
    WithZUniform(y, ky, k);
    WithZUniform(z, kz, k);
  }
}
