/**
 * A model of the part of Python's `collections.Counter` that the track entity uses:
 * `Counter(xs).most_common(n)`.
 *
 * A Counter keeps its keys in the order in which they are first seen, and
 * `most_common(n)` is documented to be `sorted(items, key=count, reverse=True)[:n]`,
 * a stable sort: among equal counts the key seen first comes first (for n == 1 it is
 * `max`, which also keeps the first maximal key). The model builds the answer by
 * repeatedly choosing, from the elements not chosen yet, the first one in `s` whose
 * count is maximal; that yields exactly the first n keys of the stable sort.
 */
module Counting {
  import opened Wrappers

  /** How often `x` occurs in `s` (the Counter's value for key `x`). */
  function Count<T(==,!new)>(s: seq<T>, x: T): nat {
    multiset(s)[x]
  }

  predicate NoDuplicates<T(==,!new)>(s: seq<T>) {
    forall i, j :: 0 <= i < j < |s| ==> s[i] != s[j]
  }

  /** The Counter's keys: the distinct elements of `s`, in order of first occurrence. */
  function Keys<T(==,!new)>(s: seq<T>): (k: seq<T>)
    ensures forall x :: x in k <==> x in s
    ensures |k| <= |s|
  {
    if s == [] then []
    else
      var k' := Keys(s[..|s| - 1]);
      if s[|s| - 1] in k' then k' else k' + [s[|s| - 1]]
  }

  /** A key already seen leaves the keys as they are; a new key goes at the end. */
  lemma KeysAppend<T(!new)>(s: seq<T>, x: T)
    ensures Keys(s + [x]) == if x in s then Keys(s) else Keys(s) + [x]
  {
    assert (s + [x])[..|s|] == s;
  }

  /** The position of the first occurrence of `x` in `s` (`s.index(x)`), or `|s|` when there is none. */
  function FirstIndex<T(==)>(s: seq<T>, x: T): (i: nat)
    ensures i <= |s| && (i < |s| <==> x in s)
    ensures i < |s| ==> s[i] == x
    ensures forall j :: 0 <= j < i ==> s[j] != x
  {
    if s == [] then 0
    else
      var i := FirstIndex(s[..|s| - 1], x);
      if i < |s| - 1 then i
      else if s[|s| - 1] == x then |s| - 1
      else |s|
  }

  /** First occurrences are the same in a prefix as in the whole sequence. */
  lemma FirstIndexOfPrefix<T>(s: seq<T>, k: nat, x: T)
    requires k <= |s| && x in s[..k]
    ensures x in s && FirstIndex(s[..k], x) == FirstIndex(s, x)
  {
    var i, j := FirstIndex(s[..k], x), FirstIndex(s, x);
    assert s[..k][i] == s[i] == x;
    assert j <= i;
    assert s[..k][j] == s[j] == x;
  }

  /** An element absent from all of `s` but its last position is first seen there. */
  lemma FirstIndexOfNewLast<T>(s: seq<T>)
    requires s != [] && s[|s| - 1] !in s[..|s| - 1]
    ensures FirstIndex(s, s[|s| - 1]) == |s| - 1
  {
  }

  /** Distinct elements have distinct first occurrences. */
  lemma FirstIndexInjective<T>(s: seq<T>, x: T, y: T)
    requires x in s && y in s && x != y
    ensures FirstIndex(s, x) != FirstIndex(s, y)
  {
  }

  /** The Counter's keys come in the order of their first occurrence. */
  lemma {:induction false} KeysInFirstSeenOrder<T(!new)>(s: seq<T>, i: nat, j: nat)
    requires i < j < |Keys(s)|
    ensures FirstIndex(s, Keys(s)[i]) < FirstIndex(s, Keys(s)[j])
  {
    var s' := s[..|s| - 1];
    var k' := Keys(s');
    assert Keys(s)[i] == k'[i] && k'[i] in s';
    FirstIndexOfPrefix(s, |s| - 1, k'[i]);
    if j < |k'| {
      KeysInFirstSeenOrder(s', i, j);
      assert Keys(s)[j] == k'[j] && k'[j] in s';
      FirstIndexOfPrefix(s, |s| - 1, k'[j]);
    } else {
      FirstIndexOfNewLast(s);
    }
  }

  /** The Counter's keys are distinct. */
  lemma KeysDistinct<T(!new)>(s: seq<T>, i: nat, j: nat)
    requires i < j < |Keys(s)|
    ensures Keys(s)[i] != Keys(s)[j]
  {
    KeysInFirstSeenOrder(s, i, j);
  }

  /**
   * The first element of `scan` (not in `excluded`) whose count in `all` is maximal,
   * scanning left to right and replacing the current best only on a strictly greater count
   * (Python's `max` with a key).
   */
  function FirstMax<T(==,!new)>(scan: seq<T>, all: seq<T>, excluded: set<T>): Option<T> {
    if scan == [] then None
    else
      var best := FirstMax(scan[..|scan| - 1], all, excluded);
      var x := scan[|scan| - 1];
      if x in excluded then best
      else if best.None? || Count(all, x) > Count(all, best.value) then Some(x)
      else best
  }

  /** `FirstMax` finds a maximal element exactly when one is left, and the first-seen one among ties. */
  lemma {:induction false} FirstMaxSpec<T(!new)>(scan: seq<T>, all: seq<T>, excluded: set<T>)
    ensures FirstMax(scan, all, excluded).None? <==> forall x :: x in scan ==> x in excluded
    ensures FirstMax(scan, all, excluded).Some? ==>
              var r := FirstMax(scan, all, excluded).value;
              && r in scan && r !in excluded
              && (forall x :: x in scan && x !in excluded ==> Count(all, x) <= Count(all, r))
              && (forall p :: (0 <= p < |scan| && scan[p] !in excluded && Count(all, scan[p]) == Count(all, r)) ==>
                                FirstIndex(scan, r) <= p)
  {
    if scan != [] {
      var init := scan[..|scan| - 1];
      var x := scan[|scan| - 1];
      FirstMaxSpec(init, all, excluded);
      assert scan == init + [x];
      var best := FirstMax(init, all, excluded);
      if best.Some? {
        FirstIndexOfPrefix(scan, |scan| - 1, best.value);
      }
      assert forall p :: 0 <= p < |init| ==> scan[p] == init[p];
    }
  }

  /**
   * The up to `n` elements of `s`, not in `excluded`, that come first when the distinct
   * elements are ranked by count descending, first occurrence breaking ties.
   */
  function Top<T(==,!new)>(s: seq<T>, n: nat, excluded: set<T>): (r: seq<T>)
    ensures |r| <= n
    decreases n
  {
    if n == 0 then []
    else
      match FirstMax(s, s, excluded)
      case None => []
      case Some(b) => [b] + Top(s, n - 1, excluded + {b})
  }

  /** The elements `Top` keeps: at most `n`, distinct, taken from `s`, none excluded, and all of them if fewer than `n` remain. */
  lemma {:induction false} TopSelects<T(!new)>(s: seq<T>, n: nat, excluded: set<T>)
    ensures |Top(s, n, excluded)| <= n && NoDuplicates(Top(s, n, excluded))
    ensures forall x :: x in Top(s, n, excluded) ==> x in s && x !in excluded
    ensures |Top(s, n, excluded)| == n || forall x :: x in s ==> x in excluded || x in Top(s, n, excluded)
    decreases n
  {
    if n > 0 {
      FirstMaxSpec(s, s, excluded);
      if FirstMax(s, s, excluded).Some? {
        var b := FirstMax(s, s, excluded).value;
        TopSelects(s, n - 1, excluded + {b});
      }
    }
  }

  /** Counts never increase along the result of `Top`. */
  lemma {:induction false} TopRanked<T(!new)>(s: seq<T>, n: nat, excluded: set<T>, i: nat, j: nat)
    requires i < j < |Top(s, n, excluded)|
    ensures Count(s, Top(s, n, excluded)[i]) >= Count(s, Top(s, n, excluded)[j])
    decreases n
  {
    FirstMaxSpec(s, s, excluded);
    var b := FirstMax(s, s, excluded).value;
    var rest := Top(s, n - 1, excluded + {b});
    assert Top(s, n, excluded) == [b] + rest;
    if i == 0 {
      TopSelects(s, n - 1, excluded + {b});
      assert rest[j - 1] in rest;
    } else {
      TopRanked(s, n - 1, excluded + {b}, i - 1, j - 1);
    }
  }

  /** Elements of the result of `Top` with equal counts appear in first-seen order. */
  lemma {:induction false} TopTiesInFirstSeenOrder<T(!new)>(s: seq<T>, n: nat, excluded: set<T>, i: nat, j: nat)
    requires i < j < |Top(s, n, excluded)|
    requires Count(s, Top(s, n, excluded)[i]) == Count(s, Top(s, n, excluded)[j])
    ensures FirstIndex(s, Top(s, n, excluded)[i]) < FirstIndex(s, Top(s, n, excluded)[j])
    decreases n
  {
    FirstMaxSpec(s, s, excluded);
    var b := FirstMax(s, s, excluded).value;
    var rest := Top(s, n - 1, excluded + {b});
    assert Top(s, n, excluded) == [b] + rest;
    if i == 0 {
      TopSelects(s, n - 1, excluded + {b});
      var y := rest[j - 1];
      assert y in rest;
      var p := FirstIndex(s, y);
      assert s[p] == y;
      FirstIndexInjective(s, b, y);
    } else {
      TopTiesInFirstSeenOrder(s, n - 1, excluded + {b}, i - 1, j - 1);
    }
  }

  /**
   * Nothing `Top` leaves out outranks what it keeps, and an element left out with an
   * equal count was seen later than every kept one it ties with.
   */
  lemma {:induction false} TopOmitsOnlyLower<T(!new)>(s: seq<T>, n: nat, excluded: set<T>, x: T, y: T)
    requires x in Top(s, n, excluded) && y in s && y !in excluded && y !in Top(s, n, excluded)
    ensures Count(s, y) <= Count(s, x)
    ensures Count(s, y) == Count(s, x) ==> FirstIndex(s, x) < FirstIndex(s, y)
    decreases n
  {
    FirstMaxSpec(s, s, excluded);
    var b := FirstMax(s, s, excluded).value;
    var rest := Top(s, n - 1, excluded + {b});
    assert Top(s, n, excluded) == [b] + rest;
    if x == b {
      var p := FirstIndex(s, y);
      assert s[p] == y;
      FirstIndexInjective(s, b, y);
    } else {
      TopOmitsOnlyLower(s, n - 1, excluded + {b}, x, y);
    }
  }

  /** `Counter(s).most_common(n)`, keys only. */
  function MostCommon<T(==,!new)>(s: seq<T>, n: nat): (r: seq<T>)
    ensures |r| <= n
  {
    Top(s, n, {})
  }

  /**
   * `Counter(s).most_common(1)[0][0]`: for one element `most_common` is `max` over the
   * items by count, the first maximal key in first-seen order.
   */
  function Majority<T(==,!new)>(s: seq<T>): (m: T)
    requires s != []
    ensures m in s
  {
    FirstMaxSpec(s, s, {});
    assert s[0] in s;
    FirstMax(s, s, {}).value
  }

  /** The majority element is a most frequent element, and among equally frequent ones the first seen. */
  lemma MajorityIsFirstMode<T(!new)>(s: seq<T>)
    requires s != []
    ensures forall x :: Count(s, x) <= Count(s, Majority(s))
    ensures forall p :: 0 <= p < |s| && Count(s, s[p]) == Count(s, Majority(s)) ==> FirstIndex(s, Majority(s)) <= p
  {
    FirstMaxSpec(s, s, {});
    forall x ensures Count(s, x) <= Count(s, Majority(s)) {
      if x !in s {
        assert multiset(s)[x] == 0;
      }
    }
  }

  /** `most_common(1)` is the one-element list holding the majority element. */
  lemma MostCommonOneIsMajority<T(!new)>(s: seq<T>)
    requires s != []
    ensures MostCommon(s, 1) == [Majority(s)]
  {
    FirstMaxSpec(s, s, {});
    assert s[0] in s;
  }

  /** `chain(*xss)`: the concatenation of a list of lists. */
  function Flatten<T(!new)>(xss: seq<seq<T>>): (r: seq<T>)
    ensures forall xs, x :: xs in xss && x in xs ==> x in r
  {
    if xss == [] then []
    else
      var init := xss[..|xss| - 1];
      assert forall xs :: xs in xss ==> xs in init || xs == xss[|xss| - 1];
      Flatten(init) + xss[|xss| - 1]
  }
}
