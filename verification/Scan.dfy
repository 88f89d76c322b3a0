/** utils/collection/scan.go: comparing two slices as collections, by counting and by greedy matching. */
module Scan {
  import opened Model

  // --- Counting ------------------------------------------------------------------------------------

  /** The count map of a slice: an entry for each element, holding its multiplicity. */
  ghost predicate Counts<T(!new)>(count: map<T, nat>, s: seq<T>) {
    && (forall x :: x in count <==> x in s)
    && (forall x :: x in s ==> count[x] == multiset(s)[x])
  }

  method CountElements<T(==,!new)>(s: seq<T>) returns (count: map<T, nat>)
    ensures Counts(count, s)
  {
    count := map[];
    for i := 0 to |s|
      invariant Counts(count, s[..i])
    {
      assert s[..i + 1] == s[..i] + [s[i]];
      if s[i] in count {
        count := count[s[i] := count[s[i]] + 1];
      } else {
        assert multiset(s[..i])[s[i]] == 0;
        count := count[s[i] := 1];
      }
    }
    assert s[..|s|] == s;
  }

  lemma SubsetOfSameSize<T>(a: multiset<T>, b: multiset<T>)
    requires a <= b && |a| == |b|
    ensures a == b
  {
    assert b == a + (b - a);
    assert |b - a| == 0;
  }

  /** Only the keys of the first count map are checked; since the lengths agree, that is multiset equality. */
  method SameAllElements<T(==,!new)>(s1: seq<T>, s2: seq<T>) returns (same: bool)
    ensures same <==> multiset(s1) == multiset(s2)
  {
    if |s1| != |s2| {
      assert |multiset(s1)| == |s1| && |multiset(s2)| == |s2|;
      return false;
    }
    var count1 := CountElements(s1);
    var count2 := CountElements(s2);
    var todo: set<T> := count1.Keys;
    while todo != {}
      invariant todo <= count1.Keys
      invariant forall x :: x in count1 && x !in todo ==> multiset(s1)[x] == multiset(s2)[x]
      decreases todo
    {
      var key := Pick(todo);
      // A missing key of a Go map reads as zero.
      var other := if key in count2 then count2[key] else 0;
      assert other == multiset(s2)[key];
      if other != count1[key] {
        return false;
      }
      todo := todo - {key};
    }
    assert multiset(s1) <= multiset(s2) by {
      forall x
        ensures multiset(s1)[x] <= multiset(s2)[x]
      {
        assert x in s1 <==> x in count1;
      }
    }
    SubsetOfSameSize(multiset(s1), multiset(s2));
    return true;
  }

  // --- Greedy matching -----------------------------------------------------------------------------

  /** q sends the indices of s1 one to one to indices of s2, matching equal elements. */
  ghost predicate Matching<T>(s1: seq<T>, s2: seq<T>, equal: (T, T) -> bool, q: seq<nat>) {
    && |q| == |s1|
    && (forall i :: 0 <= i < |q| ==> q[i] < |s2| && equal(s1[i], s2[q[i]]))
    && (forall i, j :: 0 <= i < j < |q| ==> q[i] != q[j])
  }

  ghost predicate Matchable<T>(s1: seq<T>, s2: seq<T>, equal: (T, T) -> bool) {
    |s1| == |s2| && exists q :: Matching(s1, s2, equal, q)
  }

  ghost predicate Equivalence<T(!new)>(equal: (T, T) -> bool) {
    && (forall x :: equal(x, x))
    && (forall x, y :: equal(x, y) ==> equal(y, x))
    && (forall x, y, z :: equal(x, y) && equal(y, z) ==> equal(x, z))
  }

  /** Elements with one partner in common have all partners in common. */
  ghost predicate PartnersShared<T(!new)>(equal: (T, T) -> bool) {
    forall a, b, c, d :: equal(a, b) && equal(c, b) && equal(c, d) ==> equal(a, d)
  }

  lemma EquivalenceSharesPartners<T(!new)>(equal: (T, T) -> bool)
    requires Equivalence(equal)
    ensures PartnersShared(equal)
  {
    forall a, b, c, d | equal(a, b) && equal(c, b) && equal(c, d)
      ensures equal(a, d)
    {
      assert equal(b, c);
      assert equal(a, c);
    }
  }

  function Image(q: seq<nat>, domain: set<nat>): set<nat>
    requires forall i :: i in domain ==> i < |q|
  {
    set i | i in domain :: q[i]
  }

  lemma {:induction false} ImageSize(q: seq<nat>, domain: set<nat>)
    requires forall i :: i in domain ==> i < |q|
    requires forall i, j :: 0 <= i < j < |q| ==> q[i] != q[j]
    ensures |Image(q, domain)| == |domain|
    decreases domain
  {
    if domain != {} {
      assert |domain| > 0;
      var i := AnyOf(domain);
      ImageSize(q, domain - {i});
      assert q[i] !in Image(q, domain - {i}) by {
        forall j | j in domain - {i}
          ensures q[j] != q[i]
        {
        }
      }
      assert Image(q, domain) == Image(q, domain - {i}) + {q[i]};
    } else {
      assert Image(q, domain) == {};
    }
  }

  ghost function AnyOf<T>(s: set<T>): (x: T)
    requires s != {}
    ensures x in s
  {
    var x :| x in s; x
  }

  lemma {:induction false} SubsetIsSmaller(a: set<nat>, b: set<nat>)
    requires a <= b
    ensures |a| <= |b|
  {
    assert b == a + (b - a);
  }

  /** x and y can both be matched with one element of s2. */
  ghost predicate Compete<T>(s2: seq<T>, equal: (T, T) -> bool, x: T, y: T) {
    exists j: nat :: j < |s2| && equal(x, s2[j]) && equal(y, s2[j])
  }

  /** The elements before i that compete with s1[i]. */
  ghost function Rivals<T>(s1: seq<T>, s2: seq<T>, equal: (T, T) -> bool, i: nat): set<nat>
    requires i < |s1|
  {
    set k: nat | k < i && Compete(s2, equal, s1[i], s1[k])
  }

  /** A one-to-one choice for a set cannot fit into the choices made for a smaller one. */
  lemma ChoicesAreMany(p: seq<nat>, q: seq<nat>, before: set<nat>, rivals: set<nat>)
    requires forall i :: i in before ==> i < |p|
    requires forall i :: i in rivals ==> i < |q|
    requires forall i, j :: 0 <= i < j < |p| ==> p[i] != p[j]
    requires forall i, j :: 0 <= i < j < |q| ==> q[i] != q[j]
    requires forall k :: k in rivals ==> q[k] in Image(p, before)
    ensures |rivals| <= |before|
  {
    ImageSize(q, rivals);
    ImageSize(p, before);
    SubsetIsSmaller(Image(q, rivals), Image(p, before));
  }

  /** Whatever the element p is stuck at, or one of its rivals, may be matched with is taken by the rivals. */
  lemma RivalsTakeAll<T(!new)>(s1: seq<T>, s2: seq<T>, equal: (T, T) -> bool, p: seq<nat>, q: seq<nat>, k: nat)
    requires PartnersShared(equal) && |p| < |s1| && Matching(s1[..|p|], s2, equal, p) && Matching(s1, s2, equal, q)
    requires forall j: nat :: j < |s2| && equal(s1[|p|], s2[j]) ==> j in p
    requires k in Rivals(s1, s2, equal, |p|) + {|p|}
    ensures k < |q| && q[k] in Image(p, Rivals(s1, s2, equal, |p|))
  {
    var i := |p|;
    if k < i {
      var j: nat :| j < |s2| && equal(s1[i], s2[j]) && equal(s1[k], s2[j]);
      assert equal(s1[k], s2[q[k]]);
    }
    assert equal(s1[i], s2[q[k]]);
    var n :| 0 <= n < |p| && p[n] == q[k];
    assert equal(s1[..i][n], s2[p[n]]);
    assert Compete(s2, equal, s1[i], s1[n]);
  }

  lemma NoRoom(p: seq<nat>, q: seq<nat>, before: set<nat>)
    requires forall i :: i in before ==> i < |p|
    requires forall k :: k in before + {|p|} ==> k < |q| && q[k] in Image(p, before)
    requires forall i, j :: 0 <= i < j < |p| ==> p[i] != p[j]
    ensures !(forall i, j :: 0 <= i < j < |q| ==> q[i] != q[j])
  {
    if forall i, j :: 0 <= i < j < |q| ==> q[i] != q[j] {
      ChoicesAreMany(p, q, before, before + {|p|});
      assert false;
    }
  }

  /** Where the greedy choice is stuck at element i, the elements it competes with have used up all there
      is for them together: no matching exists. */
  lemma StuckMeansUnmatchable<T(!new)>(s1: seq<T>, s2: seq<T>, equal: (T, T) -> bool, p: seq<nat>, q: seq<nat>)
    requires PartnersShared(equal) && |p| < |s1|
    requires Matching(s1[..|p|], s2, equal, p)
    requires forall j: nat :: j < |s2| && equal(s1[|p|], s2[j]) ==> j in p
    ensures !Matching(s1, s2, equal, q)
  {
    if Matching(s1, s2, equal, q) {
      var rivals := Rivals(s1, s2, equal, |p|);
      forall k | k in rivals + {|p|}
        ensures k < |q| && q[k] in Image(p, rivals)
      {
        RivalsTakeAll(s1, s2, equal, p, q, k);
      }
      NoRoom(p, q, rivals);
      assert false;
    }
  }

  /** The first unused element of s2 from index j on that equals x; |s2| when there is none. */
  function FirstFree<T>(s2: seq<T>, x: T, equal: (T, T) -> bool, used: set<nat>, j: nat): (k: nat)
    requires j <= |s2|
    ensures j <= k <= |s2| && (k < |s2| ==> k !in used && equal(x, s2[k]))
    ensures forall n: nat :: j <= n < k && equal(x, s2[n]) ==> n in used
    decreases |s2| - j
  {
    if j == |s2| then j
    else if j !in used && equal(x, s2[j]) then j
    else FirstFree(s2, x, equal, used, j + 1)
  }

  /** The greedy choice for what is left of s1, some of s2 being used up. */
  predicate Greedy<T>(s1: seq<T>, s2: seq<T>, equal: (T, T) -> bool, used: set<nat>) {
    s1 == [] ||
    (var j := FirstFree(s2, s1[0], equal, used, 0);
     j < |s2| && Greedy(s1[1..], s2, equal, used + {j}))
  }

  /** Greed, with the partial matching p found so far. */
  lemma {:induction false} GreedFindsMatching<T(!new)>(s1: seq<T>, s2: seq<T>, equal: (T, T) -> bool, p: seq<nat>, used: set<nat>)
    requires |s1| == |s2| && |p| <= |s1| && Matching(s1[..|p|], s2, equal, p)
    requires forall j: nat :: j in used <==> j in p
    ensures Greedy(s1[|p|..], s2, equal, used) ==> Matchable(s1, s2, equal)
    ensures PartnersShared(equal) && Matchable(s1, s2, equal) ==> Greedy(s1[|p|..], s2, equal, used)
    decreases |s1| - |p|
  {
    var i := |p|;
    if i == |s1| {
      assert s1[..i] == s1;
    } else {
      var j := FirstFree(s2, s1[i], equal, used, 0);
      if j < |s2| {
        assert s1[i..][1..] == s1[i + 1..];
        assert s1[..i + 1][..i] == s1[..i];
        GreedFindsMatching(s1, s2, equal, p + [j], used + {j});
      } else if PartnersShared(equal) {
        forall q: seq<nat>
          ensures !Matching(s1, s2, equal, q)
        {
          StuckMeansUnmatchable(s1, s2, equal, p, q);
        }
      }
    }
  }

  /** A positive answer always comes with a matching. */
  lemma GreedIsSound<T(!new)>(s1: seq<T>, s2: seq<T>, equal: (T, T) -> bool)
    requires |s1| == |s2|
    ensures Greedy(s1, s2, equal, {}) ==> Matchable(s1, s2, equal)
    ensures PartnersShared(equal) ==> (Greedy(s1, s2, equal, {}) <==> Matchable(s1, s2, equal))
  {
    assert s1[0..] == s1;
    GreedFindsMatching(s1, s2, equal, [], {});
  }

  ghost predicate GreedLosesNothing<T(!new)>(equal: (T, T) -> bool) {
    forall s1, s2 :: |s1| == |s2| && Matchable(s1, s2, equal) ==> Greedy(s1, s2, equal, {})
  }

  /** c is matched with b, the partner it shares with a, and d is left over for a. */
  lemma UnsharedPartnerIsLost<T(!new)>(equal: (T, T) -> bool, a: T, b: T, c: T, d: T)
    requires equal(a, b) && equal(c, b) && equal(c, d) && !equal(a, d)
    ensures Matchable([c, a], [b, d], equal) && !Greedy([c, a], [b, d], equal, {})
  {
    assert Matching([c, a], [b, d], equal, [1, 0]);
    assert FirstFree([b, d], c, equal, {}, 0) == 0;
    assert FirstFree([b, d], a, equal, {0}, 0) == 2;
    assert [c, a][1..] == [a];
  }

  /** The comparisons for which the greedy choice never loses a matching are exactly those under which
      elements with a common partner share all partners: every equivalence, and more. */
  lemma GreedIsEnoughIff<T(!new)>(equal: (T, T) -> bool)
    ensures GreedLosesNothing(equal) <==> PartnersShared(equal)
    ensures Equivalence(equal) ==> GreedLosesNothing(equal)
  {
    if PartnersShared(equal) {
      forall s1: seq<T>, s2: seq<T> | |s1| == |s2| && Matchable(s1, s2, equal)
        ensures Greedy(s1, s2, equal, {})
      {
        GreedIsSound(s1, s2, equal);
      }
    } else {
      var a, b, c, d :| equal(a, b) && equal(c, b) && equal(c, d) && !equal(a, d);
      UnsharedPartnerIsLost(equal, a, b, c, d);
    }
    if Equivalence(equal) {
      EquivalenceSharesPartners(equal);
    }
  }

  method SameAllElementsWithEqualFunc<T(!new)>(s1: seq<T>, s2: seq<T>, equal: (T, T) -> bool) returns (same: bool)
    ensures same <==> |s1| == |s2| && Greedy(s1, s2, equal, {})
    ensures same ==> Matchable(s1, s2, equal)
    ensures PartnersShared(equal) ==> (same <==> Matchable(s1, s2, equal))
  {
    if |s1| != |s2| {
      return false;
    }
    var used := new bool[|s2|](_ => false);
    ghost var taken: set<nat> := {};
    assert s1[0..] == s1;
    for i := 0 to |s1|
      invariant forall j: nat :: j < |s2| ==> (used[j] <==> j in taken)
      invariant Greedy(s1, s2, equal, {}) <==> Greedy(s1[i..], s2, equal, taken)
    {
      assert s1[i..][1..] == s1[i + 1..];
      var found, j := false, 0;
      while j < |s2|
        invariant 0 <= j <= |s2| && !found
        invariant forall k: nat :: k < |s2| ==> (used[k] <==> k in taken)
        invariant FirstFree(s2, s1[i], equal, taken, 0) == FirstFree(s2, s1[i], equal, taken, j)
      {
        if !used[j] && equal(s1[i], s2[j]) {
          used[j] := true;
          found := true;
          break;
        }
        j := j + 1;
      }
      if !found {
        GreedIsSound(s1, s2, equal);
        return false;
      }
      taken := taken + {j};
    }
    GreedIsSound(s1, s2, equal);
    return true;
  }

  /** The comparison need not be an equivalence: matching each number with its successor loses nothing. */
  lemma SuccessorsAreMatched()
    ensures var next := (a: int, b: int) => b == a + 1;
      GreedLosesNothing(next) && !Equivalence(next)
  {
    var next := (a: int, b: int) => b == a + 1;
    GreedIsEnoughIff(next);
    assert !next(0, 0);
  }

  /** Equality up to a tolerance fails the condition, and there the greedy choice can miss a matching: it
      pairs 1 with 0 and is left with 0 and 2. */
  lemma ToleranceDefeatsGreed()
    ensures var near := (a: int, b: int) => -1 <= a - b <= 1;
      !GreedLosesNothing(near) && Matchable([1, 0], [0, 2], near) && !Greedy([1, 0], [0, 2], near, {})
  {
    var near := (a: int, b: int) => -1 <= a - b <= 1;
    UnsharedPartnerIsLost(near, 0, 0, 1, 2);
  }
}
