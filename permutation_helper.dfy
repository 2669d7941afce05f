/**
 * All orderings of a list, as used to index shapeless recipes under every
 * order of their materials (nc.util.PermutationHelper is not part of this
 * model; this is a definition of the same enumeration, in some order).
 */
module PermutationHelper {

  /** The list without its element at index `i`. */
  function RemoveAt<T>(s: seq<T>, i: nat): (r: seq<T>)
    requires i < |s|
    ensures |r| == |s| - 1
    ensures multiset(r) + multiset{s[i]} == multiset(s)
  {
    assert s == s[..i] + [s[i]] + s[i+1..];
    s[..i] + s[i+1..]
  }

  /** `x` put in front of every list of `ps`. */
  function PrependAll<T>(x: T, ps: seq<seq<T>>): (r: seq<seq<T>>)
    ensures |r| == |ps|
    ensures forall k :: 0 <= k < |ps| ==> r[k] == [x] + ps[k]
  {
    seq(|ps|, k requires 0 <= k < |ps| => [x] + ps[k])
  }

  /** Every ordering of `s` (with repeats when `s` has equal elements). */
  function Permutations<T>(s: seq<T>): seq<seq<T>>
    decreases |s|, |s| + 1
  {
    if |s| == 0 then [[]] else PermutationsFrom(s, 0)
  }

  /** The orderings of `s` that start with `s[j]` for some `j >= i`. */
  function PermutationsFrom<T>(s: seq<T>, i: nat): seq<seq<T>>
    requires i <= |s|
    decreases |s|, |s| - i
  {
    if i == |s| then []
    else PrependAll(s[i], Permutations(RemoveAt(s, i))) + PermutationsFrom(s, i + 1)
  }

  lemma {:induction false} PermutationsFromSound<T>(s: seq<T>, i: nat, p: seq<T>)
    requires i <= |s|
    requires p in PermutationsFrom(s, i)
    ensures multiset(p) == multiset(s)
    decreases |s|, |s| - i
  {
    var head := PrependAll(s[i], Permutations(RemoveAt(s, i)));
    if p in head {
      var k :| 0 <= k < |head| && head[k] == p;
      var q := Permutations(RemoveAt(s, i))[k];
      PermutationsSound(RemoveAt(s, i), q);
      assert p == [s[i]] + q;
    } else {
      PermutationsFromSound(s, i + 1, p);
    }
  }

  /** Every list produced is a reordering of the input. */
  lemma {:induction false} PermutationsSound<T>(s: seq<T>, p: seq<T>)
    requires p in Permutations(s)
    ensures multiset(p) == multiset(s)
    decreases |s|, |s| + 1
  {
    if |s| != 0 {
      PermutationsFromSound(s, 0, p);
    }
  }

  lemma {:induction false} PermutationsFromContains<T>(s: seq<T>, i: nat, j: nat, q: seq<T>)
    requires i <= j < |s|
    requires q in Permutations(RemoveAt(s, j))
    ensures [s[j]] + q in PermutationsFrom(s, i)
    decreases j - i
  {
    if i < j {
      PermutationsFromContains(s, i + 1, j, q);
    } else {
      var ps := Permutations(RemoveAt(s, j));
      var k :| 0 <= k < |ps| && ps[k] == q;
      assert PrependAll(s[j], ps)[k] == [s[j]] + q;
    }
  }

  /** Every reordering of the input is produced. */
  lemma {:induction false} PermutationsComplete<T>(s: seq<T>, p: seq<T>)
    requires multiset(p) == multiset(s)
    ensures p in Permutations(s)
    decreases |s|
  {
    if |s| == 0 {
      assert |p| == |multiset(p)| == 0;
      assert p == [];
    } else {
      assert |p| == |multiset(p)| == |multiset(s)| == |s|;
      assert p[0] in multiset(p);
      assert p[0] in multiset(s);
      var j :| 0 <= j < |s| && s[j] == p[0];
      assert p == [p[0]] + p[1..];
      assert multiset(p[1..]) + multiset{p[0]} == multiset(p);
      var rest := RemoveAt(s, j);
      assert multiset(rest) + multiset{s[j]} == multiset(s);
      assert multiset(p[1..]) == multiset(p) - multiset{p[0]};
      assert multiset(rest) == multiset(s) - multiset{s[j]};
      PermutationsComplete(RemoveAt(s, j), p[1..]);
      PermutationsFromContains(s, 0, j, p[1..]);
    }
  }

  /** A list belongs to the enumeration exactly when it reorders the input. */
  lemma PermutationsExactly<T>(s: seq<T>, p: seq<T>)
    ensures p in Permutations(s) <==> multiset(p) == multiset(s)
  {
    if p in Permutations(s) {
      PermutationsSound(s, p);
    }
    if multiset(p) == multiset(s) {
      PermutationsComplete(s, p);
    }
  }
}
