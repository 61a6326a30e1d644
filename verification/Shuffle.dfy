/**
 The Fisher-Yates shuffle of the setup dispatcher, driven by the answers of the random provider, and the
 proof that answers and orders correspond one to one.
 */
module Shuffle {
  import opened Prelude

  /**
   The provider as the list of values it will still return; asking once more than that, or getting a value
   outside the asked range, is a RANDOM_PROVIDER_FAILURE.
   */
  class RandomProvider {
    var answers: seq<int>

    constructor (answers: seq<int>)
      ensures this.answers == answers
    {
      this.answers := answers;
    }

    method Integer(low: int, high: int) returns (value: Option<int>)
      modifies this
      ensures value == (if old(answers) != [] && low <= old(answers)[0] <= high then Some(old(answers)[0]) else None)
      ensures answers == if old(answers) == [] then [] else old(answers)[1..]
    {
      if answers == [] {
        return None;
      }
      value := if low <= answers[0] <= high then Some(answers[0]) else None;
      answers := answers[1..];
    }
  }

  function Swap<T>(s: seq<T>, i: nat, j: nat): (r: seq<T>)
    requires i < |s| && j < |s|
    ensures |r| == |s|
  {
    s[i := s[j]][j := s[i]]
  }

  /** An answer vector: the answer at index i is drawn from 0..i. */
  predicate Drawable(v: seq<nat>, n: nat) {
    |v| == n && forall i :: 0 <= i < n ==> v[i] <= i
  }

  /** Positions i, i-1, ..., 1 are each swapped with the position the vector names. */
  function Mix<T>(s: seq<T>, v: seq<nat>, i: nat): (r: seq<T>)
    requires i < |s| && Drawable(v, |s|)
    ensures |r| == |s|
    decreases i
  {
    if i == 0 then s else Mix(Swap(s, i, v[i]), v, i - 1)
  }

  function Shuffled<T>(s: seq<T>, v: seq<nat>): (r: seq<T>)
    requires Drawable(v, |s|)
    ensures |r| == |s|
  {
    if s == [] then s else Mix(s, v, |s| - 1)
  }

  // --------------------------------------------------- nothing lost or added

  lemma SwapPermutes<T>(s: seq<T>, i: nat, j: nat)
    requires i < |s| && j < |s|
    ensures multiset(Swap(s, i, j)) == multiset(s)
  {
  }

  lemma {:induction false} MixPermutes<T>(s: seq<T>, v: seq<nat>, i: nat)
    requires i < |s| && Drawable(v, |s|)
    ensures multiset(Mix(s, v, i)) == multiset(s)
    decreases i
  {
    if i > 0 {
      SwapPermutes(s, i, v[i]);
      MixPermutes(Swap(s, i, v[i]), v, i - 1);
    }
  }

  /** Positions above i are final. */
  lemma {:induction false} MixKeepsTail<T>(s: seq<T>, v: seq<nat>, i: nat, k: nat)
    requires i < k < |s| && Drawable(v, |s|)
    ensures Mix(s, v, i)[k] == s[k]
    decreases i
  {
    if i > 0 {
      MixKeepsTail(Swap(s, i, v[i]), v, i - 1, k);
    }
  }

  /** Position i receives the element the vector names. */
  lemma MixPlaces<T>(s: seq<T>, v: seq<nat>, i: nat)
    requires 0 < i < |s| && Drawable(v, |s|)
    ensures Mix(s, v, i)[i] == s[v[i]]
  {
    MixKeepsTail(Swap(s, i, v[i]), v, i - 1, i);
  }

  // -------------------------------------------------------------- bijection

  lemma SwapDistinct<T>(s: seq<T>, i: nat, j: nat)
    requires i < |s| && j < |s| && Distinct(s)
    ensures Distinct(Swap(s, i, j))
  {
    var r := Swap(s, i, j);
    forall a, b | 0 <= a < b < |r|
      ensures r[a] != r[b]
    {
      var a' := if a == i then j else if a == j then i else a;
      var b' := if b == i then j else if b == j then i else b;
      assert r[a] == s[a'] && r[b] == s[b'] && a' != b';
    }
  }

  /** Different answers give different orders. */
  lemma {:induction false} MixInjective<T>(s: seq<T>, v: seq<nat>, w: seq<nat>, i: nat)
    requires i < |s| && Drawable(v, |s|) && Drawable(w, |s|) && Distinct(s)
    requires Mix(s, v, i) == Mix(s, w, i)
    ensures v[..i + 1] == w[..i + 1]
    decreases i
  {
    if i > 0 {
      MixPlaces(s, v, i);
      MixPlaces(s, w, i);
      assert v[i] == w[i];
      SwapDistinct(s, i, v[i]);
      MixInjective(Swap(s, i, v[i]), v, w, i - 1);
      assert v[..i + 1] == v[..i] + [v[i]] && w[..i + 1] == w[..i] + [w[i]];
    } else {
      assert v[0] == 0 && w[0] == 0;
    }
  }

  /** Every order of the first positions is reached by some answers. */
  lemma {:induction false} MixSurjective<T>(s: seq<T>, t: seq<T>, i: nat) returns (v: seq<nat>)
    requires i < |s| && |t| == |s| && multiset(t) == multiset(s) && s[i + 1..] == t[i + 1..]
    ensures Drawable(v, |s|) && Mix(s, v, i) == t
    decreases i
  {
    if i == 0 {
      v := seq(|s|, _ => 0);
      HeadIsForced(s, t);
    } else {
      var j := Locate(s, t, i);
      var swapped := Swap(s, i, j);
      SwapPermutes(s, i, j);
      assert swapped[i..] == [t[i]] + t[i + 1..] == t[i..];
      var w := MixSurjective(swapped, t, i - 1);
      v := w[i := j];
      MixLooksBelow(swapped, v, w, i - 1);
    }
  }

  lemma HeadIsForced<T>(s: seq<T>, t: seq<T>)
    requires |s| == |t| > 0 && multiset(t) == multiset(s) && s[1..] == t[1..]
    ensures s == t
  {
    assert s == [s[0]] + s[1..] && t == [t[0]] + t[1..];
    assert multiset(s) == multiset{s[0]} + multiset(s[1..]);
    assert multiset(t) == multiset{t[0]} + multiset(t[1..]);
    assert multiset(s) - multiset(s[1..]) == multiset{s[0]};
    assert multiset(t) - multiset(t[1..]) == multiset{t[0]};
    assert s[0] in multiset{t[0]};
  }

  lemma SamePrefixes<T>(s: seq<T>, t: seq<T>, n: nat)
    requires n <= |s| == |t| && multiset(t) == multiset(s) && s[n..] == t[n..]
    ensures multiset(s[..n]) == multiset(t[..n])
  {
    assert s == s[..n] + s[n..] && t == t[..n] + t[n..];
    assert multiset(s) == multiset(s[..n]) + multiset(s[n..]);
    assert multiset(t) == multiset(t[..n]) + multiset(s[n..]);
    assert multiset(s) - multiset(s[n..]) == multiset(s[..n]);
  }

  /** The element wanted at position i is still among the first ones. */
  lemma Locate<T>(s: seq<T>, t: seq<T>, i: nat) returns (j: nat)
    requires i < |s| == |t| && multiset(t) == multiset(s) && s[i + 1..] == t[i + 1..]
    ensures j <= i && s[j] == t[i]
  {
    SamePrefixes(s, t, i + 1);
    var front := s[..i + 1];
    assert t[..i + 1][i] == t[i];
    assert t[i] in multiset(front);
    j :| 0 <= j < |front| && front[j] == t[i];
  }

  lemma {:induction false} MixLooksBelow<T>(s: seq<T>, v: seq<nat>, w: seq<nat>, i: nat)
    requires i < |s| && Drawable(v, |s|) && Drawable(w, |s|) && v[..i + 1] == w[..i + 1]
    ensures Mix(s, v, i) == Mix(s, w, i)
    decreases i
  {
    if i > 0 {
      assert v[i] == v[..i + 1][i] == w[..i + 1][i] == w[i];
      assert v[..i] == v[..i + 1][..i] == w[..i + 1][..i] == w[..i];
      MixLooksBelow(Swap(s, i, v[i]), v, w, i - 1);
    }
  }

  /** Every answer vector yields a permutation, and no two yield the same. */
  lemma ShuffleInjective<T>(s: seq<T>, v: seq<nat>, w: seq<nat>)
    requires Drawable(v, |s|) && Drawable(w, |s|) && Distinct(s)
    ensures multiset(Shuffled(s, v)) == multiset(s)
    ensures Shuffled(s, v) == Shuffled(s, w) <==> v == w
  {
    if s != [] {
      MixPermutes(s, v, |s| - 1);
      if Shuffled(s, v) == Shuffled(s, w) {
        MixInjective(s, v, w, |s| - 1);
        assert v[..|s|] == v && w[..|s|] == w;
      }
    }
  }

  /** Every permutation is reached by an answer vector. */
  lemma ShuffleSurjective<T>(s: seq<T>, t: seq<T>) returns (v: seq<nat>)
    requires multiset(t) == multiset(s)
    ensures Drawable(v, |s|) && Shuffled(s, v) == t
  {
    assert |multiset(s)| == |s| && |multiset(t)| == |t|;
    if s == [] {
      v := [];
    } else {
      v := MixSurjective(s, t, |s| - 1);
    }
  }

  // -------------------------------------------------------------- the loop

  /** The vector formed by the next answers, asked for index n-1 first; None if one is missing or out of range. */
  function Answers(answers: seq<int>, n: nat): (v: Option<seq<nat>>)
    ensures v.Some? ==> Drawable(v.value, n)
  {
    if n <= 1 then Some(seq(n, _ => 0))
    else if answers == [] || !(0 <= answers[0] <= n - 1) then None
    else
      var rest := Answers(answers[1..], n - 1);
      if rest.None? then None else Some(rest.value + [answers[0]])
  }

  function Asked(n: nat): nat {
    if n <= 1 then 0 else n - 1
  }

  lemma {:induction false} AnswersEnough(answers: seq<int>, n: nat)
    requires Answers(answers, n).Some?
    ensures Asked(n) <= |answers|
  {
    if n > 1 {
      AnswersEnough(answers[1..], n - 1);
    }
  }

  /** Shuffles the array in place, position by position from the last. */
  method ShuffleInPlace<T>(a: array<T>, random: RandomProvider) returns (ok: bool)
    modifies a, random
    ensures ok <==> Answers(old(random.answers), a.Length).Some?
    ensures ok ==> a[..] == Shuffled(old(a[..]), Answers(old(random.answers), a.Length).value)
    ensures ok ==> Asked(a.Length) <= |old(random.answers)| && random.answers == old(random.answers)[Asked(a.Length)..]
  {
    var index := a.Length - 1;
    ghost var asked := 0;
    ghost var v := Answers(random.answers, a.Length);
    assert random.answers[0..] == random.answers;
    while index > 0
      invariant -1 <= index < a.Length && (a.Length > 0 ==> index >= 0)
      invariant asked == Asked(a.Length) - Asked(index + 1) <= |old(random.answers)|
      invariant random.answers == old(random.answers)[asked..]
      invariant v.Some? <==> Answers(random.answers, index + 1).Some?
      invariant v.Some? ==> v.value[..index + 1] == Answers(random.answers, index + 1).value
      invariant v.Some? && a.Length > 0 ==> Shuffled(old(a[..]), v.value) == Mix(a[..], v.value, index)
    {
      var swapIndex := random.Integer(0, index);
      if swapIndex.None? {
        return false;
      }
      ghost var before := a[..];
      a[index], a[swapIndex.value] := a[swapIndex.value], a[index];
      asked := asked + 1;
      if v.Some? {
        assert v.value[index] == v.value[..index + 1][index] == swapIndex.value;
        assert v.value[..index] == v.value[..index + 1][..index];
        assert a[..] == Swap(before, index, swapIndex.value);
      }
      index := index - 1;
    }
    ok := true;
  }
}
