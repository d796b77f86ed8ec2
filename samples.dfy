/** Operations on a frame's sample sequence. */
module Samples {

  /** LINQ `Reverse`: the same samples, last first. */
  function Reverse(s: seq<real>): (r: seq<real>)
    ensures |r| == |s|
    ensures forall k :: 0 <= k < |s| ==> r[k] == s[|s| - 1 - k]
  {
    if |s| == 0 then [] else [s[|s| - 1]] + Reverse(s[..|s| - 1])
  }

  lemma ReverseReverse(s: seq<real>)
    ensures Reverse(Reverse(s)) == s
  {
    var r := Reverse(Reverse(s));
    assert forall k :: 0 <= k < |s| ==> r[k] == s[k];
  }

  /** The sum over the samples of how many items each one draws. */
  function Tally(s: seq<real>, weight: real -> nat): nat
  {
    if |s| == 0 then 0 else Tally(s[..|s| - 1], weight) + weight(s[|s| - 1])
  }

  lemma {:induction false} TallyAppend(a: seq<real>, b: seq<real>, weight: real -> nat)
    ensures Tally(a + b, weight) == Tally(a, weight) + Tally(b, weight)
  {
    if |b| > 0 {
      assert (a + b)[..|a + b| - 1] == a + b[..|b| - 1];
      TallyAppend(a, b[..|b| - 1], weight);
    } else {
      assert a + b == a;
    }
  }

  /** Drawing the samples in reverse order draws as many items. */
  lemma {:induction false} TallyReverse(s: seq<real>, weight: real -> nat)
    ensures Tally(Reverse(s), weight) == Tally(s, weight)
  {
    if |s| > 0 {
      var last, init := s[|s| - 1], s[..|s| - 1];
      TallyReverse(init, weight);
      TallyAppend([last], Reverse(init), weight);
      assert [last][..0] == [];
    }
  }

  /** The Bars and Spine strategies draw one item for a sample that is not exactly
      zero and none for a zero sample. */
  function NonZero(v: real): nat
  {
    if v == 0.0 then 0 else 1
  }

  /** Number of samples that are not exactly zero: at most the number of samples, and
      zero exactly when every sample is zero. */
  lemma {:induction false} NonZeroTally(s: seq<real>)
    ensures Tally(s, NonZero) <= |s|
    ensures Tally(s, NonZero) == 0 <==> forall k :: 0 <= k < |s| ==> s[k] == 0.0
  {
    if |s| > 0 {
      NonZeroTally(s[..|s| - 1]);
      assert forall k :: 0 <= k < |s| - 1 ==> s[..|s| - 1][k] == s[k];
    }
  }
}
