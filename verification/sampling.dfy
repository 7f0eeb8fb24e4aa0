/**
 * Extremes of a burst of potentiometer readings, as the calibration code computes them:
 * start from the first reading and keep the larger (smaller) of it and each further one.
 */
module Sampling {

  ghost predicate IsMaxOf(m: int, s: seq<int>) {
    (exists i :: 0 <= i < |s| && s[i] == m) && forall i :: 0 <= i < |s| ==> s[i] <= m
  }

  ghost predicate IsMinOf(m: int, s: seq<int>) {
    (exists i :: 0 <= i < |s| && s[i] == m) && forall i :: 0 <= i < |s| ==> m <= s[i]
  }

  /** The largest reading. */
  function SeqMax(s: seq<int>): (m: int)
    requires |s| > 0
    ensures IsMaxOf(m, s)
  {
    if |s| == 1 then s[0]
    else
      var rest := SeqMax(s[1..]);
      assert forall i :: 1 <= i < |s| ==> s[i] == s[1..][i - 1];
      if s[0] > rest then s[0] else rest
  }

  /** The smallest reading. */
  function SeqMin(s: seq<int>): (m: int)
    requires |s| > 0
    ensures IsMinOf(m, s)
  {
    if |s| == 1 then s[0]
    else
      var rest := SeqMin(s[1..]);
      assert forall i :: 1 <= i < |s| ==> s[i] == s[1..][i - 1];
      if s[0] < rest then s[0] else rest
  }

  /** The running maximum of the calibration loops. */
  method MaxReading(samples: seq<int>) returns (m: int)
    requires |samples| > 0
    ensures m == SeqMax(samples)
  {
    m := samples[0];
    var j := 1;
    while j < |samples|
      invariant 1 <= j <= |samples|
      invariant exists i :: 0 <= i < j && samples[i] == m
      invariant forall i :: 0 <= i < j ==> samples[i] <= m
    {
      if samples[j] > m {
        m := samples[j];
      }
      j := j + 1;
    }
  }

  /** The running minimum of the calibration loops. */
  method MinReading(samples: seq<int>) returns (m: int)
    requires |samples| > 0
    ensures m == SeqMin(samples)
  {
    m := samples[0];
    var j := 1;
    while j < |samples|
      invariant 1 <= j <= |samples|
      invariant exists i :: 0 <= i < j && samples[i] == m
      invariant forall i :: 0 <= i < j ==> m <= samples[i]
    {
      if samples[j] < m {
        m := samples[j];
      }
      j := j + 1;
    }
  }
}
