/**
  The sleep score shown for an onset: a guard on the number of heart-rate
  samples, the window of samples handed to the scoring kernel, and the label
  for a score. The kernel itself is a parameter; it reports -1 when it
  cannot score and otherwise a value from 0 to 100.
*/
module Scoring {
  import opened Wrappers
  import opened Calendar
  import opened Seqs

  const MinSamples := 5
  const MaxWindow: nat := 120

  const LikelyAwake := "Likely Awake"
  const PossiblyAsleep := "Possibly Asleep"
  const LikelyAsleep := "Likely Asleep"

  /** The heart rates of the most recent samples, at most 120 of them, oldest first. */
  function Window(points: seq<(Date, real)>): (w: seq<real>)
    ensures |w| <= MaxWindow
    ensures |points| <= MaxWindow ==> |w| == |points|
    ensures |points| > MaxWindow ==> |w| == MaxWindow
    ensures forall i :: 0 <= i < |w| ==> w[i] == points[|points| - |w| + i].1
  {
    var last := KeepLast(points, MaxWindow);
    seq(|last|, i requires 0 <= i < |last| => last[i].1)
  }

  /**
    The score of a series: none with fewer than five samples or when the
    kernel reports -1, otherwise the kernel's score of the window.
  */
  function FromBPMSeries(points: seq<(Date, real)>, kernel: seq<real> -> int): (r: Option<int>)
    ensures |points| < MinSamples ==> r.None?
    ensures |points| >= MinSamples ==> (r.Some? <==> kernel(Window(points)) >= 0)
    ensures r.Some? ==> r.value >= 0 && r.value == kernel(Window(points))
  {
    if |points| < MinSamples then None
    else
      var score := kernel(Window(points));
      if score >= 0 then Some(score) else None
  }

  /** A score the kernel can produce always yields a score in 0..100 or none. */
  lemma ScoreInRange(points: seq<(Date, real)>, kernel: seq<real> -> int)
    requires var k := kernel(Window(points)); k == -1 || 0 <= k <= 100
    ensures var r := FromBPMSeries(points, kernel); r.Some? ==> 0 <= r.value <= 100
    ensures |points| >= MinSamples && FromBPMSeries(points, kernel).None? ==> kernel(Window(points)) == -1
  {
  }

  /** The label shown for a score. */
  function Label(score: int): (l: string)
    ensures l == LikelyAwake <==> score < 35
    ensures l == PossiblyAsleep <==> 35 <= score < 65
    ensures l == LikelyAsleep <==> score >= 65
  {
    if score < 35 then LikelyAwake
    else if score < 65 then PossiblyAsleep
    else LikelyAsleep
  }

  /** How asleep a label says the user is, from 0 (awake) to 2. */
  function Sleepiness(text: string): nat {
    if text == LikelyAwake then 0
    else if text == PossiblyAsleep then 1
    else 2
  }

  /** A higher score never gives a more wakeful label. */
  lemma LabelMonotone(a: int, b: int)
    requires a <= b
    ensures Sleepiness(Label(a)) <= Sleepiness(Label(b))
  {
  }

}
