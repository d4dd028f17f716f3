/**
  Bedtime tips from recent onsets: the mean and the spread of the onset
  hours decide at most two short tips. The clock hour of a date comes from
  the calendar, which is a parameter here. Averages are exact; the standard
  deviation test "above 2" is the variance test "above 4".
*/
module Tips {
  import opened Calendar
  import opened History
  import opened Seqs

  const MinEvents := 5

  const ConsistencyText := "Bedtime varies a lot. A steadier schedule may help you fall asleep faster."
  const VeryLateText := "You're going to bed very late. Consider a wind-down an hour earlier."
  const PastMidnightText := "You're consistently past midnight. Try a gentle screen-off routine earlier."
  const EarlyText := "Nice! Your average bedtime is relatively early\U{2014}keep the rhythm."

  datatype Tip = Tip(text: string)

  /** The sum of `f` over the values, first to last. */
  function SumOf(xs: seq<real>, f: real -> real): real {
    if xs == [] then 0.0 else f(xs[0]) + SumOf(xs[1..], f)
  }

  function Identity(x: real): real {
    x
  }

  function SquaredDeviation(m: real): real -> real {
    (x: real) => (x - m) * (x - m)
  }

  function Mean(xs: seq<real>): real
    requires |xs| > 0
  {
    SumOf(xs, Identity) / |xs| as real
  }

  /** The population variance: the mean squared distance from the mean. */
  function Variance(xs: seq<real>): real
    requires |xs| > 0
  {
    SumOf(xs, SquaredDeviation(Mean(xs))) / |xs| as real
  }

  /** Taking one value out of the middle of the sum. */
  lemma {:induction false} SumOfRemove(xs: seq<real>, j: nat, f: real -> real)
    requires j < |xs|
    ensures SumOf(xs, f) == f(xs[j]) + SumOf(xs[..j] + xs[j + 1..], f)
  {
    if j == 0 {
      assert xs[..0] + xs[1..] == xs[1..];
    } else {
      var tail := xs[1..];
      SumOfRemove(tail, j - 1, f);
      assert xs[..j] + xs[j + 1..] == [xs[0]] + (tail[..j - 1] + tail[j..]);
    }
  }

  /** A sum does not depend on the order of the values. */
  lemma {:induction false} SumOfPermutation(a: seq<real>, b: seq<real>, f: real -> real)
    requires multiset(a) == multiset(b)
    ensures SumOf(a, f) == SumOf(b, f)
    decreases |a|
  {
    assert |a| == |multiset(a)| == |multiset(b)| == |b|;
    if a != [] {
      assert a[0] in multiset(b);
      var j :| 0 <= j < |b| && b[j] == a[0];
      var rest := b[..j] + b[j + 1..];
      MultisetWithout(b, j);
      MultisetTail(a);
      SumOfPermutation(a[1..], rest, f);
      SumOfRemove(b, j, f);
    }
  }

  /** Values between `lo` and `hi` sum to between `n * lo` and `n * hi`. */
  lemma {:induction false} SumBounds(xs: seq<real>, lo: real, hi: real)
    requires forall i :: 0 <= i < |xs| ==> lo <= xs[i] <= hi
    ensures lo * |xs| as real <= SumOf(xs, Identity) <= hi * |xs| as real
  {
    if xs != [] {
      var m := |xs[1..]| as real;
      SumBounds(xs[1..], lo, hi);
      assert |xs| as real == m + 1.0;
      assert SumOf(xs, Identity) == xs[0] + SumOf(xs[1..], Identity);
      assert lo * m + lo <= SumOf(xs, Identity) <= hi * m + hi;
      assert lo * (m + 1.0) == lo * m + lo && hi * (m + 1.0) == hi * m + hi;
    }
  }

  /** Values between `lo` and `hi` have their mean between them too. */
  lemma MeanBounds(xs: seq<real>, lo: real, hi: real)
    requires |xs| > 0
    requires forall i :: 0 <= i < |xs| ==> lo <= xs[i] <= hi
    ensures lo <= Mean(xs) <= hi
  {
    SumBounds(xs, lo, hi);
    var n := |xs| as real;
    assert Mean(xs) * n == SumOf(xs, Identity);
  }

  /** The onset hours of the events, as the calendar reports them. */
  function HoursOf(events: seq<SleepEvent>, hourOf: Date -> int): (h: seq<real>)
    ensures |h| == |events|
    ensures forall i :: 0 <= i < |h| ==> h[i] == hourOf(events[i].date) as real
  {
    seq(|events|, i requires 0 <= i < |events| => hourOf(events[i].date) as real)
  }

  /** The tip about the average bedtime, if any. */
  function BedtimeTips(mean: real): seq<Tip> {
    if mean >= 0.0 && mean < 2.0 then [Tip(VeryLateText)]
    else if mean > 23.0 || mean < 1.0 then [Tip(PastMidnightText)]
    else if mean < 22.0 then [Tip(EarlyText)]
    else []
  }

  /** The tips for a list of onset hours. */
  function TipsFor(hours: seq<real>): seq<Tip> {
    if |hours| < MinEvents then []
    else (if Variance(hours) > 4.0 then [Tip(ConsistencyText)] else []) + BedtimeTips(Mean(hours))
  }

  /**
    At most two tips; the consistency tip comes first when present, and is
    present exactly when the variance exceeds 4 and there are enough onsets.
  */
  lemma TipsShape(hours: seq<real>)
    ensures |TipsFor(hours)| <= 2
    ensures |hours| < MinEvents ==> TipsFor(hours) == []
    ensures Tip(ConsistencyText) in TipsFor(hours) <==> |hours| >= MinEvents && Variance(hours) > 4.0
    ensures Tip(ConsistencyText) in TipsFor(hours) ==> TipsFor(hours)[0] == Tip(ConsistencyText)
  {
  }

  /**
    For clock hours (0 to 23) the bedtime tip depends on the mean alone:
    "very late" below 2, "early" from 2 up to 22, none from 22; the
    "past midnight" tip can never be given.
  */
  lemma BedtimeTipForClockHours(hours: seq<real>)
    requires |hours| >= MinEvents
    requires forall i :: 0 <= i < |hours| ==> 0.0 <= hours[i] <= 23.0
    ensures Tip(VeryLateText) in TipsFor(hours) <==> Mean(hours) < 2.0
    ensures Tip(EarlyText) in TipsFor(hours) <==> 2.0 <= Mean(hours) < 22.0
    ensures Tip(PastMidnightText) !in TipsFor(hours)
  {
    MeanBounds(hours, 0.0, 23.0);
    var c := if Variance(hours) > 4.0 then [Tip(ConsistencyText)] else [];
    var b := BedtimeTips(Mean(hours));
    assert TipsFor(hours) == c + b;
    assert Tip(VeryLateText) !in c && Tip(EarlyText) !in c && Tip(PastMidnightText) !in c;
  }

  /** The tips depend only on which hours occur how often, not on their order. */
  lemma TipsOrderIndependent(a: seq<real>, b: seq<real>)
    requires multiset(a) == multiset(b)
    ensures TipsFor(a) == TipsFor(b)
  {
    assert |a| == |multiset(a)| == |multiset(b)| == |b|;
    if |a| >= MinEvents {
      SumOfPermutation(a, b, Identity);
      assert Mean(a) == Mean(b);
      SumOfPermutation(a, b, SquaredDeviation(Mean(a)));
    }
  }

  /** The tips for the events' onset hours, built up one conditional append at a time. */
  method TipsFromEvents(events: seq<SleepEvent>, hourOf: Date -> int) returns (out: seq<Tip>)
    ensures out == TipsFor(HoursOf(events, hourOf))
  {
    if |events| < MinEvents {
      return [];
    }
    var hours := HoursOf(events, hourOf);
    var n := |hours| as real;
    var mean := SumOf(hours, Identity) / n;
    var variance := SumOf(hours, SquaredDeviation(mean)) / n;

    out := [];
    if variance > 4.0 {
      out := out + [Tip(ConsistencyText)];
    }
    if mean >= 0.0 && mean < 2.0 {
      out := out + [Tip(VeryLateText)];
    } else if mean > 23.0 || mean < 1.0 {
      out := out + [Tip(PastMidnightText)];
    } else if mean < 22.0 {
      out := out + [Tip(EarlyText)];
    }
  }

}
