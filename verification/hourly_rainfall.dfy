/**
 Total rainfall over the hourly records of the past day
 (src/services/weatherService.js, `calculate24HourRainfall`): a fold that
 adds each hour's `rain['1h']` amount, counting an hour with no `rain`
 object or no `'1h'` amount as 0.
 */
module HourlyRainfall {
  import opened Common

  /** An hour's `rain` object: the `'1h'` amount in mm, if reported. */
  datatype RainVolume = RainVolume(oneHour: Option<real>)

  datatype HourlyRecord = HourlyRecord(rain: Option<RainVolume>)

  /** `hour.rain ? hour.rain['1h'] || 0 : 0`. */
  function Contribution(h: HourlyRecord): real
  {
    match h.rain
    case None => 0.0
    case Some(v) => v.oneHour.GetOr(0.0)
  }

  /** `reduce((total, hour) => total + contribution, 0)`, folded from the left. */
  function Total(hours: seq<HourlyRecord>): (t: real)
    ensures (forall i :: 0 <= i < |hours| ==> Contribution(hours[i]) >= 0.0) ==> t >= 0.0
  {
    if |hours| == 0 then 0.0 else Total(hours[..|hours| - 1]) + Contribution(hours[|hours| - 1])
  }

  /** The `'1h'` amounts that are present, in order. */
  function PresentAmounts(hours: seq<HourlyRecord>): seq<real>
  {
    if |hours| == 0 then []
    else
      var h := hours[0];
      (if h.rain.Some? && h.rain.value.oneHour.Some? then [h.rain.value.oneHour.value] else [])
      + PresentAmounts(hours[1..])
  }

  lemma {:induction false} PresentAmountsAppend(a: seq<HourlyRecord>, b: seq<HourlyRecord>)
    ensures PresentAmounts(a + b) == PresentAmounts(a) + PresentAmounts(b)
    decreases |a|
  {
    if |a| > 0 {
      assert (a + b)[1..] == a[1..] + b;
      PresentAmountsAppend(a[1..], b);
    } else {
      assert a + b == b;
    }
  }

  /** The fold is the sum of the amounts actually reported; absent ones add nothing. */
  lemma {:induction false} TotalIsSumOfPresent(hours: seq<HourlyRecord>)
    ensures Total(hours) == Sum(PresentAmounts(hours))
    decreases |hours|
  {
    if |hours| > 0 {
      var init, last := hours[..|hours| - 1], hours[|hours| - 1];
      assert hours == init + [last];
      TotalIsSumOfPresent(init);
      PresentAmountsAppend(init, [last]);
      assert [last][1..] == [];
      SumAppend(PresentAmounts(init), PresentAmounts([last]));
      assert Sum(PresentAmounts([last])) == Contribution(last);
    }
  }

  /** Totals add up over consecutive stretches of hours. */
  lemma TotalAppend(a: seq<HourlyRecord>, b: seq<HourlyRecord>)
    ensures Total(a + b) == Total(a) + Total(b)
  {
    TotalIsSumOfPresent(a + b);
    TotalIsSumOfPresent(a);
    TotalIsSumOfPresent(b);
    PresentAmountsAppend(a, b);
    SumAppend(PresentAmounts(a), PresentAmounts(b));
  }

  /** The total does not depend on the order of the hourly records. */
  lemma {:induction false} TotalPermutationInvariant(a: seq<HourlyRecord>, b: seq<HourlyRecord>)
    requires multiset(a) == multiset(b)
    ensures Total(a) == Total(b)
    decreases |a|
  {
    if |a| == 0 {
      assert |b| == |multiset(b)| == 0;
    } else {
      var x := a[0];
      assert x in multiset(b);
      var k :| 0 <= k < |b| && b[k] == x;
      var rest := b[..k] + b[k + 1..];
      assert b == b[..k] + [x] + b[k + 1..];
      assert a == [x] + a[1..];
      assert multiset(b) == multiset(b[..k]) + multiset{x} + multiset(b[k + 1..]);
      assert multiset(a) == multiset{x} + multiset(a[1..]);
      assert multiset(rest) == multiset(b[..k]) + multiset(b[k + 1..]);
      assert multiset(a[1..]) == multiset(a) - multiset{x};
      assert multiset(rest) == multiset(b) - multiset{x};
      TotalPermutationInvariant(a[1..], rest);
      TotalAppend([x], a[1..]);
      TotalAppend(b[..k] + [x], b[k + 1..]);
      TotalAppend(b[..k], [x]);
      TotalAppend(b[..k], b[k + 1..]);
      assert [x][..0] == [];
    }
  }

  /** The service's loop: returns the sum of the reported `'1h'` amounts. */
  method Calculate24HourRainfall(hours: seq<HourlyRecord>) returns (total: real)
    ensures total == Sum(PresentAmounts(hours))
    ensures |hours| == 0 ==> total == 0.0
  {
    total := 0.0;
    var i := 0;
    while i < |hours|
      invariant 0 <= i <= |hours|
      invariant total == Total(hours[..i])
    {
      assert hours[..i + 1][..i] == hours[..i];
      total := total + Contribution(hours[i]);
      i := i + 1;
    }
    assert hours[..i] == hours;
    TotalIsSumOfPresent(hours);
  }
}
