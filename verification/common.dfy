/**
 Shared vocabulary of the flood-risk model: optional values and results,
 the JavaScript number operations the engine relies on (Math.round, the
 reduce-based sum and average, Math.max over a spread list, and division
 that can yield Infinity or NaN), and the `{current, threshold}` metric pair.
 */
module Common {

  datatype Option<+T> = None | Some(value: T) {
    function GetOr(default: T): T {
      match this
      case Some(v) => v
      case None => default
    }
  }

  datatype Result<+T, +E> = Ok(value: T) | Err(error: E)

  /** A derived metric as the engine passes it around: `{current, threshold}`. */
  datatype Metric = Metric(current: int, threshold: int)

  /** JavaScript's Math.round: the nearest integer, halves rounded up. */
  function Round(x: real): (r: int)
    ensures r as real - 0.5 <= x < r as real + 0.5
  {
    (x + 0.5).Floor
  }

  /** Math.round never reverses the order of its arguments. */
  lemma RoundMonotone(x: real, y: real)
    requires x <= y
    ensures Round(x) <= Round(y)
  {
  }

  lemma RoundOfWhole(n: int)
    ensures Round(n as real) == n
  {
  }

  /** Sum of a list, accumulated left to right as `reduce((s, v) => s + v, 0)` does. */
  function Sum(s: seq<real>): real
  {
    if |s| == 0 then 0.0 else Sum(s[..|s| - 1]) + s[|s| - 1]
  }

  lemma {:induction false} SumAppend(a: seq<real>, b: seq<real>)
    ensures Sum(a + b) == Sum(a) + Sum(b)
    decreases |b|
  {
    if |b| == 0 {
      assert a + b == a;
    } else {
      assert (a + b)[..|a + b| - 1] == a + b[..|b| - 1];
      SumAppend(a, b[..|b| - 1]);
    }
  }

  lemma {:induction false} SumAtMost(s: seq<real>, bound: real)
    requires forall i :: 0 <= i < |s| ==> s[i] <= bound
    ensures Sum(s) <= |s| as real * bound
    decreases |s|
  {
    if |s| > 0 {
      SumAtMost(s[..|s| - 1], bound);
    }
  }

  lemma {:induction false} SumNonNegative(s: seq<real>)
    requires forall i :: 0 <= i < |s| ==> s[i] >= 0.0
    ensures Sum(s) >= 0.0
    decreases |s|
  {
    if |s| > 0 {
      SumNonNegative(s[..|s| - 1]);
    }
  }

  /** The fold of three values is their sum. */
  lemma SumOfThree(s: seq<real>)
    requires |s| == 3
    ensures Sum(s) == s[0] + s[1] + s[2]
  {
    var s2 := s[..2];
    var s1 := s2[..1];
    assert s1[..0] == [];
    assert Sum(s1) == s[0];
    assert Sum(s2) == s[0] + s[1];
  }

  /** The arithmetic mean, `sum / length`; the engine never averages an empty list. */
  function Mean(s: seq<real>): real
    requires |s| > 0
  {
    Sum(s) / |s| as real
  }

  /** Math.max(...s) for a non-empty list: an element that no element exceeds. */
  function Max(s: seq<real>): (m: real)
    requires |s| > 0
    ensures m in s
    ensures forall i :: 0 <= i < |s| ==> s[i] <= m
  {
    if |s| == 1 then s[0]
    else
      var rest := Max(s[1..]);
      assert forall i :: 1 <= i < |s| ==> s[i] == s[1..][i - 1];
      if s[0] >= rest then s[0] else rest
  }

  /** An average never exceeds the largest value averaged. */
  lemma {:induction false} MeanAtMostMax(s: seq<real>)
    requires |s| > 0
    ensures Mean(s) <= Max(s)
  {
    var m := Max(s);
    SumAtMost(s, m);
    QuotientAtMost(Sum(s), |s| as real, m);
  }

  /** A total of at most `n * m` over `n` parts gives a quotient of at most `m`. */
  lemma QuotientAtMost(total: real, n: real, m: real)
    requires n > 0.0 && total <= n * m
    ensures total / n <= m
  {
    assert total / n <= (n * m) / n;
    assert (n * m) / n == m;
  }

  lemma DivideMonotone(a: real, b: real, n: real)
    requires a <= b && n > 0.0
    ensures a / n <= b / n
  {
  }

  lemma {:induction false} MeanNonNegative(s: seq<real>)
    requires |s| > 0
    requires forall i :: 0 <= i < |s| ==> s[i] >= 0.0
    ensures Mean(s) >= 0.0
  {
    SumNonNegative(s);
  }

  /** The value of `a / b` for JavaScript numbers: finite unless the divisor is zero. */
  datatype Ratio = Finite(value: real) | PosInfinity | NegInfinity | NotANumber

  function Divide(a: int, b: int): (q: Ratio)
    ensures q.Finite? <==> b != 0
    ensures q.Finite? ==> q.value * b as real == a as real
  {
    if b != 0 then Finite(a as real / b as real)
    else if a > 0 then PosInfinity
    else if a < 0 then NegInfinity
    else NotANumber
  }

  /** `q >= c` as JavaScript evaluates it: Infinity passes, -Infinity and NaN fail. */
  predicate AtLeast(q: Ratio, c: real)
  {
    match q
    case Finite(v) => v >= c
    case PosInfinity => true
    case NegInfinity => false
    case NotANumber => false
  }

  /** `q <= c` as JavaScript evaluates it: -Infinity passes, Infinity and NaN fail. */
  predicate AtMost(q: Ratio, c: real)
  {
    match q
    case Finite(v) => v <= c
    case PosInfinity => false
    case NegInfinity => true
    case NotANumber => false
  }

  /** 1 when the condition holds, else 0: used to count cutoffs a value reaches. */
  function Ind(b: bool): int
  {
    if b then 1 else 0
  }
}
