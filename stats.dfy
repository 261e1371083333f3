/** Real-number helpers shared by the scorers: Python's `abs` and two-argument
    `max`, and the arithmetic mean computed by `np.mean` and by the explicit
    `(a + b + c + d) / 4` of the librosa comparison. */
module Stats {

  function Abs(x: real): real {
    if x < 0.0 then -x else x
  }

  /** Python's `max(a, b)`: the first argument unless the second is greater. */
  function Max(a: real, b: real): real {
    if b > a then b else a
  }

  function Sum(xs: seq<real>): real {
    if |xs| == 0 then 0.0 else xs[0] + Sum(xs[1..])
  }

  function Mean(xs: seq<real>): real
    requires |xs| > 0
  {
    Sum(xs) / (|xs| as real)
  }

  ghost predicate AllWithin(xs: seq<real>, lo: real, hi: real) {
    forall i :: 0 <= i < |xs| ==> lo <= xs[i] <= hi
  }

  /** A sum of n values, each in [lo, hi], lies in [n * lo, n * hi]. */
  lemma {:induction false} SumWithin(xs: seq<real>, lo: real, hi: real)
    requires AllWithin(xs, lo, hi)
    ensures (|xs| as real) * lo <= Sum(xs) <= (|xs| as real) * hi
  {
    if |xs| > 0 {
      assert AllWithin(xs[1..], lo, hi) by {
        forall i | 0 <= i < |xs[1..]| ensures lo <= xs[1..][i] <= hi {
          assert xs[1..][i] == xs[i + 1];
        }
      }
      SumWithin(xs[1..], lo, hi);
    }
  }

  /** The mean of values that all lie in [lo, hi] lies in [lo, hi]; in
      particular the mean of a constant sequence is that constant. */
  lemma MeanWithin(xs: seq<real>, lo: real, hi: real)
    requires |xs| > 0
    requires AllWithin(xs, lo, hi)
    ensures lo <= Mean(xs) <= hi
  {
    SumWithin(xs, lo, hi);
    assert Mean(xs) * (|xs| as real) == Sum(xs);
  }

  /** A non-negative quantity divided by a larger positive one is a fraction. */
  lemma FractionWithin(x: real, m: real)
    requires 0.0 <= x <= m && m > 0.0
    ensures 0.0 <= x / m <= 1.0
  {
  }

  /** Sum over a four-element display, written out. */
  lemma SumOfFour(a: real, b: real, c: real, d: real)
    ensures Sum([a, b, c, d]) == a + b + c + d
  {
    assert [a, b, c, d][1..] == [b, c, d];
    assert [b, c, d][1..] == [c, d];
    assert [c, d][1..] == [d];
    assert Sum([d]) == d;
    assert Sum([c, d]) == c + d;
    assert Sum([b, c, d]) == b + c + d;
  }

  /** Sum over a nine-element display, written out. */
  lemma SumOfNine(a: real, b: real, c: real, d: real, e: real, f: real, g: real, h: real, i: real)
    ensures Sum([a, b, c, d, e, f, g, h, i]) == a + b + c + d + e + f + g + h + i
  {
    assert [a, b, c, d, e, f, g, h, i][1..] == [b, c, d, e, f, g, h, i];
    assert [b, c, d, e, f, g, h, i][1..] == [c, d, e, f, g, h, i];
    assert [c, d, e, f, g, h, i][1..] == [d, e, f, g, h, i];
    assert [d, e, f, g, h, i][1..] == [e, f, g, h, i];
    assert [e, f, g, h, i][1..] == [f, g, h, i];
    SumOfFour(f, g, h, i);
    assert Sum([e, f, g, h, i]) == e + f + g + h + i;
    assert Sum([d, e, f, g, h, i]) == d + e + f + g + h + i;
    assert Sum([c, d, e, f, g, h, i]) == c + d + e + f + g + h + i;
    assert Sum([b, c, d, e, f, g, h, i]) == b + c + d + e + f + g + h + i;
  }
}
