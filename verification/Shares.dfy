/**
  A stretch of time shared out equally among words, each end rounded to a millisecond.
 */
module Shares {

  /** Shares of no length and of the whole are exact, and shares grow with their number. */
  ghost predicate SharesOut(share: (int, nat, nat) -> int) {
    && (forall dur: nat, n: nat :: n > 0 ==> share(dur, 0, n) == 0 && share(dur, n, n) == dur)
    && (forall dur: nat, d: nat, e: nat, n: nat :: d <= e <= n ==> share(dur, d, n) <= share(dur, e, n))
  }

  /** dur * d / n to the nearest millisecond, halves up. */
  function Nearest(dur: int, d: nat, n: nat): int {
    if n == 0 then 0 else (2 * (dur * d) + n) / (2 * n)
  }

  lemma {:induction false} Scaled(x: int, y: int, b: nat)
    requires x <= y
    ensures x * b <= y * b
  {
  }

  lemma {:induction false} QuotientRises(a: int, c: int, b: nat)
    requires b > 0 && a <= c
    ensures a / b <= c / b
  {
    if a / b > c / b {
      Scaled(c / b + 1, a / b, b);
    }
  }

  lemma {:induction false} QuotientIs(q: int, r: nat, b: nat)
    requires r < b
    ensures (q * b + r) / b == q
  {
    var a := q * b + r;
    if a / b > q {
      Scaled(q + 1, a / b, b);
    } else if a / b < q {
      Scaled(a / b + 1, q, b);
    }
  }

  lemma {:induction false} NearestEnds(dur: int, n: nat)
    requires n > 0
    ensures Nearest(dur, 0, n) == 0 && Nearest(dur, n, n) == dur
  {
    QuotientIs(0, n, 2 * n);
    QuotientIs(dur, n, 2 * n);
    assert 2 * (dur * n) == dur * (2 * n);
  }

  lemma {:induction false} NearestRises(dur: nat, d: nat, e: nat, n: nat)
    requires d <= e
    ensures Nearest(dur, d, n) <= Nearest(dur, e, n)
  {
    if n > 0 {
      Scaled(d, e, dur);
      QuotientRises(2 * (dur * d) + n, 2 * (dur * e) + n, 2 * n);
    }
  }

  /** Rounding to the nearest millisecond shares out. */
  lemma {:induction false} NearestSharesOut()
    ensures SharesOut(Nearest)
  {
    forall dur: nat, n: nat | n > 0 ensures Nearest(dur, 0, n) == 0 && Nearest(dur, n, n) == dur {
      NearestEnds(dur, n);
    }
    forall dur: nat, d: nat, e: nat, n: nat | d <= e <= n ensures Nearest(dur, d, n) <= Nearest(dur, e, n) {
      NearestRises(dur, d, e, n);
    }
  }
}
