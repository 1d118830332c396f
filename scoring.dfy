/**
 * The accuracy figure both practice pages display:
 * `totalAttempts > 0 ? Math.round((score / totalAttempts) * 100) : 0`.
 */
module Scoring {
  lemma MulAtLeast(t: int, q: int, k: int)
    requires t > 0 && q >= k
    ensures t * q >= t * k
  {
  }

  /** The quotient `q` of `n + t` by `2 t` is `n / 2t` rounded half up. */
  lemma HalfUpQuotient(n: nat, t: nat)
    requires t > 0
    ensures var q := (n + t) / (2 * t);
      (2 * q - 1) * t <= n < (2 * q + 1) * t
  {
    var m := 2 * t;
    var q := (n + t) / m;
    var r := (n + t) % m;
    assert n + t == m * q + r && 0 <= r < m;
    var p := t * q;
    assert m * q == 2 * p;
    assert (2 * q - 1) * t == 2 * p - t;
    assert (2 * q + 1) * t == 2 * p + t;
  }

  lemma AtMostHundred(score: nat, t: nat)
    requires 0 < t && score <= t
    ensures (200 * score + t) / (2 * t) <= 100
  {
    var q := (200 * score + t) / (2 * t);
    HalfUpQuotient(200 * score, t);
    if q > 100 {
      MulAtLeast(t, 2 * q - 1, 201);
      assert false;
    }
  }

  /** The percentage of correct attempts, rounded half up as `Math.round` does, on exact rationals. */
  function Accuracy(score: nat, totalAttempts: nat): (pct: int)
    ensures totalAttempts == 0 ==> pct == 0
    ensures totalAttempts > 0 ==> (2 * pct - 1) * totalAttempts <= 200 * score < (2 * pct + 1) * totalAttempts
    ensures score <= totalAttempts ==> 0 <= pct <= 100
  {
    if totalAttempts == 0 then 0
    else
      var t := totalAttempts;
      var q := (200 * score + t) / (2 * t);
      HalfUpQuotient(200 * score, t);
      if score <= t then
        AtMostHundred(score, t);
        q
      else
        q
  }
}
