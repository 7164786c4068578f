/**
 * The estimate that the evidence text carries about itself: with `base` bytes of
 * other text, an estimate `n` is exact when `n == ceil((base + digits(n)) / 3)`.
 */
module TokenEstimate {
  import opened Outcomes
  import opened Decimals

  const ROUNDS: nat := 8
  const MAX_PREFLIGHT_ESTIMATED_TOKENS: nat := 2_400
  const MAX_PREFLIGHT_CONTEXT_CHARS: nat := 16_000

  function CeilThird(bytes: nat): nat {
    (bytes + 2) / 3
  }

  function Next(base: nat, n: nat): nat {
    CeilThird(base + Digits(n))
  }

  predicate Exact(base: nat, n: nat) {
    Next(base, n) == n
  }

  /** The iteration from the estimate `n`, giving up after `rounds` renderings. */
  function Settle(base: nat, n: nat, rounds: nat): (settled: Option<nat>)
    ensures settled.Some? ==> Exact(base, settled.value)
    decreases rounds
  {
    if rounds == 0 then None
    else if Exact(base, n) then Some(n)
    else Settle(base, Next(base, n), rounds - 1)
  }

  lemma NextGrows(base: nat, m: nat, n: nat)
    requires Digits(m) <= Digits(n)
    ensures Next(base, m) <= Next(base, n)
  {
  }

  /** After one step every estimate lies between two bounds at most a factor of ten apart. */
  lemma StepBounds(base: nat, n: nat)
    requires base > 0 && Digits(n) <= base
    ensures (base + 3) / 3 <= Next(base, n) <= (2 * base + 2) / 3
    ensures Digits(Next(base, n)) <= base
    ensures Digits((base + 3) / 3) <= Digits(Next(base, n)) <= Digits((base + 3) / 3) + 1
  {
    var low, next := (base + 3) / 3, Next(base, n);
    DigitsAtMostValue(next);
    DigitsGrow(low, next);
    DigitsGrow(next, 10 * low);
    DigitsOfTenfold(low);
  }

  /** The number of digits changes at most once, so the fourth rendering is exact at the latest. */
  lemma SettlesInFourRounds(base: nat, n: nat)
    requires base > 0 && Digits(n) <= base
    ensures Settle(base, n, 4).Some?
  {
    var n1 := Next(base, n);
    StepBounds(base, n);
    var n2 := Next(base, n1);
    StepBounds(base, n1);
    var n3 := Next(base, n2);
    StepBounds(base, n2);
    if Digits(n1) < Digits(n2) {
      NextGrows(base, n1, n2);
      DigitsGrow(n2, n3);
    } else if Digits(n1) > Digits(n2) {
      NextGrows(base, n2, n1);
      DigitsGrow(n3, n2);
    }
    assert Digits(n2) == Digits(n1) || Digits(n3) == Digits(n2);
    assert Exact(base, n2) || Exact(base, n3);
  }

  lemma {:induction false} MoreRoundsAgree(base: nat, n: nat, rounds: nat, more: nat)
    requires rounds <= more && Settle(base, n, rounds).Some?
    ensures Settle(base, n, more) == Settle(base, n, rounds)
    decreases rounds
  {
    if !Exact(base, n) {
      MoreRoundsAgree(base, Next(base, n), rounds - 1, more - 1);
    }
  }

  /** The eight rounds always suffice, from any estimate that has no more digits than the text has bytes. */
  lemma AlwaysSettles(base: nat, n: nat)
    requires base > 0 && Digits(n) <= base
    ensures Settle(base, n, ROUNDS).Some? && Exact(base, Settle(base, n, ROUNDS).value)
  {
    SettlesInFourRounds(base, n);
    MoreRoundsAgree(base, n, 4, ROUNDS);
  }

  // ---- which exact estimate ----

  /** Two estimates can both be exact; from below the iteration finds the least, from above the greatest. */
  lemma {:induction false} SettlesAtTheNearest(base: nat, n: nat, rounds: nat, exact: nat)
    requires Exact(base, exact) && Settle(base, n, rounds).Some?
    ensures n <= exact ==> Settle(base, n, rounds).value <= exact
    ensures n >= exact ==> Settle(base, n, rounds).value >= exact
    decreases rounds
  {
    if !Exact(base, n) {
      if n <= exact {
        DigitsGrow(n, exact);
      } else {
        DigitsGrow(exact, n);
      }
      SettlesAtTheNearest(base, Next(base, n), rounds - 1, exact);
    }
  }

  lemma TwoExactEstimates(base: nat, n: nat)
    ensures Exact(base, n) && Exact(base, n + 1) <==> Digits(n + 1) == Digits(n) + 1 && base + Digits(n) == 3 * n
  {
    DigitsGrow(n, n + 1);
    DigitsOfSuccessor(n);
  }

  lemma FourDigits(n: nat)
    requires 1_000 <= n < 10_000
    ensures Digits(n) == 4
  {
    var tens, hundreds, thousands := n / 10, n / 100, n / 1_000;
    assert hundreds == tens / 10 && thousands == hundreds / 10;
    assert Digits(thousands) == 1;
    assert Digits(hundreds) == 1 + Digits(thousands);
    assert Digits(tens) == 1 + Digits(hundreds);
  }

  /**
   * Whichever exact estimate was found, it is within the token limit exactly when
   * the rest of the text has at most 7196 bytes.
   */
  lemma WithinLimitByBase(base: nat, n: nat)
    requires Exact(base, n)
    ensures n <= MAX_PREFLIGHT_ESTIMATED_TOKENS <==> base <= 7_196
  {
    if n > 0 {
      DigitsAtMostValue(n);
    }
    if base <= 7_196 {
      assert n <= 3_599;
    } else {
      var limit := MAX_PREFLIGHT_ESTIMATED_TOKENS;
      FourDigits(limit);
      assert limit <= n;
      DigitsGrow(limit, n);
    }
    if 1_000 <= n < 10_000 {
      FourDigits(n);
    }
  }

  /** The character limit never decides: a text within the token limit has at most 7200 bytes. */
  lemma TokenLimitIsTheTighter(length: nat)
    requires CeilThird(length) <= MAX_PREFLIGHT_ESTIMATED_TOKENS
    ensures length <= 7_200 < MAX_PREFLIGHT_CONTEXT_CHARS
  {
  }
}
