/** Capturing a batch: a refused answer is recovered by bisecting, a single unit by one retry. */
module CaptureRecovery {
  import opened Outcomes
  import opened CaptureUnits
  import opened CaptureRecords

  /** What the generator answers at its n-th call for a batch; nothing else is assumed of it. */
  type Generator = (nat, seq<CaptureUnit>) -> Response

  /** One call with its screening. */
  type Attempt = (nat, seq<CaptureUnit>) -> Option<Screened>

  function AttemptOf(fold: string -> string, gen: Generator): Attempt {
    (call: nat, units: seq<CaptureUnit>) => Screen(fold, gen(call, units), units)
  }

  /** The outcome, `None` for the error that ends the run, and how many calls it took. */
  datatype Captured = Captured(outcome: Option<Screened>, recoveries: nat, calls: nat)

  function CaptureValidated(attempt: Attempt, units: seq<CaptureUnit>, call: nat): Captured
    requires |units| >= 1
    decreases |units|
  {
    var answer := attempt(call, units);
    if answer.Some? then Captured(answer, 0, 1)
    else if |units| == 1 then Captured(attempt(call + 1, units), 1, 2)
    else
      var midpoint := |units| / 2;
      var left := CaptureValidated(attempt, units[..midpoint], call + 1);
      if left.outcome.None? then Captured(None, 0, 1 + left.calls)
      else
        var right := CaptureValidated(attempt, units[midpoint..], call + 1 + left.calls);
        Captured(Both(left.outcome, right.outcome), 1 + left.recoveries + right.recoveries, 1 + left.calls + right.calls)
  }

  function Both(left: Option<Screened>, right: Option<Screened>): Option<Screened> {
    match (left, right)
    case (Some(a), Some(b)) => Some(Screened(a.records + b.records, a.rejectedVerbatim + b.rejectedVerbatim))
    case _ => None
  }

  /** Each recovery explains one or two calls, and n units take at most 3n-1 calls. */
  lemma {:induction false} CallsAreBounded(attempt: Attempt, units: seq<CaptureUnit>, call: nat)
    requires |units| >= 1
    ensures CaptureValidated(attempt, units, call).calls <= 3 * |units| - 1
    ensures CaptureValidated(attempt, units, call).outcome.Some? ==>
      var c := CaptureValidated(attempt, units, call);
      c.recoveries <= 2 * |units| - 1 && c.recoveries < c.calls <= 2 * c.recoveries + 1
    decreases |units|
  {
    if |units| > 1 {
      var midpoint := |units| / 2;
      var left := CaptureValidated(attempt, units[..midpoint], call + 1);
      CallsAreBounded(attempt, units[..midpoint], call + 1);
      CallsAreBounded(attempt, units[midpoint..], call + 1 + left.calls);
    }
  }

  ghost predicate Screens(fold: string -> string, attempt: Attempt) {
    forall call, units :: attempt(call, units).Some? ==> Settled(fold, units, attempt(call, units).value.records)
  }

  lemma AttemptScreens(fold: string -> string, gen: Generator)
    ensures Screens(fold, AttemptOf(fold, gen))
  {
    forall call, units | AttemptOf(fold, gen)(call, units).Some?
      ensures Settled(fold, units, AttemptOf(fold, gen)(call, units).value.records) {
      ScreenedIsSettled(fold, gen(call, units), units);
    }
  }

  /** On success the records are settled ones of the batch's own units. */
  lemma {:induction false} CapturedIsSettled(fold: string -> string, attempt: Attempt, units: seq<CaptureUnit>, call: nat)
    requires Screens(fold, attempt) && |units| >= 1 && DistinctIds(units)
    requires CaptureValidated(attempt, units, call).outcome.Some?
    ensures Settled(fold, units, CaptureValidated(attempt, units, call).outcome.value.records)
    decreases |units|
  {
    hide Settled;
    if attempt(call, units).None? && |units| > 1 {
      var a, b := units[..|units| / 2], units[|units| / 2..];
      var left := CaptureValidated(attempt, a, call + 1);
      var right := CaptureValidated(attempt, b, call + 1 + left.calls);
      assert units == a + b;
      DistinctSides(a, b);
      CapturedIsSettled(fold, attempt, a, call + 1);
      CapturedIsSettled(fold, attempt, b, call + 1 + left.calls);
      SettledJoin(fold, a, b, left.outcome.value.records, right.outcome.value.records);
    }
  }

  lemma DistinctSides(a: seq<CaptureUnit>, b: seq<CaptureUnit>)
    requires DistinctIds(a + b)
    ensures DistinctIds(a) && DistinctIds(b)
  {
    assert forall i :: 0 <= i < |a| ==> (a + b)[i] == a[i];
    assert forall i :: 0 <= i < |b| ==> (a + b)[|a| + i] == b[i];
  }

  /** A unit whose own capture is refused twice in a row. */
  ghost predicate RefusedTwice(attempt: Attempt, unit: CaptureUnit, call: nat) {
    attempt(call, [unit]).None? && attempt(call + 1, [unit]).None?
  }

  /** The whole batch fails only because some single unit was refused twice in a row. */
  lemma {:induction false} FailsOnlyOnOneUnit(attempt: Attempt, units: seq<CaptureUnit>, call: nat)
    requires |units| >= 1 && CaptureValidated(attempt, units, call).outcome.None?
    ensures exists unit, c :: unit in units && c >= call && RefusedTwice(attempt, unit, c)
    decreases |units|
  {
    if |units| == 1 {
      assert units == [units[0]];
      assert RefusedTwice(attempt, units[0], call);
    } else {
      var a, b := units[..|units| / 2], units[|units| / 2..];
      var left := CaptureValidated(attempt, a, call + 1);
      if left.outcome.None? {
        FailsOnlyOnOneUnit(attempt, a, call + 1);
      } else {
        FailsOnlyOnOneUnit(attempt, b, call + 1 + left.calls);
      }
    }
  }

  // ---- the bound is reached ----

  /** From `call` on, only a single unit's retry is among the answered calls. */
  ghost predicate OnlyRetriesAnswered(answered: set<nat>, n: nat, call: nat)
    requires n >= 1
  {
    call !in answered
    && if n == 1 then call + 1 in answered
       else OnlyRetriesAnswered(answered, n / 2, call + 1) && OnlyRetriesAnswered(answered, n - n / 2, call + 3 * (n / 2))
  }

  lemma NothingAndNothing()
    ensures Both(Some(Screened([], 0)), Some(Screened([], 0))) == Some(Screened([], 0))
  {
    var none: seq<Record> := [];
    assert none + none == none;
  }

  ghost predicate AnswersOnly(attempt: Attempt, answered: set<nat>) {
    forall c, us :: attempt(c, us) == if c in answered then Some(Screened([], 0)) else None
  }

  /** What the worst case takes. */
  function WorstCase(n: nat): Captured
    requires n >= 1
  {
    Captured(Some(Screened([], 0)), 2 * n - 1, 3 * n - 1)
  }

  /** Two halves of the worst case after a refused call. */
  lemma WorstHalves(attempt: Attempt, a: seq<CaptureUnit>, b: seq<CaptureUnit>, units: seq<CaptureUnit>, call: nat)
    requires |units| > 1 && a == units[..|units| / 2] && b == units[|units| / 2..] && attempt(call, units).None?
    requires CaptureValidated(attempt, a, call + 1) == WorstCase(|a|)
    requires CaptureValidated(attempt, b, call + 3 * |a|) == WorstCase(|b|)
    ensures CaptureValidated(attempt, units, call) == WorstCase(|units|)
  {
    NothingAndNothing();
  }

  lemma WorstUnit(attempt: Attempt, units: seq<CaptureUnit>, call: nat)
    requires |units| == 1 && attempt(call, units).None? && attempt(call + 1, units) == Some(Screened([], 0))
    ensures CaptureValidated(attempt, units, call) == WorstCase(1)
  {
  }

  /** With such answers n units need all 3n-1 calls and 2n-1 recoveries. */
  lemma {:induction false} BoundIsReached(attempt: Attempt, answered: set<nat>, units: seq<CaptureUnit>, call: nat)
    requires |units| >= 1 && OnlyRetriesAnswered(answered, |units|, call) && AnswersOnly(attempt, answered)
    ensures CaptureValidated(attempt, units, call) == WorstCase(|units|)
    decreases |units|
  {
    hide CaptureValidated;
    if |units| == 1 {
      WorstUnit(attempt, units, call);
    } else {
      var a, b := units[..|units| / 2], units[|units| / 2..];
      BoundIsReached(attempt, answered, a, call + 1);
      BoundIsReached(attempt, answered, b, call + 3 * |a|);
      WorstHalves(attempt, a, b, units, call);
    }
  }

  function Retries(n: nat, call: nat): (calls: set<nat>)
    requires n >= 1
    ensures forall c :: c in calls ==> call < c < call + 3 * n - 1
  {
    if n == 1 then {call + 1} else Retries(n / 2, call + 1) + Retries(n - n / 2, call + 3 * (n / 2))
  }

  /** A generator answers like that when it answers the calls of `Retries`. */
  lemma {:induction false} RetriesAreOnlyRetries(answered: set<nat>, n: nat, call: nat)
    requires n >= 1 && forall c :: call <= c < call + 3 * n - 1 ==> (c in answered <==> c in Retries(n, call))
    ensures OnlyRetriesAnswered(answered, n, call)
  {
    assert call !in Retries(n, call);
    if n > 1 {
      var first, second := Retries(n / 2, call + 1), Retries(n - n / 2, call + 3 * (n / 2));
      assert Retries(n, call) == first + second;
      RetriesAreOnlyRetries(answered, n / 2, call + 1);
      RetriesAreOnlyRetries(answered, n - n / 2, call + 3 * (n / 2));
    }
  }

  function Reluctant(answered: set<nat>): Generator {
    (call: nat, units: seq<CaptureUnit>) => if call in answered then Records([]) else Unusable
  }

  lemma NothingScreens(fold: string -> string, units: seq<CaptureUnit>)
    ensures Screen(fold, Records([]), units) == Some(Screened([], 0)) && Screen(fold, Unusable, units) == None
  {
    var read, raws: seq<RawRecord> := ReaderOf(units), [];
    assert ReadFirst(read, raws, 0) == Some([]);
    assert Sifted(fold, Some([])) == Some(Screened([], 0));
  }

  /** For every number of units there is a generator that makes their recovery take all 3n-1 calls. */
  lemma SomeGeneratorReachesTheBound(fold: string -> string, units: seq<CaptureUnit>, call: nat) returns (gen: Generator)
    requires |units| >= 1
    ensures CaptureValidated(AttemptOf(fold, gen), units, call) == WorstCase(|units|)
  {
    var answered := Retries(|units|, call);
    gen := Reluctant(answered);
    var attempt := AttemptOf(fold, gen);
    forall c, us ensures attempt(c, us) == if c in answered then Some(Screened([], 0)) else None {
      NothingScreens(fold, us);
    }
    RetriesAreOnlyRetries(answered, |units|, call);
    BoundIsReached(attempt, answered, units, call);
  }
}
