/** The calls behind a recovered batch: whose records the result has, and what its counters count. */
module CaptureJournal {
  import opened Outcomes
  import opened Packing
  import opened CaptureUnits
  import opened CaptureRecords
  import opened CaptureRecovery

  /** One call for some units, with what screening made of its answer. */
  datatype Call = Call(units: seq<CaptureUnit>, answer: Option<Screened>)

  function UnitsOfCall(call: Call): seq<CaptureUnit> {
    if call.answer.Some? then call.units else []
  }

  function RecordsOfCall(call: Call): seq<Record> {
    if call.answer.Some? then call.answer.value.records else []
  }

  function RejectionsOfCall(call: Call): nat {
    if call.answer.Some? then call.answer.value.rejectedVerbatim else 0
  }

  function Refused(calls: seq<Call>): nat {
    if calls == [] then 0 else (if calls[0].answer.None? then 1 else 0) + Refused(calls[1..])
  }

  /** The units of the answered calls, in order. */
  function AnsweredUnits(calls: seq<Call>): seq<CaptureUnit> {
    if calls == [] then [] else UnitsOfCall(calls[0]) + AnsweredUnits(calls[1..])
  }

  /** Their records, in order. */
  function AnsweredRecords(calls: seq<Call>): seq<Record> {
    if calls == [] then [] else RecordsOfCall(calls[0]) + AnsweredRecords(calls[1..])
  }

  function AnsweredRejections(calls: seq<Call>): nat {
    if calls == [] then 0 else RejectionsOfCall(calls[0]) + AnsweredRejections(calls[1..])
  }

  lemma OneCallMore(call: Call, calls: seq<Call>)
    ensures Refused([call] + calls) == (if call.answer.None? then 1 else 0) + Refused(calls)
    ensures AnsweredUnits([call] + calls) == UnitsOfCall(call) + AnsweredUnits(calls)
    ensures AnsweredRecords([call] + calls) == RecordsOfCall(call) + AnsweredRecords(calls)
    ensures AnsweredRejections([call] + calls) == RejectionsOfCall(call) + AnsweredRejections(calls)
  {
    assert ([call] + calls)[1..] == calls;
  }

  lemma OneCall(call: Call)
    ensures Refused([call]) == if call.answer.None? then 1 else 0
    ensures AnsweredUnits([call]) == UnitsOfCall(call) && AnsweredRecords([call]) == RecordsOfCall(call)
    ensures AnsweredRejections([call]) == RejectionsOfCall(call)
  {
    OneCallMore(call, []);
    assert [call] + [] == [call];
    assert UnitsOfCall(call) + [] == UnitsOfCall(call) && RecordsOfCall(call) + [] == RecordsOfCall(call);
  }

  lemma Regroup<T>(a: seq<T>, b: seq<T>, c: seq<T>)
    ensures (a + b) + c == a + (b + c)
  {
  }

  /** Splitting off the first call on both sides. */
  lemma JoinedOneMore(call: Call, a: seq<Call>, b: seq<Call>)
    requires Refused(a + b) == Refused(a) + Refused(b) && AnsweredUnits(a + b) == AnsweredUnits(a) + AnsweredUnits(b)
    requires AnsweredRecords(a + b) == AnsweredRecords(a) + AnsweredRecords(b)
    requires AnsweredRejections(a + b) == AnsweredRejections(a) + AnsweredRejections(b)
    ensures Refused(([call] + a) + b) == Refused([call] + a) + Refused(b)
    ensures AnsweredUnits(([call] + a) + b) == AnsweredUnits([call] + a) + AnsweredUnits(b)
    ensures AnsweredRecords(([call] + a) + b) == AnsweredRecords([call] + a) + AnsweredRecords(b)
    ensures AnsweredRejections(([call] + a) + b) == AnsweredRejections([call] + a) + AnsweredRejections(b)
  {
    hide *;
    OneCallMore(call, a);
    OneCallMore(call, a + b);
    Regroup([call], a, b);
    Regroup(UnitsOfCall(call), AnsweredUnits(a), AnsweredUnits(b));
    Regroup(RecordsOfCall(call), AnsweredRecords(a), AnsweredRecords(b));
  }

  lemma {:induction false} AnsweredJoin(a: seq<Call>, b: seq<Call>)
    ensures Refused(a + b) == Refused(a) + Refused(b)
    ensures AnsweredUnits(a + b) == AnsweredUnits(a) + AnsweredUnits(b)
    ensures AnsweredRecords(a + b) == AnsweredRecords(a) + AnsweredRecords(b)
    ensures AnsweredRejections(a + b) == AnsweredRejections(a) + AnsweredRejections(b)
  {
    if a == [] {
      assert a + b == b;
    } else {
      AnsweredJoin(a[1..], b);
      JoinedOneMore(a[0], a[1..], b);
      assert [a[0]] + a[1..] == a;
    }
  }

  /** The calls were made one after the other, the first with number `first`. */
  ghost predicate AreMade(attempt: Attempt, calls: seq<Call>, first: nat) {
    forall i :: 0 <= i < |calls| ==> calls[i].answer == attempt(first + i, calls[i].units)
  }

  lemma MadeOne(attempt: Attempt, units: seq<CaptureUnit>, first: nat)
    ensures AreMade(attempt, [Call(units, attempt(first, units))], first)
  {
  }

  lemma MadeJoin(attempt: Attempt, a: seq<Call>, b: seq<Call>, first: nat)
    requires AreMade(attempt, a, first) && AreMade(attempt, b, first + |a|)
    ensures AreMade(attempt, a + b, first)
  {
    forall i | 0 <= i < |a + b| ensures (a + b)[i].answer == attempt(first + i, (a + b)[i].units) {
      if i >= |a| {
        assert b[i - |a|].answer == attempt(first + |a| + (i - |a|), b[i - |a|].units);
      }
    }
  }

  /** Every unit is in exactly one answered call, and the result is what those calls gave. */
  ghost predicate Accounts(calls: seq<Call>, units: seq<CaptureUnit>, records: seq<Record>, rejections: nat, recoveries: nat) {
    && AnsweredUnits(calls) == units && AnsweredRecords(calls) == records
    && AnsweredRejections(calls) == rejections && Refused(calls) == recoveries
  }

  /** The calls ended with one unit refused twice in a row. */
  ghost predicate GaveUp(calls: seq<Call>) {
    && |calls| >= 2 && |calls[|calls| - 1].units| == 1 && calls[|calls| - 1].units == calls[|calls| - 2].units
    && calls[|calls| - 1].answer == None && calls[|calls| - 2].answer == None
  }

  ghost predicate Explains(calls: seq<Call>, units: seq<CaptureUnit>, c: Captured) {
    && |calls| == c.calls
    && match c.outcome
       case Some(s) => Accounts(calls, units, s.records, s.rejectedVerbatim, c.recoveries)
       case None => GaveUp(calls)
  }

  lemma AnsweredAtOnce(units: seq<CaptureUnit>, s: Screened)
    ensures Explains([Call(units, Some(s))], units, Captured(Some(s), 0, 1))
  {
    OneCall(Call(units, Some(s)));
  }

  lemma AnsweredOnRetry(units: seq<CaptureUnit>, answer: Option<Screened>)
    requires |units| == 1
    ensures Explains([Call(units, None), Call(units, answer)], units, Captured(answer, 1, 2))
  {
    var first, second := Call(units, None), Call(units, answer);
    OneCall(second);
    OneCallMore(first, [second]);
    assert [first] + [second] == [first, second];
    if answer.Some? {
      assert [] + units == units && [] + answer.value.records == answer.value.records;
    }
  }

  lemma {:induction false} GaveUpLater(earlier: seq<Call>, calls: seq<Call>)
    requires GaveUp(calls)
    ensures GaveUp(earlier + calls)
  {
    var all := earlier + calls;
    assert all[|all| - 1] == calls[|calls| - 1] && all[|all| - 2] == calls[|calls| - 2];
  }

  lemma HalvesAnswered(units: seq<CaptureUnit>, a: seq<CaptureUnit>, b: seq<CaptureUnit>, left: seq<Call>, right: seq<Call>, x: Captured, y: Captured)
    requires units == a + b && Explains(left, a, x) && Explains(right, b, y) && x.outcome.Some? && y.outcome.Some?
    ensures Explains([Call(units, None)] + left + right, units,
                     Captured(Some(Screened(x.outcome.value.records + y.outcome.value.records,
                                            x.outcome.value.rejectedVerbatim + y.outcome.value.rejectedVerbatim)),
                              1 + x.recoveries + y.recoveries, 1 + x.calls + y.calls))
  {
    var first := Call(units, None);
    AnsweredJoin([first] + left, right);
    OneCallMore(first, left);
    assert [] + a == a && [] + x.outcome.value.records == x.outcome.value.records;
  }

  // ---- in which order calls are made ----

  /**
   * The calls work off a list of unit groups from its front: an answered group is
   * done, a refused one is put back as its two halves, a refused single unit is
   * tried once more. `done` says whether the list was worked off or a unit was
   * refused for the second time.
   */
  ghost predicate WorksOff(calls: seq<Call>, groups: seq<seq<CaptureUnit>>, done: bool)
    decreases |calls|
  {
    if groups == [] then calls == [] && done
    else if calls == [] || calls[0].units != groups[0] then false
    else if calls[0].answer.Some? then WorksOff(calls[1..], groups[1..], done)
    else if |groups[0]| > 1 then WorksOff(calls[1..], [groups[0][..|groups[0]| / 2], groups[0][|groups[0]| / 2..]] + groups[1..], done)
    else
      && |calls| >= 2 && calls[1].units == groups[0]
      && if calls[1].answer.Some? then WorksOff(calls[2..], groups[1..], done) else |calls| == 2 && !done
  }

  lemma {:induction false} WorkJoin(calls: seq<Call>, groups: seq<seq<CaptureUnit>>, later: seq<Call>, rest: seq<seq<CaptureUnit>>, done: bool)
    requires WorksOff(calls, groups, true) && WorksOff(later, rest, done)
    ensures WorksOff(calls + later, groups + rest, done)
    decreases |calls|
  {
    if groups == [] {
      assert calls + later == later && groups + rest == rest;
    } else {
      assert (calls + later)[1..] == calls[1..] + later && (groups + rest)[1..] == groups[1..] + rest;
      var n := |groups[0]| / 2;
      if calls[0].answer.Some? {
        WorkJoin(calls[1..], groups[1..], later, rest, done);
      } else if |groups[0]| > 1 {
        var halves := [groups[0][..n], groups[0][n..]];
        WorkJoin(calls[1..], halves + groups[1..], later, rest, done);
        assert halves + groups[1..] + rest == halves + (groups[1..] + rest);
      } else {
        assert (calls + later)[2..] == calls[2..] + later;
        WorkJoin(calls[2..], groups[1..], later, rest, done);
      }
    }
  }

  lemma {:induction false} WorkStops(calls: seq<Call>, groups: seq<seq<CaptureUnit>>, rest: seq<seq<CaptureUnit>>)
    requires WorksOff(calls, groups, false)
    ensures WorksOff(calls, groups + rest, false)
    decreases |calls|
  {
    assert (groups + rest)[1..] == groups[1..] + rest;
    var n := |groups[0]| / 2;
    if calls[0].answer.Some? {
      WorkStops(calls[1..], groups[1..], rest);
    } else if |groups[0]| > 1 {
      var halves := [groups[0][..n], groups[0][n..]];
      WorkStops(calls[1..], halves + groups[1..], rest);
      assert halves + groups[1..] + rest == halves + (groups[1..] + rest);
    } else if calls[1].answer.Some? {
      WorkStops(calls[2..], groups[1..], rest);
    }
  }

  /** The answers determine the calls: two such journals are the same. */
  lemma {:induction false} JournalIsDetermined(attempt: Attempt, a: seq<Call>, b: seq<Call>, groups: seq<seq<CaptureUnit>>, first: nat, x: bool, y: bool)
    requires AreMade(attempt, a, first) && AreMade(attempt, b, first) && WorksOff(a, groups, x) && WorksOff(b, groups, y)
    ensures a == b && x == y
    decreases |a|, 1
  {
    hide AreMade;
    if groups != [] {
      SameAnswer(attempt, a, b, first, 0);
      MadeLater(attempt, a, first, 1);
      MadeLater(attempt, b, first, 1);
      var n := |groups[0]| / 2;
      if a[0].answer.Some? {
        JournalIsDetermined(attempt, a[1..], b[1..], groups[1..], first + 1, x, y);
      } else if |groups[0]| > 1 {
        JournalIsDetermined(attempt, a[1..], b[1..], [groups[0][..n], groups[0][n..]] + groups[1..], first + 1, x, y);
      } else {
        SameRetry(attempt, a, b, groups, first, x, y);
      }
      assert a == [a[0]] + a[1..] && b == [b[0]] + b[1..];
    }
  }

  lemma {:induction false} SameRetry(attempt: Attempt, a: seq<Call>, b: seq<Call>, groups: seq<seq<CaptureUnit>>, first: nat, x: bool, y: bool)
    requires AreMade(attempt, a, first) && AreMade(attempt, b, first) && WorksOff(a, groups, x) && WorksOff(b, groups, y)
    requires groups != [] && a[0] == b[0] && a[0].answer.None? && |groups[0]| <= 1
    ensures a[1..] == b[1..] && x == y
    decreases |a|, 0
  {
    hide AreMade;
    SameAnswer(attempt, a, b, first, 1);
    if a[1].answer.Some? {
      MadeLater(attempt, a, first, 2);
      MadeLater(attempt, b, first, 2);
      JournalIsDetermined(attempt, a[2..], b[2..], groups[1..], first + 2, x, y);
      assert a[1..] == [a[1]] + a[2..] && b[1..] == [b[1]] + b[2..];
    }
  }

  lemma SameAnswer(attempt: Attempt, a: seq<Call>, b: seq<Call>, first: nat, i: nat)
    requires AreMade(attempt, a, first) && AreMade(attempt, b, first) && i < |a| && i < |b| && a[i].units == b[i].units
    ensures a[i] == b[i]
  {
  }

  lemma MadeLater(attempt: Attempt, calls: seq<Call>, first: nat, n: nat)
    requires AreMade(attempt, calls, first) && n <= |calls|
    ensures AreMade(attempt, calls[n..], first + n)
  {
    forall i | 0 <= i < |calls[n..]| ensures calls[n..][i].answer == attempt(first + n + i, calls[n..][i].units) {
      assert calls[n + i].answer == attempt(first + (n + i), calls[n + i].units);
    }
  }

  lemma AnsweredIsDone(units: seq<CaptureUnit>, s: Screened)
    ensures WorksOff([Call(units, Some(s))], [units], true)
  {
    assert [Call(units, Some(s))][1..] == [] && [units][1..] == [];
  }

  lemma RetriedIsDone(units: seq<CaptureUnit>, answer: Option<Screened>)
    requires |units| == 1
    ensures WorksOff([Call(units, None), Call(units, answer)], [units], answer.Some?)
  {
    assert [Call(units, None), Call(units, answer)][2..] == [] && [units][1..] == [];
  }

  /** A refused group of more than one unit, and the calls for its halves. */
  lemma HalvesWorkedOff(units: seq<CaptureUnit>, a: seq<CaptureUnit>, b: seq<CaptureUnit>, left: seq<Call>, right: seq<Call>, done: bool)
    requires |units| > 1 && a == units[..|units| / 2] && b == units[|units| / 2..]
    requires WorksOff(left, [a], true) && WorksOff(right, [b], done)
    ensures WorksOff([Call(units, None)] + left + right, [units], done)
  {
    WorkJoin(left, [a], right, [b], done);
    var calls := [Call(units, None)] + left + right;
    assert calls[1..] == left + right && [a] + [b] == [a, b] + [units][1..];
  }

  lemma LeftStops(units: seq<CaptureUnit>, a: seq<CaptureUnit>, b: seq<CaptureUnit>, left: seq<Call>)
    requires |units| > 1 && a == units[..|units| / 2] && b == units[|units| / 2..]
    requires WorksOff(left, [a], false)
    ensures WorksOff([Call(units, None)] + left, [units], false)
  {
    WorkStops(left, [a], [b]);
    var calls := [Call(units, None)] + left;
    assert calls[1..] == left && [a] + [b] == [a, b] + [units][1..];
  }

  // ---- the journal of a batch ----

  /** The halves of a refused call of more than one unit. */
  ghost predicate Splits(attempt: Attempt, units: seq<CaptureUnit>, a: seq<CaptureUnit>, b: seq<CaptureUnit>, call: nat) {
    |units| > 1 && a == units[..|units| / 2] && b == units[|units| / 2..] && attempt(call, units).None?
  }

  lemma LeftGivenUp(attempt: Attempt, units: seq<CaptureUnit>, a: seq<CaptureUnit>, b: seq<CaptureUnit>, call: nat, left: seq<Call>)
    requires Splits(attempt, units, a, b, call) && AreMade(attempt, left, call + 1)
    requires Explains(left, a, CaptureValidated(attempt, a, call + 1)) && CaptureValidated(attempt, a, call + 1).outcome.None?
    ensures AreMade(attempt, [Call(units, None)] + left, call)
    ensures Explains([Call(units, None)] + left, units, CaptureValidated(attempt, units, call))
  {
    hide Explains, AreMade;
    MadeOne(attempt, units, call);
    MadeJoin(attempt, [Call(units, None)], left, call);
    GivenUpAfter([Call(units, None)], left, a, CaptureValidated(attempt, a, call + 1), units, 0);
  }

  lemma BothMade(attempt: Attempt, units: seq<CaptureUnit>, call: nat, left: seq<Call>, right: seq<Call>)
    requires attempt(call, units).None? && AreMade(attempt, left, call + 1) && AreMade(attempt, right, call + 1 + |left|)
    ensures AreMade(attempt, [Call(units, None)] + left + right, call)
  {
    hide AreMade;
    MadeOne(attempt, units, call);
    MadeJoin(attempt, [Call(units, None)], left, call);
    MadeJoin(attempt, [Call(units, None)] + left, right, call);
  }

  /** What the halves gave makes what the whole gives. */
  lemma HalvesGive(attempt: Attempt, units: seq<CaptureUnit>, a: seq<CaptureUnit>, b: seq<CaptureUnit>, call: nat, x: Captured, y: Captured)
    requires Splits(attempt, units, a, b, call) && x == CaptureValidated(attempt, a, call + 1) && x.outcome.Some?
    requires y == CaptureValidated(attempt, b, call + 1 + x.calls)
    ensures units == a + b && CaptureValidated(attempt, units, call)
         == Captured(Both(x.outcome, y.outcome), 1 + x.recoveries + y.recoveries, 1 + x.calls + y.calls)
  {
  }

  lemma BothExplained(attempt: Attempt, units: seq<CaptureUnit>, a: seq<CaptureUnit>, b: seq<CaptureUnit>, call: nat, left: seq<Call>, right: seq<Call>)
    requires Splits(attempt, units, a, b, call)
    requires Explains(left, a, CaptureValidated(attempt, a, call + 1)) && CaptureValidated(attempt, a, call + 1).outcome.Some?
    requires Explains(right, b, CaptureValidated(attempt, b, call + 1 + |left|))
    ensures Explains([Call(units, None)] + left + right, units, CaptureValidated(attempt, units, call))
  {
    hide Explains, CaptureValidated;
    var x, y := CaptureValidated(attempt, a, call + 1), CaptureValidated(attempt, b, call + 1 + |left|);
    ExplainedLength(left, a, x);
    HalvesGive(attempt, units, a, b, call, x, y);
    if y.outcome.None? {
      GivenUpAfter([Call(units, None)] + left, right, b, y, units, 1 + x.recoveries + y.recoveries);
    } else {
      HalvesAnswered(units, a, b, left, right, x, y);
    }
  }

  lemma UnitRetried(attempt: Attempt, units: seq<CaptureUnit>, call: nat)
    requires |units| == 1 && attempt(call, units).None?
    ensures AreMade(attempt, [Call(units, None), Call(units, attempt(call + 1, units))], call)
    ensures Explains([Call(units, None), Call(units, attempt(call + 1, units))], units, CaptureValidated(attempt, units, call))
  {
    AnsweredOnRetry(units, attempt(call + 1, units));
  }

  /**
   * The journal of a batch: the calls that were made, each the first group of the
   * work list, of which the answered ones hold each unit once and in order. On
   * success the records and rejections are exactly theirs and the recoveries are
   * the refused calls.
   */
  lemma {:induction false} BatchHasAJournal(attempt: Attempt, units: seq<CaptureUnit>, call: nat) returns (calls: seq<Call>)
    requires |units| >= 1
    ensures AreMade(attempt, calls, call) && Explains(calls, units, CaptureValidated(attempt, units, call))
    ensures WorksOff(calls, [units], CaptureValidated(attempt, units, call).outcome.Some?)
    decreases |units|
  {
    hide Explains, AreMade, WorksOff;
    if attempt(call, units).Some? {
      calls := [Call(units, attempt(call, units))];
      MadeOne(attempt, units, call);
      AnsweredAtOnce(units, attempt(call, units).value);
      AnsweredIsDone(units, attempt(call, units).value);
    } else if |units| == 1 {
      calls := [Call(units, None), Call(units, attempt(call + 1, units))];
      UnitRetried(attempt, units, call);
      RetriedIsDone(units, attempt(call + 1, units));
    } else {
      var a, b := units[..|units| / 2], units[|units| / 2..];
      var left := BatchHasAJournal(attempt, a, call + 1);
      if CaptureValidated(attempt, a, call + 1).outcome.None? {
        calls := [Call(units, None)] + left;
        LeftGivenUp(attempt, units, a, b, call, left);
        LeftStops(units, a, b, left);
      } else {
        var right := BatchHasAJournal(attempt, b, call + 1 + |left|);
        calls := [Call(units, None)] + left + right;
        ExplainedLength(left, a, CaptureValidated(attempt, a, call + 1));
        BothMade(attempt, units, call, left, right);
        BothExplained(attempt, units, a, b, call, left, right);
        HalvesWorkedOff(units, a, b, left, right, CaptureValidated(attempt, b, call + 1 + |left|).outcome.Some?);
      }
    }
  }

  lemma ExplainedLength(calls: seq<Call>, units: seq<CaptureUnit>, c: Captured)
    requires Explains(calls, units, c)
    ensures |calls| == c.calls
  {
  }

  lemma GivenUpAfter(earlier: seq<Call>, calls: seq<Call>, part: seq<CaptureUnit>, c: Captured, units: seq<CaptureUnit>, recoveries: nat)
    requires Explains(calls, part, c) && c.outcome.None?
    ensures Explains(earlier + calls, units, Captured(None, recoveries, |earlier| + c.calls))
  {
    GaveUpLater(earlier, calls);
  }
}
