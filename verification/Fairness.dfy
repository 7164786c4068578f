/**
 * What any interleaving of submissions, takings and cancellations keeps: a waiting
 * job is taken within `depth * quota` takings, each caller is served in the order
 * it submitted, and between two turns of a waiting caller nobody else has two.
 */
module Fairness {
  import opened Outcomes
  import opened Sequences
  import opened FairQueue

  datatype Event<J> =
    | SubmitEvent(caller: string, job: J)
    | GetEvent
    | CancelEvent(caller: string, job: J)

  function Step<J(==)>(q: Queue<J>, e: Event<J>): Queue<J>
    requires q.Valid()
  {
    match e
    case SubmitEvent(caller, job) => Submit(q, caller, job).0
    case GetEvent => AfterGet(q)
    case CancelEvent(caller, job) => Cancel(q, caller, job)
  }

  /** A handler submits its job once: never while that job waits. */
  predicate LegalEvent<J(==)>(q: Queue<J>, e: Event<J>) {
    e.SubmitEvent? ==> !Waiting(q, e.caller, e.job)
  }

  lemma StepKeepsValid<J>(q: Queue<J>, e: Event<J>)
    requires q.Valid() && LegalEvent(q, e)
    ensures Step(q, e).Valid()
    ensures Step(q, e).depth == q.depth && Step(q, e).quota == q.quota
  {
    match e
    case SubmitEvent(caller, job) => SubmitKeepsValid(q, caller, job);
    case GetEvent => GetKeepsValid(q);
    case CancelEvent(caller, job) => CancelKeepsValid(q, caller, job);
  }

  ghost predicate Legal<J>(q: Queue<J>, es: seq<Event<J>>)
    requires q.Valid()
    decreases |es|
  {
    es == [] ||
    (LegalEvent(q, es[0]) &&
     (StepKeepsValid(q, es[0]);
      Legal(Step(q, es[0]), es[1..])))
  }

  ghost function Run<J>(q: Queue<J>, es: seq<Event<J>>): (q': Queue<J>)
    requires q.Valid() && Legal(q, es)
    ensures q'.Valid()
    decreases |es|
  {
    if es == [] then q
    else
      StepKeepsValid(q, es[0]);
      Run(Step(q, es[0]), es[1..])
  }

  /** The jobs taken, with their callers, in order. */
  ghost function Served<J>(q: Queue<J>, es: seq<Event<J>>): seq<(string, J)>
    requires q.Valid() && Legal(q, es)
    decreases |es|
  {
    if es == [] then []
    else
      StepKeepsValid(q, es[0]);
      var later := Served(Step(q, es[0]), es[1..]);
      if es[0].GetEvent? && Head(q).Some? then [Head(q).value] + later else later
  }

  function Gets<J>(es: seq<Event<J>>): nat {
    if es == [] then 0 else (if es[0].GetEvent? then 1 else 0) + Gets(es[1..])
  }

  // ---- the waiting bound ----

  /** `depth * laps`, one lap at a time. */
  function Laps(depth: nat, laps: nat): nat {
    if laps == 0 then 0 else depth + Laps(depth, laps - 1)
  }

  lemma {:induction false} LapsIsProduct(depth: nat, laps: nat)
    ensures Laps(depth, laps) == depth * laps
  {
    if laps > 0 {
      LapsIsProduct(depth, laps - 1);
    }
  }

  lemma {:induction false} MoreLaps(depth: nat, fewer: nat, laps: nat)
    requires fewer <= laps
    ensures Laps(depth, fewer) <= Laps(depth, laps)
  {
    if fewer < laps {
      MoreLaps(depth, fewer, laps - 1);
    }
  }

  /**
   * An upper bound on the takings that come before this job's own: its caller's
   * place in the rotation plus `depth` for each job ahead of it in its lane.
   */
  function Rank<J(==)>(q: Queue<J>, caller: string, job: J): nat
    requires caller in q.callers && caller in q.lanes && job in q.lanes[caller]
  {
    IndexOf(q.callers, caller) + Laps(q.depth, IndexOf(q.lanes[caller], job))
  }

  lemma {:induction false} CallersAtMostTotal<J>(callers: seq<string>, lanes: map<string, seq<J>>)
    requires forall c :: c in callers ==> c in lanes && lanes[c] != []
    ensures |callers| <= Total(callers, lanes)
  {
    if callers != [] {
      CallersAtMostTotal(callers[1..], lanes);
    }
  }

  lemma RankBelowDepthTimesQuota<J>(q: Queue<J>, caller: string, job: J)
    requires q.Valid() && Waiting(q, caller, job)
    ensures Rank(q, caller, job) < q.depth * q.quota
  {
    CallersAtMostTotal(q.callers, q.lanes);
    MoreLaps(q.depth, IndexOf(q.lanes[caller], job), q.quota - 1);
    LapsIsProduct(q.depth, q.quota);
  }

  lemma GetLowersRank<J>(q: Queue<J>, caller: string, job: J)
    requires q.Valid() && Waiting(q, caller, job) && Head(q) != Some((caller, job))
    ensures AfterGet(q).Valid() && Waiting(AfterGet(q), caller, job)
    ensures Rank(AfterGet(q), caller, job) < Rank(q, caller, job)
  {
    GetKeepsValid(q);
    CallersAtMostTotal(q.callers, q.lanes);
    var head, rest := q.callers[0], q.callers[1..];
    Rotated(q.callers);
    if caller == head {
      NextLap(q, job);
    } else {
      assert caller in rest;
      if AfterGet(q).callers != rest {
        IndexOfAppend(rest, [head], caller);
      }
    }
  }

  /** The head's caller goes to the end of the rotation and its later jobs move up by one. */
  lemma NextLap<J>(q: Queue<J>, job: J)
    requires q.Valid() && q.callers != [] && |q.callers| <= q.depth
    requires Waiting(q, q.callers[0], job) && q.lanes[q.callers[0]][0] != job
    ensures Waiting(AfterGet(q), q.callers[0], job) && q.callers[0] in AfterGet(q).callers
    ensures Rank(AfterGet(q), q.callers[0], job) < Rank(q, q.callers[0], job)
  {
    var head, rest, lane := q.callers[0], q.callers[1..], q.lanes[q.callers[0]];
    Rotated(q.callers);
    Rotated(lane);
    assert job in lane[1..];
    assert IndexOf(lane, job) == 1 + IndexOf(lane[1..], job);
    LastInRotation(rest, head);
  }

  lemma {:induction false} LastInRotation(s: seq<string>, c: string)
    requires c !in s
    ensures IndexOf(s + [c], c) == |s|
  {
    if s != [] {
      assert (s + [c])[1..] == s[1..] + [c];
      LastInRotation(s[1..], c);
    }
  }

  lemma SubmitKeepsRank<J>(q: Queue<J>, caller: string, job: J, other: string, newJob: J)
    requires q.Valid() && Waiting(q, caller, job) && !Waiting(q, other, newJob)
    ensures Submit(q, other, newJob).0.Valid() && Waiting(Submit(q, other, newJob).0, caller, job)
    ensures Rank(Submit(q, other, newJob).0, caller, job) == Rank(q, caller, job)
  {
    SubmitKeepsValid(q, other, newJob);
    if Submit(q, other, newJob).1 == None {
      IndexOfAppend(q.callers, [other], caller);
      IndexOfAppend(q.lanes[caller], [newJob], job);
    }
  }

  lemma CancelNeverRaisesRank<J>(q: Queue<J>, caller: string, job: J, other: string, gone: J)
    requires q.Valid() && Waiting(q, caller, job) && (other, gone) != (caller, job)
    ensures Cancel(q, other, gone).Valid() && Waiting(Cancel(q, other, gone), caller, job)
    ensures Rank(Cancel(q, other, gone), caller, job) <= Rank(q, caller, job)
  {
    CancelKeepsValid(q, other, gone);
    if Waiting(q, other, gone) {
      if other == caller {
        WithoutMovesForward(q.lanes[caller], {gone}, job);
        MoreLaps(q.depth, IndexOf(Without(q.lanes[caller], {gone}), job), IndexOf(q.lanes[caller], job));
      } else {
        WithoutMovesForward(q.callers, {other}, caller);
      }
    }
  }

  /**
   * Whatever else happens, a waiting job that nobody cancels has been taken once
   * more takings have happened than its rank.
   */
  lemma {:induction false} TakenAfterRankGets<J>(q: Queue<J>, es: seq<Event<J>>, caller: string, job: J)
    requires q.Valid() && Legal(q, es) && Waiting(q, caller, job)
    requires CancelEvent(caller, job) !in es
    requires Gets(es) > Rank(q, caller, job)
    ensures (caller, job) in Served(q, es)
    decreases |es|
  {
    var e := es[0];
    StepKeepsValid(q, e);
    match e
    case SubmitEvent(other, newJob) =>
      SubmitKeepsRank(q, caller, job, other, newJob);
      TakenAfterRankGets(Step(q, e), es[1..], caller, job);
    case CancelEvent(other, gone) =>
      CancelNeverRaisesRank(q, caller, job, other, gone);
      TakenAfterRankGets(Step(q, e), es[1..], caller, job);
    case GetEvent =>
      if Head(q) != Some((caller, job)) {
        GetLowersRank(q, caller, job);
        TakenAfterRankGets(Step(q, e), es[1..], caller, job);
      }
  }

  lemma TakenWithinDepthTimesQuotaGets<J>(q: Queue<J>, es: seq<Event<J>>, caller: string, job: J)
    requires q.Valid() && Legal(q, es) && Waiting(q, caller, job)
    requires CancelEvent(caller, job) !in es
    requires Gets(es) >= q.depth * q.quota
    ensures (caller, job) in Served(q, es)
  {
    RankBelowDepthTimesQuota(q, caller, job);
    TakenAfterRankGets(q, es, caller, job);
  }

  // ---- first in, first out for each caller ----

  function JobsOf<J>(served: seq<(string, J)>, caller: string): seq<J> {
    if served == [] then []
    else (if served[0].0 == caller then [served[0].1] else []) + JobsOf(served[1..], caller)
  }

  /** Every job the caller offers in `es`, accepted or not. */
  function Offered<J>(es: seq<Event<J>>, caller: string): seq<J> {
    if es == [] then []
    else (if es[0].SubmitEvent? && es[0].caller == caller then [es[0].job] else []) + Offered(es[1..], caller)
  }

  function ServedNow<J(==)>(q: Queue<J>, e: Event<J>, caller: string): seq<J>
    requires q.Valid()
  {
    if e.GetEvent? && q.callers != [] && q.callers[0] == caller then [q.lanes[caller][0]] else []
  }

  function AcceptedNow<J(==)>(q: Queue<J>, e: Event<J>, caller: string): seq<J> {
    if e.SubmitEvent? && e.caller == caller && Submit(q, caller, e.job).1 == None then [e.job] else []
  }

  function WithdrawnNow<J(==)>(q: Queue<J>, e: Event<J>, caller: string): set<J> {
    if e.CancelEvent? && e.caller == caller && Waiting(q, caller, e.job) then {e.job} else {}
  }

  /** The offered jobs the queue accepts. */
  ghost function Accepted<J>(q: Queue<J>, es: seq<Event<J>>, caller: string): seq<J>
    requires q.Valid() && Legal(q, es)
    decreases |es|
  {
    if es == [] then []
    else
      StepKeepsValid(q, es[0]);
      AcceptedNow(q, es[0], caller) + Accepted(Step(q, es[0]), es[1..], caller)
  }

  /** The jobs taken back by a cancellation that found them waiting. */
  ghost function Withdrawn<J>(q: Queue<J>, es: seq<Event<J>>, caller: string): set<J>
    requires q.Valid() && Legal(q, es)
    decreases |es|
  {
    if es == [] then {}
    else
      StepKeepsValid(q, es[0]);
      WithdrawnNow(q, es[0], caller) + Withdrawn(Step(q, es[0]), es[1..], caller)
  }

  /** What one event does to one caller's lane. */
  lemma LaneAfterStep<J>(q: Queue<J>, e: Event<J>, caller: string)
    requires q.Valid() && LegalEvent(q, e)
    ensures Step(q, e).Lane(caller) ==
      match e {
        case SubmitEvent(_, _) => q.Lane(caller) + AcceptedNow(q, e, caller)
        case GetEvent => q.Lane(caller)[|ServedNow(q, e, caller)|..]
        case CancelEvent(_, _) => Without(q.Lane(caller), WithdrawnNow(q, e, caller))
      }
  {
    match e
    case SubmitEvent(other, job) => LaneAfterSubmit(q, other, job, caller);
    case GetEvent => LaneAfterGet(q, caller);
    case CancelEvent(other, job) => LaneAfterCancel(q, other, job, caller);
  }

  lemma LaneAfterSubmit<J>(q: Queue<J>, other: string, job: J, caller: string)
    ensures Submit(q, other, job).0.Lane(caller) == q.Lane(caller) + AcceptedNow(q, SubmitEvent(other, job), caller)
  {
    assert q.Lane(caller) + [] == q.Lane(caller);
  }

  lemma LaneAfterGet<J>(q: Queue<J>, caller: string)
    requires q.Valid()
    ensures AfterGet(q).Lane(caller) == q.Lane(caller)[|ServedNow(q, GetEvent, caller)|..]
  {
    if q.callers != [] && q.callers[0] != caller {
      assert q.Lane(caller)[0..] == q.Lane(caller);
    }
  }

  lemma LaneAfterCancel<J>(q: Queue<J>, other: string, job: J, caller: string)
    requires q.Valid()
    ensures Cancel(q, other, job).Lane(caller) == Without(q.Lane(caller), WithdrawnNow(q, CancelEvent(other, job), caller))
  {
    if other != caller || !Waiting(q, caller, job) {
      WithoutNothing(q.Lane(caller), {});
    }
  }

  /** The first-in-first-out law for a single event. */
  lemma OneStepInOrder<J>(q: Queue<J>, e: Event<J>, caller: string)
    requires q.Valid() && LegalEvent(q, e)
    ensures ServedNow(q, e, caller) + Step(q, e).Lane(caller)
         == Without(q.Lane(caller) + AcceptedNow(q, e, caller), WithdrawnNow(q, e, caller))
  {
    LaneAfterStep(q, e, caller);
    var lane := q.Lane(caller);
    assert lane + [] == lane;
    match e
    case SubmitEvent(_, _) => WithoutNothing(lane + AcceptedNow(q, e, caller), {});
    case GetEvent => WithoutNothing(lane, {});
    case CancelEvent(_, _) =>
  }

  lemma {:induction false} OnlyKnownJobsAreHandled<J>(q: Queue<J>, es: seq<Event<J>>, caller: string, job: J)
    requires q.Valid() && Legal(q, es)
    requires job !in q.Lane(caller) && job !in Offered(es, caller)
    ensures job !in Withdrawn(q, es, caller) && job !in Accepted(q, es, caller)
    decreases |es|
  {
    if es != [] {
      StepKeepsValid(q, es[0]);
      LaneAfterStep(q, es[0], caller);
      OnlyKnownJobsAreHandled(Step(q, es[0]), es[1..], caller, job);
    }
  }

  /**
   * Service per caller is first in, first out: what has been taken followed by
   * what still waits is exactly the accepted jobs in order, less the withdrawn ones.
   */
  lemma {:induction false} ServedInOrder<J>(q: Queue<J>, es: seq<Event<J>>, caller: string)
    requires q.Valid() && Legal(q, es)
    requires Distinct(q.Lane(caller) + Offered(es, caller))
    ensures JobsOf(Served(q, es), caller) + Run(q, es).Lane(caller)
         == Without(q.Lane(caller) + Accepted(q, es, caller), Withdrawn(q, es, caller))
    decreases |es|
  {
    var lane := q.Lane(caller);
    if es == [] {
      WithoutNothing(lane, {});
      assert lane + [] == lane;
    } else {
      var e, rest := es[0], es[1..];
      StepKeepsValid(q, e);
      OfferedStaysDistinct(q, es, caller);
      var q' := Step(q, e);
      ServedInOrder(q', rest, caller);
      OneStepInOrder(q, e, caller);
      HandledOnce(q, es, caller);
      JoinHistories(lane, ServedNow(q, e, caller), AcceptedNow(q, e, caller), WithdrawnNow(q, e, caller), q'.Lane(caller),
                    JobsOf(Served(q', rest), caller), Accepted(q', rest, caller), Withdrawn(q', rest, caller), Run(q', rest).Lane(caller));
      assert JobsOf(Served(q, es), caller) == ServedNow(q, e, caller) + JobsOf(Served(q', rest), caller);
    }
  }

  /** Two consecutive histories that each obey the first-in-first-out law obey it together. */
  lemma JoinHistories<J>(lane: seq<J>, served: seq<J>, accepted: seq<J>, gone: set<J>, middle: seq<J>,
                         servedLater: seq<J>, acceptedLater: seq<J>, goneLater: set<J>, last: seq<J>)
    requires served + middle == Without(lane + accepted, gone)
    requires servedLater + last == Without(middle + acceptedLater, goneLater)
    requires forall x :: x in gone ==> x !in acceptedLater
    requires forall x :: x in served ==> x !in goneLater
    ensures (served + servedLater) + last == Without(lane + (accepted + acceptedLater), gone + goneLater)
  {
    hide Without;
    WithoutTwice(lane + (accepted + acceptedLater), gone, goneLater);
    WithdrawEarlier(lane, accepted, acceptedLater, gone);
    ServeEarlier(served, middle, acceptedLater, goneLater);
    Regroup(served, servedLater, last);
  }

  lemma Regroup<J>(a: seq<J>, b: seq<J>, c: seq<J>)
    ensures (a + b) + c == a + (b + c)
  {
  }

  lemma ServeEarlier<J>(served: seq<J>, middle: seq<J>, acceptedLater: seq<J>, goneLater: set<J>)
    requires forall x :: x in served ==> x !in goneLater
    ensures Without((served + middle) + acceptedLater, goneLater) == served + Without(middle + acceptedLater, goneLater)
  {
    Regroup(served, middle, acceptedLater);
    WithoutAppend(served, middle + acceptedLater, goneLater);
    WithoutNothing(served, goneLater);
  }

  lemma WithdrawEarlier<J>(lane: seq<J>, accepted: seq<J>, acceptedLater: seq<J>, gone: set<J>)
    requires forall x :: x in gone ==> x !in acceptedLater
    ensures Without(lane + (accepted + acceptedLater), gone) == Without(lane + accepted, gone) + acceptedLater
  {
    Regroup(lane, accepted, acceptedLater);
    WithoutAppend(lane + accepted, acceptedLater, gone);
    WithoutNothing(acceptedLater, gone);
  }

  /** A job that an event takes or withdraws plays no part afterwards. */
  lemma HandledOnce<J>(q: Queue<J>, es: seq<Event<J>>, caller: string)
    requires q.Valid() && es != [] && Legal(q, es)
    requires Distinct(q.Lane(caller) + Offered(es, caller))
    ensures Step(q, es[0]).Valid() && Legal(Step(q, es[0]), es[1..])
    ensures forall x :: x in WithdrawnNow(q, es[0], caller) ==> x !in Accepted(Step(q, es[0]), es[1..], caller)
    ensures forall x :: x in ServedNow(q, es[0], caller) ==> x !in Withdrawn(Step(q, es[0]), es[1..], caller)
  {
    var e, rest := es[0], es[1..];
    StepKeepsValid(q, e);
    LaneAfterStep(q, e, caller);
    OfferedStaysDistinct(q, es, caller);
    forall x | x in WithdrawnNow(q, e, caller) ensures x !in Accepted(Step(q, e), rest, caller) {
      OnlyKnownJobsAreHandled(Step(q, e), rest, caller, x);
    }
    forall x | x in ServedNow(q, e, caller) ensures x !in Withdrawn(Step(q, e), rest, caller) {
      OnlyKnownJobsAreHandled(Step(q, e), rest, caller, x);
    }
  }

  /** One event leaves the caller's lane and remaining offers free of repetitions. */
  lemma OfferedStaysDistinct<J>(q: Queue<J>, es: seq<Event<J>>, caller: string)
    requires q.Valid() && es != [] && LegalEvent(q, es[0])
    requires Distinct(q.Lane(caller) + Offered(es, caller))
    ensures Step(q, es[0]).Valid() && Distinct(Step(q, es[0]).Lane(caller) + Offered(es[1..], caller))
    ensures es[0].GetEvent? && q.Lane(caller) != [] ==>
      q.Lane(caller)[0] !in q.Lane(caller)[1..] && q.Lane(caller)[0] !in Offered(es[1..], caller)
    ensures es[0].CancelEvent? && es[0].job in q.Lane(caller) ==> es[0].job !in Offered(es[1..], caller)
  {
    var e, lane, later := es[0], q.Lane(caller), Offered(es[1..], caller);
    var accepted, served, gone := AcceptedNow(q, e, caller), ServedNow(q, e, caller), WithdrawnNow(q, e, caller);
    assert Offered(es, caller) == (if e.SubmitEvent? && e.caller == caller then [e.job] else []) + later;
    assert [] + later == later;
    StaysDistinct(lane, later, e, caller, accepted, served, gone);
    StepKeepsValid(q, e);
    LaneAfterStep(q, e, caller);
  }

  lemma StaysDistinct<J>(lane: seq<J>, later: seq<J>, e: Event<J>, caller: string,
                         accepted: seq<J>, served: seq<J>, gone: set<J>)
    requires e.SubmitEvent? && e.caller == caller ==> Distinct(lane + ([e.job] + later))
    requires !(e.SubmitEvent? && e.caller == caller) ==> Distinct(lane + later)
    requires accepted == [] || (e.SubmitEvent? && e.caller == caller && accepted == [e.job])
    requires served == [] || (lane != [] && served == [lane[0]])
    requires gone == {} || (e.CancelEvent? && e.job in lane && gone == {e.job})
    ensures e.SubmitEvent? ==> Distinct((lane + accepted) + later)
    ensures e.GetEvent? ==> Distinct(lane[|served|..] + later)
    ensures e.CancelEvent? ==> Distinct(Without(lane, gone) + later)
    ensures e.GetEvent? && lane != [] ==> lane[0] !in lane[1..] && lane[0] !in later
    ensures e.CancelEvent? && e.job in lane ==> e.job !in later
  {
    match e
    case SubmitEvent(other, job) =>
      assert lane + [] == lane;
      if other == caller {
        DistinctParts(lane, [job], later);
      }
    case GetEvent =>
      if lane != [] {
        assert lane + later == ([lane[0]] + lane[1..]) + later;
        DistinctParts([lane[0]], lane[1..], later);
      }
    case CancelEvent(_, job) =>
      WithoutNothing(lane, {});
      if job in lane {
        CancelledLaneStaysDistinct(lane, job, later);
      }
  }

  lemma DistinctParts<T>(a: seq<T>, b: seq<T>, c: seq<T>)
    requires Distinct(a + (b + c)) || Distinct((a + b) + c)
    ensures Distinct((a + b) + c) && Distinct(a + c) && Distinct(b + c) && Distinct(a + b)
    ensures forall x :: x in a ==> x !in b && x !in c
  {
    assert a + (b + c) == (a + b) + c;
    var s := (a + b) + c;
    assert forall i :: 0 <= i < |a| ==> a[i] == s[i];
    assert forall i :: 0 <= i < |b| ==> b[i] == s[|a| + i];
    assert forall i :: 0 <= i < |c| ==> c[i] == s[|a| + |b| + i];
  }

  lemma CancelledLaneStaysDistinct<T>(lane: seq<T>, job: T, offered: seq<T>)
    requires Distinct(lane + offered) && job in lane
    ensures job !in offered && Distinct(Without(lane, {job}) + offered)
  {
    assert lane + ([] + offered) == lane + offered;
    DistinctParts(lane, [], offered);
    assert lane + [] == lane && [] + offered == offered;
    WithoutOne(lane, job);
    DistinctJoin(Without(lane, {job}), offered);
  }

  // ---- round robin ----

  /** `caller` has a lane before every event and after the last one. */
  ghost predicate Backlogged<J>(q: Queue<J>, es: seq<Event<J>>, caller: string)
    requires q.Valid() && Legal(q, es)
    decreases |es|
  {
    caller in q.lanes &&
    (es == [] ||
     (StepKeepsValid(q, es[0]);
      Backlogged(Step(q, es[0]), es[1..], caller)))
  }

  function Callers<J>(served: seq<(string, J)>): seq<string> {
    if served == [] then [] else [served[0].0] + Callers(served[1..])
  }

  /** `other` cannot come before `caller` in the rotation. */
  ghost predicate Behind<J>(q: Queue<J>, caller: string, other: string)
    requires q.Valid() && caller in q.lanes
  {
    other in q.lanes ==> IndexOf(q.callers, caller) < IndexOf(q.callers, other)
  }

  lemma StaysBehind<J>(q: Queue<J>, e: Event<J>, caller: string, other: string)
    requires q.Valid() && LegalEvent(q, e) && caller in q.lanes && caller != other
    requires Behind(q, caller, other)
    requires e.GetEvent? ==> q.callers[0] != caller
    ensures Step(q, e).Valid()
    ensures caller in Step(q, e).lanes ==> Behind(Step(q, e), caller, other)
  {
    StepKeepsValid(q, e);
    match e
    case SubmitEvent(c, job) => SubmitKeepsBehind(q, c, job, caller, other);
    case CancelEvent(c, job) => CancelKeepsBehind(q, c, job, caller, other);
    case GetEvent => GetKeepsBehind(q, caller, other);
  }

  lemma SubmitKeepsBehind<J>(q: Queue<J>, c: string, job: J, caller: string, other: string)
    requires q.Valid() && !Waiting(q, c, job) && caller in q.lanes && caller != other
    requires Behind(q, caller, other)
    ensures Submit(q, c, job).0.Valid() && Behind(Submit(q, c, job).0, caller, other)
  {
    SubmitKeepsValid(q, c, job);
    var q' := Submit(q, c, job).0;
    if q'.callers != q.callers {
      assert caller in q.callers;
      IndexOfAppend(q.callers, [c], caller);
      if other in q.lanes {
        assert other in q.callers;
        IndexOfAppend(q.callers, [c], other);
      } else if other == c {
        LastInRotation(q.callers, c);
      }
    }
  }

  lemma CancelKeepsBehind<J>(q: Queue<J>, c: string, job: J, caller: string, other: string)
    requires q.Valid() && caller in q.lanes && Behind(q, caller, other)
    ensures Cancel(q, c, job).Valid()
    ensures caller in Cancel(q, c, job).lanes ==> Behind(Cancel(q, c, job), caller, other)
  {
    CancelKeepsValid(q, c, job);
    var q' := Cancel(q, c, job);
    if caller in q'.lanes && other in q'.lanes && q'.callers != q.callers {
      assert caller in q'.callers && other in q'.callers;
      WithoutKeepsOrder(q.callers, {c}, caller, other);
    }
  }

  lemma GetKeepsBehind<J>(q: Queue<J>, caller: string, other: string)
    requires q.Valid() && caller in q.lanes && caller != other && Behind(q, caller, other)
    requires q.callers[0] != caller
    ensures AfterGet(q).Valid() && caller in AfterGet(q).lanes && Behind(AfterGet(q), caller, other)
  {
    GetKeepsValid(q);
    var head, tail := q.callers[0], q.callers[1..];
    assert q.callers == [head] + tail;
    assert caller in tail;
    if other in AfterGet(q).lanes {
      assert other != head;
      assert other in tail;
      if AfterGet(q).callers != tail {
        IndexOfAppend(tail, [head], caller);
        IndexOfAppend(tail, [head], other);
      }
    }
  }

  lemma {:induction false} WithoutKeepsOrder(s: seq<string>, gone: set<string>, a: string, b: string)
    requires a in s && b in s && a !in gone && b !in gone
    requires IndexOf(s, a) < IndexOf(s, b)
    ensures IndexOf(Without(s, gone), a) < IndexOf(Without(s, gone), b)
  {
    if s[0] != a {
      WithoutKeepsOrder(s[1..], gone, a, b);
    }
  }

  /** A caller that has just had its turn is behind every other one. */
  lemma TurnPutsBehind<J>(q: Queue<J>, caller: string)
    requires q.Valid() && caller in q.lanes && q.callers[0] != caller
    ensures AfterGet(q).Valid() && caller in AfterGet(q).lanes && Behind(AfterGet(q), caller, q.callers[0])
  {
    GetKeepsValid(q);
    var head, rest := q.callers[0], q.callers[1..];
    Rotated(q.callers);
    assert caller in rest;
    if head in AfterGet(q).lanes {
      assert AfterGet(q).callers == rest + [head];
      IndexOfAppend(rest, [head], caller);
      LastInRotation(rest, head);
    }
  }

  lemma {:induction false} BehindIsNotServed<J>(q: Queue<J>, es: seq<Event<J>>, caller: string, other: string)
    requires q.Valid() && Legal(q, es) && Backlogged(q, es, caller) && caller != other
    requires caller !in Callers(Served(q, es)) && Behind(q, caller, other)
    ensures Count(Callers(Served(q, es)), other) == 0
    decreases |es|
  {
    if es != [] {
      StaysBehind(q, es[0], caller, other);
      BehindIsNotServed(Step(q, es[0]), es[1..], caller, other);
    }
  }

  /** While a caller keeps waiting and is not served, nobody else is served twice. */
  lemma {:induction false} OneTurnEachWhileWaiting<J>(q: Queue<J>, es: seq<Event<J>>, caller: string, other: string)
    requires q.Valid() && Legal(q, es) && Backlogged(q, es, caller) && caller != other
    requires caller !in Callers(Served(q, es))
    ensures Count(Callers(Served(q, es)), other) <= 1
    decreases |es|
  {
    if es != [] {
      StepKeepsValid(q, es[0]);
      var q' := Step(q, es[0]);
      if es[0].GetEvent? && q.callers[0] == other {
        TurnPutsBehind(q, caller);
        BehindIsNotServed(q', es[1..], caller, other);
      } else {
        OneTurnEachWhileWaiting(q', es[1..], caller, other);
      }
    }
  }
}
