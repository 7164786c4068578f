/**
 * The broker's bounded caller-round-robin queue as a value: one lane of jobs per
 * caller, and the rotation of callers that have a lane. `J` is a job, compared
 * the way the source compares job objects, by identity.
 */
module FairQueue {
  import opened Outcomes
  import opened Sequences

  datatype Rejection = BrokerStopping | Saturated | CallerQuotaExceeded

  datatype Queue<J(==)> = Queue(
    depth: nat,
    quota: nat,
    lanes: map<string, seq<J>>,
    callers: seq<string>,
    queued: nat,
    closed: bool)
  {
    function Lane(caller: string): seq<J> {
      if caller in lanes then lanes[caller] else []
    }

    ghost predicate Valid() {
      && Distinct(callers)
      && (forall c :: c in callers <==> c in lanes)
      && (forall c | c in lanes :: 0 < |lanes[c]| <= quota && Distinct(lanes[c]))
      && queued == Total(callers, lanes)
      && queued <= depth
    }
  }

  function EmptyQueue<J(==)>(depth: nat, quota: nat): (q: Queue<J>)
    ensures q.Valid()
  {
    Queue(depth, quota, map[], [], 0, false)
  }

  /** How many jobs the lanes of `callers` hold. */
  function Total<J>(callers: seq<string>, lanes: map<string, seq<J>>): nat
    requires forall c :: c in callers ==> c in lanes
  {
    if callers == [] then 0 else |lanes[callers[0]]| + Total(callers[1..], lanes)
  }

  // ---- the four operations ----

  function Submit<J(==)>(q: Queue<J>, caller: string, job: J): (Queue<J>, Option<Rejection>) {
    if q.closed then (q, Some(BrokerStopping))
    else if q.queued >= q.depth then (q, Some(Saturated))
    else if |q.Lane(caller)| >= q.quota then (q, Some(CallerQuotaExceeded))
    else
      (q.(callers := if caller in q.lanes then q.callers else q.callers + [caller],
          lanes := q.lanes[caller := q.Lane(caller) + [job]],
          queued := q.queued + 1),
       None)
  }

  /** The caller at the head of the rotation and its oldest job; nothing when no job waits. */
  function Head<J(==)>(q: Queue<J>): Option<(string, J)>
    requires q.Valid()
  {
    if q.callers == [] then None else Some((q.callers[0], q.lanes[q.callers[0]][0]))
  }

  function AfterGet<J(==)>(q: Queue<J>): Queue<J>
    requires q.Valid()
  {
    if q.callers == [] then q
    else
      var caller := q.callers[0];
      var lane := q.lanes[caller][1..];
      if lane == [] then
        q.(callers := q.callers[1..], lanes := q.lanes - {caller}, queued := DownByOne(q))
      else
        q.(callers := q.callers[1..] + [caller], lanes := q.lanes[caller := lane], queued := DownByOne(q))
  }

  /** The counter after one job has left. */
  function DownByOne<J(==)>(q: Queue<J>): nat {
    if q.queued == 0 then 0 else q.queued - 1
  }

  predicate Waiting<J(==)>(q: Queue<J>, caller: string, job: J) {
    job in q.Lane(caller)
  }

  /** The queue without `job`, which `Waiting` says was there; otherwise the queue itself. */
  function Cancel<J(==)>(q: Queue<J>, caller: string, job: J): Queue<J>
    requires q.Valid()
  {
    if !Waiting(q, caller, job) then q
    else
      var retained := Without(q.lanes[caller], {job});
      if retained == [] then
        q.(callers := Without(q.callers, {caller}), lanes := q.lanes - {caller}, queued := DownByOne(q))
      else
        q.(lanes := q.lanes[caller := retained], queued := DownByOne(q))
  }

  function Closed<J(==)>(q: Queue<J>): Queue<J> {
    q.(lanes := map[], callers := [], queued := 0, closed := true)
  }

  /** The waiting jobs, lane after lane, in a given order of the callers. */
  function Pending<J>(order: seq<string>, lanes: map<string, seq<J>>): (jobs: seq<J>)
    requires forall c :: c in order ==> c in lanes
    ensures |jobs| == Total(order, lanes)
  {
    if order == [] then [] else lanes[order[0]] + Pending(order[1..], lanes)
  }

  // ---- counting ----

  lemma {:induction false} TotalAppend<J>(a: seq<string>, b: seq<string>, lanes: map<string, seq<J>>)
    requires forall c :: c in a + b ==> c in lanes
    ensures Total(a + b, lanes) == Total(a, lanes) + Total(b, lanes)
  {
    if a == [] {
      assert a + b == b;
    } else {
      assert (a + b)[1..] == a[1..] + b;
      TotalAppend(a[1..], b, lanes);
    }
  }

  lemma {:induction false} TotalFrame<J>(callers: seq<string>, lanes: map<string, seq<J>>, other: map<string, seq<J>>)
    requires forall c :: c in callers ==> c in lanes && c in other && |lanes[c]| == |other[c]|
    ensures Total(callers, lanes) == Total(callers, other)
  {
    if callers != [] {
      TotalFrame(callers[1..], lanes, other);
    }
  }

  /** Taking a caller out of a duplicate-free rotation takes exactly its lane out of the count. */
  lemma {:induction false} TotalWithout<J>(callers: seq<string>, lanes: map<string, seq<J>>, c: string)
    requires Distinct(callers) && c in callers
    requires forall d :: d in callers ==> d in lanes
    ensures Total(callers, lanes) == |lanes[c]| + Total(Without(callers, {c}), lanes)
  {
    if callers[0] == c {
      assert c !in callers[1..];
      WithoutNothing(callers[1..], {c});
    } else {
      TotalWithout(callers[1..], lanes, c);
    }
  }

  /** The count does not depend on the order in which the callers are visited. */
  lemma {:induction false} TotalOfSameCallers<J>(a: seq<string>, b: seq<string>, lanes: map<string, seq<J>>)
    requires Distinct(a) && Distinct(b) && (forall c :: c in a <==> c in b)
    requires forall c :: c in a ==> c in lanes
    ensures Total(a, lanes) == Total(b, lanes)
  {
    if a == [] {
      assert forall i :: 0 <= i < |b| ==> b[i] in b;
    } else {
      assert a[0] in b;
      TotalWithout(b, lanes, a[0]);
      WithoutOne(b, a[0]);
      assert a == [a[0]] + a[1..];
      TotalOfSameCallers(a[1..], Without(b, {a[0]}), lanes);
    }
  }

  lemma TotalUpdate<J>(callers: seq<string>, lanes: map<string, seq<J>>, c: string, lane: seq<J>)
    requires Distinct(callers) && c in callers
    requires forall d :: d in callers ==> d in lanes
    ensures Total(callers, lanes[c := lane]) == Total(callers, lanes) - |lanes[c]| + |lane|
  {
    TotalWithout(callers, lanes, c);
    TotalWithout(callers, lanes[c := lane], c);
    TotalFrame(Without(callers, {c}), lanes, lanes[c := lane]);
  }

  lemma TotalOfOne<J>(caller: string, lanes: map<string, seq<J>>)
    requires caller in lanes
    ensures Total([caller], lanes) == |lanes[caller]|
  {
  }

  // ---- every operation keeps the queue valid ----

  lemma SubmitKeepsValid<J>(q: Queue<J>, caller: string, job: J)
    requires q.Valid() && !Waiting(q, caller, job)
    ensures Submit(q, caller, job).0.Valid()
  {
    hide OneLaneEach, Total;
    if Submit(q, caller, job).1 == None {
      var lane := q.Lane(caller) + [job];
      var lanes := q.lanes[caller := lane];
      assert Distinct(lane);
      if caller in q.lanes {
        TotalUpdate(q.callers, q.lanes, caller, lane);
      } else {
        TotalAppend(q.callers, [caller], lanes);
        TotalFrame(q.callers, q.lanes, lanes);
        TotalOfOne(caller, lanes);
      }
    }
  }

  /** Moving the head of a duplicate-free sequence to its end, or dropping it. */
  lemma Rotated<T>(s: seq<T>)
    requires s != [] && Distinct(s)
    ensures Distinct(s[1..]) && s[0] !in s[1..] && Distinct(s[1..] + [s[0]])
    ensures forall x :: x in s[1..] ==> x in s
    ensures forall x :: x in s ==> x == s[0] || x in s[1..]
  {
  }

  lemma GetKeepsValid<J>(q: Queue<J>)
    requires q.Valid()
    ensures AfterGet(q).Valid()
    ensures q.queued == AfterGet(q).queued + if Head(q).Some? then 1 else 0
  {
    if q.callers != [] {
      var caller, rest := q.callers[0], q.callers[1..];
      var lane := q.lanes[caller];
      Rotated(q.callers);
      Rotated(lane);
      assert q.queued == |lane| + Total(rest, q.lanes);
      if lane[1..] == [] {
        TotalFrame(rest, q.lanes, q.lanes - {caller});
      } else {
        var lanes := q.lanes[caller := lane[1..]];
        TotalAppend(rest, [caller], lanes);
        TotalFrame(rest, q.lanes, lanes);
        assert Total([caller], lanes) == |lane| - 1;
      }
    }
  }

  lemma CancelKeepsValid<J>(q: Queue<J>, caller: string, job: J)
    requires q.Valid()
    ensures Cancel(q, caller, job).Valid()
    ensures !Waiting(Cancel(q, caller, job), caller, job)
    ensures q.queued == Cancel(q, caller, job).queued + if Waiting(q, caller, job) then 1 else 0
  {
    if Waiting(q, caller, job) {
      var q' := Cancel(q, caller, job);
      var retained := Without(q.lanes[caller], {job});
      WithoutOne(q.lanes[caller], job);
      if retained == [] {
        WithoutOne(q.callers, caller);
        TotalWithout(q.callers, q.lanes, caller);
        TotalFrame(q'.callers, q.lanes, q'.lanes);
      } else {
        TotalUpdate(q.callers, q.lanes, caller, retained);
      }
    }
  }

  // ---- what each operation does to one job ----

  lemma WaitingAfterSubmit<J>(q: Queue<J>, caller: string, job: J, otherCaller: string, other: J)
    ensures Waiting(Submit(q, caller, job).0, otherCaller, other) <==>
      Waiting(q, otherCaller, other) || (Submit(q, caller, job).1 == None && otherCaller == caller && other == job)
  {
  }

  /** Which answer an offer gets, told from the jobs that wait; an accepted one is the last of its caller's lane. */
  lemma SubmitAnswers<J>(q: Queue<J>, caller: string, job: J, other: string)
    requires q.Valid()
    ensures var (q', answer) := Submit(q, caller, job);
      var waiting := Pending(q.callers, q.lanes);
      && (answer == Some(BrokerStopping) <==> q.closed)
      && (answer == Some(Saturated) <==> !q.closed && |waiting| >= q.depth)
      && (answer == Some(CallerQuotaExceeded) <==> !q.closed && |waiting| < q.depth && |q.Lane(caller)| >= q.quota)
      && (answer == None <==> !q.closed && |waiting| < q.depth && |q.Lane(caller)| < q.quota)
      && q'.Lane(other) == if answer == None && other == caller then q.Lane(other) + [job] else q.Lane(other)
  {
  }

  lemma WaitingAfterGet<J>(q: Queue<J>, otherCaller: string, other: J)
    requires q.Valid()
    ensures Waiting(AfterGet(q), otherCaller, other) <==>
      Waiting(q, otherCaller, other) && Head(q) != Some((otherCaller, other))
    ensures Head(q).Some? ==> Waiting(q, Head(q).value.0, Head(q).value.1)
  {
    if q.callers != [] {
      var lane := q.lanes[q.callers[0]];
      assert lane == [lane[0]] + lane[1..];
      assert lane[0] !in lane[1..];
    }
  }

  lemma WaitingAfterCancel<J>(q: Queue<J>, caller: string, job: J, otherCaller: string, other: J)
    requires q.Valid()
    ensures Waiting(Cancel(q, caller, job), otherCaller, other) <==>
      Waiting(q, otherCaller, other) && (otherCaller != caller || other != job)
  {
  }

  /** A drain hands out exactly the waiting jobs. */
  lemma {:induction false} PendingIsWaiting<J>(order: seq<string>, lanes: map<string, seq<J>>, job: J)
    requires forall c :: c in order ==> c in lanes
    ensures job in Pending(order, lanes) <==> exists c :: c in order && job in lanes[c]
  {
    if order != [] {
      PendingIsWaiting(order[1..], lanes, job);
      assert order == [order[0]] + order[1..];
    }
  }

  /** No job waits in two lanes. */
  ghost predicate OneLaneEach<J>(lanes: map<string, seq<J>>) {
    forall c, d, job {:trigger job in lanes[c], job in lanes[d]} ::
      c in lanes && d in lanes && job in lanes[c] && job in lanes[d] ==> c == d
  }

  lemma {:induction false} PendingIsDistinct<J>(order: seq<string>, lanes: map<string, seq<J>>)
    requires Distinct(order) && OneLaneEach(lanes) && forall c :: c in order ==> c in lanes && Distinct(lanes[c])
    ensures Distinct(Pending(order, lanes))
  {
    if order != [] {
      var lane, later := lanes[order[0]], Pending(order[1..], lanes);
      PendingIsDistinct(order[1..], lanes);
      forall job | job in lane ensures job !in later {
        PendingIsWaiting(order[1..], lanes, job);
      }
      DistinctJoin(lane, later);
    }
  }

  /**
   * The drain order is not fixed: whatever order the lanes are visited in, the jobs
   * handed out are exactly the waiting ones, each once, and as many as were counted.
   */
  lemma PendingIsExact<J>(q: Queue<J>, order: seq<string>)
    requires q.Valid() && OneLaneEach(q.lanes) && Distinct(order) && forall c :: c in order <==> c in q.lanes
    ensures forall job :: job in Pending(order, q.lanes) ==> exists c :: c in q.lanes && job in q.lanes[c]
    ensures forall c, job {:trigger job in q.lanes[c]} :: c in q.lanes && job in q.lanes[c] ==> job in Pending(order, q.lanes)
    ensures Distinct(Pending(order, q.lanes)) && |Pending(order, q.lanes)| == q.queued
  {
    PendingIsDistinct(order, q.lanes);
    TotalOfSameCallers(order, q.callers, q.lanes);
    forall job | job in Pending(order, q.lanes) ensures exists c :: c in q.lanes && job in q.lanes[c] {
      PendingIsWaiting(order, q.lanes, job);
    }
    forall c, job {:trigger job in q.lanes[c]} | c in q.lanes && job in q.lanes[c] ensures job in Pending(order, q.lanes) {
      PendingIsWaiting(order, q.lanes, job);
    }
  }
}
