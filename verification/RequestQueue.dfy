/**
 * The broker's request queue, updated in place. Each method is one critical
 * section of the source; `State` is the value it is specified by.
 */
module RequestQueue {
  import opened Outcomes
  import opened Sequences
  import opened FairQueue

  class BrokerJob {
    const requestId: string
    const caller: string
    const action: string

    constructor (requestId: string, caller: string, action: string)
      ensures this.requestId == requestId && this.caller == caller && this.action == action
    {
      this.requestId, this.caller, this.action := requestId, caller, action;
    }
  }

  class FairRequestQueue {
    const depth: nat
    const perCallerQuota: nat
    var queues: map<string, seq<BrokerJob>>
    var callers: seq<string>
    var queued: nat
    var closed: bool

    ghost function State(): Queue<BrokerJob>
      reads this
    {
      Queue(depth, perCallerQuota, queues, callers, queued, closed)
    }

    ghost predicate Valid()
      reads this
    {
      State().Valid() && OwnLanes(queues)
    }

    /** Every waiting job is in its own caller's lane. */
    static ghost predicate OwnLanes(queues: map<string, seq<BrokerJob>>) {
      forall c, i :: c in queues && 0 <= i < |queues[c]| ==> queues[c][i].caller == c
    }

    constructor (depth: nat, perCallerQuota: nat)
      ensures Valid() && State() == EmptyQueue(depth, perCallerQuota)
    {
      this.depth, this.perCallerQuota := depth, perCallerQuota;
      queues, callers, queued, closed := map[], [], 0, false;
    }

    method Submit(job: BrokerJob) returns (rejection: Option<Rejection>)
      requires Valid() && !Waiting(State(), job.caller, job)
      modifies this
      ensures Valid()
      ensures (State(), rejection) == FairQueue.Submit(old(State()), job.caller, job)
    {
      ghost var before := State();
      if closed {
        return Some(BrokerStopping);
      }
      var queue := if job.caller in queues then queues[job.caller] else [];
      if queued >= depth {
        return Some(Saturated);
      }
      if |queue| >= perCallerQuota {
        return Some(CallerQuotaExceeded);
      }
      if job.caller !in queues {
        callers := callers + [job.caller];
      }
      queues := queues[job.caller := queue + [job]];
      queued := queued + 1;
      assert State() == FairQueue.Submit(before, job.caller, job).0;
      SubmitKeepsValid(before, job.caller, job);
      return None;
    }

    /** `None` is what a caller sees when the wait ends, by timeout or by closing, with no job waiting. */
    method Get() returns (job: Option<BrokerJob>)
      requires Valid()
      modifies this
      ensures Valid()
      ensures State() == AfterGet(old(State()))
      ensures job == match Head(old(State())) { case None => None case Some(taken) => Some(taken.1) }
    {
      ghost var before := State();
      CountIsPositive();
      if queued == 0 {
        return None;
      }
      var caller := callers[0];
      callers := callers[1..];
      var queue := queues[caller];
      job := Some(queue[0]);
      queue := queue[1..];
      queued := queued - 1;
      if queue != [] {
        queues := queues[caller := queue];
        callers := callers + [caller];
      } else {
        queues := queues - {caller};
      }
      assert State() == AfterGet(before);
      GetKeepsValid(before);
    }

    lemma CountIsPositive()
      requires Valid()
      ensures queued == 0 <==> callers == []
    {
      if callers != [] {
        assert callers[0] in queues;
      }
    }

    static method Retain(queue: seq<BrokerJob>, job: BrokerJob) returns (retained: seq<BrokerJob>)
      ensures retained == Without(queue, {job})
    {
      retained := [];
      for i := 0 to |queue|
        invariant retained == Without(queue[..i], {job})
      {
        assert queue[..i + 1] == queue[..i] + [queue[i]];
        WithoutAppend(queue[..i], [queue[i]], {job});
        if queue[i] != job {
          retained := retained + [queue[i]];
        }
      }
      assert queue[..|queue|] == queue;
    }

    method Cancel(job: BrokerJob) returns (removed: bool)
      requires Valid()
      modifies this
      ensures Valid()
      ensures removed == Waiting(old(State()), job.caller, job)
      ensures State() == FairQueue.Cancel(old(State()), job.caller, job)
    {
      hide Distinct, Without;
      ghost var before := State();
      WaitingIsCounted(before, job.caller, job);
      CancelKeepsOwnLanes(before, job);
      if job.caller !in queues {
        return false;
      }
      var retained := Retain(queues[job.caller], job);
      if |retained| == |queues[job.caller]| {
        return false;
      }
      queued := queued - 1;
      if retained != [] {
        queues := queues[job.caller := retained];
      } else {
        queues := queues - {job.caller};
        callers := Without(callers, {job.caller});
      }
      assert State() == FairQueue.Cancel(before, job.caller, job);
      return true;
    }

    static lemma CancelKeepsOwnLanes(q: Queue<BrokerJob>, job: BrokerJob)
      requires q.Valid() && OwnLanes(q.lanes)
      ensures FairQueue.Cancel(q, job.caller, job).Valid() && OwnLanes(FairQueue.Cancel(q, job.caller, job).lanes)
    {
      CancelKeepsValid(q, job.caller, job);
      if Waiting(q, job.caller, job) {
        var retained := Without(q.lanes[job.caller], {job});
        assert forall i :: 0 <= i < |retained| ==> retained[i] in q.lanes[job.caller];
      }
    }

    /** Every waiting job, each once, lane by lane in an order the dictionary chooses. */
    method Close() returns (pending: seq<BrokerJob>)
      requires Valid()
      modifies this
      ensures Valid()
      ensures State() == Closed(old(State()))
      ensures |pending| == old(queued) && Distinct(pending)
      ensures forall c, job {:trigger job in old(queues[c])} :: c in old(queues) && job in old(queues[c]) ==> job in pending
      ensures forall job :: job in pending ==> Waiting(old(State()), job.caller, job)
    {
      closed := true;
      ghost var order;
      pending, order := AllPending(queues);
      DrainIsExact(State(), order);
      queues, callers, queued := map[], [], 0;
    }

    /** Jobs in their own callers' lanes wait in one lane each, so a drain is exact. */
    static lemma DrainIsExact(q: Queue<BrokerJob>, order: seq<string>)
      requires q.Valid() && OwnLanes(q.lanes) && Distinct(order) && forall c :: c in order <==> c in q.lanes
      ensures |Pending(order, q.lanes)| == q.queued && Distinct(Pending(order, q.lanes))
      ensures forall c, job {:trigger job in q.lanes[c]} :: c in q.lanes && job in q.lanes[c] ==> job in Pending(order, q.lanes)
      ensures forall job :: job in Pending(order, q.lanes) ==> Waiting(q, job.caller, job)
    {
      PendingIsExact(q, order);
    }

    static method AllPending(queues: map<string, seq<BrokerJob>>) returns (pending: seq<BrokerJob>, ghost order: seq<string>)
      ensures Distinct(order) && forall c :: c in order <==> c in queues
      ensures pending == Pending(order, queues)
    {
      pending, order := [], [];
      var remaining := queues.Keys;
      while remaining != {}
        invariant remaining <= queues.Keys && Distinct(order)
        invariant forall c :: c in order <==> c in queues && c !in remaining
        invariant pending == Pending(order, queues)
        decreases remaining
      {
        var caller :| caller in remaining;
        PendingAppend(order, caller, queues);
        pending := pending + queues[caller];
        order := order + [caller];
        remaining := remaining - {caller};
      }
    }
  }

  /** Taking a job out shortens its lane exactly when it waited there, and then the count was positive. */
  lemma WaitingIsCounted<J>(q: Queue<J>, caller: string, job: J)
    requires q.Valid()
    ensures caller in q.lanes ==> (|Without(q.lanes[caller], {job})| < |q.lanes[caller]| <==> Waiting(q, caller, job))
    ensures Waiting(q, caller, job) ==> q.queued > 0
  {
    if caller in q.lanes {
      WithoutOne(q.lanes[caller], job);
      TotalWithout(q.callers, q.lanes, caller);
    }
  }

  lemma {:induction false} PendingAppend<J>(order: seq<string>, caller: string, lanes: map<string, seq<J>>)
    requires forall c :: c in order + [caller] ==> c in lanes
    ensures Pending(order + [caller], lanes) == Pending(order, lanes) + lanes[caller]
  {
    if order != [] {
      assert (order + [caller])[1..] == order[1..] + [caller];
      PendingAppend(order[1..], caller, lanes);
    }
  }
}
