/** The queue's waiting bound, in every run of the request protocol. */
module BrokerFairness {
  import opened Outcomes
  import opened FairQueue
  import opened BrokerProtocol
  import opened BrokerSafety
  import Fairness

  /** How often the worker gets between the states `from` and `end`. */
  function Gets(steps: seq<Step>, from: nat, end: nat): nat
    requires from <= end <= |steps|
    decreases end - from
  {
    if from == end then 0 else (if steps[from].WorkerGets? then 1 else 0) + Gets(steps, from + 1, end)
  }

  ghost predicate TakenAt(states: seq<Broker>, steps: seq<Step>, k: nat, j: nat)
    requires k < |steps| < |states|
  {
    steps[k] == WorkerGets && states[k + 1].worker == Holding(j)
  }

  /** The handler does not give the job up and the queue is not closed. */
  ghost predicate Undisturbed(steps: seq<Step>, from: nat, end: nat, j: nat)
    requires end <= |steps|
  {
    forall k :: from <= k < end ==> steps[k] != Withdraw(j) && !steps[k].CloseQueue?
  }

  lemma RankAfterOffer(b: Broker, job: nat, caller: string, j: nat)
    requires b.queue.Valid() && job in b.jobs && !Waiting(b.queue, b.jobs[job].caller, job) && Waiting(b.queue, caller, j)
    ensures Offered(b, job).queue.Valid() && Waiting(Offered(b, job).queue, caller, j)
    ensures Fairness.Rank(Offered(b, job).queue, caller, j) == Fairness.Rank(b.queue, caller, j)
  {
    Fairness.SubmitKeepsRank(b.queue, caller, j, b.jobs[job].caller, job);
  }

  lemma RankAfterWithdraw(b: Broker, job: nat, caller: string, j: nat)
    requires b.queue.Valid() && job in b.jobs && job != j && Waiting(b.queue, caller, j)
    ensures Withdrawn(b, job).queue.Valid() && Waiting(Withdrawn(b, job).queue, caller, j)
    ensures Fairness.Rank(Withdrawn(b, job).queue, caller, j) <= Fairness.Rank(b.queue, caller, j)
  {
    if Waiting(b.queue, b.jobs[job].caller, job) {
      Fairness.CancelNeverRaisesRank(b.queue, caller, j, b.jobs[job].caller, job);
    }
  }

  lemma RankAfterGet(b: Broker, caller: string, j: nat)
    requires b.queue.Valid() && b.worker == Getting && Waiting(b.queue, caller, j)
    ensures Taken(b).worker == Holding(j)
         || (AfterGet(b.queue).Valid() && Taken(b).queue == AfterGet(b.queue) && Waiting(Taken(b).queue, caller, j)
             && Fairness.Rank(Taken(b).queue, caller, j) < Fairness.Rank(b.queue, caller, j))
  {
    if Head(b.queue) != Some((caller, j)) {
      Fairness.GetLowersRank(b.queue, caller, j);
    }
  }

  /** Only four steps touch the queue. */
  lemma QueueIsUntouched(b: Broker, s: Step)
    requires b.queue.Valid() && Inhabited(b) && Enabled(b, s)
    requires !s.Offer? && !s.Withdraw? && !s.WorkerGets? && !s.CloseQueue?
    ensures Apply(b, s).queue == b.queue
  {
  }

  /** One step takes the job, or leaves it waiting with a rank that only a get must lower. */
  ghost predicate Advances(b: Broker, s: Step, b': Broker, caller: string, j: nat) {
    || (s == WorkerGets && b'.worker == Holding(j))
    || (b.queue.Valid() && b'.queue.Valid() && Waiting(b.queue, caller, j) && Waiting(b'.queue, caller, j)
        && Fairness.Rank(b'.queue, caller, j) + (if s.WorkerGets? then 1 else 0) <= Fairness.Rank(b.queue, caller, j))
  }

  lemma StepAdvances(b: Broker, s: Step, caller: string, j: nat)
    requires b.queue.Valid() && Inhabited(b) && Enabled(b, s) && Waiting(b.queue, caller, j) && s != Withdraw(j) && !s.CloseQueue?
    requires s.Offer? ==> !Waiting(b.queue, b.jobs[s.job].caller, s.job)
    ensures Advances(b, s, Apply(b, s), caller, j)
  {
    match s
    case Offer(job) => RankAfterOffer(b, job, caller, j);
    case Withdraw(job) => RankAfterWithdraw(b, job, caller, j);
    case WorkerGets => RankAfterGet(b, caller, j);
    case _ => QueueIsUntouched(b, s);
  }

  lemma RunAdvances(states: seq<Broker>, steps: seq<Step>, depth: nat, quota: nat, i: nat, caller: string, j: nat)
    requires IsRun(states, steps, depth, quota) && i < |steps| && Waiting(states[i].queue, caller, j)
    requires steps[i] != Withdraw(j) && !steps[i].CloseQueue?
    ensures Advances(states[i], steps[i], states[i + 1], caller, j)
  {
    RunIsSafe(states, steps, depth, quota, i);
    assert CanStep(states[i], steps[i], states[i + 1]);
    if steps[i].Offer? {
      assert Sound(ViewOf(states[i], steps[i].job));
    }
    StepAdvances(states[i], steps[i], caller, j);
  }

  /** In any run a waiting job is taken once more gets happened than its rank, whatever the other steps are. */
  lemma {:induction false} TakenAfterRankGets(states: seq<Broker>, steps: seq<Step>, depth: nat, quota: nat,
                                              i: nat, end: nat, caller: string, j: nat)
    requires IsRun(states, steps, depth, quota) && i <= end <= |steps|
    requires states[i].queue.Valid() && Waiting(states[i].queue, caller, j) && Undisturbed(steps, i, end, j)
    requires Gets(steps, i, end) > Fairness.Rank(states[i].queue, caller, j)
    ensures exists k :: i <= k < end && TakenAt(states, steps, k, j)
    decreases end - i
  {
    RunAdvances(states, steps, depth, quota, i, caller, j);
    if TakenAt(states, steps, i, j) {
    } else {
      TakenAfterRankGets(states, steps, depth, quota, i + 1, end, caller, j);
    }
  }

  /** A job that waits is with the worker after at most depth times quota gets, unless its handler gives it up or the queue closes. */
  lemma TakenWithinDepthTimesQuotaGets(states: seq<Broker>, steps: seq<Step>, depth: nat, quota: nat,
                                       i: nat, end: nat, caller: string, j: nat)
    requires IsRun(states, steps, depth, quota) && i <= end <= |steps|
    requires Waiting(states[i].queue, caller, j) && Undisturbed(steps, i, end, j)
    requires Gets(steps, i, end) >= depth * quota
    ensures exists k :: i <= k < end && TakenAt(states, steps, k, j)
  {
    RunIsSafe(states, steps, depth, quota, i);
    LimitsAreFixed(states, steps, depth, quota, i);
    Fairness.RankBelowDepthTimesQuota(states[i].queue, caller, j);
    TakenAfterRankGets(states, steps, depth, quota, i, end, caller, j);
  }
}
