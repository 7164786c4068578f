/**
 * What each answer of the broker means: which step of the run it comes from, what the
 * counters count, and what is left to do once a stop is requested.
 */
module BrokerAnswers {
  import opened Outcomes
  import opened Sequences
  import opened FairQueue
  import opened BrokerProtocol
  import opened BrokerSafety

  // ---- where an answer comes from ----

  /** Why the queue turns the caller away at this moment. */
  function Refusal(q: Queue<nat>, caller: string): Option<Rejection> {
    if q.closed then Some(BrokerStopping)
    else if q.queued >= q.depth then Some(Saturated)
    else if |q.Lane(caller)| >= q.quota then Some(CallerQuotaExceeded)
    else None
  }

  /** The answer of job `j` that a step settles, told from the state before it. */
  function Verdict(b: Broker, s: Step, j: nat): Option<Response> {
    match s
    case Offer(job) =>
      if job == j && j in b.jobs && Refusal(b.queue, b.jobs[j].caller).Some?
      then Some(Refused(Refusal(b.queue, b.jobs[j].caller).value)) else None
    case MarkCancelled(job) => if job == j then Some(DeadlineExceeded) else None
    case WorkerDecides(late) => if b.worker == Holding(j) && late then Some(DeadlineExceeded) else None
    case DispatchEnds(Some(result)) => if b.worker == Dispatching(j) then Some(Success(result)) else None
    case DispatchEnds(None) => if b.worker == Dispatching(j) then Some(RequestFailed) else None
    case DispatchAborts => if b.worker == Dispatching(j) then Some(RequestFailed) else None
    case DrainReplies =>
      if b.server.Draining? && b.server.pending != [] && b.server.pending[0] == j then Some(Refused(BrokerStopping)) else None
    case _ => None
  }

  function First(earlier: Option<Response>, now: Option<Response>): Option<Response> {
    if earlier.Some? then earlier else now
  }

  /** The job shows what was settled so far: as its answer, as its response, or as an aborted dispatch. */
  ghost predicate Bears(b: Broker, j: nat, verdict: Option<Response>) {
    if j !in b.jobs then verdict == None
    else
      var job := b.jobs[j];
      match verdict
      case None => !HasAnswer(job) && job.response == None && !job.aborted
      case Some(a) =>
        && (HasAnswer(job) ==> job.handler.answer == a)
        && (job.response.Some? ==> job.response == Some(a))
        && (job.aborted ==> a == RequestFailed)
        && (HasAnswer(job) || job.response.Some? || job.aborted)
  }

  /** A step settles a job's answer only once, and the job shows it from then on. */
  ghost predicate Carries(b: Broker, s: Step, b': Broker, j: nat, verdict: Option<Response>) {
    && (verdict.Some? ==> Verdict(b, s, j) == None)
    && Bears(b', j, First(verdict, Verdict(b, s, j)))
  }

  lemma OfferCarries(b: Broker, job: nat, j: nat, verdict: Option<Response>)
    requires b.queue.Valid() && job in b.jobs && b.jobs[job].handler == Submitting && Bears(b, j, verdict)
    requires j in b.jobs ==> Sound(ViewOf(b, j))
    ensures Carries(b, Offer(job), Offered(b, job), j, verdict)
  {
  }

  lemma ConnectionCarries(b: Broker, s: Step, j: nat, verdict: Option<Response>)
    requires b.queue.Valid() && Inhabited(b) && Enabled(b, s) && ByConnection(s) && Bears(b, j, verdict)
    requires j in b.jobs ==> Sound(ViewOf(b, j))
    ensures Carries(b, s, Apply(b, s), j, verdict)
  {
    hide Sound, Submit;
    if s.Offer? {
      OfferCarries(b, s.job, j, verdict);
    }
  }

  lemma AnswerCarries(b: Broker, s: Step, j: nat, verdict: Option<Response>)
    requires b.queue.Valid() && Inhabited(b) && Enabled(b, s) && (s.Collect? || s.MarkCancelled?)
    requires Bears(b, j, verdict) && (j in b.jobs ==> Sound(ViewOf(b, j)))
    ensures Carries(b, s, Apply(b, s), j, verdict)
  {
  }

  lemma UnansweredCarries(b: Broker, s: Step, b': Broker, j: nat, verdict: Option<Response>)
    requires Bears(b, j, verdict) && Verdict(b, s, j) == None && (j in b.jobs <==> j in b'.jobs)
    requires j in b.jobs ==>
      && b'.jobs[j].response == b.jobs[j].response && b'.jobs[j].aborted == b.jobs[j].aborted
      && (HasAnswer(b'.jobs[j]) <==> HasAnswer(b.jobs[j]))
      && (HasAnswer(b.jobs[j]) ==> b'.jobs[j].handler.answer == b.jobs[j].handler.answer)
    ensures Carries(b, s, b', j, verdict)
  {
  }

  lemma WaiterCarries(b: Broker, s: Step, j: nat, verdict: Option<Response>)
    requires b.queue.Valid() && Inhabited(b) && Enabled(b, s) && ByWaiter(s)
    requires Bears(b, j, verdict) && (j in b.jobs ==> Sound(ViewOf(b, j)))
    ensures Carries(b, s, Apply(b, s), j, verdict)
  {
    hide Sound, Bears, Carries, Cancel;
    if s.Collect? || s.MarkCancelled? {
      AnswerCarries(b, s, j, verdict);
    } else {
      UnansweredCarries(b, s, Apply(b, s), j, verdict);
    }
  }

  lemma GetCarries(b: Broker, j: nat, verdict: Option<Response>)
    requires b.queue.Valid() && Inhabited(b) && b.worker == Getting && Bears(b, j, verdict)
    ensures Carries(b, WorkerGets, Taken(b), j, verdict)
  {
  }

  lemma DecisionCarries(b: Broker, late: bool, j: nat, verdict: Option<Response>)
    requires b.worker.Holding? && b.worker.job in b.jobs
    requires Bears(b, j, verdict) && (j in b.jobs ==> Sound(ViewOf(b, j)))
    ensures Carries(b, WorkerDecides(late), Decided(b, late), j, verdict)
  {
  }

  lemma DispatchCarries(b: Broker, s: Step, j: nat, verdict: Option<Response>)
    requires b.queue.Valid() && Inhabited(b) && Enabled(b, s) && (s.DispatchEnds? || s.DispatchAborts?)
    requires Bears(b, j, verdict) && (j in b.jobs ==> Sound(ViewOf(b, j)))
    ensures Carries(b, s, Apply(b, s), j, verdict)
  {
  }

  lemma WorkerCarries(b: Broker, s: Step, j: nat, verdict: Option<Response>)
    requires b.queue.Valid() && Inhabited(b) && Enabled(b, s) && ByWorker(s) && !s.WorkerGets?
    requires Bears(b, j, verdict) && (j in b.jobs ==> Sound(ViewOf(b, j)))
    ensures Carries(b, s, Apply(b, s), j, verdict)
  {
    hide Sound, Bears, Carries;
    if s.WorkerLooks? || s.WorkerCompletes? {
      UnansweredCarries(b, s, Apply(b, s), j, verdict);
    } else if s.WorkerDecides? {
      DecisionCarries(b, s.late, j, verdict);
    } else {
      DispatchCarries(b, s, j, verdict);
    }
  }

  lemma ServerCarries(b: Broker, s: Step, j: nat, verdict: Option<Response>)
    requires QueueInv(b) && Enabled(b, s) && !ByHandler(s) && !ByWorker(s)
    requires Bears(b, j, verdict) && (j in b.jobs ==> Sound(ViewOf(b, j)))
    ensures Carries(b, s, Apply(b, s), j, verdict)
  {
    if s.DrainReplies? {
      assert b.server.pending[0] in PendingJobs(b.server);
    }
  }

  lemma StepCarries(b: Broker, s: Step, j: nat, verdict: Option<Response>)
    requires Inv(b) && Enabled(b, s) && Bears(b, j, verdict)
    ensures Carries(b, s, Apply(b, s), j, verdict)
  {
    hide Sound, Carries;
    if ByConnection(s) {
      ConnectionCarries(b, s, j, verdict);
    } else if ByWaiter(s) {
      WaiterCarries(b, s, j, verdict);
    } else if s.WorkerGets? {
      GetCarries(b, j, verdict);
    } else if ByWorker(s) {
      WorkerCarries(b, s, j, verdict);
    } else {
      ServerCarries(b, s, j, verdict);
    }
  }

  /** What the first `i` steps settled for job `j`. */
  ghost function VerdictBy(states: seq<Broker>, steps: seq<Step>, i: nat, j: nat): Option<Response>
    requires i <= |steps| < |states|
  {
    if i == 0 then None else First(VerdictBy(states, steps, i - 1, j), Verdict(states[i - 1], steps[i - 1], j))
  }

  lemma RunLength(states: seq<Broker>, steps: seq<Step>, depth: nat, quota: nat)
    requires IsRun(states, steps, depth, quota)
    ensures |states| == |steps| + 1
  {
  }

  lemma RunCanStep(states: seq<Broker>, steps: seq<Step>, depth: nat, quota: nat, k: nat)
    requires IsRun(states, steps, depth, quota) && k < |steps|
    ensures Inv(states[k]) && Enabled(states[k], steps[k]) && states[k + 1] == Apply(states[k], steps[k])
  {
    RunIsSafe(states, steps, depth, quota, k);
    assert CanStep(states[k], steps[k], states[k + 1]);
  }

  lemma NextBears(states: seq<Broker>, steps: seq<Step>, depth: nat, quota: nat, i: nat, j: nat, verdict: Option<Response>)
    requires IsRun(states, steps, depth, quota) && i < |steps| && Bears(states[i], j, verdict)
    ensures Bears(states[i + 1], j, First(verdict, Verdict(states[i], steps[i], j)))
    ensures verdict.Some? ==> Verdict(states[i], steps[i], j) == None
  {
    hide Inv, CanStep, Bears, Verdict, IsRun;
    RunLength(states, steps, depth, quota);
    RunCanStep(states, steps, depth, quota, i);
    StepCarries(states[i], steps[i], j, verdict);
  }

  lemma StartBears(states: seq<Broker>, steps: seq<Step>, depth: nat, quota: nat, j: nat)
    requires IsRun(states, steps, depth, quota)
    ensures Bears(states[0], j, None)
  {
  }

  lemma {:induction false} RunBears(states: seq<Broker>, steps: seq<Step>, depth: nat, quota: nat, i: nat, j: nat)
    requires IsRun(states, steps, depth, quota) && i < |states|
    ensures Bears(states[i], j, VerdictBy(states, steps, i, j))
  {
    hide Bears, Verdict, IsRun;
    RunLength(states, steps, depth, quota);
    if i == 0 {
      StartBears(states, steps, depth, quota, j);
    } else {
      RunBears(states, steps, depth, quota, i - 1, j);
      NextBears(states, steps, depth, quota, i - 1, j, VerdictBy(states, steps, i - 1, j));
    }
  }

  lemma OnceSettled(states: seq<Broker>, steps: seq<Step>, depth: nat, quota: nat, k: nat, j: nat)
    requires IsRun(states, steps, depth, quota) && k < |steps| && VerdictBy(states, steps, k, j).Some?
    ensures Verdict(states[k], steps[k], j) == None
  {
    hide Bears, Verdict, IsRun;
    RunLength(states, steps, depth, quota);
    RunBears(states, steps, depth, quota, k, j);
    NextBears(states, steps, depth, quota, k, j, VerdictBy(states, steps, k, j));
  }

  lemma {:induction false} SettledStays(states: seq<Broker>, steps: seq<Step>, k: nat, i: nat, j: nat)
    requires k <= i <= |steps| < |states| && VerdictBy(states, steps, k, j).Some?
    ensures VerdictBy(states, steps, i, j) == VerdictBy(states, steps, k, j)
    decreases i - k
  {
    if k < i {
      SettledStays(states, steps, k, i - 1, j);
    }
  }

  /** The step that settles an answer is the only one, and the job is answered with that and nothing else. */
  lemma CauseFixesTheAnswer(states: seq<Broker>, steps: seq<Step>, depth: nat, quota: nat, k: nat, i: nat, j: nat)
    requires IsRun(states, steps, depth, quota) && k < i < |states| && Verdict(states[k], steps[k], j).Some?
    ensures j in states[i].jobs
    ensures HasAnswer(states[i].jobs[j]) ==> Verdict(states[k], steps[k], j) == Some(states[i].jobs[j].handler.answer)
    ensures i < |steps| ==> Verdict(states[i], steps[i], j) == None
  {
    hide Verdict, IsRun;
    RunLength(states, steps, depth, quota);
    if VerdictBy(states, steps, k, j).Some? {
      OnceSettled(states, steps, depth, quota, k, j);
    }
    SettledStays(states, steps, k + 1, i, j);
    RunBears(states, steps, depth, quota, i, j);
    if i < |steps| {
      OnceSettled(states, steps, depth, quota, i, j);
    }
  }

  lemma {:induction false} SettledBySome(states: seq<Broker>, steps: seq<Step>, i: nat, j: nat)
    requires i <= |steps| < |states| && VerdictBy(states, steps, i, j).Some?
    ensures exists k :: 0 <= k < i && Verdict(states[k], steps[k], j) == VerdictBy(states, steps, i, j)
  {
    if VerdictBy(states, steps, i - 1, j).Some? {
      SettledBySome(states, steps, i - 1, j);
    }
  }

  /** No answer comes from nowhere: one step of the run settled it. */
  lemma EveryAnswerHasACause(states: seq<Broker>, steps: seq<Step>, depth: nat, quota: nat, i: nat, j: nat)
    requires IsRun(states, steps, depth, quota) && i < |states|
    requires j in states[i].jobs && HasAnswer(states[i].jobs[j])
    ensures exists k :: 0 <= k < i && Verdict(states[k], steps[k], j) == Some(states[i].jobs[j].handler.answer)
  {
    RunBears(states, steps, depth, quota, i, j);
    SettledBySome(states, steps, i, j);
  }

  /** A dispatch's outcome is the answer of its own job: the result, or a failure for an exception. */
  lemma OutcomeIsTheAnswer(states: seq<Broker>, steps: seq<Step>, depth: nat, quota: nat, k: nat, i: nat, j: nat, outcome: Option<string>)
    requires IsRun(states, steps, depth, quota) && k < i < |states|
    requires steps[k] == DispatchEnds(outcome) && states[k].worker == Dispatching(j)
    requires j in states[i].jobs && HasAnswer(states[i].jobs[j])
    ensures outcome.Some? ==> states[i].jobs[j].handler.answer == Success(outcome.value)
    ensures outcome.None? ==> states[i].jobs[j].handler.answer == RequestFailed
  {
    CauseFixesTheAnswer(states, steps, depth, quota, k, i, j);
  }

  /** A job that the worker took too late is answered with the deadline. */
  lemma LateIsTheDeadline(states: seq<Broker>, steps: seq<Step>, depth: nat, quota: nat, k: nat, i: nat, j: nat)
    requires IsRun(states, steps, depth, quota) && k < i < |states|
    requires steps[k] == WorkerDecides(true) && states[k].worker == Holding(j)
    requires j in states[i].jobs && HasAnswer(states[i].jobs[j])
    ensures states[i].jobs[j].handler.answer == DeadlineExceeded
  {
    CauseFixesTheAnswer(states, steps, depth, quota, k, i, j);
  }

  /** A job that the shutdown drains is answered that the broker stops. */
  lemma DrainedIsStopping(states: seq<Broker>, steps: seq<Step>, depth: nat, quota: nat, k: nat, i: nat, j: nat)
    requires IsRun(states, steps, depth, quota) && k < i < |states|
    requires steps[k] == DrainReplies && states[k].server.Draining? && states[k].server.pending != [] && states[k].server.pending[0] == j
    requires j in states[i].jobs && HasAnswer(states[i].jobs[j])
    ensures states[i].jobs[j].handler.answer == Refused(BrokerStopping)
  {
    CauseFixesTheAnswer(states, steps, depth, quota, k, i, j);
  }

  // ---- what the counters count ----

  predicate CountsCompleted(b: Broker, s: Step) {
    s.DispatchEnds? && s.outcome.Some?
  }

  predicate CountsAccepted(b: Broker, s: Step) {
    s.WorkerGets? && b.queue.callers != []
  }

  predicate CountsLate(b: Broker, s: Step) {
    s.MarkCancelled? || s == WorkerDecides(true)
  }

  predicate CountsRejected(b: Broker, s: Step) {
    s.TurnAway? || (s.Offer? && s.job in b.jobs && Refusal(b.queue, b.jobs[s.job].caller).Some?)
  }

  ghost predicate Counts(b: Broker, s: Step, b': Broker) {
    && b'.metrics.completed == b.metrics.completed + Tally(CountsCompleted(b, s))
    && b'.metrics.accepted == b.metrics.accepted + Tally(CountsAccepted(b, s))
    && b'.metrics.deadlineRejected == b.metrics.deadlineRejected + Tally(CountsLate(b, s))
    && b'.metrics.rejected == b.metrics.rejected + Tally(CountsRejected(b, s))
  }

  lemma OfferCounts(b: Broker, job: nat)
    requires job in b.jobs
    ensures Counts(b, Offer(job), Offered(b, job))
  {
  }

  lemma HandlerCounts(b: Broker, s: Step)
    requires b.queue.Valid() && Inhabited(b) && Enabled(b, s) && ByHandler(s)
    ensures Counts(b, s, Apply(b, s))
  {
    hide Submit, Cancel, Waiting, AfterGet, Completed;
    if s.Offer? {
      OfferCounts(b, s.job);
    }
  }

  lemma WorkerCounts(b: Broker, s: Step)
    requires b.queue.Valid() && Inhabited(b) && Enabled(b, s) && ByWorker(s)
    requires b.worker.Holding? ==> !b.jobs[b.worker.job].cancelled
    ensures Counts(b, s, Apply(b, s))
  {
    hide Submit, AfterGet, Total;
  }

  lemma ServerCounts(b: Broker, s: Step)
    requires b.queue.Valid() && Inhabited(b) && Enabled(b, s) && !ByHandler(s) && !ByWorker(s)
    ensures Counts(b, s, Apply(b, s))
  {
  }

  lemma HeldIsNotCancelled(b: Broker)
    requires Inv(b) && b.worker.Holding?
    ensures b.worker.job in b.jobs && !b.jobs[b.worker.job].cancelled
  {
    assert Sound(ViewOf(b, b.worker.job));
  }

  lemma StepCounts(b: Broker, s: Step)
    requires Inv(b) && Enabled(b, s)
    ensures Counts(b, s, Apply(b, s))
  {
    hide Sound, Counts, HistoryInv;
    if ByHandler(s) {
      HandlerCounts(b, s);
    } else if ByWorker(s) {
      if b.worker.Holding? {
        HeldIsNotCancelled(b);
      }
      WorkerCounts(b, s);
    } else {
      ServerCounts(b, s);
    }
  }

  /** A counter that some steps raise by one says how many of them there were. */
  lemma {:induction false} CountedAlong(values: seq<nat>, counted: seq<bool>, i: nat)
    requires |values| == |counted| + 1 && i < |values| && values[0] == 0
    requires forall k :: 0 <= k < |counted| ==> values[k + 1] == values[k] + Tally(counted[k])
    ensures values[i] == |set k | 0 <= k < i && counted[k]|
  {
    var all := set k | 0 <= k < i && counted[k];
    assert forall k :: k in all ==> 0 <= k < i;
    if i == 0 {
      assert all == {};
    } else {
      CountedAlong(values, counted, i - 1);
      OneMoreCounted(counted, i - 1);
      assert values[i - 1 + 1] == values[i - 1] + Tally(counted[i - 1]);
    }
  }

  lemma RunStepCounts(states: seq<Broker>, steps: seq<Step>, depth: nat, quota: nat, k: nat)
    requires IsRun(states, steps, depth, quota) && k < |steps|
    ensures Counts(states[k], steps[k], states[k + 1])
  {
    hide Inv, Counts;
    RunCanStep(states, steps, depth, quota, k);
    StepCounts(states[k], steps[k]);
  }

  lemma CompletedIsExact(states: seq<Broker>, steps: seq<Step>, depth: nat, quota: nat, i: nat)
    requires IsRun(states, steps, depth, quota) && i < |states|
    ensures states[i].metrics.completed == |set k | 0 <= k < i && CountsCompleted(states[k], steps[k])|
  {
    hide Inv, CountsCompleted;
    var values: seq<nat> := seq(|states|, k requires 0 <= k < |states| => states[k].metrics.completed);
    var counted := seq(|steps|, k requires 0 <= k < |steps| => CountsCompleted(states[k], steps[k]));
    forall k | 0 <= k < |counted| ensures values[k + 1] == values[k] + Tally(counted[k]) {
      RunStepCounts(states, steps, depth, quota, k);
    }
    CountedAlong(values, counted, i);
    assert (set k | 0 <= k < i && counted[k]) == set k | 0 <= k < i && CountsCompleted(states[k], steps[k]);
  }

  lemma AcceptedIsExact(states: seq<Broker>, steps: seq<Step>, depth: nat, quota: nat, i: nat)
    requires IsRun(states, steps, depth, quota) && i < |states|
    ensures states[i].metrics.accepted == |set k | 0 <= k < i && CountsAccepted(states[k], steps[k])|
  {
    hide Inv, CountsAccepted;
    var values: seq<nat> := seq(|states|, k requires 0 <= k < |states| => states[k].metrics.accepted);
    var counted := seq(|steps|, k requires 0 <= k < |steps| => CountsAccepted(states[k], steps[k]));
    forall k | 0 <= k < |counted| ensures values[k + 1] == values[k] + Tally(counted[k]) {
      RunStepCounts(states, steps, depth, quota, k);
    }
    CountedAlong(values, counted, i);
    assert (set k | 0 <= k < i && counted[k]) == set k | 0 <= k < i && CountsAccepted(states[k], steps[k]);
  }

  lemma DeadlineRejectedIsExact(states: seq<Broker>, steps: seq<Step>, depth: nat, quota: nat, i: nat)
    requires IsRun(states, steps, depth, quota) && i < |states|
    ensures states[i].metrics.deadlineRejected == |set k | 0 <= k < i && CountsLate(states[k], steps[k])|
  {
    hide Inv, CountsLate;
    var values: seq<nat> := seq(|states|, k requires 0 <= k < |states| => states[k].metrics.deadlineRejected);
    var counted := seq(|steps|, k requires 0 <= k < |steps| => CountsLate(states[k], steps[k]));
    forall k | 0 <= k < |counted| ensures values[k + 1] == values[k] + Tally(counted[k]) {
      RunStepCounts(states, steps, depth, quota, k);
    }
    CountedAlong(values, counted, i);
    assert (set k | 0 <= k < i && counted[k]) == set k | 0 <= k < i && CountsLate(states[k], steps[k]);
  }

  lemma RejectedIsExact(states: seq<Broker>, steps: seq<Step>, depth: nat, quota: nat, i: nat)
    requires IsRun(states, steps, depth, quota) && i < |states|
    ensures states[i].metrics.rejected == |set k | 0 <= k < i && CountsRejected(states[k], steps[k])|
  {
    hide Inv, CountsRejected;
    var values: seq<nat> := seq(|states|, k requires 0 <= k < |states| => states[k].metrics.rejected);
    var counted := seq(|steps|, k requires 0 <= k < |steps| => CountsRejected(states[k], steps[k]));
    forall k | 0 <= k < |counted| ensures values[k + 1] == values[k] + Tally(counted[k]) {
      RunStepCounts(states, steps, depth, quota, k);
    }
    CountedAlong(values, counted, i);
    assert (set k | 0 <= k < i && counted[k]) == set k | 0 <= k < i && CountsRejected(states[k], steps[k]);
  }

  /** Each counter is the number of the steps that it is for, in any run. */
  lemma CountersAreExact(states: seq<Broker>, steps: seq<Step>, depth: nat, quota: nat, i: nat)
    requires IsRun(states, steps, depth, quota) && i < |states|
    ensures states[i].metrics.completed == |set k | 0 <= k < i && CountsCompleted(states[k], steps[k])|
    ensures states[i].metrics.accepted == |set k | 0 <= k < i && CountsAccepted(states[k], steps[k])|
    ensures states[i].metrics.deadlineRejected == |set k | 0 <= k < i && CountsLate(states[k], steps[k])|
    ensures states[i].metrics.rejected == |set k | 0 <= k < i && CountsRejected(states[k], steps[k])|
  {
    hide IsRun, CountsCompleted, CountsAccepted, CountsLate, CountsRejected;
    RunLength(states, steps, depth, quota);
    CompletedIsExact(states, steps, depth, quota, i);
    AcceptedIsExact(states, steps, depth, quota, i);
    DeadlineRejectedIsExact(states, steps, depth, quota, i);
    RejectedIsExact(states, steps, depth, quota, i);
  }

  // ---- what stays the same ----

  /** A job belongs to the caller it arrived with, for good. */
  lemma {:induction false} JobKeepsItsCaller(states: seq<Broker>, steps: seq<Step>, depth: nat, quota: nat, k: nat, i: nat, j: nat, caller: string)
    requires IsRun(states, steps, depth, quota) && k < i < |states| && steps[k] == Arrive(j, caller)
    ensures j in states[i].jobs && states[i].jobs[j].caller == caller
    decreases i
  {
    hide Inv, IsRun;
    RunLength(states, steps, depth, quota);
    if k < i - 1 {
      JobKeepsItsCaller(states, steps, depth, quota, k, i - 1, j, caller);
      RunSettles(states, steps, depth, quota, i - 1, j);
    } else {
      RunCanStep(states, steps, depth, quota, k);
    }
  }

  // ---- connection slots ----

  predicate TakesSlot(s: Step) {
    s.Connect?
  }

  predicate FreesSlot(s: Step) {
    s.RejectRequest? || s.Leave?
  }

  function SlotsHeld(b: Broker): nat {
    |b.live| + b.unread
  }

  lemma OthersKeepSlots(b: Broker, s: Step)
    requires b.queue.Valid() && Inhabited(b) && Enabled(b, s) && !s.Connect? && !s.RejectRequest? && !s.Arrive? && !s.Leave?
    ensures Apply(b, s).live == b.live && Apply(b, s).unread == b.unread
  {
    hide Submit, Cancel, AfterGet, Waiting;
  }

  lemma ArrivalKeepsSlots(b: Broker, job: nat, caller: string)
    requires b.unread > 0 && job !in b.live
    ensures SlotsHeld(Arrived(b, job, caller)) == SlotsHeld(b)
  {
  }

  lemma LeavingFreesSlot(b: Broker, job: nat)
    requires job in b.jobs && b.jobs[job].handler.Answered? && job in b.live
    ensures SlotsHeld(HasLeft(b, job)) + 1 == SlotsHeld(b)
  {
  }

  lemma StepMovesSlots(b: Broker, s: Step)
    requires Inv(b) && Enabled(b, s)
    ensures SlotsHeld(Apply(b, s)) + Tally(FreesSlot(s)) == SlotsHeld(b) + Tally(TakesSlot(s))
  {
    hide Sound, Submit, Cancel, AfterGet, Waiting;
    if s.Leave? {
      HasSlot(b, s.job);
      LeavingFreesSlot(b, s.job);
    } else if s.Arrive? {
      ArrivalKeepsSlots(b, s.job, s.caller);
    } else if !s.Connect? && !s.RejectRequest? {
      OthersKeepSlots(b, s);
    }
  }

  lemma HasSlot(b: Broker, j: nat)
    requires Inv(b) && j in b.jobs && b.jobs[j].handler.Answered?
    ensures j in b.live
  {
    assert Sound(ViewOf(b, j));
  }

  /** What goes up by some steps and down by others is the difference of the two. */
  lemma {:induction false} BalanceAlong(values: seq<nat>, ups: seq<bool>, downs: seq<bool>, i: nat)
    requires |values| == |ups| + 1 == |downs| + 1 && i < |values| && values[0] == 0
    requires forall k :: 0 <= k < |ups| ==> values[k + 1] + Tally(downs[k]) == values[k] + Tally(ups[k])
    ensures values[i] + |set k | 0 <= k < i && downs[k]| == |set k | 0 <= k < i && ups[k]|
  {
    var out, into := set k | 0 <= k < i && downs[k], set k | 0 <= k < i && ups[k];
    assert forall k :: k in out || k in into ==> 0 <= k < i;
    if i == 0 {
      assert out == {} && into == {};
    } else {
      BalanceAlong(values, ups, downs, i - 1);
      OneMoreCounted(ups, i - 1);
      OneMoreCounted(downs, i - 1);
      assert values[i - 1 + 1] + Tally(downs[i - 1]) == values[i - 1] + Tally(ups[i - 1]);
    }
  }

  /** In any run the slots that are held are those taken and not yet given back, each by one connection. */
  lemma SlotsAreExact(states: seq<Broker>, steps: seq<Step>, depth: nat, quota: nat, i: nat)
    requires IsRun(states, steps, depth, quota) && i < |states|
    ensures SlotsHeld(states[i]) + |set k | 0 <= k < i && FreesSlot(steps[k])| == |set k | 0 <= k < i && TakesSlot(steps[k])|
  {
    hide Inv, FreesSlot, TakesSlot;
    var held: seq<nat> := seq(|states|, k requires 0 <= k < |states| => SlotsHeld(states[k]));
    var taken := seq(|steps|, k requires 0 <= k < |steps| => TakesSlot(steps[k]));
    var freed := seq(|steps|, k requires 0 <= k < |steps| => FreesSlot(steps[k]));
    forall k | 0 <= k < |steps| ensures held[k + 1] + Tally(freed[k]) == held[k] + Tally(taken[k]) {
      RunCanStep(states, steps, depth, quota, k);
      StepMovesSlots(states[k], steps[k]);
    }
    BalanceAlong(held, taken, freed, i);
    assert (set k | 0 <= k < i && freed[k]) == set k | 0 <= k < i && FreesSlot(steps[k]);
    assert (set k | 0 <= k < i && taken[k]) == set k | 0 <= k < i && TakesSlot(steps[k]);
  }

  /** While the broker serves, a connection is let in when a slot is free and turned away when every slot is held. */
  lemma ConnectionsTakeFreeSlots(states: seq<Broker>, steps: seq<Step>, depth: nat, quota: nat, i: nat)
    requires IsRun(states, steps, depth, quota) && i < |states|
    ensures SlotsHeld(states[i]) <= depth + 2
    ensures Enabled(states[i], Connect) <==> states[i].server == Serving && SlotsHeld(states[i]) < depth + 2
    ensures Enabled(states[i], TurnAway) <==> states[i].server == Serving && SlotsHeld(states[i]) == depth + 2
  {
    RunIsSafe(states, steps, depth, quota, i);
    LimitsAreFixed(states, steps, depth, quota, i);
  }

  // ---- the handler's wait ----

  /** The job waits in the queue, is with the worker, or is on the shutdown's list. */
  predicate InWork(v: View) {
    v.queued || v.held || v.dispatching || v.replied || v.pending
  }

  /** A waiting handler can collect exactly when its job is no longer in work, and its first wait can run out only before that. */
  lemma WaitsWhileInWork(states: seq<Broker>, steps: seq<Step>, depth: nat, quota: nat, i: nat, j: nat)
    requires IsRun(states, steps, depth, quota) && i < |states| && j in states[i].jobs
    requires states[i].jobs[j].handler in {Awaiting, MustWait}
    ensures Enabled(states[i], Collect(j)) <==> !InWork(ViewOf(states[i], j))
    ensures Enabled(states[i], TimeOut(j)) <==> InWork(ViewOf(states[i], j)) && states[i].jobs[j].handler == Awaiting
  {
    hide IsRun, QueueInv, HistoryInv, Waiting, AnswerFrom;
    RunIsSafe(states, steps, depth, quota, i);
    assert Sound(ViewOf(states[i], j));
  }

  predicate ByHandlerOf(s: Step, j: nat) {
    s in {Offer(j), Collect(j), TimeOut(j), Withdraw(j), MarkCancelled(j), Leave(j)}
  }

  /** How many steps a handler still has at most. */
  function HandlerStepsLeft(h: Handler): nat {
    match h
    case Submitting => 5
    case Awaiting => 4
    case TimedOut => 3
    case Withdrawing => 2
    case MustWait => 2
    case Answered(_) => 1
    case Left(_) => 0
  }

  lemma ConnectionAdvances(b: Broker, s: Step, j: nat)
    requires b.queue.Valid() && Inhabited(b) && Enabled(b, s) && j in b.jobs && ByConnection(s)
    ensures j in Apply(b, s).jobs
    ensures HandlerStepsLeft(Apply(b, s).jobs[j].handler) + Tally(ByHandlerOf(s, j)) <= HandlerStepsLeft(b.jobs[j].handler)
  {
    hide Cancel, Waiting, Submit, Queue.Valid, Inhabited, AnswerFrom;
  }

  lemma WaiterAdvances(b: Broker, s: Step, j: nat)
    requires b.queue.Valid() && Inhabited(b) && Enabled(b, s) && j in b.jobs && ByWaiter(s)
    ensures j in Apply(b, s).jobs
    ensures HandlerStepsLeft(Apply(b, s).jobs[j].handler) + Tally(ByHandlerOf(s, j)) <= HandlerStepsLeft(b.jobs[j].handler)
  {
    hide Cancel, Waiting, Submit, Queue.Valid, Inhabited, AnswerFrom;
  }

  lemma OthersKeepHandlers(b: Broker, s: Step, j: nat)
    requires b.queue.Valid() && Inhabited(b) && Enabled(b, s) && j in b.jobs && !ByHandler(s)
    ensures j in Apply(b, s).jobs && Apply(b, s).jobs[j].handler == b.jobs[j].handler
  {
    hide Waiting, AfterGet, Head, Pending;
  }

  /** Every step of a handler brings it closer to its end, and nobody else moves it. */
  lemma HandlerWindsDown(b: Broker, s: Step, j: nat)
    requires b.queue.Valid() && Inhabited(b) && Enabled(b, s) && j in b.jobs
    ensures j in Apply(b, s).jobs
    ensures HandlerStepsLeft(Apply(b, s).jobs[j].handler) + Tally(ByHandlerOf(s, j)) <= HandlerStepsLeft(b.jobs[j].handler)
  {
    hide Apply, Enabled, Inhabited;
    if ByConnection(s) {
      ConnectionAdvances(b, s, j);
    } else if ByWaiter(s) {
      WaiterAdvances(b, s, j);
    } else {
      OthersKeepHandlers(b, s, j);
    }
  }

  function HandlerStepsIn(steps: seq<Step>, i: nat, k: nat, j: nat): nat
    requires i <= k <= |steps|
  {
    if i == k then 0 else HandlerStepsIn(steps, i, k - 1, j) + Tally(ByHandlerOf(steps[k - 1], j))
  }

  /** In any run a handler takes at most five steps. */
  lemma {:induction false} HandlerTakesFewSteps(states: seq<Broker>, steps: seq<Step>, depth: nat, quota: nat, i: nat, k: nat, j: nat)
    requires IsRun(states, steps, depth, quota) && i <= k < |states| && j in states[i].jobs
    ensures j in states[k].jobs
    ensures HandlerStepsIn(steps, i, k, j) + HandlerStepsLeft(states[k].jobs[j].handler) <= HandlerStepsLeft(states[i].jobs[j].handler) <= 5
    decreases k
  {
    hide Inv, IsRun, Enabled, ByHandlerOf;
    RunLength(states, steps, depth, quota);
    if i < k {
      HandlerTakesFewSteps(states, steps, depth, quota, i, k - 1, j);
      RunCanStep(states, steps, depth, quota, k - 1);
      HandlerWindsDownInRun(states[k - 1], steps[k - 1], j);
    }
  }

  lemma HandlerWindsDownInRun(b: Broker, s: Step, j: nat)
    requires Inv(b) && Enabled(b, s) && j in b.jobs
    ensures j in Apply(b, s).jobs
    ensures HandlerStepsLeft(Apply(b, s).jobs[j].handler) + Tally(ByHandlerOf(s, j)) <= HandlerStepsLeft(b.jobs[j].handler)
  {
    HandlerWindsDown(b, s, j);
  }

  /** It is stuck only while it must wait for a job in work. */
  lemma HandlerCanGoOn(states: seq<Broker>, steps: seq<Step>, depth: nat, quota: nat, i: nat, j: nat)
    requires IsRun(states, steps, depth, quota) && i < |states| && j in states[i].jobs
    ensures (exists s :: ByHandlerOf(s, j) && Enabled(states[i], s))
      <==> !states[i].jobs[j].handler.Left? && !(states[i].jobs[j].handler == MustWait && InWork(ViewOf(states[i], j)))
  {
    var b, h := states[i], states[i].jobs[j].handler;
    hide IsRun, InWork, ViewOf;
    if h in {Awaiting, MustWait} {
      WaitsWhileInWork(states, steps, depth, quota, i, j);
    }
    var s := match h
      case Submitting => Offer(j)
      case Awaiting => if b.jobs[j].completed then Collect(j) else TimeOut(j)
      case TimedOut => Withdraw(j)
      case Withdrawing => MarkCancelled(j)
      case MustWait => Collect(j)
      case _ => Leave(j);
    assert ByHandlerOf(s, j);
  }

  // ---- after a stop was requested ----

  /** The shutdown path stops the worker, and only a stop or an aborted dispatch ends it. */
  lemma StepStops(b: Broker, s: Step)
    requires b.queue.Valid() && Inhabited(b) && Enabled(b, s)
    ensures s.StopRequested? || s.ShutdownBegins? || b.stop ==> Apply(b, s).stop
    ensures Apply(b, s).server != Serving ==> s.ShutdownBegins? || b.server != Serving
    ensures Apply(b, s).worker == Exited ==> b.worker == Exited || b.stop || s == DispatchAborts
  {
  }

  /** In every reachable state a server that no longer serves has requested the stop, and a worker that ended was stopped or aborted. */
  lemma {:induction false} EndsAreRequested(states: seq<Broker>, steps: seq<Step>, depth: nat, quota: nat, i: nat)
    requires IsRun(states, steps, depth, quota) && i < |states|
    ensures states[i].server != Serving ==> states[i].stop
    ensures states[i].worker == Exited ==> states[i].stop || exists k :: 0 <= k < i && steps[k] == DispatchAborts
  {
    hide Inv, IsRun;
    RunLength(states, steps, depth, quota);
    if i == 0 {
      RunStart(states, steps, depth, quota);
    } else {
      EndsAreRequested(states, steps, depth, quota, i - 1);
      RunCanStep(states, steps, depth, quota, i - 1);
      StepStopsInRun(states[i - 1], steps[i - 1]);
    }
  }

  lemma RunStart(states: seq<Broker>, steps: seq<Step>, depth: nat, quota: nat)
    requires IsRun(states, steps, depth, quota)
    ensures states[0] == Start(depth, quota)
  {
  }

  lemma StepStopsInRun(b: Broker, s: Step)
    requires Inv(b) && Enabled(b, s)
    ensures s.StopRequested? || s.ShutdownBegins? || b.stop ==> Apply(b, s).stop
    ensures Apply(b, s).server != Serving ==> s.ShutdownBegins? || b.server != Serving
    ensures Apply(b, s).worker == Exited ==> b.worker == Exited || b.stop || s == DispatchAborts
  {
    StepStops(b, s);
  }

  /** How many steps the worker can still take once it has to stop. */
  function WorkerStepsLeft(w: Worker): nat {
    match w
    case Exited => 0
    case LoopHead => 1
    case Replied(_) => 2
    case Dispatching(_) => 3
    case Holding(_) => 4
    case Getting => 5
  }

  /** How many jobs it can still dispatch. */
  function DispatchesLeft(w: Worker): nat {
    if w.Getting? || w.Holding? then 1 else 0
  }

  /** Once a stop is requested every step of the worker brings it closer to its end, and nobody else moves it. */
  lemma WorkerWindsDown(b: Broker, s: Step)
    requires b.queue.Valid() && Inhabited(b) && Enabled(b, s) && b.stop
    ensures Apply(b, s).stop
    ensures WorkerStepsLeft(Apply(b, s).worker) + Tally(ByWorker(s)) <= WorkerStepsLeft(b.worker)
    ensures |Apply(b, s).dispatched| + DispatchesLeft(Apply(b, s).worker) <= |b.dispatched| + DispatchesLeft(b.worker)
  {
    hide Cancel, Waiting;
  }

  function WorkerStepsIn(steps: seq<Step>, i: nat, k: nat): nat
    requires i <= k <= |steps|
  {
    if i == k then 0 else WorkerStepsIn(steps, i, k - 1) + Tally(ByWorker(steps[k - 1]))
  }

  /** After a stop the worker takes at most five more steps and dispatches at most one more job, in any run. */
  lemma {:induction false} StopEndsTheWorker(states: seq<Broker>, steps: seq<Step>, depth: nat, quota: nat, i: nat, k: nat)
    requires IsRun(states, steps, depth, quota) && i <= k < |states| && states[i].stop
    ensures states[k].stop
    ensures WorkerStepsIn(steps, i, k) + WorkerStepsLeft(states[k].worker) <= WorkerStepsLeft(states[i].worker) <= 5
    ensures |states[k].dispatched| + DispatchesLeft(states[k].worker) <= |states[i].dispatched| + DispatchesLeft(states[i].worker)
    decreases k
  {
    hide Inv, IsRun, Enabled;
    RunLength(states, steps, depth, quota);
    if i < k {
      StopEndsTheWorker(states, steps, depth, quota, i, k - 1);
      RunCanStep(states, steps, depth, quota, k - 1);
      WorkerWindsDownInRun(states[k - 1], steps[k - 1]);
    }
  }

  lemma WorkerWindsDownInRun(b: Broker, s: Step)
    requires Inv(b) && Enabled(b, s) && b.stop
    ensures Apply(b, s).stop
    ensures WorkerStepsLeft(Apply(b, s).worker) + Tally(ByWorker(s)) <= WorkerStepsLeft(b.worker)
    ensures |Apply(b, s).dispatched| + DispatchesLeft(Apply(b, s).worker) <= |b.dispatched| + DispatchesLeft(b.worker)
  {
    WorkerWindsDown(b, s);
  }

  /** The worker is never stuck: while it runs, one of its own steps can be taken. */
  lemma WorkerCanGoOn(b: Broker)
    requires b.worker != Exited
    ensures exists s :: ByWorker(s) && Enabled(b, s)
  {
    var s := match b.worker
      case LoopHead => WorkerLooks
      case Getting => WorkerGets
      case Holding(_) => WorkerDecides(false)
      case Dispatching(_) => DispatchAborts
      case _ => WorkerCompletes;
    assert ByWorker(s) && Enabled(b, s);
  }

  /** How many steps the shutdown path still has. */
  function ServerStepsLeft(s: Server): nat
  {
    match s
    case Draining(pending) => 2 * |pending| + 1
    case DrainReplied(pending) => 2 * |pending|
    case _ => 0
  }

  predicate ByDrain(s: Step) {
    s.DrainReplies? || s.DrainCompletes? || s.DrainEnds?
  }

  /** Once the shutdown has begun and until it is over, one of its steps can be taken. */
  lemma ShutdownCanGoOn(b: Broker)
    requires QueueInv(b) && b.server != Serving && b.server != Drained
    ensures exists s: Step :: (s.CloseQueue? || ByDrain(s)) && Enabled(b, s)
  {
    var s := match b.server
      case Closing => CloseQueue(b.queue.callers)
      case Draining(pending) => if pending == [] then DrainEnds else DrainReplies
      case _ => DrainCompletes;
    assert (s.CloseQueue? || ByDrain(s)) && Enabled(b, s);
  }

  /** And each of its steps brings it closer to its end. */
  lemma DrainWindsDown(b: Broker, s: Step)
    requires b.queue.Valid() && Inhabited(b) && Enabled(b, s) && ByDrain(s)
    ensures ServerStepsLeft(Apply(b, s).server) < ServerStepsLeft(b.server)
    ensures var after := Apply(b, s).server; after.Draining? || after.DrainReplied? || after.Drained?
  {
    if s.DrainReplies? || s.DrainCompletes? {
      assert b.server.pending[0] in PendingJobs(b.server);
    }
  }

  predicate EndsPhase(s: Step) {
    s.ShutdownBegins? || s.CloseQueue? || s.DrainEnds?
  }

  function Phase(s: Server): nat {
    match s
    case Serving => 0
    case Closing => 1
    case Drained => 3
    case _ => 2
  }

  lemma OthersKeepServer(b: Broker, s: Step)
    requires b.queue.Valid() && Inhabited(b) && Enabled(b, s) && (ByHandler(s) || ByWorker(s) || s.StopRequested?)
    ensures Apply(b, s).server == b.server
  {
    hide Submit, Cancel, AfterGet, Waiting;
  }

  lemma ServerEndsPhase(b: Broker, s: Step)
    requires b.queue.Valid() && Inhabited(b) && Enabled(b, s) && (EndsPhase(s) || ByDrain(s))
    ensures Phase(Apply(b, s).server) == Phase(b.server) + Tally(EndsPhase(s))
  {
    hide Waiting, Pending;
    if s.DrainReplies? || s.DrainCompletes? {
      assert b.server.pending[0] in PendingJobs(b.server);
    }
  }

  lemma StepEndsPhase(b: Broker, s: Step)
    requires Inv(b) && Enabled(b, s)
    ensures Phase(Apply(b, s).server) == Phase(b.server) + Tally(EndsPhase(s))
  {
    hide Apply, Enabled, Phase, Inhabited, Sound;
    if EndsPhase(s) || ByDrain(s) {
      ServerEndsPhase(b, s);
    } else {
      OthersKeepServer(b, s);
    }
  }

  /** In any run the shutdown begins, closes the queue and ends its drain once each and in this order. */
  lemma ShutdownIsOnce(states: seq<Broker>, steps: seq<Step>, depth: nat, quota: nat, i: nat)
    requires IsRun(states, steps, depth, quota) && i < |states|
    ensures Phase(states[i].server) == |set k | 0 <= k < i && EndsPhase(steps[k])|
  {
    hide Inv, EndsPhase;
    var phases: seq<nat> := seq(|states|, k requires 0 <= k < |states| => Phase(states[k].server));
    var ended := seq(|steps|, k requires 0 <= k < |steps| => EndsPhase(steps[k]));
    forall k | 0 <= k < |ended| ensures phases[k + 1] == phases[k] + Tally(ended[k]) {
      RunCanStep(states, steps, depth, quota, k);
      StepEndsPhase(states[k], steps[k]);
    }
    CountedAlong(phases, ended, i);
    assert (set k | 0 <= k < i && ended[k]) == set k | 0 <= k < i && EndsPhase(steps[k]);
  }
}
