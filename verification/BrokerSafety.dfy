/** What every run of the request protocol keeps. */
module BrokerSafety {
  import opened Outcomes
  import opened Sequences
  import opened FairQueue
  import opened BrokerProtocol

  lemma StartIsSafe(depth: nat, quota: nat)
    ensures Inv(Start(depth, quota))
  {
  }

  // ---- one job, seen through each step ----

  lemma ViewAfterOffer(b: Broker, job: nat, j: nat)
    requires b.queue.Valid() && job in b.jobs && b.jobs[job].handler == Submitting
    requires j in b.jobs && Sound(ViewOf(b, j)) && Sound(ViewOf(b, job))
    ensures Sound(ViewOf(Offered(b, job), j))
  {
    hide QueueInv, Submit;
    WaitingAfterSubmit(b.queue, b.jobs[job].caller, job, b.jobs[j].caller, j);
  }

  lemma ViewAfterWithdraw(b: Broker, job: nat, j: nat)
    requires b.queue.Valid() && job in b.jobs && b.jobs[job].handler == TimedOut
    requires j in b.jobs && Sound(ViewOf(b, j))
    ensures Sound(ViewOf(Withdrawn(b, job), j))
  {
    hide QueueInv, Cancel, Waiting;
    WaitingAfterCancel(b.queue, b.jobs[job].caller, job, b.jobs[j].caller, j);
  }

  lemma ViewAfterConnectionStep(b: Broker, s: Step, j: nat)
    requires QueueInv(b) && Enabled(b, s) && (s.Connect? || s.TurnAway? || s.RejectRequest?)
    requires j in b.jobs && Sound(ViewOf(b, j))
    ensures Sound(ViewOf(Apply(b, s), j))
  {
    assert ViewOf(Apply(b, s), j) == ViewOf(b, j);
  }

  lemma ViewAfterAnswer(b: Broker, s: Step, j: nat)
    requires QueueInv(b) && Enabled(b, s) && (s.Collect? || s.MarkCancelled?)
    requires j in b.jobs && Sound(ViewOf(b, j))
    ensures Sound(ViewOf(Apply(b, s), j))
  {
  }

  lemma ViewAfterWaiterStep(b: Broker, s: Step, j: nat)
    requires QueueInv(b) && Enabled(b, s) && (s.TimeOut? || s.Leave?)
    requires j in b.jobs && Sound(ViewOf(b, j))
    ensures Sound(ViewOf(Apply(b, s), j))
  {
  }

  lemma ViewAfterArrive(b: Broker, job: nat, caller: string, j: nat)
    requires Inhabited(b) && b.unread > 0 && job !in b.jobs && job !in b.dispatched
    requires j in b.jobs ==> Sound(ViewOf(b, j))
    requires j in b.jobs || j == job
    ensures Sound(ViewOf(Arrived(b, job, caller), j))
  {
    var b' := Arrived(b, job, caller);
    if j == job {
      assert !Waiting(b.queue, caller, j);
      assert ViewOf(b', j).job == Job(caller, Submitting, None, 0, false, false, false, false);
    }
  }

  lemma ViewAfterGet(b: Broker, j: nat)
    requires b.queue.Valid() && Inhabited(b) && b.worker == Getting
    requires j in b.jobs && Sound(ViewOf(b, j))
    ensures Sound(ViewOf(Taken(b), j))
  {
    WaitingAfterGet(b.queue, b.jobs[j].caller, j);
  }

  lemma ViewAfterDecision(b: Broker, late: bool, j: nat)
    requires b.worker.Holding? && b.worker.job in b.jobs
    requires j in b.jobs && Sound(ViewOf(b, j))
    ensures Sound(ViewOf(Decided(b, late), j))
  {
  }

  lemma ViewAfterDispatch(b: Broker, outcome: Option<string>, j: nat)
    requires b.worker.Dispatching? && b.worker.job in b.jobs
    requires j in b.jobs && Sound(ViewOf(b, j))
    ensures Sound(ViewOf(Ended(b, outcome), j))
  {
  }

  lemma ViewAfterAbort(b: Broker, j: nat)
    requires b.worker.Dispatching? && b.worker.job in b.jobs
    requires j in b.jobs && Sound(ViewOf(b, j))
    ensures Sound(ViewOf(Aborted(b), j))
  {
  }

  lemma ViewAfterCompletion(b: Broker, j: nat)
    requires b.worker.Replied? && b.worker.job in b.jobs
    requires j in b.jobs && Sound(ViewOf(b, j))
    ensures Sound(ViewOf(Completed(b), j))
  {
  }

  lemma ViewAfterClose(b: Broker, order: seq<string>, j: nat)
    requires b.queue.Valid() && Inhabited(b) && b.server == Closing && Enabled(b, CloseQueue(order))
    requires j in b.jobs && Sound(ViewOf(b, j))
    ensures Sound(ViewOf(QueueClosed(b, order), j))
  {
    PendingIsWaiting(order, b.queue.lanes, j);
    if c :| c in order && j in b.queue.lanes[c] {
      assert Waiting(b.queue, c, j);
    }
  }

  lemma ViewAfterDrainReply(b: Broker, j: nat)
    requires QueueInv(b) && Enabled(b, DrainReplies) && b.server.pending[0] in b.jobs
    requires j in b.jobs && Sound(ViewOf(b, j))
    ensures Sound(ViewOf(DrainReply(b), j))
  {
  }

  lemma ViewAfterDrainComplete(b: Broker, j: nat)
    requires QueueInv(b) && Enabled(b, DrainCompletes) && b.server.pending[0] in b.jobs
    requires j in b.jobs && Sound(ViewOf(b, j))
    ensures Sound(ViewOf(DrainComplete(b), j))
  {
    var pending := b.server.pending;
    assert pending == [pending[0]] + pending[1..];
    assert pending == PendingJobs(b.server);
    assert pending[0] !in pending[1..];
  }

  lemma ViewAfterServerStep(b: Broker, s: Step, j: nat)
    requires QueueInv(b) && Enabled(b, s)
    requires s.StopRequested? || s.ShutdownBegins? || s.DrainReplies? || s.DrainCompletes? || s.DrainEnds?
    requires j in b.jobs && Sound(ViewOf(b, j))
    ensures Sound(ViewOf(Apply(b, s), j))
  {
    if s.DrainReplies? || s.DrainCompletes? {
      assert b.server.pending[0] in PendingJobs(b.server);
      if s.DrainReplies? {
        ViewAfterDrainReply(b, j);
      } else {
        ViewAfterDrainComplete(b, j);
      }
    } else {
      assert ViewOf(Apply(b, s), j) == ViewOf(b, j);
    }
  }

  predicate ByConnection(s: Step) {
    s.Connect? || s.TurnAway? || s.RejectRequest? || s.Arrive? || s.Offer?
  }

  predicate ByWaiter(s: Step) {
    s.Collect? || s.TimeOut? || s.Withdraw? || s.MarkCancelled? || s.Leave?
  }

  predicate ByHandler(s: Step) {
    ByConnection(s) || ByWaiter(s)
  }

  predicate ByWorker(s: Step) {
    s.WorkerLooks? || s.WorkerGets? || s.WorkerDecides? || s.DispatchEnds? || s.DispatchAborts? || s.WorkerCompletes?
  }

  lemma ViewAfterConnection(b: Broker, s: Step, j: nat)
    requires QueueInv(b) && Enabled(b, s) && ByConnection(s) && j in Apply(b, s).jobs
    requires j in b.jobs ==> Sound(ViewOf(b, j))
    requires s.Offer? ==> Sound(ViewOf(b, s.job))
    requires s.Arrive? ==> s.job !in b.dispatched
    ensures Sound(ViewOf(Apply(b, s), j))
  {
    hide HistoryInv, Sound;
    match s
    case Arrive(job, caller) => ViewAfterArrive(b, job, caller, j);
    case Offer(job) => ViewAfterOffer(b, job, j);
    case _ => ViewAfterConnectionStep(b, s, j);
  }

  lemma ViewAfterWaiter(b: Broker, s: Step, j: nat)
    requires QueueInv(b) && Enabled(b, s) && ByWaiter(s) && j in b.jobs && Sound(ViewOf(b, j))
    ensures Sound(ViewOf(Apply(b, s), j))
  {
    if s.Withdraw? {
      ViewAfterWithdraw(b, s.job, j);
    } else if s.Collect? || s.MarkCancelled? {
      ViewAfterAnswer(b, s, j);
    } else {
      ViewAfterWaiterStep(b, s, j);
    }
  }

  lemma ViewAfterWorker(b: Broker, s: Step, j: nat)
    requires QueueInv(b) && Enabled(b, s) && ByWorker(s) && j in b.jobs && Sound(ViewOf(b, j))
    ensures Sound(ViewOf(Apply(b, s), j))
  {
    match s
    case WorkerLooks => assert ViewOf(Apply(b, s), j) == ViewOf(b, j);
    case WorkerGets => ViewAfterGet(b, j);
    case WorkerDecides(late) => ViewAfterDecision(b, late, j);
    case DispatchEnds(outcome) => ViewAfterDispatch(b, outcome, j);
    case DispatchAborts => ViewAfterAbort(b, j);
    case WorkerCompletes => ViewAfterCompletion(b, j);
  }

  lemma ViewAfterStep(b: Broker, s: Step, j: nat)
    requires Inv(b) && Enabled(b, s) && j in Apply(b, s).jobs
    ensures Sound(ViewOf(Apply(b, s), j))
  {
    hide Sound;
    if ByConnection(s) {
      ViewAfterConnection(b, s, j);
    } else if ByWaiter(s) {
      ViewAfterWaiter(b, s, j);
    } else if ByWorker(s) {
      ViewAfterWorker(b, s, j);
    } else if s.CloseQueue? {
      ViewAfterClose(b, s.order, j);
    } else {
      ViewAfterServerStep(b, s, j);
    }
  }

  // ---- the queue and the places that name jobs ----

  lemma OfferKeepsQueueInv(b: Broker, job: nat)
    requires QueueInv(b) && job in b.jobs && !Waiting(b.queue, b.jobs[job].caller, job)
    ensures QueueInv(Offered(b, job))
  {
    var b' := Offered(b, job);
    SubmitKeepsValid(b.queue, b.jobs[job].caller, job);
    forall c, j {:trigger Waiting(b'.queue, c, j)} | Waiting(b'.queue, c, j) ensures j in b'.jobs && b'.jobs[j].caller == c {
      WaitingAfterSubmit(b.queue, b.jobs[job].caller, job, c, j);
    }
  }

  lemma WithdrawKeepsQueueInv(b: Broker, job: nat)
    requires QueueInv(b) && job in b.jobs
    ensures QueueInv(Withdrawn(b, job))
  {
    var b' := Withdrawn(b, job);
    if Waiting(b.queue, b.jobs[job].caller, job) {
      assert !b.queue.closed;
      CancelKeepsValid(b.queue, b.jobs[job].caller, job);
      forall c, j {:trigger Waiting(b'.queue, c, j)} | Waiting(b'.queue, c, j) ensures j in b'.jobs && b'.jobs[j].caller == c {
        WaitingAfterCancel(b.queue, b.jobs[job].caller, job, c, j);
      }
    } else {
      UntouchedQueueKeepsInv(b, b');
    }
  }

  lemma GetKeepsQueueInv(b: Broker)
    requires QueueInv(b) && b.worker == Getting
    ensures QueueInv(Taken(b))
  {
    var b' := Taken(b);
    GetKeepsValid(b.queue);
    if Head(b.queue).Some? {
      WaitingAfterGet(b.queue, Head(b.queue).value.0, Head(b.queue).value.1);
    }
    forall c, j {:trigger Waiting(b'.queue, c, j)} | Waiting(b'.queue, c, j) ensures j in b'.jobs && b'.jobs[j].caller == c {
      WaitingAfterGet(b.queue, c, j);
    }
  }

  /** A job waits in the lane of its own caller only. */
  lemma JobsHaveOneLane(b: Broker)
    requires b.queue.Valid() && Inhabited(b)
    ensures OneLaneEach(b.queue.lanes)
  {
    forall c, d, j | c in b.queue.lanes && d in b.queue.lanes && j in b.queue.lanes[c] && j in b.queue.lanes[d] ensures c == d {
      assert Waiting(b.queue, c, j) && Waiting(b.queue, d, j);
    }
  }

  lemma CloseKeepsQueueInv(b: Broker, order: seq<string>)
    requires QueueInv(b) && Enabled(b, CloseQueue(order))
    ensures QueueInv(QueueClosed(b, order))
  {
    var b' := QueueClosed(b, order);
    JobsHaveOneLane(b);
    PendingIsExact(b.queue, order);
    assert forall c, j :: !Waiting(b'.queue, c, j);
    forall j | j in PendingJobs(b'.server) ensures j in b'.jobs {
      var c :| c in b.queue.lanes && j in b.queue.lanes[c];
      assert Waiting(b.queue, c, j);
    }
  }

  lemma UntouchedQueueKeepsInv(b: Broker, b': Broker)
    requires QueueInv(b) && b'.queue == b.queue
    requires forall j :: j in b.jobs ==> j in b'.jobs && b'.jobs[j].caller == b.jobs[j].caller
    requires (b'.worker.Holding? || b'.worker.Dispatching? || b'.worker.Replied?) ==> b'.worker.job in b'.jobs
    requires forall j :: j in PendingJobs(b'.server) ==> j in PendingJobs(b.server)
    requires Distinct(PendingJobs(b'.server))
    requires b'.server.DrainReplied? ==> b'.server.pending != []
    requires (b'.server == Serving || b'.server == Closing) == (b.server == Serving || b.server == Closing)
    ensures QueueInv(b')
  {
    assert forall c, j {:trigger Waiting(b'.queue, c, j)} :: Waiting(b'.queue, c, j) ==> Waiting(b.queue, c, j);
  }

  lemma ServerKeepsQueueInv(b: Broker, s: Step)
    requires QueueInv(b) && Enabled(b, s)
    requires s.StopRequested? || s.ShutdownBegins? || s.DrainReplies? || s.DrainCompletes? || s.DrainEnds?
    ensures QueueInv(Apply(b, s))
  {
    hide AfterGet;
    if s.DrainCompletes? || s.DrainReplies? {
      assert PendingJobs(b.server) == b.server.pending;
    }
    UntouchedQueueKeepsInv(b, Apply(b, s));
  }

  lemma ConnectionKeepsQueueInv(b: Broker, s: Step)
    requires QueueInv(b) && Enabled(b, s) && ByConnection(s)
    requires s.Offer? ==> !Waiting(b.queue, b.jobs[s.job].caller, s.job)
    ensures QueueInv(Apply(b, s))
  {
    if s.Offer? {
      OfferKeepsQueueInv(b, s.job);
    } else {
      UntouchedQueueKeepsInv(b, Apply(b, s));
    }
  }

  lemma WaiterKeepsQueueInv(b: Broker, s: Step)
    requires QueueInv(b) && Enabled(b, s) && ByWaiter(s)
    ensures QueueInv(Apply(b, s))
  {
    if s.Withdraw? {
      WithdrawKeepsQueueInv(b, s.job);
    } else {
      UntouchedQueueKeepsInv(b, Apply(b, s));
    }
  }

  lemma WorkerKeepsQueueInv(b: Broker, s: Step)
    requires QueueInv(b) && Enabled(b, s) && ByWorker(s)
    ensures QueueInv(Apply(b, s))
  {
    if s.WorkerGets? {
      GetKeepsQueueInv(b);
    } else {
      UntouchedQueueKeepsInv(b, Apply(b, s));
    }
  }

  lemma StepKeepsQueueInv(b: Broker, s: Step)
    requires QueueInv(b) && Enabled(b, s)
    requires s.Offer? ==> !Waiting(b.queue, b.jobs[s.job].caller, s.job)
    ensures QueueInv(Apply(b, s))
  {
    if ByConnection(s) {
      ConnectionKeepsQueueInv(b, s);
    } else if ByWaiter(s) {
      WaiterKeepsQueueInv(b, s);
    } else if ByWorker(s) {
      WorkerKeepsQueueInv(b, s);
    } else if s.CloseQueue? {
      CloseKeepsQueueInv(b, s.order);
    } else {
      ServerKeepsQueueInv(b, s);
    }
  }

  lemma ConnectionKeepsHistoryInv(b: Broker, s: Step)
    requires QueueInv(b) && HistoryInv(b) && Enabled(b, s) && ByConnection(s)
    ensures HistoryInv(Apply(b, s))
  {
  }

  lemma WaiterKeepsHistoryInv(b: Broker, s: Step)
    requires QueueInv(b) && HistoryInv(b) && Enabled(b, s) && ByWaiter(s)
    ensures HistoryInv(Apply(b, s))
  {
  }

  lemma WorkerKeepsHistoryInv(b: Broker, s: Step)
    requires QueueInv(b) && HistoryInv(b) && Enabled(b, s) && ByWorker(s)
    requires s.WorkerDecides? ==> b.worker.job !in b.dispatched
    ensures HistoryInv(Apply(b, s))
  {
  }

  lemma ServerKeepsHistoryInv(b: Broker, s: Step)
    requires QueueInv(b) && HistoryInv(b) && Enabled(b, s) && !ByHandler(s) && !ByWorker(s)
    ensures HistoryInv(Apply(b, s))
  {
  }

  lemma StepKeepsHistoryInv(b: Broker, s: Step)
    requires Inv(b) && Enabled(b, s)
    ensures HistoryInv(Apply(b, s))
  {
    if ByConnection(s) {
      ConnectionKeepsHistoryInv(b, s);
    } else if ByWaiter(s) {
      WaiterKeepsHistoryInv(b, s);
    } else if ByWorker(s) {
      if s.WorkerDecides? {
        assert Sound(ViewOf(b, b.worker.job));
      }
      WorkerKeepsHistoryInv(b, s);
    } else {
      ServerKeepsHistoryInv(b, s);
    }
  }

  /** Every step of every participant keeps the invariant. */
  lemma StepKeepsInv(b: Broker, s: Step)
    requires Inv(b) && Enabled(b, s)
    ensures Inv(Apply(b, s))
  {
    if s.Offer? {
      assert Sound(ViewOf(b, s.job));
    }
    StepKeepsQueueInv(b, s);
    StepKeepsHistoryInv(b, s);
    forall j | j in Apply(b, s).jobs ensures Sound(ViewOf(Apply(b, s), j)) {
      ViewAfterStep(b, s, j);
    }
  }

  // ---- whole runs ----

  ghost predicate CanStep(b: Broker, s: Step, b': Broker) {
    b.queue.Valid() && Inhabited(b) && Enabled(b, s) && b' == Apply(b, s)
  }

  ghost predicate IsRun(states: seq<Broker>, steps: seq<Step>, depth: nat, quota: nat) {
    && |states| == |steps| + 1
    && states[0] == Start(depth, quota)
    && forall i :: 0 <= i < |steps| ==> CanStep(states[i], steps[i], states[i + 1])
  }

  lemma {:induction false} RunIsSafe(states: seq<Broker>, steps: seq<Step>, depth: nat, quota: nat, i: nat)
    requires IsRun(states, steps, depth, quota) && i < |states|
    ensures Inv(states[i])
  {
    if i == 0 {
      StartIsSafe(depth, quota);
    } else {
      RunIsSafe(states, steps, depth, quota, i - 1);
      assert CanStep(states[i - 1], steps[i - 1], states[i - 1 + 1]);
      StepKeepsInv(states[i - 1], steps[i - 1]);
    }
  }

  /**
   * Under every interleaving a job is in exactly one place: not yet offered, waiting,
   * with the worker, in the drain, completed, withdrawn, or refused. Its response is
   * written at most once; a completed job has one exactly when its dispatch did not abort.
   */
  lemma EveryJobHasOneOwner(states: seq<Broker>, steps: seq<Step>, depth: nat, quota: nat, i: nat, j: nat)
    requires IsRun(states, steps, depth, quota) && i < |states| && j in states[i].jobs
    ensures Places(ViewOf(states[i], j)) == 1
    ensures states[i].jobs[j].writes <= 1
    ensures states[i].jobs[j].completed ==>
      (states[i].jobs[j].response.Some? <==> !states[i].jobs[j].aborted)
      && (states[i].jobs[j].writes == 1 <==> !states[i].jobs[j].aborted)
  {
    RunIsSafe(states, steps, depth, quota, i);
    assert Sound(ViewOf(states[i], j));
  }

  /** What is settled about a job stays settled. */
  lemma {:induction false} AnswersLast(states: seq<Broker>, steps: seq<Step>, depth: nat, quota: nat, i: nat, k: nat, j: nat)
    requires IsRun(states, steps, depth, quota) && i <= k < |states|
    ensures j in states[i].jobs && HasAnswer(states[i].jobs[j]) ==>
      j in states[k].jobs && HasAnswer(states[k].jobs[j]) && states[k].jobs[j].handler.answer == states[i].jobs[j].handler.answer
    ensures j in states[i].dispatched ==> j in states[k].dispatched
    decreases k - i
  {
    if i < k {
      RunSettles(states, steps, depth, quota, i, j);
      AnswersLast(states, steps, depth, quota, i + 1, k, j);
    }
  }

  /** What one step leaves as it was about job `j`, and whether it aborts it. */
  ghost predicate Settled(b: Broker, s: Step, b': Broker, j: nat) {
    && (j in b.jobs ==> j in b'.jobs && b'.jobs[j].caller == b.jobs[j].caller)
    && (j in b.jobs && HasAnswer(b.jobs[j]) ==>
          HasAnswer(b'.jobs[j]) && b'.jobs[j].handler.answer == b.jobs[j].handler.answer)
    && (j in b.dispatched ==> j in b'.dispatched)
    && (j in b'.jobs && b'.jobs[j].aborted <==>
          (j in b.jobs && b.jobs[j].aborted) || (s == DispatchAborts && b.worker == Dispatching(j)))
    && b'.queue.depth == b.queue.depth && b'.queue.quota == b.queue.quota
  }

  lemma ConnectionSettles(b: Broker, s: Step, j: nat)
    requires b.queue.Valid() && Inhabited(b) && Enabled(b, s) && ByConnection(s)
    ensures Settled(b, s, Apply(b, s), j)
  {
  }

  lemma WaiterSettles(b: Broker, s: Step, j: nat)
    requires b.queue.Valid() && Inhabited(b) && Enabled(b, s) && ByWaiter(s)
    ensures Settled(b, s, Apply(b, s), j)
  {
  }

  lemma GetSettles(b: Broker, j: nat)
    requires b.queue.Valid() && Inhabited(b) && b.worker == Getting
    ensures Settled(b, WorkerGets, Taken(b), j)
  {
  }

  lemma WorkerSettles(b: Broker, s: Step, j: nat)
    requires b.queue.Valid() && Inhabited(b) && Enabled(b, s) && ByWorker(s)
    ensures Settled(b, s, Apply(b, s), j)
  {
    if s.WorkerGets? {
      GetSettles(b, j);
    } else if s.DispatchEnds? || s.DispatchAborts? {
      DispatchSettles(b, s, j);
    } else {
      LoopSettles(b, s, j);
    }
  }

  lemma DispatchSettles(b: Broker, s: Step, j: nat)
    requires b.queue.Valid() && Inhabited(b) && Enabled(b, s) && (s.DispatchEnds? || s.DispatchAborts?)
    ensures Settled(b, s, Apply(b, s), j)
  {
  }

  lemma LoopSettles(b: Broker, s: Step, j: nat)
    requires b.queue.Valid() && Inhabited(b) && Enabled(b, s) && (s.WorkerLooks? || s.WorkerDecides? || s.WorkerCompletes?)
    ensures Settled(b, s, Apply(b, s), j)
  {
  }

  lemma ServerSettles(b: Broker, s: Step, j: nat)
    requires b.queue.Valid() && Inhabited(b) && Enabled(b, s) && !ByHandler(s) && !ByWorker(s)
    ensures Settled(b, s, Apply(b, s), j)
  {
  }

  lemma AnswerSurvives(b: Broker, s: Step, j: nat)
    requires b.queue.Valid() && Inhabited(b) && Enabled(b, s)
    ensures Settled(b, s, Apply(b, s), j)
  {
    if ByConnection(s) {
      ConnectionSettles(b, s, j);
    } else if ByWaiter(s) {
      WaiterSettles(b, s, j);
    } else if ByWorker(s) {
      WorkerSettles(b, s, j);
    } else {
      ServerSettles(b, s, j);
    }
  }

  lemma RunSettles(states: seq<Broker>, steps: seq<Step>, depth: nat, quota: nat, i: nat, j: nat)
    requires IsRun(states, steps, depth, quota) && i < |steps|
    ensures Settled(states[i], steps[i], states[i + 1], j)
  {
    assert CanStep(states[i], steps[i], states[i + 1]);
    AnswerSurvives(states[i], steps[i], j);
  }

  /** For a request that became a job, its answer alone tells at any time whether it was dispatched. */
  lemma AnswerTellsWhetherDispatched(states: seq<Broker>, steps: seq<Step>, depth: nat, quota: nat, i: nat, j: nat)
    requires IsRun(states, steps, depth, quota) && i < |states|
    requires j in states[i].jobs && HasAnswer(states[i].jobs[j])
    ensures FromDispatcher(states[i].jobs[j].handler.answer) <==> j in states[i].dispatched
  {
    RunIsSafe(states, steps, depth, quota, i);
    assert Sound(ViewOf(states[i], j));
  }

  /**
   * A job answered with a deadline, a saturation, a quota or a stopping refusal is
   * never given to the dispatcher, before or after the answer.
   */
  lemma RefusedMeansNeverDispatched(states: seq<Broker>, steps: seq<Step>, depth: nat, quota: nat, i: nat, k: nat, j: nat)
    requires IsRun(states, steps, depth, quota) && i < |states| && k < |states|
    requires j in states[i].jobs && HasAnswer(states[i].jobs[j])
    requires states[i].jobs[j].handler.answer.DeadlineExceeded? || states[i].jobs[j].handler.answer.Refused?
    ensures j !in states[k].dispatched
  {
    if i <= k {
      AnswersLast(states, steps, depth, quota, i, k, j);
      AnswerTellsWhetherDispatched(states, steps, depth, quota, k, j);
    } else {
      AnswersLast(states, steps, depth, quota, k, i, j);
      AnswerTellsWhetherDispatched(states, steps, depth, quota, i, j);
    }
  }

  lemma NoJobIsDispatchedTwice(states: seq<Broker>, steps: seq<Step>, depth: nat, quota: nat, i: nat)
    requires IsRun(states, steps, depth, quota) && i < |states|
    ensures Distinct(states[i].dispatched)
    ensures states[i].metrics.completed <= |states[i].dispatched| <= states[i].metrics.accepted
    ensures states[i].metrics.accepted <= |states[i].dispatched| + states[i].metrics.deadlineRejected + 1
    ensures |states[i].live| + states[i].unread <= depth + 2
  {
    RunIsSafe(states, steps, depth, quota, i);
    LimitsAreFixed(states, steps, depth, quota, i);
  }

  lemma {:induction false} NeverChanges<T>(values: seq<T>, i: nat)
    requires i < |values| && forall k :: 0 <= k < |values| - 1 ==> values[k + 1] == values[k]
    ensures values[i] == values[0]
  {
    if i > 0 {
      NeverChanges(values, i - 1);
      assert values[i - 1 + 1] == values[i - 1];
    }
  }

  lemma LimitsAreFixed(states: seq<Broker>, steps: seq<Step>, depth: nat, quota: nat, i: nat)
    requires IsRun(states, steps, depth, quota) && i < |states|
    ensures states[i].queue.depth == depth && states[i].queue.quota == quota
  {
    var limits := seq(|states|, k requires 0 <= k < |states| => (states[k].queue.depth, states[k].queue.quota));
    forall k | 0 <= k < |limits| - 1 ensures limits[k + 1] == limits[k] {
      RunSettles(states, steps, depth, quota, k, 0);
    }
    NeverChanges(limits, i);
  }

  /** The worker's test for a cancelled job never succeeds: what it holds was not withdrawn. */
  lemma WorkerNeverHoldsAWithdrawnJob(states: seq<Broker>, steps: seq<Step>, depth: nat, quota: nat, i: nat)
    requires IsRun(states, steps, depth, quota) && i < |states|
    requires states[i].worker.Holding? || states[i].worker.Dispatching? || states[i].worker.Replied?
    ensures states[i].worker.job in states[i].jobs
    ensures !states[i].jobs[states[i].worker.job].cancelled
    ensures states[i].jobs[states[i].worker.job].handler != Withdrawing
    ensures !HasAnswer(states[i].jobs[states[i].worker.job])
  {
    RunIsSafe(states, steps, depth, quota, i);
    assert Sound(ViewOf(states[i], states[i].worker.job));
  }

  /** A handler that finds `completed` set answers with the response, or with a failure exactly after an abort. */
  lemma CollectedAnswerIsTheResponse(states: seq<Broker>, steps: seq<Step>, depth: nat, quota: nat, i: nat, j: nat)
    requires IsRun(states, steps, depth, quota) && i < |steps| && steps[i] == Collect(j)
    ensures j in states[i].jobs && j in states[i + 1].jobs
    ensures states[i].jobs[j].response.Some? <==> !states[i].jobs[j].aborted
    ensures states[i + 1].jobs[j].handler
         == Answered(if states[i].jobs[j].aborted then RequestFailed else states[i].jobs[j].response.value)
  {
    RunIsSafe(states, steps, depth, quota, i);
    assert CanStep(states[i], steps[i], states[i + 1]);
    assert Sound(ViewOf(states[i], j));
  }

  /** `aborted` marks the job whose dispatch an abort ended, and no other. */
  ghost predicate AbortedAt(states: seq<Broker>, steps: seq<Step>, k: nat, j: nat)
    requires k < |steps| < |states|
  {
    steps[k] == DispatchAborts && states[k].worker == Dispatching(j)
  }

  /** A flag that is raised by some steps and never lowered. */
  lemma {:induction false} FlagIsRaised(flag: seq<bool>, raised: seq<bool>, i: nat)
    requires |flag| == |raised| + 1 && i < |flag| && !flag[0]
    requires forall k :: 0 <= k < |raised| ==> (flag[k + 1] <==> flag[k] || raised[k])
    ensures flag[i] <==> exists k :: 0 <= k < i && raised[k]
  {
    if i > 0 {
      FlagIsRaised(flag, raised, i - 1);
      assert flag[i - 1 + 1] <==> flag[i - 1] || raised[i - 1];
    }
  }

  lemma AbortedByItsDispatch(states: seq<Broker>, steps: seq<Step>, depth: nat, quota: nat, i: nat, j: nat)
    requires IsRun(states, steps, depth, quota) && i < |states|
    ensures j in states[i].jobs && states[i].jobs[j].aborted <==> exists k :: 0 <= k < i && AbortedAt(states, steps, k, j)
  {
    var flag := seq(|states|, k requires 0 <= k < |states| => j in states[k].jobs && states[k].jobs[j].aborted);
    var raised := seq(|steps|, k requires 0 <= k < |steps| => AbortedAt(states, steps, k, j));
    forall k | 0 <= k < |raised| ensures flag[k + 1] <==> flag[k] || raised[k] {
      RunSettles(states, steps, depth, quota, k, j);
    }
    FlagIsRaised(flag, raised, i);
    assert forall k :: 0 <= k < i ==> (raised[k] <==> AbortedAt(states, steps, k, j));
  }

  /** A completed job lacks a response exactly when its own dispatch aborted, and then its handler answers a failure. */
  lemma ResponseUnlessAborted(states: seq<Broker>, steps: seq<Step>, depth: nat, quota: nat, i: nat, j: nat)
    requires IsRun(states, steps, depth, quota) && i < |states| && j in states[i].jobs && states[i].jobs[j].completed
    ensures states[i].jobs[j].response == None <==> exists k :: 0 <= k < i && AbortedAt(states, steps, k, j)
    ensures states[i].jobs[j].response == None && HasAnswer(states[i].jobs[j]) ==> states[i].jobs[j].handler.answer == RequestFailed
  {
    AbortedByItsDispatch(states, steps, depth, quota, i, j);
    RunIsSafe(states, steps, depth, quota, i);
    assert Sound(ViewOf(states[i], j));
  }

  // ---- after shutdown ----

  predicate ShutDown(b: Broker) {
    b.worker == Exited && b.server == Drained
  }

  /** Once the worker has exited and the drain is over, nobody waits for an event that will not come. */
  lemma NoneLeftUnanswered(states: seq<Broker>, steps: seq<Step>, depth: nat, quota: nat, i: nat, j: nat)
    requires IsRun(states, steps, depth, quota) && i < |states|
    requires ShutDown(states[i]) && j in states[i].jobs
    requires states[i].jobs[j].handler in {Awaiting, TimedOut, MustWait}
    ensures states[i].jobs[j].completed && (states[i].jobs[j].response.Some? <==> !states[i].jobs[j].aborted)
  {
    RunIsSafe(states, steps, depth, quota, i);
    assert Sound(ViewOf(states[i], j));
  }

  /** The step a handler takes next once nothing else moves. */
  function NextOf(b: Broker, j: nat): Step
    requires j in b.jobs && !HasAnswer(b.jobs[j])
  {
    match b.jobs[j].handler
    case Submitting => Offer(j)
    case TimedOut => Withdraw(j)
    case Withdrawing => MarkCancelled(j)
    case _ => Collect(j)
  }

  function StepsLeft(h: Handler): nat {
    match h
    case TimedOut => 2
    case Answered(_) => 0
    case Left(_) => 0
    case _ => 1
  }

  /** After shutdown every handler can answer by itself, in at most two steps of its own. */
  lemma HandlerFinishesAlone(b: Broker, j: nat)
    requires Inv(b) && ShutDown(b) && j in b.jobs && !HasAnswer(b.jobs[j])
    ensures Enabled(b, NextOf(b, j))
    ensures Inv(Apply(b, NextOf(b, j))) && ShutDown(Apply(b, NextOf(b, j))) && j in Apply(b, NextOf(b, j)).jobs
    ensures StepsLeft(Apply(b, NextOf(b, j)).jobs[j].handler) < StepsLeft(b.jobs[j].handler)
  {
    assert Sound(ViewOf(b, j));
    NextStepIsProgress(b, j);
    StepKeepsInv(b, NextOf(b, j));
  }

  lemma NextStepIsProgress(b: Broker, j: nat)
    requires b.queue.Valid() && b.queue.closed && b.queue.lanes == map[] && Inhabited(b) && ShutDown(b)
    requires j in b.jobs && !HasAnswer(b.jobs[j]) && Sound(ViewOf(b, j))
    ensures Enabled(b, NextOf(b, j))
    ensures ShutDown(Apply(b, NextOf(b, j))) && j in Apply(b, NextOf(b, j)).jobs
    ensures StepsLeft(Apply(b, NextOf(b, j)).jobs[j].handler) < StepsLeft(b.jobs[j].handler)
  {
    match b.jobs[j].handler
    case Submitting =>
    case TimedOut => assert !Waiting(b.queue, b.jobs[j].caller, j);
    case Withdrawing =>
    case _ =>
  }
}
