/**
 * The broker's request protocol as atomic steps of its connection handlers, its
 * one worker and its shutdown path, interleaved in any order. A job is named by
 * a number; its handler, its three events and its response slot are its record.
 */
module BrokerProtocol {
  import opened Outcomes
  import opened Sequences
  import opened FairQueue

  datatype Response =
    | Success(result: string)
    | RequestFailed
    | DeadlineExceeded
    | Refused(reason: Rejection)

  /** Where a connection handler is in its request. */
  datatype Handler =
    | Submitting                   // job built, not yet offered to the queue
    | Awaiting                     // in the first, bounded wait for `completed`
    | TimedOut                     // that wait ended first; about to cancel
    | Withdrawing                  // cancel removed the job; about to set `cancelled`
    | MustWait                     // cancel found nothing; waiting without a bound
    | Answered(answer: Response)   // about to write the answer
    | Left(answer: Response)       // connection slot given back

  datatype Job = Job(
    caller: string,
    handler: Handler,
    response: Option<Response>,
    writes: nat,                   // how often the response slot was assigned
    started: bool,
    completed: bool,
    cancelled: bool,
    aborted: bool)                 // its dispatch raised past the worker's handler

  datatype Worker =
    | LoopHead
    | Getting
    | Holding(job: nat)
    | Dispatching(job: nat)
    | Replied(job: nat)
    | Exited

  datatype Server =
    | Serving
    | Closing
    | Draining(pending: seq<nat>)
    | DrainReplied(pending: seq<nat>)
    | Drained

  datatype Metrics = Metrics(accepted: nat, completed: nat, rejected: nat, deadlineRejected: nat)

  datatype Broker = Broker(
    queue: Queue<nat>,
    jobs: map<nat, Job>,
    live: set<nat>,                // jobs whose connection holds a slot
    unread: nat,                   // connections that hold a slot and have no job yet
    worker: Worker,
    server: Server,
    stop: bool,
    metrics: Metrics,
    dispatched: seq<nat>)          // every job given to the dispatcher, in order

  function Start(depth: nat, quota: nat): Broker {
    Broker(EmptyQueue(depth, quota), map[], {}, 0, LoopHead, Serving, false, Metrics(0, 0, 0, 0), [])
  }

  datatype Step =
    | Connect
    | TurnAway
    | RejectRequest                                // unauthorized or malformed: `request_failed`, without a job
    | Arrive(job: nat, caller: string)
    | Offer(job: nat)
    | Collect(job: nat)
    | TimeOut(job: nat)
    | Withdraw(job: nat)
    | MarkCancelled(job: nat)
    | Leave(job: nat)
    | WorkerLooks
    | WorkerGets
    | WorkerDecides(late: bool)
    | DispatchEnds(outcome: Option<string>)
    | DispatchAborts                               // an exception that `except Exception` does not catch
    | WorkerCompletes
    | StopRequested
    | ShutdownBegins
    | CloseQueue(order: seq<string>)
    | DrainReplies
    | DrainCompletes
    | DrainEnds

  ghost predicate Enabled(b: Broker, s: Step) {
    match s
    case Connect => b.server == Serving && |b.live| + b.unread < b.queue.depth + 2
    case TurnAway => b.server == Serving && |b.live| + b.unread >= b.queue.depth + 2
    case RejectRequest => b.unread > 0
    case Arrive(job, _) => b.unread > 0 && job !in b.jobs
    case Offer(job) => job in b.jobs && b.jobs[job].handler == Submitting
    case Collect(job) => job in b.jobs && b.jobs[job].handler in {Awaiting, MustWait} && b.jobs[job].completed
    case TimeOut(job) => job in b.jobs && b.jobs[job].handler == Awaiting && !b.jobs[job].completed
    case Withdraw(job) => job in b.jobs && b.jobs[job].handler == TimedOut
    case MarkCancelled(job) => job in b.jobs && b.jobs[job].handler == Withdrawing
    case Leave(job) => job in b.jobs && b.jobs[job].handler.Answered?
    case WorkerLooks => b.worker == LoopHead
    case WorkerGets => b.worker == Getting
    case WorkerDecides(_) => b.worker.Holding?
    case DispatchEnds(_) => b.worker.Dispatching?
    case DispatchAborts => b.worker.Dispatching?
    case WorkerCompletes => b.worker.Replied?
    case StopRequested => true
    case ShutdownBegins => b.server == Serving
    case CloseQueue(order) => b.server == Closing && (forall c :: c in order <==> c in b.queue.lanes)
                              && (forall i, k :: 0 <= i < k < |order| ==> order[i] != order[k])
    case DrainReplies => b.server.Draining? && b.server.pending != []
    case DrainCompletes => b.server.DrainReplied? && b.server.pending != []
    case DrainEnds => b.server == Draining([])
  }

  function SetJob(b: Broker, j: nat, job: Job): Broker {
    b.(jobs := b.jobs[j := job])
  }

  function Reply(job: Job, response: Response): Job {
    job.(response := Some(response), writes := job.writes + 1)
  }

  /** The answer a handler reads after `completed`; a missing response reads as a failure. */
  function AnswerFrom(job: Job): Response {
    match job.response case None => RequestFailed case Some(response) => response
  }

  // ---- connection handlers ----

  function Arrived(b: Broker, job: nat, caller: string): Broker
    requires b.unread > 0
  {
    SetJob(b, job, Job(caller, Submitting, None, 0, false, false, false, false))
    .(live := b.live + {job}, unread := b.unread - 1)
  }

  function TurnedAway(b: Broker): Broker {
    b.(metrics := b.metrics.(rejected := b.metrics.rejected + 1))
  }

  function Offered(b: Broker, job: nat): Broker
    requires job in b.jobs
  {
    var (queue, rejection) := Submit(b.queue, b.jobs[job].caller, job);
    match rejection
    case None => SetJob(b, job, b.jobs[job].(handler := Awaiting)).(queue := queue)
    case Some(reason) => TurnedAway(SetJob(b, job, b.jobs[job].(handler := Answered(Refused(reason)))))
  }

  function Collected(b: Broker, job: nat): Broker
    requires job in b.jobs
  {
    SetJob(b, job, b.jobs[job].(handler := Answered(AnswerFrom(b.jobs[job]))))
  }

  function Expired(b: Broker, job: nat): Broker
    requires job in b.jobs
  {
    SetJob(b, job, b.jobs[job].(handler := TimedOut))
  }

  function Withdrawn(b: Broker, job: nat): Broker
    requires job in b.jobs && b.queue.Valid()
  {
    var caller := b.jobs[job].caller;
    if Waiting(b.queue, caller, job)
    then SetJob(b, job, b.jobs[job].(handler := Withdrawing)).(queue := Cancel(b.queue, caller, job))
    else SetJob(b, job, b.jobs[job].(handler := MustWait))
  }

  function MarkedCancelled(b: Broker, job: nat): Broker
    requires job in b.jobs
  {
    SetJob(b, job, b.jobs[job].(handler := Answered(DeadlineExceeded), cancelled := true))
    .(metrics := b.metrics.(deadlineRejected := b.metrics.deadlineRejected + 1))
  }

  function HasLeft(b: Broker, job: nat): Broker
    requires job in b.jobs && b.jobs[job].handler.Answered?
  {
    SetJob(b, job, b.jobs[job].(handler := Left(b.jobs[job].handler.answer))).(live := b.live - {job})
  }

  // ---- the worker ----

  function Taken(b: Broker): Broker
    requires b.queue.Valid()
  {
    match Head(b.queue)
    case None => b.(worker := LoopHead)
    case Some(taken) =>
      b.(queue := AfterGet(b.queue), worker := Holding(taken.1),
         metrics := b.metrics.(accepted := b.metrics.accepted + 1))
  }

  function Decided(b: Broker, late: bool): Broker
    requires b.worker.Holding? && b.worker.job in b.jobs
  {
    var j := b.worker.job;
    if b.jobs[j].cancelled || late
    then SetJob(b, j, Reply(b.jobs[j], DeadlineExceeded))
         .(worker := Replied(j), metrics := b.metrics.(deadlineRejected := b.metrics.deadlineRejected + 1))
    else SetJob(b, j, b.jobs[j].(started := true)).(worker := Dispatching(j), dispatched := b.dispatched + [j])
  }

  function Ended(b: Broker, outcome: Option<string>): Broker
    requires b.worker.Dispatching? && b.worker.job in b.jobs
  {
    var j := b.worker.job;
    match outcome
    case Some(result) =>
      SetJob(b, j, Reply(b.jobs[j], Success(result)))
      .(worker := Replied(j), metrics := b.metrics.(completed := b.metrics.completed + 1))
    case None => SetJob(b, j, Reply(b.jobs[j], RequestFailed)).(worker := Replied(j))
  }

  /** The `finally` clause still sets `completed`; the worker thread ends. */
  function Aborted(b: Broker): Broker
    requires b.worker.Dispatching? && b.worker.job in b.jobs
  {
    SetJob(b, b.worker.job, b.jobs[b.worker.job].(completed := true, aborted := true)).(worker := Exited)
  }

  function Completed(b: Broker): Broker
    requires b.worker.Replied? && b.worker.job in b.jobs
  {
    SetJob(b, b.worker.job, b.jobs[b.worker.job].(completed := true)).(worker := LoopHead)
  }

  // ---- the shutdown path ----

  function QueueClosed(b: Broker, order: seq<string>): Broker
    requires forall c :: c in order ==> c in b.queue.lanes
  {
    b.(queue := Closed(b.queue), server := Draining(Pending(order, b.queue.lanes)))
  }

  function DrainReply(b: Broker): Broker
    requires b.server.Draining? && b.server.pending != [] && b.server.pending[0] in b.jobs
  {
    var j := b.server.pending[0];
    SetJob(b, j, Reply(b.jobs[j], Refused(BrokerStopping))).(server := DrainReplied(b.server.pending))
  }

  function DrainComplete(b: Broker): Broker
    requires b.server.DrainReplied? && b.server.pending != [] && b.server.pending[0] in b.jobs
  {
    var j := b.server.pending[0];
    SetJob(b, j, b.jobs[j].(completed := true)).(server := Draining(b.server.pending[1..]))
  }

  function Apply(b: Broker, s: Step): Broker
    requires b.queue.Valid() && Inhabited(b) && Enabled(b, s)
  {
    match s
    case Connect => b.(unread := b.unread + 1)
    case TurnAway => TurnedAway(b)
    case RejectRequest => b.(unread := b.unread - 1)
    case Arrive(job, caller) => Arrived(b, job, caller)
    case Offer(job) => Offered(b, job)
    case Collect(job) => Collected(b, job)
    case TimeOut(job) => Expired(b, job)
    case Withdraw(job) => Withdrawn(b, job)
    case MarkCancelled(job) => MarkedCancelled(b, job)
    case Leave(job) => HasLeft(b, job)
    case WorkerLooks => b.(worker := if b.stop then Exited else Getting)
    case WorkerGets => Taken(b)
    case WorkerDecides(late) => Decided(b, late)
    case DispatchEnds(outcome) => Ended(b, outcome)
    case DispatchAborts => Aborted(b)
    case WorkerCompletes => Completed(b)
    case StopRequested => b.(stop := true)
    case ShutdownBegins => b.(stop := true, server := Closing)
    case CloseQueue(order) => QueueClosed(b, order)
    case DrainReplies => assert b.server.pending[0] in PendingJobs(b.server); DrainReply(b)
    case DrainCompletes => assert b.server.pending[0] in PendingJobs(b.server); DrainComplete(b)
    case DrainEnds => b.(server := Drained)
  }

  // ---- who owns a job ----

  function PendingJobs(s: Server): seq<nat> {
    if s.Draining? || s.DrainReplied? then s.pending else []
  }

  /** Whoever handles jobs handles jobs that arrived, in the lane of their own caller. */
  ghost predicate Inhabited(b: Broker) {
    && (forall c, j {:trigger Waiting(b.queue, c, j)} :: Waiting(b.queue, c, j) ==> j in b.jobs && b.jobs[j].caller == c)
    && ((b.worker.Holding? || b.worker.Dispatching? || b.worker.Replied?) ==> b.worker.job in b.jobs)
    && (forall j :: j in PendingJobs(b.server) ==> j in b.jobs)
  }

  /** One job and everything the rest of the broker says about it. */
  datatype View = View(
    job: Job,
    queued: bool,
    held: bool,                    // the worker took it and has not decided yet
    dispatching: bool,
    replied: bool,                 // the worker has written its response
    pending: bool,                 // in the shutdown's list
    drainReplied: bool,            // at its head, response written
    dispatched: bool,              // ever given to the dispatcher
    live: bool)

  predicate DrainRepliedTo(s: Server, j: nat) {
    s.DrainReplied? && s.pending != [] && s.pending[0] == j
  }

  function ViewOf(b: Broker, j: nat): View
    requires j in b.jobs
  {
    View(b.jobs[j], Waiting(b.queue, b.jobs[j].caller, j), b.worker == Holding(j), b.worker == Dispatching(j),
         b.worker == Replied(j), j in PendingJobs(b.server), DrainRepliedTo(b.server, j), j in b.dispatched, j in b.live)
  }

  predicate HasAnswer(job: Job) {
    job.handler.Answered? || job.handler.Left?
  }

  /** Answered with a refusal without ever having been accepted. */
  predicate TurnedDown(job: Job) {
    HasAnswer(job) && job.handler.answer.Refused? && !job.completed
  }

  /** In how many places a job is. */
  function Places(v: View): nat {
    Tally(v.job.handler == Submitting)
    + Tally(v.queued)
    + Tally(v.held || v.dispatching || v.replied)
    + Tally(v.pending)
    + Tally(v.job.completed)
    + Tally(v.job.handler == Withdrawing || v.job.cancelled)
    + Tally(TurnedDown(v.job))
  }

  predicate FromDispatcher(response: Response) {
    response.Success? || response.RequestFailed?
  }

  predicate Sound(v: View) {
    var job := v.job;
    && Places(v) == 1
    && job.writes == Tally(job.response.Some?)
    && (job.response.Some? <==> (job.completed && !job.aborted) || v.replied || v.drainReplied)
    && (job.aborted ==> job.started && job.completed && job.response == None)
    && (v.drainReplied ==> v.pending)
    && (v.dispatched <==> job.started)
    && (job.started ==> job.completed || v.dispatching || v.replied)
    && (v.dispatching ==> job.started)
    && (job.response.Some? ==> (job.started <==> FromDispatcher(job.response.value)))
    && (job.cancelled ==> HasAnswer(job) && job.handler.answer == DeadlineExceeded)
    && (HasAnswer(job) && job.completed ==> AnswerFrom(job) == job.handler.answer)
    && (HasAnswer(job) && !job.completed ==> job.cancelled || job.handler.answer.Refused?)
    && (v.queued ==> job.handler == Awaiting || job.handler == TimedOut)
    && (v.live <==> !job.handler.Left?)
  }

  ghost predicate QueueInv(b: Broker) {
    && b.queue.Valid()
    && Inhabited(b)
    && (b.queue.closed <==> b.server != Serving && b.server != Closing)
    && (b.queue.closed ==> b.queue.lanes == map[])
    && (b.server.DrainReplied? ==> b.server.pending != [])
    && Distinct(PendingJobs(b.server))
  }

  ghost predicate HistoryInv(b: Broker) {
    && Distinct(b.dispatched)
    && (forall j :: j in b.dispatched ==> j in b.jobs)
    && (forall j :: j in b.live ==> j in b.jobs)
    && |b.live| + b.unread <= b.queue.depth + 2
    && b.metrics.completed + Tally(b.worker.Dispatching?) <= |b.dispatched|
    && |b.dispatched| + Tally(b.worker.Holding?) <= b.metrics.accepted
    && b.metrics.accepted <= |b.dispatched| + Tally(b.worker.Holding?) + b.metrics.deadlineRejected
  }

  ghost predicate Inv(b: Broker) {
    QueueInv(b) && HistoryInv(b) && forall j :: j in b.jobs ==> Sound(ViewOf(b, j))
  }
}
