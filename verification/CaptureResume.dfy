/** Capturing a question batch by batch, with a checkpoint after each, and resuming from any of them. */
module CaptureResume {
  import opened Outcomes
  import opened Packing
  import opened CaptureUnits
  import opened CaptureRecords
  import opened CaptureRecovery
  import opened CaptureJournal

  type Batch = batch: seq<CaptureUnit> | |batch| >= 1 witness [CaptureUnit("", Session("", "", "", []), [])]

  /** The counters and records of a run so far. */
  datatype Progress = Progress(records: seq<Record>, completed: nat, rejections: nat, recoveries: nat)

  const START: Progress := Progress([], 0, 0, 0)

  datatype CaptureError =
    CaptureInvalid | EntryInvalid | PartitionChanged | RecordsInvalid | CopiedRecord | NotOnBoundary

  // ---- the uninterrupted run ----

  function CaptureBatch(attempt: Attempt, batch: Batch, p: Progress): Option<Progress> {
    var c := CaptureValidated(attempt, batch, 0);
    match c.outcome
    case None => None
    case Some(s) =>
      Some(Progress(p.records + s.records, p.completed + |batch|, p.rejections + s.rejectedVerbatim, p.recoveries + c.recoveries))
  }

  function RunFrom(attempt: Attempt, batches: seq<Batch>, p: Progress): Option<Progress> {
    if batches == [] then Some(p)
    else
      match CaptureBatch(attempt, batches[0], p)
      case None => None
      case Some(next) => RunFrom(attempt, batches[1..], next)
  }

  lemma {:induction false} RunInTwoParts(attempt: Attempt, batches: seq<Batch>, k: nat, p: Progress)
    requires k <= |batches|
    ensures RunFrom(attempt, batches, p)
         == match RunFrom(attempt, batches[..k], p) case None => None case Some(q) => RunFrom(attempt, batches[k..], q)
  {
    if k > 0 {
      match CaptureBatch(attempt, batches[0], p)
      case None =>
      case Some(next) =>
        RunInTwoParts(attempt, batches[1..], k - 1, next);
        assert batches[..k][1..] == batches[1..][..k - 1] && batches[1..][k - 1..] == batches[k..];
    }
  }

  /** One batch more after the first `k`. */
  lemma RunOneMore(attempt: Attempt, batches: seq<Batch>, k: nat, p: Progress)
    requires k < |batches|
    ensures RunFrom(attempt, batches[..k + 1], p)
         == match RunFrom(attempt, batches[..k], p) case None => None case Some(q) => CaptureBatch(attempt, batches[k], q)
  {
    RunInTwoParts(attempt, batches[..k + 1], k, p);
    assert batches[..k + 1][..k] == batches[..k] && batches[..k + 1][k..] == [batches[k]];
    match RunFrom(attempt, batches[..k], p)
    case None =>
    case Some(q) =>
      match CaptureBatch(attempt, batches[k], q)
      case None =>
      case Some(next) => assert RunFrom(attempt, [batches[k]][1..], next) == Some(next);
  }

  // ---- what a run returns ----

  /** The journals of the batches, one after the other. */
  ghost predicate IsJournal(attempt: Attempt, batches: seq<Batch>, calls: seq<Call>)
    decreases |batches|
  {
    if batches == [] then calls == []
    else
      exists n :: && 0 <= n <= |calls| && AreMade(attempt, calls[..n], 0) && WorksOff(calls[..n], [batches[0]], true)
                  && IsJournal(attempt, batches[1..], calls[n..])
  }

  /** The progress that the calls account for: their records in order, every unit, their rejections and the refused ones. */
  function Accounted(calls: seq<Call>): Progress {
    Progress(AnsweredRecords(calls), |AnsweredUnits(calls)|, AnsweredRejections(calls), Refused(calls))
  }

  function Sum(p: Progress, q: Progress): Progress {
    Progress(p.records + q.records, p.completed + q.completed, p.rejections + q.rejections, p.recoveries + q.recoveries)
  }

  lemma BatchIsAccounted(attempt: Attempt, batch: Batch, p: Progress) returns (calls: seq<Call>)
    requires CaptureBatch(attempt, batch, p).Some?
    ensures AreMade(attempt, calls, 0) && WorksOff(calls, [batch], true) && AnsweredUnits(calls) == batch
    ensures CaptureBatch(attempt, batch, p) == Some(Sum(p, Accounted(calls)))
  {
    calls := BatchHasAJournal(attempt, batch, 0);
  }

  lemma JournalOneMore(attempt: Attempt, batches: seq<Batch>, first: seq<Call>, later: seq<Call>)
    requires batches != [] && AreMade(attempt, first, 0) && WorksOff(first, [batches[0]], true) && IsJournal(attempt, batches[1..], later)
    ensures IsJournal(attempt, batches, first + later)
  {
    var calls := first + later;
    assert calls[..|first|] == first && calls[|first|..] == later;
  }

  lemma SumOfAccounts(p: Progress, first: seq<Call>, later: seq<Call>)
    ensures Sum(Sum(p, Accounted(first)), Accounted(later)) == Sum(p, Accounted(first + later))
  {
    hide *;
    AnsweredJoin(first, later);
    SumsAreAssociative(p, first, later);
  }

  lemma SumsAreAssociative(p: Progress, first: seq<Call>, later: seq<Call>)
    requires Refused(first + later) == Refused(first) + Refused(later)
    requires AnsweredUnits(first + later) == AnsweredUnits(first) + AnsweredUnits(later)
    requires AnsweredRecords(first + later) == AnsweredRecords(first) + AnsweredRecords(later)
    requires AnsweredRejections(first + later) == AnsweredRejections(first) + AnsweredRejections(later)
    ensures Sum(Sum(p, Accounted(first)), Accounted(later)) == Sum(p, Accounted(first + later))
  {
    Regroup(p.records, AnsweredRecords(first), AnsweredRecords(later));
  }

  /**
   * A run returns what its answered calls gave and nothing else: their records in the
   * order of the batches, their rejections, and one recovery for each refused call.
   */
  lemma {:induction false} RunIsAccounted(attempt: Attempt, batches: seq<Batch>, p: Progress) returns (calls: seq<Call>)
    requires RunFrom(attempt, batches, p).Some?
    ensures IsJournal(attempt, batches, calls) && AnsweredUnits(calls) == Flatten(batches)
    ensures RunFrom(attempt, batches, p) == Some(Sum(p, Accounted(calls)))
    decreases |batches|
  {
    if batches == [] {
      calls := [];
      assert p.records + [] == p.records;
    } else {
      hide Accounted, Sum, AreMade, WorksOff;
      var next := CaptureBatch(attempt, batches[0], p).value;
      var first := BatchIsAccounted(attempt, batches[0], p);
      var later := RunIsAccounted(attempt, batches[1..], next);
      calls := first + later;
      AnsweredJoin(first, later);
      JournalOneMore(attempt, batches, first, later);
      SumOfAccounts(p, first, later);
    }
  }

  /** The result of a whole run, told by the calls behind it. */
  ghost predicate IsResultOf(attempt: Attempt, batches: seq<Batch>, p: Progress) {
    exists calls :: && IsJournal(attempt, batches, calls) && AnsweredUnits(calls) == Flatten(batches)
                    && p == Progress(AnsweredRecords(calls), |Flatten(batches)|, AnsweredRejections(calls), Refused(calls))
  }

  lemma WholeRunIsAccounted(attempt: Attempt, batches: seq<Batch>)
    requires RunFrom(attempt, batches, START).Some?
    ensures IsResultOf(attempt, batches, RunFrom(attempt, batches, START).value)
  {
    hide RunFrom, IsJournal, AnsweredUnits, AnsweredRecords, AnsweredRejections, Refused, Flatten;
    var calls := RunIsAccounted(attempt, batches, START);
    assert [] + AnsweredRecords(calls) == AnsweredRecords(calls);
  }

  /** The answers determine the calls, and so the result. */
  lemma {:induction false} JournalIsUnique(attempt: Attempt, batches: seq<Batch>, a: seq<Call>, b: seq<Call>)
    requires IsJournal(attempt, batches, a) && IsJournal(attempt, batches, b)
    ensures a == b
    decreases |batches|
  {
    hide AreMade, WorksOff;
    if batches != [] {
      var m :| && 0 <= m <= |a| && AreMade(attempt, a[..m], 0) && WorksOff(a[..m], [batches[0]], true)
               && IsJournal(attempt, batches[1..], a[m..]);
      var n :| && 0 <= n <= |b| && AreMade(attempt, b[..n], 0) && WorksOff(b[..n], [batches[0]], true)
               && IsJournal(attempt, batches[1..], b[n..]);
      JournalIsDetermined(attempt, a[..m], b[..n], [batches[0]], 0, true, true);
      JournalIsUnique(attempt, batches[1..], a[m..], b[n..]);
      assert a == a[..m] + a[m..] && b == b[..n] + b[n..];
    }
  }

  lemma ResultIsUnique(attempt: Attempt, batches: seq<Batch>, p: Progress, q: Progress)
    requires IsResultOf(attempt, batches, p) && IsResultOf(attempt, batches, q)
    ensures p == q
  {
    hide IsJournal;
    var a :| && IsJournal(attempt, batches, a) && AnsweredUnits(a) == Flatten(batches)
             && p == Progress(AnsweredRecords(a), |Flatten(batches)|, AnsweredRejections(a), Refused(a));
    var b :| && IsJournal(attempt, batches, b) && AnsweredUnits(b) == Flatten(batches)
             && q == Progress(AnsweredRecords(b), |Flatten(batches)|, AnsweredRejections(b), Refused(b));
    JournalIsUnique(attempt, batches, a, b);
  }

  /** A run fails exactly when some batch cannot be worked off. */
  lemma {:induction false} RunSucceedsWhen(attempt: Attempt, batches: seq<Batch>, p: Progress)
    ensures RunFrom(attempt, batches, p).Some? <==> exists calls :: IsJournal(attempt, batches, calls)
    decreases |batches|
  {
    hide AreMade, WorksOff;
    if RunFrom(attempt, batches, p).Some? {
      var calls := RunIsAccounted(attempt, batches, p);
    }
    if calls :| batches != [] && IsJournal(attempt, batches, calls) {
      var n :| && 0 <= n <= |calls| && AreMade(attempt, calls[..n], 0) && WorksOff(calls[..n], [batches[0]], true)
               && IsJournal(attempt, batches[1..], calls[n..]);
      var made := BatchHasAJournal(attempt, batches[0], 0);
      JournalIsDetermined(attempt, made, calls[..n], [batches[0]], 0, CaptureValidated(attempt, batches[0], 0).outcome.Some?, true);
      var later := calls[n..];
      RunSucceedsWhen(attempt, batches[1..], CaptureBatch(attempt, batches[0], p).value);
      assert IsJournal(attempt, batches[1..], later);
    }
  }

  // ---- what is true of its records ----

  /** A run that got through `k` batches has settled records of exactly their units. */
  lemma {:induction false} RunIsSettled(fold: string -> string, attempt: Attempt, batches: seq<Batch>, k: nat)
    requires Screens(fold, attempt) && k <= |batches| && DistinctIds(Flatten(batches))
    requires RunFrom(attempt, batches[..k], START).Some?
    ensures var p := RunFrom(attempt, batches[..k], START).value;
      p.completed == |Flatten(batches[..k])| && Settled(fold, Flatten(batches[..k]), p.records)
  {
    if k == 0 {
      assert batches[..k] == [];
    } else {
      RunOneMore(attempt, batches, k - 1, START);
      RunIsSettled(fold, attempt, batches, k - 1);
      var done, batch, q := Flatten(batches[..k - 1]), batches[k - 1], RunFrom(attempt, batches[..k - 1], START).value;
      FlattenNext(batches, k - 1);
      FlattenParts(batches, k);
      DistinctSides(done + batch, Flatten(batches[k..]));
      DistinctSides(done, batch);
      CapturedIsSettled(fold, attempt, batch, 0);
      SettledJoin(fold, done, batch, q.records, CaptureValidated(attempt, batch, 0).outcome.value.records);
    }
  }

  lemma FlattenNext(batches: seq<Batch>, k: nat)
    requires k < |batches|
    ensures Flatten(batches[..k + 1]) == Flatten(batches[..k]) + batches[k]
  {
    assert batches[..k + 1] == batches[..k] + [batches[k]];
    FlattenJoin(batches[..k], [batches[k]]);
    assert batches[k] + [] == batches[k];
  }

  lemma FlattenParts(batches: seq<Batch>, k: nat)
    requires k <= |batches|
    ensures Flatten(batches) == Flatten(batches[..k]) + Flatten(batches[k..])
    ensures Flatten(batches)[..|Flatten(batches[..k])|] == Flatten(batches[..k])
  {
    assert batches == batches[..k] + batches[k..];
    FlattenJoin(batches[..k], batches[k..]);
  }

  // ---- checkpoints ----

  datatype CacheEntry = CacheEntry(
    digest: string,
    records: seq<RawRecord>,
    units: int,
    completed: int,
    complete: bool,
    recoveries: int,
    rejections: int)

  function Checkpoint(digest: string, total: nat, p: Progress): CacheEntry {
    CacheEntry(digest, StoredAll(p.records), total, p.completed, p.completed == total, p.recoveries, p.rejections)
  }

  predicate IsEntry(entry: CacheEntry, digest: string) {
    && entry.digest == digest
    && entry.recoveries >= 0 && entry.rejections >= 0
    && 0 <= entry.completed <= entry.units
    && entry.complete == (entry.completed == entry.units)
  }

  /** What the cache has for a question whose sources have this digest. */
  function Found(questions: map<string, CacheEntry>, question: string, digest: string): Result<Option<CacheEntry>, CaptureError> {
    if question !in questions then Ok(None)
    else if IsEntry(questions[question], digest) then Ok(Some(questions[question]))
    else Err(EntryInvalid)
  }

  /**
   * A stored checkpoint is found again, under its own digest only, and storing it
   * changes what is found for no other question.
   */
  lemma CheckpointIsFoundAgain(questions: map<string, CacheEntry>, question: string, digest: string, total: nat, p: Progress,
                               other: string, otherDigest: string)
    requires p.completed <= total
    ensures var stored := questions[question := Checkpoint(digest, total, p)];
      && Found(stored, question, digest) == Ok(Some(Checkpoint(digest, total, p)))
      && (otherDigest != digest ==> Found(stored, question, otherDigest) == Err(EntryInvalid))
      && (other != question ==> Found(stored, other, otherDigest) == Found(questions, other, otherDigest))
  {
  }

  /** An entry that is found belongs to the digest and counts what was completed. */
  lemma FoundIsConsistent(questions: map<string, CacheEntry>, question: string, digest: string, entry: CacheEntry)
    ensures Found(questions, question, digest) == Ok(Some(entry)) <==>
      && question in questions && questions[question] == entry && entry.digest == digest
      && 0 <= entry.completed <= entry.units && (entry.complete <==> entry.completed == entry.units)
      && entry.recoveries >= 0 && entry.rejections >= 0
    ensures Found(questions, question, digest) == Ok(None) <==> question !in questions
  {
  }

  /** The owner-only cache of captured questions. */
  class CaptureCache {
    var questions: map<string, CacheEntry>

    constructor ()
      ensures questions == map[]
    {
      questions := map[];
    }

    method Get(question: string, digest: string) returns (found: Result<Option<CacheEntry>, CaptureError>)
      ensures found == Found(questions, question, digest)
    {
      if question !in questions {
        return Ok(None);
      }
      var entry := questions[question];
      return if IsEntry(entry, digest) then Ok(Some(entry)) else Err(EntryInvalid);
    }

    method Put(question: string, entry: CacheEntry)
      modifies this
      ensures questions == old(questions)[question := entry]
    {
      questions := questions[question := entry];
    }
  }

  /** `completed` is the size of the first `k` batches and of no fewer. */
  ghost predicate IsBoundary(batches: seq<Batch>, completed: int, k: nat) {
    && k <= |batches|
    && completed == |Flatten(batches[..k])|
    && forall j :: 0 <= j < k ==> |Flatten(batches[..j])| < completed
  }

  /** The scan finds the batch boundary, or there is none. */
  method FindPending(batches: seq<Batch>, completed: int) returns (first: Option<nat>)
    ensures first.Some? ==> IsBoundary(batches, completed, first.value)
    ensures first.None? ==> forall k :: 0 <= k <= |batches| ==> |Flatten(batches[..k])| != completed
  {
    var consumed, pending := 0, |batches|;
    ghost var scanned := 0;
    for index := 0 to |batches|
      invariant scanned == index && pending == |batches| && consumed == |Flatten(batches[..index])|
      invariant forall j :: 0 <= j < index ==> |Flatten(batches[..j])| != completed && |Flatten(batches[..j])| < consumed
    {
      if consumed == completed {
        pending := index;
        break;
      }
      FlattenNext(batches, index);
      consumed := consumed + |batches[index]|;
      scanned := index + 1;
    }
    if consumed != completed {
      assert batches[..|batches|] == batches;
      return None;
    }
    return Some(pending);
  }

  // ---- resuming ----

  ghost predicate IsCheckpointOf(attempt: Attempt, entry: CacheEntry, batches: seq<Batch>, digest: string, k: nat) {
    && k <= |batches|
    && RunFrom(attempt, batches[..k], START).Some?
    && entry == Checkpoint(digest, |Flatten(batches)|, RunFrom(attempt, batches[..k], START).value)
  }

  /** Batches are not empty, so every boundary belongs to one number of batches. */
  lemma {:induction false} BoundariesGrow(batches: seq<Batch>, j: nat, k: nat)
    requires j < k <= |batches|
    ensures |Flatten(batches[..j])| < |Flatten(batches[..k])|
    decreases k
  {
    FlattenNext(batches, k - 1);
    if j < k - 1 {
      BoundariesGrow(batches, j, k - 1);
    }
  }

  lemma BoundaryIsUnique(batches: seq<Batch>, completed: int, j: nat, k: nat)
    requires j <= |batches| && k <= |batches|
    requires completed == |Flatten(batches[..j])| == |Flatten(batches[..k])|
    ensures j == k
  {
    if j < k {
      BoundariesGrow(batches, j, k);
    } else if k < j {
      BoundariesGrow(batches, k, j);
    }
  }

  /** Every check on a cached entry passes on a checkpoint, and its records come back as they were. */
  lemma CheckpointIsAccepted(fold: string -> string, attempt: Attempt, entry: CacheEntry, batches: seq<Batch>, digest: string, k: nat)
    requires Screens(fold, attempt) && DistinctIds(Flatten(batches))
    requires IsCheckpointOf(attempt, entry, batches, digest, k)
    ensures IsEntry(entry, digest) && entry.units == |Flatten(batches)| && entry.completed == |Flatten(batches[..k])|
    ensures Screen(fold, Records(entry.records), Flatten(batches)[..entry.completed])
         == Some(Screened(RunFrom(attempt, batches[..k], START).value.records, 0))
  {
    var p, done := RunFrom(attempt, batches[..k], START).value, Flatten(batches[..k]);
    RunIsSettled(fold, attempt, batches, k);
    FlattenParts(batches, k);
    DistinctSides(done, Flatten(batches[k..]));
    RevalidationIsTheIdentity(fold, done, p.records);
  }

  /** Where a cached entry lets the run go on, or why it is refused. */
  method Resume(fold: string -> string, entry: CacheEntry, batches: seq<Batch>, ghost attempt: Attempt, ghost digest: string, ghost k: nat)
    returns (resumed: Result<(Progress, nat), CaptureError>)
    requires IsEntry(entry, digest) && Screens(fold, attempt) && DistinctIds(Flatten(batches))
    ensures resumed.Ok? ==>
      && entry.units == |Flatten(batches)| && IsBoundary(batches, entry.completed, resumed.value.1)
      && resumed.value.0 == Progress(resumed.value.0.records, entry.completed, entry.rejections, entry.recoveries)
      && Settled(fold, Flatten(batches)[..entry.completed], resumed.value.0.records)
    ensures resumed == Err(PartitionChanged) <==> entry.units != |Flatten(batches)|
    ensures entry.units == |Flatten(batches)| ==>
      var screened := Screen(fold, Records(entry.records), Flatten(batches)[..entry.completed]);
      && (resumed == Err(RecordsInvalid) <==> screened.None?)
      && (resumed == Err(CopiedRecord) <==> screened.Some? && screened.value.rejectedVerbatim != 0)
      && (resumed == Err(NotOnBoundary) <==> screened.Some? && screened.value.rejectedVerbatim == 0
                                             && forall j :: 0 <= j <= |batches| ==> |Flatten(batches[..j])| != entry.completed)
      && (resumed.Ok? ==> screened == Some(Screened(resumed.value.0.records, 0)))
    ensures IsCheckpointOf(attempt, entry, batches, digest, k) ==>
      resumed == Ok((RunFrom(attempt, batches[..k], START).value, k))
  {
    if IsCheckpointOf(attempt, entry, batches, digest, k) {
      CheckpointIsAccepted(fold, attempt, entry, batches, digest, k);
    }
    var units := Flatten(batches);
    if entry.units != |units| {
      return Err(PartitionChanged);
    }
    var done := units[..entry.completed];
    var screened := ScreenRecords(fold, Records(entry.records), done);
    if screened.None? {
      return Err(RecordsInvalid);
    }
    ScreenedIsSettled(fold, Records(entry.records), done);
    if screened.value.rejectedVerbatim != 0 {
      return Err(CopiedRecord);
    }
    var first := FindPending(batches, entry.completed);
    if first.None? {
      return Err(NotOnBoundary);
    }
    if IsCheckpointOf(attempt, entry, batches, digest, k) {
      BoundaryIsUnique(batches, entry.completed, first.value, k);
    }
    return Ok((Progress(screened.value.records, entry.completed, entry.rejections, entry.recoveries), first.value));
  }

  /** What a run of this question leaves in the cache when it stops after `k` batches. */
  ghost predicate StoppedAfter(attempt: Attempt, questions: map<string, CacheEntry>, question: string, digest: string,
                               batches: seq<Batch>, k: nat)
  {
    && k <= |batches|
    && RunFrom(attempt, batches[..k], START).Some?
    && if question in questions then IsCheckpointOf(attempt, questions[question], batches, digest, k) else k == 0
  }

  /** The progress and batch to go on from: those where the earlier run stopped. */
  method FindStart(cache: CaptureCache, question: string, digest: string, fold: string -> string, ghost attempt: Attempt,
                   batches: seq<Batch>, ghost k: nat)
    returns (p: Progress, first: nat)
    requires Screens(fold, attempt) && DistinctIds(Flatten(batches))
    requires StoppedAfter(attempt, cache.questions, question, digest, batches, k)
    ensures first == k && RunFrom(attempt, batches[..k], START) == Some(p)
  {
    assert batches[..0] == [];
    p, first := START, 0;
    if question in cache.questions {
      CheckpointIsAccepted(fold, attempt, cache.questions[question], batches, digest, k);
    }
    var cached := cache.Get(question, digest);
    if cached.value.Some? {
      var resumed := Resume(fold, cached.value.value, batches, attempt, digest, k);
      p, first := resumed.value.0, resumed.value.1;
    }
  }

  /** One batch: captured, counted and checkpointed; a failure leaves the cache as it was. */
  method RunBatch(cache: CaptureCache, question: string, digest: string, attempt: Attempt, batches: seq<Batch>, k: nat, p: Progress)
    returns (next: Option<Progress>)
    requires k < |batches| && RunFrom(attempt, batches[..k], START) == Some(p)
    modifies cache
    ensures next == RunFrom(attempt, batches[..k + 1], START)
    ensures next.Some? ==> StoppedAfter(attempt, cache.questions, question, digest, batches, k + 1)
    ensures next.None? ==> cache.questions == old(cache.questions)
    ensures cache.questions - {question} == old(cache.questions) - {question}
  {
    RunOneMore(attempt, batches, k, START);
    next := CaptureBatch(attempt, batches[k], p);
    if next.Some? {
      cache.Put(question, Checkpoint(digest, |Flatten(batches)|, next.value));
    }
  }

  /**
   * The capture of a question. Wherever an earlier run of it stopped, the result is
   * that of an uninterrupted run, and if it stops again the cache says where.
   */
  method RunQuestion(cache: CaptureCache, question: string, digest: string, fold: string -> string, attempt: Attempt,
                     batches: seq<Batch>, ghost k: nat)
    returns (result: Result<Progress, CaptureError>, ghost reached: nat)
    requires Screens(fold, attempt) && DistinctIds(Flatten(batches))
    requires StoppedAfter(attempt, cache.questions, question, digest, batches, k)
    modifies cache
    ensures match RunFrom(attempt, batches, START)
            case Some(p) => result == Ok(p) && reached == |batches| && p.completed == |Flatten(batches)| && IsResultOf(attempt, batches, p)
            case None => result == Err(CaptureInvalid)
    ensures k <= reached && StoppedAfter(attempt, cache.questions, question, digest, batches, reached)
    ensures cache.questions - {question} == old(cache.questions) - {question}
  {
    assert batches[..|batches|] == batches;
    var p, first := FindStart(cache, question, digest, fold, attempt, batches, k);
    reached := k;
    for index := first to |batches|
      invariant reached == index && RunFrom(attempt, batches[..index], START) == Some(p)
      invariant StoppedAfter(attempt, cache.questions, question, digest, batches, index)
      invariant cache.questions - {question} == old(cache.questions) - {question}
    {
      RunInTwoParts(attempt, batches, index + 1, START);
      var next := RunBatch(cache, question, digest, attempt, batches, index, p);
      if next.None? {
        return Err(CaptureInvalid), index;
      }
      p, reached := next.value, index + 1;
    }
    RunIsSettled(fold, attempt, batches, |batches|);
    WholeRunIsAccounted(attempt, batches);
    return Ok(p), reached;
  }

  // ---- from the sessions ----

  datatype QuestionError = Partition(partition: PartitionError) | Capture(capture: CaptureError)

  /** The batches of units with distinct identifiers that all fit: not empty, and together these units. */
  lemma BatchesAreReady(width: CaptureUnit -> nat, units: seq<CaptureUnit>)
    requires DistinctIds(units) && EveryUnitFits(width, units)
    ensures forall i :: 0 <= i < |Batches(width, units)| ==> |Batches(width, units)[i]| >= 1
    ensures Flatten(Batches(width, units)) == units && DistinctIds(Flatten(Batches(width, units)))
  {
    BatchesAreAShortestCut(width, units);
  }

  ghost predicate CanPartition(unitId: (string, nat) -> string, width: CaptureUnit -> nat, sessions: seq<Session>) {
    var units := UnitsOf(unitId, sessions);
    DistinctIds(units) && |units| <= MAX_CAPTURE_UNITS_PER_QUESTION && EveryUnitFits(width, units)
  }

  ghost function BatchesOf(unitId: (string, nat) -> string, width: CaptureUnit -> nat, sessions: seq<Session>): seq<Batch>
    requires CanPartition(unitId, width, sessions)
  {
    BatchesAreReady(width, UnitsOf(unitId, sessions));
    Batches(width, UnitsOf(unitId, sessions))
  }

  /**
   * A question from its sessions to its records: it fails exactly when they cannot be
   * cut or a batch cannot be captured, and otherwise every unit of every session was
   * captured, wherever an earlier run stopped.
   */
  method CaptureQuestion(cache: CaptureCache, question: string, digest: string, fold: string -> string, attempt: Attempt,
                         unitId: (string, nat) -> string, width: CaptureUnit -> nat, sessions: seq<Session>, ghost k: nat)
    returns (result: Result<Progress, QuestionError>, ghost reached: nat)
    requires Screens(fold, attempt)
    requires CanPartition(unitId, width, sessions) ==>
      StoppedAfter(attempt, cache.questions, question, digest, BatchesOf(unitId, width, sessions), k)
    modifies cache
    ensures !CanPartition(unitId, width, sessions) ==> result.Err? && result.error.Partition? && cache.questions == old(cache.questions)
    ensures CanPartition(unitId, width, sessions) ==>
      var batches := BatchesOf(unitId, width, sessions);
      && StoppedAfter(attempt, cache.questions, question, digest, batches, reached) && k <= reached
      && match RunFrom(attempt, batches, START)
         case Some(p) => && result == Ok(p) && p.completed == |UnitsOf(unitId, sessions)|
                         && Settled(fold, UnitsOf(unitId, sessions), p.records) && IsResultOf(attempt, batches, p)
         case None => result == Err(Capture(CaptureInvalid))
    ensures cache.questions - {question} == old(cache.questions) - {question}
  {
    var partition := CaptureBatches(unitId, width, sessions);
    reached := k;
    if partition.Err? {
      return Err(Partition(partition.error)), reached;
    }
    ghost var units := UnitsOf(unitId, sessions);
    BatchesAreReady(width, units);
    var batches: seq<Batch> := partition.value.0;
    var captured;
    captured, reached := RunQuestion(cache, question, digest, fold, attempt, batches, k);
    if captured.Err? {
      return Err(Capture(captured.error)), reached;
    }
    assert batches[..|batches|] == batches;
    RunIsSettled(fold, attempt, batches, |batches|);
    return Ok(captured.value), reached;
  }
}
