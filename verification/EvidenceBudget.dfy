/** Fitting the evidence into the host's budget, by changing its records and counters in place. */
module EvidenceBudget {
  import opened Outcomes
  import opened Sequences
  import opened Decimals
  import opened TokenEstimate
  import opened SafeJson
  import opened EvidenceText
  import opened EvidenceOmission
  import opened EvidenceReading

  /** At least one token, a third of the bytes rounded up. */
  function EstimateTokens(output: string): nat {
    var tokens := CeilThird(Utf8Length(output));
    if tokens < 1 then 1 else tokens
  }

  predicate WithinBudget(output: string) {
    |output| <= MAX_PREFLIGHT_CONTEXT_CHARS && EstimateTokens(output) <= MAX_PREFLIGHT_ESTIMATED_TOKENS
  }

  datatype RenderError = AccountingInvalid | OverBudget

  /** What the host's renderer makes of signed evidence. */
  function RenderPreflightEvidence(e: Envelope): Result<string, RenderError>
    requires e.Shaped()
  {
    var output := Render(e);
    if e.estimated != EstimateTokens(output) then Err(AccountingInvalid)
    else if !WithinBudget(output) then Err(OverBudget)
    else Ok(output)
  }

  lemma EstimateOfRendering(e: Envelope)
    requires e.Shaped()
    ensures EstimateTokens(Render(e)) == Next(BaseLength(e), e.estimated)
  {
    RenderedLength(e);
    AsciiBytes(Render(e));
  }

  lemma EstimateOfRevision(e: Envelope, n: nat)
    requires e.Shaped()
    ensures EstimateTokens(Render(e.(estimated := n))) == Next(BaseLength(e), n)
  {
    EstimateOfRendering(e.(estimated := n));
  }

  /** A rendering that carries its own exact estimate is accepted exactly when its other text fits. */
  lemma AcceptedWhenItFits(e: Envelope)
    requires e.Shaped() && Exact(BaseLength(e), e.estimated)
    ensures WithinBudget(Render(e)) <==> Fits(e)
    ensures Accepted(e) <==> Fits(e)
  {
    EstimateOfRendering(e);
    RenderedLength(e);
    WithinLimitByBase(BaseLength(e), e.estimated);
    AsciiBytes(Render(e));
    if e.estimated <= MAX_PREFLIGHT_ESTIMATED_TOKENS {
      TokenLimitIsTheTighter(|Render(e)|);
    }
  }

  /** Which refusal the host gives: a wrong estimate first, then a text that does not fit. */
  lemma RefusalIs(e: Envelope)
    requires e.Shaped()
    ensures RenderPreflightEvidence(e) == Err(AccountingInvalid) <==> !Exact(BaseLength(e), e.estimated)
    ensures RenderPreflightEvidence(e) == Err(OverBudget) <==> Exact(BaseLength(e), e.estimated) && !Fits(e)
    ensures RenderPreflightEvidence(e).Ok? <==> Exact(BaseLength(e), e.estimated) && Fits(e)
  {
    hide Render, FixedLength;
    EstimateOfRendering(e);
    if Exact(BaseLength(e), e.estimated) {
      AcceptedWhenItFits(e);
    }
  }

  predicate Accepted(e: Envelope)
    requires e.Shaped()
  {
    RenderPreflightEvidence(e) == Ok(Render(e))
  }

  lemma RevisionFits(candidate: Envelope, n: nat)
    requires candidate.Shaped() && Exact(BaseLength(candidate), n)
    ensures WithinBudget(Render(candidate.(estimated := n))) <==> Fits(candidate)
    ensures Accepted(candidate.(estimated := n)) <==> Fits(candidate)
  {
    hide Render, MembersSize, RecordRest;
    AcceptedWhenItFits(candidate.(estimated := n));
  }

  class EvidenceRecord {
    const before: seq<Member>
    const charCount: nat
    const after: seq<Member>
    var payload: Option<string>
    var reason: Option<Reason>

    constructor (before: seq<Member>, payload: Option<string>, charCount: nat, reason: Option<Reason>, after: seq<Member>)
      ensures Value() == RecordValue(before, payload, charCount, reason, after)
    {
      this.before, this.charCount, this.after := before, charCount, after;
      this.payload, this.reason := payload, reason;
    }

    function Value(): RecordValue
      reads this
    {
      RecordValue(before, payload, charCount, reason, after)
    }
  }

  class PreflightEvidence {
    const frame: Envelope      // the text around the records and counters, which never changes
    const records: seq<EvidenceRecord>
    var estimatedTokens: nat
    var payloadsOmitted: nat

    constructor (frame: Envelope, records: seq<EvidenceRecord>)
      requires frame.(records := seq(|records|, i requires 0 <= i < |records| reads records => records[i].Value())).Shaped()
      requires Distinct(records)
      ensures Valid() && this.records == records && fresh(this)
      ensures Value() == frame.(records := RecordValues(), estimated := 0, omitted := 0)
    {
      this.frame, this.records := frame, records;
      estimatedTokens, payloadsOmitted := 0, 0;
    }

    ghost function RecordValues(): (values: seq<RecordValue>)
      reads records
      ensures |values| == |records| && forall i :: 0 <= i < |records| ==> values[i] == records[i].Value()
    {
      seq(|records|, i requires 0 <= i < |records| reads records => records[i].Value())
    }

    ghost function Value(): Envelope
      reads this, records
    {
      frame.(records := RecordValues(), estimated := estimatedTokens, omitted := payloadsOmitted)
    }

    ghost predicate Valid()
      reads this, records
    {
      Value().Shaped() && Distinct(records)
    }

    /** `_render_preflight_output` on the current state. */
    method RenderOutput() returns (output: string)
      requires Valid()
      ensures output == Render(Value())
      ensures IsDocument(Value()) ==>
        ReadEvidence(output) == Some(Reading(Value().EvidenceList(), Value().RootList(), Value().ResultList(), estimatedTokens, payloadsOmitted))
    {
      var values: seq<RecordValue> := [];
      for i := 0 to |records|
        invariant values == RecordValues()[..i]
      {
        values := values + [records[i].Value()];
      }
      assert values == RecordValues();
      output := Render(frame.(records := values, estimated := estimatedTokens, omitted := payloadsOmitted));
      if IsDocument(Value()) {
        EvidenceReadsBack(Value());
      }
    }

    method CountOmitted() returns (count: nat)
      ensures count == Reasons(RecordValues())
    {
      count := 0;
      var i := |records|;
      while i > 0
        invariant 0 <= i <= |records|
        invariant count == Reasons(RecordValues()[i..])
      {
        i := i - 1;
        assert RecordValues()[i..] == [RecordValues()[i]] + RecordValues()[i + 1..];
        if records[i].reason.Some? {
          count := count + 1;
        }
      }
      assert RecordValues()[0..] == RecordValues();
    }

    /**
     * Recounts the omissions and iterates the estimate to one the rendering agrees
     * with; `None` when the rounds run out first.
     */
    method Refresh(rounds: nat, ghost counted: Envelope) returns (output: Option<string>)
      requires Valid() && counted.Shaped() && Counted(Value()) == counted.(estimated := estimatedTokens)
      modifies this
      ensures Valid() && Value() == counted.(estimated := estimatedTokens)
      ensures Settled(counted, old(estimatedTokens), rounds, estimatedTokens, output)
    {
      hide FixedLength, Render;
      Recount(counted);
      ghost var base, start := BaseLength(counted), estimatedTokens;
      for round := 0 to rounds
        invariant Value() == counted.(estimated := estimatedTokens)
        invariant Settle(base, estimatedTokens, rounds - round) == Settle(base, start, rounds)
      {
        output := Round(counted);
        if output.Some? {
          return;
        }
      }
      return None;
    }

    /** One round: the rendering if it agrees with the estimate, and the next estimate otherwise. */
    method Round(ghost counted: Envelope) returns (output: Option<string>)
      requires Valid() && counted.Shaped() && Value() == counted.(estimated := estimatedTokens)
      modifies this`estimatedTokens
      ensures Value() == counted.(estimated := estimatedTokens)
      ensures estimatedTokens == Next(BaseLength(counted), old(estimatedTokens))
      ensures output == if estimatedTokens == old(estimatedTokens) then Some(Render(counted.(estimated := estimatedTokens))) else None
    {
      hide FixedLength, Render;
      var text, tokens := Measure(counted);
      if estimatedTokens == tokens {
        return Some(text);
      }
      estimatedTokens := tokens;
      return None;
    }

    method Recount(ghost counted: Envelope)
      requires Valid() && counted.Shaped() && Counted(Value()) == counted.(estimated := estimatedTokens)
      modifies this`payloadsOmitted
      ensures Value() == counted.(estimated := estimatedTokens)
    {
      payloadsOmitted := CountOmitted();
    }

    method Measure(ghost counted: Envelope) returns (text: string, tokens: nat)
      requires Valid() && counted.Shaped() && Value() == counted.(estimated := estimatedTokens)
      ensures text == Render(counted.(estimated := estimatedTokens))
      ensures tokens == Next(BaseLength(counted), estimatedTokens)
    {
      text := RenderOutput();
      EstimateOfRevision(counted, estimatedTokens);
      tokens := EstimateTokens(text);
    }

    /** Refreshes the counters and tells whether the rendering is within the budget. */
    method Settles(rounds: nat, ghost candidate: Envelope) returns (fits: bool)
      requires Valid() && candidate.Shaped() && Counted(Value()) == candidate.(estimated := estimatedTokens)
      requires rounds >= 4 && Digits(estimatedTokens) <= BaseLength(candidate)
      modifies this
      ensures Valid() && Value() == candidate.(estimated := estimatedTokens)
      ensures Exact(BaseLength(candidate), estimatedTokens)
      ensures fits <==> Fits(candidate)
    {
      SettlesInFourRounds(BaseLength(candidate), estimatedTokens);
      MoreRoundsAgree(BaseLength(candidate), estimatedTokens, 4, rounds);
      var output := Refresh(rounds, candidate);
      RevisionFits(candidate, estimatedTokens);
      fits := WithinBudget(output.value);
    }

    method Omit(i: nat)
      requires Valid() && i < |records| && records[i].payload.Some?
      modifies records[i]
      ensures Valid()
      ensures Value() == old(Value()).(records := old(Value()).records[i := OmitPayload(old(Value()).records[i])])
    {
      ghost var before := RecordValues();
      records[i].payload := None;
      records[i].reason := Some(TokenBudget);
      assert RecordValues() == before[i := OmitPayload(before[i])];
    }

    /** One turn of the omission loop: the next record gives way if it still has a payload. */
    method GiveWay(i: nat, ghost before: Envelope, ghost k: nat) returns (fits: bool)
      requires Valid() && Compact(before) && k < |OrderOf(before)| && i == OrderOf(before)[k] && i < |records|
      requires ReachedBy(before, k, Value(), false)
      modifies this, records[i]
      ensures Valid() && ReachedBy(before, k + 1, Value(), fits)
    {
      hide FixedLength;
      OmissionStep(before, k);
      assert records[i].Value() == Candidate(before, k).records[i];
      if records[i].payload == None {
        return false;
      }
      StepStaysUsable(before, k, estimatedTokens);
      Omit(i);
      fits := Settles(ROUNDS, Candidate(before, k + 1));
    }

    /** The omission loop, for evidence that does not fit as it is. */
    method GiveWayInOrder(order: seq<nat>, ghost before: Envelope) returns (fits: bool, ghost prefix: nat)
      requires Valid() && Compact(before) && order == OrderOf(before) && |before.records| == |records|
      requires ReachedBy(before, 0, Value(), false)
      modifies this, records
      ensures Valid() && prefix <= |order| && ReachedBy(before, prefix, Value(), fits)
      ensures !fits ==> prefix == |order|
    {
      hide ReachedBy;
      prefix := 0;
      fits := false;
      for k := 0 to |order|
        invariant prefix == k && Valid() && ReachedBy(before, k, Value(), false)
      {
        prefix := k + 1;
        fits := GiveWay(order[k], before, k);
        if fits {
          return;
        }
      }
    }

    /**
     * On return the evidence is the input with exactly the payloads of the shortest
     * fitting prefix of the omission order omitted, its counters exact, and the
     * host's renderer accepts it. It fails only when no prefix fits.
     */
    method ApplyBudget() returns (fits: bool, ghost prefix: nat)
      requires Valid() && Compact(Value()) && Digits(estimatedTokens) <= BaseLength(Counted(Value()))
      modifies this, records
      ensures Valid() && prefix <= |OrderOf(old(Value()))| && ReachedBy(old(Value()), prefix, Value(), fits)
      ensures !fits ==> prefix == |OrderOf(old(Value()))|
      ensures fits <==> Accepted(Value())
    {
      hide FixedLength, Render;
      ghost var before := Value();
      var sizes := seq(|records|, i requires 0 <= i < |records| => records[i].charCount);
      assert sizes == Sizes(before.records);
      var order := OmissionOrder(sizes, frame.results, frame.roots);
      fits := Settles(ROUNDS, Candidate(before, 0));
      prefix := 0;
      if !fits {
        fits, prefix := GiveWayInOrder(order, before);
      }
      RevisionFits(Candidate(before, prefix), estimatedTokens);
    }
  }

  /** What a refresh answers: the settled estimate with its rendering, or nothing. */
  ghost predicate Settled(counted: Envelope, start: nat, rounds: nat, estimate: nat, output: Option<string>)
    requires counted.Shaped()
  {
    match Settle(BaseLength(counted), start, rounds)
    case None => output == None
    case Some(n) => estimate == n && output == Some(Render(counted.(estimated := n)))
  }

  /**
   * The evidence is the input after the first `k` records of the omission order gave
   * way, with exact counters, no shorter prefix fits, and `k` records suffice exactly
   * when `fits`.
   */
  ghost predicate ReachedBy(before: Envelope, k: nat, after: Envelope, fits: bool)
    requires before.Shaped() && k <= |OrderOf(before)|
  {
    && after == Candidate(before, k).(estimated := after.estimated)
    && Exact(BaseLength(Candidate(before, k)), after.estimated)
    && (forall j :: 0 <= j < k ==> !Fits(Candidate(before, j)))
    && (fits <==> Fits(Candidate(before, k)))
  }

  // ---- what the host reads ----

  /** Omissions change no key of a record. */
  lemma {:induction false} PrefixKeepsRecords(rs: seq<RecordValue>, order: seq<nat>, k: nat)
    requires k <= |order| && forall a :: 0 <= a < |order| ==> order[a] < |rs|
    requires forall i :: 0 <= i < |rs| ==> IsRecord(rs[i])
    ensures forall i :: 0 <= i < |rs| ==> IsRecord(OmitPrefix(rs, order, k)[i])
  {
    if k > 0 {
      PrefixKeepsRecords(rs, order, k - 1);
    }
  }

  /**
   * Once the budget is applied, what the host's renderer gives out is read as the
   * records of the input, in their lists and order, of which exactly those that gave
   * way show the omission, with the number of reasons and the exact estimate.
   */
  lemma HostReadsTheBudgeted(before: Envelope, k: nat, after: Envelope)
    requires Compact(before) && IsDocument(before) && k <= |OrderOf(before)| && ReachedBy(before, k, after, true)
    ensures after.Shaped() && RenderPreflightEvidence(after).Ok?
    ensures var rs := OmitPrefix(before.records, OrderOf(before), k);
      ReadEvidence(RenderPreflightEvidence(after).value)
      == Some(Reading(rs[before.results + before.roots..], rs[before.results..before.results + before.roots], rs[..before.results],
                      after.estimated, |set i | 0 <= i < |rs| && rs[i].reason.Some?|))
  {
    hide Render, FixedLength, OrderOf, OmitPrefix, ReadEvidence, Reasons, IsRecord, BaseLength, Exact, Fits;
    var rs := OmitPrefix(before.records, OrderOf(before), k);
    PrefixKeepsRecords(before.records, OrderOf(before), k);
    ReasonsAreCounted(rs);
    RevisionFits(Candidate(before, k), after.estimated);
    EvidenceReadsBack(after);
  }
}
