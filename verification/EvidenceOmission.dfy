/** Which payloads give way, in which order, and what each omission does to the length. */
module EvidenceOmission {
  import opened Outcomes
  import opened Decimals
  import opened TokenEstimate
  import opened SafeJson
  import opened EvidenceText
  import opened Sequences

  predicate CompactRecord(r: RecordValue) {
    r.payload.Some? ==> r.reason == None && |r.payload.value| <= MAX_PREFLIGHT_PAYLOAD_CHARS
  }

  predicate Compact(e: Envelope) {
    e.Shaped() && forall i :: 0 <= i < |e.records| ==> CompactRecord(e.records[i])
  }

  // ---- the omission order: context evidence, logic roots, results; larger payloads first ----

  /** Larger payloads first; among equals the earlier record first. */
  predicate Before(sizes: seq<nat>, i: nat, j: nat)
    requires i < |sizes| && j < |sizes|
  {
    sizes[i] > sizes[j] || (sizes[i] == sizes[j] && i < j)
  }

  ghost predicate InOrder(sizes: seq<nat>, order: seq<nat>) {
    && (forall a :: 0 <= a < |order| ==> order[a] < |sizes|)
    && (forall a, b :: 0 <= a < b < |order| ==> Before(sizes, order[a], order[b]))
  }

  function Insert(sizes: seq<nat>, i: nat, order: seq<nat>): seq<nat>
    requires i < |sizes| && forall a :: 0 <= a < |order| ==> order[a] < |sizes|
  {
    if order == [] then [i]
    else if sizes[i] >= sizes[order[0]] then [i] + order
    else [order[0]] + Insert(sizes, i, order[1..])
  }

  /** Python's stable sort of the records `from..end` by descending payload size. */
  function SortedGroup(sizes: seq<nat>, from: nat, end: nat): (order: seq<nat>)
    requires from <= end <= |sizes|
    ensures forall a :: 0 <= a < |order| ==> order[a] < |sizes|
    decreases end - from
  {
    if from == end then []
    else
      var later := SortedGroup(sizes, from + 1, end);
      InsertedMembers(sizes, from, later);
      Insert(sizes, from, later)
  }

  lemma {:induction false} InsertedMembers(sizes: seq<nat>, i: nat, order: seq<nat>)
    requires i < |sizes| && forall a :: 0 <= a < |order| ==> order[a] < |sizes|
    ensures |Insert(sizes, i, order)| == |order| + 1
    ensures forall x :: x in Insert(sizes, i, order) <==> x == i || x in order
    ensures forall a :: 0 <= a < |Insert(sizes, i, order)| ==> Insert(sizes, i, order)[a] < |sizes|
  {
    if order != [] && sizes[i] < sizes[order[0]] {
      InsertedMembers(sizes, i, order[1..]);
      assert order == [order[0]] + order[1..];
    }
    forall a | 0 <= a < |Insert(sizes, i, order)| ensures Insert(sizes, i, order)[a] < |sizes| {
      assert Insert(sizes, i, order)[a] in Insert(sizes, i, order);
    }
  }

  lemma {:induction false} InsertKeepsOrder(sizes: seq<nat>, i: nat, order: seq<nat>)
    requires i < |sizes| && InOrder(sizes, order) && forall a :: 0 <= a < |order| ==> i < order[a]
    ensures InOrder(sizes, Insert(sizes, i, order))
  {
    if order != [] && sizes[i] < sizes[order[0]] {
      var later := Insert(sizes, i, order[1..]);
      InsertKeepsOrder(sizes, i, order[1..]);
      InsertedMembers(sizes, i, order[1..]);
      forall b | 0 <= b < |later| ensures Before(sizes, order[0], later[b]) {
        assert later[b] in later;
        if later[b] != i {
          var c :| 0 <= c < |order[1..]| && order[1..][c] == later[b];
          assert Before(sizes, order[0], order[c + 1]);
        }
      }
    }
  }

  /** Each group is sorted by falling size, stably, and contains every record of the group once. */
  lemma {:induction false} GroupIsSorted(sizes: seq<nat>, from: nat, end: nat)
    requires from <= end <= |sizes|
    ensures InOrder(sizes, SortedGroup(sizes, from, end))
    ensures |SortedGroup(sizes, from, end)| == end - from
    ensures forall i :: i in SortedGroup(sizes, from, end) <==> from <= i < end
    decreases end - from
  {
    if from < end {
      GroupIsSorted(sizes, from + 1, end);
      var later := SortedGroup(sizes, from + 1, end);
      forall a | 0 <= a < |later| ensures from < later[a] {
        assert later[a] in later;
      }
      InsertKeepsOrder(sizes, from, later);
      InsertedMembers(sizes, from, later);
    }
  }

  function Sizes(rs: seq<RecordValue>): (sizes: seq<nat>)
    ensures |sizes| == |rs| && forall i :: 0 <= i < |rs| ==> sizes[i] == rs[i].charCount
  {
    seq(|rs|, i requires 0 <= i < |rs| => rs[i].charCount)
  }

  function OmissionOrder(sizes: seq<nat>, results: nat, roots: nat): (order: seq<nat>)
    requires results + roots <= |sizes|
    ensures forall a :: 0 <= a < |order| ==> order[a] < |sizes|
  {
    SortedGroup(sizes, results + roots, |sizes|) + SortedGroup(sizes, results, results + roots) + SortedGroup(sizes, 0, results)
  }

  function OrderOf(e: Envelope): (order: seq<nat>)
    requires e.Shaped()
    ensures forall a :: 0 <= a < |order| ==> order[a] < |e.records|
  {
    OmissionOrder(Sizes(e.records), e.results, e.roots)
  }

  /** Every record has its turn exactly once. */
  lemma OrderHasEveryRecordOnce(e: Envelope)
    requires e.Shaped()
    ensures |OrderOf(e)| == |e.records| && Distinct(OrderOf(e))
    ensures forall i :: i in OrderOf(e) <==> 0 <= i < |e.records|
  {
    var sizes, a, b := Sizes(e.records), e.results, e.results + e.roots;
    GroupIsSorted(sizes, b, |sizes|);
    GroupIsSorted(sizes, a, b);
    GroupIsSorted(sizes, 0, a);
    var evidence, roots, results := SortedGroup(sizes, b, |sizes|), SortedGroup(sizes, a, b), SortedGroup(sizes, 0, a);
    InOrderIsDistinct(sizes, evidence);
    InOrderIsDistinct(sizes, roots);
    InOrderIsDistinct(sizes, results);
    DistinctJoin(evidence, roots);
    DistinctJoin(evidence + roots, results);
  }

  /** Context evidence gives way first, then logic roots, then results. */
  function Turn(e: Envelope, i: nat): nat {
    if i < e.results then 2 else if i < e.results + e.roots then 1 else 0
  }

  /** Of two records the one whose turn is earlier comes first; in the same turn the larger, and of equals the earlier. */
  lemma OrderIsByTurn(e: Envelope, a: nat, b: nat)
    requires e.Shaped() && a < b < |OrderOf(e)|
    ensures var i, j := OrderOf(e)[a], OrderOf(e)[b];
      Turn(e, i) < Turn(e, j)
      || (Turn(e, i) == Turn(e, j)
          && (e.records[i].charCount > e.records[j].charCount || (e.records[i].charCount == e.records[j].charCount && i < j)))
  {
    hide SortedGroup, OrderOf;
    var sizes := Sizes(e.records);
    GroupIsSorted(sizes, e.results + e.roots, |sizes|);
    GroupIsSorted(sizes, e.results, e.results + e.roots);
    GroupIsSorted(sizes, 0, e.results);
    PlacedInGroup(e, a);
    PlacedInGroup(e, b);
  }

  /** Which group the record at a place of the order is from. */
  lemma PlacedInGroup(e: Envelope, a: nat)
    requires e.Shaped() && a < |OrderOf(e)|
    ensures var sizes := Sizes(e.records);
      var evidence := SortedGroup(sizes, e.results + e.roots, |sizes|);
      var roots, results := SortedGroup(sizes, e.results, e.results + e.roots), SortedGroup(sizes, 0, e.results);
      if a < |evidence| then OrderOf(e)[a] == evidence[a] && Turn(e, OrderOf(e)[a]) == 0
      else if a < |evidence| + |roots| then OrderOf(e)[a] == roots[a - |evidence|] && Turn(e, OrderOf(e)[a]) == 1
      else a - |evidence| - |roots| < |results| && OrderOf(e)[a] == results[a - |evidence| - |roots|] && Turn(e, OrderOf(e)[a]) == 2
  {
    hide SortedGroup;
    var sizes := Sizes(e.records);
    GroupIsSorted(sizes, e.results + e.roots, |sizes|);
    GroupIsSorted(sizes, e.results, e.results + e.roots);
    GroupIsSorted(sizes, 0, e.results);
    var evidence := SortedGroup(sizes, e.results + e.roots, |sizes|);
    var roots, results := SortedGroup(sizes, e.results, e.results + e.roots), SortedGroup(sizes, 0, e.results);
    assert OrderOf(e) == evidence + roots + results;
    if a < |evidence| {
      assert evidence[a] in evidence;
    } else if a < |evidence| + |roots| {
      assert roots[a - |evidence|] in roots;
    } else {
      assert results[a - |evidence| - |roots|] in results;
    }
  }

  lemma InOrderIsDistinct(sizes: seq<nat>, order: seq<nat>)
    requires InOrder(sizes, order)
    ensures Distinct(order)
  {
    forall a, b | 0 <= a < b < |order| ensures order[a] != order[b] {
      assert Before(sizes, order[a], order[b]);
    }
  }

  // ---- omitting ----

  function OmitPayload(r: RecordValue): RecordValue {
    if r.payload == None then r else r.(payload := None, reason := Some(TokenBudget))
  }

  function Reasons(rs: seq<RecordValue>): nat {
    if rs == [] then 0 else Tally(rs[0].reason.Some?) + Reasons(rs[1..])
  }

  lemma {:induction false} ReasonsOneMore(rs: seq<RecordValue>, r: RecordValue)
    ensures Reasons(rs + [r]) == Reasons(rs) + Tally(r.reason.Some?)
  {
    if rs == [] {
      assert [] + [r] == [r] && [r][1..] == [];
    } else {
      assert (rs + [r])[1..] == rs[1..] + [r];
      ReasonsOneMore(rs[1..], r);
    }
  }

  lemma {:induction false} ReasonsUpTo(rs: seq<RecordValue>, flags: seq<bool>, n: nat)
    requires n <= |rs| == |flags| && forall i :: 0 <= i < |rs| ==> flags[i] == rs[i].reason.Some?
    ensures Reasons(rs[..n]) == |set i | 0 <= i < n && flags[i]|
  {
    var all := set i | 0 <= i < n && flags[i];
    assert forall i :: i in all ==> 0 <= i < n;
    if n == 0 {
      assert all == {};
    } else {
      ReasonsUpTo(rs, flags, n - 1);
      ReasonsOneMore(rs[..n - 1], rs[n - 1]);
      assert rs[..n - 1] + [rs[n - 1]] == rs[..n];
      OneMoreCounted(flags, n - 1);
    }
  }

  /** The count is that of the records with a reason. */
  lemma ReasonsAreCounted(rs: seq<RecordValue>)
    ensures Reasons(rs) == |set i | 0 <= i < |rs| && rs[i].reason.Some?|
  {
    var flags := seq(|rs|, i requires 0 <= i < |rs| => rs[i].reason.Some?);
    ReasonsUpTo(rs, flags, |rs|);
    assert rs[..|rs|] == rs;
    assert (set i | 0 <= i < |rs| && rs[i].reason.Some?) == set i | 0 <= i < |rs| && flags[i];
  }

  function Counted(e: Envelope): (e': Envelope)
    ensures e.Shaped() ==> e'.Shaped()
  {
    e.(omitted := Reasons(e.records))
  }

  function OmitPrefix(rs: seq<RecordValue>, order: seq<nat>, k: nat): (rs': seq<RecordValue>)
    requires k <= |order| && forall a :: 0 <= a < |order| ==> order[a] < |rs|
    ensures |rs'| == |rs|
  {
    if k == 0 then rs
    else
      var earlier, i := OmitPrefix(rs, order, k - 1), order[k - 1];
      earlier[i := OmitPayload(earlier[i])]
  }

  /** What the evidence is once the first `k` records of the order have given way. */
  function Candidate(e: Envelope, k: nat): (c: Envelope)
    requires e.Shaped() && k <= |OrderOf(e)|
    ensures c.Shaped()
  {
    Counted(e.(records := OmitPrefix(e.records, OrderOf(e), k)))
  }

  predicate Fits(e: Envelope)
    requires e.Shaped()
  {
    BaseLength(e) <= 7_196
  }

  /** Exactly the records in the prefix have lost their payload. */
  lemma {:induction false} OmittedExactlyThePrefix(rs: seq<RecordValue>, order: seq<nat>, k: nat, i: nat)
    requires k <= |order| && Distinct(order) && i < |rs|
    requires forall a :: 0 <= a < |order| ==> order[a] < |rs|
    ensures OmitPrefix(rs, order, k)[i] == if i in order[..k] then OmitPayload(rs[i]) else rs[i]
  {
    if k > 0 {
      OmittedExactlyThePrefix(rs, order, k - 1, i);
      assert order[..k] == order[..k - 1] + [order[k - 1]];
      assert order[k - 1] !in order[..k - 1];
    }
  }

  lemma {:induction false} PrefixStaysCompact(rs: seq<RecordValue>, order: seq<nat>, k: nat)
    requires k <= |order| && forall a :: 0 <= a < |order| ==> order[a] < |rs|
    requires forall i :: 0 <= i < |rs| ==> CompactRecord(rs[i])
    ensures forall i :: 0 <= i < |rs| ==> CompactRecord(OmitPrefix(rs, order, k)[i])
  {
    if k > 0 {
      PrefixStaysCompact(rs, order, k - 1);
    }
  }

  // ---- what one omission does ----

  lemma {:induction false} ReasonsAfterOmission(rs: seq<RecordValue>, i: nat)
    requires i < |rs| && rs[i].payload.Some? && rs[i].reason == None
    ensures Reasons(rs[i := OmitPayload(rs[i])]) == Reasons(rs) + 1
  {
    if i == 0 {
      assert rs[i := OmitPayload(rs[i])][1..] == rs[1..];
    } else {
      assert rs[i := OmitPayload(rs[i])][1..] == rs[1..][i - 1 := OmitPayload(rs[i])];
      ReasonsAfterOmission(rs[1..], i - 1);
    }
  }

  function AfterOmission(e: Envelope, i: nat): (e': Envelope)
    requires e.Shaped() && i < |e.records|
    ensures e'.Shaped()
  {
    Counted(e.(records := e.records[i := OmitPayload(e.records[i])]))
  }

  lemma OmissionKeepsTheRest(e: Envelope, i: nat)
    requires e.Shaped() && i < |e.records|
    ensures FixedLength(AfterOmission(e, i)) == FixedLength(e)
    ensures RecordRest(OmitPayload(e.records[i])) == RecordRest(e.records[i])
  {
    hide MembersSize;
  }

  /**
   * An omission trades the payload's text for the 29 characters of its reason, so
   * a payload of fewer than 29 characters makes the rendering longer.
   */
  lemma OmissionChangesLength(e: Envelope, i: nat)
    requires Compact(e) && e == Counted(e) && i < |e.records| && e.records[i].payload.Some?
    ensures AfterOmission(e, i).omitted == e.omitted + 1
    ensures BaseLength(AfterOmission(e, i))
         == BaseLength(e) + 29 - JsonLength(e.records[i].payload) + Digits(e.omitted + 1) - Digits(e.omitted)
  {
    hide FixedLength, RecordRest, SumOfLengths, Reasons;
    assert CompactRecord(e.records[i]);
    OmissionKeepsTheRest(e, i);
    ReasonsAfterOmission(e.records, i);
    SumAfterChange(e.records, i, OmitPayload(e.records[i]));
  }

  /** The estimate that was exact before an omission is short enough for the iteration after it. */
  lemma EstimateStaysUsable(e: Envelope, i: nat, n: nat)
    requires Compact(e) && e == Counted(e) && i < |e.records| && e.records[i].payload.Some?
    requires Exact(BaseLength(e), n)
    ensures Digits(n) <= BaseLength(AfterOmission(e, i))
  {
    OmissionChangesLength(e, i);
    assert CompactRecord(e.records[i]);
    DigitsGrow(e.omitted, e.omitted + 1);
    EstimateAfterDrop(BaseLength(e), BaseLength(AfterOmission(e, i)), n);
  }

  lemma EstimateAfterDrop(base: nat, next: nat, n: nat)
    requires Exact(base, n) && 6 <= next && 2 <= base <= next + 48_000
    ensures Digits(n) <= next
  {
    if n > 0 {
      DigitsAtMostValue(n);
    }
    assert n <= base;
    DigitsGrow(n, next + 48_000);
    DigitsOfShifted(next);
  }

  lemma {:induction false} DigitsOfShifted(base: nat)
    requires base >= 6
    ensures Digits(base + 48_000) <= base
  {
    if base == 6 {
      var n := base + 48_000;
      FourDigits(n / 10);
      assert Digits(n) == 1 + Digits(n / 10);
    } else {
      DigitsOfShifted(base - 1);
      DigitsOfSuccessor(base - 1 + 48_000);
    }
  }

  /** One more record of the order gives way: a payload is omitted, or nothing happens where none is left. */
  lemma OmissionStep(e: Envelope, k: nat)
    requires e.Shaped() && k < |OrderOf(e)|
    ensures var c := Candidate(e, k);
      var i := OrderOf(e)[k];
      Candidate(e, k + 1) == if c.records[i].payload == None then c else AfterOmission(c, i)
  {
    var c, i := Candidate(e, k), OrderOf(e)[k];
    if c.records[i].payload == None {
      assert c.records[i := OmitPayload(c.records[i])] == c.records;
    }
  }

  lemma CandidateIsCompact(e: Envelope, k: nat)
    requires Compact(e) && k <= |OrderOf(e)|
    ensures Compact(Candidate(e, k)) && Counted(Candidate(e, k)) == Candidate(e, k)
  {
    PrefixStaysCompact(e.records, OrderOf(e), k);
  }

  /** The iteration after an omission starts from a usable estimate. */
  lemma StepStaysUsable(e: Envelope, k: nat, n: nat)
    requires Compact(e) && k < |OrderOf(e)|
    requires Candidate(e, k).records[OrderOf(e)[k]].payload.Some?
    requires Exact(BaseLength(Candidate(e, k)), n)
    ensures Digits(n) <= BaseLength(Candidate(e, k + 1))
  {
    CandidateIsCompact(e, k);
    OmissionStep(e, k);
    EstimateStaysUsable(Candidate(e, k), OrderOf(e)[k], n);
  }
}
