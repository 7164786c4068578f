/** What a host reads in the rendered evidence: the JSON of its last line, with every list under its own key. */
module EvidenceReading {
  import opened Outcomes
  import opened Decimals
  import opened SafeJson
  import opened JsonReader
  import opened EvidenceText

  // ---- members by key ----

  function KeyIndex(members: seq<Member>, key: string): Option<nat> {
    if members == [] then None
    else if members[0].key == key then Some(0)
    else match KeyIndex(members[1..], key) case None => None case Some(i) => Some(i + 1)
  }

  function Get(v: Json, key: string): Option<Json> {
    if !v.Object? then None
    else
      match KeyIndex(v.members, key)
      case None => None
      case Some(i) => if i < |v.members| then Some(v.members[i].value) else None
  }

  ghost predicate HasNot(members: seq<Member>, key: string) {
    forall i :: 0 <= i < |members| ==> members[i].key != key
  }

  lemma {:induction false} KeyIndexFinds(before: seq<Member>, m: Member, after: seq<Member>)
    requires HasNot(before, m.key)
    ensures KeyIndex(before + [m] + after, m.key) == Some(|before|)
  {
    var members := before + [m] + after;
    if before != [] {
      assert members[1..] == before[1..] + [m] + after;
      assert before[0].key != m.key;
      KeyIndexFinds(before[1..], m, after);
    }
  }

  lemma GetFinds(before: seq<Member>, m: Member, after: seq<Member>)
    requires HasNot(before, m.key)
    ensures Get(Object(before + [m] + after), m.key) == Some(m.value)
  {
    KeyIndexFinds(before, m, after);
    assert (before + [m] + after)[|before|] == m;
  }

  // ---- records ----

  function ReadPayload(v: Json): Option<Option<string>> {
    match v
    case Null => Some(None)
    case Str(text) => Some(Some(text))
    case _ => None
  }

  function ReadReason(v: Json): Option<Option<Reason>> {
    match v
    case Null => Some(None)
    case Str(text) =>
      if text == "confidence_gated" then Some(Some(ConfidenceGated))
      else if text == "host_preflight_record_budget" then Some(Some(RecordBudget))
      else if text == "host_preflight_token_budget" then Some(Some(TokenBudget))
      else None
    case _ => None
  }

  function ReadNat(v: Json): Option<nat> {
    if v.Num? then NatOf(v.digits) else None
  }

  /** A record by its three keys about the payload, with what stands before and after them. */
  function ReadRecord(v: Json): Option<RecordValue> {
    if !v.Object? then None
    else
      match KeyIndex(v.members, "payload")
      case None => None
      case Some(i) => if i + 3 <= |v.members| then ReadRecordAt(v.members, i) else None
  }

  function ReadRecordAt(members: seq<Member>, i: nat): Option<RecordValue>
    requires i + 3 <= |members|
  {
    if members[i + 1].key != "payload_char_count" || members[i + 2].key != "payload_omitted_reason" then None
    else
      match (ReadPayload(members[i].value), ReadNat(members[i + 1].value), ReadReason(members[i + 2].value))
      case (Some(payload), Some(charCount), Some(reason)) =>
        Some(RecordValue(members[..i], payload, charCount, reason, members[i + 3..]))
      case _ => None
  }

  function ReadRecords(items: seq<Json>): Option<seq<RecordValue>> {
    if items == [] then Some([])
    else
      match (ReadRecord(items[0]), ReadRecords(items[1..]))
      case (Some(r), Some(later)) => Some([r] + later)
      case _ => None
  }

  function ReadRecordList(v: Option<Json>): Option<seq<RecordValue>> {
    match v
    case Some(List(items)) => ReadRecords(items)
    case _ => None
  }

  // ---- the text ----

  datatype Reading = Reading(
    evidence: seq<RecordValue>,
    roots: seq<RecordValue>,
    results: seq<RecordValue>,
    estimated: nat,
    omitted: nat)

  /** What follows the last line break. */
  function LastLine(s: string): string {
    if s == "" then "" else if s[|s| - 1] == '\n' then "" else LastLine(s[..|s| - 1]) + [s[|s| - 1]]
  }

  function Field(v: Option<Json>, key: string): Option<Json> {
    match v case None => None case Some(holder) => Get(holder, key)
  }

  /** The JSON behind the label on the last line. */
  function ReadDocument(text: string): Option<Json> {
    var line := LastLine(text);
    if |line| < 21 || line[..21] != "MEMORY_EVIDENCE_JSON=" then None
    else
      match Read(line[21..])
      case None => None
      case Some((v, rest)) => if rest == "" then Some(v) else None
  }

  /** The lists and counters under their own keys. */
  function ReadEvidence(text: string): Option<Reading> {
    match ReadDocument(text)
    case None => None
    case Some(v) => ReadingOf(v)
  }

  function ReadLists(context: Option<Json>): Option<(seq<RecordValue>, seq<RecordValue>)> {
    match context
    case None => None
    case Some(Null) => Some(([], []))
    case Some(c) =>
      match (ReadRecordList(Get(c, "evidence")), ReadRecordList(Get(c, "logic_roots")))
      case (Some(evidence), Some(roots)) => Some((evidence, roots))
      case _ => None
  }

  function ReadCounter(budget: Option<Json>, key: string): Option<nat> {
    match Field(budget, key) case None => None case Some(v) => ReadNat(v)
  }

  function ReadingOf(v: Json): Option<Reading> {
    var budget := Get(v, "evidence_budget");
    match (ReadLists(Get(v, "contextual_logic")), ReadRecordList(Field(Get(v, "recall"), "results")),
           ReadCounter(budget, "estimated_tokens"), ReadCounter(budget, "payloads_omitted"))
    case (Some((evidence, roots)), Some(results), Some(estimated), Some(omitted)) =>
      Some(Reading(evidence, roots, results, estimated, omitted))
    case _ => None
  }

  // ---- records are read back ----

  /** Python's dictionaries have no key twice: the known keys are not among the others. */
  ghost predicate IsRecord(r: RecordValue) {
    HasNot(r.before, PAYLOAD)
  }

  lemma ReasonReadsBack(reason: Option<Reason>)
    ensures ReadReason(ReasonJson(reason)) == Some(reason)
  {
    assert |"confidence_gated"| == 16 && |"host_preflight_record_budget"| == 28 && |"host_preflight_token_budget"| == 27;
  }

  lemma NatReadsBack(n: nat)
    ensures ReadNat(Nat(n)) == Some(n)
  {
    DecimalReadsBack(n);
  }

  lemma RecordReadsBack(r: RecordValue)
    requires IsRecord(r)
    ensures ReadRecord(RecordJson(r)) == Some(r)
  {
    var members, three, i := RecordMembers(r), PayloadMembers(r), |r.before|;
    assert members == r.before + [three[0]] + (three[1..] + r.after);
    KeyIndexFinds(r.before, three[0], three[1..] + r.after);
    assert members[i] == three[0] && members[i + 1] == three[1] && members[i + 2] == three[2];
    assert members[..i] == r.before && members[i + 3..] == r.after;
    NatReadsBack(r.charCount);
    ReasonReadsBack(r.reason);
  }

  lemma {:induction false} RecordsReadBack(rs: seq<RecordValue>)
    requires forall i :: 0 <= i < |rs| ==> IsRecord(rs[i])
    ensures ReadRecords(RecordsJson(rs)) == Some(rs)
  {
    if rs != [] {
      RecordReadsBack(rs[0]);
      RecordsReadBack(rs[1..]);
      assert RecordsJson(rs)[1..] == RecordsJson(rs[1..]);
      assert [rs[0]] + rs[1..] == rs;
    }
  }

  // ---- the evidence is read back ----

  /** The known keys are not among the other keys of their objects, and the fixed lines are ended. */
  ghost predicate IsDocument(e: Envelope)
    requires e.Shaped()
  {
    && e.preamble != "" && e.preamble[|e.preamble| - 1] == '\n'
    && HasNot(e.before, CONTEXTUAL_LOGIC) && HasNot(e.before, EVIDENCE_BUDGET) && HasNot(e.before, RECALL)
    && HasNot(e.toBudget, EVIDENCE_BUDGET) && HasNot(e.toBudget, RECALL) && HasNot(e.toRecall, RECALL)
    && HasNot(e.recallBefore, RESULTS)
    && (e.context.Some? ==> HasNot(e.context.value.before, EVIDENCE) && HasNot(e.context.value.before, LOGIC_ROOTS)
                            && HasNot(e.context.value.between, LOGIC_ROOTS))
    && (forall i :: 0 <= i < |e.records| ==> IsRecord(e.records[i]))
  }

  lemma {:induction false} LastLineIs(before: string, line: string)
    requires before != "" && before[|before| - 1] == '\n' && '\n' !in line
    ensures LastLine(before + line) == line
    decreases |line|
  {
    var s := before + line;
    if line == "" {
      assert s == before;
    } else {
      assert s[|s| - 1] == line[|line| - 1] && line[|line| - 1] in line;
      assert s[..|s| - 1] == before + line[..|line| - 1];
      LastLineIs(before, line[..|line| - 1]);
      assert line[..|line| - 1] + [line[|line| - 1]] == line;
    }
  }

  lemma NoBreak(v: Json)
    ensures '\n' !in LABEL + Write(v)
  {
    WrittenIsSafe(v);
  }

  lemma DocumentReadsBack(e: Envelope)
    requires e.Shaped() && IsDocument(e)
    ensures ReadDocument(Render(e)) == Some(Object(DocumentMembers(e)))
  {
    hide Write, Read, IsDocument, DocumentMembers;
    var v := Object(DocumentMembers(e));
    var line := LABEL + Write(v);
    NoBreak(v);
    assert Render(e) == e.preamble + line;
    EndsLine(e);
    LastLineIs(e.preamble, line);
    assert line[..|LABEL|] == LABEL && line[|LABEL|..] == Write(v) + "";
    ReadsBack(v, "");
  }

  lemma EndsLine(e: Envelope)
    requires e.Shaped() && IsDocument(e)
    ensures e.preamble != "" && e.preamble[|e.preamble| - 1] == '\n'
  {
  }

  lemma KeysDiffer()
    ensures CONTEXTUAL_LOGIC != EVIDENCE_BUDGET && CONTEXTUAL_LOGIC != RECALL && EVIDENCE_BUDGET != RECALL && EVIDENCE != LOGIC_ROOTS
    ensures ESTIMATED_TOKENS != PAYLOADS_OMITTED && "estimator" != PAYLOADS_OMITTED && "max_context_chars" != PAYLOADS_OMITTED
    ensures "max_estimated_tokens" != PAYLOADS_OMITTED
  {
    assert |CONTEXTUAL_LOGIC| == 16 && |EVIDENCE_BUDGET| == 15 && |RECALL| == 6 && |EVIDENCE| == 8 && |LOGIC_ROOTS| == 11;
    assert ESTIMATED_TOKENS[0] != PAYLOADS_OMITTED[0] && |"max_context_chars"| == 17 && |PAYLOADS_OMITTED| == 16;
  }

  lemma HasNotJoin(a: seq<Member>, b: seq<Member>, key: string)
    requires HasNot(a, key) && HasNot(b, key)
    ensures HasNot(a + b, key)
  {
  }

  lemma HasNotOne(m: Member, key: string)
    requires m.key != key
    ensures HasNot([m], key)
  {
  }

  /** The three known members of the document. */
  lemma DocumentFields(e: Envelope)
    requires e.Shaped() && IsDocument(e)
    ensures var v := Object(DocumentMembers(e));
      && Get(v, CONTEXTUAL_LOGIC) == Some(ContextJson(e))
      && Get(v, EVIDENCE_BUDGET) == Some(Object(BudgetMembers(e)))
      && Get(v, RECALL) == Some(Object(RecallMembers(e)))
  {
    KeysDiffer();
    ThreeFields(e.before, Member(CONTEXTUAL_LOGIC, ContextJson(e)), e.toBudget, Member(EVIDENCE_BUDGET, Object(BudgetMembers(e))),
                e.toRecall, Member(RECALL, Object(RecallMembers(e))), e.after);
  }

  lemma ThreeFields(a: seq<Member>, m: Member, b: seq<Member>, n: Member, c: seq<Member>, o: Member, d: seq<Member>)
    requires m.key != n.key && m.key != o.key && n.key != o.key
    requires HasNot(a, m.key) && HasNot(a, n.key) && HasNot(a, o.key) && HasNot(b, n.key) && HasNot(b, o.key) && HasNot(c, o.key)
    ensures var v := Object(a + [m] + b + [n] + c + [o] + d);
      Get(v, m.key) == Some(m.value) && Get(v, n.key) == Some(n.value) && Get(v, o.key) == Some(o.value)
  {
    hide Get, HasNot;
    var all := a + [m] + b + [n] + c + [o] + d;
    HasNotOne(m, n.key);
    HasNotOne(m, o.key);
    HasNotOne(n, o.key);
    HasNotJoin(a, [m], n.key);
    HasNotJoin(a + [m], b, n.key);
    HasNotJoin(a, [m], o.key);
    HasNotJoin(a + [m], b, o.key);
    HasNotJoin(a + [m] + b, [n], o.key);
    HasNotJoin(a + [m] + b + [n], c, o.key);
    assert all == a + [m] + (b + [n] + c + [o] + d);
    assert all == (a + [m] + b) + [n] + (c + [o] + d);
    GetFinds(a, m, b + [n] + c + [o] + d);
    GetFinds(a + [m] + b, n, c + [o] + d);
    GetFinds(a + [m] + b + [n] + c, o, d);
  }

  lemma TwoFields(a: seq<Member>, m: Member, b: seq<Member>, n: Member, c: seq<Member>)
    requires m.key != n.key && HasNot(a, m.key) && HasNot(a, n.key) && HasNot(b, n.key)
    ensures var v := Object(a + [m] + b + [n] + c);
      Get(v, m.key) == Some(m.value) && Get(v, n.key) == Some(n.value)
  {
    hide Get, HasNot;
    HasNotOne(m, n.key);
    HasNotJoin(a, [m], n.key);
    HasNotJoin(a + [m], b, n.key);
    assert a + [m] + b + [n] + c == a + [m] + (b + [n] + c);
    GetFinds(a, m, b + [n] + c);
    GetFinds(a + [m] + b, n, c);
  }

  lemma CountersReadBack(e: Envelope)
    ensures var budget := Some(Object(BudgetMembers(e)));
      ReadCounter(budget, ESTIMATED_TOKENS) == Some(e.estimated) && ReadCounter(budget, PAYLOADS_OMITTED) == Some(e.omitted)
  {
    hide Get, Nat, ReadNat;
    KeysDiffer();
    var estimated, omitted := Member(ESTIMATED_TOKENS, Nat(e.estimated)), Member(PAYLOADS_OMITTED, Nat(e.omitted));
    assert HasNot(BudgetBetween(), PAYLOADS_OMITTED);
    TwoFields([], estimated, BudgetBetween(), omitted, BudgetAfter());
    assert [] + [estimated] == [estimated];
    NatReadsBack(e.estimated);
    NatReadsBack(e.omitted);
  }

  /** The budget also says by which estimate and within which limits it was made. */
  lemma BudgetSaysItsLimits(e: Envelope)
    ensures var budget := Object(BudgetMembers(e));
      && Get(budget, "estimator") == Some(Str("utf8_bytes_ceiling_div_3"))
      && Get(budget, "max_context_chars") == Some(Nat(16_000)) && Get(budget, "max_estimated_tokens") == Some(Nat(2_400))
  {
    hide Get, Nat;
    var ms := BudgetMembers(e);
    assert |"estimator"| == 9 && |"max_context_chars"| == 17 && |"max_estimated_tokens"| == 20 && |ESTIMATED_TOKENS| == 16;
    assert ms == ms[..1] + [ms[1]] + ms[2..] && ms == ms[..2] + [ms[2]] + ms[3..] && ms == ms[..3] + [ms[3]] + ms[4..];
    GetFinds(ms[..1], ms[1], ms[2..]);
    GetFinds(ms[..2], ms[2], ms[3..]);
    GetFinds(ms[..3], ms[3], ms[4..]);
  }

  lemma ContextReadsBack(e: Envelope)
    requires e.Shaped() && IsDocument(e)
    ensures ReadLists(Some(ContextJson(e))) == Some((e.EvidenceList(), e.RootList()))
  {
    if e.context.None? {
      assert e.EvidenceList() == [] && e.RootList() == [];
    } else {
      var c := e.context.value;
      KeysDiffer();
      ListsReadBack(c, e.EvidenceList(), e.RootList());
    }
  }

  lemma ListsReadBack(c: Context, evidence: seq<RecordValue>, roots: seq<RecordValue>)
    requires HasNot(c.before, EVIDENCE) && HasNot(c.before, LOGIC_ROOTS) && HasNot(c.between, LOGIC_ROOTS) && EVIDENCE != LOGIC_ROOTS
    requires forall i :: 0 <= i < |evidence| ==> IsRecord(evidence[i])
    requires forall i :: 0 <= i < |roots| ==> IsRecord(roots[i])
    ensures ReadLists(Some(Object(ContextMembers(c, evidence, roots)))) == Some((evidence, roots))
  {
    hide Get, HasNot, RecordsJson, ReadRecords;
    TwoFields(c.before, Member(EVIDENCE, List(RecordsJson(evidence))), c.between, Member(LOGIC_ROOTS, List(RecordsJson(roots))), c.after);
    RecordsReadBack(evidence);
    RecordsReadBack(roots);
  }

  lemma ResultsReadBack(e: Envelope)
    requires e.Shaped() && IsDocument(e)
    ensures ReadRecordList(Get(Object(RecallMembers(e)), RESULTS)) == Some(e.ResultList())
  {
    hide Get, RecordsJson, ReadRecords;
    GetFinds(e.recallBefore, Member(RESULTS, List(RecordsJson(e.ResultList()))), e.recallAfter);
    RecordsReadBack(e.ResultList());
  }

  /**
   * Reading the rendered text gives the evidence back: each list under its own key and
   * in order, each record with its payload, size and reason, and both counters.
   */
  lemma EvidenceReadsBack(e: Envelope)
    requires e.Shaped() && IsDocument(e)
    ensures ReadEvidence(Render(e)) == Some(Reading(e.EvidenceList(), e.RootList(), e.ResultList(), e.estimated, e.omitted))
  {
    hide Render, ReadDocument, DocumentMembers, ContextJson, BudgetMembers, RecallMembers, Get, ReadLists, ReadCounter, ReadRecordList, IsDocument;
    DocumentReadsBack(e);
    DocumentFields(e);
    ContextReadsBack(e);
    CountersReadBack(e);
    ResultsReadBack(e);
  }

  /** The rendered JSON stands on one line and has no character that markup gives a meaning. */
  lemma RenderingIsSafe(e: Envelope)
    requires e.Shaped() && IsDocument(e)
    ensures LastLine(Render(e)) == LABEL + Write(Object(DocumentMembers(e)))
    ensures IsSafe(Write(Object(DocumentMembers(e))))
  {
    hide Write, IsDocument, DocumentMembers, LastLine;
    var v := Object(DocumentMembers(e));
    NoBreak(v);
    EndsLine(e);
    LastLineIs(e.preamble, LABEL + Write(v));
    assert Render(e) == e.preamble + (LABEL + Write(v));
    WrittenIsSafe(v);
  }
}
