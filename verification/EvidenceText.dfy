/**
 * The evidence as JSON and as the rendered text. A budget step changes only the two
 * counters and each record's payload and omission reason; all other members are given.
 */
module EvidenceText {
  import opened Outcomes
  import opened Decimals
  import opened TokenEstimate
  import opened SafeJson

  const MAX_PREFLIGHT_PAYLOAD_CHARS: nat := 4_000

  /** Why a record shows no payload. */
  datatype Reason = ConfidenceGated | RecordBudget | TokenBudget

  function ReasonName(reason: Reason): string {
    match reason
    case ConfidenceGated => "confidence_gated"
    case RecordBudget => "host_preflight_record_budget"
    case TokenBudget => "host_preflight_token_budget"
  }

  // ---- records ----

  datatype RecordValue = RecordValue(
    before: seq<Member>,       // the keys before `payload`
    payload: Option<string>,
    charCount: nat,
    reason: Option<Reason>,
    after: seq<Member>)        // the keys after `payload_omitted_reason`

  const PAYLOAD: string := "payload"
  const CHAR_COUNT: string := "payload_char_count"
  const OMITTED_REASON: string := "payload_omitted_reason"

  function PayloadJson(payload: Option<string>): Json {
    match payload case None => Null case Some(text) => Str(text)
  }

  function ReasonJson(reason: Option<Reason>): Json {
    match reason case None => Null case Some(r) => Str(ReasonName(r))
  }

  /** The three keys about the payload stand side by side in the order of keys. */
  function PayloadMembers(r: RecordValue): seq<Member> {
    [Member(PAYLOAD, PayloadJson(r.payload)), Member(CHAR_COUNT, Nat(r.charCount)), Member(OMITTED_REASON, ReasonJson(r.reason))]
  }

  function RecordMembers(r: RecordValue): seq<Member> {
    r.before + PayloadMembers(r) + r.after
  }

  function RecordJson(r: RecordValue): Json {
    Object(RecordMembers(r))
  }

  function RecordsJson(rs: seq<RecordValue>): (items: seq<Json>)
    ensures |items| == |rs| && forall i :: 0 <= i < |rs| ==> items[i] == RecordJson(rs[i])
  {
    seq(|rs|, i requires 0 <= i < |rs| => RecordJson(rs[i]))
  }

  // ---- the whole evidence ----

  /** The keys of `contextual_logic` before, between and after its two record lists. */
  datatype Context = Context(before: seq<Member>, between: seq<Member>, after: seq<Member>)

  /** The records in the order results, logic roots, context evidence. */
  datatype Envelope = Envelope(
    preamble: Ascii,               // the fixed lines, each ended
    before: seq<Member>,           // the keys before `contextual_logic`
    context: Option<Context>,
    toBudget: seq<Member>,         // the keys up to `evidence_budget`
    toRecall: seq<Member>,         // the keys up to `recall`
    recallBefore: seq<Member>,     // the keys of `recall` before and after `results`
    recallAfter: seq<Member>,
    after: seq<Member>,
    records: seq<RecordValue>,
    results: nat,
    roots: nat,
    estimated: nat,
    omitted: nat)
  {
    predicate Shaped() {
      results + roots <= |records| && (context == None ==> results == |records|)
    }

    function ResultList(): seq<RecordValue>
      requires Shaped()
    {
      records[..results]
    }

    function RootList(): seq<RecordValue>
      requires Shaped()
    {
      records[results..results + roots]
    }

    function EvidenceList(): seq<RecordValue>
      requires Shaped()
    {
      records[results + roots..]
    }
  }

  const CONTEXTUAL_LOGIC: string := "contextual_logic"
  const EVIDENCE: string := "evidence"
  const LOGIC_ROOTS: string := "logic_roots"
  const EVIDENCE_BUDGET: string := "evidence_budget"
  const ESTIMATED_TOKENS: string := "estimated_tokens"
  const PAYLOADS_OMITTED: string := "payloads_omitted"
  const RECALL: string := "recall"
  const RESULTS: string := "results"
  const LABEL: Ascii := "MEMORY_EVIDENCE_JSON="

  function ContextMembers(c: Context, evidence: seq<RecordValue>, roots: seq<RecordValue>): seq<Member> {
    c.before + [Member(EVIDENCE, List(RecordsJson(evidence)))] + c.between + [Member(LOGIC_ROOTS, List(RecordsJson(roots)))] + c.after
  }

  function ContextJson(e: Envelope): Json
    requires e.Shaped()
  {
    match e.context
    case None => Null
    case Some(c) => Object(ContextMembers(c, e.EvidenceList(), e.RootList()))
  }

  /** The members of the budget between its two counters. */
  function BudgetBetween(): seq<Member> {
    [Member("estimator", Str("utf8_bytes_ceiling_div_3")),
     Member("max_context_chars", Nat(MAX_PREFLIGHT_CONTEXT_CHARS)),
     Member("max_estimated_tokens", Nat(MAX_PREFLIGHT_ESTIMATED_TOKENS))]
  }

  function BudgetAfter(): seq<Member> {
    [Member("schema", Str("echo-veil-evidence-budget-v1"))]
  }

  function BudgetMembers(e: Envelope): seq<Member> {
    [Member(ESTIMATED_TOKENS, Nat(e.estimated))] + BudgetBetween() + [Member(PAYLOADS_OMITTED, Nat(e.omitted))] + BudgetAfter()
  }

  function RecallMembers(e: Envelope): seq<Member>
    requires e.Shaped()
  {
    e.recallBefore + [Member(RESULTS, List(RecordsJson(e.ResultList())))] + e.recallAfter
  }

  function DocumentMembers(e: Envelope): seq<Member>
    requires e.Shaped()
  {
    e.before + [Member(CONTEXTUAL_LOGIC, ContextJson(e))]
    + e.toBudget + [Member(EVIDENCE_BUDGET, Object(BudgetMembers(e)))]
    + e.toRecall + [Member(RECALL, Object(RecallMembers(e)))] + e.after
  }

  function Render(e: Envelope): Ascii
    requires e.Shaped()
  {
    Cat3(e.preamble, LABEL, Write(Object(DocumentMembers(e))))
  }

  // ---- lengths ----

  function JsonLength(payload: Option<string>): nat {
    match payload case None => 4 case Some(s) => EscapedLength(s) + 2
  }

  function ReasonLength(reason: Option<Reason>): nat {
    match reason
    case None => 4
    case Some(ConfidenceGated) => 18
    case Some(RecordBudget) => 30
    case Some(TokenBudget) => 29
  }

  lemma {:induction false} PlainLength(s: string)
    requires forall i :: 0 <= i < |s| ==> CharLength(s[i]) == 1
    ensures EscapedLength(s) == |s|
  {
    if s != [] {
      PlainLength(s[1..]);
    }
  }

  lemma QuotedPlain(s: string)
    requires forall i :: 0 <= i < |s| ==> CharLength(s[i]) == 1
    ensures |Write(Str(s))| == |s| + 2
  {
    PlainLength(s);
  }

  lemma NullLength()
    ensures |Write(Null)| == 4
  {
  }

  lemma GatedLength()
    ensures |Write(Str(ReasonName(ConfidenceGated)))| == 18
  {
    QuotedPlain(ReasonName(ConfidenceGated));
  }

  lemma RecordBudgetLength()
    ensures |Write(Str(ReasonName(RecordBudget)))| == 30
  {
    var name := "host_preflight_record_budget";
    assert |name| == 28;
    forall i | 0 <= i < 28 ensures CharLength(name[i]) == 1 {
      assert name[i] == '_' || 'a' <= name[i] <= 'z';
    }
    QuotedPlain(name);
  }

  lemma TokenBudgetLength()
    ensures |Write(Str(ReasonName(TokenBudget)))| == 29
  {
    var name := "host_preflight_token_budget";
    assert |name| == 27;
    forall i | 0 <= i < 27 ensures CharLength(name[i]) == 1 {
      assert name[i] == '_' || 'a' <= name[i] <= 'z';
    }
    QuotedPlain(name);
  }

  lemma ReasonTextLength(reason: Option<Reason>)
    ensures |Write(ReasonJson(reason))| == ReasonLength(reason)
  {
    hide ReasonName, Write;
    NullLength();
    GatedLength();
    RecordBudgetLength();
    TokenBudgetLength();
  }

  lemma PlainKey(key: string)
    requires forall i :: 0 <= i < |key| ==> CharLength(key[i]) == 1
    ensures KeySize(key) == |key| + 3
  {
    PlainLength(key);
  }

  lemma RecordKeys()
    ensures KeySize(PAYLOAD) == |PAYLOAD| + 3 && KeySize(CHAR_COUNT) == |CHAR_COUNT| + 3 && KeySize(OMITTED_REASON) == |OMITTED_REASON| + 3
  {
    hide KeySize;
    PlainKey(PAYLOAD);
    PlainKey(CHAR_COUNT);
    PlainKey(OMITTED_REASON);
  }

  lemma ContextKeys()
    ensures KeySize(EVIDENCE) == |EVIDENCE| + 3 && KeySize(LOGIC_ROOTS) == |LOGIC_ROOTS| + 3 && KeySize(RESULTS) == |RESULTS| + 3
  {
    hide KeySize;
    PlainKey(EVIDENCE);
    PlainKey(LOGIC_ROOTS);
    PlainKey(RESULTS);
  }

  lemma DocumentKeys()
    ensures KeySize(CONTEXTUAL_LOGIC) == |CONTEXTUAL_LOGIC| + 3 && KeySize(EVIDENCE_BUDGET) == |EVIDENCE_BUDGET| + 3
    ensures KeySize(RECALL) == |RECALL| + 3
  {
    hide KeySize;
    PlainKey(CONTEXTUAL_LOGIC);
    PlainKey(EVIDENCE_BUDGET);
    PlainKey(RECALL);
  }

  lemma PayloadTextLength(payload: Option<string>)
    ensures |Write(PayloadJson(payload))| == JsonLength(payload)
  {
  }

  lemma NatTextLength(n: nat)
    ensures |Write(Nat(n))| == Digits(n)
  {
  }

  /** What a record takes besides its payload and its reason. */
  function RecordRest(r: RecordValue): nat {
    4 + MembersSize(r.before) + (|PAYLOAD| + 3) + (|CHAR_COUNT| + 3) + Digits(r.charCount) + (|OMITTED_REASON| + 3) + MembersSize(r.after)
  }

  function RecordLength(r: RecordValue): nat {
    RecordRest(r) + JsonLength(r.payload) + ReasonLength(r.reason)
  }

  lemma RecordTextLength(r: RecordValue)
    ensures |Write(RecordJson(r))| == RecordLength(r)
  {
    hide Write, MembersSize, KeySize, PayloadJson, ReasonJson, Nat, JsonLength, ReasonLength;
    RecordKeys();
    var payload, count, reason := PayloadMembers(r)[0], PayloadMembers(r)[1], PayloadMembers(r)[2];
    SideBySide(r.before, payload, count, reason, r.after);
    PayloadTextLength(r.payload);
    NatTextLength(r.charCount);
    ReasonTextLength(r.reason);
  }

  lemma SideBySide(a: seq<Member>, m: Member, n: Member, o: Member, b: seq<Member>)
    ensures |Write(Object(a + [m, n, o] + b))|
         == 4 + MembersSize(a) + KeySize(m.key) + |Write(m.value)| + KeySize(n.key) + |Write(n.value)|
            + KeySize(o.key) + |Write(o.value)| + MembersSize(b)
  {
    hide Write, MembersSize, KeySize;
    AroundThree(a, m, [], n, [], o, b);
    NoMembers();
    assert a + [m] + [] + [n] + [] + [o] + b == a + [m, n, o] + b;
  }

  lemma NoMembers()
    ensures MembersSize([]) == 0
  {
  }

  function Commas(n: nat): nat {
    if n == 0 then 0 else n - 1
  }

  function SumOfLengths(rs: seq<RecordValue>): nat {
    if rs == [] then 0 else RecordLength(rs[0]) + SumOfLengths(rs[1..])
  }

  lemma SumNext(r: RecordValue, rs: seq<RecordValue>)
    ensures SumOfLengths([r] + rs) == RecordLength(r) + SumOfLengths(rs)
  {
    hide RecordLength;
    assert ([r] + rs)[1..] == rs;
  }

  lemma SumOneMore(r: RecordValue, a: seq<RecordValue>, b: seq<RecordValue>)
    requires SumOfLengths(a + b) == SumOfLengths(a) + SumOfLengths(b)
    ensures SumOfLengths(([r] + a) + b) == SumOfLengths([r] + a) + SumOfLengths(b)
  {
    hide *;
    SumNext(r, a);
    SumNext(r, a + b);
    assert ([r] + a) + b == [r] + (a + b);
  }

  lemma {:induction false} SumOfParts(a: seq<RecordValue>, b: seq<RecordValue>)
    ensures SumOfLengths(a + b) == SumOfLengths(a) + SumOfLengths(b)
  {
    hide RecordLength;
    if a == [] {
      assert a + b == b;
    } else {
      SumOfParts(a[1..], b);
      SumOneMore(a[0], a[1..], b);
      assert [a[0]] + a[1..] == a;
    }
  }

  lemma ItemsSizeNext(v: Json, items: seq<Json>)
    ensures ItemsSize([v] + items) == |Write(v)| + 1 + ItemsSize(items)
  {
    hide Write;
    assert ([v] + items)[1..] == items;
  }

  lemma {:induction false} RecordsSize(rs: seq<RecordValue>)
    ensures ItemsSize(RecordsJson(rs)) == SumOfLengths(rs) + |rs|
  {
    hide Write, RecordJson, RecordLength;
    if rs != [] {
      RecordsSize(rs[1..]);
      RecordTextLength(rs[0]);
      ItemsSizeNext(RecordJson(rs[0]), RecordsJson(rs[1..]));
      assert [RecordJson(rs[0])] + RecordsJson(rs[1..]) == RecordsJson(rs);
    }
  }

  lemma NothingToSum(rs: seq<RecordValue>)
    ensures rs == [] ==> SumOfLengths(rs) == 0
  {
  }

  lemma RecordListLength(rs: seq<RecordValue>)
    ensures |Write(List(RecordsJson(rs)))| == 2 + Commas(|rs|) + SumOfLengths(rs)
  {
    hide Write, ItemsSize, SumOfLengths;
    RecordsSize(rs);
    ListLength(RecordsJson(rs));
    NothingToSum(rs);
  }

  function ContextFixed(context: Option<Context>, evidence: nat, roots: nat): nat {
    match context
    case None => 4
    case Some(c) =>
      7 + MembersSize(c.before) + (|EVIDENCE| + 3) + Commas(evidence) + MembersSize(c.between)
      + (|LOGIC_ROOTS| + 3) + Commas(roots) + MembersSize(c.after)
  }

  /** The budget's members but for the digits of its two counters. */
  const BUDGET_FIXED: nat := 174

  function RecallFixed(e: Envelope): nat {
    4 + MembersSize(e.recallBefore) + (|RESULTS| + 3) + Commas(e.results) + MembersSize(e.recallAfter)
  }

  /** Everything but the records, their number of commas included, and the two counters. */
  function FixedLength(e: Envelope): nat
    requires e.Shaped()
  {
    |e.preamble| + |LABEL| + 4 + MembersSize(e.before)
    + (|CONTEXTUAL_LOGIC| + 3) + ContextFixed(e.context, |e.records| - e.results - e.roots, e.roots)
    + MembersSize(e.toBudget) + (|EVIDENCE_BUDGET| + 3) + BUDGET_FIXED
    + MembersSize(e.toRecall) + (|RECALL| + 3) + RecallFixed(e) + MembersSize(e.after)
  }

  /** The rendered length without the digits of the estimate. */
  function BaseLength(e: Envelope): nat
    requires e.Shaped()
  {
    FixedLength(e) + SumOfLengths(e.records) + Digits(e.omitted)
  }

  lemma ContextLength(e: Envelope)
    requires e.Shaped()
    ensures |Write(ContextJson(e))| == ContextFixed(e.context, |e.records| - e.results - e.roots, e.roots)
         + if e.context == None then 0 else SumOfLengths(e.EvidenceList()) + SumOfLengths(e.RootList())
  {
    hide ContextMembers, SumOfLengths, MembersSize, KeySize, Commas, ContextFixed;
    if e.context.None? {
      NoContext(e);
    } else {
      ListsLength(e.context.value, e.EvidenceList(), e.RootList());
    }
  }

  lemma NoContext(e: Envelope)
    requires e.Shaped() && e.context.None?
    ensures |Write(ContextJson(e))| == ContextFixed(e.context, |e.records| - e.results - e.roots, e.roots)
  {
  }

  lemma ListsLength(c: Context, evidence: seq<RecordValue>, roots: seq<RecordValue>)
    ensures |Write(Object(ContextMembers(c, evidence, roots)))|
         == ContextFixed(Some(c), |evidence|, |roots|) + SumOfLengths(evidence) + SumOfLengths(roots)
  {
    hide Write, MembersSize, RecordsJson, SumOfLengths, KeySize, Commas;
    ContextKeys();
    AroundTwo(c.before, Member(EVIDENCE, List(RecordsJson(evidence))), c.between, Member(LOGIC_ROOTS, List(RecordsJson(roots))), c.after);
    RecordListLength(evidence);
    RecordListLength(roots);
  }

  lemma PlainMember(key: string, text: string)
    requires forall i :: 0 <= i < |key| ==> CharLength(key[i]) == 1
    requires forall i :: 0 <= i < |text| ==> CharLength(text[i]) == 1
    ensures MembersSize([Member(key, Str(text))]) == |key| + |text| + 6
  {
    MemberSizeIs(Member(key, Str(text)));
    PlainKey(key);
    QuotedPlain(text);
  }

  lemma NatMember(key: string, n: nat)
    requires forall i :: 0 <= i < |key| ==> CharLength(key[i]) == 1
    ensures MembersSize([Member(key, Nat(n))]) == |key| + Digits(n) + 4
  {
    MemberSizeIs(Member(key, Nat(n)));
    PlainKey(key);
    NatTextLength(n);
  }

  lemma EstimatorSize()
    ensures MembersSize([Member("estimator", Str("utf8_bytes_ceiling_div_3"))]) == 39
  {
    hide MembersSize;
    PlainMember("estimator", "utf8_bytes_ceiling_div_3");
  }

  lemma SchemaSize()
    ensures MembersSize([Member("schema", Str("echo-veil-evidence-budget-v1"))]) == 40
  {
    hide MembersSize;
    PlainMember("schema", "echo-veil-evidence-budget-v1");
  }

  lemma AfterSize()
    ensures MembersSize(BudgetAfter()) == 40
  {
    hide MembersSize;
    SchemaSize();
  }

  lemma CharsSize()
    ensures MembersSize([Member("max_context_chars", Nat(MAX_PREFLIGHT_CONTEXT_CHARS))]) == 26
  {
    hide MembersSize;
    NatMember("max_context_chars", MAX_PREFLIGHT_CONTEXT_CHARS);
  }

  lemma TokensSize()
    ensures MembersSize([Member("max_estimated_tokens", Nat(MAX_PREFLIGHT_ESTIMATED_TOKENS))]) == 28
  {
    hide MembersSize;
    NatMember("max_estimated_tokens", MAX_PREFLIGHT_ESTIMATED_TOKENS);
  }

  lemma ThreeSizes(a: Member, b: Member, c: Member)
    ensures MembersSize([a, b, c]) == MembersSize([a]) + MembersSize([b]) + MembersSize([c])
  {
    hide MembersSize;
    MembersSizeJoin([a], [b]);
    MembersSizeJoin([a] + [b], [c]);
    assert [a] + [b] + [c] == [a, b, c];
  }

  lemma BetweenSize()
    ensures MembersSize(BudgetBetween()) == 93
  {
    hide MembersSize, Nat;
    EstimatorSize();
    CharsSize();
    TokensSize();
    ThreeSizes(BudgetBetween()[0], BudgetBetween()[1], BudgetBetween()[2]);
  }

  lemma CounterSizes(e: Envelope)
    ensures MembersSize([Member(ESTIMATED_TOKENS, Nat(e.estimated))]) == Digits(e.estimated) + 20
    ensures MembersSize([Member(PAYLOADS_OMITTED, Nat(e.omitted))]) == Digits(e.omitted) + 20
  {
    hide MembersSize, Nat;
    NatMember(ESTIMATED_TOKENS, e.estimated);
    NatMember(PAYLOADS_OMITTED, e.omitted);
  }

  lemma BudgetLength(e: Envelope)
    ensures |Write(Object(BudgetMembers(e)))| == BUDGET_FIXED + Digits(e.estimated) + Digits(e.omitted)
  {
    hide Write, MembersSize, BudgetBetween, BudgetAfter, Nat;
    var estimated, omitted := [Member(ESTIMATED_TOKENS, Nat(e.estimated))], [Member(PAYLOADS_OMITTED, Nat(e.omitted))];
    ObjectLength(BudgetMembers(e));
    MembersSizeJoin(estimated + BudgetBetween() + omitted, BudgetAfter());
    MembersSizeJoin(estimated + BudgetBetween(), omitted);
    MembersSizeJoin(estimated, BudgetBetween());
    CounterSizes(e);
    BetweenSize();
    AfterSize();
    assert BudgetMembers(e)[0] == estimated[0];
  }

  lemma RecallLength(e: Envelope)
    requires e.Shaped()
    ensures |Write(Object(RecallMembers(e)))| == RecallFixed(e) + SumOfLengths(e.ResultList())
  {
    hide Write, MembersSize, RecordsJson, SumOfLengths, KeySize, Commas;
    ContextKeys();
    AroundOne(e.recallBefore, Member(RESULTS, List(RecordsJson(e.ResultList()))), e.recallAfter);
    RecordListLength(e.ResultList());
  }

  /** The length of the rendering, told from its records, counters and fixed members. */
  lemma RenderedLength(e: Envelope)
    requires e.Shaped()
    ensures |Render(e)| == BaseLength(e) + Digits(e.estimated)
  {
    hide Render, Write, MembersSize, SumOfLengths, ContextFixed, RecallFixed, ContextJson, BudgetMembers, RecallMembers, KeySize;
    DocumentKeys();
    SumOfLists(e);
    DocumentLength(e);
    ContextLength(e);
    BudgetLength(e);
    RecallLength(e);
  }

  lemma DocumentLength(e: Envelope)
    requires e.Shaped()
    ensures |Render(e)| == |e.preamble| + |LABEL| + 1 + MembersSize(e.before) + KeySize(CONTEXTUAL_LOGIC) + 1 + |Write(ContextJson(e))|
         + MembersSize(e.toBudget) + KeySize(EVIDENCE_BUDGET) + 1 + |Write(Object(BudgetMembers(e)))|
         + MembersSize(e.toRecall) + KeySize(RECALL) + 1 + |Write(Object(RecallMembers(e)))| + MembersSize(e.after)
  {
    hide ContextJson, BudgetMembers, RecallMembers, Write, MembersSize, KeySize;
    AroundThree(e.before, Member(CONTEXTUAL_LOGIC, ContextJson(e)), e.toBudget, Member(EVIDENCE_BUDGET, Object(BudgetMembers(e))),
                e.toRecall, Member(RECALL, Object(RecallMembers(e))), e.after);
  }

  lemma SumOfLists(e: Envelope)
    requires e.Shaped()
    ensures SumOfLengths(e.records)
         == SumOfLengths(e.ResultList()) + SumOfLengths(e.RootList()) + SumOfLengths(e.EvidenceList())
    ensures e.context == None ==> SumOfLengths(e.RootList()) == SumOfLengths(e.EvidenceList()) == 0
  {
    hide SumOfLengths;
    SumOfParts(e.ResultList(), e.RootList());
    SumOfParts(e.ResultList() + e.RootList(), e.EvidenceList());
    assert e.records == (e.ResultList() + e.RootList()) + e.EvidenceList();
    NoRecords(e);
  }

  lemma NoRecords(e: Envelope)
    requires e.Shaped()
    ensures e.context == None ==> SumOfLengths(e.RootList()) == SumOfLengths(e.EvidenceList()) == 0
  {
    hide SumOfLengths;
    NothingToSum(e.RootList());
    NothingToSum(e.EvidenceList());
  }

  /** One record's new text changes the sum by exactly its own difference. */
  lemma {:induction false} SumAfterChange(rs: seq<RecordValue>, i: nat, r: RecordValue)
    requires i < |rs|
    ensures SumOfLengths(rs[i := r]) == SumOfLengths(rs) - RecordLength(rs[i]) + RecordLength(r)
  {
    hide RecordLength;
    if i == 0 {
      assert rs[i := r][1..] == rs[1..];
    } else {
      assert rs[i := r][1..] == rs[1..][i - 1 := r];
      SumAfterChange(rs[1..], i - 1, r);
    }
  }
}
