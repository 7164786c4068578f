/** Cutting sessions into capture units and units into generator batches. */
module CaptureUnits {
  import opened Outcomes
  import opened Packing

  const MAX_CAPTURE_MESSAGES_PER_UNIT: nat := 4
  const MAX_CAPTURE_UNIT_MESSAGE_CHARS: nat := 100_000
  const MAX_CAPTURE_BATCH_SESSIONS: nat := 4
  const MAX_CAPTURE_PROMPT_CHARS: nat := 240_000
  const MAX_CAPTURE_UNITS_PER_QUESTION: nat := 250

  datatype Message = Message(role: string, content: string)

  /** A message with its place in the session. */
  datatype Entry = Entry(ordinal: nat, message: Message)

  datatype Session = Session(sessionId: string, sourceSessionId: string, date: string, messages: seq<Message>)

  datatype CaptureUnit = CaptureUnit(id: string, source: Session, window: seq<Entry>)

  datatype PartitionError = IdentifierCollision | TooManyUnits | UnitTooLarge

  // ---- windows of messages ----

  function Entries(messages: seq<Message>): (entries: seq<Entry>)
    ensures |entries| == |messages|
    ensures forall i :: 0 <= i < |messages| ==> entries[i] == Entry(i, messages[i])
  {
    seq(|messages|, i requires 0 <= i < |messages| => Entry(i, messages[i]))
  }

  function Chars(window: seq<Entry>): nat {
    if window == [] then 0 else |window[0].message.content| + Chars(window[1..])
  }

  lemma {:induction false} CharsJoin(a: seq<Entry>, b: seq<Entry>)
    ensures Chars(a + b) == Chars(a) + Chars(b)
  {
    if a == [] {
      assert a + b == b;
    } else {
      assert (a + b)[1..] == a[1..] + b;
      CharsJoin(a[1..], b);
    }
  }

  /** One message of any length, or up to four within the character limit. */
  predicate FitsUnit(window: seq<Entry>) {
    |window| == 1
    || (|window| <= MAX_CAPTURE_MESSAGES_PER_UNIT && Chars(window) <= MAX_CAPTURE_UNIT_MESSAGE_CHARS)
  }

  lemma FitsUnitIsHereditary()
    ensures Hereditary(FitsUnit)
  {
    forall a: seq<Entry>, b | a != [] && b != [] && FitsUnit(a + b) ensures FitsUnit(a) && FitsUnit(b) {
      CharsJoin(a, b);
    }
  }

  function Windows(session: Session): seq<seq<Entry>> {
    Pack(FitsUnit, [], Entries(session.messages))
  }

  /**
   * The windows hold every message of the session once and in order, each is
   * within its limits, and no contiguous windows within the limits are fewer.
   */
  lemma WindowsAreAShortestCut(session: Session)
    ensures Cut(FitsUnit, Windows(session), Entries(session.messages))
    ensures forall parts :: Cut(FitsUnit, parts, Entries(session.messages)) ==> |Windows(session)| <= |parts|
  {
    var entries := Entries(session.messages);
    PackIsACut(FitsUnit, [], entries);
    assert [] + entries == entries;
    FitsUnitIsHereditary();
    forall parts | Cut(FitsUnit, parts, entries) ensures |Windows(session)| <= |parts| {
      PackOptimal(FitsUnit, entries, parts);
    }
  }

  // ---- units ----

  /** `unitId` is the digest of a session and the window's ordinal in it. */
  function Labelled(unitId: (string, nat) -> string, session: Session, ordinal: nat, windows: seq<seq<Entry>>)
    : (units: seq<CaptureUnit>)
    ensures |units| == |windows|
    decreases |windows|
  {
    if windows == [] then []
    else [CaptureUnit(unitId(session.sessionId, ordinal), session, windows[0])]
         + Labelled(unitId, session, ordinal + 1, windows[1..])
  }

  function UnitsOf(unitId: (string, nat) -> string, sessions: seq<Session>): seq<CaptureUnit> {
    if sessions == [] then []
    else Labelled(unitId, sessions[0], 0, Windows(sessions[0])) + UnitsOf(unitId, sessions[1..])
  }

  lemma {:induction false} UnitsOfJoin(unitId: (string, nat) -> string, a: seq<Session>, b: seq<Session>)
    ensures UnitsOf(unitId, a + b) == UnitsOf(unitId, a) + UnitsOf(unitId, b)
  {
    if a == [] {
      assert a + b == b;
    } else {
      assert (a + b)[1..] == a[1..] + b;
      UnitsOfJoin(unitId, a[1..], b);
    }
  }

  lemma UnitsOfNext(unitId: (string, nat) -> string, sessions: seq<Session>, i: nat)
    requires i < |sessions|
    ensures UnitsOf(unitId, sessions[..i + 1])
         == UnitsOf(unitId, sessions[..i]) + Labelled(unitId, sessions[i], 0, Windows(sessions[i]))
  {
    var units := Labelled(unitId, sessions[i], 0, Windows(sessions[i]));
    assert sessions[..i + 1] == sessions[..i] + [sessions[i]];
    UnitsOfJoin(unitId, sessions[..i], [sessions[i]]);
    assert units + [] == units;
  }

  ghost predicate DistinctIds(units: seq<CaptureUnit>) {
    forall i, j :: 0 <= i < j < |units| ==> units[i].id != units[j].id
  }

  function Ids(units: seq<CaptureUnit>): set<string> {
    set unit | unit in units :: unit.id
  }

  lemma DistinctIdsAfterOneMore(units: seq<CaptureUnit>, unit: CaptureUnit)
    requires DistinctIds(units)
    ensures DistinctIds(units + [unit]) <==> unit.id !in Ids(units)
    ensures Ids(units + [unit]) == Ids(units) + {unit.id}
  {
    var more := units + [unit];
    assert forall i :: 0 <= i < |units| ==> units[i] in units && more[i] == units[i];
    assert more[|units|] == unit;
  }

  lemma CollisionStays(units: seq<CaptureUnit>, later: seq<CaptureUnit>)
    requires !DistinctIds(units)
    ensures !DistinctIds(units + later)
  {
    var i, j :| 0 <= i < j < |units| && units[i].id == units[j].id;
    assert (units + later)[i].id == (units + later)[j].id;
  }

  lemma CollisionInPrefix(unitId: (string, nat) -> string, sessions: seq<Session>, i: nat)
    requires i <= |sessions| && !DistinctIds(UnitsOf(unitId, sessions[..i]))
    ensures !DistinctIds(UnitsOf(unitId, sessions))
  {
    assert sessions == sessions[..i] + sessions[i..];
    UnitsOfJoin(unitId, sessions[..i], sessions[i..]);
    CollisionStays(UnitsOf(unitId, sessions[..i]), UnitsOf(unitId, sessions[i..]));
  }

  /** `append_window`: gives the finished window its identifier, unless another unit has it. */
  method AppendWindow(unitId: (string, nat) -> string, session: Session, ordinal: nat, window: seq<Entry>,
                      units: seq<CaptureUnit>, identifiers: set<string>)
    returns (collision: bool, units': seq<CaptureUnit>, identifiers': set<string>)
    requires DistinctIds(units) && identifiers == Ids(units)
    ensures units' == units + [CaptureUnit(unitId(session.sessionId, ordinal), session, window)]
    ensures collision <==> !DistinctIds(units')
    ensures !collision ==> identifiers' == Ids(units')
  {
    var unit := CaptureUnit(unitId(session.sessionId, ordinal), session, window);
    DistinctIdsAfterOneMore(units, unit);
    collision, units', identifiers' := unit.id in identifiers, units + [unit], identifiers + {unit.id};
  }

  /** The units still to come when `window` is open and `rest` has not been read. */
  function UnitsToCome(unitId: (string, nat) -> string, session: Session, ordinal: nat, window: seq<Entry>, rest: seq<Entry>)
    : seq<CaptureUnit>
  {
    Labelled(unitId, session, ordinal, Pack(FitsUnit, window, rest))
  }

  lemma UnitsToComeNext(unitId: (string, nat) -> string, session: Session, ordinal: nat, window: seq<Entry>,
                        entries: seq<Entry>, m: nat)
    requires m < |entries|
    ensures window == [] || FitsUnit(window + [entries[m]]) ==>
      UnitsToCome(unitId, session, ordinal, window, entries[m..])
      == UnitsToCome(unitId, session, ordinal, window + [entries[m]], entries[m + 1..])
    ensures window != [] && !FitsUnit(window + [entries[m]]) ==>
      UnitsToCome(unitId, session, ordinal, window, entries[m..])
      == [CaptureUnit(unitId(session.sessionId, ordinal), session, window)]
         + UnitsToCome(unitId, session, ordinal + 1, [entries[m]], entries[m + 1..])
  {
    PackNext(FitsUnit, window, entries, m);
  }

  lemma UnitsToComeLast(unitId: (string, nat) -> string, session: Session, ordinal: nat, window: seq<Entry>)
    ensures UnitsToCome(unitId, session, ordinal, window, [])
         == if window == [] then [] else [CaptureUnit(unitId(session.sessionId, ordinal), session, window)]
  {
    assert [window][1..] == [];
  }

  method StartsNewWindow(window: seq<Entry>, windowChars: nat, entry: Entry) returns (starts: bool)
    requires windowChars == Chars(window)
    ensures starts <==> window != [] && !FitsUnit(window + [entry])
  {
    CharsJoin(window, [entry]);
    return window != []
      && (|window| >= MAX_CAPTURE_MESSAGES_PER_UNIT
          || windowChars + |entry.message.content| > MAX_CAPTURE_UNIT_MESSAGE_CHARS);
  }

  /** The units of one session after those of the sessions before it. */
  method SessionUnits(unitId: (string, nat) -> string, session: Session, before: seq<CaptureUnit>, known: set<string>)
    returns (collision: bool, units: seq<CaptureUnit>, identifiers: set<string>)
    requires DistinctIds(before) && known == Ids(before)
    ensures collision <==> !DistinctIds(before + Labelled(unitId, session, 0, Windows(session)))
    ensures !collision ==> units == before + Labelled(unitId, session, 0, Windows(session)) && identifiers == Ids(units)
  {
    var entries := Entries(session.messages);
    var window: seq<Entry>, windowChars, ordinal := [], 0, 0;
    ghost var later := UnitsToCome(unitId, session, 0, [], entries);
    collision, units, identifiers := false, before, known;
    for m := 0 to |entries|
      invariant DistinctIds(units) && identifiers == Ids(units) && windowChars == Chars(window)
      invariant later == UnitsToCome(unitId, session, ordinal, window, entries[m..])
      invariant units + later == before + UnitsToCome(unitId, session, 0, [], entries)
    {
      var entry := entries[m];
      UnitsToComeNext(unitId, session, ordinal, window, entries, m);
      var starts := StartsNewWindow(window, windowChars, entry);
      if starts {
        later := UnitsToCome(unitId, session, ordinal + 1, [entry], entries[m + 1..]);
        collision, units, identifiers := AppendWindow(unitId, session, ordinal, window, units, identifiers);
        assert units + later == before + UnitsToCome(unitId, session, 0, [], entries);
        if collision {
          CollisionStays(units, later);
          return;
        }
        ordinal, window, windowChars := ordinal + 1, [], 0;
        assert [] + [entry] == [entry];
      }
      CharsJoin(window, [entry]);
      window, windowChars := window + [entry], windowChars + |entry.message.content|;
    }
    UnitsToComeLast(unitId, session, ordinal, window);
    assert entries[|entries|..] == [];
    if window != [] {
      collision, units, identifiers := AppendWindow(unitId, session, ordinal, window, units, identifiers);
    }
  }

  method CaptureUnits(unitId: (string, nat) -> string, sessions: seq<Session>)
    returns (result: Result<seq<CaptureUnit>, PartitionError>)
    ensures DistinctIds(UnitsOf(unitId, sessions)) ==> result == Ok(UnitsOf(unitId, sessions))
    ensures !DistinctIds(UnitsOf(unitId, sessions)) ==> result == Err(IdentifierCollision)
  {
    var units: seq<CaptureUnit>, identifiers: set<string> := [], {};
    assert sessions[..0] == [];
    for i := 0 to |sessions|
      invariant units == UnitsOf(unitId, sessions[..i]) && DistinctIds(units) && identifiers == Ids(units)
    {
      var collision;
      UnitsOfNext(unitId, sessions, i);
      collision, units, identifiers := SessionUnits(unitId, sessions[i], units, identifiers);
      if collision {
        CollisionInPrefix(unitId, sessions, i + 1);
        return Err(IdentifierCollision);
      }
    }
    assert sessions[..|sessions|] == sessions;
    return Ok(units);
  }

  // ---- batches ----

  function Widths(width: CaptureUnit -> nat, units: seq<CaptureUnit>): nat {
    if units == [] then 0 else width(units[0]) + Widths(width, units[1..])
  }

  lemma {:induction false} WidthsJoin(width: CaptureUnit -> nat, a: seq<CaptureUnit>, b: seq<CaptureUnit>)
    ensures Widths(width, a + b) == Widths(width, a) + Widths(width, b)
  {
    if a == [] {
      assert a + b == b;
    } else {
      assert (a + b)[1..] == a[1..] + b;
      WidthsJoin(width, a[1..], b);
    }
  }

  /** Length of `{"untrusted_sessions":[...]}` with the units' JSON, `width` characters each, between commas. */
  function EncodedLength(width: CaptureUnit -> nat, units: seq<CaptureUnit>): nat {
    25 + Widths(width, units) + if units == [] then 0 else |units| - 1
  }

  /** Texts between commas. */
  function Listed(texts: seq<string>): string {
    if texts == [] then "" else if |texts| == 1 then texts[0] else texts[0] + "," + Listed(texts[1..])
  }

  function PromptText(texts: seq<string>): string {
    "{\"untrusted_sessions\":[" + Listed(texts) + "]}"
  }

  /** The length that is compared with the limit is that of the prompt's JSON. */
  lemma {:induction false} ListedLength(width: CaptureUnit -> nat, units: seq<CaptureUnit>, texts: seq<string>)
    requires |texts| == |units| && forall i :: 0 <= i < |units| ==> |texts[i]| == width(units[i])
    ensures |Listed(texts)| == Widths(width, units) + if units == [] then 0 else |units| - 1
  {
    if |units| > 0 {
      ListedLength(width, units[1..], texts[1..]);
    }
  }

  lemma PromptLength(width: CaptureUnit -> nat, units: seq<CaptureUnit>, texts: seq<string>)
    requires |texts| == |units| && forall i :: 0 <= i < |units| ==> |texts[i]| == width(units[i])
    ensures |PromptText(texts)| == EncodedLength(width, units)
  {
    ListedLength(width, units, texts);
  }

  predicate FitsBatch(width: CaptureUnit -> nat, batch: seq<CaptureUnit>) {
    |batch| <= MAX_CAPTURE_BATCH_SESSIONS && EncodedLength(width, batch) <= MAX_CAPTURE_PROMPT_CHARS
  }

  function BatchLimit(width: CaptureUnit -> nat): seq<CaptureUnit> -> bool {
    (batch: seq<CaptureUnit>) => FitsBatch(width, batch)
  }

  lemma BatchLimitIsHereditary(width: CaptureUnit -> nat)
    ensures Hereditary(BatchLimit(width))
  {
    forall a: seq<CaptureUnit>, b | a != [] && b != [] && BatchLimit(width)(a + b)
      ensures BatchLimit(width)(a) && BatchLimit(width)(b) {
      WidthsJoin(width, a, b);
    }
  }

  ghost predicate EveryUnitFits(width: CaptureUnit -> nat, units: seq<CaptureUnit>) {
    forall unit :: unit in units ==> FitsBatch(width, [unit])
  }

  function Batches(width: CaptureUnit -> nat, units: seq<CaptureUnit>): seq<seq<CaptureUnit>> {
    Pack(BatchLimit(width), [], units)
  }

  /** The batches hold every unit once and in order, within the limits, and none are fewer. */
  lemma BatchesAreAShortestCut(width: CaptureUnit -> nat, units: seq<CaptureUnit>)
    requires EveryUnitFits(width, units)
    ensures Cut(BatchLimit(width), Batches(width, units), units)
    ensures forall parts :: Cut(BatchLimit(width), parts, units) ==> |Batches(width, units)| <= |parts|
  {
    PackIsACut(BatchLimit(width), [], units);
    assert [] + units == units;
    BatchLimitIsHereditary(width);
    forall parts | Cut(BatchLimit(width), parts, units) ensures |Batches(width, units)| <= |parts| {
      PackOptimal(BatchLimit(width), units, parts);
    }
  }

  /** A unit whose own JSON is over the limit belongs to no cut, so refusing it loses nothing. */
  lemma {:induction false} OversizedUnitHasNoCut(width: CaptureUnit -> nat, units: seq<CaptureUnit>, parts: seq<seq<CaptureUnit>>)
    requires Cut(BatchLimit(width), parts, units)
    ensures EveryUnitFits(width, units)
    decreases |parts|
  {
    if parts != [] {
      OversizedUnitHasNoCut(width, Flatten(parts[1..]), parts[1..]);
      forall unit | unit in parts[0] ensures FitsBatch(width, [unit]) {
        var i :| 0 <= i < |parts[0]| && parts[0][i] == unit;
        var before, later := parts[0][..i], parts[0][i + 1..];
        assert parts[0] == before + ([unit] + later);
        WidthsJoin(width, before, [unit] + later);
        WidthsJoin(width, [unit], later);
      }
    }
  }

  predicate StartsNewBatch(width: CaptureUnit -> nat, current: seq<CaptureUnit>, proposed: seq<CaptureUnit>) {
    current != []
    && (|current| >= MAX_CAPTURE_BATCH_SESSIONS || EncodedLength(width, proposed) > MAX_CAPTURE_PROMPT_CHARS)
  }

  /** The batching loop; it stops at the first unit that fits no prompt. */
  method PackUnits(width: CaptureUnit -> nat, units: seq<CaptureUnit>) returns (tooLarge: bool, batches: seq<seq<CaptureUnit>>)
    ensures tooLarge <==> exists k :: 0 <= k < |units| && !FitsBatch(width, [units[k]])
    ensures !tooLarge ==> batches == Batches(width, units)
  {
    var current: seq<CaptureUnit> := [];
    batches := [];
    ghost var limit, later := BatchLimit(width), Batches(width, units);
    for i := 0 to |units|
      invariant later == Pack(limit, current, units[i..]) && batches + later == Batches(width, units)
      invariant forall k :: 0 <= k < i ==> FitsBatch(width, [units[k]])
    {
      var unit := units[i];
      if EncodedLength(width, [unit]) > MAX_CAPTURE_PROMPT_CHARS {
        return true, [];
      }
      var proposed := current + [unit];
      PackNext(limit, current, units, i);
      if StartsNewBatch(width, current, proposed) {
        later := Pack(limit, [unit], units[i + 1..]);
        assert batches + ([current] + later) == (batches + [current]) + later;
        batches, current := batches + [current], [unit];
      } else {
        current := proposed;
      }
    }
    if current != [] {
      batches := batches + [current];
    }
    return false, batches;
  }

  /**
   * Fails on the first of: two units with one identifier, too many units, a unit
   * that fits no prompt. Otherwise the batches of all units.
   */
  method CaptureBatches(unitId: (string, nat) -> string, width: CaptureUnit -> nat, sessions: seq<Session>)
    returns (result: Result<(seq<seq<CaptureUnit>>, nat), PartitionError>)
    ensures var units := UnitsOf(unitId, sessions);
      result == if !DistinctIds(units) then Err(IdentifierCollision)
                else if |units| > MAX_CAPTURE_UNITS_PER_QUESTION then Err(TooManyUnits)
                else if !EveryUnitFits(width, units) then Err(UnitTooLarge)
                else Ok((Batches(width, units), |units|))
  {
    var captured := CaptureUnits(unitId, sessions);
    if captured.Err? {
      return Err(captured.error);
    }
    var units := captured.value;
    if |units| > MAX_CAPTURE_UNITS_PER_QUESTION {
      return Err(TooManyUnits);
    }
    var tooLarge, batches := PackUnits(width, units);
    return if tooLarge then Err(UnitTooLarge) else Ok((batches, |units|));
  }
}
