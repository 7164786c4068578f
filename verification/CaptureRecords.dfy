/** Screening what the generator answers: which records of which units are kept. */
module CaptureRecords {
  import opened Outcomes
  import opened BoundedTexts
  import opened CaptureUnits

  const MAX_CAPTURE_RECORDS_PER_UNIT: nat := 4
  const MAX_CAPTURE_ID_CHARS: nat := 80
  const MAX_CAPTURE_TOPIC_CHARS: nat := 240
  const MAX_CAPTURE_PAYLOAD_CHARS: nat := 1_600
  const VERBATIM_CHARS: nat := 100

  datatype RawRecord = WrongFields | Raw(unitId: Field, topic: Field, payload: Field)

  /** The generator's answer: unstructured, without a record list, or a list of records. */
  datatype Response = Unusable | Records(raws: seq<RawRecord>)

  datatype Record = Record(unit: CaptureUnit, topic: string, payload: string)

  datatype Screened = Screened(records: seq<Record>, rejectedVerbatim: nat)

  // ---- one record ----

  /** Python's dictionary by identifier: the last of the first `n` units with that identifier. */
  function UnitById(units: seq<CaptureUnit>, id: string, n: nat): (found: Option<CaptureUnit>)
    requires n <= |units|
  {
    if n == 0 then None
    else if units[n - 1].id == id then Some(units[n - 1])
    else UnitById(units, id, n - 1)
  }

  lemma {:induction false} UnitByIdFinds(units: seq<CaptureUnit>, id: string, n: nat)
    requires n <= |units|
    ensures match UnitById(units, id, n)
            case Some(unit) => unit in units && unit.id == id
            case None => forall i :: 0 <= i < n ==> units[i].id != id
  {
    if n > 0 && units[n - 1].id != id {
      UnitByIdFinds(units, id, n - 1);
    }
  }

  function ReadRaw(units: seq<CaptureUnit>, raw: RawRecord): Option<Record> {
    match raw
    case WrongFields => None
    case Raw(unitId, rawTopic, rawPayload) =>
      match BoundedText(unitId, MAX_CAPTURE_ID_CHARS)
      case None => None
      case Some(id) =>
        var topic, payload := BoundedText(rawTopic, MAX_CAPTURE_TOPIC_CHARS), BoundedText(rawPayload, MAX_CAPTURE_PAYLOAD_CHARS);
        var unit := UnitById(units, id, |units|);
        if topic.None? || payload.None? || unit.None? then None else Some(Record(unit.value, topic.value, payload.value))
  }

  predicate Contains(text: string, part: string) {
    part <= text || (text != [] && Contains(text[1..], part))
  }

  predicate Copied(r: Record) {
    exists i :: 0 <= i < |r.unit.window| && |r.payload| >= VERBATIM_CHARS && Contains(r.unit.window[i].message.content, r.payload)
  }

  // ---- all records ----

  function CountOfUnit(rs: seq<Record>, id: string): nat {
    if rs == [] then 0
    else CountOfUnit(rs[..|rs| - 1], id) + if rs[|rs| - 1].unit.id == id then 1 else 0
  }

  type Reader = RawRecord -> Option<Record>

  function ReaderOf(units: seq<CaptureUnit>): Reader {
    raw => ReadRaw(units, raw)
  }

  /** The first `n` records, cleaned, unless one is malformed or a unit has more than four. */
  function ReadFirst(read: Reader, raws: seq<RawRecord>, n: nat): Option<seq<Record>>
    requires n <= |raws|
  {
    if n == 0 then Some([])
    else
      var earlier, last := ReadFirst(read, raws, n - 1), read(raws[n - 1]);
      if earlier.None? || last.None? then None
      else if CountOfUnit(earlier.value, last.value.unit.id) >= MAX_CAPTURE_RECORDS_PER_UNIT then None
      else Some(earlier.value + [last.value])
  }

  type Key = (string, string, string)

  function KeyOf(fold: string -> string, r: Record): Key {
    (r.unit.id, fold(r.topic), fold(r.payload))
  }

  function Keys(fold: string -> string, rs: seq<Record>): set<Key> {
    set r | r in rs :: KeyOf(fold, r)
  }

  /** Copied records go, and of the rest all but the first with the same key. */
  function Kept(fold: string -> string, rs: seq<Record>): seq<Record> {
    if rs == [] then []
    else
      var earlier, last := Kept(fold, rs[..|rs| - 1]), rs[|rs| - 1];
      if Copied(last) || KeyOf(fold, last) in Keys(fold, earlier) then earlier else earlier + [last]
  }

  function CopiedIn(rs: seq<Record>): nat {
    if rs == [] then 0 else CopiedIn(rs[..|rs| - 1]) + if Copied(rs[|rs| - 1]) then 1 else 0
  }

  function Sifted(fold: string -> string, rs: Option<seq<Record>>): Option<Screened> {
    if rs.None? then None else Some(Screened(Kept(fold, rs.value), CopiedIn(rs.value)))
  }

  function Screen(fold: string -> string, response: Response, units: seq<CaptureUnit>): Option<Screened> {
    if response.Unusable? || |response.raws| > |units| * MAX_CAPTURE_RECORDS_PER_UNIT then None
    else Sifted(fold, ReadFirst(ReaderOf(units), response.raws, |response.raws|))
  }

  lemma CountNext(rs: seq<Record>, r: Record, id: string)
    ensures CountOfUnit(rs + [r], id) == CountOfUnit(rs, id) + if r.unit.id == id then 1 else 0
  {
    assert (rs + [r])[..|rs|] == rs;
  }

  lemma KeptNext(fold: string -> string, rs: seq<Record>, r: Record)
    ensures Kept(fold, rs + [r])
         == if Copied(r) || KeyOf(fold, r) in Keys(fold, Kept(fold, rs)) then Kept(fold, rs) else Kept(fold, rs) + [r]
    ensures CopiedIn(rs + [r]) == CopiedIn(rs) + if Copied(r) then 1 else 0
  {
    assert (rs + [r])[..|rs|] == rs;
  }

  lemma KeysNext(fold: string -> string, rs: seq<Record>, r: Record)
    ensures Keys(fold, rs + [r]) == Keys(fold, rs) + {KeyOf(fold, r)}
  {
  }

  ghost predicate CountsAgree(counts: map<string, nat>, rs: seq<Record>) {
    forall id :: (if id in counts then counts[id] else 0) == CountOfUnit(rs, id)
  }

  /** Whether a unit may have one more record, and the counts with it. */
  method CountOneMore(counts: map<string, nat>, r: Record, ghost rs: seq<Record>)
    returns (allowed: bool, counts': map<string, nat>)
    requires CountsAgree(counts, rs)
    ensures allowed <==> CountOfUnit(rs, r.unit.id) < MAX_CAPTURE_RECORDS_PER_UNIT
    ensures CountsAgree(counts', rs + [r])
  {
    var count := if r.unit.id in counts then counts[r.unit.id] else 0;
    counts' := counts[r.unit.id := count + 1];
    forall id ensures (if id in counts' then counts'[id] else 0) == CountOfUnit(rs + [r], id) {
      CountNext(rs, r, id);
    }
    return count + 1 <= MAX_CAPTURE_RECORDS_PER_UNIT, counts';
  }

  /** What the next record adds to the output, the seen keys and the number of copied records. */
  method KeepOneMore(fold: string -> string, r: Record, seen: set<Key>, output: seq<Record>, rejected: nat, ghost rs: seq<Record>)
    returns (seen': set<Key>, output': seq<Record>, rejected': nat)
    requires output == Kept(fold, rs) && rejected == CopiedIn(rs) && seen == Keys(fold, output)
    ensures output' == Kept(fold, rs + [r]) && rejected' == CopiedIn(rs + [r]) && seen' == Keys(fold, output')
  {
    seen', output', rejected' := seen, output, rejected;
    KeptNext(fold, rs, r);
    if Copied(r) {
      rejected' := rejected + 1;
    } else if KeyOf(fold, r) !in seen {
      KeysNext(fold, output, r);
      seen', output' := seen + {KeyOf(fold, r)}, output + [r];
    }
  }

  /** What the loop over the raw records updates. */
  datatype Tables = Tables(counts: map<string, nat>, seen: set<Key>, output: seq<Record>, rejected: nat)

  ghost predicate Tabulates(fold: string -> string, t: Tables, rs: Option<seq<Record>>) {
    && rs.Some? && CountsAgree(t.counts, rs.value)
    && t.output == Kept(fold, rs.value) && t.rejected == CopiedIn(rs.value) && t.seen == Keys(fold, t.output)
  }

  /** One turn of the loop. */
  method ScreenOne(fold: string -> string, read: Reader, raws: seq<RawRecord>, i: nat, t: Tables)
    returns (allowed: bool, t': Tables)
    requires i < |raws| && Tabulates(fold, t, ReadFirst(read, raws, i))
    ensures allowed ==> Tabulates(fold, t', ReadFirst(read, raws, i + 1))
    ensures !allowed ==> ReadFirst(read, raws, i + 1).None?
  {
    ghost var rs := ReadFirst(read, raws, i).value;
    var next := read(raws[i]);
    if next.None? {
      return false, t;
    }
    var counts;
    allowed, counts := CountOneMore(t.counts, next.value, rs);
    var seen, output, rejected := KeepOneMore(fold, next.value, t.seen, t.output, t.rejected, rs);
    t' := Tables(counts, seen, output, rejected);
  }

  method ScreenEach(fold: string -> string, read: Reader, raws: seq<RawRecord>) returns (result: Option<Screened>)
    ensures result == Sifted(fold, ReadFirst(read, raws, |raws|))
  {
    var t := Tables(map[], {}, [], 0);
    for i := 0 to |raws|
      invariant Tabulates(fold, t, ReadFirst(read, raws, i))
    {
      var allowed;
      allowed, t := ScreenOne(fold, read, raws, i, t);
      if !allowed {
        ReadStops(read, raws, i + 1, |raws|);
        return None;
      }
    }
    return Some(Screened(t.output, t.rejected));
  }

  /** `_capture_records`. */
  method ScreenRecords(fold: string -> string, response: Response, units: seq<CaptureUnit>)
    returns (result: Option<Screened>)
    ensures result == Screen(fold, response, units)
  {
    if response.Unusable? || |response.raws| > |units| * MAX_CAPTURE_RECORDS_PER_UNIT {
      return None;
    }
    result := ScreenEach(fold, ReaderOf(units), response.raws);
  }

  lemma {:induction false} ReadStops(read: Reader, raws: seq<RawRecord>, i: nat, n: nat)
    requires i <= n <= |raws| && ReadFirst(read, raws, i).None?
    ensures ReadFirst(read, raws, n).None?
  {
    if i < n {
      ReadStops(read, raws, i, n - 1);
    }
  }

  // ---- what a screened answer is ----

  ghost predicate IsClean(units: seq<CaptureUnit>, r: Record) {
    && r.unit in units
    && IsBounded(r.unit.id, MAX_CAPTURE_ID_CHARS)
    && IsBounded(r.topic, MAX_CAPTURE_TOPIC_CHARS)
    && IsBounded(r.payload, MAX_CAPTURE_PAYLOAD_CHARS)
  }

  ghost predicate DistinctKeys(fold: string -> string, rs: seq<Record>) {
    forall i, j :: 0 <= i < j < |rs| ==> KeyOf(fold, rs[i]) != KeyOf(fold, rs[j])
  }

  ghost predicate WithinUnitBound(rs: seq<Record>) {
    forall id :: CountOfUnit(rs, id) <= MAX_CAPTURE_RECORDS_PER_UNIT
  }

  /** Records of these units, at most four each, none copied and no two with one key. */
  ghost predicate Settled(fold: string -> string, units: seq<CaptureUnit>, rs: seq<Record>) {
    && (forall r :: r in rs ==> IsClean(units, r) && !Copied(r))
    && WithinUnitBound(rs)
    && DistinctKeys(fold, rs)
  }

  lemma ReadRawIsClean(units: seq<CaptureUnit>, raw: RawRecord)
    requires ReadRaw(units, raw).Some?
    ensures IsClean(units, ReadRaw(units, raw).value)
  {
    UnitByIdFinds(units, BoundedText(raw.unitId, MAX_CAPTURE_ID_CHARS).value, |units|);
  }

  lemma BoundAfterOneMore(rs: seq<Record>, r: Record)
    requires WithinUnitBound(rs) && CountOfUnit(rs, r.unit.id) < MAX_CAPTURE_RECORDS_PER_UNIT
    ensures WithinUnitBound(rs + [r])
  {
    forall id ensures CountOfUnit(rs + [r], id) <= MAX_CAPTURE_RECORDS_PER_UNIT {
      CountNext(rs, r, id);
    }
  }

  lemma {:induction false} ReadIsClean(units: seq<CaptureUnit>, raws: seq<RawRecord>, n: nat)
    requires n <= |raws| && ReadFirst(ReaderOf(units), raws, n).Some?
    ensures |ReadFirst(ReaderOf(units), raws, n).value| == n && WithinUnitBound(ReadFirst(ReaderOf(units), raws, n).value)
    ensures forall r :: r in ReadFirst(ReaderOf(units), raws, n).value ==> IsClean(units, r)
  {
    hide BoundedText;
    if n > 0 {
      ReadIsClean(units, raws, n - 1);
      ReadRawIsClean(units, raws[n - 1]);
      BoundAfterOneMore(ReadFirst(ReaderOf(units), raws, n - 1).value, ReadRaw(units, raws[n - 1]).value);
    }
  }

  lemma {:induction false} KeptIsAFilter(fold: string -> string, rs: seq<Record>)
    ensures forall r :: r in Kept(fold, rs) ==> r in rs && !Copied(r)
    ensures forall r :: r in rs && !Copied(r) ==> KeyOf(fold, r) in Keys(fold, Kept(fold, rs))
    ensures DistinctKeys(fold, Kept(fold, rs))
    ensures forall id :: CountOfUnit(Kept(fold, rs), id) <= CountOfUnit(rs, id)
  {
    if rs != [] {
      var earlier, last := Kept(fold, rs[..|rs| - 1]), rs[|rs| - 1];
      KeptIsAFilter(fold, rs[..|rs| - 1]);
      KeysNext(fold, earlier, last);
      forall id ensures CountOfUnit(Kept(fold, rs), id) <= CountOfUnit(rs, id) {
        CountNext(earlier, last, id);
      }
      forall i | 0 <= i < |earlier| ensures KeyOf(fold, earlier[i]) in Keys(fold, earlier) {
        assert earlier[i] in earlier;
      }
    }
  }

  // ---- which records are kept, told of each record ----

  /** `part` is found in `text` at some place. */
  lemma {:induction false} ContainsIs(text: string, part: string)
    ensures Contains(text, part) <==> exists i :: 0 <= i <= |text| && part <= text[i..]
  {
    if text == [] {
      assert part <= text <==> part <= text[0..];
    } else {
      ContainsIs(text[1..], part);
      assert text[0..] == text;
      forall i | 0 <= i <= |text[1..]| ensures text[1..][i..] == text[i + 1..] {
      }
      if part <= text {
        assert part <= text[0..];
      } else if i :| 0 <= i <= |text| && part <= text[i..] {
        assert text[1..][i - 1..] == text[i..];
      }
    }
  }

  /** A long payload that stands word for word in one of the unit's messages. */
  ghost predicate IsCopy(r: Record) {
    && |r.payload| >= 100
    && exists w, i {:trigger r.unit.window[w].message.content[i..]} ::
         0 <= w < |r.unit.window| && 0 <= i <= |r.unit.window[w].message.content| && r.payload <= r.unit.window[w].message.content[i..]
  }

  lemma CopiedIs(r: Record)
    ensures Copied(r) <==> IsCopy(r)
  {
    forall w | 0 <= w < |r.unit.window| ensures Contains(r.unit.window[w].message.content, r.payload)
      <==> exists i :: 0 <= i <= |r.unit.window[w].message.content| && r.payload <= r.unit.window[w].message.content[i..]
    {
      ContainsIs(r.unit.window[w].message.content, r.payload);
    }
  }

  /** Two records that say the same of one unit, but for case. */
  ghost predicate SaysTheSame(fold: string -> string, a: Record, b: Record) {
    a.unit.id == b.unit.id && fold(a.topic) == fold(b.topic) && fold(a.payload) == fold(b.payload)
  }

  /** The record is no copy and none before it that is no copy says the same. */
  ghost predicate IsFirstOfItsKind(fold: string -> string, rs: seq<Record>, i: nat)
    requires i < |rs|
  {
    !IsCopy(rs[i]) && forall j :: 0 <= j < i && SaysTheSame(fold, rs[j], rs[i]) ==> IsCopy(rs[j])
  }

  /** The records of which `chosen` holds, in their order. */
  ghost function Chosen(rs: seq<Record>, chosen: nat -> bool): seq<Record> {
    if rs == [] then []
    else Chosen(rs[..|rs| - 1], chosen) + if chosen(|rs| - 1) then [rs[|rs| - 1]] else []
  }

  /** Exactly the first record of each kind is kept, in order. */
  lemma {:induction false} KeptAreTheFirst(fold: string -> string, rs: seq<Record>, first: nat -> bool)
    requires forall i: nat :: i < |rs| ==> (first(i) <==> IsFirstOfItsKind(fold, rs, i))
    ensures Kept(fold, rs) == Chosen(rs, first)
  {
    hide IsFirstOfItsKind;
    if rs != [] {
      forall i: nat | i < |rs| - 1 ensures first(i) <==> IsFirstOfItsKind(fold, rs[..|rs| - 1], i) {
        FirstInPrefix(fold, rs, i);
      }
      KeptAreTheFirst(fold, rs[..|rs| - 1], first);
      LastIsFirst(fold, rs);
    }
  }

  lemma FirstInPrefix(fold: string -> string, rs: seq<Record>, i: nat)
    requires i < |rs| - 1
    ensures IsFirstOfItsKind(fold, rs[..|rs| - 1], i) <==> IsFirstOfItsKind(fold, rs, i)
  {
    hide IsCopy, SaysTheSame;
  }

  lemma LastIsFirst(fold: string -> string, rs: seq<Record>)
    requires rs != []
    ensures var init, last := rs[..|rs| - 1], rs[|rs| - 1];
      IsFirstOfItsKind(fold, rs, |rs| - 1) <==> !Copied(last) && KeyOf(fold, last) !in Keys(fold, Kept(fold, init))
  {
    hide IsCopy, SaysTheSame, Copied, KeyOf, Keys, Kept;
    CopiedIs(rs[|rs| - 1]);
    SeenBefore(fold, rs[..|rs| - 1], rs[|rs| - 1]);
  }

  lemma SeenBefore(fold: string -> string, rs: seq<Record>, r: Record)
    ensures KeyOf(fold, r) in Keys(fold, Kept(fold, rs)) <==> exists j :: 0 <= j < |rs| && SaysTheSame(fold, rs[j], r) && !IsCopy(rs[j])
  {
    KeptIsAFilter(fold, rs);
    if KeyOf(fold, r) in Keys(fold, Kept(fold, rs)) {
      var kept :| kept in Kept(fold, rs) && KeyOf(fold, kept) == KeyOf(fold, r);
      CopiedIs(kept);
      var j :| 0 <= j < |rs| && rs[j] == kept;
      assert SaysTheSame(fold, rs[j], r);
    }
    if j :| 0 <= j < |rs| && SaysTheSame(fold, rs[j], r) && !IsCopy(rs[j]) {
      CopiedIs(rs[j]);
      assert rs[j] in rs && KeyOf(fold, rs[j]) == KeyOf(fold, r);
    }
  }

  /** And the number of rejected records is that of the copies. */
  lemma {:induction false} RejectedAreTheCopies(rs: seq<Record>)
    ensures CopiedIn(rs) == |set i | 0 <= i < |rs| && IsCopy(rs[i])|
  {
    hide IsCopy, Copied;
    var copies := set i | 0 <= i < |rs| && IsCopy(rs[i]);
    if rs == [] {
      assert copies == {};
    } else {
      var init, n := rs[..|rs| - 1], |rs| - 1;
      RejectedAreTheCopies(init);
      CopiedIs(rs[n]);
      var earlier := set i | 0 <= i < |init| && IsCopy(init[i]);
      assert copies == if IsCopy(rs[n]) then earlier + {n} else earlier;
    }
  }

  // ---- when an answer is refused ----

  /** What a raw record says: of the last unit with that id, when its three texts are within their bounds. */
  lemma ReadRawIs(units: seq<CaptureUnit>, unitId: Field, topic: Field, payload: Field)
    ensures var id := BoundedText(unitId, 80);
      var r := ReadRaw(units, Raw(unitId, topic, payload));
      && (r.None? <==> id.None? || BoundedText(topic, 240).None? || BoundedText(payload, 1_600).None?
                       || forall k :: 0 <= k < |units| ==> units[k].id != id.value)
      && (r.Some? ==> r.value.unit in units && r.value.unit.id == id.value
                      && BoundedText(topic, 240) == Some(r.value.topic) && BoundedText(payload, 1_600) == Some(r.value.payload))
  {
    var id := BoundedText(unitId, 80);
    if id.Some? {
      UnitByIdFinds(units, id.value, |units|);
    }
  }

  /** The places before `n` that hold records of the unit `id`. */
  ghost function PlacesOf(read: Reader, raws: seq<RawRecord>, n: nat, id: string): set<int>
    requires n <= |raws|
  {
    set j | 0 <= j < n && read(raws[j]).Some? && read(raws[j]).value.unit.id == id
  }

  /** The record cannot be read, or it is the fifth of its unit. */
  ghost predicate Breaks(read: Reader, raws: seq<RawRecord>, i: nat)
    requires i < |raws|
  {
    read(raws[i]).None? || |PlacesOf(read, raws, i, read(raws[i]).value.unit.id)| >= 4
  }

  lemma PlacesNext(read: Reader, raws: seq<RawRecord>, n: nat, id: string)
    requires n < |raws| && read(raws[n]).Some?
    ensures |PlacesOf(read, raws, n + 1, id)| == |PlacesOf(read, raws, n, id)| + if read(raws[n]).value.unit.id == id then 1 else 0
  {
    assert PlacesOf(read, raws, n + 1, id)
        == if read(raws[n]).value.unit.id == id then PlacesOf(read, raws, n, id) + {n} else PlacesOf(read, raws, n, id);
  }

  lemma {:induction false} CountOfPlaces(read: Reader, raws: seq<RawRecord>, n: nat, id: string)
    requires n <= |raws| && ReadFirst(read, raws, n).Some?
    ensures CountOfUnit(ReadFirst(read, raws, n).value, id) == |PlacesOf(read, raws, n, id)|
  {
    if n == 0 {
      assert PlacesOf(read, raws, n, id) == {};
    } else {
      CountOfPlaces(read, raws, n - 1, id);
      PlacesNext(read, raws, n - 1, id);
      CountNext(ReadFirst(read, raws, n - 1).value, read(raws[n - 1]).value, id);
    }
  }

  /** Reading stops exactly at a record that breaks a rule, and otherwise gives every record in its place. */
  lemma {:induction false} ReadsAllOrNothing(read: Reader, raws: seq<RawRecord>, n: nat)
    requires n <= |raws|
    ensures ReadFirst(read, raws, n).None? <==> exists i :: 0 <= i < n && Breaks(read, raws, i)
    ensures ReadFirst(read, raws, n).Some? ==> |ReadFirst(read, raws, n).value| == n
    ensures ReadFirst(read, raws, n).Some? ==> forall i :: 0 <= i < n ==> read(raws[i]) == Some(ReadFirst(read, raws, n).value[i])
  {
    if n > 0 {
      ReadsAllOrNothing(read, raws, n - 1);
      if ReadFirst(read, raws, n - 1).Some? && read(raws[n - 1]).Some? {
        CountOfPlaces(read, raws, n - 1, read(raws[n - 1]).value.unit.id);
      }
      assert Breaks(read, raws, n - 1) || !Breaks(read, raws, n - 1);
    }
  }

  /** An answer is refused exactly when it is no record list, too long, or has a record that breaks a rule. */
  lemma RefusedExactly(fold: string -> string, response: Response, units: seq<CaptureUnit>)
    ensures Screen(fold, response, units).None? <==>
      response.Unusable? || |response.raws| > 4 * |units|
      || exists i :: 0 <= i < |response.raws| && Breaks(ReaderOf(units), response.raws, i)
  {
    if response.Records? {
      ReadsAllOrNothing(ReaderOf(units), response.raws, |response.raws|);
    }
  }

  /** Whatever the generator answers, what is kept is settled. */
  lemma ScreenedIsSettled(fold: string -> string, response: Response, units: seq<CaptureUnit>)
    requires Screen(fold, response, units).Some?
    ensures Settled(fold, units, Screen(fold, response, units).value.records)
  {
    ReadIsClean(units, response.raws, |response.raws|);
    var rs := ReadFirst(ReaderOf(units), response.raws, |response.raws|).value;
    KeptIsAFilter(fold, rs);
    forall id ensures CountOfUnit(Kept(fold, rs), id) <= MAX_CAPTURE_RECORDS_PER_UNIT {
      assert CountOfUnit(rs, id) <= MAX_CAPTURE_RECORDS_PER_UNIT;
    }
  }

  // ---- reading settled records back ----

  /** How the cache stores a record. */
  function Stored(r: Record): RawRecord {
    Raw(Text(r.unit.id), Text(r.topic), Text(r.payload))
  }

  function StoredAll(rs: seq<Record>): (raws: seq<RawRecord>)
    ensures |raws| == |rs| && forall i :: 0 <= i < |rs| ==> raws[i] == Stored(rs[i])
  {
    seq(|rs|, i requires 0 <= i < |rs| => Stored(rs[i]))
  }

  lemma SameIdSameUnit(units: seq<CaptureUnit>, unit: CaptureUnit)
    requires DistinctIds(units) && unit in units
    ensures UnitById(units, unit.id, |units|) == Some(unit)
  {
    UnitByIdFinds(units, unit.id, |units|);
    var i :| 0 <= i < |units| && units[i] == unit;
    var found := UnitById(units, unit.id, |units|).value;
    var j :| 0 <= j < |units| && units[j] == found;
    assert i == j || units[i].id != units[j].id;
  }

  lemma ReadBackOne(units: seq<CaptureUnit>, r: Record)
    requires DistinctIds(units) && IsClean(units, r)
    ensures ReadRaw(units, Stored(r)) == Some(r)
  {
    SameIdSameUnit(units, r.unit);
  }

  lemma {:induction false} PrefixHasNoMore(rs: seq<Record>, n: nat, id: string)
    requires n <= |rs|
    ensures CountOfUnit(rs[..n], id) <= CountOfUnit(rs, id)
    decreases |rs|
  {
    if n == |rs| {
      assert rs[..n] == rs;
    } else {
      assert rs[..|rs| - 1][..n] == rs[..n];
      PrefixHasNoMore(rs[..|rs| - 1], n, id);
    }
  }

  ghost predicate ReadsBackAt(read: Reader, raws: seq<RawRecord>, rs: seq<Record>, i: nat)
    requires i < |raws| == |rs|
  {
    read(raws[i]) == Some(rs[i]) && CountOfUnit(rs[..i], rs[i].unit.id) < MAX_CAPTURE_RECORDS_PER_UNIT
  }

  lemma StoredReadsBackAt(units: seq<CaptureUnit>, rs: seq<Record>, i: nat)
    requires DistinctIds(units) && WithinUnitBound(rs) && i < |rs| && IsClean(units, rs[i])
    ensures ReadsBackAt(ReaderOf(units), StoredAll(rs), rs, i)
  {
    ReadBackOne(units, rs[i]);
    var id := rs[i].unit.id;
    assert rs[..i + 1] == rs[..i] + [rs[i]];
    CountNext(rs[..i], rs[i], id);
    PrefixHasNoMore(rs, i + 1, id);
    assert CountOfUnit(rs, id) <= MAX_CAPTURE_RECORDS_PER_UNIT;
  }

  lemma {:induction false} ReadBack(read: Reader, raws: seq<RawRecord>, rs: seq<Record>, n: nat)
    requires n <= |rs| == |raws| && forall i :: 0 <= i < |rs| ==> ReadsBackAt(read, raws, rs, i)
    ensures ReadFirst(read, raws, n) == Some(rs[..n])
  {
    if n > 0 {
      ReadBack(read, raws, rs, n - 1);
      assert ReadsBackAt(read, raws, rs, n - 1);
      assert rs[..n] == rs[..n - 1] + [rs[n - 1]];
    }
  }

  lemma {:induction false} NothingToDrop(fold: string -> string, rs: seq<Record>)
    requires DistinctKeys(fold, rs) && forall r :: r in rs ==> !Copied(r)
    ensures Kept(fold, rs) == rs && CopiedIn(rs) == 0
  {
    if rs != [] {
      var init, last := rs[..|rs| - 1], rs[|rs| - 1];
      NothingToDrop(fold, init);
      KeptNext(fold, init, last);
      assert init + [last] == rs && last in rs;
    }
  }

  lemma {:induction false} NoMoreThanFourEach(units: seq<CaptureUnit>, rs: seq<Record>)
    requires WithinUnitBound(rs) && DistinctIds(units) && forall r :: r in rs ==> r.unit in units
    ensures |rs| <= |units| * MAX_CAPTURE_RECORDS_PER_UNIT
  {
    if units == [] {
      assert forall r :: r !in rs;
    } else {
      var unit, fewer := units[|units| - 1], units[..|units| - 1];
      var others := OfOtherUnits(rs, unit.id);
      CountWithout(rs, unit.id);
      forall r | r in others ensures r.unit in fewer {
        var i :| 0 <= i < |units| && units[i] == r.unit;
        assert fewer[i] == r.unit;
      }
      forall id ensures CountOfUnit(others, id) <= MAX_CAPTURE_RECORDS_PER_UNIT {
        assert CountOfUnit(rs, id) <= MAX_CAPTURE_RECORDS_PER_UNIT;
      }
      NoMoreThanFourEach(fewer, others);
      assert CountOfUnit(rs, unit.id) <= MAX_CAPTURE_RECORDS_PER_UNIT;
    }
  }

  function OfOtherUnits(rs: seq<Record>, id: string): seq<Record> {
    if rs == [] then []
    else OfOtherUnits(rs[..|rs| - 1], id) + if rs[|rs| - 1].unit.id == id then [] else [rs[|rs| - 1]]
  }

  lemma {:induction false} CountWithout(rs: seq<Record>, id: string)
    ensures |rs| == |OfOtherUnits(rs, id)| + CountOfUnit(rs, id)
    ensures forall r :: r in OfOtherUnits(rs, id) ==> r in rs && r.unit.id != id
    ensures forall other :: CountOfUnit(OfOtherUnits(rs, id), other) <= CountOfUnit(rs, other)
  {
    if rs != [] {
      var init, last := rs[..|rs| - 1], rs[|rs| - 1];
      CountWithout(init, id);
      var others := OfOtherUnits(init, id);
      assert (others + [last])[..|others|] == others;
      assert others + [] == others;
    }
  }

  /** Screening is the identity exactly on the settled records of units with distinct identifiers. */
  lemma RevalidationIsTheIdentity(fold: string -> string, units: seq<CaptureUnit>, rs: seq<Record>)
    requires DistinctIds(units)
    ensures Screen(fold, Records(StoredAll(rs)), units) == Some(Screened(rs, 0)) <==> Settled(fold, units, rs)
  {
    if Settled(fold, units, rs) {
      forall i | 0 <= i < |rs| ensures ReadsBackAt(ReaderOf(units), StoredAll(rs), rs, i) {
        assert rs[i] in rs;
        StoredReadsBackAt(units, rs, i);
      }
      ReadBack(ReaderOf(units), StoredAll(rs), rs, |rs|);
      assert rs[..|rs|] == rs;
      NothingToDrop(fold, rs);
      NoMoreThanFourEach(units, rs);
    }
    if Screen(fold, Records(StoredAll(rs)), units) == Some(Screened(rs, 0)) {
      ScreenedIsSettled(fold, Records(StoredAll(rs)), units);
    }
  }

  // ---- settled records of two groups of units ----

  lemma {:induction false} CountOfJoin(a: seq<Record>, b: seq<Record>, id: string)
    ensures CountOfUnit(a + b, id) == CountOfUnit(a, id) + CountOfUnit(b, id)
    decreases |b|
  {
    if b == [] {
      assert a + b == a;
    } else {
      assert (a + b)[..|a + b| - 1] == a + b[..|b| - 1];
      CountOfJoin(a, b[..|b| - 1], id);
    }
  }

  lemma {:induction false} CountOfStranger(rs: seq<Record>, id: string)
    requires forall r :: r in rs ==> r.unit.id != id
    ensures CountOfUnit(rs, id) == 0
  {
    if rs != [] {
      CountOfStranger(rs[..|rs| - 1], id);
    }
  }

  /** The union of settled records of disjoint units is settled. */
  lemma SettledJoin(fold: string -> string, left: seq<CaptureUnit>, right: seq<CaptureUnit>, a: seq<Record>, b: seq<Record>)
    requires DistinctIds(left + right) && Settled(fold, left, a) && Settled(fold, right, b)
    ensures Settled(fold, left + right, a + b)
  {
    forall r, s | r in a && s in b ensures r.unit.id != s.unit.id {
      UnitsOfSidesDiffer(left, right, r.unit, s.unit);
    }
    forall id ensures CountOfUnit(a + b, id) <= MAX_CAPTURE_RECORDS_PER_UNIT {
      CountOfJoin(a, b, id);
      assert CountOfUnit(a, id) <= MAX_CAPTURE_RECORDS_PER_UNIT && CountOfUnit(b, id) <= MAX_CAPTURE_RECORDS_PER_UNIT;
      if exists r :: r in a && r.unit.id == id {
        CountOfStranger(b, id);
      } else {
        CountOfStranger(a, id);
      }
    }
    forall i, j | 0 <= i < j < |a + b| ensures KeyOf(fold, (a + b)[i]) != KeyOf(fold, (a + b)[j]) {
      if i < |a| && j >= |a| {
        assert a[i] in a && b[j - |a|] in b;
      }
    }
  }

  lemma UnitsOfSidesDiffer(left: seq<CaptureUnit>, right: seq<CaptureUnit>, u: CaptureUnit, v: CaptureUnit)
    requires DistinctIds(left + right) && u in left && v in right
    ensures u.id != v.id
  {
    var i :| 0 <= i < |left| && left[i] == u;
    var j :| 0 <= j < |right| && right[j] == v;
    assert (left + right)[i].id != (left + right)[|left| + j].id;
  }
}
