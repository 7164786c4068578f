/** What the capture units of a question hold: every message once and in order, each unit a few messages of one session. */
module CaptureCoverage {
  import opened Packing
  import opened CaptureUnits

  function MessagesIn(window: seq<Entry>): seq<Message> {
    if window == [] then [] else [window[0].message] + MessagesIn(window[1..])
  }

  function MessagesOf(units: seq<CaptureUnit>): seq<Message> {
    if units == [] then [] else MessagesIn(units[0].window) + MessagesOf(units[1..])
  }

  function AllMessages(sessions: seq<Session>): seq<Message> {
    if sessions == [] then [] else sessions[0].messages + AllMessages(sessions[1..])
  }

  lemma {:induction false} MessagesInJoin(a: seq<Entry>, b: seq<Entry>)
    ensures MessagesIn(a + b) == MessagesIn(a) + MessagesIn(b)
  {
    if a == [] {
      assert a + b == b;
    } else {
      assert (a + b)[1..] == a[1..] + b;
      MessagesInJoin(a[1..], b);
    }
  }

  lemma {:induction false} MessagesOfJoin(a: seq<CaptureUnit>, b: seq<CaptureUnit>)
    ensures MessagesOf(a + b) == MessagesOf(a) + MessagesOf(b)
  {
    if a == [] {
      assert a + b == b;
    } else {
      assert (a + b)[1..] == a[1..] + b;
      MessagesOfJoin(a[1..], b);
    }
  }

  lemma {:induction false} MessagesAre(window: seq<Entry>, messages: seq<Message>)
    requires |window| == |messages| && forall i :: 0 <= i < |window| ==> window[i].message == messages[i]
    ensures MessagesIn(window) == messages
  {
    if window != [] {
      MessagesAre(window[1..], messages[1..]);
      assert messages == [messages[0]] + messages[1..];
    }
  }

  lemma {:induction false} LabelledHold(unitId: (string, nat) -> string, session: Session, ordinal: nat, windows: seq<seq<Entry>>)
    ensures MessagesOf(Labelled(unitId, session, ordinal, windows)) == MessagesIn(Flatten(windows))
    decreases |windows|
  {
    if windows != [] {
      var unit := CaptureUnit(unitId(session.sessionId, ordinal), session, windows[0]);
      var later := Labelled(unitId, session, ordinal + 1, windows[1..]);
      MessagesOfJoin([unit], later);
      LabelledHold(unitId, session, ordinal + 1, windows[1..]);
      MessagesInJoin(windows[0], Flatten(windows[1..]));
      assert MessagesOf([unit]) == MessagesIn(windows[0]) + [];
    }
  }

  /** No message of any session is lost, repeated or moved. */
  lemma {:induction false} EveryMessageIsInAUnit(unitId: (string, nat) -> string, sessions: seq<Session>)
    ensures MessagesOf(UnitsOf(unitId, sessions)) == AllMessages(sessions)
  {
    if sessions != [] {
      var session := sessions[0];
      EveryMessageIsInAUnit(unitId, sessions[1..]);
      MessagesOfJoin(Labelled(unitId, session, 0, Windows(session)), UnitsOf(unitId, sessions[1..]));
      LabelledHold(unitId, session, 0, Windows(session));
      WindowsAreAShortestCut(session);
      MessagesAre(Entries(session.messages), session.messages);
    }
  }

  /** The unit is the `k`th window of its session: at most four messages, each with its own place there. */
  ghost predicate IsWindowOf(unitId: (string, nat) -> string, unit: CaptureUnit, session: Session, k: nat) {
    && unit.source == session && unit.id == unitId(session.sessionId, k)
    && 1 <= |unit.window| <= 4 && (|unit.window| > 1 ==> |Joined(unit.window)| <= 100_000)
    && (forall e :: e in unit.window ==> e.ordinal < |session.messages| && e.message == session.messages[e.ordinal])
    && (forall i :: 0 <= i < |unit.window| - 1 ==> unit.window[i + 1].ordinal == unit.window[i].ordinal + 1)
  }

  /** The contents of a window, one after the other. */
  ghost function Joined(window: seq<Entry>): string {
    if window == [] then "" else window[0].message.content + Joined(window[1..])
  }

  lemma {:induction false} JoinedLength(window: seq<Entry>)
    ensures |Joined(window)| == Chars(window)
  {
    if window != [] {
      JoinedLength(window[1..]);
    }
  }

  lemma {:induction false} LabelledAt(unitId: (string, nat) -> string, session: Session, ordinal: nat, windows: seq<seq<Entry>>, k: nat)
    requires k < |windows|
    ensures Labelled(unitId, session, ordinal, windows)[k] == CaptureUnit(unitId(session.sessionId, ordinal + k), session, windows[k])
    decreases k
  {
    if k > 0 {
      LabelledAt(unitId, session, ordinal + 1, windows[1..], k - 1);
    }
  }

  /** A part of a cut is a stretch of the whole. */
  lemma {:induction false} PartIsAStretch<T>(parts: seq<seq<T>>, k: nat) returns (from: nat)
    requires k < |parts|
    ensures from + |parts[k]| <= |Flatten(parts)| && parts[k] == Flatten(parts)[from..from + |parts[k]|]
    decreases k
  {
    if k == 0 {
      from := 0;
    } else {
      var later := PartIsAStretch(parts[1..], k - 1);
      from := |parts[0]| + later;
      assert Flatten(parts) == parts[0] + Flatten(parts[1..]);
    }
  }

  lemma WindowIs(unitId: (string, nat) -> string, session: Session, k: nat)
    requires k < |Windows(session)|
    ensures IsWindowOf(unitId, Labelled(unitId, session, 0, Windows(session))[k], session, k)
  {
    hide Chars, Joined, Labelled, Flatten, Windows;
    var window := Windows(session)[k];
    LabelledAt(unitId, session, 0, Windows(session), k);
    WindowsAreAShortestCut(session);
    JoinedLength(window);
    var from := PartIsAStretch(Windows(session), k);
    assert forall i :: 0 <= i < |window| ==> window[i] == Entry(from + i, session.messages[from + i]);
  }

  /** Each unit is one of the windows of one of the sessions. */
  lemma {:induction false} UnitsAreWindows(unitId: (string, nat) -> string, sessions: seq<Session>, unit: CaptureUnit)
    requires unit in UnitsOf(unitId, sessions)
    ensures unit.source in sessions && exists k :: IsWindowOf(unitId, unit, unit.source, k)
  {
    var first := Labelled(unitId, sessions[0], 0, Windows(sessions[0]));
    if k :| 0 <= k < |first| && first[k] == unit {
      WindowIs(unitId, sessions[0], k);
    } else {
      UnitsAreWindows(unitId, sessions[1..], unit);
    }
  }

  /** So the batches that are sent hold every message of the question once and in order. */
  lemma BatchesHoldEveryMessage(unitId: (string, nat) -> string, width: CaptureUnit -> nat, sessions: seq<Session>)
    requires EveryUnitFits(width, UnitsOf(unitId, sessions))
    ensures MessagesOf(Flatten(Batches(width, UnitsOf(unitId, sessions)))) == AllMessages(sessions)
  {
    BatchesAreAShortestCut(width, UnitsOf(unitId, sessions));
    EveryMessageIsInAUnit(unitId, sessions);
  }

  /** And each is a prompt of at most four units within the character limit; `texts` is the JSON of its units. */
  lemma BatchesAreWithinLimits(width: CaptureUnit -> nat, units: seq<CaptureUnit>, i: nat, texts: seq<string>)
    requires EveryUnitFits(width, units) && i < |Batches(width, units)|
    requires |texts| == |Batches(width, units)[i]| && forall k :: 0 <= k < |texts| ==> |texts[k]| == width(Batches(width, units)[i][k])
    ensures 1 <= |Batches(width, units)[i]| <= 4 && |PromptText(texts)| <= 240_000
  {
    hide PromptText, EncodedLength;
    BatchesAreAShortestCut(width, units);
    PromptLength(width, Batches(width, units)[i], texts);
    assert BatchLimit(width)(Batches(width, units)[i]);
  }
}
