/** The broker's newline-terminated frames, read from a peer that splits them as it likes. */
module Frames {
  import opened Outcomes
  import opened Lines

  const MAX_BROKER_MESSAGE_BYTES: nat := 1_048_576
  const CHUNK_BYTES: nat := 65_536

  datatype FrameError = TooLong | BadFraming

  /** A socket whose peer sends `data` and then closes; `recv` may return any positive part of what is asked for. */
  class Connection {
    const data: seq<byte>
    var pos: nat

    constructor (data: seq<byte>)
      ensures Valid() && this.data == data && pos == 0
    {
      this.data, pos := data, 0;
    }

    ghost predicate Valid()
      reads this
    {
      pos <= |data|
    }

    method Recv(limit: nat) returns (chunk: seq<byte>)
      requires Valid() && limit > 0
      modifies this
      ensures Valid() && old(pos) <= pos <= old(pos) + limit
      ensures pos == old(pos) <==> old(pos) == |data|
      ensures chunk == data[old(pos)..pos]
    {
      if pos == |data| {
        return [];
      }
      var taken: nat :| 0 < taken <= limit && pos + taken <= |data|;
      chunk := data[pos..pos + taken];
      pos := pos + taken;
    }
  }

  /** ASCII whitespace, what `bytes.strip` removes. */
  predicate IsSpace(b: byte) {
    b == 32 || 9 <= b <= 13
  }

  predicate Blank(s: seq<byte>) {
    forall i :: 0 <= i < |s| ==> IsSpace(s[i])
  }

  /** The frame `line` as it goes over the socket, or the refusal to send it. */
  function Framed(line: seq<byte>): Result<seq<byte>, FrameError> {
    if |line| + 1 > MAX_BROKER_MESSAGE_BYTES then Err(TooLong) else Ok(line + [NEWLINE])
  }

  /** The received bytes, at least up to the first newline; nothing when they are over the limit. */
  method ReadPayload(connection: Connection) returns (payload: Option<seq<byte>>)
    requires connection.Valid() && connection.pos == 0
    modifies connection
    ensures payload.Some? ==>
      && |payload.value| == connection.pos <= |connection.data| && payload.value == connection.data[..|payload.value|]
      && |payload.value| <= MAX_BROKER_MESSAGE_BYTES
      && (|payload.value| == |connection.data| || NEWLINE in payload.value)
    ensures payload.None? ==> |connection.data| > MAX_BROKER_MESSAGE_BYTES
  {
    var received: seq<byte> := [];
    while true
      invariant connection.Valid() && received == connection.data[..connection.pos]
      invariant |received| <= MAX_BROKER_MESSAGE_BYTES
      decreases |connection.data| - connection.pos
    {
      var room := MAX_BROKER_MESSAGE_BYTES + 1 - |received|;
      var chunk := connection.Recv(if CHUNK_BYTES < room then CHUNK_BYTES else room);
      if chunk == [] {
        break;
      }
      if |received| + |chunk| > MAX_BROKER_MESSAGE_BYTES {
        return None;
      }
      received := received + chunk;
      if NEWLINE in chunk {
        break;
      }
    }
    return Some(received);
  }

  /**
   * However the peer cuts its data: an accepted frame is the first line of what it
   * sent, within the limit, and what was received after it is blank; a message that is one frame and blanks within the limit
   * is accepted; and only a message over the limit is called too long.
   */
  method ReadFrame(connection: Connection) returns (frame: Result<seq<byte>, FrameError>)
    requires connection.Valid() && connection.pos == 0
    modifies connection
    ensures frame.Ok? ==>
      var end := LineEnd(connection.data, 0);
      0 < end <= MAX_BROKER_MESSAGE_BYTES && connection.data[end - 1] == NEWLINE && frame.value == connection.data[..end - 1]
    ensures frame.Ok? ==> BlankAfterLine(connection.data, connection.pos)
    ensures frame == Err(BadFraming) ==> NEWLINE !in connection.data || !BlankAfterLine(connection.data, connection.pos)
    ensures OneFrame(connection.data) ==> frame.Ok?
    ensures frame == Err(TooLong) ==> |connection.data| > MAX_BROKER_MESSAGE_BYTES
  {
    ghost var data := connection.data;
    var payload := ReadPayload(connection);
    if payload.None? {
      return Err(TooLong);
    }
    var received := payload.value;
    var end := LineEnd(received, 0);
    if end == 0 || received[end - 1] != NEWLINE {
      assert NEWLINE !in received;
      assert received == data;
      return Err(BadFraming);
    }
    LineEndIs(data, 0, end);
    if Blank(data[end..]) {
      BlankUpTo(data, end, |received|);
    }
    assert received[end..] == data[end..connection.pos];
    if !Blank(received[end..]) {
      return Err(BadFraming);
    }
    return Ok(received[..end - 1]);
  }

  lemma BlankUpTo(data: seq<byte>, from: nat, to': nat)
    requires from <= to' <= |data| && Blank(data[from..])
    ensures Blank(data[..to'][from..])
  {
    forall i | 0 <= i < to' - from ensures data[..to'][from..][i] == data[from..][i] {
    }
  }

  /** What was received after the first line is blank. */
  predicate BlankAfterLine(data: seq<byte>, received: nat) {
    LineEnd(data, 0) <= received <= |data| && Blank(data[LineEnd(data, 0)..received])
  }

  predicate OneFrame(data: seq<byte>) {
    && |data| <= MAX_BROKER_MESSAGE_BYTES
    && LineEnd(data, 0) > 0 && data[LineEnd(data, 0) - 1] == NEWLINE
    && Blank(data[LineEnd(data, 0)..])
  }

  /** A frame that was sent is read back, in whatever pieces it arrives; an overlong one is never sent. */
  method RoundTrip(line: seq<byte>) returns (frame: Result<seq<byte>, FrameError>)
    requires forall i :: 0 <= i < |line| ==> line[i] != NEWLINE
    ensures frame == if |line| < MAX_BROKER_MESSAGE_BYTES then Ok(line) else Err(TooLong)
  {
    var sent := Framed(line);
    if sent.Err? {
      return sent;
    }
    var connection := new Connection(sent.value);
    LineEndIs(sent.value, 0, |sent.value|);
    frame := ReadFrame(connection);
  }
}
