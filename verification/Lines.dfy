/** Splitting a byte stream at newlines, and the bounded reader that refines it. */
module Lines {
  type byte = b: int | 0 <= b < 256

  const NEWLINE: byte := 10
  const MAX_REQUEST_BYTES: nat := 1_048_576

  function Min(a: nat, b: nat): nat {
    if a < b then a else b
  }

  /** Where the line that starts at `from` ends: just past its newline, or at the end of the data. */
  function LineEnd(data: seq<byte>, from: nat): (end: nat)
    requires from <= |data|
    ensures from <= end <= |data|
    ensures from < |data| ==> from < end
    ensures forall i :: from <= i < end - 1 ==> data[i] != NEWLINE
    ensures end < |data| ==> data[end - 1] == NEWLINE
    decreases |data| - from
  {
    if from == |data| then from
    else if data[from] == NEWLINE then from + 1
    else LineEnd(data, from + 1)
  }

  // ---- the reference: all lines of a stream ----

  function AllLines(data: seq<byte>, from: nat): seq<seq<byte>>
    requires from <= |data|
    decreases |data| - from
  {
    if from == |data| then [] else [data[from..LineEnd(data, from)]] + AllLines(data, LineEnd(data, from))
  }

  function Joined(lines: seq<seq<byte>>): seq<byte> {
    if lines == [] then [] else lines[0] + Joined(lines[1..])
  }

  ghost predicate IsTerminated(line: seq<byte>) {
    line != [] && line[|line| - 1] == NEWLINE && forall i :: 0 <= i < |line| - 1 ==> line[i] != NEWLINE
  }

  /** `AllLines` is the only way to cut a stream into terminated lines and an unterminated rest. */
  lemma {:induction false} LinesAreTheSplit(before: seq<byte>, lines: seq<seq<byte>>, tail: seq<byte>)
    requires forall i :: 0 <= i < |lines| ==> IsTerminated(lines[i])
    requires forall i :: 0 <= i < |tail| ==> tail[i] != NEWLINE
    ensures AllLines(before + (Joined(lines) + tail), |before|) == lines + (if tail == [] then [] else [tail])
    decreases |lines|
  {
    var data := before + (Joined(lines) + tail);
    if lines == [] {
      assert data == before + tail;
      if tail != [] {
        LineEndIs(data, |before|, |data|);
        assert data[|before|..|data|] == tail;
        assert AllLines(data, |data|) == [];
      }
    } else {
      var line, end := lines[0], |before| + |lines[0]|;
      assert data == (before + line) + (Joined(lines[1..]) + tail);
      LineEndIs(data, |before|, end);
      assert data[|before|..end] == line;
      LinesAreTheSplit(before + line, lines[1..], tail);
      assert lines == [line] + lines[1..];
    }
  }

  lemma {:induction false} LineEndIs(data: seq<byte>, from: nat, end: nat)
    requires from < end <= |data|
    requires forall i :: from <= i < end - 1 ==> data[i] != NEWLINE
    requires end < |data| ==> data[end - 1] == NEWLINE
    ensures LineEnd(data, from) == end
    decreases end - from
  {
    if data[from] != NEWLINE {
      if from + 1 < end {
        LineEndIs(data, from + 1, end);
      }
    }
  }

  /** A line continues past any point inside it that no newline precedes. */
  lemma {:induction false} LineGoesOn(data: seq<byte>, from: nat, mid: nat)
    requires from < mid <= |data| && mid <= LineEnd(data, from)
    ensures data[mid - 1] == NEWLINE ==> mid == LineEnd(data, from)
    ensures data[mid - 1] != NEWLINE ==> LineEnd(data, mid) == LineEnd(data, from)
    decreases mid - from
  {
    if mid > from + 1 {
      LineGoesOn(data, from + 1, mid);
    }
  }

  lemma {:induction false} LinesLoseNothing(data: seq<byte>, from: nat)
    requires from <= |data|
    ensures Joined(AllLines(data, from)) == data[from..]
    decreases |data| - from
  {
    if from < |data| {
      var end := LineEnd(data, from);
      LinesLoseNothing(data, end);
      assert data[from..] == data[from..end] + data[end..];
    }
  }

  // ---- the request reader ----

  class ByteStream {
    const data: seq<byte>
    var pos: nat

    constructor (data: seq<byte>)
      ensures Valid() && this.data == data && pos == 0
    {
      this.data, pos := data, 0;
    }

    ghost predicate Valid()
      reads this
    {
      pos <= |data|
    }

    /** At most `limit` bytes, and none past a newline; nothing only at the end of the stream. */
    method ReadLine(limit: nat) returns (chunk: seq<byte>)
      requires Valid() && limit > 0
      modifies this
      ensures Valid() && pos == Min(old(pos) + limit, LineEnd(data, old(pos)))
      ensures chunk == data[old(pos)..pos]
    {
      hide LineEnd;
      chunk := [];
      ghost var from := pos;
      var done := false;
      while pos < |data| && |chunk| < limit && !done
        invariant from <= pos <= Min(from + limit, LineEnd(data, from))
        invariant chunk == data[from..pos]
        invariant done ==> pos == LineEnd(data, from)
        invariant !done && from < pos ==> LineEnd(data, pos) == LineEnd(data, from)
        decreases |data| - pos
      {
        chunk := chunk + [data[pos]];
        pos := pos + 1;
        LineGoesOn(data, from, pos);
        done := chunk[|chunk| - 1] == NEWLINE;
      }
    }
  }

  /**
   * One call consumes exactly one line, however long: it says whether the line
   * is over the limit and hands back the line, cut one byte past the limit.
   */
  method ReadMcpLine(stream: ByteStream) returns (rawLine: seq<byte>, oversized: bool)
    requires stream.Valid()
    modifies stream
    ensures stream.Valid() && stream.pos == LineEnd(stream.data, old(stream.pos))
    ensures oversized <==> stream.pos - old(stream.pos) > MAX_REQUEST_BYTES
    ensures rawLine == stream.data[old(stream.pos)..Min(old(stream.pos) + MAX_REQUEST_BYTES + 1, stream.pos)]
  {
    hide LineEnd;
    ghost var data, from, end := stream.data, stream.pos, LineEnd(stream.data, stream.pos);
    rawLine := stream.ReadLine(MAX_REQUEST_BYTES + 1);
    if rawLine == [] {
      return [], false;
    }
    oversized := |rawLine| > MAX_REQUEST_BYTES;
    LineGoesOn(data, from, stream.pos);
    var done := rawLine[|rawLine| - 1] == NEWLINE;
    while !done
      invariant stream.Valid() && from < stream.pos <= end
      invariant oversized <==> stream.pos - from > MAX_REQUEST_BYTES
      invariant Min(from + MAX_REQUEST_BYTES + 1, end) <= stream.pos
      invariant if done then stream.pos == end else LineEnd(data, stream.pos) == end
      decreases |data| - stream.pos, !done
    {
      ghost var mid := stream.pos;
      var remainder := stream.ReadLine(MAX_REQUEST_BYTES + 1);
      if remainder == [] {
        break;
      }
      oversized := true;
      LineGoesOn(data, mid, stream.pos);
      done := remainder[|remainder| - 1] == NEWLINE;
    }
  }

  datatype Request = Request(line: seq<byte>, oversized: bool)

  /** What a reader that calls `ReadMcpLine` until it returns nothing must see. */
  function Requests(lines: seq<seq<byte>>): seq<Request> {
    if lines == [] then []
    else [Request(lines[0][..Min(MAX_REQUEST_BYTES + 1, |lines[0]|)], |lines[0]| > MAX_REQUEST_BYTES)] + Requests(lines[1..])
  }

  /** One request for each line, in order; a line within the limit is whole, a longer one is cut and flagged. */
  lemma {:induction false} RequestsAre(lines: seq<seq<byte>>, i: nat)
    ensures |Requests(lines)| == |lines|
    ensures i < |lines| ==> (Requests(lines)[i].oversized <==> |lines[i]| > 1_048_576) && Requests(lines)[i].line <= lines[i]
    ensures i < |lines| ==> |Requests(lines)[i].line| == if Requests(lines)[i].oversized then 1_048_577 else |lines[i]|
  {
    if lines != [] {
      RequestsAre(lines[1..], if i == 0 then 0 else i - 1);
    }
  }

  lemma NextRequest(earlier: seq<Request>, data: seq<byte>, from: nat)
    requires from < |data|
    ensures var end := LineEnd(data, from);
      earlier + Requests(AllLines(data, from))
      == (earlier + [Request(data[from..Min(from + MAX_REQUEST_BYTES + 1, end)], end - from > MAX_REQUEST_BYTES)])
         + Requests(AllLines(data, end))
  {
    var end := LineEnd(data, from);
    var line, lines := data[from..end], AllLines(data, end);
    assert AllLines(data, from) == [line] + lines;
    assert line[..Min(MAX_REQUEST_BYTES + 1, |line|)] == data[from..Min(from + MAX_REQUEST_BYTES + 1, end)];
    FirstRequest(line, lines);
  }

  lemma FirstRequest(line: seq<byte>, lines: seq<seq<byte>>)
    ensures Requests([line] + lines)
         == [Request(line[..Min(MAX_REQUEST_BYTES + 1, |line|)], |line| > MAX_REQUEST_BYTES)] + Requests(lines)
  {
  }

  /** The server's loop sees every line of the stream once, in order, the oversized ones flagged. */
  method ReadAllRequests(stream: ByteStream) returns (requests: seq<Request>)
    requires stream.Valid()
    modifies stream
    ensures stream.Valid() && stream.pos == |stream.data|
    ensures requests == Requests(AllLines(stream.data, old(stream.pos)))
  {
    hide LineEnd;
    requests := [];
    while true
      invariant stream.Valid()
      invariant requests + Requests(AllLines(stream.data, stream.pos)) == Requests(AllLines(stream.data, old(stream.pos)))
      decreases |stream.data| - stream.pos
    {
      ghost var from := stream.pos;
      var rawLine, oversized := ReadMcpLine(stream);
      if rawLine == [] {
        assert AllLines(stream.data, stream.pos) == [] && Requests([]) == [];
        break;
      }
      NextRequest(requests, stream.data, from);
      requests := requests + [Request(rawLine, oversized)];
    }
  }
}
