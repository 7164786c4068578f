/** Reading JSON (RFC 8259): what was written is read back, whatever follows it. */
module JsonReader {
  import opened Outcomes
  import opened SafeJson

  // ---- strings ----

  function HexValue(c: char): Option<nat> {
    if '0' <= c <= '9' then Some(c as int - '0' as int)
    else if 'a' <= c <= 'f' then Some(c as int - 'a' as int + 10)
    else if 'A' <= c <= 'F' then Some(c as int - 'A' as int + 10)
    else None
  }

  function ReadHex(s: string): (n: Option<nat>)
    ensures n.Some? ==> |s| >= 4 && n.value < 0x1_0000
  {
    if |s| < 4 then None
    else
      match (HexValue(s[0]), HexValue(s[1]), HexValue(s[2]), HexValue(s[3]))
      case (Some(a), Some(b), Some(c), Some(d)) =>
        if a < 16 && b < 16 && c < 16 && d < 16 then Some(4096 * a + 256 * b + 16 * c + d) else None
      case _ => None
  }

  /** A character after `\u`, where two escapes make one beyond the first plane; a lone half is refused. */
  function ReadUnicode(s: string): (r: Option<(char, string)>)
    ensures r.Some? ==> |r.value.1| < |s|
  {
    match ReadHex(s)
    case None => None
    case Some(n) =>
      if n < 0xd800 || n >= 0xe000 then Some((n as char, s[4..]))
      else if n >= 0xdc00 || |s| < 6 || s[4] != '\\' || s[5] != 'u' then None
      else
        match ReadHex(s[6..])
        case None => None
        case Some(low) =>
          if low < 0xdc00 || low >= 0xe000 then None
          else Some(((0x1_0000 + 1024 * (n - 0xd800) + (low - 0xdc00)) as char, s[10..]))
  }

  /** A character after a backslash. */
  function ReadEscape(s: string): (r: Option<(char, string)>)
    ensures r.Some? ==> |r.value.1| < |s|
  {
    if s == "" then None
    else if s[0] == '"' || s[0] == '\\' || s[0] == '/' then Some((s[0], s[1..]))
    else if s[0] == 'n' then Some((10 as char, s[1..]))
    else if s[0] == 'r' then Some((13 as char, s[1..]))
    else if s[0] == 't' then Some((9 as char, s[1..]))
    else if s[0] == 'b' then Some((8 as char, s[1..]))
    else if s[0] == 'f' then Some((12 as char, s[1..]))
    else if s[0] == 'u' then ReadUnicode(s[1..])
    else None
  }

  function ReadChar(s: string): (r: Option<(char, string)>)
    ensures r.Some? ==> |r.value.1| < |s|
  {
    if s == "" || s[0] == '"' || s[0] as int < 32 then None
    else if s[0] == '\\' then ReadEscape(s[1..])
    else Some((s[0], s[1..]))
  }

  /** The text up to the closing quote. */
  function ReadText(s: string): (r: Option<(string, string)>)
    ensures r.Some? ==> |r.value.1| < |s|
    decreases |s|
  {
    if s == "" then None
    else if s[0] == '"' then Some(("", s[1..]))
    else
      match ReadChar(s)
      case None => None
      case Some((c, rest)) =>
        match ReadText(rest)
        case None => None
        case Some((text, later)) => Some(([c] + text, later))
  }

  // ---- values ----

  /** How many characters of a number stand at the start. */
  function NumberEnd(s: string): (n: nat)
    ensures n <= |s| && forall i :: 0 <= i < n ==> IsNumberChar(s[i])
  {
    if s == "" || !IsNumberChar(s[0]) then 0 else 1 + NumberEnd(s[1..])
  }

  function ReadWord(s: string): (r: Option<(Json, string)>)
    ensures r.Some? ==> |r.value.1| < |s|
  {
    if |s| >= 4 && s[..4] == "null" then Some((Null, s[4..]))
    else if |s| >= 4 && s[..4] == "true" then Some((Truth(true), s[4..]))
    else if |s| >= 5 && s[..5] == "false" then Some((Truth(false), s[5..]))
    else None
  }

  function Read(s: string): (r: Option<(Json, string)>)
    ensures r.Some? ==> |r.value.1| < |s|
    decreases |s|, 0
  {
    if s == "" then None
    else if s[0] == '"' then
      match ReadText(s[1..]) case None => None case Some((text, rest)) => Some((Str(text), rest))
    else if s[0] == '[' then
      if |s| >= 2 && s[1] == ']' then Some((List([]), s[2..]))
      else match ReadItems(s[1..]) case None => None case Some((items, rest)) => Some((List(items), rest))
    else if s[0] == '{' then
      if |s| >= 2 && s[1] == '}' then Some((Object([]), s[2..]))
      else match ReadMembers(s[1..]) case None => None case Some((members, rest)) => Some((Object(members), rest))
    else if IsNumberChar(s[0]) then Some((Num(s[..NumberEnd(s)]), s[NumberEnd(s)..]))
    else ReadWord(s)
  }

  /** The items up to the closing bracket. */
  function ReadItems(s: string): (r: Option<(seq<Json>, string)>)
    ensures r.Some? ==> |r.value.1| < |s|
    decreases |s|, 1
  {
    match Read(s)
    case None => None
    case Some((v, rest)) =>
      if rest != "" && rest[0] == ']' then Some(([v], rest[1..]))
      else if rest == "" || rest[0] != ',' then None
      else
        match ReadItems(rest[1..])
        case None => None
        case Some((later, end)) => Some(([v] + later, end))
  }

  function ReadMember(s: string): (r: Option<(Member, string)>)
    ensures r.Some? ==> |r.value.1| < |s|
    decreases |s|, 1
  {
    if s == "" || s[0] != '"' then None
    else
      match ReadText(s[1..])
      case None => None
      case Some((key, rest)) =>
        if rest == "" || rest[0] != ':' then None
        else
          match Read(rest[1..])
          case None => None
          case Some((v, later)) => Some((Member(key, v), later))
  }

  /** The members up to the closing brace. */
  function ReadMembers(s: string): (r: Option<(seq<Member>, string)>)
    ensures r.Some? ==> |r.value.1| < |s|
    decreases |s|, 2
  {
    match ReadMember(s)
    case None => None
    case Some((m, rest)) =>
      if rest != "" && rest[0] == '}' then Some(([m], rest[1..]))
      else if rest == "" || rest[0] != ',' then None
      else
        match ReadMembers(rest[1..])
        case None => None
        case Some((later, end)) => Some(([m] + later, end))
  }

  // ---- characters are read back ----

  lemma HexReadsBack(n: nat)
    requires n < 16
    ensures HexValue(HexDigit(n)) == Some(n)
  {
  }

  lemma FourDigitsOf(n: nat)
    requires n < 0x1_0000
    ensures n / 4096 < 16 && 4096 * (n / 4096) + 256 * (n / 256 % 16) + 16 * (n / 16 % 16) + n % 16 == n
  {
    assert n / 16 == 16 * (n / 256) + n / 16 % 16;
    assert n / 256 == 16 * (n / 4096) + n / 256 % 16;
  }

  lemma UnicodeReadsBack(n: nat, rest: string)
    requires n < 0x1_0000
    ensures ReadHex(UnicodeEscape(n)[2..] + rest) == Some(n)
  {
    HexReadsBack(n / 4096);
    HexReadsBack(n / 256 % 16);
    HexReadsBack(n / 16 % 16);
    HexReadsBack(n % 16);
    FourDigitsOf(n);
  }

  lemma OneEscapeReadsBack(n: nat, rest: string)
    requires n < 0xd800 || 0xe000 <= n < 0x1_0000
    ensures ReadChar(UnicodeEscape(n) + rest) == Some((n as char, rest))
  {
    var s := UnicodeEscape(n) + rest;
    UnicodeReadsBack(n, rest);
    assert s[1..][1..] == UnicodeEscape(n)[2..] + rest;
    assert s[1..][1..][4..] == rest;
  }

  /** Reading the two halves of a pair. */
  lemma PairReads(t: string, high: nat, low: nat, rest: string)
    requires 0xd800 <= high < 0xdc00 <= low < 0xe000
    requires |t| >= 10 && ReadHex(t) == Some(high) && t[4] == '\\' && t[5] == 'u' && ReadHex(t[6..]) == Some(low) && t[10..] == rest
    ensures ReadUnicode(t) == Some(((0x1_0000 + 1024 * (high - 0xd800) + (low - 0xdc00)) as char, rest))
  {
    hide ReadHex;
  }

  lemma TwoEscapesReadBack(high: nat, low: nat, rest: string)
    requires 0xd800 <= high < 0xdc00 <= low < 0xe000
    ensures ReadChar(UnicodeEscape(high) + UnicodeEscape(low) + rest)
         == Some(((0x1_0000 + 1024 * (high - 0xd800) + (low - 0xdc00)) as char, rest))
  {
    hide ReadHex, ReadUnicode, HexDigit;
    var second := UnicodeEscape(low) + rest;
    var t := UnicodeEscape(high)[2..] + second;
    UnicodeReadsBack(high, second);
    UnicodeReadsBack(low, rest);
    assert t[6..] == UnicodeEscape(low)[2..] + rest;
    PairReads(t, high, low, rest);
    EscapeReads(UnicodeEscape(high) + UnicodeEscape(low) + rest, t);
  }

  lemma EscapeReads(s: string, t: string)
    requires |s| >= 2 && s[0] == '\\' && s[1] == 'u' && s[2..] == t
    ensures ReadChar(s) == ReadUnicode(t)
  {
    hide ReadUnicode;
    assert s[1..][1..] == t;
  }

  lemma PairIsTheChar(n: nat)
    requires 0x1_0000 <= n < 0x11_0000
    ensures var high, low := 0xd800 + (n - 0x1_0000) / 1024, 0xdc00 + (n - 0x1_0000) % 1024;
      0xd800 <= high < 0xdc00 <= low < 0xe000 && 0x1_0000 + 1024 * (high - 0xd800) + (low - 0xdc00) == n
  {
  }

  lemma PlainReadsBack(c: char, rest: string)
    requires 32 <= c as int && c != '"' && c != '\\'
    ensures ReadChar([c] + rest) == Some((c, rest))
  {
    Tail(c, rest);
  }

  lemma CharReadsBack(c: char, rest: string)
    ensures ReadChar(EscapeChar(c) + rest) == Some((c, rest)) && EscapeChar(c)[0] != '"'
  {
    hide ReadChar, HexDigit;
    var n := c as int;
    if IsShortEscape(n) {
      ShortReadsBack(c, rest);
    } else if n >= 0x1_0000 {
      PairIsTheChar(n);
      TwoEscapesReadBack(0xd800 + (n - 0x1_0000) / 1024, 0xdc00 + (n - 0x1_0000) % 1024, rest);
    } else if n < 32 || n > 126 || IsMarkup(c) {
      OneEscapeReadsBack(n, rest);
    } else {
      PlainReadsBack(c, rest);
    }
  }

  lemma ShortReadsBack(c: char, rest: string)
    requires IsShortEscape(c as int)
    ensures ReadChar(EscapeChar(c) + rest) == Some((c, rest))
  {
    var s := EscapeChar(c) + rest;
    assert s[1..][1..] == rest;
  }

  lemma {:induction false} TextReadsBack(text: string, rest: string)
    ensures ReadText(Escaped(text) + "\"" + rest) == Some((text, rest))
  {
    if text == "" {
      assert Escaped(text) + "\"" + rest == "\"" + rest;
      assert ("\"" + rest)[1..] == rest;
    } else {
      var later := Escaped(text[1..]) + "\"" + rest;
      TextReadsBack(text[1..], rest);
      CharReadsBack(text[0], later);
      assert Escaped(text) + "\"" + rest == EscapeChar(text[0]) + later;
      assert [text[0]] + text[1..] == text;
    }
  }

  lemma QuotedReadsBack(text: string, rest: string)
    ensures (Quoted(text) + rest)[0] == '"' && ReadText((Quoted(text) + rest)[1..]) == Some((text, rest))
  {
    TextReadsBack(text, rest);
    assert (Quoted(text) + rest)[1..] == Escaped(text) + "\"" + rest;
  }

  // ---- values are read back ----

  /** What may follow a number without lengthening it. */
  predicate Ends(rest: string) {
    rest == "" || !IsNumberChar(rest[0])
  }

  lemma {:induction false} NumberReadsBack(digits: string, rest: string)
    requires Ends(rest) && forall i :: 0 <= i < |digits| ==> IsNumberChar(digits[i])
    ensures NumberEnd(digits + rest) == |digits|
  {
    if digits == "" {
      assert digits + rest == rest;
    } else {
      assert (digits + rest)[1..] == digits[1..] + rest;
      NumberReadsBack(digits[1..], rest);
    }
  }

  lemma WordReadsBack(v: Json, rest: string)
    requires v.Null? || v.Truth?
    ensures Read(Write(v) + rest) == Some((v, rest))
  {
    var s := Write(v) + rest;
    assert s[..|Write(v)|] == Write(v) && s[|Write(v)|..] == rest;
    assert s[0] == Write(v)[0];
    if v == Truth(false) {
      assert s[..4][0] == 'f';
    }
  }

  lemma NumReadsBack(digits: NumberText, rest: string)
    requires Ends(rest)
    ensures Read(digits + rest) == Some((Num(digits), rest))
  {
    NumberReadsBack(digits, rest);
    var s := digits + rest;
    assert s[..|digits|] == digits && s[|digits|..] == rest;
    assert s[0] == digits[0] && IsNumberChar(digits[0]);
  }

  /** A value starts with a character that no closing bracket could be. */
  lemma FirstChar(v: Json)
    ensures Write(v) != "" && Write(v)[0] != ']' && Write(v)[0] != '}'
  {
    if v.Num? {
      assert IsNumberChar(v.digits[0]);
    }
  }

  /** Whatever was written is read back, up to where it ends. */
  lemma {:induction false} ReadsBack(v: Json, rest: string)
    requires Ends(rest)
    ensures Read(Write(v) + rest) == Some((v, rest))
  {
    match v
    case Null => WordReadsBack(v, rest);
    case Truth(_) => WordReadsBack(v, rest);
    case Num(digits) => NumReadsBack(digits, rest);
    case Str(text) => QuotedReadsBack(text, rest);
    case List(items) =>
      if items != [] {
        ItemsReadBack(items, rest);
      }
      ListReadsBack(items, rest);
    case Object(members) =>
      if members != [] {
        MembersReadBack(members, rest);
      }
      ObjectReadsBack(members, rest);
  }

  lemma Regroup(a: string, b: string, c: string, d: string, e: string)
    ensures ((a + b + c) + d) + e == a + (b + ((c + d) + e))
  {
  }

  lemma Tail(c: char, s: string)
    ensures ([c] + s)[0] == c && ([c] + s)[1..] == s
  {
  }

  lemma OpensList(t: string, items: seq<Json>, rest: string)
    requires t != "" && t[0] != ']' && ReadItems(t) == Some((items, rest))
    ensures Read("[" + t) == Some((List(items), rest))
  {
    hide ReadItems;
    Tail('[', t);
  }

  lemma EmptyList(rest: string)
    ensures Read("[]" + rest) == Some((List([]), rest))
  {
    assert ("[]" + rest)[2..] == rest;
  }

  lemma ItemsStart(items: seq<Json>)
    requires items != []
    ensures WriteItems(items) != "" && WriteItems(items)[0] != ']'
  {
    hide Write;
    FirstChar(items[0]);
  }

  lemma ListReadsBack(items: seq<Json>, rest: string)
    requires items != [] ==> ReadItems(WriteItems(items) + "]" + rest) == Some((items, rest))
    ensures Read(Write(List(items)) + rest) == Some((List(items), rest))
  {
    hide ReadItems, Read;
    var t := WriteItems(items) + "]" + rest;
    assert Write(List(items)) + rest == "[" + t;
    if items == [] {
      assert "[" + t == "[]" + rest;
      EmptyList(rest);
    } else {
      ItemsStart(items);
      OpensList(t, items, rest);
    }
  }

  lemma OpensObject(t: string, members: seq<Member>, rest: string)
    requires t != "" && t[0] != '}' && ReadMembers(t) == Some((members, rest))
    ensures Read("{" + t) == Some((Object(members), rest))
  {
    hide ReadMembers;
    Tail('{', t);
  }

  lemma ObjectReadsBack(members: seq<Member>, rest: string)
    requires members != [] ==> ReadMembers(WriteMembers(members) + "}" + rest) == Some((members, rest))
    ensures Read(Write(Object(members)) + rest) == Some((Object(members), rest))
  {
    hide ReadMembers, Read;
    var t := WriteMembers(members) + "}" + rest;
    assert Write(Object(members)) + rest == "{" + t;
    if members == [] {
      assert "{" + t == "{}" + rest;
      EmptyObject(rest);
    } else {
      MembersStart(members);
      OpensObject(t, members, rest);
    }
  }

  lemma EmptyObject(rest: string)
    ensures Read("{}" + rest) == Some((Object([]), rest))
  {
    assert ("{}" + rest)[2..] == rest;
  }

  lemma MembersStart(members: seq<Member>)
    requires members != []
    ensures WriteMembers(members) != "" && WriteMembers(members)[0] == '"'
  {
  }

  lemma LastItem(t: string, v: Json, rest: string)
    requires Read(t) == Some((v, "]" + rest))
    ensures ReadItems(t) == Some(([v], rest))
  {
    hide Read;
    Tail(']', rest);
  }

  lemma MoreItems(t: string, v: Json, later: string, items: seq<Json>, rest: string)
    requires Read(t) == Some((v, "," + later)) && ReadItems(later) == Some((items, rest))
    ensures ReadItems(t) == Some(([v] + items, rest))
  {
    hide Read;
    Tail(',', later);
  }

  lemma {:induction false} ItemsReadBack(items: seq<Json>, rest: string)
    requires items != []
    ensures ReadItems(WriteItems(items) + "]" + rest) == Some((items, rest))
  {
    hide Read, ReadItems, Write;
    if |items| == 1 {
      ReadsBack(items[0], "]" + rest);
      assert Write(items[0]) + "]" + rest == Write(items[0]) + ("]" + rest);
      LastItem(Write(items[0]) + "]" + rest, items[0], rest);
      assert items == [items[0]];
    } else {
      var later := WriteItems(items[1..]) + "]" + rest;
      ReadsBack(items[0], "," + later);
      ItemsReadBack(items[1..], rest);
      Regroup(Write(items[0]), ",", WriteItems(items[1..]), "]", rest);
      MoreItems(WriteItems(items) + "]" + rest, items[0], later, items[1..], rest);
      assert items == [items[0]] + items[1..];
    }
  }

  lemma KeyThenValue(t: string, m: Member, value: string, rest: string)
    requires t != "" && t[0] == '"' && ReadText(t[1..]) == Some((m.key, ":" + value)) && Read(value) == Some((m.value, rest))
    ensures ReadMember(t) == Some((m, rest))
  {
    hide Read, ReadText;
    Tail(':', value);
  }

  lemma MemberReadsBack(m: Member, rest: string)
    requires Read(Write(m.value) + rest) == Some((m.value, rest))
    ensures ReadMember(WriteMember(m) + rest) == Some((m, rest))
  {
    hide Read, ReadText, ReadMember, Write, Quoted;
    var value := Write(m.value) + rest;
    QuotedReadsBack(m.key, ":" + value);
    assert WriteMember(m) + rest == Quoted(m.key) + (":" + value);
    KeyThenValue(Quoted(m.key) + (":" + value), m, value, rest);
  }

  lemma LastMember(t: string, m: Member, rest: string)
    requires ReadMember(t) == Some((m, "}" + rest))
    ensures ReadMembers(t) == Some(([m], rest))
  {
    hide ReadMember;
    Tail('}', rest);
  }

  lemma MoreMembers(t: string, m: Member, later: string, members: seq<Member>, rest: string)
    requires ReadMember(t) == Some((m, "," + later)) && ReadMembers(later) == Some((members, rest))
    ensures ReadMembers(t) == Some(([m] + members, rest))
  {
    hide ReadMember;
    Tail(',', later);
  }

  lemma {:induction false} MembersReadBack(members: seq<Member>, rest: string)
    requires members != []
    ensures ReadMembers(WriteMembers(members) + "}" + rest) == Some((members, rest))
  {
    hide Read, ReadMember, ReadMembers, Write, WriteMember;
    var m := members[0];
    if |members| == 1 {
      ReadsBack(m.value, "}" + rest);
      MemberReadsBack(m, "}" + rest);
      assert WriteMember(m) + "}" + rest == WriteMember(m) + ("}" + rest);
      LastMember(WriteMember(m) + "}" + rest, m, rest);
      assert members == [m];
    } else {
      var later := WriteMembers(members[1..]) + "}" + rest;
      ReadsBack(m.value, "," + later);
      MemberReadsBack(m, "," + later);
      MembersReadBack(members[1..], rest);
      Regroup(WriteMember(m), ",", WriteMembers(members[1..]), "}", rest);
      MoreMembers(WriteMembers(members) + "}" + rest, m, later, members[1..], rest);
      assert members == [m] + members[1..];
    }
  }
}
