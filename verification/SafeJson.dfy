/** JSON as the evidence is written: ASCII only, on one line, compact, and without characters that markup gives a meaning. */
module SafeJson {
  import opened Decimals

  predicate IsAscii(s: string) {
    forall i :: 0 <= i < |s| ==> s[i] as int < 128
  }

  type Ascii = s: string | IsAscii(s)

  function Cat2(a: Ascii, b: Ascii): (text: Ascii)
    ensures |text| == |a| + |b| && text == a + b
  {
    a + b
  }

  function Cat3(a: Ascii, b: Ascii, c: Ascii): (text: Ascii)
    ensures |text| == |a| + |b| + |c| && text == a + b + c
  {
    Cat2(Cat2(a, b), c)
  }

  // ---- values ----

  predicate IsNumberChar(c: char) {
    '0' <= c <= '9' || c == '-' || c == '+' || c == '.' || c == 'e' || c == 'E'
  }

  predicate IsNumberText(s: string) {
    s != "" && forall i :: 0 <= i < |s| ==> IsNumberChar(s[i])
  }

  type NumberText = s: string | IsNumberText(s) witness ['0']

  /** A number is kept as its text. */
  datatype Json =
    | Null
    | Truth(truth: bool)
    | Num(digits: NumberText)
    | Str(text: string)
    | List(items: seq<Json>)
    | Object(members: seq<Member>)

  datatype Member = Member(key: string, value: Json)

  function Nat(n: nat): Json {
    assert forall i :: 0 <= i < |Decimal(n)| ==> Decimal(n)[i] in Decimal(n);
    Num(Decimal(n))
  }

  // ---- characters ----

  function HexDigit(n: nat): (c: char)
    requires n < 16
    ensures c as int < 128
  {
    if n < 10 then '0' + n as char else 'a' + (n - 10) as char
  }

  function UnicodeEscape(n: nat): (s: Ascii)
    requires n < 0x1_0000
    ensures |s| == 6
  {
    ['\\', 'u', HexDigit(n / 4096), HexDigit(n / 256 % 16), HexDigit(n / 16 % 16), HexDigit(n % 16)]
  }

  predicate IsShortEscape(n: int) {
    n == 34 || n == 92 || n == 10 || n == 13 || n == 9 || n == 8 || n == 12
  }

  predicate IsMarkup(c: char) {
    c == '<' || c == '>' || c == '&' || c == '`'
  }

  function CharLength(c: char): (length: nat)
    ensures 1 <= length <= 12
  {
    var n := c as int;
    if IsShortEscape(n) then 2 else if n >= 0x1_0000 then 12 else if n < 32 || n > 126 || IsMarkup(c) then 6 else 1
  }

  function EscapeChar(c: char): (s: Ascii)
    ensures |s| == CharLength(c)
  {
    var n := c as int;
    if n == 34 then ['\\', '"']
    else if n == 92 then ['\\', '\\']
    else if n == 10 then ['\\', 'n']
    else if n == 13 then ['\\', 'r']
    else if n == 9 then ['\\', 't']
    else if n == 8 then ['\\', 'b']
    else if n == 12 then ['\\', 'f']
    else if n >= 0x1_0000 then
      UnicodeEscape(0xd800 + (n - 0x1_0000) / 1024) + UnicodeEscape(0xdc00 + (n - 0x1_0000) % 1024)
    else if n < 32 || n > 126 || IsMarkup(c) then UnicodeEscape(n)
    else [c]
  }

  function EscapedLength(s: string): (length: nat)
    ensures |s| <= length <= 12 * |s|
  {
    if s == [] then 0 else CharLength(s[0]) + EscapedLength(s[1..])
  }

  function Escaped(s: string): (text: Ascii)
    ensures |text| == EscapedLength(s)
  {
    if s == [] then [] else EscapeChar(s[0]) + Escaped(s[1..])
  }

  // ---- writing ----

  function Quoted(s: string): (text: Ascii)
    ensures |text| == EscapedLength(s) + 2
  {
    Cat3("\"", Escaped(s), "\"")
  }

  function Write(v: Json): Ascii {
    match v
    case Null => "null"
    case Truth(b) => if b then "true" else "false"
    case Num(digits) => NumberIsAscii(digits); digits
    case Str(text) => Quoted(text)
    case List(items) => Cat3("[", WriteItems(items), "]")
    case Object(members) => Cat3("{", WriteMembers(members), "}")
  }

  function WriteItems(items: seq<Json>): Ascii {
    if items == [] then ""
    else if |items| == 1 then Write(items[0])
    else Cat3(Write(items[0]), ",", WriteItems(items[1..]))
  }

  function WriteMember(m: Member): Ascii {
    Cat3(Quoted(m.key), ":", Write(m.value))
  }

  function WriteMembers(members: seq<Member>): Ascii {
    if members == [] then ""
    else if |members| == 1 then WriteMember(members[0])
    else Cat3(WriteMember(members[0]), ",", WriteMembers(members[1..]))
  }

  lemma NumberIsAscii(s: NumberText)
    ensures IsAscii(s)
  {
    assert forall i :: 0 <= i < |s| ==> IsNumberChar(s[i]);
  }

  // ---- lengths ----

  /** What an item takes in a list, its comma included. */
  function ItemsSize(items: seq<Json>): nat {
    if items == [] then 0 else |Write(items[0])| + 1 + ItemsSize(items[1..])
  }

  function MemberSize(m: Member): (size: nat)
    ensures size >= 4
  {
    |Quoted(m.key)| + 2 + |Write(m.value)|
  }

  function MembersSize(members: seq<Member>): nat {
    if members == [] then 0 else MemberSize(members[0]) + MembersSize(members[1..])
  }

  lemma {:induction false} ItemsLength(items: seq<Json>)
    ensures |WriteItems(items)| == if items == [] then 0 else ItemsSize(items) - 1
  {
    if items != [] {
      ItemsLength(items[1..]);
    }
  }

  lemma {:induction false} MembersLength(members: seq<Member>)
    ensures |WriteMembers(members)| == if members == [] then 0 else MembersSize(members) - 1
  {
    if members != [] {
      MembersLength(members[1..]);
    }
  }

  lemma ObjectLength(members: seq<Member>)
    ensures |Write(Object(members))| == if members == [] then 2 else 1 + MembersSize(members)
  {
    MembersLength(members);
  }

  lemma ListLength(items: seq<Json>)
    ensures |Write(List(items))| == if items == [] then 2 else 1 + ItemsSize(items)
  {
    ItemsLength(items);
  }

  lemma {:induction false} MembersSizeJoin(a: seq<Member>, b: seq<Member>)
    ensures MembersSize(a + b) == MembersSize(a) + MembersSize(b)
  {
    if a == [] {
      assert a + b == b;
    } else {
      assert (a + b)[1..] == a[1..] + b;
      MembersSizeJoin(a[1..], b);
    }
  }

  /** A key and its colon. */
  function KeySize(key: string): (size: nat)
    ensures size >= 3
  {
    |Quoted(key)| + 1
  }

  lemma MemberSizeIs(m: Member)
    ensures MembersSize([m]) == KeySize(m.key) + |Write(m.value)| + 1
  {
    assert [m][1..] == [];
  }

  /** An object with one member singled out. */
  lemma AroundOne(a: seq<Member>, m: Member, b: seq<Member>)
    ensures |Write(Object(a + [m] + b))| == 2 + MembersSize(a) + KeySize(m.key) + |Write(m.value)| + MembersSize(b)
  {
    hide Write, MembersSize, KeySize;
    assert (a + [m] + b)[|a|] == m;
    ObjectLength(a + [m] + b);
    MembersSizeJoin(a + [m], b);
    MembersSizeJoin(a, [m]);
    MemberSizeIs(m);
  }

  /** And with two. */
  lemma AroundTwo(a: seq<Member>, m: Member, b: seq<Member>, n: Member, c: seq<Member>)
    ensures |Write(Object(a + [m] + b + [n] + c))|
         == 3 + MembersSize(a) + KeySize(m.key) + |Write(m.value)| + MembersSize(b) + KeySize(n.key) + |Write(n.value)| + MembersSize(c)
  {
    hide Write, MembersSize, KeySize;
    AroundOne(a + [m] + b, n, c);
    MembersSizeJoin(a + [m], b);
    MembersSizeJoin(a, [m]);
    MemberSizeIs(m);
  }

  /** And with three. */
  lemma AroundThree(a: seq<Member>, m: Member, b: seq<Member>, n: Member, c: seq<Member>, o: Member, d: seq<Member>)
    ensures |Write(Object(a + [m] + b + [n] + c + [o] + d))|
         == 4 + MembersSize(a) + KeySize(m.key) + |Write(m.value)| + MembersSize(b) + KeySize(n.key) + |Write(n.value)|
            + MembersSize(c) + KeySize(o.key) + |Write(o.value)| + MembersSize(d)
  {
    hide Write, MembersSize, KeySize;
    AroundTwo(a + [m] + b, n, c, o, d);
    MembersSizeJoin(a + [m], b);
    MembersSizeJoin(a, [m]);
    MemberSizeIs(m);
  }

  // ---- safe to embed ----

  /** Printable ASCII without the four characters of markup; so it has no line break. */
  predicate IsSafe(s: string) {
    forall i :: 0 <= i < |s| ==> 32 <= s[i] as int < 127 && s[i] != '<' && s[i] != '>' && s[i] != '&' && s[i] != '`'
  }

  lemma SafeJoin(a: string, b: string)
    requires IsSafe(a) && IsSafe(b)
    ensures IsSafe(a + b)
  {
  }

  lemma HexDigitIsSafe(n: nat)
    requires n < 16
    ensures '0' <= HexDigit(n) <= '9' || 'a' <= HexDigit(n) <= 'f'
  {
  }

  lemma UnicodeEscapeIsSafe(n: nat)
    requires n < 0x1_0000
    ensures IsSafe(UnicodeEscape(n))
  {
    HexDigitIsSafe(n / 4096);
    HexDigitIsSafe(n / 256 % 16);
    HexDigitIsSafe(n / 16 % 16);
    HexDigitIsSafe(n % 16);
  }

  lemma EscapeCharIsSafe(c: char)
    ensures IsSafe(EscapeChar(c))
  {
    var n := c as int;
    if n >= 0x1_0000 {
      var high, low := 0xd800 + (n - 0x1_0000) / 1024, 0xdc00 + (n - 0x1_0000) % 1024;
      UnicodeEscapeIsSafe(high);
      UnicodeEscapeIsSafe(low);
      SafeJoin(UnicodeEscape(high), UnicodeEscape(low));
    } else if n < 32 || n > 126 || IsMarkup(c) {
      UnicodeEscapeIsSafe(n);
    }
  }

  lemma {:induction false} EscapedIsSafe(s: string)
    ensures IsSafe(Escaped(s))
  {
    if s != [] {
      EscapeCharIsSafe(s[0]);
      EscapedIsSafe(s[1..]);
      SafeJoin(EscapeChar(s[0]), Escaped(s[1..]));
    }
  }

  lemma QuotedIsSafe(s: string)
    ensures IsSafe(Quoted(s))
  {
    EscapedIsSafe(s);
    SafeJoin("\"", Escaped(s));
    SafeJoin("\"" + Escaped(s), "\"");
  }

  lemma SafeThree(a: Ascii, b: Ascii, c: Ascii)
    requires IsSafe(a) && IsSafe(b) && IsSafe(c)
    ensures IsSafe(Cat3(a, b, c))
  {
  }

  /** Whatever is written is one line of printable ASCII without markup. */
  lemma {:induction false} WrittenIsSafe(v: Json)
    ensures IsSafe(Write(v))
  {
    match v
    case Null =>
    case Truth(_) =>
    case Num(digits) => assert forall i :: 0 <= i < |digits| ==> IsNumberChar(digits[i]);
    case Str(text) => QuotedIsSafe(text);
    case List(items) =>
      ItemsAreSafe(items);
      SafeThree("[", WriteItems(items), "]");
    case Object(members) =>
      MembersAreSafe(members);
      SafeThree("{", WriteMembers(members), "}");
  }

  lemma {:induction false} ItemsAreSafe(items: seq<Json>)
    ensures IsSafe(WriteItems(items))
  {
    if items != [] {
      WrittenIsSafe(items[0]);
      ItemsAreSafe(items[1..]);
      SafeThree(Write(items[0]), ",", WriteItems(items[1..]));
    }
  }

  lemma {:induction false} MembersAreSafe(members: seq<Member>)
    ensures IsSafe(WriteMembers(members))
  {
    if members != [] {
      QuotedIsSafe(members[0].key);
      WrittenIsSafe(members[0].value);
      SafeThree(Quoted(members[0].key), ":", Write(members[0].value));
      MembersAreSafe(members[1..]);
      SafeThree(WriteMember(members[0]), ",", WriteMembers(members[1..]));
    }
  }

  // ---- bytes ----

  function Utf8Width(c: char): nat {
    var n := c as int;
    if n < 0x80 then 1 else if n < 0x800 then 2 else if n < 0x1_0000 then 3 else 4
  }

  function Utf8Length(s: string): nat {
    if s == [] then 0 else Utf8Width(s[0]) + Utf8Length(s[1..])
  }

  /** The text is ASCII, so its UTF-8 bytes are as many as its characters. */
  lemma {:induction false} AsciiBytes(s: Ascii)
    ensures Utf8Length(s) == |s|
  {
    if s != [] {
      AsciiBytes(s[1..]);
    }
  }
}
