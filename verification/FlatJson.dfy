/** Compact JSON objects of plain strings, natural numbers and one-element lists of them. */
module FlatJson {
  import opened Outcomes
  import opened Decimals
  import SafeJson

  const MAX_INTEGER_DIGITS: nat := 128

  datatype Value = Text(text: string) | Number(n: nat) | OneNumber(n: nat)

  datatype Member = Member(key: string, value: Value)

  predicate IsPlainChar(c: char) {
    32 <= c as int < 127 && c != '"' && c != '\\'
  }

  /** The characters that JSON writes as they are; markup is escaped only where the text is to be embedded. */
  lemma PlainNeedsNoEscape(c: char)
    ensures IsPlainChar(c) <==> SafeJson.IsMarkup(c) || SafeJson.EscapeChar(c) == [c]
  {
  }

  /** Text that JSON writes without escapes. */
  predicate IsPlain(s: string) {
    forall i :: 0 <= i < |s| ==> IsPlainChar(s[i])
  }

  predicate IsPlainValue(v: Value) {
    match v
    case Text(text) => IsPlain(text)
    case Number(n) => Digits(n) <= MAX_INTEGER_DIGITS
    case OneNumber(n) => Digits(n) <= MAX_INTEGER_DIGITS
  }

  predicate IsPlainMember(m: Member) {
    IsPlain(m.key) && IsPlainValue(m.value)
  }

  // ---- writing ----

  function Quoted(s: string): string {
    ['"'] + s + ['"']
  }

  function ValueText(v: Value): string {
    match v
    case Text(text) => Quoted(text)
    case Number(n) => Decimal(n)
    case OneNumber(n) => ['['] + Decimal(n) + [']']
  }

  function MemberText(m: Member): string {
    Quoted(m.key) + [':'] + ValueText(m.value)
  }

  /** The members after the opening brace, with the closing one. */
  function MembersText(ms: seq<Member>): string {
    if ms == [] then ""
    else if |ms| == 1 then MemberText(ms[0]) + ['}']
    else MemberText(ms[0]) + [','] + MembersText(ms[1..])
  }

  function ObjectText(ms: seq<Member>): string {
    ['{'] + MembersText(ms)
  }

  // ---- reading ----

  function Scan(s: string): Option<(string, string)> {
    if s == "" then None
    else if s[0] == '"' then Some(("", s[1..]))
    else if !IsPlainChar(s[0]) then None
    else
      match Scan(s[1..])
      case None => None
      case Some((text, rest)) => Some(([s[0]] + text, rest))
  }

  function ReadQuoted(s: string): Option<(string, string)> {
    if s == "" || s[0] != '"' then None else Scan(s[1..])
  }

  predicate StartsWithDigit(s: string) {
    s != "" && '0' <= s[0] <= '9'
  }

  function ReadDigits(value: nat, s: string): (nat, string)
    decreases |s|
  {
    if StartsWithDigit(s) then ReadDigits(value * 10 + (s[0] as int - '0' as int), s[1..]) else (value, s)
  }

  /** A number has no leading zeros and a bounded number of digits. */
  function ReadNumber(s: string): Option<(nat, string)> {
    if !StartsWithDigit(s) then None
    else if s[0] == '0' then Some((0, s[1..]))
    else
      var (n, rest) := ReadDigits(0, s);
      if |rest| + MAX_INTEGER_DIGITS < |s| then None else Some((n, rest))
  }

  function ReadValue(s: string): Option<(Value, string)> {
    if s == "" then None
    else if s[0] == '"' then
      match ReadQuoted(s) case None => None case Some((text, rest)) => Some((Text(text), rest))
    else if s[0] == '[' then
      match ReadNumber(s[1..])
      case None => None
      case Some((n, rest)) => if rest != "" && rest[0] == ']' then Some((OneNumber(n), rest[1..])) else None
    else
      match ReadNumber(s) case None => None case Some((n, rest)) => Some((Number(n), rest))
  }

  function ReadMember(s: string): Option<(Member, string)> {
    match ReadQuoted(s)
    case None => None
    case Some((key, rest)) =>
      if rest == "" || rest[0] != ':' then None
      else
        match ReadValue(rest[1..])
        case None => None
        case Some((v, later)) => Some((Member(key, v), later))
  }

  function ReadMembers(s: string, fuel: nat): Option<seq<Member>>
    decreases fuel
  {
    if fuel == 0 then None
    else
      match ReadMember(s)
      case None => None
      case Some((m, rest)) =>
        if rest == ['}'] then Some([m])
        else if rest == "" || rest[0] != ',' then None
        else
          match ReadMembers(rest[1..], fuel - 1)
          case None => None
          case Some(later) => Some([m] + later)
  }

  /** Every member takes more than one character, so the length bounds their number. */
  function ReadObject(s: string): Option<seq<Member>> {
    if s == "" || s[0] != '{' then None else ReadMembers(s[1..], |s|)
  }

  // ---- round trips ----

  lemma {:induction false} ScanReadsBack(text: string, rest: string)
    requires IsPlain(text)
    ensures Scan(text + (['"'] + rest)) == Some((text, rest))
  {
    var s := text + (['"'] + rest);
    if text == "" {
      assert s == ['"'] + rest && s[1..] == rest;
    } else {
      assert s[0] == text[0] && s[1..] == text[1..] + (['"'] + rest);
      ScanReadsBack(text[1..], rest);
      assert [text[0]] + text[1..] == text;
    }
  }

  lemma QuotedReadsBack(text: string, rest: string)
    requires IsPlain(text)
    ensures ReadQuoted(Quoted(text) + rest) == Some((text, rest))
  {
    ScanReadsBack(text, rest);
    assert (Quoted(text) + rest)[1..] == text + (['"'] + rest);
  }

  lemma {:induction false} DigitsReadBack(n: nat, rest: string)
    requires !StartsWithDigit(rest)
    ensures ReadDigits(0, Decimal(n) + rest) == (n, rest)
  {
    DigitsReadOn(n, rest);
    assert ReadDigits(n, rest) == (n, rest);
  }

  lemma {:induction false} DigitsReadOn(n: nat, rest: string)
    ensures ReadDigits(0, Decimal(n) + rest) == ReadDigits(n, rest)
  {
    if n < 10 {
      var s := Decimal(n) + rest;
      assert s[0] == DigitChar(n) && s[1..] == rest;
    } else {
      var s := [DigitChar(n % 10)] + rest;
      DigitsReadOn(n / 10, s);
      assert Decimal(n) + rest == Decimal(n / 10) + s;
      assert s[1..] == rest;
    }
  }

  lemma {:induction false} FirstDigit(n: nat)
    ensures n > 0 ==> Decimal(n)[0] != '0'
  {
    if n >= 10 {
      FirstDigit(n / 10);
    }
  }

  lemma NumberReadsBack(n: nat, rest: string)
    requires !StartsWithDigit(rest) && Digits(n) <= MAX_INTEGER_DIGITS
    ensures ReadNumber(Decimal(n) + rest) == Some((n, rest))
  {
    var s := Decimal(n) + rest;
    assert s[0] == Decimal(n)[0] && Decimal(n)[0] in Decimal(n);
    if n == 0 {
      assert s[1..] == rest;
    } else {
      FirstDigit(n);
      DigitsReadBack(n, rest);
    }
  }

  lemma TextReadsBack(text: string, rest: string)
    requires IsPlain(text)
    ensures ReadValue(Quoted(text) + rest) == Some((Text(text), rest))
  {
    QuotedReadsBack(text, rest);
    assert (Quoted(text) + rest)[0] == '"';
  }

  lemma BracketedReadsBack(n: nat, inner: string, rest: string)
    requires ReadNumber(inner) == Some((n, [']'] + rest))
    ensures ReadValue(['['] + inner) == Some((OneNumber(n), rest))
  {
    assert (['['] + inner)[1..] == inner && ([']'] + rest)[1..] == rest;
  }

  lemma OneNumberReadsBack(n: nat, rest: string)
    requires Digits(n) <= MAX_INTEGER_DIGITS
    ensures ReadValue(ValueText(OneNumber(n)) + rest) == Some((OneNumber(n), rest))
  {
    var inner := Decimal(n) + ([']'] + rest);
    NumberReadsBack(n, [']'] + rest);
    BracketedReadsBack(n, inner, rest);
    assert ValueText(OneNumber(n)) + rest == ['['] + inner;
  }

  lemma ValueReadsBack(v: Value, rest: string)
    requires IsPlainValue(v) && !StartsWithDigit(rest)
    ensures ReadValue(ValueText(v) + rest) == Some((v, rest))
  {
    match v
    case Text(text) => TextReadsBack(text, rest);
    case OneNumber(n) => OneNumberReadsBack(n, rest);
    case Number(n) =>
      NumberReadsBack(n, rest);
      assert (Decimal(n) + rest)[0] == Decimal(n)[0] && Decimal(n)[0] in Decimal(n);
  }

  lemma MemberReadsBack(m: Member, rest: string)
    requires IsPlainMember(m) && !StartsWithDigit(rest)
    ensures ReadMember(MemberText(m) + rest) == Some((m, rest))
  {
    var more := [':'] + (ValueText(m.value) + rest);
    QuotedReadsBack(m.key, more);
    ValueReadsBack(m.value, rest);
    assert MemberText(m) + rest == Quoted(m.key) + more;
    assert more[1..] == ValueText(m.value) + rest;
  }

  lemma LastMemberReadsBack(m: Member, fuel: nat)
    requires IsPlainMember(m) && fuel > 0
    ensures ReadMembers(MemberText(m) + ['}'], fuel) == Some([m])
  {
    MemberReadsBack(m, ['}']);
  }

  lemma MemberThenMore(m: Member, later: string, fuel: nat)
    requires IsPlainMember(m) && fuel > 0
    ensures ReadMembers(MemberText(m) + ([','] + later), fuel)
         == match ReadMembers(later, fuel - 1) case None => None case Some(more) => Some([m] + more)
  {
    var rest := [','] + later;
    MemberReadsBack(m, rest);
    assert rest[0] == ',' && rest[1..] == later && rest != ['}'];
  }

  lemma MembersSplit(ms: seq<Member>)
    requires |ms| > 1
    ensures MembersText(ms) == MemberText(ms[0]) + ([','] + MembersText(ms[1..]))
  {
  }

  lemma {:induction false} MembersReadBack(ms: seq<Member>, fuel: nat)
    requires ms != [] && |ms| <= fuel && forall i :: 0 <= i < |ms| ==> IsPlainMember(ms[i])
    ensures ReadMembers(MembersText(ms), fuel) == Some(ms)
  {
    hide ReadMembers;
    if |ms| == 1 {
      LastMemberReadsBack(ms[0], fuel);
      assert ms == [ms[0]];
    } else {
      var later := MembersText(ms[1..]);
      MembersReadBack(ms[1..], fuel - 1);
      MemberThenMore(ms[0], later, fuel);
      MembersSplit(ms);
      assert [ms[0]] + ms[1..] == ms;
    }
  }

  lemma {:induction false} MembersTakeRoom(ms: seq<Member>)
    ensures |ms| <= |MembersText(ms)|
  {
    if |ms| > 1 {
      MembersTakeRoom(ms[1..]);
    }
  }

  /** Reading a written object gives its members back. */
  lemma ObjectReadsBack(ms: seq<Member>)
    requires ms != [] && forall i :: 0 <= i < |ms| ==> IsPlainMember(ms[i])
    ensures ReadObject(ObjectText(ms)) == Some(ms)
  {
    MembersTakeRoom(ms);
    MembersReadBack(ms, |ObjectText(ms)|);
    assert ObjectText(ms)[1..] == MembersText(ms);
  }

  // ---- length ----

  function ValueLength(v: Value): nat {
    match v
    case Text(text) => |text| + 2
    case Number(n) => Digits(n)
    case OneNumber(n) => Digits(n) + 2
  }

  /** The key's quotes, the colon, and the comma or brace after the value. */
  function MembersLength(ms: seq<Member>): nat {
    if ms == [] then 0 else |ms[0].key| + 4 + ValueLength(ms[0].value) + MembersLength(ms[1..])
  }

  lemma {:induction false} MembersTextLength(ms: seq<Member>)
    ensures |MembersText(ms)| == MembersLength(ms)
  {
    if |ms| > 1 {
      MembersTextLength(ms[1..]);
    }
  }

  // ---- and nothing else is read ----

  lemma {:induction false} ScannedIs(s: string)
    ensures Scan(s).Some? ==> IsPlain(Scan(s).value.0) && s == Scan(s).value.0 + ['"'] + Scan(s).value.1
  {
    if s != "" && s[0] != '"' && IsPlainChar(s[0]) {
      ScannedIs(s[1..]);
    }
  }

  lemma QuotedIs(s: string)
    ensures ReadQuoted(s).Some? ==> IsPlain(ReadQuoted(s).value.0) && s == Quoted(ReadQuoted(s).value.0) + ReadQuoted(s).value.1
  {
    if s != "" {
      ScannedIs(s[1..]);
    }
  }

  lemma OneDigitMore(value: nat, c: char)
    requires value > 0 && '0' <= c <= '9'
    ensures Decimal(value * 10 + (c as int - '0' as int)) == Decimal(value) + [c]
  {
  }

  lemma {:induction false} DigitsAre(value: nat, s: string)
    requires value > 0
    ensures Decimal(ReadDigits(value, s).0) + ReadDigits(value, s).1 == Decimal(value) + s
    decreases |s|
  {
    if StartsWithDigit(s) {
      OneDigitMore(value, s[0]);
      DigitsAre(value * 10 + (s[0] as int - '0' as int), s[1..]);
      assert Decimal(value) + [s[0]] + s[1..] == Decimal(value) + s;
    }
  }

  lemma NumberIs(s: string)
    ensures ReadNumber(s).Some? ==> s == Decimal(ReadNumber(s).value.0) + ReadNumber(s).value.1
    ensures ReadNumber(s).Some? ==> Digits(ReadNumber(s).value.0) <= MAX_INTEGER_DIGITS
  {
    if StartsWithDigit(s) {
      var d: nat := s[0] as int - '0' as int;
      assert Decimal(d) == [s[0]];
      if s[0] != '0' {
        DigitsAre(d, s[1..]);
        assert ReadDigits(0, s) == ReadDigits(d, s[1..]);
      }
      assert [s[0]] + s[1..] == s;
    }
  }

  lemma ValueIs(s: string)
    ensures ReadValue(s).Some? ==> IsPlainValue(ReadValue(s).value.0) && s == ValueText(ReadValue(s).value.0) + ReadValue(s).value.1
  {
    hide ReadQuoted, ReadNumber;
    if s != "" {
      QuotedIs(s);
      NumberIs(s);
      NumberIs(s[1..]);
    }
  }

  lemma MemberIs(s: string)
    ensures ReadMember(s).Some? ==> IsPlainMember(ReadMember(s).value.0) && s == MemberText(ReadMember(s).value.0) + ReadMember(s).value.1
  {
    hide ReadQuoted, ReadValue;
    QuotedIs(s);
    if ReadQuoted(s).Some? && ReadQuoted(s).value.1 != "" {
      ValueIs(ReadQuoted(s).value.1[1..]);
    }
  }

  lemma OneMemberMore(s: string, m: Member, rest: string, later: seq<Member>)
    requires s == MemberText(m) + rest && rest != "" && rest[0] == ',' && later != [] && rest[1..] == MembersText(later)
    ensures s == MembersText([m] + later)
  {
    hide MemberText;
    assert ([m] + later)[1..] == later;
    assert rest == [','] + rest[1..];
  }

  lemma {:induction false} MembersAre(s: string, fuel: nat)
    ensures ReadMembers(s, fuel).Some? ==> ReadMembers(s, fuel).value != [] && s == MembersText(ReadMembers(s, fuel).value)
    ensures ReadMembers(s, fuel).Some? ==> forall m :: m in ReadMembers(s, fuel).value ==> IsPlainMember(m)
    decreases fuel
  {
    if fuel > 0 && ReadMembers(s, fuel).Some? {
      hide ReadMember, MemberText;
      MemberIs(s);
      var (m, rest) := ReadMember(s).value;
      if rest != ['}'] {
        MembersAre(rest[1..], fuel - 1);
        OneMemberMore(s, m, rest, ReadMembers(rest[1..], fuel - 1).value);
      }
    }
  }

  /** Exactly the written objects are read, each as what it was written for. */
  lemma OnlyWrittenIsRead(text: string, ms: seq<Member>)
    ensures ReadObject(text) == Some(ms) <==> ms != [] && (forall m :: m in ms ==> IsPlainMember(m)) && text == ObjectText(ms)
  {
    if ReadObject(text) == Some(ms) {
      MembersAre(text[1..], |text|);
      assert text == ['{'] + text[1..];
    }
    if ms != [] && (forall m :: m in ms ==> IsPlainMember(m)) && text == ObjectText(ms) {
      ObjectReadsBack(ms);
    }
  }
}
