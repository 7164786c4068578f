/** Base64 with the URL-safe alphabet, section 5 of RFC 4648, padded. */
module Base64 {
  import opened Outcomes

  type Octet = n: nat | n < 256
  type Sextet = n: nat | n < 64

  function Letter(n: Sextet): (c: char)
    ensures c != '=' && c != '"' && c != '\\' && 33 <= c as int < 127
  {
    if n < 26 then 'A' + n as char
    else if n < 52 then 'a' + (n - 26) as char
    else if n < 62 then '0' + (n - 52) as char
    else if n == 62 then '-'
    else '_'
  }

  /** The decoder translates the URL-safe letters to the standard ones, and so takes both. */
  function LetterValue(c: char): Option<Sextet> {
    if 'A' <= c <= 'Z' then Some(c as int - 'A' as int)
    else if 'a' <= c <= 'z' then Some(c as int - 'a' as int + 26)
    else if '0' <= c <= '9' then Some(c as int - '0' as int + 52)
    else if c == '-' || c == '+' then Some(62)
    else if c == '_' || c == '/' then Some(63)
    else None
  }

  lemma LetterReadsBack(n: Sextet)
    ensures LetterValue(Letter(n)) == Some(n)
  {
  }

  // ---- groups of three octets and four letters ----

  function Group(a: Octet, b: Octet, c: Octet): string {
    [Letter(a / 4), Letter(a % 4 * 16 + b / 16), Letter(b % 16 * 4 + c / 64), Letter(c % 64)]
  }

  function LastOne(a: Octet): string {
    [Letter(a / 4), Letter(a % 4 * 16), '=', '=']
  }

  function LastTwo(a: Octet, b: Octet): string {
    [Letter(a / 4), Letter(a % 4 * 16 + b / 16), Letter(b % 16 * 4), '=']
  }

  function Encode(bytes: seq<Octet>): string {
    match |bytes|
    case 0 => ""
    case 1 => LastOne(bytes[0])
    case 2 => LastTwo(bytes[0], bytes[1])
    case _ => Group(bytes[0], bytes[1], bytes[2]) + Encode(bytes[3..])
  }

  lemma {:induction false} EncodedLength(bytes: seq<Octet>)
    ensures |Encode(bytes)| == (|bytes| + 2) / 3 * 4
  {
    if |bytes| >= 3 {
      EncodedLength(bytes[3..]);
    }
  }

  function Octets(p: Sextet, q: Sextet, r: Sextet, s: Sextet): (Octet, Octet, Octet) {
    (p * 4 + q / 16, q % 16 * 16 + r / 4, r % 4 * 64 + s)
  }

  /** The octets of a last group, which may be padded. */
  function DecodeLast(text: string): Option<seq<Octet>>
    requires |text| == 4
  {
    match (LetterValue(text[0]), LetterValue(text[1]))
    case (Some(p), Some(q)) =>
      if text[2] == '=' && text[3] == '=' then Some([Octets(p, q, 0, 0).0])
      else if text[3] == '=' then
        match LetterValue(text[2])
        case None => None
        case Some(r) => Some([Octets(p, q, r, 0).0, Octets(p, q, r, 0).1])
      else DecodeGroup(text)
    case _ => None
  }

  function DecodeGroup(text: string): Option<seq<Octet>>
    requires |text| == 4
  {
    match (LetterValue(text[0]), LetterValue(text[1]), LetterValue(text[2]), LetterValue(text[3]))
    case (Some(p), Some(q), Some(r), Some(s)) =>
      var o := Octets(p, q, r, s);
      Some([o.0, o.1, o.2])
    case _ => None
  }

  function Decode(text: string): Option<seq<Octet>> {
    if |text| == 0 then Some([])
    else if |text| < 4 then None
    else if |text| == 4 then DecodeLast(text)
    else
      match (DecodeGroup(text[..4]), Decode(text[4..]))
      case (Some(first), Some(later)) => Some(first + later)
      case _ => None
  }

  lemma OctetsOfSplit(a: Octet, b: Octet, c: Octet)
    ensures Octets(a / 4, a % 4 * 16 + b / 16, b % 16 * 4 + c / 64, c % 64) == (a, b, c)
  {
  }

  lemma ValuesDecode(text: string, p: Sextet, q: Sextet, r: Sextet, s: Sextet)
    requires |text| == 4 && LetterValue(text[0]) == Some(p) && LetterValue(text[1]) == Some(q)
    requires LetterValue(text[2]) == Some(r) && LetterValue(text[3]) == Some(s)
    ensures DecodeGroup(text) == Some([Octets(p, q, r, s).0, Octets(p, q, r, s).1, Octets(p, q, r, s).2])
  {
  }

  lemma GroupReadsBack(a: Octet, b: Octet, c: Octet)
    ensures DecodeGroup(Group(a, b, c)) == Some([a, b, c])
  {
    var p, q, r, s := a / 4, a % 4 * 16 + b / 16, b % 16 * 4 + c / 64, c % 64;
    LetterReadsBack(p);
    LetterReadsBack(q);
    LetterReadsBack(r);
    LetterReadsBack(s);
    ValuesDecode(Group(a, b, c), p, q, r, s);
    OctetsOfSplit(a, b, c);
  }

  lemma OneReadsBack(a: Octet)
    ensures DecodeLast(LastOne(a)) == Some([a])
  {
    LetterReadsBack(a / 4);
    LetterReadsBack(a % 4 * 16);
  }

  lemma TwoReadBack(a: Octet, b: Octet)
    ensures DecodeLast(LastTwo(a, b)) == Some([a, b])
  {
    LetterReadsBack(a / 4);
    LetterReadsBack(a % 4 * 16 + b / 16);
    LetterReadsBack(b % 16 * 4);
    OctetsOfSplit(a, b, 0);
  }

  lemma GroupAsLast(a: Octet, b: Octet, c: Octet)
    ensures DecodeLast(Group(a, b, c)) == Some([a, b, c])
  {
    LetterReadsBack(a / 4);
    LetterReadsBack(a % 4 * 16 + b / 16);
    GroupReadsBack(a, b, c);
  }

  lemma GroupThenMore(text: string, later: string)
    requires |text| == 4 && |later| >= 4
    ensures Decode(text + later)
         == match (DecodeGroup(text), Decode(later)) case (Some(first), Some(more)) => Some(first + more) case _ => None
  {
    assert (text + later)[..4] == text && (text + later)[4..] == later;
  }

  lemma ThreeReadBack(a: Octet, b: Octet, c: Octet, later: string)
    requires later == "" || |later| >= 4
    ensures Decode(Group(a, b, c) + later)
         == match Decode(later) case None => None case Some(more) => Some([a, b, c] + more)
  {
    if later == "" {
      GroupAsLast(a, b, c);
      LastGroup(Group(a, b, c));
      assert Group(a, b, c) + later == Group(a, b, c) && [a, b, c] + [] == [a, b, c];
    } else {
      GroupReadsBack(a, b, c);
      GroupThenMore(Group(a, b, c), later);
    }
  }

  lemma LastGroup(text: string)
    requires |text| == 4
    ensures Decode(text) == DecodeLast(text)
  {
  }

  /** Decoding an encoding gives the octets back. */
  lemma {:induction false} RoundTrip(bytes: seq<Octet>)
    ensures Decode(Encode(bytes)) == Some(bytes)
  {
    match |bytes|
    case 0 =>
    case 1 =>
      OneReadsBack(bytes[0]);
      LastGroup(LastOne(bytes[0]));
      assert bytes == [bytes[0]];
    case 2 =>
      TwoReadBack(bytes[0], bytes[1]);
      LastGroup(LastTwo(bytes[0], bytes[1]));
      assert bytes == [bytes[0], bytes[1]];
    case _ =>
      RoundTrip(bytes[3..]);
      EncodedLength(bytes[3..]);
      ThreeReadBack(bytes[0], bytes[1], bytes[2], Encode(bytes[3..]));
      assert [bytes[0], bytes[1], bytes[2]] + bytes[3..] == bytes;
  }

  predicate IsUrlSafe(c: char) {
    'A' <= c <= 'Z' || 'a' <= c <= 'z' || '0' <= c <= '9' || c == '-' || c == '_'
  }

  lemma LettersAreUrlSafe()
    ensures forall n: Sextet :: IsUrlSafe(Letter(n))
  {
  }

  /** The letters are those of the URL-safe alphabet; padding stands only at the end. */
  lemma {:induction false} EncodedIsUrlSafe(bytes: seq<Octet>, i: nat)
    requires i < |Encode(bytes)|
    ensures IsUrlSafe(Encode(bytes)[i]) || (Encode(bytes)[i] == '=' && i + 2 >= |Encode(bytes)| && |bytes| % 3 != 0)
  {
    hide Letter, IsUrlSafe;
    LettersAreUrlSafe();
    if |bytes| >= 3 && i >= 4 {
      EncodedIsUrlSafe(bytes[3..], i - 4);
    }
  }

  /** Encoded text needs no escaping. */
  lemma {:induction false} EncodedIsPlain(bytes: seq<Octet>)
    ensures forall i :: 0 <= i < |Encode(bytes)| ==> Encode(bytes)[i] != '"' && Encode(bytes)[i] != '\\' && 33 <= Encode(bytes)[i] as int < 127
  {
    if |bytes| >= 3 {
      EncodedIsPlain(bytes[3..]);
    }
  }

  // ---- what is decoded ----

  predicate IsLetter(c: char) {
    IsUrlSafe(c) || c == '+' || c == '/'
  }

  /** Whole groups of letters of either alphabet, of which the last ends in `padding` signs. */
  ghost predicate IsPadded(text: string, padding: nat) {
    && padding <= 2 && padding <= |text| && |text| % 4 == 0
    && (forall i :: 0 <= i < |text| - padding ==> IsLetter(text[i]))
    && (forall i :: |text| - padding <= i < |text| ==> text[i] == '=')
  }

  lemma LastDecodesWhen(text: string, padding: nat)
    requires |text| == 4
    ensures DecodeLast(text).Some? && |DecodeLast(text).value| + padding == 3 <==> IsPadded(text, padding)
    ensures DecodeLast(text).Some? ==> |DecodeLast(text).value| <= 3
  {
  }

  lemma GroupDecodesWhen(text: string)
    requires |text| == 4
    ensures DecodeGroup(text).Some? <==> IsPadded(text, 0)
    ensures DecodeGroup(text).Some? ==> |DecodeGroup(text).value| == 3
  {
  }

  lemma PaddedApart(text: string, padding: nat)
    requires |text| > 4
    ensures IsPadded(text, padding) <==> IsPadded(text[..4], 0) && IsPadded(text[4..], padding)
  {
    forall i | 0 <= i < 4 ensures text[..4][i] == text[i] {
    }
    forall i | 0 <= i < |text| - 4 ensures text[4..][i] == text[4 + i] {
    }
    if IsPadded(text[..4], 0) && IsPadded(text[4..], padding) {
      forall i | 0 <= i < |text| - padding ensures IsLetter(text[i]) {
        assert text[i] == if i < 4 then text[..4][i] else text[4..][i - 4];
      }
      forall i | |text| - padding <= i < |text| ensures text[i] == '=' {
        assert text[i] == text[4..][i - 4];
      }
    }
  }

  lemma ShortPadded(text: string, padding: nat)
    requires |text| < 4
    ensures IsPadded(text, padding) <==> text == "" && padding == 0
  {
  }

  /** A text is decoded exactly when it is padded, and each padding sign is one octet less. */
  lemma {:induction false} DecodesWhen(text: string, padding: nat)
    ensures Decode(text).Some? && |Decode(text).value| + padding == |text| / 4 * 3 <==> IsPadded(text, padding)
    ensures Decode(text).Some? ==> |text| % 4 == 0 && |Decode(text).value| <= |text| / 4 * 3
    decreases |text|
  {
    hide IsPadded, DecodeGroup, DecodeLast;
    if |text| < 4 {
      ShortPadded(text, padding);
    } else if |text| == 4 {
      LastDecodesWhen(text, padding);
    } else {
      PaddedApart(text, padding);
      GroupDecodesWhen(text[..4]);
      DecodesWhen(text[4..], padding);
    }
  }

  /** The URL-safe letter in place of a standard one. */
  function UrlSafe(c: char): char {
    if c == '+' then '-' else if c == '/' then '_' else c
  }

  function Translated(text: string): string {
    seq(|text|, i requires 0 <= i < |text| => UrlSafe(text[i]))
  }

  lemma LettersAgree()
    ensures forall c :: LetterValue(UrlSafe(c)) == LetterValue(c) && (UrlSafe(c) == '=' <==> c == '=')
  {
  }

  lemma GroupsAgree(text: string)
    requires |text| == 4
    ensures DecodeGroup(Translated(text)) == DecodeGroup(text) && DecodeLast(Translated(text)) == DecodeLast(text)
  {
    hide LetterValue, UrlSafe, Octets;
    LettersAgree();
  }

  /** Both alphabets are read alike. */
  lemma {:induction false} AlphabetsAgree(text: string)
    ensures Decode(Translated(text)) == Decode(text)
  {
    hide DecodeGroup, DecodeLast, UrlSafe;
    if |text| == 4 {
      GroupsAgree(text);
    } else if |text| > 4 {
      GroupsAgree(text[..4]);
      AlphabetsAgree(text[4..]);
      assert Translated(text)[..4] == Translated(text[..4]) && Translated(text)[4..] == Translated(text[4..]);
    }
  }
}
