/** The stored form of protected vectors and blobs: what is written is read back, and is never too long. */
module ScopedCodecs {
  import opened Outcomes
  import opened Decimals
  import opened Base64
  import opened FlatJson

  const MAX_VECTOR_ELEMENTS: nat := 4_000_000
  const MAX_SCOPED_VECTOR_JSON_BYTES: nat := 67_108_864
  const MAX_SCOPED_BLOB_PLAINTEXT_BYTES: nat := 1024
  const MAX_SCOPED_BLOB_JSON_BYTES: nat := 2048
  const AES_GCM_NONCE_BYTES: nat := 12
  const AES_GCM_TAG_BYTES: nat := 16

  /** The keys of the stored objects. */
  datatype Word =
    | Algorithm | Ciphertext | Dtype | KeyId | Nonce | ObjectType | RecordId | SchemaVersion | ScopeId | Shape

  function WordLength(w: Word): nat {
    match w
    case Algorithm => 9 case Ciphertext => 14 case Dtype => 5 case KeyId => 6 case Nonce => 9
    case ObjectType => 11 case RecordId => 9 case SchemaVersion => 14 case ScopeId => 8 case Shape => 5
  }

  predicate Identifies(w: Word) {
    w.KeyId? || w.ObjectType? || w.RecordId? || w.SchemaVersion? || w.ScopeId?
  }

  function IdentityText(w: Word): (text: string)
    requires Identifies(w)
    ensures |text| == WordLength(w) && IsPlain(text)
  {
    match w
    case KeyId => "key_id" case ObjectType => "object_type" case RecordId => "record_id"
    case SchemaVersion => "schema_version" case ScopeId => "scope_id"
  }

  function ContentText(w: Word): (text: string)
    requires !Identifies(w)
    ensures |text| == WordLength(w) && IsPlain(text)
  {
    match w
    case Algorithm => "algorithm" case Ciphertext => "ciphertext_b64" case Dtype => "dtype"
    case Nonce => "nonce_b64" case Shape => "shape"
  }

  function WordText(w: Word): (text: string)
    ensures |text| == WordLength(w) && IsPlain(text)
  {
    if Identifies(w) then IdentityText(w) else ContentText(w)
  }

  lemma WordsDiffer(a: Word, b: Word)
    requires WordText(a) == WordText(b)
    ensures a == b
  {
    var x, y := WordText(a), WordText(b);
    assert |x| == |y| && x[0] == y[0] && x[1] == y[1];
  }

  /** How keys and fixed values are spelled. */
  datatype Spelling = Spelling(name: Word -> string, algorithm: string, dtype: string, contract: string)

  ghost predicate IsDistinct(sp: Spelling) {
    && (forall w :: |sp.name(w)| == WordLength(w) && IsPlain(sp.name(w)))
    && (forall a, b :: sp.name(a) == sp.name(b) ==> a == b)
    && IsPlain(sp.algorithm) && IsPlain(sp.dtype) && IsPlain(sp.contract)
    && |sp.algorithm| == 18 && |sp.dtype| == 7 && |sp.contract| == 15
  }

  function SourceSpelling(): Spelling {
    Spelling(WordText, "AES-256-GCM-SCOPED", "float64", "memory-contract")
  }

  lemma SourceSpellingIsDistinct()
    ensures IsDistinct(SourceSpelling())
  {
    forall a, b | WordText(a) == WordText(b) ensures a == b {
      WordsDiffer(a, b);
    }
  }

  // ---- identifiers ----

  predicate IsHex(s: string) {
    forall i :: 0 <= i < |s| ==> '0' <= s[i] <= '9' || 'a' <= s[i] <= 'f'
  }

  predicate IsKeyId(s: string) {
    |s| == 19 && s[..3] == ['e', 'v', '-'] && IsHex(s[3..])
  }

  predicate IsScopeId(s: string) {
    |s| == 38 && s[..6] == ['s', 'c', 'o', 'p', 'e', '-'] && IsHex(s[6..])
  }

  predicate IsAlphanumeric(c: char) {
    'A' <= c <= 'Z' || 'a' <= c <= 'z' || '0' <= c <= '9'
  }

  predicate IsRecordId(s: string) {
    && 1 <= |s| <= 128 && IsAlphanumeric(s[0])
    && forall i :: 0 <= i < |s| ==> IsAlphanumeric(s[i]) || s[i] == '.' || s[i] == '_' || s[i] == ':' || s[i] == '-'
  }

  lemma KeyIdIsPlain(s: string)
    requires IsKeyId(s)
    ensures IsPlain(s)
  {
    assert forall i :: 0 <= i < 3 ==> s[i] == s[..3][i];
    assert forall i :: 3 <= i < |s| ==> s[i] == s[3..][i - 3];
  }

  lemma ScopeIdIsPlain(s: string)
    requires IsScopeId(s)
    ensures IsPlain(s)
  {
    assert forall i :: 0 <= i < 6 ==> s[i] == s[..6][i];
    assert forall i :: 6 <= i < |s| ==> s[i] == s[6..][i - 6];
  }

  lemma RecordIdIsPlain(s: string)
    requires IsRecordId(s)
    ensures IsPlain(s)
  {
  }

  // ---- the objects ----

  datatype Vector = Vector(keyId: string, scopeId: string, recordId: string, nonce: seq<Octet>, ciphertext: seq<Octet>, size: int, version: int)

  datatype Blob = Blob(keyId: string, scopeId: string, recordId: string, nonce: seq<Octet>, ciphertext: seq<Octet>, version: int)

  predicate IsVector(v: Vector) {
    && IsKeyId(v.keyId) && IsScopeId(v.scopeId) && IsRecordId(v.recordId)
    && (v.version == 2 || v.version == 3)
    && |v.nonce| == AES_GCM_NONCE_BYTES
    && 0 < v.size <= MAX_VECTOR_ELEMENTS
    && |v.ciphertext| == v.size * 8 + AES_GCM_TAG_BYTES
  }

  predicate IsBlob(b: Blob) {
    && IsKeyId(b.keyId) && IsScopeId(b.scopeId) && IsRecordId(b.recordId)
    && (b.version == 2 || b.version == 3)
    && |b.nonce| == AES_GCM_NONCE_BYTES
    && AES_GCM_TAG_BYTES < |b.ciphertext| <= MAX_SCOPED_BLOB_PLAINTEXT_BYTES + AES_GCM_TAG_BYTES
  }

  /** An object as JSON values: its octets encoded. */
  datatype Wire = Wire(keyId: string, scopeId: string, recordId: string, nonce: string, ciphertext: string, size: nat, version: int)

  function VectorWire(v: Vector): Wire
    requires IsVector(v)
  {
    Wire(v.keyId, v.scopeId, v.recordId, Encode(v.nonce), Encode(v.ciphertext), v.size, v.version)
  }

  function BlobWire(b: Blob): Wire {
    Wire(b.keyId, b.scopeId, b.recordId, Encode(b.nonce), Encode(b.ciphertext), 0, b.version)
  }

  // ---- writing ----

  function VectorWords(): seq<Word> {
    [Algorithm, Ciphertext, Dtype, KeyId, Nonce, RecordId, SchemaVersion, ScopeId, Shape]
  }

  function BlobWords(): seq<Word> {
    [Algorithm, Ciphertext, KeyId, Nonce, ObjectType, RecordId, SchemaVersion, ScopeId]
  }

  function ValueOf(sp: Spelling, wire: Wire, w: Word): Value {
    match w
    case Algorithm => Text(sp.algorithm)
    case Ciphertext => Text(wire.ciphertext)
    case Dtype => Text(sp.dtype)
    case KeyId => Text(wire.keyId)
    case Nonce => Text(wire.nonce)
    case ObjectType => Text(sp.contract)
    case RecordId => Text(wire.recordId)
    case SchemaVersion => if wire.version >= 0 then Number(wire.version) else Text("")
    case ScopeId => Text(wire.scopeId)
    case Shape => OneNumber(wire.size)
  }

  function Values(sp: Spelling, wire: Wire): Word -> Value {
    w => ValueOf(sp, wire, w)
  }

  function MembersOf(sp: Spelling, words: seq<Word>, value: Word -> Value): (ms: seq<Member>)
    ensures |ms| == |words|
    ensures forall i :: 0 <= i < |ms| ==> ms[i] == Member(sp.name(words[i]), value(words[i]))
  {
    seq(|words|, i requires 0 <= i < |words| => Member(sp.name(words[i]), value(words[i])))
  }

  function WriteWire(sp: Spelling, words: seq<Word>, wire: Wire): string {
    ObjectText(MembersOf(sp, words, Values(sp, wire)))
  }

  function WriteVector(sp: Spelling, v: Vector): string
    requires IsVector(v)
  {
    WriteWire(sp, VectorWords(), VectorWire(v))
  }

  /** A blob checks its own length after writing. */
  function WriteBlob(sp: Spelling, b: Blob): Option<string> {
    var text := WriteWire(sp, BlobWords(), BlobWire(b));
    if |text| > MAX_SCOPED_BLOB_JSON_BYTES then None else Some(text)
  }

  // ---- reading ----

  predicate UniqueKeys(ms: seq<Member>) {
    forall i, j :: 0 <= i < j < |ms| ==> ms[i].key != ms[j].key
  }

  function KeySet(ms: seq<Member>): set<string> {
    set m | m in ms :: m.key
  }

  function Get(ms: seq<Member>, key: string): Option<Value> {
    if ms == [] then None else if ms[0].key == key then Some(ms[0].value) else Get(ms[1..], key)
  }

  /** The value of each word in an object that has exactly these words as keys. */
  function Fields(sp: Spelling, words: seq<Word>, text: string, maximum: nat): Option<Word -> Option<Value>> {
    if text == "" || |text| > maximum then None
    else
      match ReadObject(text)
      case None => None
      case Some(ms) =>
        if !UniqueKeys(ms) || KeySet(ms) != set w | w in words :: sp.name(w) then None
        else Some(w => Get(ms, sp.name(w)))
  }

  /** Python's `str`. */
  function StrOf(v: Value): string {
    if v.Text? then v.text else ValueText(v)
  }

  /** Python's `int`; `toInt` is its reading of text. */
  function IntOf(toInt: string -> Option<int>, v: Value): Option<int> {
    match v
    case Number(n) => Some(n)
    case Text(text) => toInt(text)
    case OneNumber(_) => None
  }

  function VectorWireFrom(sp: Spelling, toInt: string -> Option<int>, get: Word -> Option<Value>): Option<Wire> {
    match (get(Algorithm), get(Ciphertext), get(Dtype), get(KeyId), get(Nonce), get(RecordId), get(SchemaVersion), get(ScopeId), get(Shape))
    case (Some(algorithm), Some(cipher), Some(dtype), Some(key), Some(nonce), Some(record), Some(version), Some(scope), Some(OneNumber(size))) =>
      if StrOf(algorithm) != sp.algorithm || StrOf(dtype) != sp.dtype || IntOf(toInt, version).None? then None
      else Some(Wire(StrOf(key), StrOf(scope), StrOf(record), StrOf(nonce), StrOf(cipher), size, IntOf(toInt, version).value))
    case _ => None
  }

  function BlobWireFrom(sp: Spelling, toInt: string -> Option<int>, get: Word -> Option<Value>): Option<Wire> {
    match (get(Algorithm), get(Ciphertext), get(KeyId), get(Nonce), get(ObjectType), get(RecordId), get(SchemaVersion), get(ScopeId))
    case (Some(algorithm), Some(cipher), Some(key), Some(nonce), Some(kind), Some(record), Some(version), Some(scope)) =>
      if StrOf(algorithm) != sp.algorithm || StrOf(kind) != sp.contract || IntOf(toInt, version).None? then None
      else Some(Wire(StrOf(key), StrOf(scope), StrOf(record), StrOf(nonce), StrOf(cipher), 0, IntOf(toInt, version).value))
    case _ => None
  }

  function VectorOf(wire: Wire): Option<Vector> {
    match (Decode(wire.nonce), Decode(wire.ciphertext))
    case (Some(nonce), Some(ciphertext)) =>
      var v := Vector(wire.keyId, wire.scopeId, wire.recordId, nonce, ciphertext, wire.size, wire.version);
      if IsVector(v) then Some(v) else None
    case _ => None
  }

  function BlobOf(wire: Wire): Option<Blob> {
    match (Decode(wire.nonce), Decode(wire.ciphertext))
    case (Some(nonce), Some(ciphertext)) =>
      var b := Blob(wire.keyId, wire.scopeId, wire.recordId, nonce, ciphertext, wire.version);
      if IsBlob(b) then Some(b) else None
    case _ => None
  }

  function ReadVectorWire(sp: Spelling, toInt: string -> Option<int>, text: string): Option<Wire> {
    match Fields(sp, VectorWords(), text, MAX_SCOPED_VECTOR_JSON_BYTES)
    case None => None
    case Some(get) => VectorWireFrom(sp, toInt, get)
  }

  function ReadBlobWire(sp: Spelling, toInt: string -> Option<int>, text: string): Option<Wire> {
    match Fields(sp, BlobWords(), text, MAX_SCOPED_BLOB_JSON_BYTES)
    case None => None
    case Some(get) => BlobWireFrom(sp, toInt, get)
  }

  function ReadVector(sp: Spelling, toInt: string -> Option<int>, text: string): Option<Vector> {
    match ReadVectorWire(sp, toInt, text) case None => None case Some(wire) => VectorOf(wire)
  }

  function ReadBlob(sp: Spelling, toInt: string -> Option<int>, text: string): Option<Blob> {
    match ReadBlobWire(sp, toInt, text) case None => None case Some(wire) => BlobOf(wire)
  }

  // ---- round trips ----

  lemma {:induction false} GetFinds(ms: seq<Member>, i: nat)
    requires i < |ms| && UniqueKeys(ms)
    ensures Get(ms, ms[i].key) == Some(ms[i].value)
  {
    if i > 0 {
      GetFinds(ms[1..], i - 1);
    }
  }

  ghost predicate AreDistinct(words: seq<Word>) {
    forall i, j :: 0 <= i < j < |words| ==> words[i] != words[j]
  }

  /** What was written is found under each word. */
  lemma WrittenFields(sp: Spelling, words: seq<Word>, value: Word -> Value, octets: nat, maximum: nat)
    requires IsDistinct(sp) && AreDistinct(words) && words != [] && AreWritable(value, octets)
    requires |ObjectText(MembersOf(sp, words, value))| <= maximum
    ensures var found := Fields(sp, words, ObjectText(MembersOf(sp, words, value)), maximum);
      found.Some? && forall w :: w in words ==> found.value(w) == Some(value(w))
  {
    var ms := MembersOf(sp, words, value);
    ObjectReadsBack(ms);
    assert UniqueKeys(ms);
    WrittenKeys(sp, words, value);
    forall w | w in words ensures Get(ms, sp.name(w)) == Some(value(w)) {
      var i :| 0 <= i < |words| && words[i] == w;
      GetFinds(ms, i);
    }
  }

  lemma WrittenKeys(sp: Spelling, words: seq<Word>, value: Word -> Value)
    ensures KeySet(MembersOf(sp, words, value)) == set w | w in words :: sp.name(w)
  {
    var ms := MembersOf(sp, words, value);
    forall key | key in KeySet(ms) ensures key in set w | w in words :: sp.name(w) {
      var i :| 0 <= i < |ms| && ms[i].key == key;
      assert words[i] in words;
    }
    forall w | w in words ensures sp.name(w) in KeySet(ms) {
      var i :| 0 <= i < |words| && words[i] == w;
      assert ms[i] in ms;
    }
  }

  lemma SmallNumbers(n: nat)
    requires n <= MAX_VECTOR_ELEMENTS
    ensures Digits(n) <= 7 && (n < 10 ==> Digits(n) == 1)
  {
    DigitsGrow(n, 9_999_999);
    var m := 9_999_999;
    assert Digits(m / 1_000_000) == 1;
    assert Digits(m / 100_000) == 2;
    assert Digits(m / 10_000) == 3;
    assert Digits(m / 1_000) == 4;
    assert Digits(m / 100) == 5;
    assert Digits(m / 10) == 6;
  }

  lemma EncodedText(bytes: seq<Octet>)
    ensures IsPlain(Encode(bytes)) && Decode(Encode(bytes)) == Some(bytes) && |Encode(bytes)| == (|bytes| + 2) / 3 * 4
  {
    EncodedIsPlain(bytes);
    RoundTrip(bytes);
    EncodedLength(bytes);
  }

  // ---- lengths ----

  /** The most characters a value can take, given the largest ciphertext. */
  function LongestValue(w: Word, octets: nat): nat {
    match w
    case Algorithm => 20
    case Ciphertext => (octets + 2) / 3 * 4 + 2
    case Dtype => 9
    case KeyId => 21
    case Nonce => 18
    case ObjectType => 17
    case RecordId => 130
    case SchemaVersion => 1
    case ScopeId => 40
    case Shape => 9
  }

  function LongestMembers(words: seq<Word>, octets: nat, n: nat): nat
    requires n <= |words|
  {
    if n == 0 then 0
    else LongestMembers(words, octets, n - 1) + WordLength(words[n - 1]) + 4 + LongestValue(words[n - 1], octets)
  }

  lemma {:induction false} MembersLengthNext(ms: seq<Member>, m: Member)
    ensures MembersLength(ms + [m]) == MembersLength(ms) + |m.key| + 4 + ValueLength(m.value)
  {
    if ms == [] {
      assert ms + [m] == [m];
    } else {
      assert (ms + [m])[1..] == ms[1..] + [m];
      MembersLengthNext(ms[1..], m);
    }
  }

  lemma {:induction false} WrittenLength(sp: Spelling, words: seq<Word>, value: Word -> Value, octets: nat, n: nat)
    requires IsDistinct(sp) && n <= |words| && AreWritable(value, octets)
    ensures MembersLength(MembersOf(sp, words, value)[..n]) <= LongestMembers(words, octets, n)
  {
    if n > 0 {
      var ms := MembersOf(sp, words, value);
      WrittenLength(sp, words, value, octets, n - 1);
      assert ms[..n] == ms[..n - 1] + [ms[n - 1]];
      MembersLengthNext(ms[..n - 1], ms[n - 1]);
    }
  }

  lemma ObjectLength(sp: Spelling, words: seq<Word>, value: Word -> Value, octets: nat)
    requires IsDistinct(sp) && AreWritable(value, octets)
    ensures |ObjectText(MembersOf(sp, words, value))| <= 1 + LongestMembers(words, octets, |words|)
  {
    var ms := MembersOf(sp, words, value);
    MembersTextLength(ms);
    WrittenLength(sp, words, value, octets, |words|);
    assert ms[..|words|] == ms;
  }

  /** Written values need no escapes and have bounded lengths. */
  ghost predicate AreWritable(value: Word -> Value, octets: nat) {
    forall w :: IsPlainValue(value(w)) && ValueLength(value(w)) <= LongestValue(w, octets)
  }

  ghost predicate IsWire(wire: Wire, octets: nat) {
    && IsPlain(wire.keyId) && |wire.keyId| == 19
    && IsPlain(wire.scopeId) && |wire.scopeId| == 38
    && IsPlain(wire.recordId) && |wire.recordId| <= 128
    && IsPlain(wire.nonce) && |wire.nonce| == 16
    && IsPlain(wire.ciphertext) && |wire.ciphertext| == (octets + 2) / 3 * 4
    && wire.size <= MAX_VECTOR_ELEMENTS && 0 <= wire.version < 10
  }

  lemma WireIsWritable(sp: Spelling, wire: Wire, octets: nat)
    requires IsDistinct(sp) && IsWire(wire, octets)
    ensures AreWritable(Values(sp, wire), octets)
  {
    SmallNumbers(wire.version);
    SmallNumbers(wire.size);
    forall w ensures IsPlainValue(Values(sp, wire)(w)) && ValueLength(Values(sp, wire)(w)) <= LongestValue(w, octets) {
    }
  }

  lemma IdentifiersArePlain(keyId: string, scopeId: string, recordId: string)
    requires IsKeyId(keyId) && IsScopeId(scopeId) && IsRecordId(recordId)
    ensures IsPlain(keyId) && |keyId| == 19 && IsPlain(scopeId) && |scopeId| == 38 && IsPlain(recordId) && |recordId| <= 128
  {
    KeyIdIsPlain(keyId);
    ScopeIdIsPlain(scopeId);
    RecordIdIsPlain(recordId);
  }

  lemma IdentifiedWire(wire: Wire, octets: nat)
    requires IsKeyId(wire.keyId) && IsScopeId(wire.scopeId) && IsRecordId(wire.recordId)
    requires IsPlain(wire.nonce) && |wire.nonce| == 16 && IsPlain(wire.ciphertext) && |wire.ciphertext| == (octets + 2) / 3 * 4
    requires wire.size <= MAX_VECTOR_ELEMENTS && 0 <= wire.version < 10
    ensures IsWire(wire, octets)
  {
    IdentifiersArePlain(wire.keyId, wire.scopeId, wire.recordId);
  }

  /** What is needed of the encodings alone. */
  lemma EncodedShape(bytes: seq<Octet>, text: string)
    requires text == Encode(bytes)
    ensures IsPlain(text) && |text| == (|bytes| + 2) / 3 * 4
  {
    EncodedIsPlain(bytes);
    EncodedLength(bytes);
  }

  lemma VectorIsWire(v: Vector)
    requires IsVector(v)
    ensures IsWire(VectorWire(v), |v.ciphertext|)
  {
    EncodedShape(v.nonce, VectorWire(v).nonce);
    EncodedShape(v.ciphertext, VectorWire(v).ciphertext);
    IdentifiedWire(VectorWire(v), |v.ciphertext|);
  }

  lemma BlobIsWire(b: Blob)
    requires IsBlob(b)
    ensures IsWire(BlobWire(b), |b.ciphertext|)
  {
    EncodedShape(b.nonce, BlobWire(b).nonce);
    EncodedShape(b.ciphertext, BlobWire(b).ciphertext);
    IdentifiedWire(BlobWire(b), |b.ciphertext|);
  }

  lemma LongestVector(octets: nat)
    requires octets <= 32_000_016
    ensures LongestMembers(VectorWords(), octets, 9) < MAX_SCOPED_VECTOR_JSON_BYTES
  {
    var words := VectorWords();
    assert LongestMembers(words, octets, 1) == 33;
    assert LongestMembers(words, octets, 2) == 51 + (octets + 2) / 3 * 4 + 2;
    assert LongestMembers(words, octets, 3) == LongestMembers(words, octets, 2) + 18;
    assert LongestMembers(words, octets, 4) == LongestMembers(words, octets, 3) + 31;
    assert LongestMembers(words, octets, 5) == LongestMembers(words, octets, 4) + 31;
    assert LongestMembers(words, octets, 6) == LongestMembers(words, octets, 5) + 143;
    assert LongestMembers(words, octets, 7) == LongestMembers(words, octets, 6) + 19;
    assert LongestMembers(words, octets, 8) == LongestMembers(words, octets, 7) + 52;
  }

  lemma LongestBlob(octets: nat)
    requires octets <= 1_040
    ensures LongestMembers(BlobWords(), octets, 8) <= 1_749
  {
    var words := BlobWords();
    assert LongestMembers(words, octets, 1) == 33;
    assert LongestMembers(words, octets, 2) == 51 + (octets + 2) / 3 * 4 + 2;
    assert LongestMembers(words, octets, 3) == LongestMembers(words, octets, 2) + 31;
    assert LongestMembers(words, octets, 4) == LongestMembers(words, octets, 3) + 31;
    assert LongestMembers(words, octets, 5) == LongestMembers(words, octets, 4) + 32;
    assert LongestMembers(words, octets, 6) == LongestMembers(words, octets, 5) + 143;
    assert LongestMembers(words, octets, 7) == LongestMembers(words, octets, 6) + 19;
  }

  lemma VectorWireFits(sp: Spelling, wire: Wire, octets: nat)
    requires IsDistinct(sp) && IsWire(wire, octets) && octets <= 32_000_016
    ensures |WriteWire(sp, VectorWords(), wire)| <= MAX_SCOPED_VECTOR_JSON_BYTES
  {
    WireIsWritable(sp, wire, octets);
    ObjectLength(sp, VectorWords(), Values(sp, wire), octets);
    LongestVector(octets);
  }

  lemma BlobWireFits(sp: Spelling, wire: Wire, octets: nat)
    requires IsDistinct(sp) && IsWire(wire, octets) && octets <= 1_040
    ensures |WriteWire(sp, BlobWords(), wire)| <= 1_750
  {
    WireIsWritable(sp, wire, octets);
    ObjectLength(sp, BlobWords(), Values(sp, wire), octets);
    LongestBlob(octets);
  }

  /** The written vector is within what the reader accepts. */
  lemma VectorFits(sp: Spelling, v: Vector)
    requires IsDistinct(sp) && IsVector(v)
    ensures |WriteVector(sp, v)| <= MAX_SCOPED_VECTOR_JSON_BYTES
  {
    VectorIsWire(v);
    VectorWireFits(sp, VectorWire(v), |v.ciphertext|);
  }

  /** The blob's own length check never fails. */
  lemma BlobFits(sp: Spelling, b: Blob)
    requires IsDistinct(sp) && IsBlob(b)
    ensures WriteBlob(sp, b).Some? && |WriteBlob(sp, b).value| <= 1_750
  {
    BlobIsWire(b);
    BlobWireFits(sp, BlobWire(b), |b.ciphertext|);
  }

  // ---- reading back ----

  lemma WordsAreDistinct()
    ensures AreDistinct(VectorWords()) && VectorWords() != [] && AreDistinct(BlobWords()) && BlobWords() != []
  {
  }

  lemma WrittenWire(sp: Spelling, words: seq<Word>, wire: Wire, octets: nat, maximum: nat)
    requires IsDistinct(sp) && IsWire(wire, octets) && AreDistinct(words) && words != []
    requires |WriteWire(sp, words, wire)| <= maximum
    ensures var found := Fields(sp, words, WriteWire(sp, words, wire), maximum);
      found.Some? && forall w :: w in words ==> found.value(w) == Some(Values(sp, wire)(w))
  {
    WireIsWritable(sp, wire, octets);
    WrittenFields(sp, words, Values(sp, wire), octets, maximum);
  }

  lemma VectorWireReadsBack(sp: Spelling, toInt: string -> Option<int>, wire: Wire, octets: nat)
    requires IsDistinct(sp) && IsWire(wire, octets) && octets <= 32_000_016
    ensures ReadVectorWire(sp, toInt, WriteWire(sp, VectorWords(), wire)) == Some(wire)
  {
    VectorWireFits(sp, wire, octets);
    WordsAreDistinct();
    WrittenWire(sp, VectorWords(), wire, octets, MAX_SCOPED_VECTOR_JSON_BYTES);
    var get := Fields(sp, VectorWords(), WriteWire(sp, VectorWords(), wire), MAX_SCOPED_VECTOR_JSON_BYTES).value;
    VectorWireFromValues(sp, toInt, wire, get);
  }

  lemma VectorWireFromValues(sp: Spelling, toInt: string -> Option<int>, wire: Wire, get: Word -> Option<Value>)
    requires wire.version >= 0 && forall w :: w in VectorWords() ==> get(w) == Some(Values(sp, wire)(w))
    ensures VectorWireFrom(sp, toInt, get) == Some(wire)
  {
    VectorGets(Values(sp, wire), get);
  }

  lemma VectorGets(value: Word -> Value, get: Word -> Option<Value>)
    requires forall w :: w in VectorWords() ==> get(w) == Some(value(w))
    ensures get(Algorithm) == Some(value(Algorithm)) && get(Ciphertext) == Some(value(Ciphertext)) && get(Dtype) == Some(value(Dtype))
    ensures get(KeyId) == Some(value(KeyId)) && get(Nonce) == Some(value(Nonce)) && get(RecordId) == Some(value(RecordId))
    ensures get(SchemaVersion) == Some(value(SchemaVersion)) && get(ScopeId) == Some(value(ScopeId)) && get(Shape) == Some(value(Shape))
  {
    var words := VectorWords();
    assert words[0] == Algorithm && words[1] == Ciphertext && words[2] == Dtype && words[3] == KeyId && words[4] == Nonce;
    assert words[5] == RecordId && words[6] == SchemaVersion && words[7] == ScopeId && words[8] == Shape;
  }

  lemma DecodedVector(v: Vector)
    requires IsVector(v)
    ensures VectorOf(VectorWire(v)) == Some(v)
  {
    EncodedText(v.nonce);
    EncodedText(v.ciphertext);
  }

  /** Every valid vector is read back unchanged from what was written. */
  lemma VectorReadsBack(sp: Spelling, toInt: string -> Option<int>, v: Vector)
    requires IsDistinct(sp) && IsVector(v)
    ensures ReadVector(sp, toInt, WriteVector(sp, v)) == Some(v)
  {
    VectorIsWire(v);
    VectorWireReadsBack(sp, toInt, VectorWire(v), |v.ciphertext|);
    DecodedVector(v);
  }

  lemma BlobWireReadsBack(sp: Spelling, toInt: string -> Option<int>, wire: Wire, octets: nat)
    requires IsDistinct(sp) && IsWire(wire, octets) && octets <= 1_040 && wire.size == 0
    ensures ReadBlobWire(sp, toInt, WriteWire(sp, BlobWords(), wire)) == Some(wire)
  {
    BlobWireFits(sp, wire, octets);
    WordsAreDistinct();
    WrittenWire(sp, BlobWords(), wire, octets, MAX_SCOPED_BLOB_JSON_BYTES);
    var get := Fields(sp, BlobWords(), WriteWire(sp, BlobWords(), wire), MAX_SCOPED_BLOB_JSON_BYTES).value;
    BlobWireFromValues(sp, toInt, wire, get);
  }

  lemma BlobWireFromValues(sp: Spelling, toInt: string -> Option<int>, wire: Wire, get: Word -> Option<Value>)
    requires wire.version >= 0 && wire.size == 0 && forall w :: w in BlobWords() ==> get(w) == Some(Values(sp, wire)(w))
    ensures BlobWireFrom(sp, toInt, get) == Some(wire)
  {
    BlobGets(Values(sp, wire), get);
  }

  lemma BlobGets(value: Word -> Value, get: Word -> Option<Value>)
    requires forall w :: w in BlobWords() ==> get(w) == Some(value(w))
    ensures get(Algorithm) == Some(value(Algorithm)) && get(Ciphertext) == Some(value(Ciphertext)) && get(KeyId) == Some(value(KeyId))
    ensures get(Nonce) == Some(value(Nonce)) && get(ObjectType) == Some(value(ObjectType)) && get(RecordId) == Some(value(RecordId))
    ensures get(SchemaVersion) == Some(value(SchemaVersion)) && get(ScopeId) == Some(value(ScopeId))
  {
    var words := BlobWords();
    assert words[0] == Algorithm && words[1] == Ciphertext && words[2] == KeyId && words[3] == Nonce && words[4] == ObjectType;
    assert words[5] == RecordId && words[6] == SchemaVersion && words[7] == ScopeId;
  }

  lemma DecodedBlob(b: Blob)
    requires IsBlob(b)
    ensures BlobOf(BlobWire(b)) == Some(b)
  {
    EncodedText(b.nonce);
    EncodedText(b.ciphertext);
  }

  /** Every valid blob is written, and read back unchanged. */
  lemma BlobReadsBack(sp: Spelling, toInt: string -> Option<int>, b: Blob)
    requires IsDistinct(sp) && IsBlob(b)
    ensures WriteBlob(sp, b).Some? && ReadBlob(sp, toInt, WriteBlob(sp, b).value) == Some(b)
  {
    BlobFits(sp, b);
    BlobIsWire(b);
    BlobWireReadsBack(sp, toInt, BlobWire(b), |b.ciphertext|);
    DecodedBlob(b);
  }

  // ---- what a reader accepts ----

  /** The object behind an accepted text: exactly these keys, each once. */
  ghost predicate Holds(sp: Spelling, words: seq<Word>, text: string, maximum: nat, ms: seq<Member>) {
    && 0 < |text| <= maximum && text == ObjectText(ms)
    && (forall i, j :: 0 <= i < j < |ms| ==> ms[i].key != ms[j].key)
    && (forall key :: key in KeySet(ms) <==> exists w :: w in words && key == sp.name(w))
  }

  /** The text under a key. */
  ghost predicate Says(sp: Spelling, ms: seq<Member>, w: Word, text: string) {
    Get(ms, sp.name(w)).Some? && StrOf(Get(ms, sp.name(w)).value) == text
  }

  ghost predicate SaysOctets(sp: Spelling, ms: seq<Member>, w: Word, octets: seq<Octet>) {
    Get(ms, sp.name(w)).Some? && Decode(StrOf(Get(ms, sp.name(w)).value)) == Some(octets)
  }

  lemma FieldsAreOf(sp: Spelling, words: seq<Word>, text: string, maximum: nat) returns (ms: seq<Member>)
    requires Fields(sp, words, text, maximum).Some?
    ensures Holds(sp, words, text, maximum, ms)
    ensures forall w :: Fields(sp, words, text, maximum).value(w) == Get(ms, sp.name(w))
  {
    ms := ReadObject(text).value;
    OnlyWrittenIsRead(text, ms);
    var names := set w | w in words :: sp.name(w);
    assert forall key :: key in names <==> exists w :: w in words && key == sp.name(w);
  }

  lemma VectorIsWithinBounds(toInt: string -> Option<int>, sp: Spelling, text: string, v: Vector)
    requires ReadVector(sp, toInt, text) == Some(v)
    ensures IsVector(v)
    ensures |v.nonce| == 12 && 1 <= v.size <= 4_000_000 && |v.ciphertext| == 8 * v.size + 16 && v.version in {2, 3}
    ensures |v.keyId| == 19 && |v.scopeId| == 38 && 1 <= |v.recordId| <= 128
  {
    hide ReadVectorWire, Decode;
  }

  /** What is read as a vector is the object's own content, with its fixed fields as they must be, and within every bound. */
  lemma AcceptedVector(sp: Spelling, toInt: string -> Option<int>, text: string, v: Vector) returns (ms: seq<Member>)
    requires ReadVector(sp, toInt, text) == Some(v)
    ensures Holds(sp, VectorWords(), text, 67_108_864, ms)
    ensures Says(sp, ms, Algorithm, sp.algorithm) && Says(sp, ms, Dtype, sp.dtype)
    ensures Says(sp, ms, KeyId, v.keyId) && Says(sp, ms, ScopeId, v.scopeId) && Says(sp, ms, RecordId, v.recordId)
    ensures SaysOctets(sp, ms, Nonce, v.nonce) && SaysOctets(sp, ms, Ciphertext, v.ciphertext)
    ensures v.size >= 0 && Get(ms, sp.name(Shape)) == Some(OneNumber(v.size))
    ensures Get(ms, sp.name(SchemaVersion)).Some? && IntOf(toInt, Get(ms, sp.name(SchemaVersion)).value) == Some(v.version)
    ensures |v.nonce| == 12 && 1 <= v.size <= 4_000_000 && |v.ciphertext| == 8 * v.size + 16 && v.version in {2, 3}
    ensures |v.keyId| == 19 && |v.scopeId| == 38 && 1 <= |v.recordId| <= 128
  {
    hide Fields, Decode, IsVector;
    ms := FieldsAreOf(sp, VectorWords(), text, MAX_SCOPED_VECTOR_JSON_BYTES);
    VectorIsWithinBounds(toInt, sp, text, v);
  }

  /** The same of a blob. */
  lemma AcceptedBlob(sp: Spelling, toInt: string -> Option<int>, text: string, b: Blob) returns (ms: seq<Member>)
    requires ReadBlob(sp, toInt, text) == Some(b)
    ensures Holds(sp, BlobWords(), text, 2_048, ms)
    ensures Says(sp, ms, Algorithm, sp.algorithm) && Says(sp, ms, ObjectType, sp.contract)
    ensures Says(sp, ms, KeyId, b.keyId) && Says(sp, ms, ScopeId, b.scopeId) && Says(sp, ms, RecordId, b.recordId)
    ensures SaysOctets(sp, ms, Nonce, b.nonce) && SaysOctets(sp, ms, Ciphertext, b.ciphertext)
    ensures Get(ms, sp.name(SchemaVersion)).Some? && IntOf(toInt, Get(ms, sp.name(SchemaVersion)).value) == Some(b.version)
    ensures |b.nonce| == 12 && 17 <= |b.ciphertext| <= 1_040 && b.version in {2, 3}
    ensures |b.keyId| == 19 && |b.scopeId| == 38 && 1 <= |b.recordId| <= 128
  {
    ms := FieldsAreOf(sp, BlobWords(), text, MAX_SCOPED_BLOB_JSON_BYTES);
  }

  // ---- as the source spells it ----

  /** A stored vector is read back unchanged and is never too long for its reader. */
  lemma StoredVectors(toInt: string -> Option<int>, v: Vector)
    requires IsKeyId(v.keyId) && IsScopeId(v.scopeId) && IsRecordId(v.recordId) && |v.nonce| == 12 && v.version in {2, 3}
    requires 1 <= v.size <= 4_000_000 && |v.ciphertext| == 8 * v.size + 16
    ensures IsVector(v) && ReadVector(SourceSpelling(), toInt, WriteVector(SourceSpelling(), v)) == Some(v)
    ensures |WriteVector(SourceSpelling(), v)| <= 67_108_864
  {
    SourceSpellingIsDistinct();
    VectorReadsBack(SourceSpelling(), toInt, v);
    VectorFits(SourceSpelling(), v);
  }

  /** A blob can always be stored, and is read back unchanged. */
  lemma StoredBlobs(toInt: string -> Option<int>, b: Blob)
    requires IsKeyId(b.keyId) && IsScopeId(b.scopeId) && IsRecordId(b.recordId) && |b.nonce| == 12 && b.version in {2, 3}
    requires 17 <= |b.ciphertext| <= 1_040
    ensures var stored := WriteBlob(SourceSpelling(), b);
      stored.Some? && ReadBlob(SourceSpelling(), toInt, stored.value) == Some(b) && |stored.value| <= 2_048
  {
    SourceSpellingIsDistinct();
    BlobReadsBack(SourceSpelling(), toInt, b);
    BlobFits(SourceSpelling(), b);
  }
}
