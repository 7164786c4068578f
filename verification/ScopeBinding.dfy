/**
 * The message that binds a profile's scope, features and key epochs to its active
 * root: no two bindings share a message.
 */
module ScopeBinding {
  import opened Outcomes
  import opened Decimals
  import opened BoundedTexts

  const MAX_SCOPE_CHARS: nat := 256
  const NUL: char := '\0'

  /** The words before the fields, as the source spells them. */
  datatype Marker = Binding | Feature | KeyEpoch

  function MarkerText(marker: Marker): (text: string)
    ensures NUL !in text && text != ""
  {
    match marker
    case Binding => "echo-veil-scope-binding-v1"
    case Feature => "feature"
    case KeyEpoch => "key-epoch"
  }

  lemma MarkersDiffer()
    ensures MarkerText(Feature) != MarkerText(KeyEpoch)
  {
    assert |MarkerText(Feature)| == 7 && |MarkerText(KeyEpoch)| == 9;
  }

  datatype KeyEpochs = KeyEpochs(keyId: string, epoch: nat)

  datatype Bound = Bound(scopeId: string, scope: string, features: seq<string>, epochs: seq<KeyEpochs>)

  predicate NulFree(b: Bound) {
    && NUL !in b.scopeId && NUL !in b.scope
    && (forall i :: 0 <= i < |b.features| ==> NUL !in b.features[i])
    && (forall i :: 0 <= i < |b.epochs| ==> NUL !in b.epochs[i].keyId)
  }

  // ---- the message ----

  function FeatureItem(feature: string): string {
    [NUL] + MarkerText(Feature) + [NUL] + feature
  }

  function EpochItem(e: KeyEpochs): string {
    [NUL] + MarkerText(KeyEpoch) + [NUL] + e.keyId + [NUL] + Decimal(e.epoch)
  }

  function FeatureText(features: seq<string>): string {
    if features == [] then "" else FeatureItem(features[0]) + FeatureText(features[1..])
  }

  function EpochText(epochs: seq<KeyEpochs>): string {
    if epochs == [] then "" else EpochItem(epochs[0]) + EpochText(epochs[1..])
  }

  function Opening(b: Bound): string {
    MarkerText(Binding) + ([NUL] + b.scopeId + [NUL] + b.scope)
  }

  function MessageText(b: Bound): string {
    Opening(b) + FeatureText(b.features) + EpochText(b.epochs)
  }

  method AppendFeatures(start: string, features: seq<string>) returns (message: string)
    ensures message == start + FeatureText(features)
  {
    message := start;
    ghost var later := FeatureText(features);
    for i := 0 to |features|
      invariant later == FeatureText(features[i..]) && message + later == start + FeatureText(features)
    {
      assert features[i..][1..] == features[i + 1..];
      message, later := message + FeatureItem(features[i]), FeatureText(features[i + 1..]);
    }
  }

  method AppendEpochs(start: string, epochs: seq<KeyEpochs>) returns (message: string)
    ensures message == start + EpochText(epochs)
  {
    message := start;
    ghost var later := EpochText(epochs);
    for i := 0 to |epochs|
      invariant later == EpochText(epochs[i..]) && message + later == start + EpochText(epochs)
    {
      assert epochs[i..][1..] == epochs[i + 1..];
      message, later := message + EpochItem(epochs[i]), EpochText(epochs[i + 1..]);
    }
  }

  /** `_scope_binding_message`. */
  method ScopeBindingMessage(b: Bound) returns (message: string)
    ensures message == MessageText(b)
  {
    message := AppendFeatures(Opening(b), b.features);
    message := AppendEpochs(message, b.epochs);
  }

  // ---- the message as fields, each after a NUL ----

  function Fielded(fields: seq<string>): string {
    if fields == [] then "" else [NUL] + fields[0] + Fielded(fields[1..])
  }

  predicate NoNul(fields: seq<string>) {
    forall i :: 0 <= i < |fields| ==> NUL !in fields[i]
  }

  /** Where a field ends: at a NUL or at the end of the text. */
  predicate Ended(rest: string) {
    rest == "" || rest[0] == NUL
  }

  lemma {:induction false} FirstFieldIsDetermined(a: string, x: string, b: string, y: string)
    requires NUL !in a && NUL !in b && Ended(x) && Ended(y) && a + x == b + y
    ensures a == b && x == y
  {
    assert a == "" ==> a + x == x;
    assert b == "" ==> b + y == y;
    if a != "" && b != "" {
      assert (a + x)[0] == a[0] && (b + y)[0] == b[0];
      assert (a + x)[1..] == a[1..] + x && (b + y)[1..] == b[1..] + y;
      FirstFieldIsDetermined(a[1..], x, b[1..], y);
      assert a == [a[0]] + a[1..] && b == [b[0]] + b[1..];
    }
  }

  lemma {:induction false} FieldsAreDetermined(fs: seq<string>, gs: seq<string>)
    requires NoNul(fs) && NoNul(gs) && Fielded(fs) == Fielded(gs)
    ensures fs == gs
  {
    if fs != [] && gs != [] {
      var f, g := fs[0] + Fielded(fs[1..]), gs[0] + Fielded(gs[1..]);
      assert Fielded(fs)[1..] == f && Fielded(gs)[1..] == g;
      FirstFieldIsDetermined(fs[0], Fielded(fs[1..]), gs[0], Fielded(gs[1..]));
      FieldsAreDetermined(fs[1..], gs[1..]);
      assert fs == [fs[0]] + fs[1..] && gs == [gs[0]] + gs[1..];
    }
  }

  function FeatureFields(marker: string, features: seq<string>): seq<string> {
    if features == [] then [] else [marker, features[0]] + FeatureFields(marker, features[1..])
  }

  function EpochFields(marker: string, epochs: seq<KeyEpochs>): seq<string> {
    if epochs == [] then [] else [marker, epochs[0].keyId, Decimal(epochs[0].epoch)] + EpochFields(marker, epochs[1..])
  }

  lemma {:induction false} FieldedJoin(fs: seq<string>, gs: seq<string>)
    ensures Fielded(fs + gs) == Fielded(fs) + Fielded(gs)
  {
    if fs == [] {
      assert fs + gs == gs;
    } else {
      assert (fs + gs)[1..] == fs[1..] + gs;
      FieldedJoin(fs[1..], gs);
    }
  }

  lemma FieldedOne(a: string)
    ensures Fielded([a]) == [NUL] + a
  {
    assert Fielded([a][1..]) == "";
  }

  lemma FieldedTwo(a: string, b: string)
    ensures Fielded([a, b]) == [NUL] + a + [NUL] + b
  {
    FieldedOne(a);
    FieldedOne(b);
    FieldedJoin([a], [b]);
    assert [a] + [b] == [a, b];
  }

  lemma FieldedThree(a: string, b: string, d: string)
    ensures Fielded([a, b, d]) == [NUL] + a + [NUL] + b + [NUL] + d
  {
    FieldedTwo(a, b);
    FieldedOne(d);
    FieldedJoin([a, b], [d]);
    assert [a, b] + [d] == [a, b, d];
  }

  lemma {:induction false} FeaturesAreFields(features: seq<string>)
    ensures FeatureText(features) == Fielded(FeatureFields(MarkerText(Feature), features))
  {
    if features != [] {
      var marker := MarkerText(Feature);
      FeaturesAreFields(features[1..]);
      FieldedTwo(marker, features[0]);
      FieldedJoin([marker, features[0]], FeatureFields(marker, features[1..]));
    }
  }

  lemma {:induction false} EpochsAreFields(epochs: seq<KeyEpochs>)
    ensures EpochText(epochs) == Fielded(EpochFields(MarkerText(KeyEpoch), epochs))
  {
    if epochs != [] {
      var marker := MarkerText(KeyEpoch);
      EpochsAreFields(epochs[1..]);
      FieldedThree(marker, epochs[0].keyId, Decimal(epochs[0].epoch));
      FieldedJoin([marker, epochs[0].keyId, Decimal(epochs[0].epoch)], EpochFields(marker, epochs[1..]));
    }
  }

  function Fields(feature: string, epoch: string, b: Bound): seq<string> {
    [b.scopeId, b.scope] + (FeatureFields(feature, b.features) + EpochFields(epoch, b.epochs))
  }

  lemma MessageIsFields(b: Bound)
    ensures MessageText(b) == MarkerText(Binding) + Fielded(Fields(MarkerText(Feature), MarkerText(KeyEpoch), b))
  {
    var feature, epoch := MarkerText(Feature), MarkerText(KeyEpoch);
    FeaturesAreFields(b.features);
    EpochsAreFields(b.epochs);
    FieldedTwo(b.scopeId, b.scope);
    FieldedJoin(FeatureFields(feature, b.features), EpochFields(epoch, b.epochs));
    FieldedJoin([b.scopeId, b.scope], FeatureFields(feature, b.features) + EpochFields(epoch, b.epochs));
  }

  // ---- injectivity ----

  lemma {:induction false} FeatureFieldsHaveNoNul(marker: string, features: seq<string>)
    requires NUL !in marker && NoNul(features)
    ensures NoNul(FeatureFields(marker, features))
  {
    if features != [] {
      FeatureFieldsHaveNoNul(marker, features[1..]);
    }
  }

  lemma {:induction false} EpochFieldsHaveNoNul(marker: string, epochs: seq<KeyEpochs>)
    requires NUL !in marker && forall i :: 0 <= i < |epochs| ==> NUL !in epochs[i].keyId
    ensures NoNul(EpochFields(marker, epochs))
  {
    if epochs != [] {
      EpochFieldsHaveNoNul(marker, epochs[1..]);
      assert forall c :: c in Decimal(epochs[0].epoch) ==> c != NUL;
    }
  }

  lemma FieldsHaveNoNul(feature: string, epoch: string, b: Bound)
    requires NulFree(b) && NUL !in feature && NUL !in epoch
    ensures NoNul(Fields(feature, epoch, b))
  {
    FeatureFieldsHaveNoNul(feature, b.features);
    EpochFieldsHaveNoNul(epoch, b.epochs);
  }

  lemma SameFirstTwo<T>(a: T, b: T, s: seq<T>, x: T, y: T, t: seq<T>)
    requires [a, b] + s == [x, y] + t
    ensures a == x && b == y && s == t
  {
    var u, v := [a, b] + s, [x, y] + t;
    assert u[0] == a && v[0] == x && u[1] == b && v[1] == y;
    assert u[2..] == s && v[2..] == t;
  }

  lemma SameFirstThree<T>(a: T, b: T, d: T, s: seq<T>, x: T, y: T, z: T, t: seq<T>)
    requires [a, b, d] + s == [x, y, z] + t
    ensures a == x && b == y && d == z && s == t
  {
    var u, v := [a, b, d] + s, [x, y, z] + t;
    assert u[0] == a && v[0] == x && u[1] == b && v[1] == y && u[2] == d && v[2] == z;
    assert u[3..] == s && v[3..] == t;
  }

  lemma {:induction false} EpochsAreDetermined(marker: string, a: seq<KeyEpochs>, b: seq<KeyEpochs>)
    requires EpochFields(marker, a) == EpochFields(marker, b)
    ensures a == b
  {
    if a != [] && b != [] {
      SameFirstThree(marker, a[0].keyId, Decimal(a[0].epoch), EpochFields(marker, a[1..]),
                     marker, b[0].keyId, Decimal(b[0].epoch), EpochFields(marker, b[1..]));
      DecimalIsInjective(a[0].epoch, b[0].epoch);
      EpochsAreDetermined(marker, a[1..], b[1..]);
      assert a == [a[0]] + a[1..] && b == [b[0]] + b[1..];
    }
  }

  /** The fields of both lists, one after the other. */
  function ListFields(feature: string, epoch: string, f: seq<string>, e: seq<KeyEpochs>): seq<string> {
    if f == [] then EpochFields(epoch, e) else [feature, f[0]] + ListFields(feature, epoch, f[1..], e)
  }

  lemma {:induction false} ListFieldsAreBoth(feature: string, epoch: string, f: seq<string>, e: seq<KeyEpochs>)
    ensures ListFields(feature, epoch, f, e) == FeatureFields(feature, f) + EpochFields(epoch, e)
  {
    if f != [] {
      ListFieldsAreBoth(feature, epoch, f[1..], e);
    }
  }

  /** The two lists cannot be confused: what follows the features starts with another marker. */
  lemma {:induction false} ListsAreDetermined(feature: string, epoch: string, f: seq<string>, e: seq<KeyEpochs>, g: seq<string>, h: seq<KeyEpochs>)
    requires feature != epoch && ListFields(feature, epoch, f, e) == ListFields(feature, epoch, g, h)
    ensures f == g && e == h
  {
    var x, y := ListFields(feature, epoch, f, e), ListFields(feature, epoch, g, h);
    assert x != [] && f != [] ==> x[0] == feature;
    assert y != [] && g != [] ==> y[0] == feature;
    if f == [] && g == [] {
      EpochsAreDetermined(epoch, e, h);
    } else {
      SameFirstTwo(feature, f[0], ListFields(feature, epoch, f[1..], e), feature, g[0], ListFields(feature, epoch, g[1..], h));
      ListsAreDetermined(feature, epoch, f[1..], e, g[1..], h);
      assert f == [f[0]] + f[1..] && g == [g[0]] + g[1..];
    }
  }

  lemma BoundIsDetermined(feature: string, epoch: string, a: Bound, b: Bound)
    requires feature != epoch && Fields(feature, epoch, a) == Fields(feature, epoch, b)
    ensures a == b
  {
    ListFieldsAreBoth(feature, epoch, a.features, a.epochs);
    ListFieldsAreBoth(feature, epoch, b.features, b.epochs);
    SameFirstTwo(a.scopeId, a.scope, ListFields(feature, epoch, a.features, a.epochs),
                 b.scopeId, b.scope, ListFields(feature, epoch, b.features, b.epochs));
    ListsAreDetermined(feature, epoch, a.features, a.epochs, b.features, b.epochs);
  }

  lemma SameTail(start: string, x: string, y: string)
    requires start + x == start + y
    ensures x == y
  {
    assert (start + x)[|start|..] == x && (start + y)[|start|..] == y;
  }

  /** Bindings without NULs have one message each. */
  lemma BindingIsInjective(a: Bound, b: Bound)
    requires NulFree(a) && NulFree(b) && MessageText(a) == MessageText(b)
    ensures a == b
  {
    var feature, epoch := MarkerText(Feature), MarkerText(KeyEpoch);
    MarkersDiffer();
    MessageIsFields(a);
    MessageIsFields(b);
    SameTail(MarkerText(Binding), Fielded(Fields(feature, epoch, a)), Fielded(Fields(feature, epoch, b)));
    FieldsHaveNoNul(feature, epoch, a);
    FieldsHaveNoNul(feature, epoch, b);
    FieldsAreDetermined(Fields(feature, epoch, a), Fields(feature, epoch, b));
    BoundIsDetermined(feature, epoch, a, b);
  }

  /** The fields of a message: what stands between its NULs. */
  function SplitAtNul(field: string, s: string): seq<string>
    decreases |s|
  {
    if s == "" then [field]
    else if s[0] == NUL then [field] + SplitAtNul("", s[1..])
    else SplitAtNul(field + [s[0]], s[1..])
  }

  lemma {:induction false} SplitReadsField(read: string, field: string, rest: string)
    requires NUL !in field
    ensures SplitAtNul(read, field + rest) == SplitAtNul(read + field, rest)
    decreases |field|
  {
    if field == "" {
      assert field + rest == rest && read + field == read;
    } else {
      assert field[0] in field && (field + rest)[0] == field[0] && (field + rest)[1..] == field[1..] + rest;
      SplitReadsField(read + [field[0]], field[1..], rest);
      assert read + [field[0]] + field[1..] == read + field;
    }
  }

  lemma {:induction false} SplitReadsBack(first: string, fields: seq<string>)
    requires NUL !in first && NoNul(fields)
    ensures SplitAtNul("", first + Fielded(fields)) == [first] + fields
    decreases |fields|
  {
    SplitReadsField("", first, Fielded(fields));
    assert "" + first == first;
    if fields != [] {
      var later := fields[0] + Fielded(fields[1..]);
      assert Fielded(fields) == [NUL] + later && ([NUL] + later)[1..] == later;
      SplitReadsBack(fields[0], fields[1..]);
      assert [fields[0]] + fields[1..] == fields;
    }
  }

  lemma {:induction false} FeatureFieldAt(marker: string, features: seq<string>, i: nat)
    requires i < |features|
    ensures |FeatureFields(marker, features)| == 2 * |features|
    ensures FeatureFields(marker, features)[2 * i] == marker && FeatureFields(marker, features)[2 * i + 1] == features[i]
  {
    FeatureFieldCount(marker, features);
    if i > 0 {
      FeatureFieldAt(marker, features[1..], i - 1);
    }
  }

  lemma {:induction false} FeatureFieldCount(marker: string, features: seq<string>)
    ensures |FeatureFields(marker, features)| == 2 * |features|
  {
    if features != [] {
      FeatureFieldCount(marker, features[1..]);
    }
  }

  lemma {:induction false} EpochFieldCount(marker: string, epochs: seq<KeyEpochs>)
    ensures |EpochFields(marker, epochs)| == 3 * |epochs|
  {
    if epochs != [] {
      EpochFieldCount(marker, epochs[1..]);
    }
  }

  lemma {:induction false} EpochFieldAt(marker: string, epochs: seq<KeyEpochs>, i: nat)
    requires i < |epochs|
    ensures |EpochFields(marker, epochs)| == 3 * |epochs|
    ensures EpochFields(marker, epochs)[3 * i] == marker && EpochFields(marker, epochs)[3 * i + 1] == epochs[i].keyId
    ensures EpochFields(marker, epochs)[3 * i + 2] == Decimal(epochs[i].epoch)
  {
    EpochFieldCount(marker, epochs);
    if i > 0 {
      EpochFieldAt(marker, epochs[1..], i - 1);
    }
  }

  /** The layout of the message: the title, scope id and scope, each feature after its word, each key and epoch after theirs. */
  lemma MessageLayout(b: Bound, i: nat, j: nat)
    requires NulFree(b)
    ensures var fields := SplitAtNul("", MessageText(b));
      && |fields| == 3 + 2 * |b.features| + 3 * |b.epochs|
      && fields[0] == "echo-veil-scope-binding-v1" && fields[1] == b.scopeId && fields[2] == b.scope
      && (i < |b.features| ==> fields[3 + 2 * i] == "feature" && fields[4 + 2 * i] == b.features[i])
      && (j < |b.epochs| ==>
            var at := 3 + 2 * |b.features| + 3 * j;
            fields[at] == "key-epoch" && fields[at + 1] == b.epochs[j].keyId && fields[at + 2] == Decimal(b.epochs[j].epoch))
  {
    hide SplitAtNul, FeatureFields;
    var feature, epoch := MarkerText(Feature), MarkerText(KeyEpoch);
    MessageIsFields(b);
    FieldsHaveNoNul(feature, epoch, b);
    SplitReadsBack(MarkerText(Binding), Fields(feature, epoch, b));
    FeatureFieldCount(feature, b.features);
    EpochFieldCount(epoch, b.epochs);
    if i < |b.features| {
      FeatureFieldAt(feature, b.features, i);
    }
    if j < |b.epochs| {
      EpochFieldAt(epoch, b.epochs, j);
    }
  }

  /** A scope with NULs would share its message with a scope that has one more feature. */
  lemma NulWouldCollide(scopeId: string, scope: string, feature: string)
    ensures MessageText(Bound(scopeId, scope + FeatureItem(feature), [], []))
         == MessageText(Bound(scopeId, scope, [feature], []))
  {
    assert FeatureText([feature]) == FeatureItem(feature) + FeatureText([feature][1..]);
    assert [NUL] + scopeId + [NUL] + (scope + FeatureItem(feature)) == ([NUL] + scopeId + [NUL] + scope) + FeatureItem(feature);
  }

  // ---- the scope itself ----

  /** The words between white space; `word` is the one being read. */
  function Words(word: string, s: string): seq<string>
    decreases |s|
  {
    if s == "" then if word == "" then [] else [word]
    else if IsSpace(s[0]) then (if word == "" then [] else [word]) + Words("", s[1..])
    else Words(word + [s[0]], s[1..])
  }

  function Spaced(words: seq<string>): string {
    if words == [] then "" else if |words| == 1 then words[0] else words[0] + [' '] + Spaced(words[1..])
  }

  /** `normalize_scope`; `printable` is Python's, per character. */
  function NormalizeScope(printable: char -> bool, value: string): Option<string> {
    var normalized := Spaced(Words("", value));
    if normalized != "" && |normalized| <= MAX_SCOPE_CHARS
       && forall i :: 0 <= i < |normalized| ==> printable(normalized[i]) && normalized[i] as int >= 0x20
    then Some(normalized) else None
  }

  predicate IsWord(word: string) {
    word != "" && forall i :: 0 <= i < |word| ==> !IsSpace(word[i])
  }

  predicate AreWords(words: seq<string>) {
    forall i :: 0 <= i < |words| ==> IsWord(words[i])
  }

  lemma {:induction false} WordsAreWords(word: string, s: string)
    requires word == "" || IsWord(word)
    ensures AreWords(Words(word, s))
    decreases |s|
  {
    if s != "" {
      if IsSpace(s[0]) {
        WordsAreWords("", s[1..]);
      } else {
        WordsAreWords(word + [s[0]], s[1..]);
      }
    }
  }

  /** Reading a word up to what follows it. */
  lemma {:induction false} ReadingAWord(read: string, word: string, rest: string)
    requires forall i :: 0 <= i < |word| ==> !IsSpace(word[i])
    ensures Words(read, word + rest) == Words(read + word, rest)
    decreases |word|
  {
    if word == "" {
      assert word + rest == rest && read + word == read;
    } else {
      assert (word + rest)[0] == word[0] && (word + rest)[1..] == word[1..] + rest;
      ReadingAWord(read + [word[0]], word[1..], rest);
      assert read + [word[0]] + word[1..] == read + word;
    }
  }

  lemma {:induction false} SpacedReadsBack(words: seq<string>)
    requires AreWords(words)
    ensures Words("", Spaced(words)) == words
  {
    if |words| == 1 {
      ReadingAWord("", words[0], "");
      assert words[0] + "" == words[0] && "" + words[0] == words[0];
    } else if |words| > 1 {
      var rest := [' '] + Spaced(words[1..]);
      ReadingAWord("", words[0], rest);
      assert words[0] + [' '] + Spaced(words[1..]) == words[0] + rest && "" + words[0] == words[0];
      assert rest[1..] == Spaced(words[1..]);
      SpacedReadsBack(words[1..]);
      assert [words[0]] + words[1..] == words;
    }
  }

  /** What is read as words has no character that is not in them: the words are the text without its white space. */
  function Unspaced(s: string): string {
    if s == "" then "" else if IsSpace(s[0]) then Unspaced(s[1..]) else [s[0]] + Unspaced(s[1..])
  }

  function Joined(words: seq<string>): string {
    if words == [] then "" else words[0] + Joined(words[1..])
  }

  lemma {:induction false} WordsHaveEverything(word: string, s: string)
    ensures Joined(Words(word, s)) == word + Unspaced(s)
    decreases |s|
  {
    if s == "" {
      assert word != "" ==> [word][1..] == [] && word + "" == word;
    } else if IsSpace(s[0]) {
      WordsHaveEverything("", s[1..]);
      var later := Words("", s[1..]);
      if word == "" {
        assert [] + later == later && "" + Unspaced(s[1..]) == Unspaced(s[1..]);
      } else {
        assert ([word] + later)[1..] == later;
        assert word + ("" + Unspaced(s[1..])) == word + Unspaced(s[1..]);
      }
    } else {
      WordsHaveEverything(word + [s[0]], s[1..]);
      assert (word + [s[0]]) + Unspaced(s[1..]) == word + ([s[0]] + Unspaced(s[1..]));
    }
  }

  /**
   * A scope is accepted exactly when its words, joined by single spaces, are not empty,
   * at most 256 characters and all printable; what is accepted has the same words.
   */
  lemma NormalizesToItsWords(printable: char -> bool, value: string)
    ensures NormalizeScope(printable, value).Some? <==>
      && Words("", value) != [] && |Spaced(Words("", value))| <= 256
      && forall c :: c in Spaced(Words("", value)) ==> printable(c) && c as int >= 32
    ensures NormalizeScope(printable, value).Some? ==> Words("", NormalizeScope(printable, value).value) == Words("", value)
    ensures Joined(Words("", value)) == Unspaced(value) && AreWords(Words("", value))
  {
    var words := Words("", value);
    WordsAreWords("", value);
    SpacedReadsBack(words);
    WordsHaveEverything("", value);
    assert "" + Unspaced(value) == Unspaced(value);
    if words != [] {
      assert IsWord(words[0]);
    }
    assert forall i :: 0 <= i < |Spaced(words)| ==> Spaced(words)[i] in Spaced(words);
  }

  /** A normalised scope stays as it is, and fits in a binding. */
  lemma NormalizedScope(printable: char -> bool, value: string)
    requires NormalizeScope(printable, value).Some?
    ensures var scope := NormalizeScope(printable, value).value;
      NormalizeScope(printable, scope) == Some(scope) && NUL !in scope
  {
    WordsAreWords("", value);
    SpacedReadsBack(Words("", value));
  }
}
