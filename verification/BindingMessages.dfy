/** The binding message of a manifest as text: the two say the same. */
module BindingMessages {
  import KeyStorage
  import opened ScopeBinding

  function FeatureName(feature: KeyStorage.Feature): (name: string)
    ensures NUL !in name
  {
    match feature
    case RecordEnvelopeV3 => "record-envelope-v3"
    case RecordIntegrityHmac => "record-integrity-hmac-v1"
    case ShieldedFourLayer => "shielded-four-layer-v1"
  }

  function Listed(features: set<KeyStorage.Feature>, feature: KeyStorage.Feature): seq<string> {
    if feature in features then [FeatureName(feature)] else []
  }

  /** The features of a manifest in the order of their names. */
  function FeatureNames(features: set<KeyStorage.Feature>): seq<string> {
    Listed(features, KeyStorage.RecordEnvelopeV3)
    + Listed(features, KeyStorage.RecordIntegrityHmac)
    + Listed(features, KeyStorage.ShieldedFourLayer)
  }

  lemma NamesDiffer(a: KeyStorage.Feature, b: KeyStorage.Feature)
    requires FeatureName(a) == FeatureName(b)
    ensures a == b
  {
    assert |FeatureName(a)| == |FeatureName(b)|;
  }

  lemma NamedFeatures(features: set<KeyStorage.Feature>, feature: KeyStorage.Feature)
    ensures feature in features <==> FeatureName(feature) in FeatureNames(features)
  {
    forall other | FeatureName(other) == FeatureName(feature) ensures other == feature {
      NamesDiffer(other, feature);
    }
  }

  lemma FeaturesAreDetermined(a: set<KeyStorage.Feature>, b: set<KeyStorage.Feature>)
    requires FeatureNames(a) == FeatureNames(b)
    ensures a == b
  {
    forall feature ensures feature in a <==> feature in b {
      NamedFeatures(a, feature);
      NamedFeatures(b, feature);
    }
  }

  // ---- epochs in the order of the key ids ----

  predicate Before(a: string, b: string) {
    b != "" && (a == "" || a[0] < b[0] || (a[0] == b[0] && Before(a[1..], b[1..])))
  }

  lemma {:induction false} NotBoth(a: string, b: string)
    requires Before(a, b)
    ensures !Before(b, a)
  {
    if a != "" && a[0] == b[0] {
      NotBoth(a[1..], b[1..]);
    }
  }

  ghost predicate InOrder(listed: seq<KeyEpochs>) {
    forall i, j :: 0 <= i < j < |listed| ==> Before(listed[i].keyId, listed[j].keyId)
  }

  /** Each key id with its epoch, once and in order. */
  ghost predicate ListsEpochs(listed: seq<KeyEpochs>, epochs: map<string, int>) {
    && InOrder(listed)
    && (forall e :: e in listed ==> e.keyId in epochs && epochs[e.keyId] == e.epoch)
    && (forall id :: id in epochs ==> exists e :: e in listed && e.keyId == id)
  }

  lemma ListsTheRest(listed: seq<KeyEpochs>, epochs: map<string, int>)
    requires ListsEpochs(listed, epochs) && listed != []
    ensures ListsEpochs(listed[1..], epochs - {listed[0].keyId})
  {
    forall e | e in listed[1..] ensures e.keyId != listed[0].keyId {
      var i :| 0 <= i < |listed| - 1 && listed[1..][i] == e;
      assert Before(listed[0].keyId, listed[i + 1].keyId);
      if e.keyId == listed[0].keyId {
        NotBoth(e.keyId, e.keyId);
      }
    }
    forall id | id in epochs - {listed[0].keyId} ensures exists e :: e in listed[1..] && e.keyId == id {
      var e :| e in listed && e.keyId == id;
      assert e in listed[1..];
    }
  }

  /** Two orderly listings start with the same entry. */
  lemma SameStart(a: seq<KeyEpochs>, b: seq<KeyEpochs>, epochs: map<string, int>)
    requires ListsEpochs(a, epochs) && ListsEpochs(b, epochs) && a != []
    ensures b != [] && a[0] == b[0]
  {
    assert a[0] in a;
    var x :| x in b && x.keyId == a[0].keyId;
    assert b[0] in b;
    var y :| y in a && y.keyId == b[0].keyId;
    var i :| 0 <= i < |b| && b[i] == x;
    var j :| 0 <= j < |a| && a[j] == y;
    if i > 0 && j > 0 {
      NotBoth(a[0].keyId, b[0].keyId);
    }
  }

  lemma {:induction false} ListingIsUnique(a: seq<KeyEpochs>, b: seq<KeyEpochs>, epochs: map<string, int>)
    requires ListsEpochs(a, epochs) && ListsEpochs(b, epochs)
    ensures a == b
  {
    if a != [] {
      SameStart(a, b, epochs);
      ListsTheRest(a, epochs);
      ListsTheRest(b, epochs);
      ListingIsUnique(a[1..], b[1..], epochs - {a[0].keyId});
      assert a == [a[0]] + a[1..] && b == [b[0]] + b[1..];
    } else if b != [] {
      SameStart(b, a, epochs);
    }
  }

  lemma EpochsAreListed(listed: seq<KeyEpochs>, a: map<string, int>, b: map<string, int>)
    requires ListsEpochs(listed, a) && ListsEpochs(listed, b)
    ensures a == b
  {
    assert forall id :: id in a ==> id in b && a[id] == b[id];
    assert forall id :: id in b ==> id in a;
  }

  lemma {:induction false} DiffersAt(a: string, b: string, k: nat)
    requires k < |a| && k < |b| && a[..k] == b[..k] && a[k] < b[k]
    ensures Before(a, b)
    decreases k
  {
    if k > 0 {
      assert a[0] == a[..k][0] && b[0] == b[..k][0];
      assert a[1..][..k - 1] == a[..k][1..] && b[1..][..k - 1] == b[..k][1..];
      DiffersAt(a[1..], b[1..], k - 1);
    }
  }

  /** The features are listed in the order of their names. */
  lemma FeaturesAreInOrder(features: set<KeyStorage.Feature>, i: nat, j: nat)
    requires i < j < |FeatureNames(features)|
    ensures Before(FeatureNames(features)[i], FeatureNames(features)[j])
  {
    hide Before;
    var envelope, integrity, shielded := "record-envelope-v3", "record-integrity-hmac-v1", "shielded-four-layer-v1";
    assert |envelope| == 18 && |integrity| == 24 && |shielded| == 22;
    DiffersAt(envelope, integrity, 7);
    DiffersAt(envelope, shielded, 0);
    DiffersAt(integrity, shielded, 0);
  }

  // ---- the message ----

  /** The fields that are written for the binding message of a manifest. */
  ghost predicate Spells(b: Bound, m: KeyStorage.Message) {
    m.BindingOf? && b.scope == m.scope && b.scopeId == m.scopeId && b.features == FeatureNames(m.features) && ListsEpochs(b.epochs, m.epochs)
  }

  predicate HasNoNul(m: KeyStorage.Message) {
    m.BindingOf? && NUL !in m.scope && NUL !in m.scopeId && forall id :: id in m.epochs ==> NUL !in id
  }

  /** The only NULs in the text are then those between fields. */
  lemma SpelledWithoutNul(b: Bound, m: KeyStorage.Message)
    requires Spells(b, m) && HasNoNul(m)
    ensures NulFree(b)
  {
    forall i | 0 <= i < |b.epochs| ensures NUL !in b.epochs[i].keyId {
      assert b.epochs[i] in b.epochs;
    }
  }

  /** Two bindings have the same text exactly when scope, scope id, features and epochs are all the same. */
  lemma OneTextPerMessage(a: Bound, b: Bound, x: KeyStorage.Message, y: KeyStorage.Message)
    requires Spells(a, x) && Spells(b, y) && HasNoNul(x) && HasNoNul(y)
    ensures MessageText(a) == MessageText(b) <==> x == y
  {
    SpelledWithoutNul(a, x);
    SpelledWithoutNul(b, y);
    if x == y {
      ListingIsUnique(a.epochs, b.epochs, x.epochs);
    }
    if MessageText(a) == MessageText(b) {
      BindingIsInjective(a, b);
      FeaturesAreDetermined(x.features, y.features);
      EpochsAreListed(a.epochs, x.epochs, y.epochs);
    }
  }
}
