/** Each operation's writes, one prefix at a time. */
module KeyringSteps {
  import opened Outcomes
  import opened KeyStorage
  import opened KeyringPlans
  import opened KeyringSafety

  lemma BoundLoads(c: Crypto, scope: string, root: Root, m: Manifest)
    ensures ManifestLoads(m) ==> ManifestLoads(Bound(c, scope, root, m))
    ensures Shape(m) ==> Shape(Bound(c, scope, root, m))
    ensures Bound(c, scope, root, m).binding == BindingTag(c, scope, root, Bound(c, scope, root, m))
  {
  }

  // ---- features and verification ----

  lemma WithEpochOneLoads(m: Manifest)
    requires ManifestLoads(m) && Shape(m) && !HasV3(m) && m.rotation == None
    ensures ManifestLoads(WithEpochOne(m)) && Shape(WithEpochOne(m)) && SameRefs(m, WithEpochOne(m))
  {
    assert WithEpochOne(m).keys.Keys == m.keys.Keys == {m.activeKeyId};
  }

  lemma WithFeatureLoads(m: Manifest, feature: Feature)
    requires ManifestLoads(m) && Shape(m) && feature != RecordEnvelopeV3
    ensures ManifestLoads(m.(features := m.features + {feature})) && Shape(m.(features := m.features + {feature}))
  {
    assert HasV3(m.(features := m.features + {feature})) <==> HasV3(m);
  }

  lemma PublishBound(c: Crypto, scope: string, st: Storage, root: Root, m: Manifest)
    requires Healthy(c, scope, st) && root == Roots(c, st)[st.manifest.value.activeKeyId]
    requires ManifestLoads(m) && Shape(m) && SameRefs(st.manifest.value, m) && m.activeKeyId == st.manifest.value.activeKeyId
    ensures StaysHealthy(c, scope, st, [PutManifest(Bound(c, scope, root, m))], 1)
  {
    BoundLoads(c, scope, root, m);
    PublishOverSameRefs(c, scope, st, Bound(c, scope, root, m));
    FirstWrites(st, [PutManifest(Bound(c, scope, root, m))]);
  }

  lemma EnableIsSafe(c: Crypto, scope: string, st: Storage, root: Root, feature: Feature, n: nat)
    requires Healthy(c, scope, st) && root == Roots(c, st)[st.manifest.value.activeKeyId]
    requires n <= |EnablePlan(c, scope, st.manifest.value, root, feature)|
    ensures StaysHealthy(c, scope, st, EnablePlan(c, scope, st.manifest.value, root, feature), n)
  {
    hide Shape, BindingTag, Recovered;
    var m := st.manifest.value;
    if n == 0 {
      NothingWritten(c, scope, st, EnablePlan(c, scope, m, root, feature));
    } else if feature == RecordEnvelopeV3 {
      EnableV3IsSafe(c, scope, st, root);
    } else {
      EnableOtherIsSafe(c, scope, st, root, feature);
    }
  }

  lemma EnableV3IsSafe(c: Crypto, scope: string, st: Storage, root: Root)
    requires Healthy(c, scope, st) && root == Roots(c, st)[st.manifest.value.activeKeyId]
    requires !HasV3(st.manifest.value) && st.manifest.value.rotation == None
    ensures StaysHealthy(c, scope, st, [PutManifest(Bound(c, scope, root, WithEpochOne(st.manifest.value)))], 1)
  {
    WithEpochOneLoads(st.manifest.value);
    PublishBound(c, scope, st, root, WithEpochOne(st.manifest.value));
  }

  lemma EnableOtherIsSafe(c: Crypto, scope: string, st: Storage, root: Root, feature: Feature)
    requires Healthy(c, scope, st) && root == Roots(c, st)[st.manifest.value.activeKeyId] && feature != RecordEnvelopeV3
    ensures var m := st.manifest.value;
      StaysHealthy(c, scope, st, [PutManifest(Bound(c, scope, root, m.(features := m.features + {feature})))], 1)
  {
    var m := st.manifest.value;
    WithFeatureLoads(m, feature);
    PublishBound(c, scope, st, root, m.(features := m.features + {feature}));
  }

  lemma MarkedLoads(c: Crypto, scope: string, lookup: Lookup, m: Manifest)
    requires OpensWith(c, scope, lookup, m) && Shape(m) && MarkPlan(m) != []
    ensures var next := MarkPlan(m)[0].manifest;
      && ManifestLoads(next) && Shape(next) && SameRefs(m, next)
      && next.binding == BindingTag(c, scope, Recovered(lookup, m)[next.activeKeyId], next)
  {
  }

  lemma MarkIsSafe(c: Crypto, scope: string, st: Storage, n: nat)
    requires Healthy(c, scope, st) && n <= |MarkPlan(st.manifest.value)|
    ensures StaysHealthy(c, scope, st, MarkPlan(st.manifest.value), n)
  {
    hide Shape, CustodyAgrees, OpensWith;
    var m := st.manifest.value;
    if n == 0 {
      NothingWritten(c, scope, st, MarkPlan(m));
    } else {
      FirstWrites(st, MarkPlan(m));
      MarkedLoads(c, scope, LookupIn(c, st), m);
      PublishOverSameRefs(c, scope, st, MarkPlan(m)[0].manifest);
    }
  }

  // ---- retirement of the previous key ----

  lemma DropUsesOnly(ref: Ref, w: Write, m: Manifest)
    requires w in DropRoot(ref) && forall id :: id in m.keys ==> !Clash(m.keys[id].ref, ref)
    ensures !w.PutManifest? && !w.PutDescriptor? && !w.ImportNative?
    ensures forall id :: id in m.keys ==> !Uses(m.keys[id].ref, w)
  {
  }

  /** Removing a root that no listed key uses. */
  lemma {:induction false} DropIsHarmless(c: Crypto, scope: string, st: Storage, ref: Ref, n: nat)
    requires Healthy(c, scope, st) && n <= |DropRoot(ref)|
    requires forall id :: id in st.manifest.value.keys ==> !Clash(st.manifest.value.keys[id].ref, ref)
    ensures Healthy(c, scope, After(st, DropRoot(ref), n)) && Roots(c, After(st, DropRoot(ref), n)) == Roots(c, st)
    ensures After(st, DropRoot(ref), n).manifest == st.manifest
  {
    hide OpensWith;
    if n > 0 {
      var before, w := After(st, DropRoot(ref), n - 1), DropRoot(ref)[n - 1];
      DropIsHarmless(c, scope, st, ref, n - 1);
      DropUsesOnly(ref, w, st.manifest.value);
      HarmlessWrite(c, scope, before, w);
    }
  }

  lemma WithoutPreviousLoads(m: Manifest, from: KeyId)
    requires ManifestLoads(m) && Shape(m) && m.rotation.Some? && m.rotation.value.from == from
    ensures var next := m.(keys := m.keys - {from}, rotation := None); ManifestLoads(next) && Shape(next) && SameRefs(m, next)
    ensures forall id :: id in m.keys - {from} ==> !Clash(m.keys[id].ref, m.keys[from].ref)
  {
    assert (m.keys - {from}).Keys == {m.activeKeyId};
    assert |(m.keys - {from}).Keys| == 1;
  }

  lemma RetirePublishes(c: Crypto, scope: string, st: Storage, root: Root, from: KeyId)
    requires Healthy(c, scope, st) && root == Roots(c, st)[st.manifest.value.activeKeyId]
    requires st.manifest.value.rotation.Some? && st.manifest.value.rotation.value.from == from
    ensures StaysHealthy(c, scope, st, [PutManifest(RetiredManifest(c, scope, st.manifest.value, root, from))], 1)
    ensures forall id :: id in st.manifest.value.keys - {from} ==> !Clash(st.manifest.value.keys[id].ref, st.manifest.value.keys[from].ref)
  {
    var m := st.manifest.value;
    WithoutPreviousLoads(m, from);
    PublishBound(c, scope, st, root, m.(keys := m.keys - {from}, rotation := None));
  }

  /** Publishing a manifest first and cleaning up what it does not refer to later. */
  lemma PublishThenDrop(c: Crypto, scope: string, st: Storage, m: Manifest, ref: Ref, n: nat)
    requires StaysHealthy(c, scope, st, [PutManifest(m)], 1)
    requires forall id :: id in m.keys ==> !Clash(m.keys[id].ref, ref)
    requires 0 < n <= 1 + |DropRoot(ref)|
    ensures StaysHealthy(c, scope, st, [PutManifest(m)] + DropRoot(ref), n)
  {
    hide Shape;
    FirstWrites(st, [PutManifest(m)]);
    AfterJoin(st, [PutManifest(m)], DropRoot(ref), n);
    DropIsHarmless(c, scope, Perform(st, PutManifest(m)), ref, n - 1);
  }

  /** The manifest goes first, then what it no longer refers to. */
  lemma RetireIsSafe(c: Crypto, scope: string, st: Storage, root: Root, n: nat)
    requires Healthy(c, scope, st) && root == Roots(c, st)[st.manifest.value.activeKeyId]
    requires n <= |RetirePlan(c, scope, st.manifest.value, root)|
    ensures StaysHealthy(c, scope, st, RetirePlan(c, scope, st.manifest.value, root), n)
  {
    var m := st.manifest.value;
    if n == 0 {
      NothingWritten(c, scope, st, RetirePlan(c, scope, m, root));
    } else {
      var from := m.rotation.value.from;
      RetirePublishes(c, scope, st, root, from);
      PublishThenDrop(c, scope, st, RetiredManifest(c, scope, m, root, from), m.keys[from].ref, n);
    }
  }

  // ---- storing a root ----

  lemma NewKeyFile(c: Crypto, scope: string, st: Storage, root: Root)
    requires Healthy(c, scope, st) && Named(c.keyId(root)) !in st.files
    ensures var after := Perform(st, CreateKeyFile(Named(c.keyId(root)), root));
      Healthy(c, scope, after) && Roots(c, after) == Roots(c, st) && after.manifest == st.manifest
  {
    var m := st.manifest.value;
    forall id | id in m.keys ensures m.keys[id].ref != KeyFile(Named(c.keyId(root))) {
      assert LookupIn(c, st)(id, m.keys[id].ref).Some?;
    }
    HarmlessWrite(c, scope, st, CreateKeyFile(Named(c.keyId(root)), root));
  }

  lemma UnusedReference(c: Crypto, scope: string, st: Storage, reference: Reference, id: KeyId)
    requires Opens(c, scope, st) && reference !in st.descriptors && id in st.manifest.value.keys
    ensures var ref := st.manifest.value.keys[id].ref; ref.Custody? ==> ref.reference != reference
  {
    assert LookupIn(c, st)(id, st.manifest.value.keys[id].ref).Some?;
  }

  /** A native item is unused until a descriptor names it. */
  lemma NewNativeRoot(c: Crypto, scope: string, st: Storage, reference: Reference, root: Root)
    requires Healthy(c, scope, st) && reference !in st.descriptors
    ensures var after := Perform(st, ImportNative(reference, root));
      Healthy(c, scope, after) && Roots(c, after) == Roots(c, st) && after.manifest == st.manifest
  {
    forall id | id in st.manifest.value.keys ensures !Uses(st.manifest.value.keys[id].ref, ImportNative(reference, root)) {
      UnusedReference(c, scope, st, reference, id);
    }
    HarmlessWrite(c, scope, st, ImportNative(reference, root));
  }

  lemma NewDescriptor(c: Crypto, scope: string, st: Storage, d: Descriptor, root: Root)
    requires Healthy(c, scope, st) && d.reference !in st.descriptors
    requires d.reference in st.native && st.native[d.reference] == root
    requires d.keyId in Roots(c, st) ==> Roots(c, st)[d.keyId] == root
    ensures var after := Perform(st, PutDescriptor(d.reference, Stored(d, DescriptorTag(c, root, d))));
      Healthy(c, scope, after) && Roots(c, after) == Roots(c, st) && after.manifest == st.manifest
  {
    var w := PutDescriptor(d.reference, Stored(d, DescriptorTag(c, root, d)));
    forall id | id in st.manifest.value.keys ensures !Uses(st.manifest.value.keys[id].ref, w) {
      UnusedReference(c, scope, st, d.reference, id);
    }
    HarmlessWrite(c, scope, st, w);
  }

  function CustodyWrites(c: Crypto, d: Descriptor, root: Root): seq<Write> {
    [ImportNative(d.reference, root), PutDescriptor(d.reference, Stored(d, DescriptorTag(c, root, d)))]
  }

  /** A new native item with its descriptor disturbs nothing, at any of its points. */
  lemma NewCustody(c: Crypto, scope: string, st: Storage, d: Descriptor, root: Root, n: nat)
    requires Healthy(c, scope, st) && d.reference !in st.descriptors && n <= 2
    requires d.keyId in Roots(c, st) ==> Roots(c, st)[d.keyId] == root
    ensures var after := After(st, CustodyWrites(c, d, root), n);
      Healthy(c, scope, after) && Roots(c, after) == Roots(c, st) && after.manifest == st.manifest
  {
    hide Shape, CustodyAgrees;
    FirstWrites(st, CustodyWrites(c, d, root));
    if n > 0 {
      NewNativeRoot(c, scope, st, d.reference, root);
    }
    if n > 1 {
      NewDescriptor(c, scope, Perform(st, ImportNative(d.reference, root)), d, root);
    }
  }

  lemma PrepareIsSafe(c: Crypto, scope: string, st: Storage, root: Root, provider: Provider, reference: Reference, helper: string, n: nat)
    requires Healthy(c, scope, st) && root == Roots(c, st)[st.manifest.value.activeKeyId]
    requires Fresh(c, st, PrepareCustody(provider, reference, helper))
    requires n <= |PreparePlan(c, st.manifest.value, root, provider, reference, helper)|
    ensures StaysHealthy(c, scope, st, PreparePlan(c, st.manifest.value, root, provider, reference, helper), n)
  {
    var m := st.manifest.value;
    if n == 0 {
      NothingWritten(c, scope, st, PreparePlan(c, m, root, provider, reference, helper));
    } else {
      NewCustody(c, scope, st, Descriptor(provider, reference, m.activeKeyId, helper, Prepared), root, n);
    }
  }

  // ---- beginning a rotation ----

  /** The new root is in place under `ref`, and no other root is stored for its key. */
  ghost predicate RootStored(c: Crypto, st: Storage, ref: Ref, root: Root) {
    && LookupIn(c, st)(c.keyId(root), ref) == Some(root)
    && forall r :: r in st.descriptors && st.descriptors[r].descriptor.keyId == c.keyId(root) && r in st.native ==> st.native[r] == root
  }

  ghost predicate CanStore(c: Crypto, st: Storage, source: Ref, root: Root, reference: Reference) {
    && (source.Custody? ==> source.reference in st.descriptors)
    && (source.KeyFile? ==> Named(c.keyId(root)) !in st.files)
    && Fresh(c, st, BeginRotation(root, reference))
  }

  function NewDescriptorFor(c: Crypto, st: Storage, source: Ref, root: Root, reference: Reference): Descriptor
    requires source.Custody? && source.reference in st.descriptors
  {
    Descriptor(source.provider, reference, c.keyId(root), st.descriptors[source.reference].descriptor.helper, ActiveCustody)
  }

  /** Storing the new root disturbs nothing at any point. */
  lemma StoreRootIsHarmless(c: Crypto, scope: string, st: Storage, source: Ref, root: Root, reference: Reference, n: nat)
    requires Healthy(c, scope, st) && CanStore(c, st, source, root, reference) && c.keyId(root) !in st.manifest.value.keys
    requires n <= |StoreRoot(c, st, source, root, reference)|
    ensures var after := After(st, StoreRoot(c, st, source, root, reference), n);
      Healthy(c, scope, after) && Roots(c, after) == Roots(c, st) && after.manifest == st.manifest
  {
    if source.KeyFile? {
      FirstWrites(st, StoreRoot(c, st, source, root, reference));
      if n == 1 {
        NewKeyFile(c, scope, st, root);
      }
    } else {
      var d := NewDescriptorFor(c, st, source, root, reference);
      assert StoreRoot(c, st, source, root, reference) == CustodyWrites(c, d, root);
      NewCustody(c, scope, st, d, root, n);
    }
  }

  /** And it ends with the root in place. */
  lemma StoreRootStores(c: Crypto, st: Storage, source: Ref, root: Root, reference: Reference)
    requires CanStore(c, st, source, root, reference)
    ensures var ws := StoreRoot(c, st, source, root, reference);
      RootStored(c, After(st, ws, |ws|), TargetRef(source, c.keyId(root), reference), root)
  {
    FirstWrites(st, StoreRoot(c, st, source, root, reference));
  }

  ghost predicate NextEpoch(m: Manifest, epoch: Option<int>) {
    && m.activeKeyId in m.keys
    && (epoch.Some? <==> HasV3(m))
    && (epoch.Some? ==> ActiveEntry(m).epoch.Some? && epoch.value == ActiveEntry(m).epoch.value + 1 && epoch.value <= LAST_EPOCH)
  }

  lemma LargestIsNext(m: Manifest, largest: int)
    requires ManifestLoads(m) && Shape(m) && (HasV3(m) ==> IsLargestEpoch(m, largest) && largest < LAST_EPOCH)
    ensures NextEpoch(m, if HasV3(m) then Some(largest + 1) else None)
  {
  }

  lemma SomeEpochIsLargest(m: Manifest)
    requires ManifestLoads(m) && Shape(m) && HasV3(m)
    ensures IsLargestEpoch(m, LargestEpoch(m))
  {
    assert IsLargestEpoch(m, ActiveEntry(m).epoch.value);
  }

  lemma RotatedLoads(c: Crypto, scope: string, m: Manifest, root: Root, ref: Ref, epoch: Option<int>)
    requires ManifestLoads(m) && Shape(m) && m.rotation == None && c.keyId(root) !in m.keys
    requires (ref.Custody? ==> HasV3(m)) && NextEpoch(m, epoch)
    ensures ManifestLoads(RotatedManifest(c, scope, m, root, ref, epoch))
  {
    var next := RotatedManifest(c, scope, m, root, ref, epoch);
    assert next.keys.Keys == {m.activeKeyId, c.keyId(root)};
    assert |next.keys.Keys| == 2;
  }

  lemma RotatedShape(c: Crypto, scope: string, m: Manifest, root: Root, ref: Ref, epoch: Option<int>)
    requires ManifestLoads(m) && Shape(m) && m.rotation == None && c.keyId(root) !in m.keys
    requires RefIsOwn(c.keyId(root), ref) && !Clash(ActiveEntry(m).ref, ref) && NextEpoch(m, epoch)
    ensures Shape(RotatedManifest(c, scope, m, root, ref, epoch))
  {
    var next := RotatedManifest(c, scope, m, root, ref, epoch);
    assert next.keys.Keys == {m.activeKeyId, c.keyId(root)};
  }

  lemma RotatedRecovers(c: Crypto, scope: string, lookup: Lookup, m: Manifest, root: Root, ref: Ref, epoch: Option<int>)
    requires OpensWith(c, scope, lookup, m) && c.keyId(root) !in m.keys && lookup(c.keyId(root), ref) == Some(root)
    ensures Recovered(lookup, RotatedManifest(c, scope, m, root, ref, epoch)) == Recovered(lookup, m)[c.keyId(root) := root]
  {
  }

  lemma RotatedOpens(c: Crypto, scope: string, lookup: Lookup, m: Manifest, root: Root, ref: Ref, epoch: Option<int>)
    requires OpensWith(c, scope, lookup, m) && c.keyId(root) !in m.keys && lookup(c.keyId(root), ref) == Some(root)
    requires ManifestLoads(RotatedManifest(c, scope, m, root, ref, epoch))
    ensures OpensWith(c, scope, lookup, RotatedManifest(c, scope, m, root, ref, epoch))
  {
  }

  lemma RotatedAgrees(c: Crypto, scope: string, st: Storage, m: Manifest, root: Root, ref: Ref, epoch: Option<int>)
    requires m.activeKeyId in m.keys && c.keyId(root) !in m.keys
    requires CustodyAgrees(LookupIn(c, st), st, m) && RootStored(c, st, ref, root)
    ensures CustodyAgrees(LookupIn(c, st), st, RotatedManifest(c, scope, m, root, ref, epoch))
  {
  }

  /** Publishing the rotation once the new root is in place. */
  lemma RotationPublishes(c: Crypto, scope: string, st: Storage, root: Root, ref: Ref, epoch: Option<int>)
    requires Healthy(c, scope, st) && RootStored(c, st, ref, root) && c.keyId(root) !in st.manifest.value.keys
    requires ManifestLoads(RotatedManifest(c, scope, st.manifest.value, root, ref, epoch))
    requires Shape(RotatedManifest(c, scope, st.manifest.value, root, ref, epoch))
    ensures var after := Perform(st, PutManifest(RotatedManifest(c, scope, st.manifest.value, root, ref, epoch)));
      Healthy(c, scope, after) && Roots(c, after) == Roots(c, st)[c.keyId(root) := root]
  {
    var m := st.manifest.value;
    RotatedRecovers(c, scope, LookupIn(c, st), m, root, ref, epoch);
    RotatedOpens(c, scope, LookupIn(c, st), m, root, ref, epoch);
    RotatedAgrees(c, scope, st, m, root, ref, epoch);
    PublishManifest(c, scope, st, RotatedManifest(c, scope, m, root, ref, epoch));
  }

  /** What holds of the new root's reference while it is not in the manifest. */
  lemma TargetIsOwn(c: Crypto, scope: string, st: Storage, m: Manifest, root: Root, reference: Reference)
    requires OpensWith(c, scope, LookupIn(c, st), m) && Shape(m)
    requires CanStore(c, st, ActiveEntry(m).ref, root, reference)
    ensures var ref := TargetRef(ActiveEntry(m).ref, c.keyId(root), reference);
      RefIsOwn(c.keyId(root), ref) && !Clash(ActiveEntry(m).ref, ref) && (ref.Custody? ==> HasV3(m))
  {
    assert LookupIn(c, st)(m.activeKeyId, ActiveEntry(m).ref).Some?;
  }

  /** The rotation is complete with its last write. */
  lemma BeginPublishes(c: Crypto, scope: string, st: Storage, root: Root, reference: Reference, epoch: Option<int>)
    requires Healthy(c, scope, st) && st.manifest.value.rotation == None && c.keyId(root) !in st.manifest.value.keys
    requires CanStore(c, st, ActiveEntry(st.manifest.value).ref, root, reference) && NextEpoch(st.manifest.value, epoch)
    ensures var m := st.manifest.value;
      var stored := StoreRoot(c, st, ActiveEntry(m).ref, root, reference);
      var next := RotatedManifest(c, scope, m, root, TargetRef(ActiveEntry(m).ref, c.keyId(root), reference), epoch);
      var after := Perform(After(st, stored, |stored|), PutManifest(next));
      Healthy(c, scope, after) && Roots(c, after) == Roots(c, st)[c.keyId(root) := root]
  {
    var m := st.manifest.value;
    var source, ref := ActiveEntry(m).ref, TargetRef(ActiveEntry(m).ref, c.keyId(root), reference);
    var stored := StoreRoot(c, st, source, root, reference);
    StoreRootIsHarmless(c, scope, st, source, root, reference, |stored|);
    StoreRootStores(c, st, source, root, reference);
    TargetIsOwn(c, scope, st, m, root, reference);
    RotatedLoads(c, scope, m, root, ref, epoch);
    RotatedShape(c, scope, m, root, ref, epoch);
    RotationPublishes(c, scope, After(st, stored, |stored|), root, ref, epoch);
  }

  /** Any prefix of the stored part alone. */
  lemma StoredPartIsSafe(c: Crypto, scope: string, st: Storage, source: Ref, root: Root, reference: Reference, later: seq<Write>, n: nat)
    requires Healthy(c, scope, st) && CanStore(c, st, source, root, reference) && c.keyId(root) !in st.manifest.value.keys
    requires n <= |StoreRoot(c, st, source, root, reference)|
    ensures StaysHealthy(c, scope, st, StoreRoot(c, st, source, root, reference) + later, n)
  {
    StoreRootIsHarmless(c, scope, st, source, root, reference, n);
    AsItWasPrefix(c, scope, st, StoreRoot(c, st, source, root, reference), later, n);
  }

  lemma CompleteBeginIsSafe(c: Crypto, scope: string, st: Storage, root: Root, reference: Reference, largest: int)
    requires Healthy(c, scope, st) && st.manifest.value.rotation == None && c.keyId(root) !in st.manifest.value.keys
    requires CanStore(c, st, ActiveEntry(st.manifest.value).ref, root, reference) && NextEpoch(st.manifest.value, EpochAfter(st.manifest.value, largest))
    ensures var m := st.manifest.value;
      var stored := StoreRoot(c, st, ActiveEntry(m).ref, root, reference);
      var next := RotatedManifest(c, scope, m, root, TargetRef(ActiveEntry(m).ref, c.keyId(root), reference), EpochAfter(m, largest));
      StaysHealthy(c, scope, st, stored + [PutManifest(next)], |stored| + 1)
  {
    hide Shape, OpensWith;
    var m := st.manifest.value;
    var stored := StoreRoot(c, st, ActiveEntry(m).ref, root, reference);
    var next := RotatedManifest(c, scope, m, root, TargetRef(ActiveEntry(m).ref, c.keyId(root), reference), EpochAfter(m, largest));
    BeginPublishes(c, scope, st, root, reference, EpochAfter(m, largest));
    AfterPrefix(st, stored, [PutManifest(next)], |stored|);
  }

  lemma BeginCanStore(c: Crypto, scope: string, st: Storage, m: Manifest, root: Root, reference: Reference, largest: int)
    requires m.activeKeyId in m.keys && Fresh(c, st, BeginRotation(root, reference))
    requires ActiveEntry(m).ref.Custody? ==> ActiveEntry(m).ref.reference in st.descriptors
    requires BeginPlan(c, scope, st, m, root, reference, largest) != []
    ensures CanStore(c, st, ActiveEntry(m).ref, root, reference) && m.rotation == None && c.keyId(root) !in m.keys
    ensures var ref := TargetRef(ActiveEntry(m).ref, c.keyId(root), reference);
      BeginPlan(c, scope, st, m, root, reference, largest)
      == StoreRoot(c, st, ActiveEntry(m).ref, root, reference) + BeginTail(c, scope, m, root, ref, largest)
  {
  }

  /** The new root is stored before the manifest makes it the active one. */
  lemma BeginIsSafe(c: Crypto, scope: string, st: Storage, root: Root, reference: Reference, largest: int, n: nat)
    requires Healthy(c, scope, st) && Fresh(c, st, BeginRotation(root, reference))
    requires ActiveEntry(st.manifest.value).ref.Custody? ==> ActiveEntry(st.manifest.value).ref.reference in st.descriptors
    requires HasV3(st.manifest.value) ==> IsLargestEpoch(st.manifest.value, largest)
    requires n <= |BeginPlan(c, scope, st, st.manifest.value, root, reference, largest)|
    ensures StaysHealthy(c, scope, st, BeginPlan(c, scope, st, st.manifest.value, root, reference, largest), n)
  {
    hide BindingTag, Recovered, Perform, ManifestLoads;
    var m := st.manifest.value;
    if n == 0 {
      NothingWritten(c, scope, st, BeginPlan(c, scope, st, m, root, reference, largest));
    } else {
      BeginCanStore(c, scope, st, m, root, reference, largest);
      var source := ActiveEntry(m).ref;
      if n <= |StoreRoot(c, st, source, root, reference)| {
        StoredPartIsSafe(c, scope, st, source, root, reference, BeginTail(c, scope, m, root, TargetRef(source, c.keyId(root), reference), largest), n);
      } else {
        LargestIsNext(m, largest);
        CompleteBeginIsSafe(c, scope, st, root, reference, largest);
      }
    }
  }

  // ---- custody ----

  /** Preparing and activating copy the descriptor to the state before the switch. */
  lemma VerifiedCopyIsHarmless(c: Crypto, scope: string, st: Storage, r: Reference, stored: Stored)
    requires Healthy(c, scope, st) && IsPrepared(st, st.manifest.value.activeKeyId, r)
    requires ActiveEntry(st.manifest.value).ref.KeyFile?
    requires stored.descriptor == st.descriptors[r].descriptor.(state := VerifiedCustody)
    ensures var after := Perform(st, PutDescriptor(r, stored));
      Healthy(c, scope, after) && Roots(c, after) == Roots(c, st) && after.manifest == st.manifest
  {
    var m := st.manifest.value;
    forall id | id in m.keys ensures !Uses(m.keys[id].ref, PutDescriptor(r, stored)) {
      assert LookupIn(c, st)(id, m.keys[id].ref).Some?;
    }
    HarmlessWrite(c, scope, st, PutDescriptor(r, stored));
  }

  /** The opaque reference leads to the same root. */
  lemma OpaqueOpens(c: Crypto, scope: string, lookup: Lookup, m: Manifest, root: Root, d: Descriptor)
    requires OpensWith(c, scope, lookup, m) && HasV3(m) && root == Recovered(lookup, m)[m.activeKeyId]
    requires lookup(m.activeKeyId, Custody(d.provider, d.reference)) == Some(root)
    ensures OpensWith(c, scope, lookup, OpaqueManifest(m, d))
    ensures Recovered(lookup, OpaqueManifest(m, d)) == Recovered(lookup, m)
  {
    hide Shape;
    assert OpaqueManifest(m, d).keys.Keys == m.keys.Keys;
    assert Epochs(OpaqueManifest(m, d)) == Epochs(m);
  }

  lemma OpaqueShape(m: Manifest, d: Descriptor)
    requires Shape(m)
    requires forall id :: id in m.keys && id != m.activeKeyId && m.keys[id].ref.Custody? ==> m.keys[id].ref.reference != d.reference
    ensures Shape(OpaqueManifest(m, d))
  {
    assert OpaqueManifest(m, d).keys.Keys == m.keys.Keys;
  }

  lemma OpaqueAgrees(c: Crypto, st: Storage, m: Manifest, root: Root, d: Descriptor)
    requires m.activeKeyId in m.keys && CustodyAgrees(LookupIn(c, st), st, m)
    requires LookupIn(c, st)(m.activeKeyId, ActiveEntry(m).ref) == Some(root)
    requires LookupIn(c, st)(m.activeKeyId, Custody(d.provider, d.reference)) == Some(root)
    ensures CustodyAgrees(LookupIn(c, st), st, OpaqueManifest(m, d))
  {
  }

  /** No other key uses the native item of the active key. */
  lemma OthersUseOtherItems(c: Crypto, scope: string, st: Storage, m: Manifest, d: Descriptor)
    requires OpensWith(c, scope, LookupIn(c, st), m) && LookupIn(c, st)(m.activeKeyId, Custody(d.provider, d.reference)).Some?
    ensures forall id :: id in m.keys && id != m.activeKeyId && m.keys[id].ref.Custody? ==> m.keys[id].ref.reference != d.reference
  {
    forall id | id in m.keys && id != m.activeKeyId && m.keys[id].ref.Custody? ensures m.keys[id].ref.reference != d.reference {
      assert LookupIn(c, st)(id, m.keys[id].ref).Some?;
    }
  }

  /** Switching the manifest to the verified native item. */
  lemma ActivationPublishes(c: Crypto, scope: string, st: Storage, root: Root, d: Descriptor)
    requires Healthy(c, scope, st) && HasV3(st.manifest.value) && root == Roots(c, st)[st.manifest.value.activeKeyId]
    requires LookupIn(c, st)(st.manifest.value.activeKeyId, Custody(d.provider, d.reference)) == Some(root)
    ensures var after := Perform(st, PutManifest(OpaqueManifest(st.manifest.value, d)));
      Healthy(c, scope, after) && Roots(c, after) == Roots(c, st)
  {
    var m := st.manifest.value;
    OpaqueOpens(c, scope, LookupIn(c, st), m, root, d);
    OthersUseOtherItems(c, scope, st, m, d);
    OpaqueShape(m, d);
    OpaqueAgrees(c, st, m, root, d);
    PublishManifest(c, scope, st, OpaqueManifest(m, d));
  }

  /** What the checks of the activation establish about the prepared item. */
  lemma PreparedHoldsTheRoot(c: Crypto, scope: string, st: Storage, root: Root, r: Reference)
    requires Healthy(c, scope, st) && root == Roots(c, st)[st.manifest.value.activeKeyId]
    requires CanActivate(c, scope, st, st.manifest.value, root, r)
    ensures st.descriptors[r].descriptor.reference == r && ReadyToActivate(c, st, root, st.descriptors[r].descriptor)
  {
    assert IsPrepared(st, st.manifest.value.activeKeyId, r);
  }

  lemma ReceiptIsHarmless(c: Crypto, scope: string, st: Storage, w: Write)
    requires Healthy(c, scope, st) && (w.PutReceipt? || w.UnlinkReceipt?)
    ensures Healthy(c, scope, Perform(st, w)) && Roots(c, Perform(st, w)) == Roots(c, st) && Perform(st, w).manifest == st.manifest
  {
    HarmlessWrite(c, scope, st, w);
  }

  function CheckWrites(c: Crypto, root: Root, d: Descriptor, process: Process): seq<Write> {
    [PutDescriptor(d.reference, VerifiedCopy(c, root, d)),
     PutReceipt(Receipt(d.reference, process, c.mac(root, ActivationOf(d.reference, process))))]
  }

  lemma VerifiedItemLeads(c: Crypto, st: Storage, root: Root, d: Descriptor, process: Process)
    requires d.reference in st.native && st.native[d.reference] == root && c.keyId(root) == d.keyId
    ensures LookupIn(c, After(st, CheckWrites(c, root, d, process), 2))(d.keyId, Custody(d.provider, d.reference)) == Some(root)
  {
    FirstWrites(st, CheckWrites(c, root, d, process));
  }

  /** Until the switch the active key keeps its file. */
  lemma CheckWritesAreSafe(c: Crypto, scope: string, st: Storage, root: Root, d: Descriptor, process: Process, n: nat)
    requires Healthy(c, scope, st) && IsPrepared(st, st.manifest.value.activeKeyId, d.reference) && n <= 2
    requires ActiveEntry(st.manifest.value).ref.KeyFile? && d == st.descriptors[d.reference].descriptor
    ensures AsItWas(c, scope, st, CheckWrites(c, root, d, process), n)
  {
    hide Shape, CustodyAgrees, BindingTag;
    var ws := CheckWrites(c, root, d, process);
    FirstWrites(st, ws);
    VerifiedCopyIsHarmless(c, scope, st, d.reference, VerifiedCopy(c, root, d));
    if n == 2 {
      ReceiptIsHarmless(c, scope, Perform(st, ws[0]), ws[1]);
    }
  }

  /** Then the manifest switches to the native item, which is verified. */
  lemma CompleteActivationIsSafe(c: Crypto, scope: string, st: Storage, root: Root, d: Descriptor, process: Process)
    requires Healthy(c, scope, st) && HasV3(st.manifest.value) && root == Roots(c, st)[st.manifest.value.activeKeyId]
    requires AsItWas(c, scope, st, CheckWrites(c, root, d, process), 2)
    requires LookupIn(c, After(st, CheckWrites(c, root, d, process), 2))(st.manifest.value.activeKeyId, Custody(d.provider, d.reference)) == Some(root)
    ensures StaysHealthy(c, scope, st, CheckWrites(c, root, d, process) + [PutManifest(OpaqueManifest(st.manifest.value, d))], 3)
  {
    hide Shape;
    var m, ws := st.manifest.value, CheckWrites(c, root, d, process);
    AfterPrefix(st, ws, [PutManifest(OpaqueManifest(m, d))], 2);
    ActivationPublishes(c, scope, After(st, ws, 2), root, d);
  }

  /** The prepared item is a native copy of the active key's file root. */
  ghost predicate ReadyToActivate(c: Crypto, st: Storage, root: Root, d: Descriptor) {
    && st.manifest.Some? && HasV3(st.manifest.value) && st.manifest.value.activeKeyId in st.manifest.value.keys
    && IsPrepared(st, st.manifest.value.activeKeyId, d.reference) && d == st.descriptors[d.reference].descriptor
    && ActiveEntry(st.manifest.value).ref.KeyFile?
    && d.reference in st.native && st.native[d.reference] == root && c.keyId(root) == d.keyId
  }

  lemma PartialActivationIsSafe(c: Crypto, scope: string, st: Storage, root: Root, d: Descriptor, process: Process, n: nat)
    requires Healthy(c, scope, st) && ReadyToActivate(c, st, root, d) && n <= 2
    ensures StaysHealthy(c, scope, st, CheckWrites(c, root, d, process) + [PutManifest(OpaqueManifest(st.manifest.value, d))], n)
  {
    CheckWritesAreSafe(c, scope, st, root, d, process, n);
    AsItWasPrefix(c, scope, st, CheckWrites(c, root, d, process), [PutManifest(OpaqueManifest(st.manifest.value, d))], n);
  }

  lemma WholeActivationIsSafe(c: Crypto, scope: string, st: Storage, root: Root, d: Descriptor, process: Process)
    requires Healthy(c, scope, st) && ReadyToActivate(c, st, root, d) && root == Roots(c, st)[st.manifest.value.activeKeyId]
    ensures StaysHealthy(c, scope, st, CheckWrites(c, root, d, process) + [PutManifest(OpaqueManifest(st.manifest.value, d))], 3)
  {
    CheckWritesAreSafe(c, scope, st, root, d, process, 2);
    VerifiedItemLeads(c, st, root, d, process);
    CompleteActivationIsSafe(c, scope, st, root, d, process);
  }

  lemma OneIsPrepared(st: Storage, id: KeyId, a: Reference, b: Reference)
    requires OnlyPrepared(st, id, a) && OnlyPrepared(st, id, b)
    ensures a == b
  {
    assert IsPrepared(st, id, a) <==> a == a;
  }

  lemma ActivatePlanWrites(c: Crypto, scope: string, st: Storage, m: Manifest, root: Root, process: Process) returns (r: Reference)
    requires m.activeKeyId in m.keys && ActivatePlan(c, scope, st, m, root, process) != []
    requires forall r :: r in st.descriptors ==> st.descriptors[r].descriptor.reference == r
    requires forall r :: CanActivate(c, scope, st, m, root, r) ==> r in st.native && st.native[r] == root
    ensures CanActivate(c, scope, st, m, root, r)
    ensures ActivatePlan(c, scope, st, m, root, process)
         == CheckWrites(c, root, st.descriptors[r].descriptor, process) + [PutManifest(OpaqueManifest(m, st.descriptors[r].descriptor))]
  {
    r :| CanActivate(c, scope, st, m, root, r);
    forall other | CanActivate(c, scope, st, m, root, other) ensures other == r {
      OneIsPrepared(st, m.activeKeyId, r, other);
    }
  }

  lemma ActivationIsPlanned(c: Crypto, scope: string, st: Storage, m: Manifest, root: Root, r: Reference, process: Process)
    requires Healthy(c, scope, st) && st.manifest == Some(m) && root == Roots(c, st)[m.activeKeyId]
    requires CanActivate(c, scope, st, m, root, r)
    ensures ReadyToActivate(c, st, root, st.descriptors[r].descriptor)
    ensures ActivatePlan(c, scope, st, m, root, process)
         == CheckWrites(c, root, st.descriptors[r].descriptor, process) + [PutManifest(OpaqueManifest(m, st.descriptors[r].descriptor))]
  {
    forall x | CanActivate(c, scope, st, m, root, x) ensures x in st.native && st.native[x] == root {
      PreparedHoldsTheRoot(c, scope, st, root, x);
    }
    PreparedHoldsTheRoot(c, scope, st, root, r);
    var planned := ActivatePlanWrites(c, scope, st, m, root, process);
    OneIsPrepared(st, m.activeKeyId, planned, r);
  }

  /** The prepared item is checked, then verified, and only then used. */
  lemma ActivateIsSafe(c: Crypto, scope: string, st: Storage, root: Root, process: Process, n: nat)
    requires Healthy(c, scope, st) && root == Roots(c, st)[st.manifest.value.activeKeyId]
    requires n <= |ActivatePlan(c, scope, st, st.manifest.value, root, process)|
    ensures StaysHealthy(c, scope, st, ActivatePlan(c, scope, st, st.manifest.value, root, process), n)
  {
    hide Shape, RootOf;
    var m := st.manifest.value;
    if n == 0 {
      NothingWritten(c, scope, st, ActivatePlan(c, scope, st, m, root, process));
    } else {
      forall r | CanActivate(c, scope, st, m, root, r) ensures r in st.native && st.native[r] == root {
        PreparedHoldsTheRoot(c, scope, st, root, r);
      }
      var r := ActivatePlanWrites(c, scope, st, m, root, process);
      PreparedHoldsTheRoot(c, scope, st, root, r);
      if n <= 2 {
        PartialActivationIsSafe(c, scope, st, root, st.descriptors[r].descriptor, process, n);
      } else {
        WholeActivationIsSafe(c, scope, st, root, st.descriptors[r].descriptor, process);
      }
    }
  }

  // ---- retiring the file ----

  /** The descriptor of the active key, in the same place, for the same root. */
  lemma ActivatedCopyLeads(c: Crypto, st: Storage, root: Root, id: KeyId, ref: Ref, r: Reference)
    requires r in st.descriptors && r in st.native && (ref.Custody? && ref.reference == r ==> LookupIn(c, st)(id, ref) == Some(root))
    ensures LookupIn(c, Perform(st, PutDescriptor(r, ActivatedCopy(c, root, st.descriptors[r].descriptor))))(id, ref) == LookupIn(c, st)(id, ref)
  {
  }

  lemma ActivatedCopyIsHarmless(c: Crypto, scope: string, st: Storage, root: Root, r: Reference)
    requires Healthy(c, scope, st) && root == Roots(c, st)[st.manifest.value.activeKeyId]
    requires ActiveEntry(st.manifest.value).ref.Custody? && ActiveEntry(st.manifest.value).ref.reference == r && r in st.descriptors
    ensures var after := Perform(st, PutDescriptor(r, ActivatedCopy(c, root, st.descriptors[r].descriptor)));
      Healthy(c, scope, after) && Roots(c, after) == Roots(c, st) && after.manifest == st.manifest
  {
    var m, w := st.manifest.value, PutDescriptor(r, ActivatedCopy(c, root, st.descriptors[r].descriptor));
    var a, b := LookupIn(c, st), LookupIn(c, Perform(st, w));
    assert a(m.activeKeyId, ActiveEntry(m).ref) == Some(root);
    OthersUseOtherItems(c, scope, st, m, st.descriptors[r].descriptor);
    forall id | id in m.keys ensures a(id, m.keys[id].ref) == b(id, m.keys[id].ref) {
      ActivatedCopyLeads(c, st, root, id, m.keys[id].ref, r);
    }
    AgreeingLookups(c, scope, a, b, m);
    HarmlessKeepsCustody(a, b, st, m, w);
  }

  lemma UnlinkFileIsHarmless(c: Crypto, scope: string, st: Storage)
    requires Healthy(c, scope, st) && ActiveEntry(st.manifest.value).ref.Custody?
    ensures var after := Perform(st, UnlinkKeyFile(Named(st.manifest.value.activeKeyId)));
      Healthy(c, scope, after) && Roots(c, after) == Roots(c, st) && after.manifest == st.manifest
  {
    HarmlessWrite(c, scope, st, UnlinkKeyFile(Named(st.manifest.value.activeKeyId)));
  }

  lemma AsItWasJoin(c: Crypto, scope: string, st: Storage, a: seq<Write>, b: seq<Write>, n: nat)
    requires n <= |a| + |b|
    requires n <= |a| ==> AsItWas(c, scope, st, a, n)
    requires n > |a| ==> AsItWas(c, scope, st, a, |a|) && AsItWas(c, scope, After(st, a, |a|), b, n - |a|)
    ensures AsItWas(c, scope, st, a + b, n)
  {
    if n <= |a| {
      AfterPrefix(st, a, b, n);
    } else {
      AfterJoin(st, a, b, n);
    }
  }

  function ActivateDescriptor(c: Crypto, st: Storage, root: Root, r: Reference): seq<Write>
    requires r in st.descriptors
  {
    var d := st.descriptors[r].descriptor;
    if d.state == VerifiedCustody then [PutDescriptor(r, ActivatedCopy(c, root, d))] else []
  }

  function RemoveFile(c: Crypto, st: Storage, id: KeyId): seq<Write> {
    if Named(id) !in st.files || c.keyId(st.files[Named(id)]) != id then []
    else [UnlinkKeyFile(Named(id))] + if st.receipt.Some? then [UnlinkReceipt] else []
  }

  lemma ActivateDescriptorIsSafe(c: Crypto, scope: string, st: Storage, root: Root, r: Reference, n: nat)
    requires Healthy(c, scope, st) && root == Roots(c, st)[st.manifest.value.activeKeyId]
    requires ActiveEntry(st.manifest.value).ref.Custody? && ActiveEntry(st.manifest.value).ref.reference == r && r in st.descriptors
    requires n <= |ActivateDescriptor(c, st, root, r)|
    ensures AsItWas(c, scope, st, ActivateDescriptor(c, st, root, r), n)
  {
    FirstWrites(st, ActivateDescriptor(c, st, root, r));
    ActivatedCopyIsHarmless(c, scope, st, root, r);
  }

  lemma RemoveFileIsSafe(c: Crypto, scope: string, st: Storage, ws: seq<Write>, n: nat)
    requires Healthy(c, scope, st) && ActiveEntry(st.manifest.value).ref.Custody? && n <= |ws| <= 2
    requires n >= 1 ==> ws[0] == UnlinkKeyFile(Named(st.manifest.value.activeKeyId))
    requires n >= 2 ==> ws[1] == UnlinkReceipt
    ensures AsItWas(c, scope, st, ws, n)
  {
    hide Shape;
    FirstWrites(st, ws);
    UnlinkFileIsHarmless(c, scope, st);
    if n == 2 {
      ReceiptIsHarmless(c, scope, Perform(st, ws[0]), ws[1]);
    }
  }

  lemma RetireFileShape(c: Crypto, st: Storage, m: Manifest, root: Root, process: Process)
    requires m.activeKeyId in m.keys && RetireFilePlan(c, st, m, root, process) != []
    ensures ActiveEntry(m).ref.Custody? && ActiveEntry(m).ref.reference in st.descriptors
    ensures RetireFilePlan(c, st, m, root, process)
         == ActivateDescriptor(c, st, root, ActiveEntry(m).ref.reference) + RemoveFile(c, st, m.activeKeyId)
  {
  }

  /** The descriptor is active before the file goes. */
  lemma RetireFileIsSafe(c: Crypto, scope: string, st: Storage, root: Root, process: Process, n: nat)
    requires Healthy(c, scope, st) && root == Roots(c, st)[st.manifest.value.activeKeyId]
    requires n <= |RetireFilePlan(c, st, st.manifest.value, root, process)|
    ensures StaysHealthy(c, scope, st, RetireFilePlan(c, st, st.manifest.value, root, process), n)
  {
    var m := st.manifest.value;
    if n == 0 {
      NothingWritten(c, scope, st, RetireFilePlan(c, st, m, root, process));
    } else {
      RetireFileShape(c, st, m, root, process);
      var r := ActiveEntry(m).ref.reference;
      var first, removal := ActivateDescriptor(c, st, root, r), RemoveFile(c, st, m.activeKeyId);
      if n <= |first| {
        ActivateDescriptorIsSafe(c, scope, st, root, r, n);
      } else {
        ActivateDescriptorIsSafe(c, scope, st, root, r, |first|);
        RemoveFileIsSafe(c, scope, After(st, first, |first|), removal, n - |first|);
      }
      AsItWasJoin(c, scope, st, first, removal, n);
    }
  }
}
