/** What each operation achieves when it completes, and what whole procedures end with. */
module KeyringEffects {
  import opened Outcomes
  import opened KeyStorage
  import opened KeyringPlans
  import opened KeyringSafety
  import opened KeyringSteps
  import opened KeyringRuns
  import opened KeyringLimits

  /** The storage after all of the writes. */
  function AfterAll(st: Storage, ws: seq<Write>): Storage {
    After(st, ws, |ws|)
  }

  /** The profile opens with these roots and this manifest. */
  ghost predicate Stands(c: Crypto, scope: string, st: Storage, m: Manifest, roots: map<KeyId, Root>) {
    Healthy(c, scope, st) && st.manifest == Some(m) && Roots(c, st) == roots
  }

  lemma RootsAreOfListedKeys(c: Crypto, scope: string, lookup: Lookup, m: Manifest)
    requires OpensWith(c, scope, lookup, m)
    ensures Recovered(lookup, m).Keys == m.keys.Keys
  {
  }

  lemma StandingRoots(c: Crypto, scope: string, st: Storage)
    requires Healthy(c, scope, st)
    ensures Roots(c, st).Keys == st.manifest.value.keys.Keys && st.manifest.value.activeKeyId in Roots(c, st)
  {
    RootsAreOfListedKeys(c, scope, LookupIn(c, st), st.manifest.value);
  }

  lemma SameKeysSameRoots(before: map<KeyId, Root>, after: map<KeyId, Root>, gone: set<KeyId>)
    requires KeepsRoots(before, after) && after.Keys == before.Keys - gone
    ensures after == before - gone
  {
  }

  /** A prefix lemma at the end of a plan, when the manifest afterwards is known. */
  lemma CompletedStands(c: Crypto, scope: string, st: Storage, ws: seq<Write>, next: Manifest, gone: set<KeyId>)
    requires Healthy(c, scope, st) && StaysHealthy(c, scope, st, ws, |ws|) && AfterAll(st, ws).manifest == Some(next)
    requires next.keys.Keys == st.manifest.value.keys.Keys - gone
    ensures Stands(c, scope, AfterAll(st, ws), next, Roots(c, st) - gone)
  {
    StandingRoots(c, scope, st);
    StandingRoots(c, scope, AfterAll(st, ws));
    SameKeysSameRoots(Roots(c, st), Roots(c, AfterAll(st, ws)), gone);
  }

  lemma CompletedKeeps(c: Crypto, scope: string, st: Storage, ws: seq<Write>, next: Manifest)
    requires Healthy(c, scope, st) && StaysHealthy(c, scope, st, ws, |ws|) && AfterAll(st, ws).manifest == Some(next)
    requires next.keys.Keys == st.manifest.value.keys.Keys
    ensures Stands(c, scope, AfterAll(st, ws), next, Roots(c, st))
  {
    CompletedStands(c, scope, st, ws, next, {});
    NoneGone(Roots(c, st));
  }

  lemma NoneGone(roots: map<KeyId, Root>)
    ensures roots - {} == roots
  {
  }

  // ---- rotation ----

  ghost predicate MayRotate(c: Crypto, st: Storage, m: Manifest, root: Root, reference: Reference) {
    && m.activeKeyId in m.keys && m.rotation == None && c.keyId(root) !in m.keys
    && CanStore(c, st, ActiveEntry(m).ref, root, reference)
    && NextEpoch(m, EpochAfter(m, ActiveEpoch(m)))
  }

  /** A completed beginning: the new root is active with the next epoch, the old one still there. */
  lemma RotationTakesEffect(c: Crypto, scope: string, st: Storage, m: Manifest, root: Root, reference: Reference)
    requires Healthy(c, scope, st) && st.manifest == Some(m) && MayRotate(c, st, m, root, reference)
    ensures var ref := TargetRef(ActiveEntry(m).ref, c.keyId(root), reference);
      var next := RotatedManifest(c, scope, m, root, ref, EpochAfter(m, ActiveEpoch(m)));
      var ws := BeginPlan(c, scope, st, m, root, reference, ActiveEpoch(m));
      Stands(c, scope, AfterAll(st, ws), next, Roots(c, st)[c.keyId(root) := root])
  {
    RotatedContents(c, scope, st, m, root, reference);
    BeginPublishes(c, scope, st, root, reference, EpochAfter(m, ActiveEpoch(m)));
  }

  lemma RotatedContents(c: Crypto, scope: string, st: Storage, m: Manifest, root: Root, reference: Reference)
    requires MayRotate(c, st, m, root, reference)
    ensures var ref := TargetRef(ActiveEntry(m).ref, c.keyId(root), reference);
      var next := RotatedManifest(c, scope, m, root, ref, EpochAfter(m, ActiveEpoch(m)));
      var stored := StoreRoot(c, st, ActiveEntry(m).ref, root, reference);
      AfterAll(st, BeginPlan(c, scope, st, m, root, reference, ActiveEpoch(m))) == Perform(AfterAll(st, stored), PutManifest(next))
  {
    var stored := StoreRoot(c, st, ActiveEntry(m).ref, root, reference);
    var tail := BeginTail(c, scope, m, root, TargetRef(ActiveEntry(m).ref, c.keyId(root), reference), ActiveEpoch(m));
    AfterBoth(st, stored, tail);
    FirstWrites(AfterAll(st, stored), tail);
  }

  lemma MarkedContents(st: Storage, m: Manifest)
    requires m.rotation.Some? && m.rotation.value.state == Migrating
    ensures var next := m.(rotation := Some(m.rotation.value.(state := Verified)));
      |MarkPlan(m)| == 1 && AfterAll(st, MarkPlan(m)).manifest == Some(next) && next.keys == m.keys
  {
    FirstWrites(st, MarkPlan(m));
  }

  /** A completed marking changes the rotation's state and nothing else. */
  lemma MarkTakesEffect(c: Crypto, scope: string, st: Storage, m: Manifest)
    requires Healthy(c, scope, st) && st.manifest == Some(m) && m.rotation.Some? && m.rotation.value.state == Migrating
    ensures Stands(c, scope, AfterAll(st, MarkPlan(m)), m.(rotation := Some(m.rotation.value.(state := Verified))), Roots(c, st))
  {
    MarkIsSafe(c, scope, st, 1);
    MarkedContents(st, m);
    CompletedKeeps(c, scope, st, MarkPlan(m), m.(rotation := Some(m.rotation.value.(state := Verified))));
  }

  lemma RetiredContents(c: Crypto, scope: string, st: Storage, m: Manifest, root: Root, from: KeyId)
    requires from in m.keys && m.rotation.Some? && m.rotation.value.state == Verified && m.rotation.value.from == from
    ensures var after := AfterAll(st, RetirePlan(c, scope, m, root));
      && after.manifest == Some(RetiredManifest(c, scope, m, root, from))
      && LookupIn(c, after)(from, m.keys[from].ref) == None && IsGone(after, m.keys[from].ref)
  {
    var next, ref := RetiredManifest(c, scope, m, root, from), m.keys[from].ref;
    FirstWrites(st, [PutManifest(next)]);
    AfterBoth(st, [PutManifest(next)], DropRoot(ref));
    DropKeepsManifest(Perform(st, PutManifest(next)), ref, |DropRoot(ref)|);
    DroppedRootIsGone(c, Perform(st, PutManifest(next)), from, ref);
  }

  /** A completed retirement: only the new key is left, and the old root is gone from the storage. */
  lemma RetirementTakesEffect(c: Crypto, scope: string, st: Storage, m: Manifest, from: KeyId)
    requires Healthy(c, scope, st) && st.manifest == Some(m)
    requires m.rotation.Some? && m.rotation.value.state == Verified && m.rotation.value.from == from
    ensures var root := Roots(c, st)[m.activeKeyId];
      var after := AfterAll(st, RetirePlan(c, scope, m, root));
      && Stands(c, scope, after, RetiredManifest(c, scope, m, root, from), Roots(c, st) - {from})
      && from in m.keys && LookupIn(c, after)(from, m.keys[from].ref) == None && IsGone(after, m.keys[from].ref)
  {
    StandingRoots(c, scope, st);
    var root := Roots(c, st)[m.activeKeyId];
    RetireIsSafe(c, scope, st, root, |RetirePlan(c, scope, m, root)|);
    RetiredContents(c, scope, st, m, root, from);
    CompletedStands(c, scope, st, RetirePlan(c, scope, m, root), RetiredManifest(c, scope, m, root, from), {from});
  }

  // ---- features ----

  /** A completed activation of version 3 gives the one key the first epoch. */
  lemma Version3TakesEffect(c: Crypto, scope: string, st: Storage, m: Manifest)
    requires Healthy(c, scope, st) && st.manifest == Some(m) && m.rotation == None && !HasV3(m)
    ensures var root := Roots(c, st)[m.activeKeyId];
      var next := Bound(c, scope, root, WithEpochOne(m));
      Stands(c, scope, AfterAll(st, EnablePlan(c, scope, m, root, RecordEnvelopeV3)), next, Roots(c, st))
      && HasV3(next) && ActiveEpoch(next) == 1
  {
    StandingRoots(c, scope, st);
    var root := Roots(c, st)[m.activeKeyId];
    EnableIsSafe(c, scope, st, root, RecordEnvelopeV3, 1);
    Version3Contents(c, scope, st, m, root);
    CompletedKeeps(c, scope, st, EnablePlan(c, scope, m, root, RecordEnvelopeV3), Bound(c, scope, root, WithEpochOne(m)));
  }

  lemma FeatureContents(c: Crypto, scope: string, st: Storage, m: Manifest, root: Root, feature: Feature)
    requires m.activeKeyId in m.keys && feature != RecordEnvelopeV3 && feature !in m.features
    ensures var next, ws := Bound(c, scope, root, m.(features := m.features + {feature})), EnablePlan(c, scope, m, root, feature);
      |ws| == 1 && AfterAll(st, ws) == st.(manifest := Some(next))
  {
    FirstWrites(st, EnablePlan(c, scope, m, root, feature));
  }

  /** A completed activation of another feature adds it and changes neither keys, roots, rotation nor scope id. */
  lemma FeatureTakesEffect(c: Crypto, scope: string, st: Storage, m: Manifest, feature: Feature)
    requires Healthy(c, scope, st) && st.manifest == Some(m) && feature != RecordEnvelopeV3 && feature !in m.features
    ensures var after := AfterAll(st, EnablePlan(c, scope, m, Roots(c, st)[m.activeKeyId], feature));
      && Healthy(c, scope, after) && Roots(c, after) == Roots(c, st)
      && after.manifest == Some(m.(features := m.features + {feature}, binding := after.manifest.value.binding))
      && after == st.(manifest := after.manifest)
  {
    StandingRoots(c, scope, st);
    var root := Roots(c, st)[m.activeKeyId];
    EnableIsSafe(c, scope, st, root, feature, 1);
    FeatureContents(c, scope, st, m, root, feature);
    CompletedKeeps(c, scope, st, EnablePlan(c, scope, m, root, feature), Bound(c, scope, root, m.(features := m.features + {feature})));
  }

  lemma Version3Contents(c: Crypto, scope: string, st: Storage, m: Manifest, root: Root)
    requires m.rotation == None && !HasV3(m) && m.keys.Keys == {m.activeKeyId}
    ensures var next, ws := Bound(c, scope, root, WithEpochOne(m)), EnablePlan(c, scope, m, root, RecordEnvelopeV3);
      |ws| == 1 && AfterAll(st, ws).manifest == Some(next) && next.keys.Keys == m.keys.Keys && HasV3(next) && ActiveEpoch(next) == 1
  {
    FirstWrites(st, EnablePlan(c, scope, m, root, RecordEnvelopeV3));
  }

  // ---- custody ----

  lemma ActivatedContents(c: Crypto, st: Storage, m: Manifest, root: Root, d: Descriptor, process: Process)
    requires m.activeKeyId in m.keys
    ensures var after := AfterAll(st, CheckWrites(c, root, d, process) + [PutManifest(OpaqueManifest(m, d))]);
      && after.manifest == Some(OpaqueManifest(m, d)) && after.files == st.files
      && OpaqueManifest(m, d).keys.Keys == m.keys.Keys
      && after.descriptors == st.descriptors[d.reference := VerifiedCopy(c, root, d)]
      && after.receipt == Some(Receipt(d.reference, process, c.mac(root, ActivationOf(d.reference, process))))
  {
    FirstWrites(st, CheckWrites(c, root, d, process) + [PutManifest(OpaqueManifest(m, d))]);
  }

  /** A completed activation: the same root is used from the native store, and its file is still there. */
  lemma ActivationTakesEffect(c: Crypto, scope: string, st: Storage, m: Manifest, d: Descriptor, process: Process)
    requires Healthy(c, scope, st) && st.manifest == Some(m) && ReadyToActivate(c, st, Roots(c, st)[m.activeKeyId], d)
    ensures var ws := CheckWrites(c, Roots(c, st)[m.activeKeyId], d, process) + [PutManifest(OpaqueManifest(m, d))];
      Stands(c, scope, AfterAll(st, ws), OpaqueManifest(m, d), Roots(c, st)) && OpaqueManifest(m, d).binding == m.binding
  {
    StandingRoots(c, scope, st);
    var root := Roots(c, st)[m.activeKeyId];
    var ws := CheckWrites(c, root, d, process) + [PutManifest(OpaqueManifest(m, d))];
    WholeActivationIsSafe(c, scope, st, root, d, process);
    ActivatedContents(c, st, m, root, d, process);
    CompletedKeeps(c, scope, st, ws, OpaqueManifest(m, d));
  }

  lemma RetiredFileContents(c: Crypto, st: Storage, m: Manifest, root: Root, process: Process)
    requires m.activeKeyId in m.keys && ActiveEntry(m).ref.Custody? && ActiveEntry(m).ref.reference in st.descriptors
    requires Named(m.activeKeyId) in st.files && c.keyId(st.files[Named(m.activeKeyId)]) == m.activeKeyId
    requires ReceiptAllows(c, st, root, st.descriptors[ActiveEntry(m).ref.reference].descriptor.reference, process)
    ensures var ws := RetireFilePlan(c, st, m, root, process);
      AfterAll(st, ws).manifest == st.manifest && Named(m.activeKeyId) !in AfterAll(st, ws).files && AfterAll(st, ws).receipt == None
  {
    FirstWrites(st, RetireFilePlan(c, st, m, root, process));
  }

  /** A completed retirement of the file: the raw root is gone, the key still opens. */
  lemma FileRetirementTakesEffect(c: Crypto, scope: string, st: Storage, m: Manifest, process: Process)
    requires Healthy(c, scope, st) && st.manifest == Some(m)
    requires ActiveEntry(m).ref.Custody? && ActiveEntry(m).ref.reference in st.descriptors
    requires Named(m.activeKeyId) in st.files && c.keyId(st.files[Named(m.activeKeyId)]) == m.activeKeyId
    requires ReceiptAllows(c, st, Roots(c, st)[m.activeKeyId], st.descriptors[ActiveEntry(m).ref.reference].descriptor.reference, process)
    ensures var after := AfterAll(st, RetireFilePlan(c, st, m, Roots(c, st)[m.activeKeyId], process));
      Stands(c, scope, after, m, Roots(c, st)) && Named(m.activeKeyId) !in after.files && after.receipt == None
  {
    StandingRoots(c, scope, st);
    var root := Roots(c, st)[m.activeKeyId];
    RetireFileIsSafe(c, scope, st, root, process, |RetireFilePlan(c, st, m, root, process)|);
    RetiredFileContents(c, st, m, root, process);
    CompletedKeeps(c, scope, st, RetireFilePlan(c, st, m, root, process), m);
  }

  // ---- whole procedures ----

  lemma OnlyRoot(c: Crypto, scope: string, st: Storage, m: Manifest, id: KeyId, root: Root)
    requires Healthy(c, scope, st) && st.manifest == Some(m) && m.rotation == None && id != m.activeKeyId
    ensures Roots(c, st)[id := root] - {m.activeKeyId} == map[id := root]
  {
    StandingRoots(c, scope, st);
  }

  /** Beginning, marking and retiring replace the one root by the new one. */
  lemma RotationReplacesTheRoot(c: Crypto, scope: string, st: Storage, m: Manifest, root: Root, reference: Reference)
    returns (begun: Storage, marked: Storage, retired: Storage)
    requires Healthy(c, scope, st) && st.manifest == Some(m) && MayRotate(c, st, m, root, reference)
    ensures begun == AfterAll(st, BeginPlan(c, scope, st, m, root, reference, ActiveEpoch(m))) && begun.manifest.Some?
    ensures marked == AfterAll(begun, MarkPlan(begun.manifest.value)) && marked.manifest.Some?
    ensures retired == AfterAll(marked, RetirePlan(c, scope, marked.manifest.value, root))
    ensures Healthy(c, scope, retired) && retired.manifest.value.rotation == None
    ensures Roots(c, retired) == map[c.keyId(root) := root]
    ensures LookupIn(c, retired)(m.activeKeyId, ActiveEntry(m).ref) == None && IsGone(retired, ActiveEntry(m).ref)
  {
    begun := AfterAll(st, BeginPlan(c, scope, st, m, root, reference, ActiveEpoch(m)));
    RotationTakesEffect(c, scope, st, m, root, reference);
    var next := begun.manifest.value;
    marked := AfterAll(begun, MarkPlan(next));
    MarkTakesEffect(c, scope, begun, next);
    retired := AfterAll(marked, RetirePlan(c, scope, marked.manifest.value, root));
    RetirementTakesEffect(c, scope, marked, marked.manifest.value, m.activeKeyId);
    OnlyRoot(c, scope, st, m, c.keyId(root), root);
  }

  lemma PreparedContents(c: Crypto, st: Storage, m: Manifest, root: Root, provider: Provider, reference: Reference, helper: string)
    requires m.activeKeyId in m.keys && HasV3(m) && m.rotation == None && ActiveEntry(m).ref.KeyFile?
    requires c.keyId(root) == m.activeKeyId && st.manifest == Some(m)
    ensures var d := Descriptor(provider, reference, m.activeKeyId, helper, Prepared);
      var ws := PreparePlan(c, m, root, provider, reference, helper);
      |ws| == 2 && AfterAll(st, ws).manifest == Some(m) && AfterAll(st, ws).files == st.files && ReadyToActivate(c, AfterAll(st, ws), root, d)
  {
    FirstWrites(st, PreparePlan(c, m, root, provider, reference, helper));
  }

  /** With no other descriptor prepared, the new one can be activated. */
  lemma PreparedCanActivate(c: Crypto, scope: string, st: Storage, m: Manifest, root: Root, provider: Provider, reference: Reference, helper: string)
    requires ManifestLoads(m) && HasV3(m) && m.rotation == None && ActiveEntry(m).ref.KeyFile?
    requires c.keyId(root) == m.activeKeyId && st.manifest == Some(m)
    requires forall r :: !IsPrepared(st, m.activeKeyId, r)
    ensures var prepared := AfterAll(st, PreparePlan(c, m, root, provider, reference, helper));
      CanActivate(c, scope, prepared, m, root, reference)
      && prepared.descriptors[reference].descriptor == Descriptor(provider, reference, m.activeKeyId, helper, Prepared)
  {
    FirstWrites(st, PreparePlan(c, m, root, provider, reference, helper));
    var prepared := AfterAll(st, PreparePlan(c, m, root, provider, reference, helper));
    forall r ensures IsPrepared(prepared, m.activeKeyId, r) <==> r == reference {
      assert !IsPrepared(st, m.activeKeyId, r);
    }
  }

  lemma ActiveFileRoot(c: Crypto, scope: string, st: Storage, m: Manifest)
    requires Healthy(c, scope, st) && st.manifest == Some(m) && ActiveEntry(m).ref == KeyFile(Named(m.activeKeyId))
    ensures Named(m.activeKeyId) in st.files && Roots(c, st)[m.activeKeyId] == st.files[Named(m.activeKeyId)]
    ensures c.keyId(Roots(c, st)[m.activeKeyId]) == m.activeKeyId
  {
    assert LookupIn(c, st)(m.activeKeyId, ActiveEntry(m).ref).Some?;
  }

  lemma OpaqueReceiptAllows(c: Crypto, st: Storage, m: Manifest, root: Root, d: Descriptor, first: Process, second: Process)
    requires m.activeKeyId in m.keys && first != second
    ensures var activated := AfterAll(st, CheckWrites(c, root, d, first) + [PutManifest(OpaqueManifest(m, d))]);
      && d.reference in activated.descriptors && activated.descriptors[d.reference].descriptor.reference == d.reference
      && ReceiptAllows(c, activated, root, d.reference, second)
  {
    ActivatedContents(c, st, m, root, d, first);
  }

  /**
   * Preparing, activating and, in another process, retiring the file moves the one
   * root of a version-3 profile into the native store; no raw copy of it is left.
   */
  lemma CustodyMovesTheRoot(c: Crypto, scope: string, st: Storage, m: Manifest, provider: Provider, reference: Reference, helper: string,
                            first: Process, second: Process)
    returns (prepared: Storage, activated: Storage, retired: Storage)
    requires Healthy(c, scope, st) && st.manifest == Some(m) && HasV3(m) && m.rotation == None && first != second
    requires ActiveEntry(m).ref == KeyFile(Named(m.activeKeyId)) && Fresh(c, st, PrepareCustody(provider, reference, helper))
    requires forall r :: !IsPrepared(st, m.activeKeyId, r)
    ensures var root, d := Roots(c, st)[m.activeKeyId], Descriptor(provider, reference, m.activeKeyId, helper, Prepared);
      && prepared == AfterAll(st, PreparePlan(c, m, root, provider, reference, helper))
      && activated == AfterAll(prepared, ActivatePlan(c, scope, prepared, m, root, first))
      && retired == AfterAll(activated, RetireFilePlan(c, activated, OpaqueManifest(m, d), root, second))
      && Stands(c, scope, retired, OpaqueManifest(m, d), Roots(c, st))
      && Named(m.activeKeyId) !in retired.files && retired.receipt == None
  {
    StandingRoots(c, scope, st);
    ActiveFileRoot(c, scope, st, m);
    var root, d := Roots(c, st)[m.activeKeyId], Descriptor(provider, reference, m.activeKeyId, helper, Prepared);
    prepared := AfterAll(st, PreparePlan(c, m, root, provider, reference, helper));
    PreparedContents(c, st, m, root, provider, reference, helper);
    PrepareIsSafe(c, scope, st, root, provider, reference, helper, 2);
    CompletedKeeps(c, scope, st, PreparePlan(c, m, root, provider, reference, helper), m);
    PreparedCanActivate(c, scope, st, m, root, provider, reference, helper);
    ActivationIsPlanned(c, scope, prepared, m, root, reference, first);
    activated := AfterAll(prepared, CheckWrites(c, root, d, first) + [PutManifest(OpaqueManifest(m, d))]);
    ActivationTakesEffect(c, scope, prepared, m, d, first);
    ActivatedContents(c, prepared, m, root, d, first);
    OpaqueReceiptAllows(c, prepared, m, root, d, first, second);
    retired := AfterAll(activated, RetireFilePlan(c, activated, OpaqueManifest(m, d), root, second));
    FileRetirementTakesEffect(c, scope, activated, OpaqueManifest(m, d), second);
  }
}
