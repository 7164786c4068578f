/** Where an interrupted or failing operation leaves more than a reopened profile, and exactly when. */
module KeyringLimits {
  import opened Outcomes
  import opened KeyStorage
  import opened KeyringPlans
  import opened KeyringSafety
  import opened KeyringSteps
  import opened KeyringRuns

  // ---- cleaning up after a failed rotation ----

  /** The manifest of a rotation, whose publication may be reported as failed. */
  function NextManifest(c: Crypto, scope: string, m: Manifest, root: Root, reference: Reference, largest: int): Manifest
    requires m.activeKeyId in m.keys
  {
    RotatedManifest(c, scope, m, root, TargetRef(ActiveEntry(m).ref, c.keyId(root), reference), EpochAfter(m, largest))
  }

  /** Neither the file nor the native root with its descriptor is left. */
  predicate IsGone(st: Storage, ref: Ref) {
    match ref
    case KeyFile(name) => name !in st.files
    case Custody(_, reference) => reference !in st.native && reference !in st.descriptors
  }

  lemma DroppedRootIsGone(c: Crypto, st: Storage, id: KeyId, ref: Ref)
    ensures LookupIn(c, After(st, DropRoot(ref), |DropRoot(ref)|))(id, ref) == None
    ensures IsGone(After(st, DropRoot(ref), |DropRoot(ref)|), ref)
  {
    FirstWrites(st, DropRoot(ref));
  }

  lemma {:induction false} DropKeepsManifest(st: Storage, ref: Ref, n: nat)
    requires n <= |DropRoot(ref)|
    ensures After(st, DropRoot(ref), n).manifest == st.manifest
  {
    if n > 0 {
      DropKeepsManifest(st, ref, n - 1);
    }
  }

  /**
   * When publishing the rotation fails, the new root is removed again. The profile
   * opens after that exactly when the manifest had not been replaced: a failure
   * reported after the replacement loses the active key.
   */
  lemma CleanupIsSafeUnlessPublished(c: Crypto, scope: string, st: Storage, root: Root, reference: Reference, largest: int, published: bool)
    requires Healthy(c, scope, st) && st.manifest.value.rotation == None && c.keyId(root) !in st.manifest.value.keys
    requires CanStore(c, st, ActiveEntry(st.manifest.value).ref, root, reference) && NextEpoch(st.manifest.value, EpochAfter(st.manifest.value, largest))
    ensures var m := st.manifest.value;
      var source := ActiveEntry(m).ref;
      var stored := StoreRoot(c, st, source, root, reference);
      var filed := After(st, stored, |stored|);
      var failed := if published then Perform(filed, PutManifest(NextManifest(c, scope, m, root, reference, largest))) else filed;
      var drop := DropRoot(TargetRef(source, c.keyId(root), reference));
      Opens(c, scope, After(failed, drop, |drop|)) <==> !published
  {
    var m := st.manifest.value;
    var source := ActiveEntry(m).ref;
    var stored, ref := StoreRoot(c, st, source, root, reference), TargetRef(source, c.keyId(root), reference);
    var filed := After(st, stored, |stored|);
    if published {
      PublishedRootIsLost(c, scope, filed, m, root, reference, largest);
    } else {
      StoreRootIsHarmless(c, scope, st, source, root, reference, |stored|);
      NewRefClashesWithNone(c, scope, st, m, root, reference);
      DropIsHarmless(c, scope, filed, ref, |DropRoot(ref)|);
    }
  }

  lemma PublishedRootIsLost(c: Crypto, scope: string, filed: Storage, m: Manifest, root: Root, reference: Reference, largest: int)
    requires m.activeKeyId in m.keys
    ensures var ref := TargetRef(ActiveEntry(m).ref, c.keyId(root), reference);
      !Opens(c, scope, After(Perform(filed, PutManifest(NextManifest(c, scope, m, root, reference, largest))), DropRoot(ref), |DropRoot(ref)|))
  {
    var ref, next := TargetRef(ActiveEntry(m).ref, c.keyId(root), reference), NextManifest(c, scope, m, root, reference, largest);
    var published := Perform(filed, PutManifest(next));
    DroppedRootIsGone(c, published, c.keyId(root), ref);
    DropKeepsManifest(published, ref, |DropRoot(ref)|);
    assert next.keys[c.keyId(root)].ref == ref;
  }

  lemma NewRefClashesWithNone(c: Crypto, scope: string, st: Storage, m: Manifest, root: Root, reference: Reference)
    requires OpensWith(c, scope, LookupIn(c, st), m) && Shape(m) && m.rotation == None
    requires CanStore(c, st, ActiveEntry(m).ref, root, reference)
    ensures forall id :: id in m.keys ==> !Clash(m.keys[id].ref, TargetRef(ActiveEntry(m).ref, c.keyId(root), reference))
  {
    TargetIsOwn(c, scope, st, m, root, reference);
  }

  // ---- the last epoch ----

  /** At the last epoch a rotation only leaves an unused root behind. */
  lemma NoRotationPastTheLastEpoch(c: Crypto, scope: string, st: Storage, root: Root, reference: Reference)
    requires Healthy(c, scope, st) && Fresh(c, st, BeginRotation(root, reference))
    requires HasV3(st.manifest.value) && ActiveEpoch(st.manifest.value) == LAST_EPOCH
    ensures var ws := Plan(c, scope, st, BeginRotation(root, reference));
      After(st, ws, |ws|).manifest == st.manifest && Roots(c, After(st, ws, |ws|)) == Roots(c, st)
  {
    var m := st.manifest.value;
    SomeEpochIsLargest(m);
    if Plan(c, scope, st, BeginRotation(root, reference)) != [] {
      BeginCanStore(c, scope, st, m, root, reference, LargestEpoch(m));
      var source := ActiveEntry(m).ref;
      var stored := StoreRoot(c, st, source, root, reference);
      StoreRootIsHarmless(c, scope, st, source, root, reference, |stored|);
      assert stored + [] == stored;
    }
  }

  // ---- two prepared descriptors ----

  lemma TwoPreparedAreAmbiguous(st: Storage, id: KeyId, a: Reference, b: Reference)
    requires IsPrepared(st, id, a) && IsPrepared(st, id, b) && a != b
    ensures forall r :: !OnlyPrepared(st, id, r)
  {
  }

  /**
   * Preparing a migration makes it possible to activate one exactly when none was
   * prepared before; a second preparation blocks both.
   */
  lemma SecondPreparationBlocksActivation(c: Crypto, scope: string, st: Storage, root: Root, provider: Provider,
                                          reference: Reference, helper: string, process: Process)
    requires Healthy(c, scope, st) && root == Roots(c, st)[st.manifest.value.activeKeyId]
    requires Fresh(c, st, PrepareCustody(provider, reference, helper))
    requires PreparePlan(c, st.manifest.value, root, provider, reference, helper) != []
    ensures var prepared := After(st, PreparePlan(c, st.manifest.value, root, provider, reference, helper), 2);
      ActivatePlan(c, scope, prepared, st.manifest.value, root, process) != []
      <==> forall r :: !IsPrepared(st, st.manifest.value.activeKeyId, r)
  {
    var m := st.manifest.value;
    var ws := PreparePlan(c, m, root, provider, reference, helper);
    var prepared := After(st, ws, 2);
    FirstWrites(st, ws);
    assert IsPrepared(prepared, m.activeKeyId, reference);
    assert forall r :: r != reference ==> (IsPrepared(prepared, m.activeKeyId, r) <==> IsPrepared(st, m.activeKeyId, r));
    if forall r :: !IsPrepared(st, m.activeKeyId, r) {
      assert c.keyId(root) == m.activeKeyId by {
        assert LookupIn(c, st)(m.activeKeyId, ActiveEntry(m).ref) == Some(root);
      }
      assert CanActivate(c, scope, prepared, m, root, reference);
    } else {
      var r :| IsPrepared(st, m.activeKeyId, r);
      assert r != reference;
      TwoPreparedAreAmbiguous(prepared, m.activeKeyId, r, reference);
      assert forall other :: CanActivate(c, scope, prepared, m, root, other) ==> OnlyPrepared(prepared, m.activeKeyId, other);
    }
  }

  // ---- an interrupted retirement ----

  /**
   * A retirement that stopped after `n` of its three writes is completed by another
   * one unless it stopped between removing the file and removing the receipt.
   */
  lemma RetirementIsRepeatable(c: Crypto, st: Storage, m: Manifest, root: Root, first: Process, second: Process, n: nat)
    requires m.activeKeyId in m.keys && |RetireFilePlan(c, st, m, root, first)| == 3 && n <= 3
    requires ReceiptAllows(c, st, root, st.descriptors[ActiveEntry(m).ref.reference].descriptor.reference, second)
    ensures var stopped := After(st, RetireFilePlan(c, st, m, root, first), n);
      var again := RetireFilePlan(c, stopped, m, root, second);
      var done := After(stopped, again, |again|);
      Named(m.activeKeyId) !in done.files && (done.receipt == None <==> n != 2)
  {
    var ws := RetireFilePlan(c, st, m, root, first);
    FirstWrites(st, ws);
    var stopped := After(st, ws, n);
    FirstWrites(stopped, RetireFilePlan(c, stopped, m, root, second));
  }
}
