/**
 * What opening a profile establishes, when each operation writes anything, what it
 * publishes, and who may remove the raw root.
 */
module KeyringGuards {
  import opened Outcomes
  import opened KeyStorage
  import opened KeyringPlans
  import opened KeyringSafety
  import opened KeyringSteps

  // ---- opening ----

  /** The root is where the reference says, under an authentic descriptor when it is in the native store. */
  ghost predicate IsStored(c: Crypto, st: Storage, id: KeyId, ref: Ref, root: Root) {
    c.keyId(root) == id
    && match ref
       case KeyFile(name) => name in st.files && st.files[name] == root
       case Custody(provider, reference) =>
         && reference in st.native && st.native[reference] == root && reference in st.descriptors
         && var d := st.descriptors[reference].descriptor;
           && d.reference == reference && d.provider == provider && d.keyId == id && d.state in {VerifiedCustody, ActiveCustody}
           && st.descriptors[reference].tag == c.mac(root, DescriptorOf(d))
  }

  /** The entry as the manifest must have it: one key is active, and epochs and native references come with version 3 only. */
  ghost predicate IsListed(m: Manifest, id: KeyId)
    requires id in m.keys
  {
    var entry := m.keys[id];
    && entry.status == (if id == m.activeKeyId then Active else DecryptOnly)
    && if RecordEnvelopeV3 in m.features
       then && entry.epoch.Some? && 1 <= entry.epoch.value <= 0x7fff_ffff
            && forall other :: other in m.keys && other != id ==> m.keys[other].epoch != entry.epoch
       else entry.epoch == None && entry.ref.KeyFile?
  }

  /** What holds of a profile that opens and of each of its listed keys. */
  lemma OpeningMeans(c: Crypto, scope: string, st: Storage, m: Manifest, id: KeyId)
    requires Opens(c, scope, st) && st.manifest == Some(m) && id in m.keys
    ensures 1 <= |m.keys| <= 8 && m.activeKeyId in m.keys && IsListed(m, id)
    ensures id in Roots(c, st) && c.keyId(Roots(c, st)[id]) == id
    ensures m.activeKeyId in Roots(c, st) && m.binding == c.mac(Roots(c, st)[m.activeKeyId], BindingOf(scope, m.scopeId, m.features, Epochs(m)))
  {
    assert LookupIn(c, st)(id, m.keys[id].ref).Some?;
    assert LookupIn(c, st)(m.activeKeyId, m.keys[m.activeKeyId].ref).Some?;
  }

  /** Where the root of a listed key comes from. */
  lemma RootsComeFrom(c: Crypto, scope: string, st: Storage, m: Manifest, id: KeyId)
    requires Opens(c, scope, st) && st.manifest == Some(m) && id in m.keys
    ensures id in Roots(c, st) && IsStored(c, st, id, m.keys[id].ref, Roots(c, st)[id])
  {
    assert LookupIn(c, st)(id, m.keys[id].ref).Some?;
  }

  /** Nothing more is needed: with every root in its place a profile of one to eight such keys opens under its scope and has these roots. */
  lemma OpensWhen(c: Crypto, scope: string, st: Storage, m: Manifest, roots: map<KeyId, Root>)
    requires st.manifest == Some(m) && 1 <= |m.keys| <= 8 && m.activeKeyId in m.keys && roots.Keys == m.keys.Keys
    requires forall id :: id in m.keys ==> IsListed(m, id) && IsStored(c, st, id, m.keys[id].ref, roots[id])
    requires m.binding == c.mac(roots[m.activeKeyId], BindingOf(scope, m.scopeId, m.features, Epochs(m)))
    ensures Opens(c, scope, st) && Roots(c, st) == roots
  {
    hide IsListed, IsStored, RootOf, ManifestLoads;
    ListedLoads(m);
    forall id | id in m.keys ensures LookupIn(c, st)(id, m.keys[id].ref) == Some(roots[id]) {
      StoredIsFound(c, st, id, m.keys[id].ref, roots[id]);
    }
  }

  lemma ListedLoads(m: Manifest)
    requires 1 <= |m.keys| <= 8 && m.activeKeyId in m.keys && forall id :: id in m.keys ==> IsListed(m, id)
    ensures ManifestLoads(m)
  {
    assert forall id :: id in m.keys ==> IsListed(m, id);
  }

  lemma StoredIsFound(c: Crypto, st: Storage, id: KeyId, ref: Ref, root: Root)
    requires IsStored(c, st, id, ref, root)
    ensures RootOf(c, st, id, ref) == Some(root)
  {
  }

  ghost predicate TagsDiffer(c: Crypto) {
    forall root, x, y {:trigger c.mac(root, x), c.mac(root, y)} :: c.mac(root, x) == c.mac(root, y) ==> x == y
  }

  /**
   * With authentic tags a manifest cannot be altered and keep its binding: neither its
   * scope id, nor a feature, nor a key with its epoch.
   */
  lemma BindingFixesTheManifest(c: Crypto, scope: string, st: Storage, m: Manifest, other: string, st': Storage, m': Manifest)
    requires TagsDiffer(c) && Opens(c, scope, st) && st.manifest == Some(m) && Opens(c, other, st') && st'.manifest == Some(m')
    requires m'.binding == m.binding && Roots(c, st')[m'.activeKeyId] == Roots(c, st)[m.activeKeyId]
    ensures scope == other && m'.scopeId == m.scopeId && m'.features == m.features
    ensures HasV3(m) ==> m'.keys.Keys == m.keys.Keys && forall id :: id in m.keys ==> m'.keys[id].epoch == m.keys[id].epoch
  {
    hide RootOf;
    OpeningMeans(c, scope, st, m, m.activeKeyId);
    OpeningMeans(c, other, st', m', m'.activeKeyId);
    assert BindingOf(scope, m.scopeId, m.features, Epochs(m)) == BindingOf(other, m'.scopeId, m'.features, Epochs(m'));
    if HasV3(m) {
      SameEpochs(m, m');
    }
  }

  lemma SameEpochs(m: Manifest, m': Manifest)
    requires ManifestLoads(m) && ManifestLoads(m') && HasV3(m) && HasV3(m') && Epochs(m) == Epochs(m')
    ensures m'.keys.Keys == m.keys.Keys && forall id :: id in m.keys ==> m'.keys[id].epoch == m.keys[id].epoch
  {
    forall id ensures id in m.keys <==> id in m'.keys {
      assert id in m.keys ==> EntryLoads(m, m.keys[id]) && id in Epochs(m);
      assert id in m'.keys ==> EntryLoads(m', m'.keys[id]) && id in Epochs(m');
    }
    forall id | id in m.keys ensures m'.keys[id].epoch == m.keys[id].epoch {
      assert EntryLoads(m, m.keys[id]) && EntryLoads(m', m'.keys[id]);
      assert Epochs(m)[id] == Epochs(m')[id];
    }
  }

  /** Nor can the descriptor of a listed key be altered and keep its tag. */
  lemma DescriptorCannotBeAltered(c: Crypto, scope: string, st: Storage, m: Manifest, id: KeyId, altered: Descriptor)
    requires TagsDiffer(c) && Opens(c, scope, st) && st.manifest == Some(m) && id in m.keys && m.keys[id].ref.Custody?
    requires m.keys[id].ref.reference in st.descriptors
    requires var r := m.keys[id].ref.reference; Opens(c, scope, st.(descriptors := st.descriptors[r := Stored(altered, st.descriptors[r].tag)]))
    ensures altered == st.descriptors[m.keys[id].ref.reference].descriptor
  {
    hide OpensWith;
    var r := m.keys[id].ref.reference;
    var st' := st.(descriptors := st.descriptors[r := Stored(altered, st.descriptors[r].tag)]);
    RootsComeFrom(c, scope, st, m, id);
    RootsComeFrom(c, scope, st', m, id);
  }

  // ---- when an operation writes ----

  lemma CreateWritesWhen(c: Crypto, scope: string, st: Storage, root: Root, scopeId: string)
    ensures CreatePlan(c, scope, st, root, scopeId) != [] <==> st.manifest == None && Named(c.keyId(root)) !in st.files
  {
  }

  lemma EnableWritesWhen(c: Crypto, scope: string, st: Storage, m: Manifest, feature: Feature)
    requires Opens(c, scope, st) && st.manifest == Some(m)
    ensures Plan(c, scope, st, EnableFeature(feature)) != [] <==>
      feature !in m.features && (feature == RecordEnvelopeV3 ==> m.rotation == None && forall id :: id in m.keys ==> id == m.activeKeyId)
  {
    if forall id :: id in m.keys ==> id == m.activeKeyId {
      assert m.keys.Keys == {m.activeKeyId};
    }
  }

  lemma BeginWritesWhen(c: Crypto, scope: string, st: Storage, m: Manifest, root: Root, reference: Reference)
    requires Opens(c, scope, st) && st.manifest == Some(m)
    ensures Plan(c, scope, st, BeginRotation(root, reference)) != [] <==>
      m.rotation == None && c.keyId(root) !in m.keys && !(m.keys[m.activeKeyId].ref.KeyFile? && Named(c.keyId(root)) in st.files)
  {
  }

  lemma RotationWritesWhen(c: Crypto, scope: string, st: Storage, m: Manifest)
    requires Opens(c, scope, st) && st.manifest == Some(m)
    ensures Plan(c, scope, st, MarkVerified) != [] <==> m.rotation.Some? && m.rotation.value.state == Migrating
    ensures Plan(c, scope, st, RetirePrevious) != [] <==>
      m.rotation.Some? && m.rotation.value.state == Verified && m.rotation.value.from in m.keys
  {
  }

  lemma PrepareWritesWhen(c: Crypto, scope: string, st: Storage, m: Manifest, provider: Provider, reference: Reference, helper: string)
    requires Opens(c, scope, st) && st.manifest == Some(m)
    ensures Plan(c, scope, st, PrepareCustody(provider, reference, helper)) != [] <==>
      RecordEnvelopeV3 in m.features && m.rotation == None && m.keys[m.activeKeyId].ref.KeyFile?
  {
  }

  /**
   * The one prepared item: in the native store under the active key's id, with its own
   * tag, and deriving the same keys as `root`.
   */
  ghost predicate OneReady(c: Crypto, scope: string, st: Storage, m: Manifest, root: Root, r: Reference)
    requires m.activeKeyId in m.keys && m.keys[m.activeKeyId].epoch.Some?
  {
    && (forall x :: (x in st.descriptors && st.descriptors[x].descriptor.keyId == m.activeKeyId
                     && st.descriptors[x].descriptor.state in {Prepared, VerifiedCustody}) <==> x == r)
    && r in st.descriptors
    && var d := st.descriptors[r].descriptor;
      && d.reference in st.native && c.keyId(st.native[d.reference]) == m.activeKeyId
      && st.descriptors[r].tag == c.mac(st.native[d.reference], DescriptorOf(d))
      && forall purpose: Purpose ::
           var domain := Domain(scope, m.scopeId, m.keys[m.activeKeyId].epoch.value, purpose);
           c.derive(st.native[d.reference], domain) == c.derive(root, domain)
  }

  lemma ActivateWritesWhen(c: Crypto, scope: string, st: Storage, m: Manifest, process: Process)
    requires Opens(c, scope, st) && st.manifest == Some(m)
    ensures Plan(c, scope, st, ActivateCustody(process)) != [] <==>
      RecordEnvelopeV3 in m.features && m.keys[m.activeKeyId].ref.KeyFile?
      && exists r :: OneReady(c, scope, st, m, Roots(c, st)[m.activeKeyId], r)
  {
    var root := ActiveRoot(c, st, m).value;
    assert EntryLoads(m, m.keys[m.activeKeyId]);
    RootsComeFrom(c, scope, st, m, m.activeKeyId);
    if HasV3(m) && m.keys[m.activeKeyId].ref.KeyFile? {
      forall r ensures CanActivate(c, scope, st, m, root, r) <==> OneReady(c, scope, st, m, root, r) {
        ReadyIs(c, scope, st, m, root, r);
      }
    }
  }

  lemma PreparedStates(st: Storage, m: Manifest, x: Reference)
    ensures IsPrepared(st, m.activeKeyId, x) <==>
      x in st.descriptors && st.descriptors[x].descriptor.keyId == m.activeKeyId && st.descriptors[x].descriptor.state in {Prepared, VerifiedCustody}
  {
  }

  lemma OnlyPreparedIs(st: Storage, m: Manifest, r: Reference)
    ensures OnlyPrepared(st, m.activeKeyId, r) <==>
      forall x :: (x in st.descriptors && st.descriptors[x].descriptor.keyId == m.activeKeyId
                   && st.descriptors[x].descriptor.state in {Prepared, VerifiedCustody}) <==> x == r
  {
    forall x ensures IsPrepared(st, m.activeKeyId, x) <==>
      x in st.descriptors && st.descriptors[x].descriptor.keyId == m.activeKeyId && st.descriptors[x].descriptor.state in {Prepared, VerifiedCustody} {
      PreparedStates(st, m, x);
    }
  }

  lemma ReadyIs(c: Crypto, scope: string, st: Storage, m: Manifest, root: Root, r: Reference)
    requires HasV3(m) && m.activeKeyId in m.keys && m.keys[m.activeKeyId].epoch.Some? && m.keys[m.activeKeyId].ref.KeyFile?
    ensures CanActivate(c, scope, st, m, root, r) <==> OneReady(c, scope, st, m, root, r)
  {
    hide OnlyPrepared;
    OnlyPreparedIs(st, m, r);
  }

  /** In a healthy profile the comparison of derived keys never fails: the prepared item holds the file's root. */
  lemma ComparisonNeverFails(c: Crypto, scope: string, st: Storage, m: Manifest, r: Reference)
    requires Healthy(c, scope, st) && st.manifest == Some(m) && IsPrepared(st, m.activeKeyId, r) && r in st.native
    ensures st.descriptors[r].descriptor.reference == r && st.native[r] == Roots(c, st)[m.activeKeyId]
    ensures HasV3(m) ==> DerivesAlike(c, scope, m, st.native[r], Roots(c, st)[m.activeKeyId])
  {
    assert EntryLoads(m, m.keys[m.activeKeyId]);
  }

  // ---- removing the raw root ----

  /**
   * While custody is verified but not yet active, the raw root may be removed exactly
   * when an activation receipt for this item is stored that its own root authenticates
   * and that another process wrote.
   */
  lemma RemovalNeedsAnotherProcess(c: Crypto, scope: string, st: Storage, m: Manifest, reference: Reference, process: Process)
    requires Opens(c, scope, st) && st.manifest == Some(m) && m.keys[m.activeKeyId].ref.Custody?
    requires reference == m.keys[m.activeKeyId].ref.reference
    requires reference in st.descriptors && st.descriptors[reference].descriptor.state == VerifiedCustody
    ensures Plan(c, scope, st, RetireFileCustody(process)) != [] <==>
      && st.receipt.Some? && st.receipt.value.reference == reference
      && st.receipt.value.tag == c.mac(Roots(c, st)[m.activeKeyId], ActivationOf(reference, st.receipt.value.process))
      && st.receipt.value.process != process
  {
    RootsComeFrom(c, scope, st, m, m.activeKeyId);
  }

  /** Once custody is active, exactly when the file is still there and holds the key. */
  lemma RemovalOnceActive(c: Crypto, scope: string, st: Storage, m: Manifest, reference: Reference, process: Process)
    requires Opens(c, scope, st) && st.manifest == Some(m) && m.keys[m.activeKeyId].ref.Custody?
    requires reference == m.keys[m.activeKeyId].ref.reference
    requires reference in st.descriptors && st.descriptors[reference].descriptor.state == ActiveCustody
    ensures Plan(c, scope, st, RetireFileCustody(process)) != [] <==>
      Named(m.activeKeyId) in st.files && c.keyId(st.files[Named(m.activeKeyId)]) == m.activeKeyId
  {
  }

  lemma NoRemovalOfAFileKey(c: Crypto, scope: string, st: Storage, m: Manifest, process: Process)
    requires Opens(c, scope, st) && st.manifest == Some(m) && m.keys[m.activeKeyId].ref.KeyFile?
    ensures Plan(c, scope, st, RetireFileCustody(process)) == []
  {
  }
}
