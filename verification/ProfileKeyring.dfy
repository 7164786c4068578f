/** The keyring object: its manifest, loaded keys and derived-key cache change along with the storage. */
module ProfileKeyring {
  import opened Outcomes
  import opened KeyStorage
  import opened KeyringPlans
  import opened KeyringSafety
  import opened KeyringSteps
  import opened KeyringRuns
  import opened RecordShield
  import opened KeyringMemory

  class Disk {
    var storage: Storage
    ghost var trace: seq<Storage>   // every state the storage has been in

    constructor (storage: Storage)
      ensures this.storage == storage && trace == [storage]
    {
      this.storage := storage;
      trace := [storage];
    }

    /** One atomic durable step. */
    method Write(w: Write)
      modifies this
      ensures storage == Perform(old(storage), w) && trace == old(trace) + [storage]
    {
      storage := Perform(storage, w);
      trace := trace + [storage];
    }

    /** Several steps, one after the other. */
    method WriteAll(ws: seq<Write>)
      modifies this
      ensures storage == After(old(storage), ws, |ws|) && Performs(old(storage), old(trace), ws, storage, trace)
    {
      PerformsNothing(storage, trace);
      for i := 0 to |ws|
        invariant Performs(old(storage), old(trace), ws[..i], storage, trace)
      {
        PerformsOneMore(old(storage), old(trace), ws[..i], storage, trace, ws[i]);
        assert ws[..i + 1] == ws[..i] + [ws[i]];
        Write(ws[i]);
      }
      assert ws[..|ws|] == ws;
    }
  }

  class Keyring {
    const c: Crypto
    const scope: string
    const disk: Disk
    var manifest: Manifest
    var keys: map<KeyId, Material>
    var derivedKeys: map<CacheKey, SubKey>

    ghost predicate Valid()
      reads this, disk
    {
      Opened(c, scope, disk.storage, manifest, keys, derivedKeys)
    }

    /** What opening gives: the manifest and keys of the storage and no derived keys; it is valid when the storage is healthy. */
    constructor (c: Crypto, scope: string, disk: Disk)
      requires Opens(c, scope, disk.storage)
      ensures this.c == c && this.scope == scope && this.disk == disk && derivedKeys == map[]
      ensures IsOpen(c, scope, disk.storage, manifest, keys, derivedKeys)
      ensures Healthy(c, scope, disk.storage) ==> Valid()
    {
      var st, m := disk.storage, disk.storage.manifest.value;
      this.c, this.scope, this.disk, manifest, derivedKeys := c, scope, disk, m, map[];
      keys := map id | id in m.keys && RootOf(c, st, id, m.keys[id].ref).Some? :: LoadedMaterial(c, st, id, m.keys[id].ref);
      LoadingLoads(c, scope, st, m);
    }

    /**
     * Creating a profile where there is no manifest; key files and descriptors left
     * behind are not used. It is valid when no descriptors were left.
     */
    constructor Create(c: Crypto, scope: string, disk: Disk, root: Root, scopeId: string)
      requires disk.storage.manifest == None && Named(c.keyId(root)) !in disk.storage.files
      modifies disk
      ensures this.c == c && this.scope == scope && this.disk == disk && manifest == FirstManifest(c, scope, root, scopeId)
      ensures IsOpen(c, scope, disk.storage, manifest, keys, derivedKeys) && Opens(c, scope, disk.storage)
      ensures IsUnborn(old(disk.storage)) ==> Valid()
      ensures Performs(old(disk.storage), old(disk.trace), CreatePlan(c, scope, old(disk.storage), root, scopeId), disk.storage, disk.trace)
    {
      this.c, this.scope, this.disk := c, scope, disk;
      manifest, derivedKeys := FirstManifest(c, scope, root, scopeId), map[];
      keys := map[c.keyId(root) := FileKey(root)];
      new;
      CreatedIsOpen(c, scope, disk.storage, root, scopeId);
      if IsUnborn(disk.storage) {
        CreateIsSafe(c, scope, disk.storage, root, scopeId, 2);
      }
      disk.WriteAll(CreatePlan(c, scope, disk.storage, root, scopeId));
    }

    /** The key for an envelope; whether it comes from the cache or is derived now makes no difference. */
    method EnvelopeKey(id: KeyId, purpose: Purpose, version: Version) returns (key: Option<CipherKey>)
      requires Valid()
      modifies this`derivedKeys
      ensures Valid()
      ensures version == V2 ==>
        key == if id in manifest.keys && manifest.keys[id].ref.KeyFile? then Some(RootKey(Roots(c, disk.storage)[id])) else None
      ensures version == V3 ==>
        key == if id !in manifest.keys || manifest.keys[id].epoch.None? then None
               else Some(Derived(c.derive(Roots(c, disk.storage)[id], Domain(scope, manifest.scopeId, manifest.keys[id].epoch.value, purpose))))
      ensures key == KeyForEnvelope(c, scope, LookupIn(c, disk.storage), manifest, id, purpose, version)
      ensures forall k :: k in old(derivedKeys) ==> k in derivedKeys && derivedKeys[k] == old(derivedKeys)[k]
    {
      hide OpensWith, Opens;
      UnderivedKey(c, scope, disk.storage, manifest, keys, id, purpose, version);
      if id in keys {
        assert MaterialAgrees(c, disk.storage, id, manifest.keys[id].ref, keys[id]);
        EnvelopeKeyIs(c, scope, LookupIn(c, disk.storage), manifest, id, purpose, Roots(c, disk.storage)[id]);
      }
      if id !in keys {
        return None;
      }
      if version == V2 {
        return if keys[id].FileKey? then Some(RootKey(keys[id].root)) else None;
      }
      if manifest.keys[id].epoch.None? {
        return None;
      }
      key := DeriveOrRecall(id, purpose, manifest.keys[id].epoch.value);
    }

    method DeriveOrRecall(id: KeyId, purpose: Purpose, epoch: int) returns (key: Option<CipherKey>)
      requires Valid() && id in keys && manifest.keys[id].epoch == Some(epoch)
      modifies this`derivedKeys
      ensures Valid()
      ensures key == KeyForEnvelope(c, scope, LookupIn(c, disk.storage), manifest, id, purpose, V3)
      ensures forall k :: k in old(derivedKeys) ==> k in derivedKeys && derivedKeys[k] == old(derivedKeys)[k]
    {
      hide Shape;
      assert MaterialAgrees(c, disk.storage, id, manifest.keys[id].ref, keys[id]);
      var root := RootBehind(disk.storage, manifest.keys[id].ref, keys[id]).value;
      DerivedKeyAgrees(c, scope, disk.storage, manifest, keys, derivedKeys, id, purpose, epoch, root);
      if (id, purpose, epoch) in derivedKeys {
        return Some(Derived(derivedKeys[(id, purpose, epoch)]));
      }
      derivedKeys := derivedKeys[(id, purpose, epoch) := DerivedKey(c, scope, manifest, root, epoch, purpose)];
      return Some(Derived(derivedKeys[(id, purpose, epoch)]));
    }

    /** The writes of an operation and what memory holds after them. */
    method Commit(ws: seq<Write>, next: Manifest, newKeys: map<KeyId, Material>, newCache: map<CacheKey, SubKey>)
      requires Opened(c, scope, After(disk.storage, ws, |ws|), next, newKeys, newCache)
      modifies this, disk
      ensures Valid() && manifest == next && keys == newKeys && derivedKeys == newCache
      ensures disk.storage == After(old(disk.storage), ws, |ws|)
      ensures Performs(old(disk.storage), old(disk.trace), ws, disk.storage, disk.trace)
    {
      disk.WriteAll(ws);
      manifest, keys, derivedKeys := next, newKeys, newCache;
    }

    method MarkRotationVerified() returns (marked: bool)
      requires Valid()
      modifies this, disk
      ensures Valid() && Performs(old(disk.storage), old(disk.trace), Plan(c, scope, old(disk.storage), MarkVerified), disk.storage, disk.trace)
      ensures marked <==> old(manifest).rotation.Some? && old(manifest).rotation.value.state == Migrating
    {
      PerformsNothing(disk.storage, disk.trace);
      if manifest.rotation.None? || manifest.rotation.value.state != Migrating {
        return false;
      }
      var next := manifest.(rotation := Some(manifest.rotation.value.(state := Verified)));
      MarkingStaysOpen(c, scope, disk.storage, manifest, keys, derivedKeys);
      MarkingStaysHealthy(c, scope, disk.storage, PutManifest(next));
      FirstWrites(disk.storage, [PutManifest(next)]);
      Commit([PutManifest(next)], next, keys, derivedKeys);
      return true;
    }

    /** The active root, from its file or from the native store. */
    method ActiveRootNow() returns (root: Root)
      requires Valid()
      ensures root == Roots(c, disk.storage)[manifest.activeKeyId] && ActiveRoot(c, disk.storage, manifest) == Some(root)
    {
      var ref := ActiveEntry(manifest).ref;
      assert MaterialAgrees(c, disk.storage, manifest.activeKeyId, ref, keys[manifest.activeKeyId]);
      RootBehindIsRecovered(c, disk.storage, manifest.activeKeyId, ref, keys[manifest.activeKeyId]);
      root := RootBehind(disk.storage, ref, keys[manifest.activeKeyId]).value;
    }

    method EnableProfileFeature(feature: Feature) returns (enabled: bool)
      requires Valid()
      modifies this, disk
      ensures Valid()
      ensures Performs(old(disk.storage), old(disk.trace), Plan(c, scope, old(disk.storage), EnableFeature(feature)), disk.storage, disk.trace)
      ensures enabled ==> manifest.features == old(manifest).features + {feature}
      ensures !enabled ==> manifest == old(manifest)
    {
      PerformsNothing(disk.storage, disk.trace);
      var root := ActiveRootNow();
      var next := if feature == RecordEnvelopeV3 then WithEpochOne(manifest) else manifest.(features := manifest.features + {feature});
      if feature in manifest.features
        || (feature == RecordEnvelopeV3 && (manifest.rotation.Some? || manifest.keys.Keys != {manifest.activeKeyId})) {
        return false;
      }
      next := Bound(c, scope, root, next);
      EnablingIsPublishable(c, scope, disk.storage, manifest, keys, derivedKeys, root, feature, next);
      FirstWrites(disk.storage, [PutManifest(next)]);
      Commit([PutManifest(next)], next, keys, derivedKeys);
      return true;
    }

    /** Imports a root and then writes the descriptor that names it. */
    method WriteCustody(d: Descriptor, root: Root)
      requires Valid() && d.reference !in disk.storage.descriptors
      requires d.keyId in manifest.keys ==> Roots(c, disk.storage)[d.keyId] == root
      modifies this, disk
      ensures Valid() && manifest == old(manifest) && keys == old(keys) && derivedKeys == old(derivedKeys)
      ensures Performs(old(disk.storage), old(disk.trace), CustodyWrites(c, d, root), disk.storage, disk.trace)
    {
      NewCustodyStaysOpened(c, scope, disk.storage, manifest, keys, derivedKeys, d, root);
      Commit(CustodyWrites(c, d, root), manifest, keys, derivedKeys);
    }

    method LargestListedEpoch() returns (largest: int)
      requires Valid() && HasV3(manifest)
      ensures IsLargestEpoch(manifest, largest)
    {
      hide Shape, BindingTag, Loaded;
      var remaining := manifest.keys.Keys;
      largest := 0;
      while remaining != {}
        invariant remaining <= manifest.keys.Keys
        invariant forall id :: id in manifest.keys && id !in remaining ==> manifest.keys[id].epoch.value <= largest
        invariant largest > 0 ==> exists id :: id in manifest.keys && manifest.keys[id].epoch == Some(largest)
        invariant largest == 0 ==> remaining == manifest.keys.Keys
        invariant largest >= 0
        decreases |remaining|
      {
        var id :| id in remaining;
        assert EntryLoads(manifest, manifest.keys[id]);
        var epoch := manifest.keys[id].epoch.value;
        if epoch > largest {
          largest := epoch;
        }
        remaining := remaining - {id};
      }
    }

    /** The second half of a rotation: the manifest that makes the stored root the active one. */
    method PublishRotation(source: Ref, root: Root, reference: Reference, material: Material, ghost st: Storage) returns (begun: bool)
      requires Valid() && RotationPending(c, scope, st, manifest, source, root, reference)
      requires disk.storage == After(st, StoreRoot(c, st, source, root, reference), |StoreRoot(c, st, source, root, reference)|)
      requires material == NewMaterial(c, st, source, root, reference)
      modifies this, disk
      ensures Valid()
      ensures Performs(old(disk.storage), old(disk.trace),
                       BeginTail(c, scope, old(manifest), root, TargetRef(source, c.keyId(root), reference), LargestEpoch(old(manifest))),
                       disk.storage, disk.trace)
      ensures begun ==> manifest.activeKeyId == c.keyId(root) && derivedKeys == map[]
      ensures !begun ==> manifest == old(manifest) && keys == old(keys) && derivedKeys == old(derivedKeys)
    {
      var ref := TargetRef(source, c.keyId(root), reference);
      var largest := 0;
      if HasV3(manifest) {
        largest := LargestListedEpoch();
        LargestIsUnique(manifest, largest);
      }
      TailIgnoresLargest(c, scope, manifest, root, ref, largest);
      PerformsNothing(disk.storage, disk.trace);
      if HasV3(manifest) && largest >= LAST_EPOCH {
        return false;
      }
      var next := RotatedManifest(c, scope, manifest, root, ref, EpochAfter(manifest, largest));
      RotationStaysOpened(c, scope, st, manifest, keys, source, root, reference, largest);
      Commit([PutManifest(next)], next, keys[c.keyId(root) := material], map[]);
      return true;
    }

    /** Draws roots until one has a new id; `draws` and `reference` are the random values that come. */
    method BeginRotation(draws: seq<Root>, reference: Reference) returns (begun: bool)
      requires Valid() && exists root :: root in draws && c.keyId(root) !in manifest.keys
      requires Fresh(c, disk.storage, KeyringPlans.BeginRotation(FirstNew(c, manifest, draws), reference))
      modifies this, disk
      ensures Valid()
      ensures Performs(old(disk.storage), old(disk.trace),
                       Plan(c, scope, old(disk.storage), KeyringPlans.BeginRotation(FirstNew(c, old(manifest), draws), reference)),
                       disk.storage, disk.trace)
      ensures begun ==> manifest.activeKeyId == c.keyId(FirstNew(c, old(manifest), draws)) && derivedKeys == map[]
      ensures !begun ==> manifest == old(manifest) && keys == old(keys) && derivedKeys == old(derivedKeys)
    {
      if manifest.rotation.Some? {
        PerformsNothing(disk.storage, disk.trace);
        return false;
      }
      var i := 0;
      while c.keyId(draws[i]) in manifest.keys
        invariant i < |draws| && exists root :: root in draws[i..] && c.keyId(root) !in manifest.keys
        invariant FirstNew(c, manifest, draws[i..]) == FirstNew(c, manifest, draws)
        decreases |draws| - i
      {
        i := i + 1;
      }
      begun := RotateTo(draws[i], reference);
    }

    /** A rotation to a root whose id is new. */
    method RotateTo(root: Root, reference: Reference) returns (begun: bool)
      requires Valid() && Fresh(c, disk.storage, KeyringPlans.BeginRotation(root, reference)) && c.keyId(root) !in manifest.keys
      modifies this, disk
      ensures Valid()
      ensures Performs(old(disk.storage), old(disk.trace),
                       BeginPlan(c, scope, old(disk.storage), old(manifest), root, reference, LargestEpoch(old(manifest))),
                       disk.storage, disk.trace)
      ensures begun ==> manifest.activeKeyId == c.keyId(root) && derivedKeys == map[]
      ensures !begun ==> manifest == old(manifest) && keys == old(keys) && derivedKeys == old(derivedKeys)
    {
      var source := ActiveEntry(manifest).ref;
      if manifest.rotation.Some? || (source.KeyFile? && Named(c.keyId(root)) in disk.storage.files) {
        PerformsNothing(disk.storage, disk.trace);
        return false;
      }
      ghost var st, trace := disk.storage, disk.trace;
      ghost var tail := BeginTail(c, scope, manifest, root, TargetRef(source, c.keyId(root), reference), LargestEpoch(manifest));
      var material, stored := NewMaterial(c, disk.storage, source, root, reference), StoreRoot(c, disk.storage, source, root, reference);
      StoringStaysOpened(c, scope, st, manifest, keys, derivedKeys, source, root, reference);
      Commit(stored, manifest, keys, derivedKeys);
      ghost var mid, trace' := disk.storage, disk.trace;
      begun := PublishRotation(source, root, reference, material, st);
      PerformsBoth(st, trace, stored, mid, trace', tail, disk.storage, disk.trace);
    }

    /** Drops the rotated key from the manifest and memory, and then its files. */
    method RetirePreviousKey() returns (retired: bool)
      requires Valid()
      modifies this, disk
      ensures Valid()
      ensures Performs(old(disk.storage), old(disk.trace), Plan(c, scope, old(disk.storage), RetirePrevious), disk.storage, disk.trace)
      ensures retired <==> old(manifest).rotation.Some? && old(manifest).rotation.value.state == Verified
      ensures retired ==> keys == old(keys) - {old(manifest).rotation.value.from}
                          && derivedKeys == Without(old(derivedKeys), {old(manifest).rotation.value.from})
      ensures !retired ==> manifest == old(manifest) && keys == old(keys) && derivedKeys == old(derivedKeys)
    {
      if manifest.rotation.None? || manifest.rotation.value.state != Verified {
        PerformsNothing(disk.storage, disk.trace);
        return false;
      }
      var root := ActiveRootNow();
      var from := manifest.rotation.value.from;
      RetiringStaysOpened(c, scope, disk.storage, manifest, keys, derivedKeys, root, from);
      Commit(RetirePlan(c, scope, manifest, root), RetiredManifest(c, scope, manifest, root, from), keys - {from}, Without(derivedKeys, {from}));
      return true;
    }

    method PrepareCustodyMigration(provider: Provider, reference: Reference, helper: string) returns (prepared: bool)
      requires Valid() && Fresh(c, disk.storage, PrepareCustody(provider, reference, helper))
      modifies this, disk
      ensures Valid() && manifest == old(manifest) && keys == old(keys) && derivedKeys == old(derivedKeys)
      ensures Performs(old(disk.storage), old(disk.trace), Plan(c, scope, old(disk.storage), PrepareCustody(provider, reference, helper)),
                       disk.storage, disk.trace)
      ensures prepared <==> HasV3(manifest) && manifest.rotation == None && ActiveEntry(manifest).ref.KeyFile?
    {
      if !HasV3(manifest) || manifest.rotation.Some? || ActiveEntry(manifest).ref.Custody? {
        PerformsNothing(disk.storage, disk.trace);
        return false;
      }
      var root := ActiveRootNow();
      WriteCustody(Descriptor(provider, reference, manifest.activeKeyId, helper, Prepared), root);
      return true;
    }

    /** The one descriptor that is prepared for the active key, unless there is none or more than one. */
    method PreparedDescriptor() returns (found: Option<Reference>)
      requires Valid()
      ensures found.Some? ==> OnlyPrepared(disk.storage, manifest.activeKeyId, found.value)
      ensures found.None? ==> forall r :: !OnlyPrepared(disk.storage, manifest.activeKeyId, r)
    {
      var st, id := disk.storage, manifest.activeKeyId;
      var candidates := set r | r in st.descriptors && IsPrepared(st, id, r);
      if |candidates| != 1 {
        forall r ensures !OnlyPrepared(st, id, r) {
          OnlyOneMeansOne(st, id, r, candidates);
        }
        return None;
      }
      var r :| r in candidates;
      forall other | IsPrepared(st, id, other) ensures other == r {
        TwoOfOne(candidates, r, other);
      }
      return Some(r);
    }

    /** Switches the active key to its verified native item and clears the derived keys. */
    method ActivateCustodyMigration(process: Process) returns (activated: bool)
      requires Valid()
      modifies this, disk
      ensures Valid()
      ensures Performs(old(disk.storage), old(disk.trace), Plan(c, scope, old(disk.storage), ActivateCustody(process)), disk.storage, disk.trace)
      ensures activated ==> keys[manifest.activeKeyId].Opaque? && derivedKeys == map[]
      ensures !activated ==> manifest == old(manifest) && keys == old(keys) && derivedKeys == old(derivedKeys)
    {
      hide Shape, CustodyAgrees, CacheAgrees, Loaded, MayActivate;
      var root := ActiveRootNow();
      var found := PreparedDescriptor();
      NoOtherActivation(c, scope, disk.storage, manifest, root, process, found);
      if found.None? || !MayActivate(c, scope, disk.storage, manifest, root, found.value) {
        PerformsNothing(disk.storage, disk.trace);
        return false;
      }
      ActivationIsPlanned(c, scope, disk.storage, manifest, root, found.value, process);
      SwitchToNative(disk.storage.descriptors[found.value].descriptor, root, process);
      return true;
    }

    /** The writes of an activation and the opaque key in memory. */
    method SwitchToNative(d: Descriptor, root: Root, process: Process)
      requires Valid() && root == Roots(c, disk.storage)[manifest.activeKeyId] && ReadyToActivate(c, disk.storage, root, d)
      modifies this, disk
      ensures Valid() && keys[manifest.activeKeyId].Opaque? && derivedKeys == map[]
      ensures Performs(old(disk.storage), old(disk.trace), CheckWrites(c, root, d, process) + [PutManifest(OpaqueManifest(old(manifest), d))],
                       disk.storage, disk.trace)
    {
      ActivatingStaysOpened(c, scope, disk.storage, manifest, keys, root, d, process);
      Commit(CheckWrites(c, root, d, process) + [PutManifest(OpaqueManifest(manifest, d))],
             OpaqueManifest(manifest, d), keys[manifest.activeKeyId := Opaque(d.(state := VerifiedCustody))], map[]);
    }

    /** Removes the raw root of a key in opaque custody; a verified one only in another process than activated it. */
    method RetireFileCustody(process: Process) returns (removed: bool)
      requires Valid()
      modifies this, disk
      ensures Valid()
      ensures Performs(old(disk.storage), old(disk.trace), Plan(c, scope, old(disk.storage), KeyringPlans.RetireFileCustody(process)),
                       disk.storage, disk.trace)
      ensures removed <==> Named(old(manifest).activeKeyId) in old(disk.storage).files && Named(old(manifest).activeKeyId) !in disk.storage.files
      ensures removed ==> Named(manifest.activeKeyId) in old(disk.storage).files && manifest == old(manifest) && keys[manifest.activeKeyId].Opaque?
                          && keys[manifest.activeKeyId].descriptor.state == ActiveCustody
    {
      hide Shape, CustodyAgrees, CacheAgrees, BindingTag, Recovered;
      var root := ActiveRootNow();
      var id := manifest.activeKeyId;
      assert MaterialAgrees(c, disk.storage, id, ActiveEntry(manifest).ref, keys[id]);
      if keys[id].FileKey? {
        PerformsNothing(disk.storage, disk.trace);
        return false;
      }
      var d := keys[id].descriptor;
      if d.state == VerifiedCustody && !ReceiptAllows(c, disk.storage, root, d.reference, process) {
        PerformsNothing(disk.storage, disk.trace);
        return false;
      }
      removed := Named(id) in disk.storage.files && c.keyId(disk.storage.files[Named(id)]) == id;
      RetiringFileStaysOpened(c, scope, disk.storage, manifest, keys, derivedKeys, root, process);
      FileAfterRetirement(c, disk.storage, manifest, root, process);
      Commit(RetireFilePlan(c, disk.storage, manifest, root, process), manifest, keys[id := Opaque(d.(state := ActiveCustody))], derivedKeys);
    }
  }

  /** The plan removes the raw file exactly when it holds the key. */
  lemma FileAfterRetirement(c: Crypto, st: Storage, m: Manifest, root: Root, process: Process)
    requires m.activeKeyId in m.keys && ActiveEntry(m).ref.Custody? && ActiveEntry(m).ref.reference in st.descriptors
    requires var d := st.descriptors[ActiveEntry(m).ref.reference].descriptor;
      d.state == VerifiedCustody ==> ReceiptAllows(c, st, root, d.reference, process)
    ensures var ws, name := RetireFilePlan(c, st, m, root, process), Named(m.activeKeyId);
      name in After(st, ws, |ws|).files <==> name in st.files && c.keyId(st.files[name]) != m.activeKeyId
  {
    FirstWrites(st, RetireFilePlan(c, st, m, root, process));
  }

  lemma ActivatedCopyAgrees(c: Crypto, scope: string, st: Storage, m: Manifest, root: Root, r: Reference)
    requires OpensWith(c, scope, LookupIn(c, st), m) && LookupIn(c, st)(m.activeKeyId, ActiveEntry(m).ref) == Some(root)
    requires ActiveEntry(m).ref.Custody? && ActiveEntry(m).ref.reference == r
    ensures r in st.descriptors
    ensures Agree(LookupIn(c, st), LookupIn(c, Perform(st, PutDescriptor(r, ActivatedCopy(c, root, st.descriptors[r].descriptor)))), m)
  {
    OthersUseOtherItems(c, scope, st, m, st.descriptors[r].descriptor);
    forall id | id in m.keys
      ensures LookupIn(c, st)(id, m.keys[id].ref)
           == LookupIn(c, Perform(st, PutDescriptor(r, ActivatedCopy(c, root, st.descriptors[r].descriptor))))(id, m.keys[id].ref)
    {
      ActivatedCopyLeads(c, st, root, id, m.keys[id].ref, r);
    }
  }

  /** A descriptor's new state is in memory for the one key that it is of. */
  lemma ActivatedMaterial(c: Crypto, st: Storage, id: KeyId, ref: Ref, material: Material, root: Root, r: Reference)
    requires MaterialAgrees(c, st, id, ref, material) && r in st.descriptors
    requires var after := Perform(st, PutDescriptor(r, ActivatedCopy(c, root, st.descriptors[r].descriptor)));
      RootOf(c, after, id, ref) == RootOf(c, st, id, ref)
    ensures var d := st.descriptors[r].descriptor;
      MaterialAgrees(c, Perform(st, PutDescriptor(r, ActivatedCopy(c, root, d))), id, ref,
                     if ref.Custody? && ref.reference == r then Opaque(d.(state := ActiveCustody)) else material)
  {
    hide RootOf;
  }

  lemma ActivatedStaysLoaded(c: Crypto, st: Storage, m: Manifest, keys: map<KeyId, Material>, root: Root, r: Reference)
    requires Loaded(c, st, m, keys) && r in st.descriptors && m.activeKeyId in m.keys
    requires Agree(LookupIn(c, st), LookupIn(c, Perform(st, PutDescriptor(r, ActivatedCopy(c, root, st.descriptors[r].descriptor)))), m)
    requires forall id :: id in m.keys && m.keys[id].ref.Custody? ==> (m.keys[id].ref.reference == r <==> id == m.activeKeyId)
    requires ActiveEntry(m).ref.Custody?
    ensures var d := st.descriptors[r].descriptor;
      Loaded(c, Perform(st, PutDescriptor(r, ActivatedCopy(c, root, d))), m, keys[m.activeKeyId := Opaque(d.(state := ActiveCustody))])
  {
    hide RootOf, MaterialAgrees, ActivatedCopy, Perform;
    var d := st.descriptors[r].descriptor;
    var after, more := Perform(st, PutDescriptor(r, ActivatedCopy(c, root, d))), keys[m.activeKeyId := Opaque(d.(state := ActiveCustody))];
    forall id | id in m.keys ensures MaterialAgrees(c, after, id, m.keys[id].ref, more[id]) {
      assert LookupIn(c, st)(id, m.keys[id].ref) == LookupIn(c, after)(id, m.keys[id].ref);
      ActivatedMaterial(c, st, id, m.keys[id].ref, keys[id], root, r);
    }
  }

  lemma ActivatedStaysOpen(c: Crypto, scope: string, st: Storage, m: Manifest, keys: map<KeyId, Material>, cache: map<CacheKey, SubKey>, root: Root, r: Reference)
    requires IsOpen(c, scope, st, m, keys, cache) && Opens(c, scope, st) && root == Roots(c, st)[m.activeKeyId]
    requires ActiveEntry(m).ref.Custody? && ActiveEntry(m).ref.reference == r && r in st.descriptors
    ensures var d := st.descriptors[r].descriptor;
      IsOpen(c, scope, Perform(st, PutDescriptor(r, ActivatedCopy(c, root, d))), m, keys[m.activeKeyId := Opaque(d.(state := ActiveCustody))], cache)
  {
    hide CacheAgrees, Loaded, Agree, ActivatedCopy;
    var a := LookupIn(c, st);
    assert a(m.activeKeyId, ActiveEntry(m).ref) == Some(root);
    ActivatedCopyAgrees(c, scope, st, m, root, r);
    OthersUseOtherItems(c, scope, st, m, st.descriptors[r].descriptor);
    ActivatedStaysLoaded(c, st, m, keys, root, r);
    AgreeingLookups(c, scope, a, LookupIn(c, Perform(st, PutDescriptor(r, ActivatedCopy(c, root, st.descriptors[r].descriptor)))), m);
  }

  lemma RemovingStaysOpen(c: Crypto, scope: string, st: Storage, m: Manifest, keys: map<KeyId, Material>, cache: map<CacheKey, SubKey>, ws: seq<Write>)
    requires IsOpen(c, scope, st, m, keys, cache) && Shape(m) && ActiveEntry(m).ref.Custody? && |ws| <= 2
    requires |ws| >= 1 ==> ws[0] == UnlinkKeyFile(Named(m.activeKeyId))
    requires |ws| >= 2 ==> ws[1] == UnlinkReceipt
    ensures IsOpen(c, scope, After(st, ws, |ws|), m, keys, cache)
  {
    FirstWrites(st, ws);
    if |ws| >= 1 {
      UnusedWriteStaysOpen(c, scope, st, ws[0], m, keys, cache);
    }
    if |ws| == 2 {
      UnusedWriteStaysOpen(c, scope, Perform(st, ws[0]), ws[1], m, keys, cache);
    }
  }

  lemma ActivateDescriptorStaysOpen(c: Crypto, scope: string, st: Storage, m: Manifest, keys: map<KeyId, Material>, cache: map<CacheKey, SubKey>,
                                    root: Root, r: Reference)
    requires IsOpen(c, scope, st, m, keys, cache) && Opens(c, scope, st) && root == Roots(c, st)[m.activeKeyId]
    requires ActiveEntry(m).ref.Custody? && ActiveEntry(m).ref.reference == r && r in st.descriptors
    requires st.descriptors[r].descriptor.state != Prepared
    ensures var d, ws := st.descriptors[r].descriptor, ActivateDescriptor(c, st, root, r);
      IsOpen(c, scope, After(st, ws, |ws|), m, keys[m.activeKeyId := Opaque(d.(state := ActiveCustody))], cache)
  {
    hide BindingTag, CacheAgrees;
    var d, ws := st.descriptors[r].descriptor, ActivateDescriptor(c, st, root, r);
    FirstWrites(st, ws);
    if d.state == VerifiedCustody {
      ActivatedStaysOpen(c, scope, st, m, keys, cache, root, r);
    } else {
      assert MaterialAgrees(c, st, m.activeKeyId, ActiveEntry(m).ref, keys[m.activeKeyId]);
      assert keys[m.activeKeyId := Opaque(d.(state := ActiveCustody))] == keys;
    }
  }

  lemma RetiringFileStaysOpen(c: Crypto, scope: string, st: Storage, m: Manifest, keys: map<KeyId, Material>, cache: map<CacheKey, SubKey>, root: Root, r: Reference)
    requires IsOpen(c, scope, st, m, keys, cache) && Opens(c, scope, st) && Shape(m) && root == Roots(c, st)[m.activeKeyId]
    requires ActiveEntry(m).ref.Custody? && ActiveEntry(m).ref.reference == r && r in st.descriptors
    requires st.descriptors[r].descriptor.state != Prepared
    ensures var d := st.descriptors[r].descriptor;
      var ws := ActivateDescriptor(c, st, root, r) + RemoveFile(c, st, m.activeKeyId);
      IsOpen(c, scope, After(st, ws, |ws|), m, keys[m.activeKeyId := Opaque(d.(state := ActiveCustody))], cache)
  {
    hide CacheAgrees, Loaded, Recovered;
    var first, later := ActivateDescriptor(c, st, root, r), RemoveFile(c, st, m.activeKeyId);
    var more := keys[m.activeKeyId := Opaque(st.descriptors[r].descriptor.(state := ActiveCustody))];
    ActivateDescriptorStaysOpen(c, scope, st, m, keys, cache, root, r);
    RemovedAfterwards(c, scope, st, m, more, cache, first, later);
  }

  lemma RemovedAfterwards(c: Crypto, scope: string, st: Storage, m: Manifest, keys: map<KeyId, Material>, cache: map<CacheKey, SubKey>,
                          first: seq<Write>, later: seq<Write>)
    requires IsOpen(c, scope, After(st, first, |first|), m, keys, cache) && Shape(m) && ActiveEntry(m).ref.Custody? && |later| <= 2
    requires |later| >= 1 ==> later[0] == UnlinkKeyFile(Named(m.activeKeyId))
    requires |later| >= 2 ==> later[1] == UnlinkReceipt
    ensures IsOpen(c, scope, After(st, first + later, |first + later|), m, keys, cache)
  {
    AfterBoth(st, first, later);
    RemovingStaysOpen(c, scope, After(st, first, |first|), m, keys, cache, later);
  }

  lemma RetiringFileStaysOpened(c: Crypto, scope: string, st: Storage, m: Manifest, keys: map<KeyId, Material>, cache: map<CacheKey, SubKey>,
                                root: Root, process: Process)
    requires Opened(c, scope, st, m, keys, cache) && root == Roots(c, st)[m.activeKeyId] && ActiveEntry(m).ref.Custody?
    requires keys[m.activeKeyId].Opaque?
    requires keys[m.activeKeyId].descriptor.state == VerifiedCustody ==> ReceiptAllows(c, st, root, keys[m.activeKeyId].descriptor.reference, process)
    ensures var ws := RetireFilePlan(c, st, m, root, process);
      Opened(c, scope, After(st, ws, |ws|), m, keys[m.activeKeyId := Opaque(keys[m.activeKeyId].descriptor.(state := ActiveCustody))], cache)
  {
    var r := ActiveEntry(m).ref.reference;
    assert MaterialAgrees(c, st, m.activeKeyId, ActiveEntry(m).ref, keys[m.activeKeyId]);
    assert LookupIn(c, st)(m.activeKeyId, ActiveEntry(m).ref) == Some(root);
    RetireFileIsSafe(c, scope, st, root, process, |RetireFilePlan(c, st, m, root, process)|);
    RetiringFileStaysOpen(c, scope, st, m, keys, cache, root, r);
  }

  lemma CreatedIsOpen(c: Crypto, scope: string, st: Storage, root: Root, scopeId: string)
    requires st.manifest == None && Named(c.keyId(root)) !in st.files
    ensures var ws, m := CreatePlan(c, scope, st, root, scopeId), FirstManifest(c, scope, root, scopeId);
      && |ws| == 2 && Opens(c, scope, After(st, ws, 2))
      && IsOpen(c, scope, After(st, ws, 2), m, map[c.keyId(root) := FileKey(root)], map[])
  {
    var ws, m := CreatePlan(c, scope, st, root, scopeId), FirstManifest(c, scope, root, scopeId);
    FirstWrites(st, ws);
    FirstManifestLoads(c, scope, root, scopeId);
    assert LookupIn(c, After(st, ws, 2))(c.keyId(root), KeyFile(Named(c.keyId(root)))) == Some(root);
  }

  lemma RetiringStaysOpened(c: Crypto, scope: string, st: Storage, m: Manifest, keys: map<KeyId, Material>, cache: map<CacheKey, SubKey>,
                            root: Root, from: KeyId)
    requires Opened(c, scope, st, m, keys, cache) && root == Roots(c, st)[m.activeKeyId]
    requires m.rotation.Some? && m.rotation.value.state == Verified && m.rotation.value.from == from
    ensures var ws := RetirePlan(c, scope, m, root);
      && ws == [PutManifest(RetiredManifest(c, scope, m, root, from))] + DropRoot(m.keys[from].ref)
      && Opened(c, scope, After(st, ws, |ws|), RetiredManifest(c, scope, m, root, from), keys - {from}, Without(cache, {from}))
  {
    hide RootOf, BindingTag, CacheAgrees;
    var first, ref := [PutManifest(RetiredManifest(c, scope, m, root, from))], m.keys[from].ref;
    RetireIsSafe(c, scope, st, root, |RetirePlan(c, scope, m, root)|);
    WithoutPreviousLoads(m, from);
    FirstWrites(st, first);
    PublishingStaysOpen(c, scope, st, m, keys, cache, RetiredManifest(c, scope, m, root, from), {from});
    AfterJoin(st, first, DropRoot(ref), 1 + |DropRoot(ref)|);
    DroppingStaysOpen(c, scope, Perform(st, first[0]), RetiredManifest(c, scope, m, root, from), keys - {from}, Without(cache, {from}), ref, |DropRoot(ref)|);
  }

  lemma {:induction false} DroppingStaysOpen(c: Crypto, scope: string, st: Storage, m: Manifest, keys: map<KeyId, Material>,
                                             cache: map<CacheKey, SubKey>, ref: Ref, n: nat)
    requires IsOpen(c, scope, st, m, keys, cache) && n <= |DropRoot(ref)|
    requires forall id :: id in m.keys ==> !Clash(m.keys[id].ref, ref)
    ensures IsOpen(c, scope, After(st, DropRoot(ref), n), m, keys, cache)
  {
    if n > 0 {
      DroppingStaysOpen(c, scope, st, m, keys, cache, ref, n - 1);
      DropUsesOnly(ref, DropRoot(ref)[n - 1], m);
      UnusedWriteStaysOpen(c, scope, After(st, DropRoot(ref), n - 1), DropRoot(ref)[n - 1], m, keys, cache);
    }
  }

  lemma OnlyOneMeansOne(st: Storage, id: KeyId, r: Reference, candidates: set<Reference>)
    requires forall x :: x in candidates <==> IsPrepared(st, id, x)
    ensures OnlyPrepared(st, id, r) ==> |candidates| == 1
  {
    if OnlyPrepared(st, id, r) {
      assert candidates == {r};
    }
  }

  lemma TwoOfOne<T>(s: set<T>, a: T, b: T)
    requires |s| == 1 && a in s && b in s
    ensures a == b
  {
    assert |s - {a}| == 0;
  }

  /** The first drawn root whose id is not listed. */
  function FirstNew(c: Crypto, m: Manifest, draws: seq<Root>): (root: Root)
    requires exists root :: root in draws && c.keyId(root) !in m.keys
    ensures root in draws && c.keyId(root) !in m.keys
  {
    if c.keyId(draws[0]) in m.keys then FirstNew(c, m, draws[1..]) else draws[0]
  }

  ghost predicate RotationPending(c: Crypto, scope: string, st: Storage, m: Manifest, source: Ref, root: Root, reference: Reference) {
    && Healthy(c, scope, st) && st.manifest == Some(m) && m.rotation == None && c.keyId(root) !in m.keys
    && source == ActiveEntry(m).ref && CanStore(c, st, source, root, reference)
  }

  function NewMaterial(c: Crypto, st: Storage, source: Ref, root: Root, reference: Reference): Material
    requires source.Custody? ==> source.reference in st.descriptors
  {
    if source.KeyFile? then FileKey(root) else Opaque(NewDescriptorFor(c, st, source, root, reference))
  }

  lemma LargestIsUnique(m: Manifest, largest: int)
    requires IsLargestEpoch(m, largest)
    ensures LargestEpoch(m) == largest
  {
    var e := LargestEpoch(m);
    assert IsLargestEpoch(m, e);
  }

  lemma TailIgnoresLargest(c: Crypto, scope: string, m: Manifest, root: Root, ref: Ref, largest: int)
    requires m.activeKeyId in m.keys && (HasV3(m) ==> largest == LargestEpoch(m))
    ensures BeginTail(c, scope, m, root, ref, LargestEpoch(m)) == BeginTail(c, scope, m, root, ref, largest)
  {
  }

  /** Storing the new root touches nothing that is loaded. */
  lemma StoringStaysOpened(c: Crypto, scope: string, st: Storage, m: Manifest, keys: map<KeyId, Material>, cache: map<CacheKey, SubKey>,
                           source: Ref, root: Root, reference: Reference)
    requires Opened(c, scope, st, m, keys, cache) && CanStore(c, st, source, root, reference) && c.keyId(root) !in m.keys
    ensures var ws := StoreRoot(c, st, source, root, reference);
      Opened(c, scope, After(st, ws, |ws|), m, keys, cache)
  {
    var ws := StoreRoot(c, st, source, root, reference);
    StoreRootIsHarmless(c, scope, st, source, root, reference, |ws|);
    if source.KeyFile? {
      FirstWrites(st, ws);
      NewKeyFileStaysOpen(c, scope, st, m, keys, cache, root);
    } else {
      var d := NewDescriptorFor(c, st, source, root, reference);
      assert ws == CustodyWrites(c, d, root);
      NewCustodyStaysOpened(c, scope, st, m, keys, cache, d, root);
    }
  }

  lemma NewKeyFileStaysOpen(c: Crypto, scope: string, st: Storage, m: Manifest, keys: map<KeyId, Material>, cache: map<CacheKey, SubKey>, root: Root)
    requires IsOpen(c, scope, st, m, keys, cache) && Named(c.keyId(root)) !in st.files
    ensures IsOpen(c, scope, Perform(st, CreateKeyFile(Named(c.keyId(root)), root)), m, keys, cache)
  {
    forall id | id in m.keys ensures m.keys[id].ref != KeyFile(Named(c.keyId(root))) {
      assert MaterialAgrees(c, st, id, m.keys[id].ref, keys[id]);
    }
    UnusedWriteStaysOpen(c, scope, st, CreateKeyFile(Named(c.keyId(root)), root), m, keys, cache);
  }

  lemma NewMaterialAgrees(c: Crypto, st: Storage, source: Ref, root: Root, reference: Reference)
    requires CanStore(c, st, source, root, reference)
    ensures var ws := StoreRoot(c, st, source, root, reference);
      MaterialAgrees(c, After(st, ws, |ws|), c.keyId(root), TargetRef(source, c.keyId(root), reference), NewMaterial(c, st, source, root, reference))
  {
    FirstWrites(st, StoreRoot(c, st, source, root, reference));
  }

  /** With the new root stored, the rotation can be published. */
  lemma RotationStaysOpened(c: Crypto, scope: string, st: Storage, m: Manifest, keys: map<KeyId, Material>,
                            source: Ref, root: Root, reference: Reference, largest: int)
    requires Healthy(c, scope, st) && st.manifest == Some(m) && m.rotation == None && c.keyId(root) !in m.keys
    requires source == ActiveEntry(m).ref && CanStore(c, st, source, root, reference)
    requires (HasV3(m) ==> IsLargestEpoch(m, largest) && largest < LAST_EPOCH)
    requires Loaded(c, After(st, StoreRoot(c, st, source, root, reference), |StoreRoot(c, st, source, root, reference)|), m, keys)
    ensures var filed := After(st, StoreRoot(c, st, source, root, reference), |StoreRoot(c, st, source, root, reference)|);
      var next := RotatedManifest(c, scope, m, root, TargetRef(source, c.keyId(root), reference), EpochAfter(m, largest));
      Opened(c, scope, After(filed, [PutManifest(next)], 1), next, keys[c.keyId(root) := NewMaterial(c, st, source, root, reference)], map[])
  {
    var filed := After(st, StoreRoot(c, st, source, root, reference), |StoreRoot(c, st, source, root, reference)|);
    var ref, epoch := TargetRef(source, c.keyId(root), reference), EpochAfter(m, largest);
    LargestIsNext(m, largest);
    BeginPublishes(c, scope, st, root, reference, epoch);
    NewMaterialAgrees(c, st, source, root, reference);
    FirstWrites(filed, [PutManifest(RotatedManifest(c, scope, m, root, ref, epoch))]);
    RotatingStaysOpen(c, scope, filed, m, keys, root, ref, epoch, NewMaterial(c, st, source, root, reference));
  }

  lemma NewCustodyStaysOpened(c: Crypto, scope: string, st: Storage, m: Manifest, keys: map<KeyId, Material>, cache: map<CacheKey, SubKey>,
                              d: Descriptor, root: Root)
    requires Opened(c, scope, st, m, keys, cache) && d.reference !in st.descriptors
    requires d.keyId in m.keys ==> Roots(c, st)[d.keyId] == root
    ensures Opened(c, scope, After(st, CustodyWrites(c, d, root), 2), m, keys, cache)
    ensures After(st, CustodyWrites(c, d, root), 2)
         == Perform(Perform(st, ImportNative(d.reference, root)), PutDescriptor(d.reference, Stored(d, DescriptorTag(c, root, d))))
  {
    FirstWrites(st, CustodyWrites(c, d, root));
    NewCustody(c, scope, st, d, root, 2);
    NewCustodyStaysOpen(c, scope, st, m, keys, cache, d, root);
  }

  lemma NewCustodyStaysOpen(c: Crypto, scope: string, st: Storage, m: Manifest, keys: map<KeyId, Material>, cache: map<CacheKey, SubKey>,
                            d: Descriptor, root: Root)
    requires IsOpen(c, scope, st, m, keys, cache) && Opens(c, scope, st) && d.reference !in st.descriptors
    ensures var imported := Perform(st, ImportNative(d.reference, root));
      IsOpen(c, scope, Perform(imported, PutDescriptor(d.reference, Stored(d, DescriptorTag(c, root, d)))), m, keys, cache)
  {
    forall id | id in m.keys ensures m.keys[id].ref.Custody? ==> m.keys[id].ref.reference != d.reference {
      UnusedReference(c, scope, st, d.reference, id);
    }
    var imported := Perform(st, ImportNative(d.reference, root));
    UnusedWriteStaysOpen(c, scope, st, ImportNative(d.reference, root), m, keys, cache);
    UnusedWriteStaysOpen(c, scope, imported, PutDescriptor(d.reference, Stored(d, DescriptorTag(c, root, d))), m, keys, cache);
  }

  lemma EnablingStaysOpen(c: Crypto, scope: string, st: Storage, m: Manifest, keys: map<KeyId, Material>, cache: map<CacheKey, SubKey>,
                          root: Root, feature: Feature)
    requires IsOpen(c, scope, st, m, keys, cache) && m.activeKeyId in m.keys && EnablePlan(c, scope, m, root, feature) != []
    requires ManifestLoads(m)
    ensures var next := EnablePlan(c, scope, m, root, feature)[0].manifest;
      IsOpen(c, scope, Perform(st, PutManifest(next)), next, keys, cache)
  {
    hide RootOf, BindingTag;
    PublishingStaysOpen(c, scope, st, m, keys, cache, EnablePlan(c, scope, m, root, feature)[0].manifest, {});
    NothingGone(keys, cache);
  }

  lemma EnablingIsPublishable(c: Crypto, scope: string, st: Storage, m: Manifest, keys: map<KeyId, Material>, cache: map<CacheKey, SubKey>,
                              root: Root, feature: Feature, next: Manifest)
    requires IsOpen(c, scope, st, m, keys, cache) && Healthy(c, scope, st) && root == Roots(c, st)[m.activeKeyId]
    requires EnablePlan(c, scope, m, root, feature) == [PutManifest(next)]
    ensures IsOpen(c, scope, Perform(st, PutManifest(next)), next, keys, cache) && Healthy(c, scope, Perform(st, PutManifest(next)))
  {
    EnablingStaysOpen(c, scope, st, m, keys, cache, root, feature);
    EnablingStaysHealthy(c, scope, st, root, feature, PutManifest(next));
  }

  lemma EnablingStaysHealthy(c: Crypto, scope: string, st: Storage, root: Root, feature: Feature, w: Write)
    requires Healthy(c, scope, st) && root == Roots(c, st)[st.manifest.value.activeKeyId]
    requires EnablePlan(c, scope, st.manifest.value, root, feature) == [w]
    ensures Healthy(c, scope, Perform(st, w))
  {
    EnableIsSafe(c, scope, st, root, feature, 1);
    FirstWrites(st, [w]);
  }

  lemma MarkingStaysOpen(c: Crypto, scope: string, st: Storage, m: Manifest, keys: map<KeyId, Material>, cache: map<CacheKey, SubKey>)
    requires IsOpen(c, scope, st, m, keys, cache) && m.rotation.Some? && m.rotation.value.state == Migrating
    ensures var next := m.(rotation := Some(m.rotation.value.(state := Verified)));
      MarkPlan(m) == [PutManifest(next)] && IsOpen(c, scope, Perform(st, PutManifest(next)), next, keys, cache)
  {
    PublishingStaysOpen(c, scope, st, m, keys, cache, MarkPlan(m)[0].manifest, {});
    NothingGone(keys, cache);
  }

  lemma MarkingStaysHealthy(c: Crypto, scope: string, st: Storage, w: Write)
    requires Healthy(c, scope, st) && MarkPlan(st.manifest.value) == [w]
    ensures Healthy(c, scope, Perform(st, w))
  {
    MarkIsSafe(c, scope, st, 1);
    FirstWrites(st, [w]);
  }

  /** Opening succeeds exactly on the storages that open. */
  method OpenKeyring(c: Crypto, scope: string, disk: Disk) returns (found: Option<Keyring>)
    ensures found.Some? <==> Opens(c, scope, disk.storage)
    ensures found.Some? ==> fresh(found.value) && found.value.disk == disk && found.value.derivedKeys == map[]
    ensures found.Some? ==> IsOpen(c, scope, disk.storage, found.value.manifest, found.value.keys, map[])
    ensures found.Some? && Healthy(c, scope, disk.storage) ==> found.value.Valid()
  {
    if !Opens(c, scope, disk.storage) {
      return None;
    }
    var keyring := new Keyring(c, scope, disk);
    return Some(keyring);
  }

  /** Every state the disk goes through during an operation opens, with the roots there were before it. */
  lemma EveryTracedStateOpens(c: Crypto, scope: string, before: Storage, trace: seq<Storage>, op: Op, after: Storage, trace': seq<Storage>, i: nat)
    requires Healthy(c, scope, before) && Fresh(c, before, op)
    requires Performs(before, trace, Plan(c, scope, before, op), after, trace') && |trace| <= i < |trace'|
    ensures Opens(c, scope, trace'[i]) && KeepsRoots(Roots(c, before), Roots(c, trace'[i]))
  {
    hide Plan, Fresh, OpensWith, Shape, CustodyAgrees, Recovered;
    TracedStateIsAStop(before, trace, Plan(c, scope, before, op), after, trace', i);
    EveryStopIsSafe(c, scope, before, op, i - |trace| + 1);
  }

  function LoadedMaterial(c: Crypto, st: Storage, id: KeyId, ref: Ref): Material
    requires RootOf(c, st, id, ref).Some?
  {
    match ref
    case KeyFile(_) => FileKey(RootOf(c, st, id, ref).value)
    case Custody(_, reference) => Opaque(st.descriptors[reference].descriptor)
  }

  lemma LoadingLoads(c: Crypto, scope: string, st: Storage, m: Manifest)
    requires OpensWith(c, scope, LookupIn(c, st), m)
    ensures Loaded(c, st, m, map id | id in m.keys && RootOf(c, st, id, m.keys[id].ref).Some? :: LoadedMaterial(c, st, id, m.keys[id].ref))
  {
    forall id | id in m.keys ensures RootOf(c, st, id, m.keys[id].ref).Some? {
      assert LookupIn(c, st)(id, m.keys[id].ref).Some?;
    }
  }

  // ---- activation ----

  predicate MayActivate(c: Crypto, scope: string, st: Storage, m: Manifest, root: Root, reference: Reference)
    requires m.activeKeyId in m.keys
  {
    && ActiveEntry(m).ref.KeyFile? && HasV3(m) && ActiveEntry(m).epoch.Some?
    && reference in st.descriptors
    && var stored := st.descriptors[reference];
      && stored.descriptor.reference in st.native
      && var native := st.native[stored.descriptor.reference];
        && c.keyId(native) == m.activeKeyId
        && stored.tag == DescriptorTag(c, native, stored.descriptor)
        && forall purpose: Purpose ::
             c.derive(native, Domain(scope, m.scopeId, ActiveEntry(m).epoch.value, purpose))
             == c.derive(root, Domain(scope, m.scopeId, ActiveEntry(m).epoch.value, purpose))
  }

  lemma NoOtherActivation(c: Crypto, scope: string, st: Storage, m: Manifest, root: Root, process: Process, found: Option<Reference>)
    requires Healthy(c, scope, st) && st.manifest == Some(m)
    requires found.Some? ==> OnlyPrepared(st, m.activeKeyId, found.value)
    requires found.None? ==> forall r :: !OnlyPrepared(st, m.activeKeyId, r)
    ensures found.None? || !MayActivate(c, scope, st, m, root, found.value) ==> ActivatePlan(c, scope, st, m, root, process) == []
    ensures found.Some? && MayActivate(c, scope, st, m, root, found.value) ==> CanActivate(c, scope, st, m, root, found.value)
  {
    if exists r :: CanActivate(c, scope, st, m, root, r) {
      var r :| CanActivate(c, scope, st, m, root, r);
      assert OnlyPrepared(st, m.activeKeyId, r);
      if found.Some? {
        OneIsPrepared(st, m.activeKeyId, r, found.value);
      }
    }
  }

  /** The loaded keys are untouched until the switch. */
  lemma CheckingStaysLoaded(c: Crypto, st: Storage, m: Manifest, keys: map<KeyId, Material>, root: Root, d: Descriptor, process: Process)
    requires Loaded(c, st, m, keys) && ReadyToActivate(c, st, root, d) && st.manifest == Some(m)
    ensures Loaded(c, After(st, CheckWrites(c, root, d, process), 2), m, keys)
  {
    var ws := CheckWrites(c, root, d, process);
    FirstWrites(st, ws);
    forall id | id in m.keys ensures !Uses(m.keys[id].ref, ws[0]) {
      assert MaterialAgrees(c, st, id, m.keys[id].ref, keys[id]);
    }
    UnusedWriteKeepsLoaded(c, st, ws[0], m, keys);
    UnusedWriteKeepsLoaded(c, Perform(st, ws[0]), ws[1], m, keys);
  }

  lemma VerifiedMaterialAgrees(c: Crypto, st: Storage, root: Root, d: Descriptor, process: Process)
    requires d.reference in st.native && st.native[d.reference] == root && c.keyId(root) == d.keyId
    ensures MaterialAgrees(c, After(st, CheckWrites(c, root, d, process), 2), d.keyId, Custody(d.provider, d.reference), Opaque(d.(state := VerifiedCustody)))
  {
    VerifiedItemLeads(c, st, root, d, process);
    FirstWrites(st, CheckWrites(c, root, d, process));
  }

  lemma SwitchedStaysOpen(c: Crypto, scope: string, st: Storage, m: Manifest, keys: map<KeyId, Material>, root: Root, d: Descriptor, process: Process)
    requires Loaded(c, st, m, keys) && ReadyToActivate(c, st, root, d) && st.manifest == Some(m)
    ensures var ws := CheckWrites(c, root, d, process) + [PutManifest(OpaqueManifest(m, d))];
      IsOpen(c, scope, After(st, ws, 3), OpaqueManifest(m, d), keys[m.activeKeyId := Opaque(d.(state := VerifiedCustody))], map[])
  {
    var ws, verified := CheckWrites(c, root, d, process), d.(state := VerifiedCustody);
    CheckingStaysLoaded(c, st, m, keys, root, d, process);
    VerifiedMaterialAgrees(c, st, root, d, process);
    AfterPrefix(st, ws, [PutManifest(OpaqueManifest(m, d))], 2);
    assert OpaqueManifest(m, verified) == OpaqueManifest(m, d);
    SwitchingStaysOpen(c, scope, After(st, ws, 2), m, keys, verified);
  }

  lemma ActivatingStaysOpened(c: Crypto, scope: string, st: Storage, m: Manifest, keys: map<KeyId, Material>, root: Root, d: Descriptor, process: Process)
    requires Healthy(c, scope, st) && st.manifest == Some(m) && Loaded(c, st, m, keys) && root == Roots(c, st)[m.activeKeyId]
    requires ReadyToActivate(c, st, root, d)
    ensures var ws := CheckWrites(c, root, d, process) + [PutManifest(OpaqueManifest(m, d))];
      Opened(c, scope, After(st, ws, 3), OpaqueManifest(m, d), keys[m.activeKeyId := Opaque(d.(state := VerifiedCustody))], map[])
  {
    WholeActivationIsSafe(c, scope, st, root, d, process);
    SwitchedStaysOpen(c, scope, st, m, keys, root, d, process);
  }
}
