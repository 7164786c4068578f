/** What an open keyring holds in memory, and how it agrees with the storage. */
module KeyringMemory {
  import opened Outcomes
  import opened KeyStorage
  import opened KeyringPlans
  import opened KeyringSafety
  import opened RecordShield

  /** A raw root from its file, or the descriptor of an opaque one. */
  datatype Material = FileKey(root: Root) | Opaque(descriptor: Descriptor)

  type CacheKey = (KeyId, Purpose, int)

  ghost predicate MaterialAgrees(c: Crypto, st: Storage, id: KeyId, ref: Ref, material: Material) {
    && RootOf(c, st, id, ref).Some?
    && match material
       case FileKey(root) => ref.KeyFile? && RootOf(c, st, id, ref) == Some(root)
       case Opaque(d) => ref.Custody? && ref.reference in st.descriptors && d == st.descriptors[ref.reference].descriptor
  }

  ghost predicate Loaded(c: Crypto, st: Storage, m: Manifest, keys: map<KeyId, Material>) {
    keys.Keys == m.keys.Keys && forall id :: id in m.keys ==> MaterialAgrees(c, st, id, m.keys[id].ref, keys[id])
  }

  /** Every cached key is the one a fresh derivation gives. */
  ghost predicate CacheAgrees(c: Crypto, scope: string, roots: map<KeyId, Root>, m: Manifest, cache: map<CacheKey, SubKey>) {
    forall k :: k in cache ==>
      && k.0 in m.keys && k.0 in roots && m.keys[k.0].epoch == Some(k.2)
      && cache[k] == DerivedKey(c, scope, m, roots[k.0], k.2, k.1)
  }

  /** Writes to other files leave the loaded keys as they are. */
  lemma UnusedWriteKeepsLoaded(c: Crypto, st: Storage, w: Write, m: Manifest, keys: map<KeyId, Material>)
    requires Loaded(c, st, m, keys) && forall id :: id in m.keys ==> !Uses(m.keys[id].ref, w)
    ensures Loaded(c, Perform(st, w), m, keys)
  {
    forall id | id in m.keys ensures MaterialAgrees(c, Perform(st, w), id, m.keys[id].ref, keys[id]) {
      assert MaterialAgrees(c, st, id, m.keys[id].ref, keys[id]);
      UnusedWriteKeepsRoot(c, st, w, id, m.keys[id].ref);
      assert LookupIn(c, Perform(st, w))(id, m.keys[id].ref) == LookupIn(c, st)(id, m.keys[id].ref);
    }
  }

  /** The loaded keys serve any manifest that lists some of them under the same references. */
  lemma LoadedForFewer(c: Crypto, st: Storage, m: Manifest, keys: map<KeyId, Material>, next: Manifest, gone: set<KeyId>)
    requires Loaded(c, st, m, keys) && SameRefs(m, next) && next.keys.Keys == m.keys.Keys - gone
    ensures Loaded(c, st, next, keys - gone)
  {
    forall id | id in next.keys ensures MaterialAgrees(c, st, id, next.keys[id].ref, (keys - gone)[id]) {
      assert MaterialAgrees(c, st, id, m.keys[id].ref, keys[id]);
    }
  }

  /** One freshly derived key more. */
  lemma CacheOneMore(c: Crypto, scope: string, roots: map<KeyId, Root>, m: Manifest, cache: map<CacheKey, SubKey>, id: KeyId, purpose: Purpose, epoch: int)
    requires CacheAgrees(c, scope, roots, m, cache) && id in m.keys && id in roots && m.keys[id].epoch == Some(epoch)
    ensures CacheAgrees(c, scope, roots, m, cache[(id, purpose, epoch) := DerivedKey(c, scope, m, roots[id], epoch, purpose)])
  {
  }

  /** The cached keys of a manifest's keys that stay listed. */
  function Without(cache: map<CacheKey, SubKey>, gone: set<KeyId>): map<CacheKey, SubKey> {
    map k | k in cache && k.0 !in gone :: cache[k]
  }

  /** Memory after publishing a manifest over the same files, without the keys that are gone. */
  lemma PublishedMemory(c: Crypto, scope: string, st: Storage, m: Manifest, keys: map<KeyId, Material>, cache: map<CacheKey, SubKey>,
                        next: Manifest, gone: set<KeyId>)
    requires Loaded(c, st, m, keys) && CacheAgrees(c, scope, Recovered(LookupIn(c, st), m), m, cache)
    requires SameRefs(m, next) && next.keys.Keys == m.keys.Keys - gone && next.scopeId == m.scopeId
    requires forall id :: id in next.keys && m.keys[id].epoch.Some? ==> next.keys[id].epoch == m.keys[id].epoch
    ensures var after := Perform(st, PutManifest(next));
      && Loaded(c, after, next, keys - gone)
      && CacheAgrees(c, scope, Recovered(LookupIn(c, after), next), next, Without(cache, gone))
  {
    var after := Perform(st, PutManifest(next));
    LoadedForFewer(c, st, m, keys, next, gone);
    UnusedWriteKeepsLoaded(c, st, PutManifest(next), next, keys - gone);
    forall id | id in next.keys ensures LookupIn(c, after)(id, next.keys[id].ref) == LookupIn(c, st)(id, m.keys[id].ref) {
      UnusedWriteKeepsRoot(c, st, PutManifest(next), id, next.keys[id].ref);
    }
    forall id | id in m.keys ensures LookupIn(c, st)(id, m.keys[id].ref).Some? {
      assert MaterialAgrees(c, st, id, m.keys[id].ref, keys[id]);
    }
  }

  lemma NothingGone(keys: map<KeyId, Material>, cache: map<CacheKey, SubKey>)
    ensures keys - {} == keys && Without(cache, {}) == cache
  {
  }

  /** An open keyring: its manifest is the stored one, its keys are those of the storage, its cache is right. */
  ghost predicate IsOpen(c: Crypto, scope: string, st: Storage, m: Manifest, keys: map<KeyId, Material>, cache: map<CacheKey, SubKey>) {
    && st.manifest == Some(m)
    && Loaded(c, st, m, keys)
    && CacheAgrees(c, scope, Recovered(LookupIn(c, st), m), m, cache)
  }

  ghost predicate Opened(c: Crypto, scope: string, st: Storage, m: Manifest, keys: map<KeyId, Material>, cache: map<CacheKey, SubKey>) {
    IsOpen(c, scope, st, m, keys, cache) && Healthy(c, scope, st)
  }

  /** The states that a list of writes goes through. */
  ghost function Stops(st: Storage, ws: seq<Write>): (stops: seq<Storage>)
    ensures |stops| == |ws|
  {
    seq(|ws|, i requires 0 <= i < |ws| => After(st, ws, i + 1))
  }

  /** The storage went through exactly these writes, one by one. */
  ghost predicate Performs(before: Storage, trace: seq<Storage>, ws: seq<Write>, after: Storage, trace': seq<Storage>) {
    after == After(before, ws, |ws|) && trace' == trace + Stops(before, ws)
  }

  lemma PerformsNothing(st: Storage, trace: seq<Storage>)
    ensures Performs(st, trace, [], st, trace)
  {
  }

  /** One write more. */
  lemma PerformsOneMore(before: Storage, trace: seq<Storage>, ws: seq<Write>, mid: Storage, trace': seq<Storage>, w: Write)
    requires Performs(before, trace, ws, mid, trace')
    ensures Performs(before, trace, ws + [w], Perform(mid, w), trace' + [Perform(mid, w)])
  {
    forall i | 0 <= i < |ws| ensures Stops(before, ws + [w])[i] == Stops(before, ws)[i] {
      AfterPrefix(before, ws, [w], i + 1);
    }
    AfterPrefix(before, ws, [w], |ws|);
    assert Stops(before, ws + [w]) == Stops(before, ws) + [Perform(mid, w)];
  }

  lemma PerformsBoth(st: Storage, t: seq<Storage>, a: seq<Write>, mid: Storage, t': seq<Storage>, b: seq<Write>, after: Storage, t'': seq<Storage>)
    requires Performs(st, t, a, mid, t') && Performs(mid, t', b, after, t'')
    ensures Performs(st, t, a + b, after, t'')
  {
    forall i | 0 <= i < |a + b| ensures Stops(st, a + b)[i] == (Stops(st, a) + Stops(mid, b))[i] {
      if i < |a| {
        AfterPrefix(st, a, b, i + 1);
      } else {
        AfterJoin(st, a, b, i + 1);
      }
    }
    AfterJoin(st, a, b, |a + b|);
    assert t'' == t + (Stops(st, a) + Stops(mid, b));
  }

  lemma TracedStateIsAStop(before: Storage, trace: seq<Storage>, ws: seq<Write>, after: Storage, trace': seq<Storage>, i: nat)
    requires Performs(before, trace, ws, after, trace') && |trace| <= i < |trace'|
    ensures i - |trace| + 1 <= |ws| && trace'[i] == After(before, ws, i - |trace| + 1)
  {
  }

  /** Publishing over the same files keeps the keyring open. */
  lemma PublishingStaysOpen(c: Crypto, scope: string, st: Storage, m: Manifest, keys: map<KeyId, Material>, cache: map<CacheKey, SubKey>,
                            next: Manifest, gone: set<KeyId>)
    requires IsOpen(c, scope, st, m, keys, cache)
    requires SameRefs(m, next) && next.keys.Keys == m.keys.Keys - gone && next.scopeId == m.scopeId
    requires forall id :: id in next.keys && m.keys[id].epoch.Some? ==> next.keys[id].epoch == m.keys[id].epoch
    ensures IsOpen(c, scope, Perform(st, PutManifest(next)), next, keys - gone, Without(cache, gone))
  {
    PublishedMemory(c, scope, st, m, keys, cache, next, gone);
  }

  /** Publishing a rotation, whose new key is loaded and whose cache is cleared. */
  lemma RotatingStaysOpen(c: Crypto, scope: string, st: Storage, m: Manifest, keys: map<KeyId, Material>, root: Root, ref: Ref,
                          epoch: Option<int>, material: Material)
    requires Loaded(c, st, m, keys) && m.activeKeyId in m.keys && c.keyId(root) !in m.keys
    requires MaterialAgrees(c, st, c.keyId(root), ref, material)
    ensures var next := RotatedManifest(c, scope, m, root, ref, epoch);
      IsOpen(c, scope, Perform(st, PutManifest(next)), next, keys[c.keyId(root) := material], map[])
  {
    var next := RotatedManifest(c, scope, m, root, ref, epoch);
    var more := keys[c.keyId(root) := material];
    forall id | id in next.keys ensures MaterialAgrees(c, st, id, next.keys[id].ref, more[id]) {
      if id != c.keyId(root) {
        assert MaterialAgrees(c, st, id, m.keys[id].ref, keys[id]);
      }
    }
    UnusedWriteKeepsLoaded(c, st, PutManifest(next), next, more);
  }

  /** Switching the active key to its native item, with the cache cleared. */
  lemma SwitchingStaysOpen(c: Crypto, scope: string, st: Storage, m: Manifest, keys: map<KeyId, Material>, d: Descriptor)
    requires Loaded(c, st, m, keys) && m.activeKeyId in m.keys
    requires MaterialAgrees(c, st, m.activeKeyId, Custody(d.provider, d.reference), Opaque(d))
    ensures IsOpen(c, scope, Perform(st, PutManifest(OpaqueManifest(m, d))), OpaqueManifest(m, d), keys[m.activeKeyId := Opaque(d)], map[])
  {
    var next, more := OpaqueManifest(m, d), keys[m.activeKeyId := Opaque(d)];
    assert next.keys.Keys == m.keys.Keys;
    forall id | id in next.keys ensures MaterialAgrees(c, st, id, next.keys[id].ref, more[id]) {
      if id != m.activeKeyId {
        assert MaterialAgrees(c, st, id, m.keys[id].ref, keys[id]);
      }
    }
    UnusedWriteKeepsLoaded(c, st, PutManifest(next), next, more);
  }

  /** A write to other files leaves the keyring open as it is. */
  lemma UnusedWriteStaysOpen(c: Crypto, scope: string, st: Storage, w: Write, m: Manifest, keys: map<KeyId, Material>, cache: map<CacheKey, SubKey>)
    requires IsOpen(c, scope, st, m, keys, cache) && !w.PutManifest?
    requires forall id :: id in m.keys ==> !Uses(m.keys[id].ref, w)
    ensures IsOpen(c, scope, Perform(st, w), m, keys, cache)
  {
    UnusedWriteKeepsLoaded(c, st, w, m, keys);
    UnusedWriteAgrees(c, st, w, m);
    AgreeingLookups(c, scope, LookupIn(c, st), LookupIn(c, Perform(st, w)), m);
  }

  /** The root behind a loaded key. */
  function RootBehind(st: Storage, ref: Ref, material: Material): Option<Root> {
    match (material, ref)
    case (FileKey(root), _) => Some(root)
    case (Opaque(_), Custody(_, reference)) => if reference in st.native then Some(st.native[reference]) else None
    case _ => None
  }

  lemma RootBehindIsRecovered(c: Crypto, st: Storage, id: KeyId, ref: Ref, material: Material)
    requires MaterialAgrees(c, st, id, ref, material)
    ensures RootBehind(st, ref, material) == LookupIn(c, st)(id, ref) && RootBehind(st, ref, material).Some?
  {
  }

  /** Keys that need no derivation: a version-2 key is a file root, and an unlisted key or epoch gives none. */
  lemma UnderivedKey(c: Crypto, scope: string, st: Storage, m: Manifest, keys: map<KeyId, Material>, id: KeyId, purpose: Purpose, version: Version)
    requires Loaded(c, st, m, keys)
    ensures id !in keys ==> KeyForEnvelope(c, scope, LookupIn(c, st), m, id, purpose, version) == None
    ensures id in keys ==> KeyForEnvelope(c, scope, LookupIn(c, st), m, id, purpose, V2)
                           == if keys[id].FileKey? then Some(RootKey(keys[id].root)) else None
    ensures id in keys && m.keys[id].epoch == None ==> KeyForEnvelope(c, scope, LookupIn(c, st), m, id, purpose, V3) == None
  {
    if id in keys {
      assert MaterialAgrees(c, st, id, m.keys[id].ref, keys[id]);
    }
  }

  /** A derived key, fresh or cached, is that of the key's root and epoch; it may be cached. */
  lemma DerivedKeyAgrees(c: Crypto, scope: string, st: Storage, m: Manifest, keys: map<KeyId, Material>, cache: map<CacheKey, SubKey>,
                         id: KeyId, purpose: Purpose, epoch: int, root: Root)
    requires IsOpen(c, scope, st, m, keys, cache) && id in keys && m.keys[id].epoch == Some(epoch)
    requires RootBehind(st, m.keys[id].ref, keys[id]) == Some(root)
    ensures var derived, k := DerivedKey(c, scope, m, root, epoch, purpose), (id, purpose, epoch);
      && KeyForEnvelope(c, scope, LookupIn(c, st), m, id, purpose, V3) == Some(Derived(derived))
      && (k in cache ==> cache[k] == derived)
      && IsOpen(c, scope, st, m, keys, cache[k := derived])
  {
    RootBehindIsRecovered(c, st, id, m.keys[id].ref, keys[id]);
    CacheOneMore(c, scope, Recovered(LookupIn(c, st), m), m, cache, id, purpose, epoch);
  }
}
