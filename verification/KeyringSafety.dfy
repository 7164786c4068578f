/**
 * What every stored profile keeps: it opens, each listed key has its own files, and
 * the native items that could be activated hold the right roots.
 */
module KeyringSafety {
  import opened Outcomes
  import opened KeyStorage

  predicate RefIsOwn(id: KeyId, ref: Ref) {
    ref.KeyFile? ==> ref.name == Legacy || ref.name == Named(id)
  }

  predicate Clash(a: Ref, b: Ref) {
    match (a, b)
    case (KeyFile(x), KeyFile(y)) => x == y
    case (Custody(_, x), Custody(_, y)) => x == y
    case _ => false
  }

  /** An older key of a rotation: it has its own files and, where there are epochs, a smaller one. */
  predicate Precedes(older: KeyEntry, newer: KeyEntry) {
    && !Clash(older.ref, newer.ref)
    && (older.epoch.Some? && newer.epoch.Some? ==> older.epoch.value < newer.epoch.value)
  }

  /** One key, or the two of a rotation, of which the target is active. */
  ghost predicate Shape(m: Manifest) {
    && m.activeKeyId in m.keys
    && (forall id :: id in m.keys ==> RefIsOwn(id, m.keys[id].ref))
    && match m.rotation
       case None => m.keys.Keys == {m.activeKeyId}
       case Some(r) =>
         r.from != r.target && m.keys.Keys == {r.from, r.target} && m.activeKeyId == r.target
         && Precedes(m.keys[r.from], m.keys[r.target])
  }

  /** A descriptor names its own file, and one for a listed key holds that key's root. */
  ghost predicate CustodyAgrees(lookup: Lookup, st: Storage, m: Manifest) {
    forall r :: r in st.descriptors ==>
      && st.descriptors[r].descriptor.reference == r
      && (r in st.native && st.descriptors[r].descriptor.keyId in m.keys ==>
            lookup(st.descriptors[r].descriptor.keyId, m.keys[st.descriptors[r].descriptor.keyId].ref) == Some(st.native[r]))
  }

  ghost predicate Healthy(c: Crypto, scope: string, st: Storage) {
    Opens(c, scope, st) && Shape(st.manifest.value) && CustodyAgrees(LookupIn(c, st), st, st.manifest.value)
  }

  /** Every key listed before and after has kept its root. */
  ghost predicate KeepsRoots(before: map<KeyId, Root>, after: map<KeyId, Root>) {
    forall id :: id in before && id in after ==> after[id] == before[id]
  }

  // ---- writes to files no listed key uses ----

  predicate Uses(ref: Ref, w: Write) {
    match w
    case CreateKeyFile(name, _) => ref == KeyFile(name)
    case UnlinkKeyFile(name) => ref == KeyFile(name)
    case PutDescriptor(r, _) => ref.Custody? && ref.reference == r
    case UnlinkDescriptor(r) => ref.Custody? && ref.reference == r
    case ImportNative(r, _) => ref.Custody? && ref.reference == r
    case DeleteNative(r) => ref.Custody? && ref.reference == r
    case _ => false
  }

  lemma UnusedWriteKeepsRoot(c: Crypto, st: Storage, w: Write, id: KeyId, ref: Ref)
    requires !Uses(ref, w)
    ensures LookupIn(c, Perform(st, w))(id, ref) == LookupIn(c, st)(id, ref)
  {
  }

  ghost predicate Agree(a: Lookup, b: Lookup, m: Manifest) {
    forall id :: id in m.keys ==> a(id, m.keys[id].ref) == b(id, m.keys[id].ref)
  }

  lemma AgreeingLookups(c: Crypto, scope: string, a: Lookup, b: Lookup, m: Manifest)
    requires Agree(a, b, m)
    ensures OpensWith(c, scope, a, m) ==> OpensWith(c, scope, b, m)
    ensures Recovered(a, m) == Recovered(b, m)
  {
  }

  lemma UnusedWriteAgrees(c: Crypto, st: Storage, w: Write, m: Manifest)
    requires forall id :: id in m.keys ==> !Uses(m.keys[id].ref, w)
    ensures Agree(LookupIn(c, st), LookupIn(c, Perform(st, w)), m)
  {
    forall id | id in m.keys ensures LookupIn(c, st)(id, m.keys[id].ref) == LookupIn(c, Perform(st, w))(id, m.keys[id].ref) {
      UnusedWriteKeepsRoot(c, st, w, id, m.keys[id].ref);
    }
  }

  /** What a write may do to files no listed key uses. */
  ghost predicate Harmless(lookup: Lookup, st: Storage, m: Manifest, w: Write) {
    match w
    case PutManifest(_) => false
    case ImportNative(r, _) => r !in st.descriptors
    case PutDescriptor(r, stored) =>
      var id := stored.descriptor.keyId;
      stored.descriptor.reference == r && (r in st.native && id in m.keys ==> lookup(id, m.keys[id].ref) == Some(st.native[r]))
    case _ => true
  }

  lemma HarmlessKeepsCustody(a: Lookup, b: Lookup, st: Storage, m: Manifest, w: Write)
    requires Agree(a, b, m) && CustodyAgrees(a, st, m) && Harmless(a, st, m, w)
    ensures CustodyAgrees(b, Perform(st, w), m)
  {
  }

  /** A write that leaves alone the manifest and what it refers to changes no root. */
  lemma HarmlessWrite(c: Crypto, scope: string, st: Storage, w: Write)
    requires Healthy(c, scope, st) && Harmless(LookupIn(c, st), st, st.manifest.value, w)
    requires forall id :: id in st.manifest.value.keys ==> !Uses(st.manifest.value.keys[id].ref, w)
    ensures Healthy(c, scope, Perform(st, w)) && Roots(c, Perform(st, w)) == Roots(c, st)
    ensures Perform(st, w).manifest == st.manifest
  {
    var m, a, b := st.manifest.value, LookupIn(c, st), LookupIn(c, Perform(st, w));
    UnusedWriteAgrees(c, st, w, m);
    AgreeingLookups(c, scope, a, b, m);
    HarmlessKeepsCustody(a, b, st, m, w);
  }

  /** A manifest is safe to publish when all it refers to is in place. */
  lemma PublishManifest(c: Crypto, scope: string, st: Storage, m: Manifest)
    requires OpensWith(c, scope, LookupIn(c, st), m) && Shape(m) && CustodyAgrees(LookupIn(c, st), st, m)
    ensures Healthy(c, scope, Perform(st, PutManifest(m)))
    ensures Roots(c, Perform(st, PutManifest(m))) == Recovered(LookupIn(c, st), m)
  {
    UnusedWriteAgrees(c, st, PutManifest(m), m);
    AgreeingLookups(c, scope, LookupIn(c, st), LookupIn(c, Perform(st, PutManifest(m))), m);
  }

  ghost predicate SameRefs(m: Manifest, m': Manifest) {
    m'.keys.Keys <= m.keys.Keys && forall id :: id in m'.keys ==> m'.keys[id].ref == m.keys[id].ref
  }

  lemma SameRefsOpen(c: Crypto, scope: string, lookup: Lookup, m: Manifest, m': Manifest)
    requires OpensWith(c, scope, lookup, m) && SameRefs(m, m') && ManifestLoads(m')
    requires m'.binding == BindingTag(c, scope, Recovered(lookup, m)[m'.activeKeyId], m')
    ensures OpensWith(c, scope, lookup, m') && KeepsRoots(Recovered(lookup, m), Recovered(lookup, m'))
  {
  }

  /** Publishing a manifest over the same files, for some of the keys. */
  lemma PublishOverSameRefs(c: Crypto, scope: string, st: Storage, m: Manifest)
    requires Healthy(c, scope, st) && SameRefs(st.manifest.value, m) && ManifestLoads(m) && Shape(m)
    requires m.binding == BindingTag(c, scope, Roots(c, st)[m.activeKeyId], m)
    ensures Healthy(c, scope, Perform(st, PutManifest(m)))
    ensures KeepsRoots(Roots(c, st), Roots(c, Perform(st, PutManifest(m))))
  {
    SameRefsOpen(c, scope, LookupIn(c, st), st.manifest.value, m);
    PublishManifest(c, scope, st, m);
  }

  // ---- prefixes of a plan ----

  /** After the first `n` writes the profile opens, with the roots it had. */
  ghost predicate StaysHealthy(c: Crypto, scope: string, st: Storage, ws: seq<Write>, n: nat)
    requires n <= |ws|
  {
    Healthy(c, scope, After(st, ws, n)) && KeepsRoots(Roots(c, st), Roots(c, After(st, ws, n)))
  }

  lemma NothingWritten(c: Crypto, scope: string, st: Storage, ws: seq<Write>)
    requires Healthy(c, scope, st)
    ensures StaysHealthy(c, scope, st, ws, 0)
  {
  }

  lemma FirstWrites(st: Storage, ws: seq<Write>)
    ensures After(st, ws, 0) == st
    ensures |ws| >= 1 ==> After(st, ws, 1) == Perform(st, ws[0])
    ensures |ws| >= 2 ==> After(st, ws, 2) == Perform(Perform(st, ws[0]), ws[1])
    ensures |ws| >= 3 ==> After(st, ws, 3) == Perform(Perform(Perform(st, ws[0]), ws[1]), ws[2])
  {
    assert After(st, ws, 0) == st;
    if |ws| >= 1 {
      assert After(st, ws, 1) == Perform(st, ws[0]);
    }
    if |ws| >= 2 {
      assert After(st, ws, 2) == Perform(After(st, ws, 1), ws[1]);
    }
  }

  lemma {:induction false} AfterPrefix(st: Storage, a: seq<Write>, b: seq<Write>, n: nat)
    requires n <= |a|
    ensures After(st, a + b, n) == After(st, a, n)
  {
    if n > 0 {
      AfterPrefix(st, a, b, n - 1);
    }
  }

  lemma {:induction false} AfterJoin(st: Storage, a: seq<Write>, b: seq<Write>, n: nat)
    requires |a| <= n <= |a| + |b|
    ensures After(st, a + b, n) == After(After(st, a, |a|), b, n - |a|)
    decreases n
  {
    if n == |a| {
      AfterPrefix(st, a, b, n);
    } else {
      AfterJoin(st, a, b, n - 1);
    }
  }

  lemma AfterBoth(st: Storage, a: seq<Write>, b: seq<Write>)
    ensures After(st, a + b, |a + b|) == After(After(st, a, |a|), b, |b|)
  {
    AfterJoin(st, a, b, |a + b|);
  }

  /** The first `n` writes leave the manifest and every root as they were. */
  ghost predicate AsItWas(c: Crypto, scope: string, st: Storage, ws: seq<Write>, n: nat)
    requires n <= |ws|
  {
    var after := After(st, ws, n);
    Healthy(c, scope, after) && Roots(c, after) == Roots(c, st) && after.manifest == st.manifest
  }

  lemma AsItWasPrefix(c: Crypto, scope: string, st: Storage, a: seq<Write>, b: seq<Write>, n: nat)
    requires n <= |a| && AsItWas(c, scope, st, a, n)
    ensures StaysHealthy(c, scope, st, a + b, n)
  {
    AfterPrefix(st, a, b, n);
  }
}
