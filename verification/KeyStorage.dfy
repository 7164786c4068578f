/**
 * What a profile keeps durably about its keys: the manifest, key files, custody
 * descriptors, the activation receipt and the roots in the native key store; and
 * what opening the profile checks and recovers.
 */
module KeyStorage {
  import opened Outcomes

  type KeyId = string
  type Reference = string
  type Process = string
  type Tag = string
  type SubKey = string

  const LAST_EPOCH: int := 0x7fff_ffff

  /** A root key; random 256-bit values. */
  datatype Root = Root(bits: nat)

  datatype Purpose =
    Payload | Vector | SemanticContract | TopicToken | LexicalToken | ContentDigest | RecordIntegrity
    | Tombstone | LshIndex | PreflightSigning | BackupManifest

  datatype Feature = RecordIntegrityHmac | RecordEnvelopeV3 | ShieldedFourLayer

  datatype Provider = Keychain | SecureEnclave

  // ---- files ----

  /** `agent.key` or `keys/<key id>.key`. */
  datatype FileName = Legacy | Named(id: KeyId)

  datatype Ref = KeyFile(name: FileName) | Custody(provider: Provider, reference: Reference)

  datatype Status = Active | DecryptOnly

  datatype KeyEntry = KeyEntry(ref: Ref, status: Status, epoch: Option<int>)

  datatype RotationState = Migrating | Verified

  datatype Rotation = Rotation(from: KeyId, target: KeyId, state: RotationState)

  datatype Manifest = Manifest(
    activeKeyId: KeyId,
    scopeId: string,
    binding: Tag,
    keys: map<KeyId, KeyEntry>,
    rotation: Option<Rotation>,
    features: set<Feature>)

  datatype CustodyState = Prepared | VerifiedCustody | ActiveCustody

  /** `helper` stands for the pinned helper and peer identities. */
  datatype Descriptor = Descriptor(
    provider: Provider,
    reference: Reference,
    keyId: KeyId,
    helper: string,
    state: CustodyState)

  datatype Stored = Stored(descriptor: Descriptor, tag: Tag)

  datatype Receipt = Receipt(reference: Reference, process: Process, tag: Tag)

  datatype Storage = Storage(
    manifest: Option<Manifest>,
    files: map<FileName, Root>,
    descriptors: map<Reference, Stored>,
    receipt: Option<Receipt>,
    native: map<Reference, Root>)

  // ---- cryptography, as functions ----

  /** The messages authenticated with a root; the binding message as text is in BindingMessages. */
  datatype Message =
    | BindingOf(scope: string, scopeId: string, features: set<Feature>, epochs: map<KeyId, int>)
    | DescriptorOf(descriptor: Descriptor)
    | ActivationOf(reference: Reference, process: Process)

  datatype Domain = Domain(scope: string, scopeId: string, epoch: int, purpose: Purpose)

  datatype Crypto = Crypto(keyId: Root -> KeyId, mac: (Root, Message) -> Tag, derive: (Root, Domain) -> SubKey)

  // ---- durable steps ----

  datatype Write =
    | CreateKeyFile(name: FileName, root: Root)
    | UnlinkKeyFile(name: FileName)
    | PutDescriptor(reference: Reference, stored: Stored)
    | UnlinkDescriptor(reference: Reference)
    | PutManifest(manifest: Manifest)
    | PutReceipt(receipt: Receipt)
    | UnlinkReceipt
    | ImportNative(reference: Reference, root: Root)
    | DeleteNative(reference: Reference)

  function Perform(st: Storage, w: Write): Storage {
    match w
    case CreateKeyFile(name, root) => st.(files := st.files[name := root])
    case UnlinkKeyFile(name) => st.(files := st.files - {name})
    case PutDescriptor(reference, stored) => st.(descriptors := st.descriptors[reference := stored])
    case UnlinkDescriptor(reference) => st.(descriptors := st.descriptors - {reference})
    case PutManifest(m) => st.(manifest := Some(m))
    case PutReceipt(receipt) => st.(receipt := Some(receipt))
    case UnlinkReceipt => st.(receipt := None)
    case ImportNative(reference, root) => st.(native := st.native[reference := root])
    case DeleteNative(reference) => st.(native := st.native - {reference})
  }

  /** The storage after the first `n` of the writes. */
  function After(st: Storage, ws: seq<Write>, n: nat): Storage
    requires n <= |ws|
  {
    if n == 0 then st else Perform(After(st, ws, n - 1), ws[n - 1])
  }

  // ---- opening ----

  predicate HasV3(m: Manifest) {
    RecordEnvelopeV3 in m.features
  }

  predicate IsEpoch(epoch: int) {
    1 <= epoch <= LAST_EPOCH
  }

  predicate EntryLoads(m: Manifest, entry: KeyEntry) {
    && (entry.epoch.Some? <==> HasV3(m))
    && (entry.epoch.Some? ==> IsEpoch(entry.epoch.value))
    && (entry.ref.Custody? ==> HasV3(m))
  }

  /** `_load_manifest`: the checks on the manifest alone. */
  predicate ManifestLoads(m: Manifest) {
    && 0 < |m.keys| <= 8
    && (forall id :: id in m.keys ==> EntryLoads(m, m.keys[id]))
    && m.activeKeyId in m.keys
    && (forall id :: id in m.keys ==> (m.keys[id].status == Active <==> id == m.activeKeyId))
    && (forall i, j :: i in m.keys && j in m.keys && i != j && HasV3(m) ==> m.keys[i].epoch != m.keys[j].epoch)
  }

  function DescriptorTag(c: Crypto, root: Root, d: Descriptor): Tag {
    c.mac(root, DescriptorOf(d))
  }

  /** A descriptor that is in use, in the place where it says it is, and authenticated by its root. */
  predicate IsGenuine(c: Crypto, stored: Stored, root: Root, id: KeyId, provider: Provider, reference: Reference) {
    var d := stored.descriptor;
    && d.reference == reference && d.provider == provider && d.keyId == id && d.state != Prepared
    && c.keyId(root) == id
    && stored.tag == DescriptorTag(c, root, d)
  }

  /** The root that an entry leads to, when every check on the way passes. */
  function RootOf(c: Crypto, st: Storage, id: KeyId, ref: Ref): Option<Root> {
    match ref
    case KeyFile(name) =>
      if name in st.files && c.keyId(st.files[name]) == id then Some(st.files[name]) else None
    case Custody(provider, reference) =>
      if reference in st.descriptors && reference in st.native
         && IsGenuine(c, st.descriptors[reference], st.native[reference], id, provider, reference)
      then Some(st.native[reference]) else None
  }

  function Epochs(m: Manifest): map<KeyId, int> {
    if HasV3(m) then map id | id in m.keys && m.keys[id].epoch.Some? :: m.keys[id].epoch.value else map[]
  }

  function BindingTag(c: Crypto, scope: string, root: Root, m: Manifest): Tag {
    c.mac(root, BindingOf(scope, m.scopeId, m.features, Epochs(m)))
  }

  /** Where the root behind a manifest entry is found. */
  type Lookup = (KeyId, Ref) -> Option<Root>

  function LookupIn(c: Crypto, st: Storage): Lookup {
    (id: KeyId, ref: Ref) => RootOf(c, st, id, ref)
  }

  predicate OpensWith(c: Crypto, scope: string, lookup: Lookup, m: Manifest) {
    && ManifestLoads(m)
    && (forall id :: id in m.keys ==> lookup(id, m.keys[id].ref).Some?)
    && m.binding == BindingTag(c, scope, lookup(m.activeKeyId, m.keys[m.activeKeyId].ref).value, m)
  }

  /** Opening succeeds: the manifest loads, every listed key is recovered, and the scope is the bound one. */
  predicate Opens(c: Crypto, scope: string, st: Storage) {
    st.manifest.Some? && OpensWith(c, scope, LookupIn(c, st), st.manifest.value)
  }

  /** With authentic tags a profile opens under one scope only. */
  lemma OpensUnderOneScope(c: Crypto, st: Storage, a: string, b: string)
    requires forall root, x, y :: c.mac(root, x) == c.mac(root, y) ==> x == y
    requires Opens(c, a, st) && Opens(c, b, st)
    ensures a == b
  {
    var m := st.manifest.value;
    var root := LookupIn(c, st)(m.activeKeyId, m.keys[m.activeKeyId].ref).value;
    assert c.mac(root, BindingOf(a, m.scopeId, m.features, Epochs(m))) == c.mac(root, BindingOf(b, m.scopeId, m.features, Epochs(m)));
  }

  function Recovered(lookup: Lookup, m: Manifest): map<KeyId, Root> {
    map id | id in m.keys && lookup(id, m.keys[id].ref).Some? :: lookup(id, m.keys[id].ref).value
  }

  /** The roots an open profile recovers, by key id. */
  function Roots(c: Crypto, st: Storage): map<KeyId, Root> {
    if st.manifest.None? then map[] else Recovered(LookupIn(c, st), st.manifest.value)
  }
}
