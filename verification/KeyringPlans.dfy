/** The durable writes of each keyring operation, in order; an operation that is refused writes nothing more. */
module KeyringPlans {
  import opened Outcomes
  import opened KeyStorage

  datatype Op =
    | EnableFeature(feature: Feature)
    | BeginRotation(root: Root, reference: Reference)    // a fresh root and, for opaque custody, a fresh reference
    | MarkVerified
    | RetirePrevious
    | PrepareCustody(provider: Provider, reference: Reference, helper: string)
    | ActivateCustody(process: Process)
    | RetireFileCustody(process: Process)

  // ---- a new profile ----

  function FirstManifest(c: Crypto, scope: string, root: Root, scopeId: string): Manifest {
    var id := c.keyId(root);
    var m := Manifest(id, scopeId, "", map[id := KeyEntry(KeyFile(Named(id)), Active, None)], None, {});
    m.(binding := BindingTag(c, scope, root, m))
  }

  /** `_create_manifest`; the key file is created new, so an existing one stops it. */
  function CreatePlan(c: Crypto, scope: string, st: Storage, root: Root, scopeId: string): seq<Write> {
    var name := Named(c.keyId(root));
    if st.manifest.Some? || name in st.files then []
    else [CreateKeyFile(name, root), PutManifest(FirstManifest(c, scope, root, scopeId))]
  }

  // ---- features ----

  function ActiveEntry(m: Manifest): KeyEntry
    requires m.activeKeyId in m.keys
  {
    m.keys[m.activeKeyId]
  }

  function ActiveRoot(c: Crypto, st: Storage, m: Manifest): Option<Root>
    requires m.activeKeyId in m.keys
  {
    RootOf(c, st, m.activeKeyId, ActiveEntry(m).ref)
  }

  /** The manifest with the binding its active root gives it. */
  function Bound(c: Crypto, scope: string, root: Root, m: Manifest): Manifest {
    m.(binding := BindingTag(c, scope, root, m))
  }

  function WithEpochOne(m: Manifest): Manifest
    requires m.activeKeyId in m.keys
  {
    m.(features := m.features + {RecordEnvelopeV3}, keys := m.keys[m.activeKeyId := ActiveEntry(m).(epoch := Some(1))])
  }

  function EnablePlan(c: Crypto, scope: string, m: Manifest, root: Root, feature: Feature): seq<Write>
    requires m.activeKeyId in m.keys
  {
    if feature == RecordEnvelopeV3 then
      if m.rotation.Some? || HasV3(m) || m.keys.Keys != {m.activeKeyId} then []
      else [PutManifest(Bound(c, scope, root, WithEpochOne(m)))]
    else if feature in m.features then []
    else [PutManifest(Bound(c, scope, root, m.(features := m.features + {feature})))]
  }

  // ---- rotation ----

  ghost predicate IsLargestEpoch(m: Manifest, epoch: int) {
    && (exists id :: id in m.keys && m.keys[id].epoch == Some(epoch))
    && (forall id :: id in m.keys && m.keys[id].epoch.Some? ==> m.keys[id].epoch.value <= epoch)
  }

  /** The manifest that makes `target` the active key and `epoch` its epoch. */
  function RotatedManifest(c: Crypto, scope: string, m: Manifest, root: Root, ref: Ref, epoch: Option<int>): Manifest
    requires m.activeKeyId in m.keys
  {
    var source, target := m.activeKeyId, c.keyId(root);
    var keys := m.keys[source := ActiveEntry(m).(status := DecryptOnly)][target := KeyEntry(ref, Active, epoch)];
    Bound(c, scope, root, m.(activeKeyId := target, rotation := Some(Rotation(source, target, Migrating)), keys := keys))
  }

  /** Storing the new root: a new key file, or a native item with its descriptor. */
  function TargetRef(source: Ref, target: KeyId, reference: Reference): Ref {
    match source
    case KeyFile(_) => KeyFile(Named(target))
    case Custody(provider, _) => Custody(provider, reference)
  }

  function StoreRoot(c: Crypto, st: Storage, source: Ref, root: Root, reference: Reference): seq<Write>
    requires source.Custody? ==> source.reference in st.descriptors
  {
    match source
    case KeyFile(_) => [CreateKeyFile(Named(c.keyId(root)), root)]
    case Custody(provider, current) =>
      var d := Descriptor(provider, reference, c.keyId(root), st.descriptors[current].descriptor.helper, ActiveCustody);
      [ImportNative(reference, root), PutDescriptor(reference, Stored(d, DescriptorTag(c, root, d)))]
  }

  function EpochAfter(m: Manifest, largest: int): Option<int> {
    if HasV3(m) then Some(largest + 1) else None
  }

  /** The manifest comes last; past the last epoch its construction fails. */
  function BeginTail(c: Crypto, scope: string, m: Manifest, root: Root, ref: Ref, largest: int): seq<Write>
    requires m.activeKeyId in m.keys
  {
    if HasV3(m) && largest >= LAST_EPOCH then []
    else [PutManifest(RotatedManifest(c, scope, m, root, ref, EpochAfter(m, largest)))]
  }

  /**
   * `largest` is the largest epoch in the manifest. A rotation past the last epoch
   * fails only after the new root was stored.
   */
  function BeginPlan(c: Crypto, scope: string, st: Storage, m: Manifest, root: Root, reference: Reference, largest: int): seq<Write>
    requires m.activeKeyId in m.keys
    requires ActiveEntry(m).ref.Custody? ==> ActiveEntry(m).ref.reference in st.descriptors
  {
    var source, target := ActiveEntry(m).ref, c.keyId(root);
    if m.rotation.Some? || target in m.keys || (source.KeyFile? && Named(target) in st.files) then []
    else
      StoreRoot(c, st, source, root, reference)
      + BeginTail(c, scope, m, root, TargetRef(source, target, reference), largest)
  }

  function MarkPlan(m: Manifest): seq<Write> {
    match m.rotation
    case Some(Rotation(from, target, Migrating)) => [PutManifest(m.(rotation := Some(Rotation(from, target, Verified))))]
    case _ => []
  }

  function RetiredManifest(c: Crypto, scope: string, m: Manifest, root: Root, from: KeyId): Manifest {
    Bound(c, scope, root, m.(keys := m.keys - {from}, rotation := None))
  }

  function DropRoot(ref: Ref): seq<Write> {
    match ref
    case KeyFile(name) => [UnlinkKeyFile(name)]
    case Custody(_, reference) => [DeleteNative(reference), UnlinkDescriptor(reference)]
  }

  function RetirePlan(c: Crypto, scope: string, m: Manifest, root: Root): seq<Write> {
    match m.rotation
    case Some(Rotation(from, _, Verified)) =>
      if from !in m.keys then []
      else [PutManifest(RetiredManifest(c, scope, m, root, from))] + DropRoot(m.keys[from].ref)
    case _ => []
  }

  // ---- custody ----

  function PreparePlan(c: Crypto, m: Manifest, root: Root, provider: Provider, reference: Reference, helper: string): seq<Write>
    requires m.activeKeyId in m.keys
  {
    if !HasV3(m) || m.rotation.Some? || ActiveEntry(m).ref.Custody? then []
    else
      var d := Descriptor(provider, reference, m.activeKeyId, helper, Prepared);
      [ImportNative(reference, root), PutDescriptor(reference, Stored(d, DescriptorTag(c, root, d)))]
  }

  predicate IsPrepared(st: Storage, id: KeyId, reference: Reference) {
    reference in st.descriptors
    && st.descriptors[reference].descriptor.keyId == id
    && st.descriptors[reference].descriptor.state != ActiveCustody
  }

  /** `_prepared_custody_descriptor`: exactly one descriptor is prepared for the key. */
  ghost predicate OnlyPrepared(st: Storage, id: KeyId, reference: Reference) {
    forall r :: IsPrepared(st, id, r) <==> r == reference
  }

  /** Every derived key of the native root is that of the file root. */
  ghost predicate DerivesAlike(c: Crypto, scope: string, m: Manifest, native: Root, root: Root) {
    m.activeKeyId in m.keys && ActiveEntry(m).epoch.Some?
    && forall purpose: Purpose ::
         c.derive(native, Domain(scope, m.scopeId, ActiveEntry(m).epoch.value, purpose))
         == c.derive(root, Domain(scope, m.scopeId, ActiveEntry(m).epoch.value, purpose))
  }

  ghost predicate CanActivate(c: Crypto, scope: string, st: Storage, m: Manifest, root: Root, reference: Reference) {
    && m.activeKeyId in m.keys && ActiveEntry(m).ref.KeyFile? && HasV3(m)
    && OnlyPrepared(st, m.activeKeyId, reference)
    && reference in st.descriptors
    && var stored := st.descriptors[reference];
      && stored.descriptor.reference in st.native
      && var native := st.native[stored.descriptor.reference];
        && c.keyId(native) == m.activeKeyId
        && stored.tag == DescriptorTag(c, native, stored.descriptor)
        && DerivesAlike(c, scope, m, native, root)
  }

  function VerifiedCopy(c: Crypto, native: Root, d: Descriptor): Stored {
    var verified := d.(state := VerifiedCustody);
    Stored(verified, DescriptorTag(c, native, verified))
  }

  /** The same root under its native reference; the binding stays as it is. */
  function OpaqueManifest(m: Manifest, d: Descriptor): Manifest
    requires m.activeKeyId in m.keys
  {
    m.(keys := m.keys[m.activeKeyId := KeyEntry(Custody(d.provider, d.reference), Active, ActiveEntry(m).epoch)])
  }

  ghost function ActivatePlan(c: Crypto, scope: string, st: Storage, m: Manifest, root: Root, process: Process): seq<Write>
    requires m.activeKeyId in m.keys
  {
    if exists r :: CanActivate(c, scope, st, m, root, r) then
      var r :| CanActivate(c, scope, st, m, root, r);
      var d := st.descriptors[r].descriptor;
      var native := st.native[d.reference];
      [PutDescriptor(r, VerifiedCopy(c, native, d)),
       PutReceipt(Receipt(d.reference, process, c.mac(native, ActivationOf(d.reference, process)))),
       PutManifest(OpaqueManifest(m, d))]
    else []
  }

  /** The activation receipt is authentic and of another process. */
  predicate ReceiptAllows(c: Crypto, st: Storage, root: Root, reference: Reference, process: Process) {
    && st.receipt.Some?
    && st.receipt.value.reference == reference
    && st.receipt.value.tag == c.mac(root, ActivationOf(reference, st.receipt.value.process))
    && st.receipt.value.process != process
  }

  function ActivatedCopy(c: Crypto, root: Root, d: Descriptor): Stored {
    var active := d.(state := ActiveCustody);
    Stored(active, DescriptorTag(c, root, active))
  }

  function RetireFilePlan(c: Crypto, st: Storage, m: Manifest, root: Root, process: Process): seq<Write>
    requires m.activeKeyId in m.keys
  {
    match ActiveEntry(m).ref
    case KeyFile(_) => []
    case Custody(_, reference) =>
      if reference !in st.descriptors then []
      else
        var d, name := st.descriptors[reference].descriptor, Named(m.activeKeyId);
        if d.state == VerifiedCustody && !ReceiptAllows(c, st, root, d.reference, process) then []
        else
          (if d.state == VerifiedCustody then [PutDescriptor(reference, ActivatedCopy(c, root, d))] else [])
          + (if name !in st.files || c.keyId(st.files[name]) != m.activeKeyId then []
             else [UnlinkKeyFile(name)] + if st.receipt.Some? then [UnlinkReceipt] else [])
  }

  // ---- all operations ----

  ghost function LargestEpoch(m: Manifest): int {
    if exists e :: IsLargestEpoch(m, e) then var e :| IsLargestEpoch(m, e); e else 0
  }

  ghost function Plan(c: Crypto, scope: string, st: Storage, op: Op): seq<Write>
    requires Opens(c, scope, st)
  {
    var m := st.manifest.value;
    var root := ActiveRoot(c, st, m).value;
    match op
    case EnableFeature(feature) => EnablePlan(c, scope, m, root, feature)
    case BeginRotation(newRoot, reference) => BeginPlan(c, scope, st, m, newRoot, reference, LargestEpoch(m))
    case MarkVerified => MarkPlan(m)
    case RetirePrevious => RetirePlan(c, scope, m, root)
    case PrepareCustody(provider, reference, helper) => PreparePlan(c, m, root, provider, reference, helper)
    case ActivateCustody(process) => ActivatePlan(c, scope, st, m, root, process)
    case RetireFileCustody(process) => RetireFilePlan(c, st, m, root, process)
  }

  /** Random roots and references do not repeat what an earlier operation left behind. */
  ghost predicate Fresh(c: Crypto, st: Storage, op: Op) {
    match op
    case BeginRotation(root, reference) =>
      && reference !in st.descriptors && reference !in st.native
      && forall r :: r in st.descriptors ==> st.descriptors[r].descriptor.keyId != c.keyId(root)
    case PrepareCustody(_, reference, _) => reference !in st.descriptors && reference !in st.native
    case _ => true
  }
}
