/** What the published manifests change, and how long the raw root outlives an activation. */
module KeyringRemoval {
  import opened Outcomes
  import opened KeyStorage
  import opened KeyringPlans
  import opened KeyringSafety
  import opened KeyringSteps
  import opened KeyringRuns
  import opened KeyringGuards
  import opened KeyringEffects
  import opened Chains

  // ---- what an operation publishes ----

  /** The rotation recorded after an operation. */
  function RotationAfter(c: Crypto, m: Manifest, op: Op): Option<Rotation> {
    match op
    case BeginRotation(root, _) => Some(Rotation(m.activeKeyId, c.keyId(root), Migrating))
    case MarkVerified => if m.rotation.Some? then Some(Rotation(m.rotation.value.from, m.rotation.value.target, Verified)) else None
    case RetirePrevious => None
    case _ => m.rotation
  }

  function AddedKeys(c: Crypto, op: Op): set<KeyId> {
    if op.BeginRotation? then {c.keyId(op.root)} else {}
  }

  function DroppedKeys(m: Manifest, op: Op): set<KeyId> {
    if op.RetirePrevious? && m.rotation.Some? then {m.rotation.value.from} else {}
  }

  /** Only activation changes where a key that stays listed is found, and only that of the active key. */
  ghost predicate RefStays(m: Manifest, next: Manifest, op: Op, id: KeyId)
    requires id in m.keys && id in next.keys
  {
    next.keys[id].ref == m.keys[id].ref || (op.ActivateCustody? && id == m.activeKeyId && next.keys[id].ref.Custody?)
  }

  /** The new key is active and kept in the same kind of custody as the one before. */
  ghost predicate AddsActive(m: Manifest, next: Manifest, target: KeyId) {
    && m.activeKeyId in m.keys && target !in m.keys && target in next.keys && next.keys[target].status == Active
    && (next.keys[target].ref.Custody? <==> m.keys[m.activeKeyId].ref.Custody?)
  }

  /** Everything an operation may change in the manifest; the rest stays as it was. */
  ghost predicate ChangesOnly(c: Crypto, m: Manifest, next: Manifest, op: Op) {
    && next.scopeId == m.scopeId
    && next.features == m.features + (if op.EnableFeature? then {op.feature} else {})
    && next.rotation == RotationAfter(c, m, op)
    && next.activeKeyId == (if op.BeginRotation? then c.keyId(op.root) else m.activeKeyId)
    && (op.BeginRotation? ==> AddsActive(m, next, c.keyId(op.root)))
    && next.keys.Keys == m.keys.Keys + AddedKeys(c, op) - DroppedKeys(m, op)
    && (forall id :: id in m.keys && id in next.keys ==>
          && RefStays(m, next, op, id)
          && next.keys[id].status == (if op.BeginRotation? && id == m.activeKeyId then DecryptOnly else m.keys[id].status)
          && next.keys[id].epoch == (if op == EnableFeature(RecordEnvelopeV3) && id == m.activeKeyId then Some(1) else m.keys[id].epoch))
  }

  lemma EnableChangesOnly(c: Crypto, scope: string, m: Manifest, root: Root, feature: Feature, w: Write)
    requires ManifestLoads(m) && Shape(m) && w in EnablePlan(c, scope, m, root, feature) && w.PutManifest?
    ensures ChangesOnly(c, m, w.manifest, EnableFeature(feature))
  {
  }

  lemma BeginChangesOnly(c: Crypto, scope: string, st: Storage, m: Manifest, root: Root, reference: Reference, largest: int, w: Write)
    requires ManifestLoads(m) && Shape(m) && w.PutManifest?
    requires ActiveEntry(m).ref.Custody? ==> ActiveEntry(m).ref.reference in st.descriptors
    requires w in BeginPlan(c, scope, st, m, root, reference, largest)
    ensures ChangesOnly(c, m, w.manifest, BeginRotation(root, reference))
  {
    assert w in BeginTail(c, scope, m, root, TargetRef(ActiveEntry(m).ref, c.keyId(root), reference), largest);
  }

  lemma MarkChangesOnly(c: Crypto, m: Manifest, w: Write)
    requires w in MarkPlan(m) && w.PutManifest?
    ensures ChangesOnly(c, m, w.manifest, MarkVerified)
  {
  }

  lemma RetireChangesOnly(c: Crypto, scope: string, m: Manifest, root: Root, w: Write)
    requires w in RetirePlan(c, scope, m, root) && w.PutManifest?
    ensures ChangesOnly(c, m, w.manifest, RetirePrevious)
  {
  }

  lemma ActivateChangesOnly(c: Crypto, scope: string, st: Storage, m: Manifest, root: Root, process: Process, w: Write)
    requires ManifestLoads(m) && w in ActivatePlan(c, scope, st, m, root, process) && w.PutManifest?
    ensures ChangesOnly(c, m, w.manifest, ActivateCustody(process))
  {
    var r :| CanActivate(c, scope, st, m, root, r) && w.manifest == OpaqueManifest(m, st.descriptors[r].descriptor);
    assert w.manifest.keys.Keys == m.keys.Keys;
  }

  /** Each published manifest changes exactly what its operation is for. */
  lemma PublishedChangesOnly(c: Crypto, scope: string, st: Storage, m: Manifest, op: Op, w: Write)
    requires Healthy(c, scope, st) && st.manifest == Some(m) && w in Plan(c, scope, st, op) && w.PutManifest?
    ensures ChangesOnly(c, m, w.manifest, op)
  {
    hide ChangesOnly, CustodyAgrees;
    var root := ActiveRoot(c, st, m).value;
    match op
    case EnableFeature(feature) => EnableChangesOnly(c, scope, m, root, feature, w);
    case BeginRotation(newRoot, reference) => BeginChangesOnly(c, scope, st, m, newRoot, reference, LargestEpoch(m), w);
    case MarkVerified => MarkChangesOnly(c, m, w);
    case RetirePrevious => RetireChangesOnly(c, scope, m, root, w);
    case ActivateCustody(process) => ActivateChangesOnly(c, scope, st, m, root, process, w);
    case _ =>
  }

  /** The native root with an active descriptor that names the same helper as the one before. */
  ghost predicate HasNativeRoot(c: Crypto, st: Storage, provider: Provider, reference: Reference, root: Root, helper: string) {
    && reference in st.native && st.native[reference] == root && reference in st.descriptors
    && st.descriptors[reference].descriptor == Descriptor(provider, reference, c.keyId(root), helper, ActiveCustody)
    && st.descriptors[reference].tag == c.mac(root, DescriptorOf(st.descriptors[reference].descriptor))
  }

  /** What a rotation has stored when it publishes: the new key file, or the native root with its descriptor. */
  lemma StoredRootIs(c: Crypto, scope: string, st: Storage, m: Manifest, root: Root, reference: Reference)
    requires Healthy(c, scope, st) && st.manifest == Some(m) && Plan(c, scope, st, BeginRotation(root, reference)) != []
    ensures var ws, source := Plan(c, scope, st, BeginRotation(root, reference)), m.keys[m.activeKeyId].ref;
      var after := After(st, ws, |ws|);
      && (source.KeyFile? ==> Named(c.keyId(root)) in after.files && after.files[Named(c.keyId(root))] == root)
      && (source.Custody? ==> source.reference in st.descriptors)
      && (source.Custody? ==>
            HasNativeRoot(c, after, source.provider, reference, root, st.descriptors[source.reference].descriptor.helper))
  {
    hide Shape, CustodyAgrees, HasNativeRoot;
    RootsComeFrom(c, scope, st, m, m.activeKeyId);
    var source := m.keys[m.activeKeyId].ref;
    StoredWrites(c, st, source, root, reference, BeginTail(c, scope, m, root, TargetRef(source, c.keyId(root), reference), LargestEpoch(m)));
  }

  lemma StoredWrites(c: Crypto, st: Storage, source: Ref, root: Root, reference: Reference, tail: seq<Write>)
    requires source.Custody? ==> source.reference in st.descriptors
    requires |tail| <= 1 && forall w :: w in tail ==> w.PutManifest?
    ensures var ws := StoreRoot(c, st, source, root, reference) + tail;
      var after := After(st, ws, |ws|);
      && (source.KeyFile? ==> Named(c.keyId(root)) in after.files && after.files[Named(c.keyId(root))] == root)
      && (source.Custody? ==> HasNativeRoot(c, after, source.provider, reference, root, st.descriptors[source.reference].descriptor.helper))
  {
    var stored := StoreRoot(c, st, source, root, reference);
    var ws := stored + tail;
    FirstWrites(st, ws);
    assert forall i :: 0 <= i < |stored| ==> ws[i] == stored[i];
    if tail != [] {
      assert tail[0] in tail && ws[|stored|] == tail[0];
    }
  }

  /** A completed creation: one active key in its own file, no features, no rotation, bound to the given scope id. */
  lemma CreationTakesEffect(c: Crypto, scope: string, st: Storage, root: Root, scopeId: string)
    requires st.manifest == None && Named(c.keyId(root)) !in st.files
    ensures var ws := CreatePlan(c, scope, st, root, scopeId);
      var after := After(st, ws, |ws|);
      && after.manifest.Some? && after.files == st.files[Named(c.keyId(root)) := root] && after.descriptors == st.descriptors
      && var m := after.manifest.value;
        && m.activeKeyId == c.keyId(root) && m.scopeId == scopeId && m.features == {} && m.rotation == None
        && m.keys == map[c.keyId(root) := KeyEntry(KeyFile(Named(c.keyId(root))), Active, None)]
        && m.binding == c.mac(root, BindingOf(scope, scopeId, {}, map[]))
  {
    FirstWrites(st, CreatePlan(c, scope, st, root, scopeId));
  }

  // ---- the raw root after an activation ----

  /** The custody of `id` was activated by `process` and is not yet active; the raw root is still in its file. */
  ghost predicate ActivatedBy(c: Crypto, scope: string, st: Storage, id: KeyId, r: Reference, process: Process) {
    && Healthy(c, scope, st) && st.manifest.value.activeKeyId == id
    && st.manifest.value.keys[id].ref.Custody? && st.manifest.value.keys[id].ref.reference == r
    && r in st.descriptors && st.descriptors[r].descriptor.state == VerifiedCustody
    && st.receipt.Some? && st.receipt.value.process == process
    && Named(id) in st.files
  }

  /** The process that an operation runs in, where that matters. */
  predicate RunsIn(op: Op, process: Process) {
    match op
    case ActivateCustody(p) => p == process
    case RetireFileCustody(p) => p == process
    case _ => true
  }

  /** The write touches neither the raw file of `id`, nor the descriptor `r`, nor the receipt. */
  predicate LeavesAlone(w: Write, id: KeyId, r: Reference) {
    match w
    case CreateKeyFile(name, _) => name != Named(id)
    case UnlinkKeyFile(name) => name != Named(id)
    case PutDescriptor(x, _) => x != r
    case UnlinkDescriptor(x) => x != r
    case PutReceipt(_) => false
    case UnlinkReceipt => false
    case _ => true
  }

  ghost predicate SameRemains(a: Storage, b: Storage, id: KeyId, r: Reference) {
    && b.receipt == a.receipt
    && (Named(id) in b.files <==> Named(id) in a.files) && (Named(id) in a.files ==> b.files[Named(id)] == a.files[Named(id)])
    && (r in b.descriptors <==> r in a.descriptors) && (r in a.descriptors ==> b.descriptors[r] == a.descriptors[r])
  }

  lemma {:induction false} LeftAlone(st: Storage, ws: seq<Write>, n: nat, id: KeyId, r: Reference)
    requires n <= |ws| && forall k :: 0 <= k < |ws| ==> LeavesAlone(ws[k], id, r)
    ensures SameRemains(st, After(st, ws, n), id, r)
  {
    if n > 0 {
      LeftAlone(st, ws, n - 1, id, r);
    }
  }

  lemma RetireLeavesAlone(c: Crypto, scope: string, m: Manifest, root: Root, r: Reference, k: nat)
    requires Shape(m) && m.keys[m.activeKeyId].ref.Custody? && m.keys[m.activeKeyId].ref.reference == r
    requires k < |RetirePlan(c, scope, m, root)|
    ensures LeavesAlone(RetirePlan(c, scope, m, root)[k], m.activeKeyId, r)
  {
  }

  lemma BeginLeavesAlone(c: Crypto, scope: string, st: Storage, m: Manifest, root: Root, reference: Reference, largest: int, r: Reference, k: nat)
    requires m.activeKeyId in m.keys && m.keys[m.activeKeyId].ref.Custody? && m.keys[m.activeKeyId].ref.reference == r
    requires r in st.descriptors && reference !in st.descriptors && k < |BeginPlan(c, scope, st, m, root, reference, largest)|
    ensures LeavesAlone(BeginPlan(c, scope, st, m, root, reference, largest)[k], m.activeKeyId, r)
  {
  }

  /** No operation in the activating process touches what the removal waits for. */
  lemma PlanLeavesAlone(c: Crypto, scope: string, st: Storage, id: KeyId, r: Reference, process: Process, op: Op, k: nat)
    requires ActivatedBy(c, scope, st, id, r, process) && Fresh(c, st, op) && RunsIn(op, process) && k < |Plan(c, scope, st, op)|
    ensures LeavesAlone(Plan(c, scope, st, op)[k], id, r)
  {
    hide CustodyAgrees, LeavesAlone;
    var m := st.manifest.value;
    var root := ActiveRoot(c, st, m).value;
    if op.RetireFileCustody? {
      RemovalNeedsAnotherProcess(c, scope, st, m, r, process);
    } else if op.RetirePrevious? {
      RetireLeavesAlone(c, scope, m, root, r, k);
    } else if op.BeginRotation? {
      BeginLeavesAlone(c, scope, st, m, op.root, op.reference, LargestEpoch(m), r, k);
    } else {
      OthersLeaveAlone(c, scope, st, m, root, op, r, k);
    }
  }

  lemma OthersLeaveAlone(c: Crypto, scope: string, st: Storage, m: Manifest, root: Root, op: Op, r: Reference, k: nat)
    requires Opens(c, scope, st) && st.manifest == Some(m) && m.keys[m.activeKeyId].ref.Custody?
    requires op.EnableFeature? || op.MarkVerified? || op.PrepareCustody? || op.ActivateCustody?
    requires k < |Plan(c, scope, st, op)|
    ensures LeavesAlone(Plan(c, scope, st, op)[k], m.activeKeyId, r)
  {
  }

  lemma StaysActivatedBy(c: Crypto, scope: string, st: Storage, id: KeyId, r: Reference, process: Process, op: Op, n: nat)
    requires ActivatedBy(c, scope, st, id, r, process) && Fresh(c, st, op) && RunsIn(op, process) && n <= |Plan(c, scope, st, op)|
    requires After(st, Plan(c, scope, st, op), n).manifest.Some? ==> After(st, Plan(c, scope, st, op), n).manifest.value.activeKeyId == id
    ensures ActivatedBy(c, scope, After(st, Plan(c, scope, st, op), n), id, r, process)
    ensures After(st, Plan(c, scope, st, op), n).files[Named(id)] == st.files[Named(id)]
  {
    hide CustodyAgrees, LeavesAlone, Shape;
    var ws := Plan(c, scope, st, op);
    EveryStopIsSafe(c, scope, st, op, n);
    forall k | 0 <= k < |ws| ensures LeavesAlone(ws[k], id, r) {
      PlanLeavesAlone(c, scope, st, id, r, process, op, k);
    }
    LeftAlone(st, ws, n, id, r);
    ActiveRefStays(c, scope, st, st.manifest.value, op, n);
  }

  lemma ActiveRefStays(c: Crypto, scope: string, st: Storage, m: Manifest, op: Op, n: nat)
    requires Healthy(c, scope, st) && st.manifest == Some(m) && m.keys[m.activeKeyId].ref.Custody? && n <= |Plan(c, scope, st, op)|
    ensures var after := After(st, Plan(c, scope, st, op), n);
      after.manifest.Some? && (after.manifest.value.activeKeyId == m.activeKeyId && m.activeKeyId in after.manifest.value.keys ==>
        after.manifest.value.keys[m.activeKeyId].ref == m.keys[m.activeKeyId].ref)
  {
    hide Shape, CustodyAgrees, OpensWith;
    var ws, id := Plan(c, scope, st, op), m.activeKeyId;
    ManifestAfter(st, ws, n);
    if After(st, ws, n).manifest != st.manifest {
      var k :| 0 <= k < n && ws[k].PutManifest? && After(st, ws, n).manifest == Some(ws[k].manifest);
      PublishedChangesOnly(c, scope, st, m, op, ws[k]);
      if op.ActivateCustody? {
        ActivateWritesWhen(c, scope, st, m, op.process);
      }
    }
  }

  /**
   * After a completed activation the activating process may not remove the raw root:
   * its retirement writes nothing, while another process's removes the file.
   */
  lemma ActivatorMayNotRemove(c: Crypto, scope: string, st: Storage, m: Manifest, process: Process, other: Process)
    requires Healthy(c, scope, st) && st.manifest == Some(m) && m.keys[m.activeKeyId].ref == KeyFile(Named(m.activeKeyId))
    requires Plan(c, scope, st, ActivateCustody(process)) != [] && other != process
    ensures var ws := Plan(c, scope, st, ActivateCustody(process));
      var after := After(st, ws, |ws|);
      && Opens(c, scope, after)
      && (exists r :: ActivatedBy(c, scope, after, m.activeKeyId, r, process))
      && Plan(c, scope, after, RetireFileCustody(process)) == []
      && UnlinkKeyFile(Named(m.activeKeyId)) in Plan(c, scope, after, RetireFileCustody(other))
  {
    hide ActivatedBy, Shape, CustodyAgrees, Plan;
    var root := Roots(c, st)[m.activeKeyId];
    var d := ActivatedIs(c, scope, st, m, root, process);
    var ws := Plan(c, scope, st, ActivateCustody(process));
    ActivationLeaves(c, scope, st, m, root, d, process);
    OpeningMeans(c, scope, st, m, m.activeKeyId);
    RootsComeFrom(c, scope, st, m, m.activeKeyId);
    ActivatedHolds(c, scope, After(st, ws, |ws|), m.activeKeyId, d.reference, process);
    RemovalUnlinks(c, scope, After(st, ws, |ws|), m.activeKeyId, d.reference, process, other);
  }

  lemma ActivatedHolds(c: Crypto, scope: string, st: Storage, id: KeyId, r: Reference, process: Process)
    requires ActivatedBy(c, scope, st, id, r, process)
    ensures Opens(c, scope, st) && Named(id) in st.files && st.receipt.Some?
  {
  }

  lemma ActivationLeaves(c: Crypto, scope: string, st: Storage, m: Manifest, root: Root, d: Descriptor, process: Process)
    requires Healthy(c, scope, st) && st.manifest == Some(m) && root == Roots(c, st)[m.activeKeyId] && ReadyToActivate(c, st, root, d)
    requires m.keys[m.activeKeyId].ref == KeyFile(Named(m.activeKeyId))
    ensures var ws := CheckWrites(c, root, d, process) + [PutManifest(OpaqueManifest(m, d))];
      var after := After(st, ws, |ws|);
      && ActivatedBy(c, scope, after, m.activeKeyId, d.reference, process)
      && after.files == st.files && after.manifest == Some(OpaqueManifest(m, d))
      && after.receipt == Some(Receipt(d.reference, process, c.mac(root, ActivationOf(d.reference, process))))
      && Roots(c, after) == Roots(c, st)
  {
    hide Shape, CustodyAgrees, OpensWith, Recovered;
    RootsComeFrom(c, scope, st, m, m.activeKeyId);
    ActivationTakesEffect(c, scope, st, m, d, process);
    ActivatedContents(c, st, m, root, d, process);
  }

  /** What a completed activation leaves. */
  lemma ActivatedIs(c: Crypto, scope: string, st: Storage, m: Manifest, root: Root, process: Process) returns (d: Descriptor)
    requires Healthy(c, scope, st) && st.manifest == Some(m) && root == Roots(c, st)[m.activeKeyId]
    requires Plan(c, scope, st, ActivateCustody(process)) != []
    ensures ReadyToActivate(c, st, root, d)
    ensures Plan(c, scope, st, ActivateCustody(process)) == CheckWrites(c, root, d, process) + [PutManifest(OpaqueManifest(m, d))]
  {
    hide Shape, CustodyAgrees, ManifestLoads;
    var r :| CanActivate(c, scope, st, m, root, r);
    ActivationIsPlanned(c, scope, st, m, root, r, process);
    d := st.descriptors[r].descriptor;
  }

  lemma RemovalUnlinks(c: Crypto, scope: string, st: Storage, id: KeyId, r: Reference, process: Process, other: Process)
    requires ActivatedBy(c, scope, st, id, r, process) && other != process && c.keyId(st.files[Named(id)]) == id
    requires st.receipt.value.reference == r && st.receipt.value.tag == c.mac(Roots(c, st)[id], ActivationOf(r, process))
    ensures Plan(c, scope, st, RetireFileCustody(process)) == []
    ensures UnlinkKeyFile(Named(id)) in Plan(c, scope, st, RetireFileCustody(other))
  {
    hide Shape, CustodyAgrees;
    RootsComeFrom(c, scope, st, st.manifest.value, id);
    RemovalNeedsAnotherProcess(c, scope, st, st.manifest.value, r, process);
  }

  /** A step of the activating process that leaves the key the active one. */
  ghost predicate StepsIn(c: Crypto, scope: string, before: Storage, after: Storage, id: KeyId, process: Process) {
    exists op, n: nat :: Takes(c, scope, before, Do(op), n, after) && RunsIn(op, process)
                    && after.manifest.Some? && after.manifest.value.activeKeyId == id
  }

  /**
   * However long the process that activated custody goes on, and wherever its
   * operations stop, the raw root stays in its file while its key is the active one.
   */
  lemma RawRootOutlivesItsProcess(c: Crypto, scope: string, states: seq<Storage>, i: nat, id: KeyId, r: Reference, process: Process)
    requires states != [] && ActivatedBy(c, scope, states[0], id, r, process) && i < |states|
    requires IsChain((a, b) => StepsIn(c, scope, a, b, id, process), states)
    ensures Named(id) in states[i].files && states[i].files[Named(id)] == states[0].files[Named(id)]
    ensures ActivatedBy(c, scope, states[i], id, r, process)
  {
    hide ActivatedBy;
    ActivatedHolds(c, scope, states[0], id, r, process);
    var root := states[0].files[Named(id)];
    var next := (a, b) => StepsIn(c, scope, a, b, id, process);
    var inv := (st: Storage) => ActivatedBy(c, scope, st, id, r, process) && Named(id) in st.files && st.files[Named(id)] == root;
    forall a, b | inv(a) && next(a, b) ensures inv(b) {
      StepKeepsTheFile(c, scope, a, b, id, r, process);
    }
    KeptAlong(next, inv, states, 0, i);
  }

  lemma StepKeepsTheFile(c: Crypto, scope: string, a: Storage, b: Storage, id: KeyId, r: Reference, process: Process)
    requires ActivatedBy(c, scope, a, id, r, process) && StepsIn(c, scope, a, b, id, process) && Named(id) in a.files
    ensures ActivatedBy(c, scope, b, id, r, process) && Named(id) in b.files && b.files[Named(id)] == a.files[Named(id)]
  {
    hide OpensWith, Shape, CustodyAgrees, Plan, Fresh;
    var op, n: nat :| Takes(c, scope, a, Do(op), n, b) && RunsIn(op, process);
    StaysActivatedBy(c, scope, a, id, r, process, op, n);
  }
}
