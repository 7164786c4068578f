/**
 * A manifest that is published although the write reports a failure: the open keyring
 * goes on with the manifest it had, and its next operation starts from that one.
 */
module KeyringStale {
  import opened Outcomes
  import opened KeyStorage
  import opened KeyringPlans
  import opened KeyringSafety
  import opened KeyringSteps
  import opened KeyringRuns

  /** The storage as the open keyring takes it to be. */
  function Believed(disk: Storage, m: Manifest): Storage {
    disk.(manifest := Some(m))
  }

  /** The stored manifest lists some of the same keys under the same references. */
  ghost predicate LeadsOver(c: Crypto, scope: string, roots: map<KeyId, Root>, m: Manifest, next: Manifest) {
    && SameRefs(m, next) && ManifestLoads(next) && Shape(next)
    && next.activeKeyId in roots && next.binding == BindingTag(c, scope, roots[next.activeKeyId], next)
  }

  /** The stored manifest has the active key under its native reference. */
  ghost predicate LeadsToNative(lookup: Lookup, m: Manifest, next: Manifest, d: Descriptor) {
    && m.activeKeyId in m.keys && ActiveEntry(m).ref.KeyFile? && HasV3(m) && next == OpaqueManifest(m, d)
    && lookup(m.activeKeyId, Custody(d.provider, d.reference)).Some?
    && lookup(m.activeKeyId, Custody(d.provider, d.reference)) == lookup(m.activeKeyId, ActiveEntry(m).ref)
  }

  /** The keyring has `m` in memory, and the disk has a manifest it tried to publish. */
  ghost predicate Lags(c: Crypto, scope: string, disk: Storage, m: Manifest) {
    && Healthy(c, scope, Believed(disk, m)) && disk.manifest.Some?
    && (LeadsOver(c, scope, Roots(c, Believed(disk, m)), m, disk.manifest.value)
        || exists d :: LeadsToNative(LookupIn(c, Believed(disk, m)), m, disk.manifest.value, d))
  }

  lemma LaggingIsHealthy(c: Crypto, scope: string, disk: Storage, m: Manifest)
    requires Lags(c, scope, disk, m)
    ensures Healthy(c, scope, disk) && KeepsRoots(Roots(c, Believed(disk, m)), Roots(c, disk))
    ensures Roots(c, disk).Keys <= Roots(c, Believed(disk, m)).Keys
  {
    hide OpensWith, Shape, CustodyAgrees, ManifestLoads;
    var believed, next := Believed(disk, m), disk.manifest.value;
    assert Perform(believed, PutManifest(next)) == disk;
    if LeadsOver(c, scope, Roots(c, believed), m, next) {
      PublishOverSameRefs(c, scope, believed, next);
      FewerRoots(c, disk, m, next);
    } else {
      var d :| LeadsToNative(LookupIn(c, believed), m, next, d);
      ActivationPublishes(c, scope, believed, Roots(c, believed)[m.activeKeyId], d);
    }
  }

  lemma FewerRoots(c: Crypto, disk: Storage, m: Manifest, next: Manifest)
    requires SameRefs(m, next)
    ensures Recovered(LookupIn(c, disk), next).Keys <= Recovered(LookupIn(c, Believed(disk, m)), m).Keys
  {
    forall id | id in next.keys ensures LookupIn(c, disk)(id, next.keys[id].ref) == LookupIn(c, Believed(disk, m))(id, m.keys[id].ref) {
    }
  }

  // ---- how a keyring comes to lag ----

  lemma EnabledLeads(c: Crypto, scope: string, st: Storage, feature: Feature, w: Write)
    requires Healthy(c, scope, st) && [w] == EnablePlan(c, scope, st.manifest.value, Roots(c, st)[st.manifest.value.activeKeyId], feature)
    ensures w.PutManifest? && LeadsOver(c, scope, Roots(c, st), st.manifest.value, w.manifest)
  {
    hide Shape, CustodyAgrees, BindingTag, RootOf;
    var m, root := st.manifest.value, Roots(c, st)[st.manifest.value.activeKeyId];
    if feature == RecordEnvelopeV3 {
      WithEpochOneLoads(m);
      BoundLoads(c, scope, root, WithEpochOne(m));
    } else {
      WithFeatureLoads(m, feature);
      BoundLoads(c, scope, root, m.(features := m.features + {feature}));
    }
  }

  lemma MarkedLeads(c: Crypto, scope: string, st: Storage, w: Write)
    requires Healthy(c, scope, st) && [w] == MarkPlan(st.manifest.value)
    ensures w.PutManifest? && LeadsOver(c, scope, Roots(c, st), st.manifest.value, w.manifest)
  {
    MarkedLoads(c, scope, LookupIn(c, st), st.manifest.value);
  }

  lemma RetiredLeads(c: Crypto, scope: string, st: Storage, from: KeyId)
    requires Healthy(c, scope, st) && st.manifest.value.rotation.Some? && st.manifest.value.rotation.value.from == from
    ensures var m := st.manifest.value;
      LeadsOver(c, scope, Roots(c, st), m, RetiredManifest(c, scope, m, Roots(c, st)[m.activeKeyId], from))
  {
    var m := st.manifest.value;
    WithoutPreviousLoads(m, from);
    BoundLoads(c, scope, Roots(c, st)[m.activeKeyId], m.(keys := m.keys - {from}, rotation := None));
  }

  /** An activation that published has the storage of its checks, and its item leads to the root. */
  lemma ActivatedLags(c: Crypto, scope: string, st: Storage, process: Process, k: nat)
    requires Healthy(c, scope, st)
    requires var ws := Plan(c, scope, st, ActivateCustody(process)); 0 < k <= |ws| && ws[k - 1].PutManifest?
    ensures Lags(c, scope, After(st, Plan(c, scope, st, ActivateCustody(process)), k), st.manifest.value)
  {
    hide Shape, CustodyAgrees, CanActivate, Lags;
    var m, root := st.manifest.value, Roots(c, st)[st.manifest.value.activeKeyId];
    var r := ActivationWrites(c, scope, st, m, root, process);
    var d := st.descriptors[r].descriptor;
    var ws := CheckWrites(c, root, d, process);
    CheckWritesAreSafe(c, scope, st, root, d, process, 2);
    VerifiedItemLeads(c, st, root, d, process);
    AfterPrefix(st, ws, [PutManifest(OpaqueManifest(m, d))], 2);
    SwitchedLags(c, scope, After(st, ws, 2), m, root, d);
  }

  lemma SwitchedLags(c: Crypto, scope: string, st: Storage, m: Manifest, root: Root, d: Descriptor)
    requires Healthy(c, scope, st) && st.manifest == Some(m) && HasV3(m) && ActiveEntry(m).ref.KeyFile?
    requires root == Roots(c, st)[m.activeKeyId] && LookupIn(c, st)(m.activeKeyId, Custody(d.provider, d.reference)) == Some(root)
    ensures Lags(c, scope, Perform(st, PutManifest(OpaqueManifest(m, d))), m)
  {
    hide Shape, CustodyAgrees, RootOf;
    var disk := Perform(st, PutManifest(OpaqueManifest(m, d)));
    assert Believed(disk, m) == st;
    assert LeadsToNative(LookupIn(c, st), m, OpaqueManifest(m, d), d);
  }

  lemma LeadingLags(c: Crypto, scope: string, st: Storage, m: Manifest, ws: seq<Write>)
    requires Healthy(c, scope, st) && st.manifest == Some(m) && ws != [] && ws[0].PutManifest?
    requires LeadsOver(c, scope, Roots(c, st), m, ws[0].manifest)
    ensures Lags(c, scope, After(st, ws, 1), m)
  {
    hide OpensWith, Shape, CustodyAgrees, LeadsOver, Recovered;
    FirstWrites(st, ws);
    assert Believed(After(st, ws, 1), m) == st;
  }

  lemma WhichPublish(c: Crypto, scope: string, st: Storage, op: Op, k: nat)
    requires Opens(c, scope, st) && !op.BeginRotation? && k < |Plan(c, scope, st, op)| && Plan(c, scope, st, op)[k].PutManifest?
    ensures op.ActivateCustody? || ((op.EnableFeature? || op.MarkVerified? || op.RetirePrevious?) && k == 0)
  {
    hide ManifestLoads, BindingTag;
  }

  lemma RetirementLags(c: Crypto, scope: string, st: Storage)
    requires Healthy(c, scope, st) && Plan(c, scope, st, RetirePrevious) != []
    ensures Lags(c, scope, After(st, Plan(c, scope, st, RetirePrevious), 1), st.manifest.value)
  {
    hide LeadsOver, Shape;
    var m := st.manifest.value;
    RetiredLeads(c, scope, st, m.rotation.value.from);
    LeadingLags(c, scope, st, m, Plan(c, scope, st, RetirePrevious));
  }

  /** A publication that lands although it is reported as failed leaves the keyring lagging. */
  lemma FailedPublicationLags(c: Crypto, scope: string, st: Storage, op: Op, k: nat)
    requires Healthy(c, scope, st) && !op.BeginRotation?
    requires 0 < k <= |Plan(c, scope, st, op)| && Plan(c, scope, st, op)[k - 1].PutManifest?
    ensures Lags(c, scope, After(st, Plan(c, scope, st, op), k), st.manifest.value)
  {
    hide LeadsOver, Lags, BindingTag, Shape, CustodyAgrees, ActivatePlan, RetireFilePlan, BeginPlan;
    var ws := Plan(c, scope, st, op);
    WhichPublish(c, scope, st, op, k - 1);
    if op.ActivateCustody? {
      ActivatedLags(c, scope, st, op.process, k);
    } else if op.RetirePrevious? {
      RetirementLags(c, scope, st);
    } else {
      if op.EnableFeature? {
        EnabledLeads(c, scope, st, op.feature, ws[0]);
      } else {
        MarkedLeads(c, scope, st, ws[0]);
      }
      LeadingLags(c, scope, st, st.manifest.value, ws);
    }
  }

  // ---- how it goes on ----

  ghost predicate Publishes(ws: seq<Write>, n: nat)
    requires n <= |ws|
  {
    exists k :: 0 <= k < n && ws[k].PutManifest?
  }

  lemma NotPublished(ws: seq<Write>, n: nat, k: nat)
    requires k < n <= |ws| && !Publishes(ws, n)
    ensures !ws[k].PutManifest?
  {
  }

  lemma LostWrite(disk: Storage, m: Manifest, w: Write)
    ensures w.PutManifest? ==> Perform(disk, w) == Perform(Believed(disk, m), w)
    ensures !w.PutManifest? ==> Perform(disk, w) == Perform(Believed(disk, m), w).(manifest := disk.manifest)
    ensures !w.PutManifest? ==> Perform(Believed(disk, m), w).manifest == Some(m)
  {
  }

  /** The lost publication is as though it were performed last, until the next one replaces it. */
  lemma {:induction false} LostPublication(disk: Storage, m: Manifest, ws: seq<Write>, n: nat)
    requires n <= |ws|
    ensures Publishes(ws, n) ==> After(disk, ws, n) == After(Believed(disk, m), ws, n)
    ensures !Publishes(ws, n) ==> Believed(After(disk, ws, n), m) == After(Believed(disk, m), ws, n)
    ensures !Publishes(ws, n) ==> After(disk, ws, n).manifest == disk.manifest
  {
    if n > 0 {
      hide Perform;
      LostPublication(disk, m, ws, n - 1);
      assert Publishes(ws, n) <==> Publishes(ws, n - 1) || ws[n - 1].PutManifest?;
      LostWrite(After(disk, ws, n - 1), m, ws[n - 1]);
    }
  }

  /** The write leaves the item where it is. */
  ghost predicate Spares(st: Storage, r: Reference, w: Write) {
    match w
    case PutDescriptor(x, stored) => x == r ==> x in st.descriptors && stored == st.descriptors[x]
    case UnlinkDescriptor(x) => x != r
    case ImportNative(x, _) => x != r
    case DeleteNative(x) => x != r
    case _ => true
  }

  lemma SparingWrite(c: Crypto, st: Storage, w: Write, id: KeyId, provider: Provider, r: Reference)
    requires Spares(st, r, w)
    ensures LookupIn(c, Perform(st, w))(id, Custody(provider, r)) == LookupIn(c, st)(id, Custody(provider, r))
    ensures r in Perform(st, w).descriptors <==> r in st.descriptors
    ensures r in st.descriptors ==> Perform(st, w).descriptors[r] == st.descriptors[r]
  {
  }

  lemma {:induction false} SparedItem(c: Crypto, st: Storage, ws: seq<Write>, n: nat, id: KeyId, provider: Provider, r: Reference)
    requires n <= |ws| && forall k :: 0 <= k < n ==> Spares(st, r, ws[k])
    ensures LookupIn(c, After(st, ws, n))(id, Custody(provider, r)) == LookupIn(c, st)(id, Custody(provider, r))
    ensures r in After(st, ws, n).descriptors <==> r in st.descriptors
    ensures r in st.descriptors ==> After(st, ws, n).descriptors[r] == st.descriptors[r]
  {
    if n > 0 {
      SparedItem(c, st, ws, n - 1, id, provider, r);
      SparingWrite(c, After(st, ws, n - 1), ws[n - 1], id, provider, r);
    }
  }

  /** An activation rewrites a verified item as it is. */
  lemma CheckWritesSpare(c: Crypto, scope: string, st: Storage, root: Root, x: Reference, process: Process, provider: Provider, r: Reference, k: nat)
    requires Healthy(c, scope, st) && root == Roots(c, st)[st.manifest.value.activeKeyId]
    requires CanActivate(c, scope, st, st.manifest.value, root, x) && k < 2
    requires LookupIn(c, st)(st.manifest.value.activeKeyId, Custody(provider, r)) == Some(root)
    ensures Spares(st, r, CheckWrites(c, root, st.descriptors[x].descriptor, process)[k])
  {
    PreparedHoldsTheRoot(c, scope, st, root, x);
    assert IsPrepared(st, st.manifest.value.activeKeyId, x);
  }

  lemma ActivationSpares(c: Crypto, scope: string, st: Storage, m: Manifest, root: Root, process: Process, provider: Provider, r: Reference, k: nat)
    requires Healthy(c, scope, st) && st.manifest == Some(m) && root == Roots(c, st)[m.activeKeyId]
    requires LookupIn(c, st)(m.activeKeyId, Custody(provider, r)) == Some(root)
    requires var ws := ActivatePlan(c, scope, st, m, root, process); k < |ws| && !Publishes(ws, k + 1)
    ensures Spares(st, r, ActivatePlan(c, scope, st, m, root, process)[k])
  {
    hide OpensWith, Shape, CustodyAgrees, Spares, LookupIn;
    var ws := ActivatePlan(c, scope, st, m, root, process);
    var x := ActivationWrites(c, scope, st, m, root, process);
    NotPublished(ws, k + 1, k);
    CheckWritesSpare(c, scope, st, root, x, process, provider, r, k);
  }

  lemma ActivationWrites(c: Crypto, scope: string, st: Storage, m: Manifest, root: Root, process: Process) returns (x: Reference)
    requires Healthy(c, scope, st) && st.manifest == Some(m) && root == Roots(c, st)[m.activeKeyId]
    requires ActivatePlan(c, scope, st, m, root, process) != []
    ensures CanActivate(c, scope, st, m, root, x) && x in st.descriptors && ReadyToActivate(c, st, root, st.descriptors[x].descriptor)
    ensures ActivatePlan(c, scope, st, m, root, process)
         == CheckWrites(c, root, st.descriptors[x].descriptor, process) + [PutManifest(OpaqueManifest(m, st.descriptors[x].descriptor))]
  {
    hide Shape, CustodyAgrees;
    x :| CanActivate(c, scope, st, m, root, x);
    ActivationIsPlanned(c, scope, st, m, root, x, process);
  }

  lemma StoringSpares(c: Crypto, scope: string, st: Storage, m: Manifest, root: Root, reference: Reference, largest: int, r: Reference, k: nat)
    requires m.activeKeyId in m.keys && ActiveEntry(m).ref.KeyFile? && k < |BeginPlan(c, scope, st, m, root, reference, largest)|
    ensures Spares(st, r, BeginPlan(c, scope, st, m, root, reference, largest)[k])
  {
  }

  lemma PreparingSpares(c: Crypto, st: Storage, m: Manifest, root: Root, provider: Provider, reference: Reference, helper: string, r: Reference, k: nat)
    requires m.activeKeyId in m.keys && k < |PreparePlan(c, m, root, provider, reference, helper)|
    requires r in st.descriptors && reference !in st.descriptors
    ensures Spares(st, r, PreparePlan(c, m, root, provider, reference, helper)[k])
  {
  }

  /** The operations that write anything before the manifest. */
  lemma WhichWriteBefore(c: Crypto, scope: string, st: Storage, op: Op, k: nat)
    requires Opens(c, scope, st) && ActiveEntry(st.manifest.value).ref.KeyFile?
    requires k < |Plan(c, scope, st, op)| && !Publishes(Plan(c, scope, st, op), k + 1)
    ensures op.ActivateCustody? || op.PrepareCustody? || op.BeginRotation?
  {
    hide ManifestLoads, BindingTag;
    NotPublished(Plan(c, scope, st, op), k + 1, 0);
  }

  /** Nothing that a keyring with a file key does before it publishes disturbs the native item. */
  lemma PlansSpare(c: Crypto, scope: string, st: Storage, op: Op, provider: Provider, r: Reference, k: nat)
    requires Healthy(c, scope, st) && Fresh(c, st, op) && ActiveEntry(st.manifest.value).ref.KeyFile?
    requires LookupIn(c, st)(st.manifest.value.activeKeyId, Custody(provider, r)) == Some(Roots(c, st)[st.manifest.value.activeKeyId])
    requires k < |Plan(c, scope, st, op)| && !Publishes(Plan(c, scope, st, op), k + 1)
    ensures Spares(st, r, Plan(c, scope, st, op)[k])
  {
    hide ManifestLoads;
    var m, root := st.manifest.value, Roots(c, st)[st.manifest.value.activeKeyId];
    WhichWriteBefore(c, scope, st, op, k);
    if op.ActivateCustody? {
      ActivationSpares(c, scope, st, m, root, op.process, provider, r, k);
    } else if op.PrepareCustody? {
      PreparingSpares(c, st, m, root, op.provider, op.reference, op.helper, r, k);
    } else {
      StoringSpares(c, scope, st, m, op.root, op.reference, LargestEpoch(m), r, k);
    }
  }

  /**
   * Wherever an operation of a lagging keyring stops, the profile opens with the roots
   * it had. Once it has published, all is as though the lost publication had never
   * landed; until then the keyring still lags.
   */
  lemma ContinuationIsSafe(c: Crypto, scope: string, disk: Storage, m: Manifest, op: Op, n: nat)
    requires Lags(c, scope, disk, m) && Fresh(c, disk, op) && n <= |Plan(c, scope, Believed(disk, m), op)|
    ensures var ws := Plan(c, scope, Believed(disk, m), op);
      var after := After(disk, ws, n);
      && Healthy(c, scope, after) && KeepsRoots(Roots(c, disk), Roots(c, after))
      && if Publishes(ws, n) then after == After(Believed(disk, m), ws, n) else Lags(c, scope, after, m)
  {
    var believed := Believed(disk, m);
    var ws := Plan(c, scope, believed, op);
    LaggingIsHealthy(c, scope, disk, m);
    EveryStopIsSafe(c, scope, believed, op, n);
    LostPublication(disk, m, ws, n);
    if !Publishes(ws, n) {
      StillLags(c, scope, disk, m, op, n);
      LaggingIsHealthy(c, scope, After(disk, ws, n), m);
    }
  }

  lemma StillLeads(c: Crypto, scope: string, roots: map<KeyId, Root>, roots': map<KeyId, Root>, m: Manifest, next: Manifest)
    requires LeadsOver(c, scope, roots, m, next) && KeepsRoots(roots, roots') && m.keys.Keys <= roots'.Keys
    ensures LeadsOver(c, scope, roots', m, next)
  {
  }

  lemma StillNative(c: Crypto, scope: string, st: Storage, ws: seq<Write>, n: nat, m: Manifest, next: Manifest, d: Descriptor)
    requires n <= |ws| && st.manifest == After(st, ws, n).manifest == Some(m) && LeadsToNative(LookupIn(c, st), m, next, d)
    requires Healthy(c, scope, st) && StaysHealthy(c, scope, st, ws, n)
    requires forall k :: 0 <= k < n ==> Spares(st, d.reference, ws[k])
    ensures LeadsToNative(LookupIn(c, After(st, ws, n)), m, next, d)
  {
    hide Shape, CustodyAgrees, RootOf, Spares;
    SparedItem(c, st, ws, n, m.activeKeyId, d.provider, d.reference);
    var id := m.activeKeyId;
    assert Roots(c, After(st, ws, n))[id] == Roots(c, st)[id];
  }

  lemma StillLags(c: Crypto, scope: string, disk: Storage, m: Manifest, op: Op, n: nat)
    requires Lags(c, scope, disk, m) && Fresh(c, disk, op)
    requires n <= |Plan(c, scope, Believed(disk, m), op)| && !Publishes(Plan(c, scope, Believed(disk, m), op), n)
    requires StaysHealthy(c, scope, Believed(disk, m), Plan(c, scope, Believed(disk, m), op), n)
    ensures Lags(c, scope, After(disk, Plan(c, scope, Believed(disk, m), op), n), m)
  {
    hide Shape, CustodyAgrees, LeadsOver, Spares, RootOf;
    var believed, next := Believed(disk, m), disk.manifest.value;
    var ws := Plan(c, scope, believed, op);
    LostPublication(disk, m, ws, n);
    assert Believed(After(disk, ws, n), m) == After(believed, ws, n);
    if LeadsOver(c, scope, Roots(c, believed), m, next) {
      StillLeads(c, scope, Roots(c, believed), Roots(c, After(believed, ws, n)), m, next);
    } else {
      var d :| LeadsToNative(LookupIn(c, believed), m, next, d);
      forall k | 0 <= k < n ensures Spares(believed, d.reference, ws[k]) {
        PlansSpare(c, scope, believed, op, d.provider, d.reference, k);
      }
      StillNative(c, scope, believed, ws, n, m, next, d);
    }
  }

  /** A lagging keyring that enables a feature withdraws what the lost publication had enabled, and lists again what it had retired. */
  lemma ContinuationWithdraws(c: Crypto, scope: string, disk: Storage, m: Manifest, feature: Feature)
    requires Lags(c, scope, disk, m) && Plan(c, scope, Believed(disk, m), EnableFeature(feature)) != []
    ensures var after := After(disk, Plan(c, scope, Believed(disk, m), EnableFeature(feature)), 1);
      && after.manifest.Some? && after.manifest.value.keys.Keys == m.keys.Keys
      && forall other :: other in after.manifest.value.features <==> other in m.features || other == feature
  {
    hide Shape, CustodyAgrees, LeadsOver, LeadsToNative;
    FirstWrites(disk, Plan(c, scope, Believed(disk, m), EnableFeature(feature)));
  }
}
