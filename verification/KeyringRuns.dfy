/** Any run of keyring operations, each stopped after any of its durable writes. */
module KeyringRuns {
  import opened Outcomes
  import opened KeyStorage
  import opened KeyringPlans
  import opened KeyringSafety
  import opened KeyringSteps
  import opened Chains

  /**
   * Wherever an operation stops, the profile opens, and every key listed before and
   * after has the root it had.
   */
  lemma EveryStopIsSafe(c: Crypto, scope: string, st: Storage, op: Op, n: nat)
    requires Healthy(c, scope, st) && Fresh(c, st, op) && n <= |Plan(c, scope, st, op)|
    ensures StaysHealthy(c, scope, st, Plan(c, scope, st, op), n)
  {
    var root := ActiveRoot(c, st, st.manifest.value).value;
    assert root == Roots(c, st)[st.manifest.value.activeKeyId];
    match op
    case EnableFeature(feature) => EnableIsSafe(c, scope, st, root, feature, n);
    case BeginRotation(newRoot, reference) =>
      if HasV3(st.manifest.value) {
        SomeEpochIsLargest(st.manifest.value);
      }
      BeginIsSafe(c, scope, st, newRoot, reference, LargestEpoch(st.manifest.value), n);
    case MarkVerified => MarkIsSafe(c, scope, st, n);
    case RetirePrevious => RetireIsSafe(c, scope, st, root, n);
    case PrepareCustody(provider, reference, helper) => PrepareIsSafe(c, scope, st, root, provider, reference, helper, n);
    case ActivateCustody(process) => ActivateIsSafe(c, scope, st, root, process, n);
    case RetireFileCustody(process) => RetireFileIsSafe(c, scope, st, root, process, n);
  }

  // ---- a new profile ----

  /** A profile without a manifest, where only key files may have been left. */
  predicate IsUnborn(st: Storage) {
    st.manifest == None && st.descriptors == map[]
  }

  ghost predicate Sound(c: Crypto, scope: string, st: Storage) {
    IsUnborn(st) || Healthy(c, scope, st)
  }

  lemma FirstManifestLoads(c: Crypto, scope: string, root: Root, scopeId: string)
    ensures ManifestLoads(FirstManifest(c, scope, root, scopeId)) && Shape(FirstManifest(c, scope, root, scopeId))
  {
    assert FirstManifest(c, scope, root, scopeId).keys.Keys == {c.keyId(root)};
    assert |FirstManifest(c, scope, root, scopeId).keys.Keys| == 1;
  }

  lemma FirstManifestOpens(c: Crypto, scope: string, st: Storage, root: Root, scopeId: string)
    requires LookupIn(c, st)(c.keyId(root), KeyFile(Named(c.keyId(root)))) == Some(root)
    ensures OpensWith(c, scope, LookupIn(c, st), FirstManifest(c, scope, root, scopeId))
    ensures Recovered(LookupIn(c, st), FirstManifest(c, scope, root, scopeId)) == map[c.keyId(root) := root]
  {
    FirstManifestLoads(c, scope, root, scopeId);
  }

  lemma CreatedIsHealthy(c: Crypto, scope: string, st: Storage, root: Root, scopeId: string)
    requires IsUnborn(st)
    ensures var created := Perform(Perform(st, CreateKeyFile(Named(c.keyId(root)), root)), PutManifest(FirstManifest(c, scope, root, scopeId)));
      Healthy(c, scope, created) && Roots(c, created) == map[c.keyId(root) := root]
  {
    hide OpensWith, Shape;
    var m, filed := FirstManifest(c, scope, root, scopeId), Perform(st, CreateKeyFile(Named(c.keyId(root)), root));
    FirstManifestLoads(c, scope, root, scopeId);
    FirstManifestOpens(c, scope, filed, root, scopeId);
    PublishManifest(c, scope, filed, m);
  }

  /** Until its manifest is there, a profile is created from the start again. */
  lemma CreateIsSafe(c: Crypto, scope: string, st: Storage, root: Root, scopeId: string, n: nat)
    requires Sound(c, scope, st) && n <= |CreatePlan(c, scope, st, root, scopeId)|
    ensures Sound(c, scope, After(st, CreatePlan(c, scope, st, root, scopeId), n))
    ensures n == 2 ==> Roots(c, After(st, CreatePlan(c, scope, st, root, scopeId), n)) == map[c.keyId(root) := root]
  {
    hide OpensWith, Shape, CustodyAgrees, Recovered, FirstManifest;
    FirstWrites(st, CreatePlan(c, scope, st, root, scopeId));
    if n == 2 {
      CreatedIsHealthy(c, scope, st, root, scopeId);
    }
  }

  // ---- runs ----

  datatype Step = Create(root: Root, scopeId: string) | Do(op: Op)

  ghost function Writes(c: Crypto, scope: string, st: Storage, step: Step): seq<Write>
    requires Sound(c, scope, st)
  {
    match step
    case Create(root, scopeId) => CreatePlan(c, scope, st, root, scopeId)
    case Do(op) => if st.manifest.Some? then Plan(c, scope, st, op) else []
  }

  /** A step that stops after `n` of its writes; all of them when it completes. */
  ghost predicate Takes(c: Crypto, scope: string, before: Storage, step: Step, n: nat, after: Storage) {
    && Sound(c, scope, before)
    && (step.Do? ==> Fresh(c, before, step.op))
    && n <= |Writes(c, scope, before, step)|
    && after == After(before, Writes(c, scope, before, step), n)
  }

  ghost predicate Steps(c: Crypto, scope: string, before: Storage, after: Storage) {
    exists step, n :: Takes(c, scope, before, step, n, after)
  }

  lemma StepIsSafe(c: Crypto, scope: string, before: Storage, after: Storage)
    requires Steps(c, scope, before, after)
    ensures Sound(c, scope, after)
    ensures Healthy(c, scope, before) ==> Healthy(c, scope, after) && KeepsRoots(Roots(c, before), Roots(c, after))
  {
    var step, n :| Takes(c, scope, before, step, n, after);
    match step
    case Create(root, scopeId) => CreateIsSafe(c, scope, before, root, scopeId, n);
    case Do(op) =>
      if before.manifest.Some? {
        EveryStopIsSafe(c, scope, before, op, n);
      }
  }

  /** A run from a profile that does not exist yet. */
  ghost predicate IsRun(c: Crypto, scope: string, states: seq<Storage>) {
    states != [] && IsUnborn(states[0]) && IsChain((a, b) => Steps(c, scope, a, b), states)
  }

  /** Reopening after any stop in any run succeeds, once the profile was created. */
  lemma RunIsSound(c: Crypto, scope: string, states: seq<Storage>, i: nat)
    requires IsRun(c, scope, states) && i < |states|
    ensures Sound(c, scope, states[i])
    ensures states[i].manifest.Some? ==> Opens(c, scope, states[i])
  {
    var next, inv := (a, b) => Steps(c, scope, a, b), st => Sound(c, scope, st);
    forall a, b | inv(a) && next(a, b) ensures inv(b) {
      StepIsSafe(c, scope, a, b);
    }
    KeptAlong(next, inv, states, 0, i);
  }

  ghost predicate Holds(c: Crypto, scope: string, st: Storage, id: KeyId, root: Root) {
    Healthy(c, scope, st) && id in Roots(c, st) && Roots(c, st)[id] == root
  }

  lemma StepKeepsRoot(c: Crypto, scope: string, before: Storage, after: Storage, id: KeyId, root: Root)
    requires Steps(c, scope, before, after) && Holds(c, scope, before, id, root) && id in Roots(c, after)
    ensures Holds(c, scope, after, id, root)
  {
    StepIsSafe(c, scope, before, after);
  }

  /** A key keeps its root for as long as it is listed. */
  lemma RootsNeverChange(c: Crypto, scope: string, states: seq<Storage>, i: nat, j: nat, id: KeyId, root: Root)
    requires IsChain((a, b) => Steps(c, scope, a, b) && id in Roots(c, b), states)
    requires i <= j < |states| && Holds(c, scope, states[i], id, root)
    ensures Holds(c, scope, states[j], id, root)
  {
    var next, inv := (a, b) => Steps(c, scope, a, b) && id in Roots(c, b), st => Holds(c, scope, st, id, root);
    forall a, b | inv(a) && next(a, b) ensures inv(b) {
      StepKeepsRoot(c, scope, a, b, id, root);
    }
    KeptAlong(next, inv, states, i, j);
  }

  // ---- epochs ----

  /** One manifest follows another: epochs stay, and a key that is new has the next one. */
  ghost predicate EpochsFollow(m: Manifest, next: Manifest) {
    && (HasV3(m) ==> HasV3(next))
    && (HasV3(m) ==> forall id :: id in next.keys ==>
          if id in m.keys then next.keys[id].epoch == m.keys[id].epoch
          else id == next.activeKeyId && next.keys[id].epoch == Some(ActiveEpoch(m) + 1))
    && (HasV3(m) ==> next.activeKeyId == m.activeKeyId || next.activeKeyId !in m.keys)
  }

  function ActiveEpoch(m: Manifest): int {
    if m.activeKeyId in m.keys && m.keys[m.activeKeyId].epoch.Some? then m.keys[m.activeKeyId].epoch.value else 0
  }

  lemma RotatedEpochsFollow(c: Crypto, scope: string, m: Manifest, root: Root, ref: Ref, epoch: Option<int>)
    requires m.activeKeyId in m.keys && c.keyId(root) !in m.keys && NextEpoch(m, epoch)
    ensures EpochsFollow(m, RotatedManifest(c, scope, m, root, ref, epoch))
  {
  }

  lemma BeginEpochsFollow(c: Crypto, scope: string, st: Storage, m: Manifest, root: Root, reference: Reference, largest: int, w: Write)
    requires ManifestLoads(m) && Shape(m) && (HasV3(m) ==> IsLargestEpoch(m, largest))
    requires ActiveEntry(m).ref.Custody? ==> ActiveEntry(m).ref.reference in st.descriptors
    requires w in BeginPlan(c, scope, st, m, root, reference, largest) && w.PutManifest?
    ensures EpochsFollow(m, w.manifest)
  {
    var ref := TargetRef(ActiveEntry(m).ref, c.keyId(root), reference);
    assert w in BeginTail(c, scope, m, root, ref, largest);
    LargestIsNext(m, largest);
    RotatedEpochsFollow(c, scope, m, root, ref, EpochAfter(m, largest));
  }

  lemma OtherEpochsFollow(c: Crypto, scope: string, st: Storage, m: Manifest, root: Root, op: Op, w: Write)
    requires ManifestLoads(m) && Shape(m) && w.PutManifest?
    requires match op
             case EnableFeature(feature) => w in EnablePlan(c, scope, m, root, feature)
             case MarkVerified => w in MarkPlan(m)
             case RetirePrevious => w in RetirePlan(c, scope, m, root)
             case PrepareCustody(provider, reference, helper) => w in PreparePlan(c, m, root, provider, reference, helper)
             case RetireFileCustody(process) => w in RetireFilePlan(c, st, m, root, process)
             case _ => false
    ensures EpochsFollow(m, w.manifest)
  {
  }

  lemma ActivateEpochsFollow(c: Crypto, scope: string, st: Storage, m: Manifest, root: Root, process: Process, w: Write)
    requires ManifestLoads(m) && w.PutManifest? && m.activeKeyId in m.keys && w in ActivatePlan(c, scope, st, m, root, process)
    ensures EpochsFollow(m, w.manifest)
  {
    var r :| CanActivate(c, scope, st, m, root, r) && w.manifest == OpaqueManifest(m, st.descriptors[r].descriptor);
  }

  /** Every manifest an operation publishes follows the one before. */
  lemma PublishedEpochsFollow(c: Crypto, scope: string, st: Storage, op: Op, w: Write)
    requires Healthy(c, scope, st) && w in Plan(c, scope, st, op) && w.PutManifest?
    ensures EpochsFollow(st.manifest.value, w.manifest)
  {
    var m := st.manifest.value;
    var root := ActiveRoot(c, st, m).value;
    match op
    case BeginRotation(newRoot, reference) =>
      if HasV3(m) {
        SomeEpochIsLargest(m);
      }
      BeginEpochsFollow(c, scope, st, m, newRoot, reference, LargestEpoch(m), w);
    case ActivateCustody(process) => ActivateEpochsFollow(c, scope, st, m, root, process, w);
    case _ => OtherEpochsFollow(c, scope, st, m, root, op, w);
  }

  lemma {:induction false} ManifestAfter(st: Storage, ws: seq<Write>, n: nat)
    requires n <= |ws|
    ensures After(st, ws, n).manifest == st.manifest
         || exists k :: 0 <= k < n && ws[k].PutManifest? && After(st, ws, n).manifest == Some(ws[k].manifest)
  {
    if n > 0 {
      ManifestAfter(st, ws, n - 1);
      if ws[n - 1].PutManifest? {
        assert After(st, ws, n).manifest == Some(ws[n - 1].manifest);
      } else if After(st, ws, n - 1).manifest != st.manifest {
        var k :| 0 <= k < n - 1 && ws[k].PutManifest? && After(st, ws, n - 1).manifest == Some(ws[k].manifest);
        assert After(st, ws, n).manifest == Some(ws[k].manifest);
      }
    }
  }

  lemma StepEpochsFollow(c: Crypto, scope: string, before: Storage, after: Storage)
    requires Steps(c, scope, before, after) && Healthy(c, scope, before)
    ensures after.manifest.Some? && EpochsFollow(before.manifest.value, after.manifest.value)
  {
    var step, n :| Takes(c, scope, before, step, n, after);
    var ws := Writes(c, scope, before, step);
    ManifestAfter(before, ws, n);
    if after.manifest != before.manifest {
      var k :| 0 <= k < n && ws[k].PutManifest? && after.manifest == Some(ws[k].manifest);
      PublishedEpochsFollow(c, scope, before, step.op, ws[k]);
    }
  }

  /** A profile with epochs whose active key has reached at least `epoch`. */
  ghost predicate Reached(c: Crypto, scope: string, st: Storage, epoch: int) {
    Healthy(c, scope, st) && HasV3(st.manifest.value) && ActiveEpoch(st.manifest.value) >= epoch
  }

  /** A new key has an epoch beyond all that were reached. */
  lemma ActiveEpochGrows(c: Crypto, scope: string, before: Storage, after: Storage, epoch: int)
    requires Steps(c, scope, before, after) && Reached(c, scope, before, epoch)
    ensures Reached(c, scope, after, epoch)
    ensures forall id :: id in after.manifest.value.keys && id !in before.manifest.value.keys ==>
      after.manifest.value.keys[id].epoch.value > epoch
  {
    StepIsSafe(c, scope, before, after);
    StepEpochsFollow(c, scope, before, after);
  }

  lemma ListedEpochsAreReached(c: Crypto, scope: string, st: Storage, id: KeyId)
    requires Healthy(c, scope, st) && HasV3(st.manifest.value) && id in st.manifest.value.keys
    ensures Reached(c, scope, st, st.manifest.value.keys[id].epoch.value)
  {
  }

  /** The active key always has the largest epoch that any key ever had. */
  lemma ActiveEpochIsLargestEver(c: Crypto, scope: string, states: seq<Storage>, i: nat, j: nat, id: KeyId)
    requires IsRun(c, scope, states) && i <= j < |states| && states[i].manifest.Some? && HasV3(states[i].manifest.value)
    requires id in states[i].manifest.value.keys
    ensures states[i].manifest.value.keys[id].epoch.Some?
    ensures Reached(c, scope, states[j], states[i].manifest.value.keys[id].epoch.value)
  {
    RunIsSound(c, scope, states, i);
    ListedEpochsAreReached(c, scope, states[i], id);
    var epoch := states[i].manifest.value.keys[id].epoch.value;
    var next, inv := (a, b) => Steps(c, scope, a, b), st => Reached(c, scope, st, epoch);
    forall a, b | inv(a) && next(a, b) ensures inv(b) {
      ActiveEpochGrows(c, scope, a, b, epoch);
    }
    KeptAlong(next, inv, states, i, j);
  }

  /** No key that is added later shares an epoch with one that was ever listed. */
  lemma EpochsAreNeverShared(c: Crypto, scope: string, states: seq<Storage>, i: nat, j: nat, earlier: KeyId, later: KeyId)
    requires IsRun(c, scope, states) && i <= j < |states| - 1 && states[i].manifest.Some? && HasV3(states[i].manifest.value)
    requires earlier in states[i].manifest.value.keys && states[j].manifest.Some? && later !in states[j].manifest.value.keys
    requires states[j + 1].manifest.Some? && later in states[j + 1].manifest.value.keys
    ensures states[i].manifest.value.keys[earlier].epoch.Some? && states[j + 1].manifest.value.keys[later].epoch.Some?
    ensures states[i].manifest.value.keys[earlier].epoch.value < states[j + 1].manifest.value.keys[later].epoch.value
  {
    ActiveEpochIsLargestEver(c, scope, states, i, j, earlier);
    var next := (a, b) => Steps(c, scope, a, b);
    assert next(states[j], states[j + 1]);
    ActiveEpochGrows(c, scope, states[j], states[j + 1], states[i].manifest.value.keys[earlier].epoch.value);
  }
}
