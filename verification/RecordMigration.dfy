/** Records under changing keys: every run keeps each record readable, and a rotation drains its old key. */
module RecordMigration {
  import opened Outcomes
  import opened KeyStorage
  import opened KeyringPlans
  import opened KeyringSafety
  import opened KeyringRuns
  import opened RecordShield
  import opened Chains

  /** The stored records, and what was last written to each. */
  datatype Profile = Profile(storage: Storage, records: map<RecordId, Protected>, written: map<RecordId, string>)

  datatype Action =
    | KeyStep(op: Op, stop: nat)                                   // stopped after `stop` durable writes
    | Store(id: RecordId, purpose: Purpose, nonce: Nonce, plaintext: string)
    | Rotate(id: RecordId, nonce: Nonce)                           // to the rotation's target, in its own version
    | Upgrade(id: RecordId, nonce: Nonce)                          // to version 3, under the active key
    | Forget(id: RecordId)

  ghost function RecordsOn(p: Profile, id: KeyId): set<RecordId> {
    set rid | rid in p.records && p.records[rid].keyId == id
  }

  ghost function RevealIn(c: Crypto, scope: string, p: Profile, rid: RecordId): Option<string>
    requires p.storage.manifest.Some? && rid in p.records
  {
    Reveal(c, scope, LookupIn(c, p.storage), p.storage.manifest.value, p.records[rid])
  }

  /** What the callers of the key operations check about the records first. */
  ghost predicate RecordsAllow(p: Profile, op: Op)
    requires p.storage.manifest.Some?
  {
    var m := p.storage.manifest.value;
    match op
    case MarkVerified => m.rotation.Some? ==> RecordsOn(p, m.rotation.value.from) == {}
    case RetirePrevious => m.rotation.Some? ==> RecordsOn(p, m.rotation.value.from) == {}
    case ActivateCustody(_) => forall rid :: rid in p.records ==> p.records[rid].version == V3
    case _ => true
  }

  ghost predicate Acts(c: Crypto, scope: string, before: Profile, action: Action, after: Profile)
    requires Healthy(c, scope, before.storage)
  {
    var st := before.storage;
    var m, lookup := st.manifest.value, LookupIn(c, st);
    match action
    case KeyStep(op, stop) =>
      && Fresh(c, st, op) && RecordsAllow(before, op) && stop <= |Plan(c, scope, st, op)|
      && after == before.(storage := After(st, Plan(c, scope, st, op), stop))
    case Store(id, purpose, nonce, plaintext) =>
      after == before.(records := before.records[id := Protect(c, scope, lookup, m, id, purpose, nonce, plaintext).value],
                       written := before.written[id := plaintext])
    case Rotate(id, nonce) =>
      && id in before.records && m.rotation.Some? && before.records[id].keyId == m.rotation.value.from
      && Replaces(before, id, Reencrypt(c, scope, lookup, m, before.records[id], m.rotation.value.target, before.records[id].version, nonce), after)
    case Upgrade(id, nonce) =>
      && id in before.records && HasV3(m)
      && Replaces(before, id, Reencrypt(c, scope, lookup, m, before.records[id], m.activeKeyId, V3, nonce), after)
    case Forget(id) => after == before.(records := before.records - {id}, written := before.written - {id})
  }

  /** The record is replaced at once, or left as it was when the new one cannot be made. */
  ghost predicate Replaces(before: Profile, id: RecordId, p: Option<Protected>, after: Profile) {
    after == if p.Some? then before.(records := before.records[id := p.value]) else before
  }

  /** The profile opens and every record reveals what was written to it. */
  ghost predicate Readable(c: Crypto, scope: string, p: Profile) {
    && Healthy(c, scope, p.storage)
    && p.records.Keys == p.written.Keys
    && forall rid :: rid in p.records ==> RevealIn(c, scope, p, rid) == Some(p.written[rid])
  }

  // ---- key operations ----

  /** How an operation may change what a record's key depends on. */
  ghost predicate KeysFollow(m: Manifest, next: Manifest, p: Protected) {
    && next.scopeId == m.scopeId
    && (p.keyId in m.keys ==>
          && p.keyId in next.keys
          && (p.version == V2 && m.keys[p.keyId].ref.KeyFile? ==> next.keys[p.keyId].ref.KeyFile?)
          && (p.version == V3 && m.keys[p.keyId].epoch.Some? ==> next.keys[p.keyId].epoch == m.keys[p.keyId].epoch))
  }

  ghost predicate AllowsFor(m: Manifest, op: Op, p: Protected) {
    && (op.RetirePrevious? && m.rotation.Some? ==> p.keyId != m.rotation.value.from)
    && (op.ActivateCustody? ==> p.version == V3)
  }

  lemma BeginKeysFollow(c: Crypto, scope: string, st: Storage, m: Manifest, root: Root, reference: Reference, largest: int, w: Write, p: Protected)
    requires m.activeKeyId in m.keys && (ActiveEntry(m).ref.Custody? ==> ActiveEntry(m).ref.reference in st.descriptors)
    requires w in BeginPlan(c, scope, st, m, root, reference, largest) && w.PutManifest?
    ensures KeysFollow(m, w.manifest, p)
  {
    assert w in BeginTail(c, scope, m, root, TargetRef(ActiveEntry(m).ref, c.keyId(root), reference), largest);
  }

  lemma ActivateKeysFollow(c: Crypto, scope: string, st: Storage, m: Manifest, root: Root, process: Process, w: Write, p: Protected)
    requires m.activeKeyId in m.keys && w in ActivatePlan(c, scope, st, m, root, process) && w.PutManifest? && p.version == V3
    ensures KeysFollow(m, w.manifest, p)
  {
    var r :| CanActivate(c, scope, st, m, root, r) && w.manifest == OpaqueManifest(m, st.descriptors[r].descriptor);
  }

  lemma OtherKeysFollow(c: Crypto, scope: string, st: Storage, m: Manifest, root: Root, op: Op, w: Write, p: Protected)
    requires ManifestLoads(m) && w.PutManifest? && AllowsFor(m, op, p)
    requires match op
             case EnableFeature(feature) => w in EnablePlan(c, scope, m, root, feature)
             case MarkVerified => w in MarkPlan(m)
             case RetirePrevious => w in RetirePlan(c, scope, m, root)
             case PrepareCustody(provider, reference, helper) => w in PreparePlan(c, m, root, provider, reference, helper)
             case RetireFileCustody(process) => w in RetireFilePlan(c, st, m, root, process)
             case _ => false
    ensures KeysFollow(m, w.manifest, p)
  {
  }

  lemma PublishedKeysFollow(c: Crypto, scope: string, st: Storage, op: Op, w: Write, p: Protected)
    requires Healthy(c, scope, st) && w in Plan(c, scope, st, op) && w.PutManifest? && AllowsFor(st.manifest.value, op, p)
    ensures KeysFollow(st.manifest.value, w.manifest, p)
  {
    var m := st.manifest.value;
    var root := ActiveRoot(c, st, m).value;
    match op
    case BeginRotation(newRoot, reference) => BeginKeysFollow(c, scope, st, m, newRoot, reference, LargestEpoch(m), w, p);
    case ActivateCustody(process) => ActivateKeysFollow(c, scope, st, m, root, process, w, p);
    case _ => OtherKeysFollow(c, scope, st, m, root, op, w, p);
  }

  lemma StoppedKeysFollow(c: Crypto, scope: string, st: Storage, op: Op, stop: nat, p: Protected)
    requires Healthy(c, scope, st) && stop <= |Plan(c, scope, st, op)| && AllowsFor(st.manifest.value, op, p)
    ensures var next := After(st, Plan(c, scope, st, op), stop).manifest; next.Some? && KeysFollow(st.manifest.value, next.value, p)
  {
    var ws := Plan(c, scope, st, op);
    ManifestAfter(st, ws, stop);
    if After(st, ws, stop).manifest != st.manifest {
      var k :| 0 <= k < stop && ws[k].PutManifest? && After(st, ws, stop).manifest == Some(ws[k].manifest);
      PublishedKeysFollow(c, scope, st, op, ws[k], p);
    }
  }

  lemma FollowingKeysReveal(c: Crypto, scope: string, a: Lookup, m: Manifest, b: Lookup, next: Manifest, p: Protected)
    requires OpensWith(c, scope, a, m) && OpensWith(c, scope, b, next) && KeepsRoots(Recovered(a, m), Recovered(b, next))
    requires KeysFollow(m, next, p) && Reveal(c, scope, a, m, p).Some?
    ensures Reveal(c, scope, b, next, p) == Reveal(c, scope, a, m, p)
  {
    assert p.keyId in Recovered(a, m) && p.keyId in Recovered(b, next);
    StaysReadable(c, scope, a, m, b, next, p);
  }

  /** A record stays readable wherever a key operation stops that its callers allow. */
  lemma KeyStepKeepsRecord(c: Crypto, scope: string, st: Storage, op: Op, stop: nat, p: Protected)
    requires Healthy(c, scope, st) && stop <= |Plan(c, scope, st, op)| && StaysHealthy(c, scope, st, Plan(c, scope, st, op), stop)
    requires AllowsFor(st.manifest.value, op, p) && Reveal(c, scope, LookupIn(c, st), st.manifest.value, p).Some?
    ensures var after := After(st, Plan(c, scope, st, op), stop);
      Reveal(c, scope, LookupIn(c, after), after.manifest.value, p) == Reveal(c, scope, LookupIn(c, st), st.manifest.value, p)
  {
    var after := After(st, Plan(c, scope, st, op), stop);
    StoppedKeysFollow(c, scope, st, op, stop, p);
    FollowingKeysReveal(c, scope, LookupIn(c, st), st.manifest.value, LookupIn(c, after), after.manifest.value, p);
  }

  lemma KeyStepKeepsReadable(c: Crypto, scope: string, before: Profile, op: Op, stop: nat)
    requires Readable(c, scope, before) && Fresh(c, before.storage, op) && RecordsAllow(before, op)
    requires stop <= |Plan(c, scope, before.storage, op)|
    ensures Readable(c, scope, before.(storage := After(before.storage, Plan(c, scope, before.storage, op), stop)))
  {
    var after := before.(storage := After(before.storage, Plan(c, scope, before.storage, op), stop));
    EveryStopIsSafe(c, scope, before.storage, op, stop);
    forall rid | rid in after.records ensures RevealIn(c, scope, after, rid) == Some(after.written[rid]) {
      RecordsAllowFor(before, op, rid);
      assert RevealIn(c, scope, before, rid) == Some(before.written[rid]);
      KeyStepKeepsRecord(c, scope, before.storage, op, stop, before.records[rid]);
    }
  }

  lemma RecordsAllowFor(p: Profile, op: Op, rid: RecordId)
    requires p.storage.manifest.Some? && RecordsAllow(p, op) && rid in p.records
    ensures AllowsFor(p.storage.manifest.value, op, p.records[rid])
  {
    var m := p.storage.manifest.value;
    if op.RetirePrevious? && m.rotation.Some? {
      assert rid !in RecordsOn(p, m.rotation.value.from);
    }
  }

  // ---- record operations ----

  lemma ReplacingKeepsReadable(c: Crypto, scope: string, before: Profile, id: RecordId, p: Protected, plaintext: string)
    requires Readable(c, scope, before)
    requires Reveal(c, scope, LookupIn(c, before.storage), before.storage.manifest.value, p) == Some(plaintext)
    ensures Readable(c, scope, before.(records := before.records[id := p], written := before.written[id := plaintext]))
  {
    var after := before.(records := before.records[id := p], written := before.written[id := plaintext]);
    forall rid | rid in after.records ensures RevealIn(c, scope, after, rid) == Some(after.written[rid]) {
      if rid != id {
        assert RevealIn(c, scope, before, rid) == Some(before.written[rid]);
      }
    }
  }

  lemma EqualRecordKeepsReadable(c: Crypto, scope: string, before: Profile, id: RecordId, p: Protected)
    requires Readable(c, scope, before) && id in before.records
    requires Reveal(c, scope, LookupIn(c, before.storage), before.storage.manifest.value, p) == RevealIn(c, scope, before, id)
    ensures Readable(c, scope, before.(records := before.records[id := p]))
  {
    hide OpensWith;
    ReplacingKeepsReadable(c, scope, before, id, p, before.written[id]);
    assert before.written[id := before.written[id]] == before.written;
  }

  lemma ReencryptingKeepsReadable(c: Crypto, scope: string, before: Profile, id: RecordId, target: KeyId, version: Version, nonce: Nonce, after: Profile)
    requires Readable(c, scope, before) && id in before.records
    requires Replaces(before, id, Reencrypt(c, scope, LookupIn(c, before.storage), before.storage.manifest.value, before.records[id], target, version, nonce), after)
    ensures Readable(c, scope, after)
  {
    var lookup, m := LookupIn(c, before.storage), before.storage.manifest.value;
    var p := Reencrypt(c, scope, lookup, m, before.records[id], target, version, nonce);
    if p.Some? {
      ReencryptKeepsPlaintext(c, scope, lookup, m, before.records[id], target, version, nonce);
      EqualRecordKeepsReadable(c, scope, before, id, p.value);
    }
  }

  /** Every action keeps every record readable with what was last written to it. */
  lemma ActionKeepsReadable(c: Crypto, scope: string, before: Profile, action: Action, after: Profile)
    requires Readable(c, scope, before) && Acts(c, scope, before, action, after)
    ensures Readable(c, scope, after)
  {
    var lookup, m := LookupIn(c, before.storage), before.storage.manifest.value;
    match action
    case KeyStep(op, stop) => KeyStepKeepsReadable(c, scope, before, op, stop);
    case Store(id, purpose, nonce, plaintext) =>
      ProtectThenReveal(c, scope, lookup, m, id, purpose, nonce, plaintext);
      ReplacingKeepsReadable(c, scope, before, id, Protect(c, scope, lookup, m, id, purpose, nonce, plaintext).value, plaintext);
    case Rotate(id, nonce) =>
      ReencryptingKeepsReadable(c, scope, before, id, m.rotation.value.target, before.records[id].version, nonce, after);
    case Upgrade(id, nonce) => ReencryptingKeepsReadable(c, scope, before, id, m.activeKeyId, V3, nonce, after);
    case Forget(id) =>
      forall rid | rid in after.records ensures RevealIn(c, scope, after, rid) == Some(after.written[rid]) {
        assert RevealIn(c, scope, before, rid) == Some(before.written[rid]);
      }
  }

  // ---- draining the old key ----

  lemma MovedRecord(before: Profile, id: RecordId, p: Protected, from: KeyId)
    requires id in before.records && before.records[id].keyId == from && p.keyId != from
    ensures var after := before.(records := before.records[id := p]);
      RecordsOn(after, from) == RecordsOn(before, from) - {id} && |RecordsOn(after, from)| == |RecordsOn(before, from)| - 1
  {
    var after := before.(records := before.records[id := p]);
    assert id in RecordsOn(before, from);
    assert RecordsOn(after, from) == RecordsOn(before, from) - {id};
  }

  ghost predicate TargetTakes(m: Manifest, p: Protected) {
    && m.rotation.Some? && m.rotation.value.target in m.keys
    && (m.keys[m.rotation.value.target].ref.KeyFile? || p.version == V3)
  }

  lemma TargetKeyExists(c: Crypto, scope: string, lookup: Lookup, m: Manifest, p: Protected)
    requires OpensWith(c, scope, lookup, m) && Shape(m) && m.rotation.Some?
    requires Reveal(c, scope, lookup, m, p).Some?
    ensures KeyForEnvelope(c, scope, lookup, m, m.rotation.value.target, p.purpose, p.version).Some? <==> TargetTakes(m, p)
  {
  }

  /** A migrated record is one less on the old key; only an opaque target cannot take a version-2 record. */
  lemma RotatingDrainsOne(c: Crypto, scope: string, before: Profile, id: RecordId, nonce: Nonce, after: Profile)
    requires Readable(c, scope, before) && Acts(c, scope, before, Rotate(id, nonce), after)
    ensures var m := before.storage.manifest.value;
      |RecordsOn(after, m.rotation.value.from)|
      == |RecordsOn(before, m.rotation.value.from)| - if TargetTakes(m, before.records[id]) then 1 else 0
  {
    var lookup, m, p := LookupIn(c, before.storage), before.storage.manifest.value, before.records[id];
    assert RevealIn(c, scope, before, id) == Some(before.written[id]);
    TargetKeyExists(c, scope, lookup, m, p);
    var moved := Reencrypt(c, scope, lookup, m, p, m.rotation.value.target, p.version, nonce);
    ReencryptKeepsPlaintext(c, scope, lookup, m, p, m.rotation.value.target, p.version, nonce);
    if moved.Some? {
      MovedRecord(before, id, moved.value, m.rotation.value.from);
    }
  }

  lemma TargetIsActive(c: Crypto, scope: string, st: Storage, from: KeyId)
    requires Healthy(c, scope, st) && st.manifest.value.rotation.Some? && st.manifest.value.rotation.value.from == from
    ensures st.manifest.value.activeKeyId == st.manifest.value.rotation.value.target != from
  {
  }

  /** No action puts a record on the old key of a rotation. */
  lemma OldKeyNeverGrows(c: Crypto, scope: string, before: Profile, action: Action, after: Profile, from: KeyId)
    requires Readable(c, scope, before) && Acts(c, scope, before, action, after)
    requires before.storage.manifest.value.rotation.Some? && before.storage.manifest.value.rotation.value.from == from
    ensures RecordsOn(after, from) <= RecordsOn(before, from)
  {
    hide Shape, CustodyAgrees, Plan, Fresh, RevealIn;
    TargetIsActive(c, scope, before.storage, from);
  }

  /** A verified rotation has left its old key: nothing is encrypted under it any more. */
  ghost predicate Drained(p: Profile) {
    p.storage.manifest.Some? && match p.storage.manifest.value.rotation
      case Some(Rotation(from, _, Verified)) => RecordsOn(p, from) == {}
      case _ => true
  }

  /** A rotation becomes verified by being marked, and by nothing else. */
  ghost predicate VerifiedFollows(m: Manifest, next: Manifest, op: Op) {
    next.rotation.Some? && next.rotation.value.state == Verified ==>
      m.rotation.Some? && m.rotation.value.from == next.rotation.value.from && (m.rotation.value.state == Verified || op == MarkVerified)
  }

  lemma PublishedVerifiedFollows(c: Crypto, scope: string, st: Storage, op: Op, w: Write)
    requires Healthy(c, scope, st) && w in Plan(c, scope, st, op) && w.PutManifest?
    ensures VerifiedFollows(st.manifest.value, w.manifest, op)
  {
    hide Shape, CustodyAgrees, RootOf, BindingTag;
    var m := st.manifest.value;
    match op
    case BeginRotation(newRoot, reference) =>
      assert w in BeginTail(c, scope, m, newRoot, TargetRef(ActiveEntry(m).ref, c.keyId(newRoot), reference), LargestEpoch(m));
    case ActivateCustody(process) =>
      var root := ActiveRoot(c, st, m).value;
      var r :| CanActivate(c, scope, st, m, root, r) && w.manifest == OpaqueManifest(m, st.descriptors[r].descriptor);
    case _ =>
  }

  lemma StopKeepsDrained(c: Crypto, scope: string, before: Profile, op: Op, stop: nat)
    requires Healthy(c, scope, before.storage) && Drained(before) && RecordsAllow(before, op)
    requires stop <= |Plan(c, scope, before.storage, op)|
    ensures Drained(before.(storage := After(before.storage, Plan(c, scope, before.storage, op), stop)))
  {
    hide OpensWith;
    var st := before.storage;
    var ws := Plan(c, scope, st, op);
    var after := before.(storage := After(st, ws, stop));
    ManifestAfter(st, ws, stop);
    if after.storage.manifest != st.manifest {
      var k :| 0 <= k < stop && ws[k].PutManifest? && after.storage.manifest == Some(ws[k].manifest);
      PublishedVerifiedFollows(c, scope, st, op, ws[k]);
    }
    forall id ensures RecordsOn(after, id) == RecordsOn(before, id) {
    }
  }

  lemma ActionKeepsDrained(c: Crypto, scope: string, before: Profile, action: Action, after: Profile)
    requires Readable(c, scope, before) && Drained(before) && Acts(c, scope, before, action, after)
    ensures Drained(after)
  {
    if action.KeyStep? {
      StopKeepsDrained(c, scope, before, action.op, action.stop);
    } else if before.storage.manifest.value.rotation.Some? {
      OldKeyNeverGrows(c, scope, before, action, after, before.storage.manifest.value.rotation.value.from);
    }
  }

  // ---- runs ----

  ghost predicate Good(c: Crypto, scope: string, p: Profile) {
    Readable(c, scope, p) && Drained(p)
  }

  ghost predicate Moves(c: Crypto, scope: string, before: Profile, after: Profile) {
    Healthy(c, scope, before.storage) && exists action :: Acts(c, scope, before, action, after)
  }

  lemma MoveIsGood(c: Crypto, scope: string, before: Profile, after: Profile)
    requires Good(c, scope, before) && Moves(c, scope, before, after)
    ensures Good(c, scope, after)
  {
    var action :| Acts(c, scope, before, action, after);
    ActionKeepsReadable(c, scope, before, action, after);
    ActionKeepsDrained(c, scope, before, action, after);
  }

  /**
   * From a new profile on, in any run of writes, migrations and key operations that
   * may stop at any durable write, every record reveals what was last written to it.
   */
  lemma EveryRecordStaysReadable(c: Crypto, scope: string, states: seq<Profile>, i: nat)
    requires IsChain((a, b) => Moves(c, scope, a, b), states) && i < |states|
    requires Healthy(c, scope, states[0].storage) && states[0].storage.manifest.value.rotation == None
    requires states[0].records == map[] && states[0].written == map[]
    ensures Good(c, scope, states[i])
  {
    var next, inv := (a, b) => Moves(c, scope, a, b), p => Good(c, scope, p);
    forall a, b | inv(a) && next(a, b) ensures inv(b) {
      MoveIsGood(c, scope, a, b);
    }
    KeptAlong(next, inv, states, 0, i);
  }

  /** In such a run the check before the old key is retired always passes: no record is lost with the key. */
  lemma RetirementIsAlwaysAllowed(c: Crypto, scope: string, states: seq<Profile>, i: nat)
    requires IsChain((a, b) => Moves(c, scope, a, b), states) && i < |states|
    requires Healthy(c, scope, states[0].storage) && states[0].storage.manifest.value.rotation == None
    requires states[0].records == map[] && states[0].written == map[]
    requires states[i].storage.manifest.Some? && states[i].storage.manifest.value.rotation.Some?
    requires states[i].storage.manifest.value.rotation.value.state == Verified
    ensures RecordsAllow(states[i], RetirePrevious)
    ensures forall rid :: rid in states[i].records ==>
      states[i].records[rid].keyId != states[i].storage.manifest.value.rotation.value.from
  {
    EveryRecordStaysReadable(c, scope, states, i);
    var m := states[i].storage.manifest.value;
    assert RecordsOn(states[i], m.rotation.value.from) == {};
    assert forall rid :: rid in states[i].records && states[i].records[rid].keyId == m.rotation.value.from ==>
      rid in RecordsOn(states[i], m.rotation.value.from);
  }
}
