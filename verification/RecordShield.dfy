/**
 * Protecting records under the profile's keys. AES-GCM is ideal (RFC 5116, sections
 * 2.1 and 2.2): a ciphertext opens with the key, nonce and associated data it was
 * sealed with, and otherwise fails.
 */
module RecordShield {
  import opened Outcomes
  import opened KeyStorage

  type RecordId = string
  type Nonce = nat

  datatype Version = V2 | V3

  /** An AES key: a root itself in version 2, a derived key in version 3. */
  datatype CipherKey = RootKey(root: Root) | Derived(subKey: SubKey)

  datatype AssociatedData = AssociatedData(purpose: Purpose, scopeId: string, recordId: RecordId, version: Version, keyId: KeyId)

  datatype Sealed = Sealed(key: CipherKey, nonce: Nonce, aad: AssociatedData, plaintext: string)

  function Decrypt(key: CipherKey, nonce: Nonce, aad: AssociatedData, box: Sealed): Option<string> {
    if box.key == key && box.nonce == nonce && box.aad == aad then Some(box.plaintext) else None
  }

  /** A protected vector or blob, which carries its own context. */
  datatype Protected = Protected(
    keyId: KeyId,
    scopeId: string,
    recordId: RecordId,
    purpose: Purpose,
    nonce: Nonce,
    version: Version,
    ciphertext: Sealed)

  function ContextOf(p: Protected): AssociatedData {
    AssociatedData(p.purpose, p.scopeId, p.recordId, p.version, p.keyId)
  }

  function DerivedKey(c: Crypto, scope: string, m: Manifest, root: Root, epoch: int, purpose: Purpose): SubKey {
    c.derive(root, Domain(scope, m.scopeId, epoch, purpose))
  }

  /** `key_for_envelope` on an open profile; an opaque root gives no version-2 key. */
  function KeyForEnvelope(c: Crypto, scope: string, lookup: Lookup, m: Manifest, id: KeyId, purpose: Purpose, version: Version): Option<CipherKey> {
    if id !in m.keys || lookup(id, m.keys[id].ref).None? then None
    else
      var entry, root := m.keys[id], lookup(id, m.keys[id].ref).value;
      match version
      case V2 => if entry.ref.KeyFile? then Some(RootKey(root)) else None
      case V3 => if entry.epoch.None? then None else Some(Derived(DerivedKey(c, scope, m, root, entry.epoch.value, purpose)))
  }

  function Seal(key: CipherKey, keyId: KeyId, scopeId: string, recordId: RecordId, purpose: Purpose, nonce: Nonce, version: Version,
                plaintext: string): (p: Protected)
    ensures Decrypt(key, p.nonce, ContextOf(p), p.ciphertext) == Some(plaintext)
  {
    var aad := AssociatedData(purpose, scopeId, recordId, version, keyId);
    Protected(keyId, scopeId, recordId, purpose, nonce, version, Sealed(key, nonce, aad, plaintext))
  }

  function WriteVersion(m: Manifest): Version {
    if HasV3(m) then V3 else V2
  }

  /** `protect_for_record`: under the active key, in the version that is written. */
  function Protect(c: Crypto, scope: string, lookup: Lookup, m: Manifest, recordId: RecordId, purpose: Purpose, nonce: Nonce, plaintext: string)
    : Option<Protected>
  {
    match KeyForEnvelope(c, scope, lookup, m, m.activeKeyId, purpose, WriteVersion(m))
    case None => None
    case Some(key) => Some(Seal(key, m.activeKeyId, m.scopeId, recordId, purpose, nonce, WriteVersion(m), plaintext))
  }

  function Reveal(c: Crypto, scope: string, lookup: Lookup, m: Manifest, p: Protected): Option<string> {
    if p.scopeId != m.scopeId then None
    else
      match KeyForEnvelope(c, scope, lookup, m, p.keyId, p.purpose, p.version)
      case None => None
      case Some(key) => Decrypt(key, p.nonce, ContextOf(p), p.ciphertext)
  }

  function Reencrypt(c: Crypto, scope: string, lookup: Lookup, m: Manifest, p: Protected, target: KeyId, version: Version, nonce: Nonce)
    : Option<Protected>
  {
    match (Reveal(c, scope, lookup, m, p), KeyForEnvelope(c, scope, lookup, m, target, p.purpose, version))
    case (Some(plaintext), Some(key)) => Some(Seal(key, target, p.scopeId, p.recordId, p.purpose, nonce, version, plaintext))
    case _ => None
  }

  // ---- round trips ----

  /** The active key of an open profile can be used for both directions, whatever its custody. */
  lemma ProtectThenReveal(c: Crypto, scope: string, lookup: Lookup, m: Manifest, recordId: RecordId, purpose: Purpose, nonce: Nonce, plaintext: string)
    requires OpensWith(c, scope, lookup, m)
    ensures Protect(c, scope, lookup, m, recordId, purpose, nonce, plaintext).Some?
    ensures var p := Protect(c, scope, lookup, m, recordId, purpose, nonce, plaintext).value;
      Reveal(c, scope, lookup, m, p) == Some(plaintext) && p.keyId == m.activeKeyId && p.recordId == recordId
  {
  }

  /** Reencryption succeeds exactly when the record opens and the target can take it, and keeps its plaintext. */
  lemma ReencryptKeepsPlaintext(c: Crypto, scope: string, lookup: Lookup, m: Manifest, p: Protected, target: KeyId, version: Version, nonce: Nonce)
    ensures var p' := Reencrypt(c, scope, lookup, m, p, target, version, nonce);
      && (p'.Some? <==> Reveal(c, scope, lookup, m, p).Some? && KeyForEnvelope(c, scope, lookup, m, target, p.purpose, version).Some?)
      && (p'.Some? ==> Reveal(c, scope, lookup, m, p'.value) == Reveal(c, scope, lookup, m, p) && p'.value.keyId == target
                       && p'.value.recordId == p.recordId && p'.value.version == version)
  {
  }

  // ---- separation ----

  /** Which key serves an envelope: the raw root in version 2, in version 3 one derived for profile, scope id, epoch and purpose. */
  lemma EnvelopeKeyIs(c: Crypto, scope: string, lookup: Lookup, m: Manifest, id: KeyId, purpose: Purpose, root: Root)
    requires id in m.keys && lookup(id, m.keys[id].ref) == Some(root)
    ensures KeyForEnvelope(c, scope, lookup, m, id, purpose, V2) == if m.keys[id].ref.KeyFile? then Some(RootKey(root)) else None
    ensures KeyForEnvelope(c, scope, lookup, m, id, purpose, V3)
         == match m.keys[id].epoch
            case None => None
            case Some(epoch) => Some(Derived(c.derive(root, Domain(scope, m.scopeId, epoch, purpose))))
  {
  }

  /** Derivation that never gives one key twice. */
  ghost predicate DerivesApart(c: Crypto) {
    forall root, other, x, y {:trigger c.derive(root, x), c.derive(other, y)} :: c.derive(root, x) == c.derive(other, y) ==> root == other && x == y
  }

  /** Two derived keys are the same only for the same root, scope, epoch and purpose. */
  lemma KeysAreSeparate(c: Crypto, scope: string, lookup: Lookup, m: Manifest, id: KeyId, purpose: Purpose, other: KeyId, otherPurpose: Purpose)
    requires DerivesApart(c) && id in m.keys && other in m.keys
    requires KeyForEnvelope(c, scope, lookup, m, id, purpose, V3).Some? && KeyForEnvelope(c, scope, lookup, m, other, otherPurpose, V3).Some?
    ensures KeyForEnvelope(c, scope, lookup, m, id, purpose, V3) == KeyForEnvelope(c, scope, lookup, m, other, otherPurpose, V3)
      <==> && lookup(id, m.keys[id].ref) == lookup(other, m.keys[other].ref)
           && m.keys[id].epoch == m.keys[other].epoch && purpose == otherPurpose
  {
    var root, otherRoot := lookup(id, m.keys[id].ref).value, lookup(other, m.keys[other].ref).value;
    EnvelopeKeyIs(c, scope, lookup, m, id, purpose, root);
    EnvelopeKeyIs(c, scope, lookup, m, other, otherPurpose, otherRoot);
  }

  lemma ActiveKeyServes(c: Crypto, scope: string, lookup: Lookup, m: Manifest, purpose: Purpose)
    requires OpensWith(c, scope, lookup, m) && HasV3(m)
    ensures m.activeKeyId in m.keys && KeyForEnvelope(c, scope, lookup, m, m.activeKeyId, purpose, V3).Some?
  {
    assert EntryLoads(m, m.keys[m.activeKeyId]);
  }

  /** The version that is written follows the profile's features. */
  lemma ProtectedAs(c: Crypto, scope: string, lookup: Lookup, m: Manifest, recordId: RecordId, purpose: Purpose, nonce: Nonce, plaintext: string)
    requires OpensWith(c, scope, lookup, m)
    ensures Protect(c, scope, lookup, m, recordId, purpose, nonce, plaintext).Some?
    ensures var p := Protect(c, scope, lookup, m, recordId, purpose, nonce, plaintext).value;
      && p.purpose == purpose && p.scopeId == m.scopeId && p.nonce == nonce
      && (p.version == V3 <==> RecordEnvelopeV3 in m.features)
      && KeyForEnvelope(c, scope, lookup, m, m.activeKeyId, purpose, p.version) == Some(p.ciphertext.key)
  {
  }

  /** A ciphertext is revealed in the record it was made for and nowhere else: not under another id, purpose, scope, version, key or nonce. */
  lemma OnlyInItsOwnRecord(c: Crypto, scope: string, lookup: Lookup, m: Manifest, recordId: RecordId, purpose: Purpose, nonce: Nonce,
                           plaintext: string, b: Lookup, next: Manifest, q: Protected)
    requires OpensWith(c, scope, lookup, m)
    requires Protect(c, scope, lookup, m, recordId, purpose, nonce, plaintext).Some?
    requires q.ciphertext == Protect(c, scope, lookup, m, recordId, purpose, nonce, plaintext).value.ciphertext
    requires Reveal(c, scope, b, next, q).Some?
    ensures q.recordId == recordId && q.purpose == purpose && q.nonce == nonce && q.keyId == m.activeKeyId && q.scopeId == m.scopeId
    ensures q == Protect(c, scope, lookup, m, recordId, purpose, nonce, plaintext).value
  {
  }

  /** The key for another purpose does not open it either, whatever context is claimed. */
  lemma NotUnderAnotherPurpose(c: Crypto, scope: string, lookup: Lookup, m: Manifest, recordId: RecordId, purpose: Purpose, nonce: Nonce,
                               plaintext: string, other: Purpose, claimed: AssociatedData)
    requires DerivesApart(c) && OpensWith(c, scope, lookup, m) && HasV3(m) && other != purpose
    ensures KeyForEnvelope(c, scope, lookup, m, m.activeKeyId, other, V3).Some?
    ensures Protect(c, scope, lookup, m, recordId, purpose, nonce, plaintext).Some?
    ensures var p := Protect(c, scope, lookup, m, recordId, purpose, nonce, plaintext).value;
      Decrypt(KeyForEnvelope(c, scope, lookup, m, m.activeKeyId, other, V3).value, p.nonce, claimed, p.ciphertext) == None
  {
    hide DerivesApart, OpensWith, KeyForEnvelope, Protect;
    ActiveKeyServes(c, scope, lookup, m, purpose);
    ActiveKeyServes(c, scope, lookup, m, other);
    ProtectedAs(c, scope, lookup, m, recordId, purpose, nonce, plaintext);
    KeysAreSeparate(c, scope, lookup, m, m.activeKeyId, purpose, m.activeKeyId, other);
  }

  // ---- when a record stays readable ----

  /** What a new manifest must keep for a record to stay readable. */
  ghost predicate KeepsKey(a: Lookup, m: Manifest, b: Lookup, next: Manifest, p: Protected) {
    && p.keyId in m.keys && p.keyId in next.keys && m.scopeId == next.scopeId
    && a(p.keyId, m.keys[p.keyId].ref).Some?
    && b(p.keyId, next.keys[p.keyId].ref) == a(p.keyId, m.keys[p.keyId].ref)
    && (p.version == V2 && m.keys[p.keyId].ref.KeyFile? ==> next.keys[p.keyId].ref.KeyFile?)
    && (p.version == V3 && m.keys[p.keyId].epoch.Some? ==> next.keys[p.keyId].epoch == m.keys[p.keyId].epoch)
  }

  lemma StaysReadable(c: Crypto, scope: string, a: Lookup, m: Manifest, b: Lookup, next: Manifest, p: Protected)
    requires KeepsKey(a, m, b, next, p) && Reveal(c, scope, a, m, p).Some?
    ensures Reveal(c, scope, b, next, p) == Reveal(c, scope, a, m, p)
  {
  }

  /** A version-2 record is lost on a switch to opaque custody, a version-3 record is not. */
  lemma OpaqueCustodyNeedsVersion3(c: Crypto, scope: string, a: Lookup, m: Manifest, b: Lookup, next: Manifest, p: Protected)
    requires p.keyId in m.keys && p.keyId in next.keys && m.scopeId == next.scopeId && next.keys[p.keyId].ref.Custody?
    requires a(p.keyId, m.keys[p.keyId].ref).Some? && b(p.keyId, next.keys[p.keyId].ref) == a(p.keyId, m.keys[p.keyId].ref)
    requires next.keys[p.keyId].epoch == m.keys[p.keyId].epoch && Reveal(c, scope, a, m, p).Some?
    ensures Reveal(c, scope, b, next, p) == Reveal(c, scope, a, m, p) <==> p.version == V3
  {
  }
}
