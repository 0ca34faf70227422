/** Signed job envelopes: key derivation, signing and the agent's verification
    (agent_common/signing.py, helpdesktool/job_signing.py). Ed25519 and SHA-256 are ideal functions: free
    constructors. A signature is kept with the signed fields rather than their canonical text, which determines
    them: see EnvelopeText. */
module Signing {
  import opened Text
  import opened Skills

  /** ENVELOPE_SIGNED_FIELDS; timestamps are microseconds. */
  datatype Fields = Fields(
    jobId: string, actionId: string, deviceId: string, tenantId: string,
    skillId: string, skillVersion: int, parameters: Parameters, deviceOs: string,
    issuedAt: int, expiresAt: int, nonce: string, keyVersion: int)

  /** The key derived from the signing seed for one version, and its public half. */
  datatype PrivateKey = DerivedKey(seed: string, version: int)
  datatype PublicKey = PublicOf(key: PrivateKey) | ForeignKey(pem: string)

  datatype Signature = SignedBy(key: PrivateKey, payload: Fields) | NoSignature(text: string)

  function PublicKeyPem(seed: string, version: int): PublicKey {
    PublicOf(DerivedKey(seed, version))
  }

  function SignEnvelope(fields: Fields, seed: string, version: int): Signature {
    SignedBy(DerivedKey(seed, version), fields)
  }

  predicate VerifySignature(fields: Fields, signature: Signature, key: PublicKey) {
    key.PublicOf? && signature == SignedBy(key.key, fields)
  }

  function Max(a: int, b: int): int {
    if a < b then b else a
  }

  /** The trusted versions: current down through current - window, never below 1. */
  function ActivePublicKeys(seed: string, current: int, window: int): map<int, PublicKey> {
    map version: int | Max(1, current - window) <= version <= current :: PublicKeyPem(seed, version)
  }

  datatype EnvelopeError = InvalidSignature | WrongDevice | WrongTenant | Expired | UnsupportedSkill

  /** The checks of verify_envelope on a structurally complete envelope, first failure reported. */
  function VerifyEnvelope(
    fields: Fields, signature: Signature, keys: map<int, PublicKey>, device: string, tenant: string,
    supported: map<string, set<int>>, now: int): Option<EnvelopeError>
  {
    if fields.keyVersion !in keys || !VerifySignature(fields, signature, keys[fields.keyVersion])
        then Some(InvalidSignature)
    else if fields.deviceId != device then Some(WrongDevice)
    else if fields.tenantId != tenant then Some(WrongTenant)
    else if fields.expiresAt <= now then Some(Expired)
    else if fields.skillId !in supported || fields.skillVersion !in supported[fields.skillId]
        then Some(UnsupportedSkill)
    else None
  }
}
