/** The canonical JSON text an envelope's signature is made over (agent_common/signing.py). Nested objects in
    parameters hold their fields sorted, as sort_keys leaves them; a timestamp is written as its microseconds,
    which stand one to one for its ISO 8601 text. */
module EnvelopeText {
  import opened Text
  import opened Json
  import opened SortedNames
  import opened Skills
  import opened Signing
  import opened ManifestText

  function ParametersJson(names: seq<string>, parameters: Parameters): Members
    requires forall name <- names :: name in parameters
  {
    if names == [] then NoField else Field(names[0], parameters[names[0]], ParametersJson(names[1..], parameters))
  }

  function Body(
    action: string, device: string, os: string, expires: int, issued: int, job: string, keyVersion: int, nonce: string,
    parameters: Members, skill: string, skillVersion: int, tenant: string): Json
  {
    Obj(Field("action_id", Str(action), Field("device_id", Str(device), Field("device_os", Str(os),
        Field("expires_at", Number(expires), Field("issued_at", Number(issued), Field("job_id", Str(job),
        Field("key_version", Number(keyVersion), Field("nonce", Str(nonce), Field("parameters", Obj(parameters),
        Field("skill_id", Str(skill),
              Field("skill_version", Number(skillVersion), Field("tenant_id", Str(tenant), NoField)))))))))))))
  }

  /** canonical_payload: the twelve signed fields, sorted, in tight JSON. */
  function Payload(f: Fields): string {
    SortedLists(f.parameters.Keys);
    TextOf(Body(f.actionId, f.deviceId, f.deviceOs, f.expiresAt, f.issuedAt, f.jobId, f.keyVersion, f.nonce,
                ParametersJson(Sorted(f.parameters.Keys), f.parameters), f.skillId, f.skillVersion, f.tenantId))
  }

  lemma {:induction false} ParametersInjective(a: seq<string>, p: Parameters, b: seq<string>, q: Parameters)
    requires (forall name <- a :: name in p) && (forall name <- b :: name in q)
    requires ParametersJson(a, p) == ParametersJson(b, q)
    ensures a == b && forall i :: 0 <= i < |a| ==> p[a[i]] == q[a[i]]
  {
    if a != [] && b != [] {
      ParametersInjective(a[1..], p, b[1..], q);
      assert a == [a[0]] + a[1..] && b == [b[0]] + b[1..];
      assert forall i :: 0 < i < |a| ==> a[i] == a[1..][i - 1];
    }
  }

  lemma ParametersSame(p: Parameters, q: Parameters)
    requires (forall name <- Sorted(p.Keys) :: name in p) && (forall name <- Sorted(q.Keys) :: name in q)
    requires ParametersJson(Sorted(p.Keys), p) == ParametersJson(Sorted(q.Keys), q)
    ensures p == q
  {
    ParametersInjective(Sorted(p.Keys), p, Sorted(q.Keys), q);
    SortedInjective(p.Keys, q.Keys);
    SortedLists(p.Keys);
    forall name | name in p ensures p[name] == q[name] {
      var i :| 0 <= i < |Sorted(p.Keys)| && Sorted(p.Keys)[i] == name;
    }
  }

  lemma BodyInjective(
    a: string, b: string, c: string, d: int, e: int, f: string, g: int, h: string, i: Members, j: string, k: int,
    l: string,
    m: string, n: string, o: string, p: int, q: int, r: string, s: int, t: string, v: Members, w: string, x: int,
    y: string)
    requires Body(a, b, c, d, e, f, g, h, i, j, k, l) == Body(m, n, o, p, q, r, s, t, v, w, x, y)
    ensures a == m && b == n && c == o && f == r && h == t && i == v && j == w && l == y
    ensures d == p && e == q && g == s && k == x
  {
    IntTextInjective(d, p);
    IntTextInjective(e, q);
    IntTextInjective(g, s);
    IntTextInjective(k, x);
  }

  /** The payload determines every signed field, so a signature over the text is one over the fields. */
  lemma PayloadDeterminesFields(f: Fields, g: Fields)
    ensures Payload(f) == Payload(g) <==> f == g
  {
    if Payload(f) == Payload(g) {
      SortedLists(f.parameters.Keys);
      SortedLists(g.parameters.Keys);
      var p, q := ParametersJson(Sorted(f.parameters.Keys), f.parameters),
          ParametersJson(Sorted(g.parameters.Keys), g.parameters);
      TextInjective(
        Body(f.actionId, f.deviceId, f.deviceOs, f.expiresAt, f.issuedAt, f.jobId, f.keyVersion, f.nonce, p, f.skillId,
             f.skillVersion, f.tenantId),
        Body(g.actionId, g.deviceId, g.deviceOs, g.expiresAt, g.issuedAt, g.jobId, g.keyVersion, g.nonce, q, g.skillId,
             g.skillVersion, g.tenantId));
      BodyInjective(
        f.actionId, f.deviceId, f.deviceOs, f.expiresAt, f.issuedAt, f.jobId, f.keyVersion, f.nonce, p, f.skillId,
        f.skillVersion, f.tenantId,
        g.actionId, g.deviceId, g.deviceOs, g.expiresAt, g.issuedAt, g.jobId, g.keyVersion, g.nonce, q, g.skillId,
        g.skillVersion, g.tenantId);
      ParametersSame(f.parameters, g.parameters);
    }
  }

  /** An envelope passes with a signature made under the control plane's key exactly when the key is that one
      and its canonical text is the signed text. */
  lemma SignatureIsOfText(fields: Fields, signed: Fields, seed: string, version: int, key: PublicKey)
    ensures VerifySignature(fields, SignEnvelope(signed, seed, version), key)
       <==> key == PublicKeyPem(seed, version) && Payload(fields) == Payload(signed)
  {
    PayloadDeterminesFields(fields, signed);
  }
}
