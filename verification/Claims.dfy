/** What a claim is answered, and what the signed envelope carries (helpdesktool/api.py). */
module Claims {
  import opened Text
  import opened Signing
  import opened Lifecycle
  import opened Server
  import opened Submissions
  import ProtocolRuns

  /** Queued for this very device of this tenant, under a registered skill. */
  predicate CanClaim(s: State, tenant: string, device: string, id: string) {
    && id in s.actions && s.actions[id].tenant == tenant && s.actions[id].device == device
    && s.actions[id].status == Queued && s.actions[id].skillId in s.skills
  }

  /** A claim whose key is on record is answered from the record, its token computed anew; any other one is
      granted exactly when the action can be claimed. Everything else is a conflict and changes nothing. */
  lemma ClaimAnsweredExactly(
    c: Config, s: State, tenant: string, device: string, id: string, key: string, nonce: string, now: int)
    ensures
      var (t, reply) := Claim(c, s, tenant, device, id, key, nonce, now);
      var rk := RecordKey(tenant, ClaimScope, key);
      if rk in s.records then
        && t == s
        && (s.records[rk].payload != ClaimPayload(id, device) <==> reply == Refused(409))
        && (reply.Ok? && s.records[rk].response.StoredClaim? ==>
              var stored := s.records[rk].response;
              reply.response == GrantedClaim(stored.fields, stored.signature, stored.attempt,
                                             ClaimToken(id, stored.attempt, key)))
      else
        && (reply.Ok? <==> CanClaim(s, tenant, device, id))
        && (reply.Refused? ==> reply == Refused(409) && t == s)
  {
  }

  /** The envelope of a granted claim, field by field. */
  predicate CarriesRow(f: Fields, row: ActionRow, id: string, version: int, nonce: string, now: int, keyVersion: int) {
    && f.actionId == id && f.jobId == JobId(id, row.attempt + 1)
    && f.deviceId == row.device && f.tenantId == row.tenant && f.deviceOs == row.deviceOs
    && f.skillId == row.skillId && f.skillVersion == version && f.parameters == row.parameters
    && f.issuedAt == now && f.expiresAt == now + 60_000_000
    && f.nonce == nonce && f.keyVersion == keyVersion
  }

  /** A granted claim hands out the action's own skill and parameters at the registered version, signed under the
      current key for sixty seconds; row, event and record say the same. */
  lemma GrantedClaimExactly(
    c: Config, s: State, tenant: string, device: string, id: string, key: string, nonce: string, now: int)
    requires RecordKey(tenant, ClaimScope, key) !in s.records && CanClaim(s, tenant, device, id)
    ensures
      var (t, reply) := Claim(c, s, tenant, device, id, key, nonce, now);
      var row := s.actions[id];
      var n, expires := row.attempt + 1, now + 60_000_000;
      && reply.Ok? && reply.response.GrantedClaim?
      && var g := reply.response;
      && CarriesRow(g.fields, row, id, s.skills[row.skillId].version, nonce, now, c.keyVersion)
      && g.signature == SignedBy(DerivedKey(c.seed, c.keyVersion), g.fields)
      && g.attempt == n && g.token == ClaimToken(id, n, key)
      && t == s.(
        actions := s.actions[id := row.(
          status := Claimed, tokenHash := Some(g.token), claimedAt := Some(now), leaseExpiresAt := Some(expires),
          attempt := n)],
        audit := s.audit + [Event(tenant, id, device, ExecutionClaimed(JobId(id, n), n, expires, Queued, Claimed))],
        records := s.records[RecordKey(tenant, ClaimScope, key) :=
                               Record(ClaimPayload(id, device), StoredClaim(g.fields, g.signature, n), now)])
  {
  }

  // ---- What every stored envelope says

  /** The envelope is for an action of the tables: its device, skill and parameters. */
  predicate OfRow(s: State, f: Fields) {
    && f.actionId in s.actions
    && var row := s.actions[f.actionId];
    && f.deviceId == row.device && f.tenantId == row.tenant && f.deviceOs == row.deviceOs
    && f.skillId == row.skillId && f.parameters == row.parameters
  }

  lemma OfRowStays(c: Config, s: State, op: Op, now: int, f: Fields)
    requires OfRow(s, f)
    ensures OfRow(Next(c, s, op, now), f)
  {
    StepNames(c, s, op, now, f.actionId);
  }

  /** No token is ever stored, and an envelope only with its action. */
  predicate Storable(s: State, response: Response) {
    !response.GrantedClaim? && (response.StoredClaim? ==> OfRow(s, response.fields))
  }

  ghost predicate RecordsOfRows(s: State) {
    forall rk <- s.records :: Storable(s, s.records[rk].response)
  }

  lemma ClaimRecordsEnvelope(c: Config, s: State, op: Op, now: int, rk: RecordKey)
    requires op.OpClaim? && rk in Next(c, s, op, now).records
    ensures
      var t := Next(c, s, op, now);
      (rk in s.records && t.records[rk] == s.records[rk]) || Storable(t, t.records[rk].response)
  {
    ClaimAnsweredExactly(c, s, op.tenant, op.device, op.id, op.key, op.nonce, now);
    if Next(c, s, op, now) != s {
      GrantedClaimExactly(c, s, op.tenant, op.device, op.id, op.key, op.nonce, now);
    }
  }

  lemma CreateRecordsNoEnvelope(c: Config, s: State, op: Op, now: int, rk: RecordKey)
    requires op.OpCreate? && rk in Next(c, s, op, now).records
    ensures
      var t := Next(c, s, op, now);
      (rk in s.records && t.records[rk] == s.records[rk]) || t.records[rk].response.ActionResponse?
  {
    CreateAnsweredExactly(c, s, op.tenant, op.actor, op.key, op.body, op.newId, now);
    if Next(c, s, op, now) != s {
      AcceptedCreation(c, s, op.tenant, op.actor, op.key, op.body, op.newId, now);
    }
  }

  lemma ReportRecordsNoEnvelope(c: Config, s: State, op: Op, now: int, rk: RecordKey)
    requires op.OpReport? && rk in Next(c, s, op, now).records
    ensures
      var t := Next(c, s, op, now);
      (rk in s.records && t.records[rk] == s.records[rk]) || t.records[rk].response.Accepted?
  {
  }

  lemma OthersRecordNothing(c: Config, s: State, op: Op, now: int, rk: RecordKey)
    requires !op.OpCreate? && !op.OpClaim? && !op.OpReport? && rk in Next(c, s, op, now).records
    ensures rk in s.records && Next(c, s, op, now).records[rk] == s.records[rk]
  {
    ProtocolRuns.NewRecord(c, s, op, now, rk);
  }

  lemma StepRecords(c: Config, s: State, op: Op, now: int)
    requires RecordsOfRows(s)
    ensures RecordsOfRows(Next(c, s, op, now))
  {
    var t := Next(c, s, op, now);
    forall rk | rk in t.records ensures Storable(t, t.records[rk].response) {
      if op.OpClaim? {
        ClaimRecordsEnvelope(c, s, op, now, rk);
      } else if op.OpCreate? {
        CreateRecordsNoEnvelope(c, s, op, now, rk);
      } else if op.OpReport? {
        ReportRecordsNoEnvelope(c, s, op, now, rk);
      } else {
        OthersRecordNothing(c, s, op, now, rk);
      }
      if rk in s.records && t.records[rk] == s.records[rk] && t.records[rk].response.StoredClaim? {
        OfRowStays(c, s, op, now, s.records[rk].response.fields);
      }
    }
  }

  /** Whatever envelope a claim is answered with, fresh or from the record, is the one of its action. */
  lemma AnswerOfRow(
    c: Config, s: State, tenant: string, device: string, id: string, key: string, nonce: string, now: int)
    requires RecordsOfRows(s) && Claim(c, s, tenant, device, id, key, nonce, now).1.Ok?
    ensures
      var (t, reply) := Claim(c, s, tenant, device, id, key, nonce, now);
      reply.response.GrantedClaim? ==> OfRow(t, reply.response.fields)
  {
    ClaimAnsweredExactly(c, s, tenant, device, id, key, nonce, now);
    if RecordKey(tenant, ClaimScope, key) !in s.records {
      GrantedClaimExactly(c, s, tenant, device, id, key, nonce, now);
    }
  }
}
