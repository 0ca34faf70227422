/** Repeating a request that already succeeded has no effect and gets the original answer
    (idempotency_lookup and remember in helpdesktool/api.py). */
module Replays {
  import opened Text
  import opened Lifecycle
  import opened Server
  import opened ServerRuns

  datatype Fingerprint = Fingerprint(rk: RecordKey, payload: Payload)

  /** Tenant, scope, key and payload of the requests that carry an idempotency key. The claim token of a
      report travels in a header and is not part of its payload. */
  function FingerprintOf(op: Op): Option<Fingerprint> {
    match op
    case OpCreate(tenant, _, key, body, _) =>
        Some(Fingerprint(RecordKey(tenant, ActionScope, key), ActionPayload(body)))
    case OpClaim(tenant, device, id, key, _) =>
        Some(Fingerprint(RecordKey(tenant, ClaimScope, key), ClaimPayload(id, device)))
    case OpReport(tenant, device, id, key, _, r) =>
        Some(Fingerprint(RecordKey(tenant, ResultScope, key), ResultPayload(id, device, r)))
    case _ => None
  }

  /** The answer given to a repeat of a remembered request. */
  function Rebuilt(f: Fingerprint, stored: Response): Response {
    if f.payload.ClaimPayload? then Regrant(f.payload.action, f.rk.key, stored) else stored
  }

  /** The request is on record, and its repeat would be answered with `response`. */
  predicate Remembers(s: State, f: Fingerprint, response: Response) {
    && f.rk in s.records
    && s.records[f.rk].payload == f.payload
    && Rebuilt(f, s.records[f.rk].response) == response
  }

  lemma SuccessIsRemembered(c: Config, s: State, op: Op, now: int)
    requires FingerprintOf(op).Some? && ReplyTo(c, s, op, now).Ok?
    ensures Remembers(Next(c, s, op, now), FingerprintOf(op).value, ReplyTo(c, s, op, now).response)
  {
  }

  lemma RememberedIsAnswered(c: Config, s: State, op: Op, now: int, response: Response)
    requires FingerprintOf(op).Some? && Remembers(s, FingerprintOf(op).value, response)
    ensures Next(c, s, op, now) == s && ReplyTo(c, s, op, now) == Ok(response)
  {
  }

  predicate PurgeFree(ops: seq<Timed>) {
    forall i :: 0 <= i < |ops| ==> !ops[i].op.OpPurge?
  }

  lemma {:induction false} StillRemembers(c: Config, s: State, ops: seq<Timed>, f: Fingerprint, response: Response)
    requires PurgeFree(ops) && Remembers(s, f, response)
    ensures Remembers(Run(c, s, ops), f, response)
  {
    if ops != [] {
      var n := |ops| - 1;
      StillRemembers(c, s, ops[..n], f, response);
      RecordsPersist(c, Run(c, s, ops[..n]), ops[n].op, ops[n].now, f.rk);
    }
  }

  /** The reply to the request at position i of a run. */
  function ReplyAt(c: Config, s: State, ops: seq<Timed>, i: nat): Reply
    requires i < |ops|
  {
    ReplyTo(c, Run(c, s, ops[..i]), ops[i].op, ops[i].now)
  }

  /** A later request with the tenant, scope, key and payload of a successful one gets the original
      response, including the recomputed claim token, and changes no table, if no purge came between. */
  lemma RepeatGetsOriginal(c: Config, s: State, ops: seq<Timed>, i: nat, j: nat)
    requires i < j < |ops| && PurgeFree(ops[i + 1..j])
    requires FingerprintOf(ops[i].op).Some? && FingerprintOf(ops[j].op) == FingerprintOf(ops[i].op)
    requires ReplyAt(c, s, ops, i).Ok?
    ensures ReplyAt(c, s, ops, j) == ReplyAt(c, s, ops, i)
    ensures Run(c, s, ops[..j + 1]) == Run(c, s, ops[..j])
  {
    var f := FingerprintOf(ops[i].op).value;
    var response := ReplyAt(c, s, ops, i).response;
    RunStep(c, s, ops, i);
    RunStep(c, s, ops, j);
    SuccessIsRemembered(c, Run(c, s, ops[..i]), ops[i].op, ops[i].now);
    RunBetween(c, s, ops, i + 1, j);
    StillRemembers(c, Run(c, s, ops[..i + 1]), ops[i + 1..j], f, response);
    RememberedIsAnswered(c, Run(c, s, ops[..j]), ops[j].op, ops[j].now, response);
  }

  lemma RunStep(c: Config, s: State, ops: seq<Timed>, i: nat)
    requires i < |ops|
    ensures Run(c, s, ops[..i + 1]) == Next(c, Run(c, s, ops[..i]), ops[i].op, ops[i].now)
  {
    assert ops[..i + 1][..i] == ops[..i];
  }

  lemma RunBetween(c: Config, s: State, ops: seq<Timed>, i: nat, j: nat)
    requires i <= j <= |ops|
    ensures Run(c, s, ops[..j]) == Run(c, Run(c, s, ops[..i]), ops[i..j])
  {
    RunSplits(c, s, ops[..i], ops[i..j]);
    assert ops[..j] == ops[..i] + ops[i..j];
  }

  /** The trace without the repeats of requests that succeeded before; `done` are those that have. */
  function WithoutRepeats(c: Config, s: State, ops: seq<Timed>, done: set<Fingerprint>): seq<Timed>
    decreases |ops|
  {
    if ops == [] then []
    else
      var f := FingerprintOf(ops[0].op);
      var t := Next(c, s, ops[0].op, ops[0].now);
      if f.Some? && f.value in done then WithoutRepeats(c, t, ops[1..], done)
      else
        var succeeded := f.Some? && ReplyTo(c, s, ops[0].op, ops[0].now).Ok?;
        [ops[0]] + WithoutRepeats(c, t, ops[1..], if succeeded then done + {f.value} else done)
  }

  ghost predicate AllRemembered(s: State, done: set<Fingerprint>) {
    forall f :: f in done ==> f.rk in s.records && s.records[f.rk].payload == f.payload
  }

  lemma StepRemembersAll(c: Config, s: State, op: Op, now: int, done: set<Fingerprint>)
    requires !op.OpPurge? && AllRemembered(s, done)
    ensures AllRemembered(Next(c, s, op, now), done)
  {
    forall f | f in done
        ensures f.rk in Next(c, s, op, now).records && Next(c, s, op, now).records[f.rk].payload == f.payload {
      RecordsPersist(c, s, op, now, f.rk);
    }
  }

  lemma RunHead(c: Config, s: State, head: Timed, rest: seq<Timed>)
    ensures Run(c, s, [head] + rest) == Run(c, Next(c, s, head.op, head.now), rest)
  {
    assert [head][..0] == [];
    assert Run(c, s, [head]) == Next(c, Run(c, s, [head][..0]), head.op, head.now);
    RunSplits(c, s, [head], rest);
  }

  /** Deleting every repeat of an already successful request leaves the same final tables. */
  lemma {:induction false} RepeatsHaveNoEffect(c: Config, s: State, ops: seq<Timed>, done: set<Fingerprint>)
    requires PurgeFree(ops) && AllRemembered(s, done)
    ensures Run(c, s, WithoutRepeats(c, s, ops, done)) == Run(c, s, ops)
    decreases |ops|
  {
    if ops != [] {
      var op, now := ops[0].op, ops[0].now;
      var f := FingerprintOf(op);
      var t := Next(c, s, op, now);
      assert ops == [ops[0]] + ops[1..];
      RunHead(c, s, ops[0], ops[1..]);
      StepRemembersAll(c, s, op, now, done);
      if f.Some? && f.value in done {
        RememberedIsAnswered(c, s, op, now, Rebuilt(f.value, s.records[f.value.rk].response));
        RepeatsHaveNoEffect(c, t, ops[1..], done);
      } else {
        var succeeded := f.Some? && ReplyTo(c, s, op, now).Ok?;
        if succeeded {
          SuccessIsRemembered(c, s, op, now);
        }
        var later := if succeeded then done + {f.value} else done;
        RepeatsHaveNoEffect(c, t, ops[1..], later);
        RunHead(c, s, ops[0], WithoutRepeats(c, t, ops[1..], later));
      }
    }
  }

  /** The no-purge condition is exact for creation: once its record is purged, the repeat of a request that
      is still acceptable submits a second action. */
  lemma PurgedRepeatSubmitsAgain(c: Config, s: State, tenant: string, actor: string, key: string, body: ActionBody,
                                 newId: string, now: int, cutoff: int)
    requires CreateRefusal(c, s, tenant, body, newId).None?
    ensures
      var op := OpCreate(tenant, actor, key, body, newId);
      var rk := FingerprintOf(op).value.rk;
      (newId in Next(c, Purge(s, cutoff), op, now).actions) <==> (rk !in s.records || s.records[rk].createdAt < cutoff)
  {
  }
}
