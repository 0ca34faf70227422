/** Connector requests, their step-up codes and decisions (helpdesktool/api.py), and the expiry of those
    nobody decided (helpdesktool/connector_request_reaper.py). */
module ConnectorRequests {
  import opened Text

  /** Times are in microseconds. */
  const CODE_TTL := 600_000_000

  /** SHA-256 as an ideal function. */
  datatype Digest = Sha256(text: string)

  datatype Status = Pending | Denied | Succeeded | Failed | Expired

  datatype Request = Request(
    tenant: string, requestedBy: string, high: bool, createdAt: int, status: Status,
    decidedBy: Option<string>, decidedAt: Option<int>, reason: string, verified: bool,
    codeHash: Option<Digest>, codeExpiresAt: Option<int>)

  datatype Principal = Principal(actor: string, tenant: string)

  /** How the connector behaves once a decision has passed its checks. An exception rolls the decision back;
      it may come after the operation was already carried out. */
  datatype Connector = Unresolved | Ran(success: bool, verified: bool) | Raised(performed: bool)

  datatype Response = Code(code: string) | Decision(status: Status) | Refused(http: int) | Crashed | Nothing

  datatype Step =
    | Create(who: Principal, high: bool, at: int)
    | Mint(k: nat, who: Principal, random: nat, at: int)
    | Decide(k: nat, who: Principal, approve: bool, reason: string, code: Option<string>, connector: Connector, at: int)
    | Expire(k: nat, at: int)

  function Pristine(who: Principal, high: bool, at: int): Request {
    Request(who.tenant, who.actor, high, at, Pending, None, None, "", false, None, None)
  }

  /** The step-up check: a code was minted, has not expired, and is the one supplied. */
  predicate CodeAccepted(r: Request, supplied: Option<string>, at: int) {
    && r.codeHash.Some?
    && r.codeExpiresAt.Some? && r.codeExpiresAt.value >= at
    && supplied.Some? && supplied.value != "" && Sha256(supplied.value) == r.codeHash.value
  }

  function MintCode(r: Request, who: Principal, random: nat, at: int): (Request, Response) {
    if r.tenant != who.tenant then (r, Refused(404))
    else if r.requestedBy != who.actor then (r, Refused(403))
    else if !r.high then (r, Refused(400))
    else if r.status != Pending then (r, Refused(409))
    else
      var code := Decimal(random % 900_000_000 + 100_000_000);
      (r.(codeHash := Some(Sha256(code)), codeExpiresAt := Some(at + CODE_TTL)), Code(code))
  }

  function DecideRequest(
    r: Request, who: Principal, approve: bool, reason: string, code: Option<string>, connector: Connector, at: int)
    : (Request, Response)
  {
    if r.tenant != who.tenant then (r, Refused(404))
    else if r.status != Pending then (r, Refused(409))
    else if r.requestedBy == who.actor then (r, Refused(403))
    else if approve && r.high && !CodeAccepted(r, code, at) then (r, Refused(403))
    else
      var checked := if approve && r.high then r.(codeHash := None, codeExpiresAt := None) else r;
      var decided := checked.(decidedBy := Some(who.actor), reason := reason, decidedAt := Some(at));
      if !approve then (decided.(status := Denied), Decision(Denied))
      else
        match connector
        case Raised(_) => (r, Crashed)
        case Unresolved => (decided.(status := Failed), Decision(Failed))
        case Ran(success, verified) =>
          var status := if success then Succeeded else Failed;
          (decided.(status := status, verified := verified), Decision(status))
  }

  predicate Stale(r: Request, staleAfter: int, at: int) {
    r.status == Pending && r.createdAt < at - staleAfter
  }

  function Expiry(r: Request, at: int): Request {
    r.(status := Expired, decidedAt := Some(at), reason := "auto-expired")
  }

  function Next(rows: seq<Request>, step: Step, staleAfter: int): (seq<Request>, Response) {
    match step
    case Create(who, high, at) => (rows + [Pristine(who, high, at)], Nothing)
    case Mint(k, who, random, at) =>
      if k < |rows| then
        var (r, response) := MintCode(rows[k], who, random, at);
        (rows[k := r], response)
      else (rows, Refused(404))
    case Decide(k, who, approve, reason, code, connector, at) =>
      if k < |rows| then
        var (r, response) := DecideRequest(rows[k], who, approve, reason, code, connector, at);
        (rows[k := r], response)
      else (rows, Refused(404))
    case Expire(k, at) =>
      if k < |rows| && Stale(rows[k], staleAfter, at) then (rows[k := Expiry(rows[k], at)], Nothing)
          else (rows, Nothing)
  }

  ghost predicate IsRun(states: seq<seq<Request>>, steps: seq<Step>, staleAfter: int) {
    && |states| == |steps| + 1
    && states[0] == []
    && forall i {:trigger steps[i]} :: 0 <= i < |steps| ==> states[i + 1] == Next(states[i], steps[i], staleAfter).0
  }

  // ---- A request is settled once

  lemma NextKeepsOthers(rows: seq<Request>, step: Step, staleAfter: int, k: nat)
    requires k < |rows|
    ensures
      var after := Next(rows, step, staleAfter).0;
      && |rows| <= |after|
      && (rows[k].status != Pending ==> after[k] == rows[k])
      && (after[k] != rows[k] ==> !step.Create? && step.k == k)
      && after[k].(status := Pending, decidedBy := None, decidedAt := None, reason := "", verified := false,
                   codeHash := None, codeExpiresAt := None)
         == rows[k].(status := Pending, decidedBy := None, decidedAt := None, reason := "", verified := false,
                     codeHash := None, codeExpiresAt := None)
  {
  }

  /** A request that has left pending_approval never changes again: it is left at most once. */
  lemma {:induction false} SettledForever(states: seq<seq<Request>>, steps: seq<Step>, staleAfter: int, m: nat, n: nat,
                                          k: nat)
    requires IsRun(states, steps, staleAfter) && m <= n <= |steps|
    requires k < |states[m]| && states[m][k].status != Pending
    ensures k < |states[n]| && states[n][k] == states[m][k]
  {
    if m < n {
      SettledForever(states, steps, staleAfter, m, n - 1, k);
      assert states[n] == Next(states[n - 1], steps[n - 1], staleAfter).0;
      NextKeepsOthers(states[n - 1], steps[n - 1], staleAfter, k);
    }
  }

  predicate Leaves(before: seq<Request>, after: seq<Request>, k: nat) {
    k < |before| && k < |after| && before[k].status == Pending && after[k].status != Pending
  }

  lemma LeavesPendingOnce(states: seq<seq<Request>>, steps: seq<Step>, staleAfter: int, m: nat, n: nat, k: nat)
    requires IsRun(states, steps, staleAfter) && m < |steps| && n < |steps|
    requires Leaves(states[m], states[m + 1], k) && Leaves(states[n], states[n + 1], k)
    ensures m == n
  {
    if m < n {
      SettledForever(states, steps, staleAfter, m + 1, n, k);
    } else if n < m {
      SettledForever(states, steps, staleAfter, n + 1, m, k);
    }
  }

  // ---- The stored hash is the latest minted code

  datatype Minted = Minted(code: string, at: int, index: nat)

  /** The last code handed out for a request, read off the responses alone. */
  function LatestMint(states: seq<seq<Request>>, steps: seq<Step>, staleAfter: int, n: nat, k: nat)
      : (latest: Option<Minted>)
    requires |states| == |steps| + 1 && n <= |steps|
    ensures latest.Some? ==>
      && latest.value.index < n
      && steps[latest.value.index].Mint? && steps[latest.value.index].k == k
      && steps[latest.value.index].at == latest.value.at
      && Next(states[latest.value.index], steps[latest.value.index], staleAfter).1 == Code(latest.value.code)
  {
    if n == 0 then None
    else
      var response := Next(states[n - 1], steps[n - 1], staleAfter).1;
      if steps[n - 1].Mint? && steps[n - 1].k == k && response.Code?
          then Some(Minted(response.code, steps[n - 1].at, n - 1))
      else LatestMint(states, steps, staleAfter, n - 1, k)
  }

  ghost predicate HoldsLatest(r: Request, latest: Option<Minted>) {
    && (r.status == Pending ==>
         match latest
         case None => r.codeHash == None && r.codeExpiresAt == None
         case Some(m) => r.codeHash == Some(Sha256(m.code)) && r.codeExpiresAt == Some(m.at + CODE_TTL))
    && (latest.Some? ==> r.high && latest.value.code != "")
  }

  lemma {:induction false} HashIsLatestMint(states: seq<seq<Request>>, steps: seq<Step>, staleAfter: int, n: nat,
                                            k: nat)
    requires IsRun(states, steps, staleAfter) && n <= |steps|
    ensures if k < |states[n]| then HoldsLatest(states[n][k], LatestMint(states, steps, staleAfter, n, k))
            else LatestMint(states, steps, staleAfter, n, k) == None
  {
    if n > 0 {
      HashIsLatestMint(states, steps, staleAfter, n - 1, k);
      assert states[n] == Next(states[n - 1], steps[n - 1], staleAfter).0;
      if k < |states[n - 1]| {
        NextKeepsOthers(states[n - 1], steps[n - 1], staleAfter, k);
      }
    }
  }

  // ---- High-risk approval

  /** The steps of a decision that pass every check. */
  predicate Passes(rows: seq<Request>, step: Step, staleAfter: int) {
    step.Decide? && !Next(rows, step, staleAfter).1.Refused?
  }

  /** An approval of a high-risk request passes exactly when the request is the approver's tenant's and still
      pending, the approver is not the requester, and the supplied code is the one last handed out to the
      requester, at most ten minutes ago. */
  lemma HighRiskApprovedExactly(states: seq<seq<Request>>, steps: seq<Step>, staleAfter: int, n: nat)
    requires IsRun(states, steps, staleAfter) && n < |steps|
    requires steps[n].Decide? && steps[n].approve && steps[n].k < |states[n]| && states[n][steps[n].k].high
    ensures
      var step, latest := steps[n], LatestMint(states, steps, staleAfter, n, steps[n].k);
      var r := states[n][step.k];
      Passes(states[n], step, staleAfter) <==>
        && r.tenant == step.who.tenant && r.status == Pending && r.requestedBy != step.who.actor
        && latest.Some? && step.code == Some(latest.value.code) && step.at <= latest.value.at + CODE_TTL
  {
    HashIsLatestMint(states, steps, staleAfter, n, steps[n].k);
  }

  /** A new request is the asker's own, pending and without a code; nothing else changes. */
  lemma CreatedExactly(rows: seq<Request>, who: Principal, high: bool, at: int, staleAfter: int)
    ensures Next(rows, Create(who, high, at), staleAfter).0
         == rows + [Request(who.tenant, who.actor, high, at, Pending, None, None, "", false, None, None)]
  {
  }

  /** A code is handed out exactly to the requester, for a pending high-risk request; its hash replaces the old
      one, for ten minutes. Refusals, in order, change nothing. */
  lemma MintedExactly(rows: seq<Request>, k: nat, who: Principal, random: nat, at: int, staleAfter: int)
    ensures
      var (after, response) := Next(rows, Mint(k, who, random, at), staleAfter);
      var found := k < |rows| && rows[k].tenant == who.tenant;
      var own := found && rows[k].requestedBy == who.actor;
      && (response == Refused(404) <==> !found)
      && (response == Refused(403) <==> found && !own)
      && (response == Refused(400) <==> own && !rows[k].high)
      && (response == Refused(409) <==> own && rows[k].high && rows[k].status != Pending)
      && (response.Code? <==> own && rows[k].high && rows[k].status == Pending)
      && (response.Code? ==>
            after == rows[k := rows[k].(codeHash := Some(Sha256(response.code)),
                                        codeExpiresAt := Some(at + 600_000_000))])
      && (!response.Code? ==> after == rows && response.Refused?)
  {
    assert k < |rows| ==> rows[k := rows[k]] == rows;
  }

  /** A request expires exactly when it is pending and older than the limit; nothing else changes. */
  lemma ExpiredExactly(rows: seq<Request>, k: nat, at: int, staleAfter: int)
    ensures
      var after := Next(rows, Expire(k, at), staleAfter).0;
      if k < |rows| && rows[k].status == Pending && rows[k].createdAt + staleAfter < at then
        after == rows[k := rows[k].(status := Expired, decidedAt := Some(at), reason := "auto-expired")]
      else after == rows
  {
  }

  /** What a decision that passes leaves, told from the decision and the connector: a denial denies, a connector
      that cannot find its target fails, one that ran gives its own answer, and an exception undoes everything. */
  lemma DecidedExactly(rows: seq<Request>, step: Step, staleAfter: int)
    requires Passes(rows, step, staleAfter)
    ensures step.k < |rows|
    ensures
      var (after, response) := Next(rows, step, staleAfter);
      var r := rows[step.k];
      var status := if !step.approve then Denied
                    else if step.connector.Ran? && step.connector.success then Succeeded else Failed;
      if step.approve && step.connector.Raised? then after == rows && response == Crashed
      else
        && response == Decision(status)
        && after == rows[step.k := r.(
             status := status, decidedBy := Some(step.who.actor), decidedAt := Some(step.at), reason := step.reason,
             verified := if step.approve && step.connector.Ran? then step.connector.verified else r.verified,
             codeHash := if step.approve && r.high then None else r.codeHash,
             codeExpiresAt := if step.approve && r.high then None else r.codeExpiresAt)]
  {
    assert rows[step.k := rows[step.k]] == rows;
  }

  /** Which decisions pass: a pending request of the tenant, decided by another actor, and for a high-risk
      approval with the code whose hash is stored, before it expires. */
  lemma PassesExactly(rows: seq<Request>, step: Step, staleAfter: int)
    ensures Passes(rows, step, staleAfter) <==>
      && step.Decide? && step.k < |rows|
      && var r := rows[step.k];
      && r.tenant == step.who.tenant && r.status == Pending && r.requestedBy != step.who.actor
      && (step.approve && r.high ==>
            && r.codeHash.Some? && r.codeExpiresAt.Some? && step.at <= r.codeExpiresAt.value
            && step.code.Some? && step.code.value != "" && r.codeHash == Some(Sha256(step.code.value)))
  {
  }

  /** The code was handed to the requester: nobody else can be given one. */
  lemma CodesGoToTheRequester(rows: seq<Request>, step: Step, staleAfter: int)
    requires Next(rows, step, staleAfter).1.Code?
    ensures step.Mint? && step.k < |rows| && rows[step.k].requestedBy == step.who.actor
        && rows[step.k].tenant == step.who.tenant
  {
  }

  /** Whenever a high-risk request succeeds or fails, somebody other than the requester approved it with the
      requester's latest code, not yet ten minutes old; the code's hash is then gone. */
  lemma HighRiskExecution(states: seq<seq<Request>>, steps: seq<Step>, staleAfter: int, n: nat, k: nat)
    requires IsRun(states, steps, staleAfter) && n < |steps|
    requires Leaves(states[n], states[n + 1], k) && states[n + 1][k].status in {Succeeded, Failed} && states[n][k].high
    ensures
      var step, latest := steps[n], LatestMint(states, steps, staleAfter, n, k);
      && step.Decide? && step.k == k && step.approve
      && states[n + 1][k].decidedBy == Some(step.who.actor) && step.who.actor != states[n][k].requestedBy
      && latest.Some? && step.code == Some(latest.value.code) && step.at <= latest.value.at + CODE_TTL
      && steps[latest.value.index].who.actor == states[n][k].requestedBy
    ensures states[n + 1][k].codeHash == None && states[n + 1][k].codeExpiresAt == None
  {
    assert states[n + 1] == Next(states[n], steps[n], staleAfter).0;
    NextKeepsOthers(states[n], steps[n], staleAfter, k);
    HashIsLatestMint(states, steps, staleAfter, n, k);
    var m := LatestMint(states, steps, staleAfter, n, k).value;
    CodesGoToTheRequester(states[m.index], steps[m.index], staleAfter);
    RequesterStays(states, steps, staleAfter, m.index, n, k);
  }

  /** Whatever is tried later on a settled request is refused and changes nothing: no code serves again. */
  lemma SettledRefusesAll(states: seq<seq<Request>>, steps: seq<Step>, staleAfter: int, n: nat, k: nat, later: nat)
    requires IsRun(states, steps, staleAfter) && n <= later < |steps|
    requires k < |states[n]| && states[n][k].status != Pending
    ensures k < |states[later + 1]| && states[later + 1][k] == states[n][k]
    ensures ((steps[later].Mint? || steps[later].Decide?) && steps[later].k == k
             ==> Next(states[later], steps[later], staleAfter).1.Refused?)
  {
    SettledForever(states, steps, staleAfter, n, later, k);
    SettledForever(states, steps, staleAfter, n, later + 1, k);
  }

  lemma {:induction false} RequesterStays(states: seq<seq<Request>>, steps: seq<Step>, staleAfter: int, m: nat, n: nat,
                                          k: nat)
    requires IsRun(states, steps, staleAfter) && m <= n <= |steps| && k < |states[m]|
    ensures k < |states[n]| && states[n][k].requestedBy == states[m][k].requestedBy
        && states[n][k].high == states[m][k].high
  {
    if m < n {
      RequesterStays(states, steps, staleAfter, m, n - 1, k);
      assert states[n] == Next(states[n - 1], steps[n - 1], staleAfter).0;
      NextKeepsOthers(states[n - 1], steps[n - 1], staleAfter, k);
    }
  }

  /** Nobody decides their own request, at any risk. */
  lemma DeciderIsNotRequester(rows: seq<Request>, step: Step, staleAfter: int, k: nat)
    requires Leaves(rows, Next(rows, step, staleAfter).0, k)
    ensures
      var r := Next(rows, step, staleAfter).0[k];
      if r.status == Expired then
        step.Expire? && rows[k].createdAt < step.at - staleAfter && r.decidedBy == rows[k].decidedBy
      else
        && step.Decide? && r.decidedBy == Some(step.who.actor) && step.who.actor != r.requestedBy
        && (step.approve <==> r.status != Denied)
  {
  }

  // ---- How often the operation is carried out

  /** Whether a step carries the connector's operation out on a request. */
  predicate Performs(rows: seq<Request>, step: Step, staleAfter: int, k: nat) {
    && Passes(rows, step, staleAfter) && step.k == k && step.approve
    && (step.connector.Ran? || (step.connector.Raised? && step.connector.performed))
  }

  predicate Interrupted(rows: seq<Request>, step: Step, staleAfter: int, k: nat) {
    Performs(rows, step, staleAfter, k) && step.connector.Raised?
  }

  function Performed(states: seq<seq<Request>>, steps: seq<Step>, staleAfter: int, n: nat, k: nat): nat
    requires |states| == |steps| + 1 && n <= |steps|
  {
    if n == 0 then 0
    else
      Performed(states, steps, staleAfter, n - 1, k)
      + (if Performs(states[n - 1], steps[n - 1], staleAfter, k) then 1 else 0)
  }

  function Interruptions(states: seq<seq<Request>>, steps: seq<Step>, staleAfter: int, n: nat, k: nat): nat
    requires |states| == |steps| + 1 && n <= |steps|
  {
    if n == 0 then 0
    else
      Interruptions(states, steps, staleAfter, n - 1, k)
      + (if Interrupted(states[n - 1], steps[n - 1], staleAfter, k) then 1 else 0)
  }

  /** The operation is carried out once at most, and once more for each time an exception after it rolled
      the decision back. */
  lemma {:induction false} OperationsBounded(states: seq<seq<Request>>, steps: seq<Step>, staleAfter: int, n: nat,
                                             k: nat)
    requires IsRun(states, steps, staleAfter) && n <= |steps|
    ensures Performed(states, steps, staleAfter, n, k) <= Interruptions(states, steps, staleAfter, n, k) + 1
    ensures (k >= |states[n]| || states[n][k].status == Pending
             ==> Performed(states, steps, staleAfter, n, k) == Interruptions(states, steps, staleAfter, n, k))
  {
    if n > 0 {
      OperationsBounded(states, steps, staleAfter, n - 1, k);
      assert states[n] == Next(states[n - 1], steps[n - 1], staleAfter).0;
      if k < |states[n - 1]| {
        NextKeepsOthers(states[n - 1], steps[n - 1], staleAfter, k);
      }
    }
  }

  /** When a decision that passes every check leaves its request open: exactly when it approves and the
      connector raises, whether or not the operation was carried out by then. Nothing has changed, the code of a
      high-risk request is still the accepted one, and the same decision carries the operation out again
      exactly as long as that code has not expired; after any other passing decision no code is accepted. */
  lemma CodeServesAgainAfterException(
    rows: seq<Request>, step: Step, staleAfter: int, success: bool, verified: bool, later: int)
    requires Passes(rows, step, staleAfter)
    ensures step.k < |rows| && step.k < |Next(rows, step, staleAfter).0|
    ensures
      var r, after := rows[step.k], Next(rows, step, staleAfter).0;
      var again := Decide(step.k, step.who, true, step.reason, step.code, Ran(success, verified), later);
      var raised := step.approve && step.connector.Raised?;
      && (after[step.k].status == Pending <==> raised)
      && (raised ==> after == rows && Next(rows, step, staleAfter).1 == Crashed)
      && (r.high && step.approve ==> (CodeAccepted(after[step.k], step.code, step.at) <==> raised))
      && (Performs(after, again, staleAfter, step.k) <==>
            raised && (r.high ==> r.codeExpiresAt.Some? && later <= r.codeExpiresAt.value))
  {
    assert rows[step.k := rows[step.k]] == rows;
  }

  // ---- The table as the source keeps it

  class ConnectorRequestTable {
    var rows: seq<Request>
    const staleAfter: int

    constructor (staleAfter: int)
      ensures rows == [] && this.staleAfter == staleAfter
    {
      rows, this.staleAfter := [], staleAfter;
    }

    method GenerateStepUpCode(k: nat, who: Principal, random: nat, at: int) returns (response: Response)
      modifies this
      ensures (rows, response) == Next(old(rows), Mint(k, who, random, at), staleAfter)
    {
      if k >= |rows| {
        return Refused(404);
      }
      assert rows[k := rows[k]] == rows;
      if rows[k].tenant != who.tenant {
        return Refused(404);
      }
      if rows[k].requestedBy != who.actor {
        return Refused(403);
      }
      if !rows[k].high {
        return Refused(400);
      }
      if rows[k].status != Pending {
        return Refused(409);
      }
      var code := Decimal(random % 900_000_000 + 100_000_000);
      rows := rows[k := rows[k].(codeHash := Some(Sha256(code)), codeExpiresAt := Some(at + CODE_TTL))];
      return Code(code);
    }

    /** Consumes the code on success. */
    method VerifyStepUpCode(k: nat, supplied: Option<string>, at: int) returns (ok: bool)
      requires k < |rows|
      modifies this
      ensures ok <==> CodeAccepted(old(rows[k]), supplied, at)
      ensures rows == if ok then old(rows)[k := old(rows[k]).(codeHash := None, codeExpiresAt := None)] else old(rows)
    {
      if rows[k].codeHash.None? {
        return false;
      }
      if rows[k].codeExpiresAt.None? || rows[k].codeExpiresAt.value < at {
        return false;
      }
      if supplied.None? || supplied.value == "" || Sha256(supplied.value) != rows[k].codeHash.value {
        return false;
      }
      rows := rows[k := rows[k].(codeHash := None, codeExpiresAt := None)];
      return true;
    }

    /** The transaction commits at each return except after an exception, which restores the row. */
    method DecideConnectorRequest(
      k: nat, who: Principal, approve: bool, reason: string, code: Option<string>, connector: Connector, at: int)
      returns (response: Response)
      modifies this
      ensures (rows, response) == Next(old(rows), Decide(k, who, approve, reason, code, connector, at), staleAfter)
    {
      if k >= |rows| {
        return Refused(404);
      }
      assert rows[k := rows[k]] == rows;
      if rows[k].tenant != who.tenant {
        return Refused(404);
      }
      if rows[k].status != Pending {
        return Refused(409);
      }
      if rows[k].requestedBy == who.actor {
        return Refused(403);
      }
      var committed := rows;
      if approve && rows[k].high {
        var ok := VerifyStepUpCode(k, code, at);
        if !ok {
          return Refused(403);
        }
      }
      rows := rows[k := rows[k].(decidedBy := Some(who.actor), reason := reason, decidedAt := Some(at))];
      if !approve {
        rows := rows[k := rows[k].(status := Denied)];
        assert rows == committed[k := rows[k]];
        return Decision(Denied);
      }
      match connector
      case Raised(_) =>
        rows := committed;
        return Crashed;
      case Unresolved =>
        rows := rows[k := rows[k].(status := Failed)];
        assert rows == committed[k := rows[k]];
        return Decision(Failed);
      case Ran(success, verified) =>
        rows := rows[k := rows[k].(status := if success then Succeeded else Failed, verified := verified)];
        assert rows == committed[k := rows[k]];
        return Decision(rows[k].status);
    }

    /** The oldest stale requests, up to the limit, each expired; every other row stays. */
    method ReapBatch(limit: int, at: int) returns (reaped: seq<nat>)
      modifies this
      ensures |reaped| <= (if limit < 1 then 1 else if limit > 100 then 100 else limit)
      ensures forall k :: 0 <= k < |reaped| ==> reaped[k] < |old(rows)| && Stale(old(rows)[reaped[k]], staleAfter, at)
      ensures |rows| == |old(rows)|
      ensures forall k :: 0 <= k < |rows| ==> rows[k] == if k in reaped then Expiry(old(rows)[k], at) else old(rows)[k]
      ensures forall k :: (0 <= k < |rows| && Stale(rows[k], staleAfter, at) ==>
        && |reaped| == (if limit < 1 then 1 else if limit > 100 then 100 else limit)
        && forall i :: 0 <= i < |reaped| ==> rows[reaped[i]].createdAt <= rows[k].createdAt)
    {
      var bound := if limit < 1 then 1 else if limit > 100 then 100 else limit;
      reaped := [];
      while |reaped| < bound
        invariant |reaped| <= bound && |rows| == |old(rows)|
        invariant forall k :: 0 <= k < |reaped| ==>
            reaped[k] < |old(rows)| && Stale(old(rows)[reaped[k]], staleAfter, at)
        invariant forall k :: 0 <= k < |rows| ==>
            rows[k] == if k in reaped then Expiry(old(rows)[k], at) else old(rows)[k]
        invariant forall k :: (0 <= k < |rows| && Stale(rows[k], staleAfter, at) ==>
          forall i :: 0 <= i < |reaped| ==> rows[reaped[i]].createdAt <= rows[k].createdAt)
        decreases bound - |reaped|
      {
        var oldest := OldestStale(at);
        if oldest.None? {
          return;
        }
        rows := rows[oldest.value := Expiry(rows[oldest.value], at)];
        reaped := reaped + [oldest.value];
      }
    }

    method OldestStale(at: int) returns (oldest: Option<nat>)
      ensures oldest.None? ==> forall k :: 0 <= k < |rows| ==> !Stale(rows[k], staleAfter, at)
      ensures oldest.Some? ==>
        && oldest.value < |rows| && Stale(rows[oldest.value], staleAfter, at)
        && forall k :: 0 <= k < |rows| && Stale(rows[k], staleAfter, at) ==>
            rows[oldest.value].createdAt <= rows[k].createdAt
    {
      oldest := None;
      for i := 0 to |rows|
        invariant oldest.None? ==> forall k :: 0 <= k < i ==> !Stale(rows[k], staleAfter, at)
        invariant oldest.Some? ==>
          && oldest.value < i && Stale(rows[oldest.value], staleAfter, at)
          && forall k :: 0 <= k < i && Stale(rows[k], staleAfter, at) ==>
              rows[oldest.value].createdAt <= rows[k].createdAt
      {
        if Stale(rows[i], staleAfter, at) && (oldest.None? || rows[i].createdAt < rows[oldest.value].createdAt) {
          oldest := Some(i);
        }
      }
    }
  }
}
