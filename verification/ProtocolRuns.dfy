/** Safety of the job-lease protocol over all its runs. Invariants are stated for one action `a` and one of
    its attempts `n`, both arbitrary. */
module ProtocolRuns {
  import opened Text
  import opened Signing
  import opened Lifecycle
  import opened Server
  import opened ServerRuns
  import opened Journal
  import opened Protocol

  // ---- The control plane's side

  /** The record that answers the agent's next claim of the action, if there is one. */
  function ClaimRecord(u: Setup, s: State, a: string): Option<Record> {
    if ClaimRk(u, a) in s.records && s.records[ClaimRk(u, a)].payload == ClaimPayload(a, u.device)
    then Some(s.records[ClaimRk(u, a)]) else None
  }

  /** A remembered claim is the action's latest one, and once the action is queued again its envelope has
      expired. */
  predicate ClaimInStep(u: Setup, s: State, a: string, now: int) {
    var record := ClaimRecord(u, s, a);
    record.Some? ==>
      && a in s.actions && s.actions[a].tenant == u.tenant && s.actions[a].device == u.device
      && record.value.response.StoredClaim?
      && record.value.response.fields.actionId == a
      && 1 <= record.value.response.attempt == s.actions[a].attempt
      && (s.actions[a].status == Queued ==> record.value.response.fields.expiresAt < now)
      && (s.actions[a].status == Claimed ==>
          s.actions[a].leaseExpiresAt == Some(record.value.response.fields.expiresAt))
  }

  predicate Settled(s: State, a: string) {
    a in s.actions && Terminal(s.actions[a].status)
  }

  /** A remembered report of the action means the action has settled. */
  ghost predicate ReportsSettle(s: State, a: string) {
    forall rk <- s.records :: s.records[rk].payload.ResultPayload? && s.records[rk].payload.action == a ==>
        Settled(s, a)
  }

  /** Every remembered claim is the claim of the action it was asked for. */
  ghost predicate ClaimsNamed(s: State) {
    forall rk <- s.records :: s.records[rk].payload.ClaimPayload? ==>
      s.records[rk].response.StoredClaim? && s.records[rk].response.fields.actionId == s.records[rk].payload.action
  }

  ghost predicate ServerOk(u: Setup, s: State, a: string, now: int) {
    Bounded(u.config, s, a) && ClaimInStep(u, s, a, now) && ReportsSettle(s, a) && ClaimsNamed(s)
  }

  // What each handler may put on record

  lemma CreateRecords(c: Config, s: State, tenant: string, actor: string, key: string, body: ActionBody, newId: string,
                      now: int,
                      rk: RecordKey)
    requires rk in Create(c, s, tenant, actor, key, body, newId, now).0.records
    ensures
      var t := Create(c, s, tenant, actor, key, body, newId, now).0;
      (rk in s.records && t.records[rk] == s.records[rk]) || t.records[rk].payload.ActionPayload?
  {
  }

  lemma DecideRecords(s: State, tenant: string, actor: string, id: string, approve: bool, reason: string)
    ensures Decide(s, tenant, actor, id, approve, reason).0.records == s.records
  {
  }

  /** The record of a granted claim: a stored claim of that action, by that device, under that key. */
  predicate ClaimRecorded(r: Record, rk: RecordKey, tenant: string, device: string, id: string, key: string) {
    && rk == RecordKey(tenant, ClaimScope, key) && r.payload == ClaimPayload(id, device)
    && r.response.StoredClaim? && r.response.fields.actionId == id
  }

  lemma ClaimRecords(c: Config, s: State, tenant: string, device: string, id: string, key: string, nonce: string,
                     now: int,
                     rk: RecordKey)
    requires rk in Claim(c, s, tenant, device, id, key, nonce, now).0.records
    ensures
      var t := Claim(c, s, tenant, device, id, key, nonce, now).0;
      (rk in s.records && t.records[rk] == s.records[rk]) || ClaimRecorded(t.records[rk], rk, tenant, device, id, key)
  {
  }

  /** The record of an accepted report. */
  lemma ReportRecords(s: State, tenant: string, device: string, id: string, key: string, token: Token, r: JobResult,
                      now: int,
                      rk: RecordKey)
    requires rk in Report(s, tenant, device, id, key, token, r, now).0.records
    ensures
      var t := Report(s, tenant, device, id, key, token, r, now).0;
      || (rk in s.records && t.records[rk] == s.records[rk])
      || (rk == RecordKey(tenant, ResultScope, key) && t.records[rk].payload == ResultPayload(id, device, r)
          && ReportRefusal(s, tenant, device, id, token, now).None? && Settled(t, id))
  {
  }

  ghost predicate FromOp(op: Op, r: Record, rk: RecordKey) {
    match op
    case OpCreate(_, _, _, _, _) => r.payload.ActionPayload?
    case OpClaim(tenant, device, id, key, _) => ClaimRecorded(r, rk, tenant, device, id, key)
    case OpReport(tenant, device, id, key, _, result) =>
      rk == RecordKey(tenant, ResultScope, key) && r.payload == ResultPayload(id, device, result)
    case _ => false
  }

  /** A record after a step was there before, or is the record of that very request. */
  lemma NewRecord(c: Config, s: State, op: Op, now: int, rk: RecordKey)
    requires rk in Next(c, s, op, now).records
    ensures (rk in s.records && Next(c, s, op, now).records[rk] == s.records[rk])
        || FromOp(op, Next(c, s, op, now).records[rk], rk)
  {
    match op
    case OpCreate(tenant, actor, key, body, newId) => CreateRecords(c, s, tenant, actor, key, body, newId, now, rk);
    case OpDecide(tenant, actor, id, approve, reason) => DecideRecords(s, tenant, actor, id, approve, reason);
    case OpClaim(tenant, device, id, key, nonce) => ClaimRecords(c, s, tenant, device, id, key, nonce, now, rk);
    case OpReport(tenant, device, id, key, token, r) => ReportRecords(s, tenant, device, id, key, token, r, now, rk);
    case _ => QuietRecords(c, s, op, now, rk);
  }

  lemma QuietRecords(c: Config, s: State, op: Op, now: int, rk: RecordKey)
    requires op.OpRegister? || op.OpReap? || op.OpPurge?
    requires rk in Next(c, s, op, now).records
    ensures rk in s.records && Next(c, s, op, now).records[rk] == s.records[rk]
  {
  }

  lemma ClaimsStayNamed(c: Config, s: State, op: Op, now: int)
    requires ClaimsNamed(s)
    ensures ClaimsNamed(Next(c, s, op, now))
  {
    var t := Next(c, s, op, now);
    forall rk | rk in t.records && t.records[rk].payload.ClaimPayload?
      ensures t.records[rk].response.StoredClaim?
          && t.records[rk].response.fields.actionId == t.records[rk].payload.action
    {
      NewRecord(c, s, op, now, rk);
    }
  }

  predicate OurAction(u: Setup, s: State, a: string) {
    a in s.actions && s.actions[a].tenant == u.tenant && s.actions[a].device == u.device
  }

  lemma LaterOk(u: Setup, s: State, a: string, now: int, later: int)
    requires ServerOk(u, s, a, now) && now <= later
    ensures ServerOk(u, s, a, later)
  {
  }

  ghost predicate Foreign(u: Setup, op: Op) {
    (op.OpClaim? ==> op.device != u.device) && (op.OpReport? ==> op.device != u.device)
  }

  /** What one move of a row that is not the agent's own claim or report leaves alone. */
  lemma ForeignMove(u: Setup, s: State, t: State, op: Op, now: int, a: string)
    requires Foreign(u, op) && RowMoves(u.config, Row(s, a), Row(t, a), a, now)
    requires Row(s, a) != Row(t, a) && Row(s, a).Some? && Row(s, a).value.status == Queued ==>
        op.OpClaim? && op.device == Row(s, a).value.device
    ensures Pollable(s, u.tenant, u.device, a) ==> Row(t, a) == Row(s, a)
    ensures OurAction(u, s, a) ==> OurAction(u, t, a) && t.actions[a].attempt == s.actions[a].attempt
    ensures Settled(s, a) ==> Settled(t, a)
  {
  }

  /** A queued row is changed by its device's claim only. */
  lemma QueuedMoves(c: Config, s: State, op: Op, now: int, a: string)
    requires a in s.actions && s.actions[a].status == Queued && Row(Next(c, s, op, now), a) != Row(s, a)
    ensures op.OpClaim? && op.device == s.actions[a].device
  {
    if Subject(op) != Some(a) {
      OthersUntouched(c, s, op, now, a);
    }
  }

  lemma ForeignRow(u: Setup, s: State, op: Op, now: int, a: string)
    requires Foreign(u, op)
    ensures
      var t := Next(u.config, s, op, now);
      && (Pollable(s, u.tenant, u.device, a) ==> Row(t, a) == Row(s, a))
      && (OurAction(u, s, a) ==> OurAction(u, t, a) && t.actions[a].attempt == s.actions[a].attempt)
      && (Settled(s, a) ==> Settled(t, a))
  {
    var t := Next(u.config, s, op, now);
    StepTouches(u.config, s, op, now, a);
    if Row(s, a) != Row(t, a) && a in s.actions && s.actions[a].status == Queued {
      QueuedMoves(u.config, s, op, now, a);
    }
    ForeignMove(u, s, t, op, now, a);
  }

  lemma ForeignRecord(u: Setup, s: State, op: Op, now: int, a: string)
    requires Foreign(u, op)
    ensures
      var t := Next(u.config, s, op, now);
      ClaimRecord(u, t, a) == ClaimRecord(u, s, a) || ClaimRecord(u, t, a).None?
  {
    if ClaimRk(u, a) in Next(u.config, s, op, now).records {
      NewRecord(u.config, s, op, now, ClaimRk(u, a));
    }
  }

  lemma ForeignKeepsReports(u: Setup, s: State, op: Op, now: int, a: string)
    requires ReportsSettle(s, a)
    ensures ReportsSettle(Next(u.config, s, op, now), a)
  {
    var t := Next(u.config, s, op, now);
    if Settled(s, a) {
      TerminalStep(u.config, s, op, now, a);
    }
    forall rk | rk in t.records && t.records[rk].payload.ResultPayload? && t.records[rk].payload.action == a
      ensures Settled(t, a)
    {
      if op.OpReport? {
        ReportRecords(s, op.tenant, op.device, op.id, op.key, op.token, op.result, now, rk);
      } else {
        NewRecord(u.config, s, op, now, rk);
      }
    }
  }

  lemma ForeignOk(u: Setup, s: State, op: Op, now: int, a: string)
    requires Foreign(u, op) && ServerOk(u, s, a, now)
    ensures ServerOk(u, Next(u.config, s, op, now), a, now)
  {
    StepBounded(u.config, s, op, now, a);
    StepTouches(u.config, s, op, now, a);
    ForeignRow(u, s, op, now, a);
    ForeignRecord(u, s, op, now, a);
    ForeignKeepsReports(u, s, op, now, a);
    ClaimsStayNamed(u.config, s, op, now);
  }

  /** The agent's own claim: it is granted only without a record on file, and then leaves one in step. */
  lemma ClaimOk(u: Setup, s: State, b: string, nonce: string, now: int, a: string)
    requires ServerOk(u, s, a, now)
    ensures ServerOk(u, Next(u.config, s, ClaimOp(u, b, nonce), now), a, now)
    ensures a != b ==> Row(Next(u.config, s, ClaimOp(u, b, nonce), now), a) == Row(s, a)
  {
    var op := ClaimOp(u, b, nonce);
    StepBounded(u.config, s, op, now, a);
    StepTouches(u.config, s, op, now, a);
    ForeignKeepsReports(u, s, op, now, a);
    ClaimLeavesRecord(u, s, b, nonce, now, a);
    ClaimsStayNamed(u.config, s, op, now);
  }

  lemma ClaimLeavesRecord(u: Setup, s: State, b: string, nonce: string, now: int, a: string)
    requires ClaimInStep(u, s, a, now)
    ensures ClaimInStep(u, Next(u.config, s, ClaimOp(u, b, nonce), now), a, now)
  {
    StepTouches(u.config, s, ClaimOp(u, b, nonce), now, a);
  }

  lemma ReportRow(u: Setup, s: State, e: Entry, r: JobResult, now: int, a: string)
    requires Bounded(u.config, s, a)
    ensures
      var t := Next(u.config, s, ReportOp(u, e, r), now);
      && (Pollable(s, u.tenant, u.device, a) ==> Row(t, a) == Row(s, a))
      && (OurAction(u, s, a) ==> OurAction(u, t, a) && t.actions[a].attempt == s.actions[a].attempt)
  {
    var op := ReportOp(u, e, r);
    StepTouches(u.config, s, op, now, a);
    if a in s.actions && s.actions[a].status == Queued && Row(Next(u.config, s, op, now), a) != Row(s, a) {
      QueuedMoves(u.config, s, op, now, a);
    }
  }

  lemma ReportServerOk(u: Setup, s: State, e: Entry, r: JobResult, now: int, a: string)
    requires ServerOk(u, s, a, now)
    ensures ServerOk(u, Next(u.config, s, ReportOp(u, e, r), now), a, now)
  {
    var op := ReportOp(u, e, r);
    StepBounded(u.config, s, op, now, a);
    ReportRow(u, s, e, r, now, a);
    StepTouches(u.config, s, op, now, a);
    ReportKeepsReports(u, s, e, r, now, a);
    ClaimsStayNamed(u.config, s, op, now);
    if ClaimRk(u, a) in Next(u.config, s, op, now).records {
      NewRecord(u.config, s, op, now, ClaimRk(u, a));
    }
  }

  lemma ReportOk(u: Setup, s: State, e: Entry, r: JobResult, now: int, a: string)
    requires ServerOk(u, s, a, now)
    ensures
      var t := Next(u.config, s, ReportOp(u, e, r), now);
      && ServerOk(u, t, a, now)
      && (Pollable(s, u.tenant, u.device, a) ==> Row(t, a) == Row(s, a))
      && (OurAction(u, s, a) ==> OurAction(u, t, a) && t.actions[a].attempt == s.actions[a].attempt)
      && (e.job.action == a && ReplyTo(u.config, s, ReportOp(u, e, r), now).Ok? ==> Settled(t, a))
  {
    ReportServerOk(u, s, e, r, now, a);
    ReportRow(u, s, e, r, now, a);
    ReportKeepsReports(u, s, e, r, now, a);
  }

  lemma ReportKeepsReports(u: Setup, s: State, e: Entry, r: JobResult, now: int, a: string)
    requires ReportsSettle(s, a)
    ensures ReportsSettle(Next(u.config, s, ReportOp(u, e, r), now), a)
    ensures e.job.action == a && ReplyTo(u.config, s, ReportOp(u, e, r), now).Ok? ==>
            Settled(Next(u.config, s, ReportOp(u, e, r), now), a)
  {
    ForeignKeepsReports(u, s, ReportOp(u, e, r), now, a);
  }

  // ---- The agent's side

  function TodoOf(pc: Pc): seq<string> {
    match pc
    case Polled(todo) => todo
    case Claiming(_, todo) => todo
    case Journaled(_, todo) => todo
    case Launching(_, todo) => todo
    case Finished(_, _, todo) => todo
    case Reporting(_, _, todo) => todo
    case Acknowledged(_, todo) => todo
    case _ => []
  }

  function TicketOf(pc: Pc): Option<Ticket> {
    match pc
    case Claiming(g, _) => Some(g)
    case Journaled(g, _) => Some(g)
    case Launching(g, _) => Some(g)
    case Finished(g, _, _) => Some(g)
    case Reporting(g, _, _) => Some(g)
    case Acknowledged(g, _) => Some(g)
    case _ => None
  }

  predicate Handles(pc: Pc, job: JobRef) {
    TicketOf(pc).Some? && JobOf(TicketOf(pc).value) == job
  }

  /** A polled action stays queued until the agent itself claims it. */
  ghost predicate CycleOk(u: Setup, w: World, a: string) {
    && Distinct(TodoOf(w.pc))
    && (a in TodoOf(w.pc) ==> Pollable(w.server, u.tenant, u.device, a))
    && (TicketOf(w.pc).Some? && TicketOf(w.pc).value.fields.actionId == a ==>
          && a !in TodoOf(w.pc)
          && OurAction(u, w.server, a)
          && 1 <= TicketOf(w.pc).value.attempt <= w.server.actions[a].attempt
          && (w.pc.Acknowledged? ==> Settled(w.server, a)))
  }

  /** The job ran at most once, and what is about to run has not run. */
  ghost predicate RunsOnce(u: Setup, w: World, a: string, n: nat) {
    var job := JobRef(a, n);
    && multiset(w.executed)[job] <= 1
    && (job in w.executed ==> OurAction(u, w.server, a) && 1 <= n <= w.server.actions[a].attempt)
    && (Preparing(w.pc, job) ==> job !in w.executed)
  }

  /** The job has been claimed, and the executor is still to come. */
  predicate Preparing(pc: Pc, job: JobRef) {
    (pc.Claiming? || pc.Journaled? || pc.Launching?) && Handles(pc, job)
  }

  /** An entry describes its own job, and is reported only once the control plane settled the action. */
  predicate EntryOk(s: State, m: Entries, a: string, n: nat) {
    var job := JobRef(a, n);
    job in m ==>
      && m[job].job == job && m[job].key == ResultKey(a, n)
      && m[job].claimToken == ClaimToken(a, n, ClaimKey(a))
      && (m[job].progress == Executed ==> m[job].result.Some?)
      && (m[job].progress == Reported ==> Settled(s, a))
  }

  predicate Begun(m: Entries, job: JobRef) {
    job in m && Rank(m[job].progress) >= Rank(Executing)
  }

  /** The file is a lower bound of the memory, and an execution that has begun shows in both until the action
      has settled. */
  predicate DiskBehind(s: State, mem: Entries, disk: Entries, a: string, n: nat, executed: bool) {
    var job := JobRef(a, n);
    && (job in disk && job in mem ==> NotAhead(disk[job], mem[job]))
    && (job in disk && job !in mem ==> Settled(s, a))
    && (executed ==> Settled(s, a) || (Begun(mem, job) && Begun(disk, job)))
  }

  predicate FlightOk(w: World, job: JobRef) {
    match w.pc
    case Claiming(g, _) => JobOf(g) == job ==>
      job !in w.mem && job !in w.disk && g.token == ClaimToken(job.action, job.attempt, ClaimKey(job.action))
    case Journaled(g, _) => JobOf(g) == job ==>
      w.mem == w.disk && job in w.mem && w.mem[job].progress == Recorded && w.mem[job].result.None?
    case Launching(g, _) => JobOf(g) == job ==>
      w.mem == w.disk && job in w.mem && w.mem[job].progress == Executing && w.mem[job].result.None?
    case Finished(g, _, _) => JobOf(g) == job ==>
      w.mem == w.disk && job in w.mem && w.mem[job].progress == Executing && w.mem[job].result.None?
    case Reporting(g, _, _) => JobOf(g) == job ==> job in w.mem
    case Acknowledged(g, _) => JobOf(g) == job ==> job in w.mem
    case _ => true
  }

  ghost predicate JournalOk(u: Setup, w: World, a: string, n: nat) {
    && EntryOk(w.server, w.mem, a, n) && EntryOk(w.server, w.disk, a, n)
    && DiskBehind(w.server, w.mem, w.disk, a, n, JobRef(a, n) in w.executed)
    && FlightOk(w, JobRef(a, n))
  }

  ghost predicate Inv(u: Setup, w: World, a: string, n: nat) {
    ServerOk(u, w.server, a, w.now) && CycleOk(u, w, a) && RunsOnce(u, w, a, n) && JournalOk(u, w, a, n)
  }

  lemma ElsewhereKeeps(u: Setup, w: World, op: Op, a: string, n: nat)
    requires Foreign(u, op) && Inv(u, w, a, n)
    ensures Inv(u, DoElsewhere(u, w, op), a, n)
  {
    ForeignOk(u, w.server, op, w.now, a);
    ForeignRow(u, w.server, op, w.now, a);
  }

  /** The agent's state keeps its invariant across any change of the tables that leaves polled actions
      alone and never unsettles or renumbers one. */
  lemma TablesMove(u: Setup, w: World, t: State, a: string, n: nat)
    requires Inv(u, w, a, n) && ServerOk(u, t, a, w.now)
    requires Pollable(w.server, u.tenant, u.device, a) ==> Row(t, a) == Row(w.server, a)
    requires OurAction(u, w.server, a) ==> OurAction(u, t, a) && t.actions[a].attempt == w.server.actions[a].attempt
    requires Settled(w.server, a) ==> Settled(t, a)
    ensures Inv(u, w.(server := t), a, n)
  {
  }

  lemma SettledStays(c: Config, s: State, op: Op, now: int, a: string)
    requires Settled(s, a)
    ensures Settled(Next(c, s, op, now), a)
  {
    TerminalStep(c, s, op, now, a);
  }

  lemma SentReportKeeps(u: Setup, w: World, e: Entry, r: JobResult, net: Delivery, a: string, n: nat)
    requires Inv(u, w, a, n)
    ensures
      var op := ReportOp(u, e, r);
      && Inv(u, w.(server := After(u, w, op, net)), a, n)
      && (e.job.action == a && Answer(u, w, op, net).Some? && Answer(u, w, op, net).value.Ok? ==>
            Settled(After(u, w, op, net), a))
  {
    var op := ReportOp(u, e, r);
    ReportOk(u, w.server, e, r, w.now, a);
    if Settled(w.server, a) {
      SettledStays(u.config, w.server, op, w.now, a);
    }
    if net != RequestLost {
      TablesMove(u, w, Next(u.config, w.server, op, w.now), a, n);
    }
  }

  lemma MarkReportedKeeps(u: Setup, w: World, job: JobRef, saved: bool, pc: Pc, a: string, n: nat)
    requires Inv(u, w, a, n) && w.pc.Recovering? && (pc.Idle? || pc.Recovering?)
    requires job.action == a ==> Settled(w.server, a)
    ensures
      var mem := Marked(w.mem, job, Reported, None, w.now);
      Inv(u, w.(mem := mem, disk := Written(saved, mem, w.disk), pc := pc), a, n)
  {
  }

  lemma QuietPcKeeps(u: Setup, w: World, pc: Pc, a: string, n: nat)
    requires Inv(u, w, a, n) && (pc.Idle? || pc.Recovering?)
    ensures Inv(u, w.(pc := pc), a, n)
  {
  }

  lemma RecoverOneKeeps(u: Setup, w: World, observed: JobResult, net: Delivery, saved: bool, a: string, n: nat)
    requires w.pc.Recovering? && w.pc.pending != [] && Inv(u, w, a, n)
    ensures Inv(u, DoRecoverOne(u, w, observed, net, saved), a, n)
  {
    var job := w.pc.pending[0];
    var rest := Recovering(w.pc.pending[1..]);
    if job !in w.mem {
      QuietPcKeeps(u, w, rest, a, n);
    } else {
      var result := RecoveryResult(w.mem[job], observed);
      var op := ReportOp(u, w.mem[job], result);
      SentReportKeeps(u, w, w.mem[job], result, net, a, n);
      var sent := w.(server := After(u, w, op, net));
      match Answer(u, w, op, net)
      case None => QuietPcKeeps(u, sent, Idle, a, n);
      case Some(Refused(_)) => QuietPcKeeps(u, sent, rest, a, n);
      case Some(Ok(_)) =>
        if job == JobRef(a, n) {
          MarkReportedKeeps(u, sent, job, saved, if saved then rest else Idle, a, n);
        } else {
          OtherMarkKeeps(u, sent, job, saved, if saved then rest else Idle, a, n);
        }
    }
  }

  lemma OtherMarkKeeps(u: Setup, w: World, job: JobRef, saved: bool, pc: Pc, a: string, n: nat)
    requires Inv(u, w, a, n) && w.pc.Recovering? && (pc.Idle? || pc.Recovering?) && job != JobRef(a, n)
    ensures
      var mem := Marked(w.mem, job, Reported, None, w.now);
      Inv(u, w.(mem := mem, disk := Written(saved, mem, w.disk), pc := pc), a, n)
  {
  }

  /** Any successful claim reply is about the action asked for. */
  lemma ReplyNamesAction(u: Setup, s: State, b: string, nonce: string, now: int)
    requires ClaimsNamed(s) && ReplyTo(u.config, s, ClaimOp(u, b, nonce), now).Ok?
    ensures
      var reply := ReplyTo(u.config, s, ClaimOp(u, b, nonce), now);
      reply.response.GrantedClaim? && reply.response.fields.actionId == b
  {
  }

  /** A queued action's claim reply is either a new attempt, or an old one whose envelope has expired. */
  lemma ReplyIsFreshOrExpired(u: Setup, s: State, a: string, nonce: string, now: int)
    requires ServerOk(u, s, a, now) && Pollable(s, u.tenant, u.device, a)
    requires ReplyTo(u.config, s, ClaimOp(u, a, nonce), now).Ok?
    ensures
      var t := Next(u.config, s, ClaimOp(u, a, nonce), now);
      var g := ReplyTo(u.config, s, ClaimOp(u, a, nonce), now).response;
      && g.GrantedClaim? && OurAction(u, t, a) && g.attempt == t.actions[a].attempt
      && 1 <= g.attempt && g.token == ClaimToken(a, g.attempt, ClaimKey(a))
      && (g.attempt == s.actions[a].attempt + 1 || (g.attempt == s.actions[a].attempt && g.fields.expiresAt < now))
  {
  }

  /** The tables after a claim, whatever became of its reply, with the agent back at rest. */
  lemma ClaimSentKeeps(u: Setup, w: World, nonce: string, net: Delivery, a: string, n: nat)
    requires w.pc.Polled? && w.pc.todo != [] && Inv(u, w, a, n)
    ensures
      var t := After(u, w, ClaimOp(u, w.pc.todo[0], nonce), net);
      && Inv(u, w.(server := t, pc := Idle), a, n)
      && (a != w.pc.todo[0] ==> Row(t, a) == Row(w.server, a))
  {
    var b := w.pc.todo[0];
    ClaimOk(u, w.server, b, nonce, w.now, a);
    QuietPcKeeps(u, w, Idle, a, n);
    if net != RequestLost {
      var t := Next(u.config, w.server, ClaimOp(u, b, nonce), w.now);
      if a == b {
        ClaimedTablesMove(u, w, t, nonce, a, n);
      } else {
        TablesMove(u, w.(pc := Idle), t, a, n);
      }
    }
  }

  lemma ClaimedTablesMove(u: Setup, w: World, t: State, nonce: string, a: string, n: nat)
    requires Inv(u, w, a, n) && Pollable(w.server, u.tenant, u.device, a)
    requires t == Next(u.config, w.server, ClaimOp(u, a, nonce), w.now) && ServerOk(u, t, a, w.now)
    ensures Inv(u, w.(server := t, pc := Idle), a, n)
  {
    StepTouches(u.config, w.server, ClaimOp(u, a, nonce), w.now, a);
  }

  lemma ClaimNextKeeps(u: Setup, w: World, nonce: string, net: Delivery, a: string, n: nat)
    requires w.pc.Polled? && w.pc.todo != [] && Inv(u, w, a, n)
    ensures Inv(u, DoClaimNext(u, w, nonce, net), a, n)
  {
    var b, rest := w.pc.todo[0], w.pc.todo[1..];
    var op := ClaimOp(u, b, nonce);
    ClaimSentKeeps(u, w, nonce, net, a, n);
    var sent := w.(server := After(u, w, op, net), pc := Idle);
    if Answer(u, w, op, net).Some? && Answer(u, w, op, net).value.Ok? {
      ReplyNamesAction(u, w.server, b, nonce, w.now);
      var response := Answer(u, w, op, net).value.response;
      var g := Ticket(response.fields, response.attempt, response.token);
      if a == b {
        ReplyIsFreshOrExpired(u, w.server, a, nonce, w.now);
      }
      if JobOf(g) in w.mem {
        RestPolled(u, w, sent, rest, a, n);
      } else {
        ClaimArrives(u, w, sent, g, rest, a, n);
      }
    }
  }

  lemma RestPolled(u: Setup, w: World, sent: World, rest: seq<string>, a: string, n: nat)
    requires Inv(u, w, a, n) && Inv(u, sent, a, n) && sent.pc.Idle?
    requires w.pc.Polled? && w.pc.todo != [] && rest == w.pc.todo[1..]
    requires a != w.pc.todo[0] ==> Row(sent.server, a) == Row(w.server, a)
    ensures Inv(u, sent.(pc := Polled(rest)), a, n)
  {
  }

  lemma ClaimArrives(u: Setup, w: World, sent: World, g: Ticket, rest: seq<string>, a: string, n: nat)
    requires Inv(u, w, a, n) && Inv(u, sent, a, n) && sent.pc.Idle? && sent.mem == w.mem && sent.disk == w.disk
    requires sent.executed == w.executed && sent.now == w.now
    requires w.pc.Polled? && w.pc.todo != [] && rest == w.pc.todo[1..]
    requires a != w.pc.todo[0] ==> Row(sent.server, a) == Row(w.server, a)
    requires g.fields.actionId == w.pc.todo[0] && JobOf(g) !in w.mem
    requires a == w.pc.todo[0] ==>
      && OurAction(u, sent.server, a) && 1 <= g.attempt == sent.server.actions[a].attempt
      && g.token == ClaimToken(a, g.attempt, ClaimKey(a))
    ensures Inv(u, sent.(pc := Claiming(g, rest)), a, n)
  {
  }

  lemma JournalKeeps(u: Setup, w: World, saved: bool, a: string, n: nat)
    requires w.pc.Claiming? && Inv(u, w, a, n)
    ensures Inv(u, DoJournal(w, saved), a, n)
  {
  }

  lemma VerifyKeeps(u: Setup, w: World, otherwiseValid: bool, error: string, saved: bool, a: string, n: nat)
    requires w.pc.Journaled? && Inv(u, w, a, n)
    ensures Inv(u, DoVerify(w, otherwiseValid, error, saved), a, n)
  {
  }

  lemma LaunchKeeps(u: Setup, w: World, outcome: Option<JobResult>, a: string, n: nat)
    requires w.pc.Launching? && Inv(u, w, a, n)
    ensures Inv(u, DoLaunch(w, outcome), a, n)
  {
    assert multiset(w.executed + [JobOf(w.pc.g)]) == multiset(w.executed) + multiset{JobOf(w.pc.g)};
  }

  lemma FinishKeeps(u: Setup, w: World, saved: bool, a: string, n: nat)
    requires w.pc.Finished? && Inv(u, w, a, n)
    ensures Inv(u, DoFinish(w, saved), a, n)
  {
  }

  lemma SendReportKeeps(u: Setup, w: World, net: Delivery, a: string, n: nat)
    requires w.pc.Reporting? && Inv(u, w, a, n)
    ensures Inv(u, DoSendReport(u, w, net), a, n)
  {
    var e := NewEntry(w.pc.g, w.now);
    SentReportKeeps(u, w, e, w.pc.result, net, a, n);
    var answer := Answer(u, w, ReportOp(u, e, w.pc.result), net);
    SentKeeps(u, w.(server := After(u, w, ReportOp(u, e, w.pc.result), net)), answer.Some? && answer.value.Ok?, a, n);
  }

  lemma SentKeeps(u: Setup, w: World, acknowledged: bool, a: string, n: nat)
    requires w.pc.Reporting? && Inv(u, w, a, n) && (acknowledged && JobOf(w.pc.g).action == a ==> Settled(w.server, a))
    ensures Inv(u, w.(pc := if acknowledged then Acknowledged(w.pc.g, w.pc.todo) else Idle), a, n)
  {
  }

  /** The agent's side after the job was marked reported, some of it possibly pruned. */
  lemma AcknowledgedJournal(u: Setup, w: World, marked: bool, drop: set<JobRef>, saved: bool, a: string, n: nat)
    requires w.pc.Acknowledged? && Inv(u, w, a, n)
        && drop <= ReportedJobs(Marked(w.mem, JobOf(w.pc.g), Reported, None, w.now))
    ensures JournalOk(u, DoAcknowledge(w, marked, drop, saved), a, n)
  {
  }

  lemma AcknowledgeKeeps(u: Setup, w: World, marked: bool, drop: set<JobRef>, saved: bool, a: string, n: nat)
    requires w.pc.Acknowledged? && Inv(u, w, a, n)
        && drop <= ReportedJobs(Marked(w.mem, JobOf(w.pc.g), Reported, None, w.now))
    ensures Inv(u, DoAcknowledge(w, marked, drop, saved), a, n)
  {
    AcknowledgedJournal(u, w, marked, drop, saved, a, n);
  }

  lemma CrashKeeps(u: Setup, w: World, a: string, n: nat)
    requires Inv(u, w, a, n)
    ensures Inv(u, w.(pc := Idle, mem := w.disk), a, n)
  {
  }

  lemma EndRecoveryKeeps(u: Setup, w: World, drop: set<JobRef>, saved: bool, a: string, n: nat)
    requires w.pc.Recovering? && w.pc.pending == [] && drop <= ReportedJobs(w.mem) && Inv(u, w, a, n)
    ensures Inv(u, w.(mem := w.mem - drop, disk := Pruned(w.mem, w.disk, drop, saved),
                      pc := if drop == {} || saved then Ready else Idle), a, n)
  {
  }

  lemma PollKeeps(u: Setup, w: World, ids: seq<string>, net: Delivery, a: string, n: nat)
    requires w.pc.Ready? && Inv(u, w, a, n)
    requires Distinct(ids) && forall b <- ids :: Pollable(w.server, u.tenant, u.device, b)
    ensures Inv(u, w.(pc := if net == Delivered then Polled(ids) else Idle), a, n)
  {
  }

  lemma StepKeeps(u: Setup, w: World, step: Step, a: string, n: nat)
    requires Enabled(u, w, step) && Inv(u, w, a, n)
    ensures Inv(u, Do(u, w, step), a, n)
  {
    match step
    case Tick(elapsed) => LaterOk(u, w.server, a, w.now, w.now + elapsed);
    case Elsewhere(op) => ElsewhereKeeps(u, w, op, a, n);
    case Crash => CrashKeeps(u, w, a, n);
    case BeginCycle(order) => QuietPcKeeps(u, w, Recovering(order), a, n);
    case RecoverOne(observed, net, saved) => RecoverOneKeeps(u, w, observed, net, saved, a, n);
    case EndRecovery(drop, saved) => EndRecoveryKeeps(u, w, drop, saved, a, n);
    case Poll(ids, net) => PollKeeps(u, w, ids, net, a, n);
    case ClaimNext(nonce, net) => ClaimNextKeeps(u, w, nonce, net, a, n);
    case Journal(saved) => JournalKeeps(u, w, saved, a, n);
    case Verify(otherwiseValid, error, saved) => VerifyKeeps(u, w, otherwiseValid, error, saved, a, n);
    case Launch(outcome) => LaunchKeeps(u, w, outcome, a, n);
    case Finish(saved) => FinishKeeps(u, w, saved, a, n);
    case SendReport(net) => SendReportKeeps(u, w, net, a, n);
    case Acknowledge(marked, drop, saved) => AcknowledgeKeeps(u, w, marked, drop, saved, a, n);
  }

  lemma {:induction false} RunKeeps(u: Setup, worlds: seq<World>, steps: seq<Step>, i: nat, a: string, n: nat)
    requires IsRun(u, worlds, steps) && i < |worlds|
    ensures Inv(u, worlds[i], a, n)
  {
    if i > 0 {
      RunKeeps(u, worlds, steps, i - 1, a, n);
      StepOf(u, worlds, steps, i - 1);
      StepKeeps(u, worlds[i - 1], steps[i - 1], a, n);
    }
  }
}
