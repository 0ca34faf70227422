/** What the control plane records is what the executor returned: the results table against the agent's
    journal, over every run of both. As before, `a` is any action and `n` any of its attempts. */
module ProtocolResults {
  import opened Text
  import opened Signing
  import opened Lifecycle
  import opened Server
  import opened ServerRuns
  import opened Journal
  import opened Protocol
  import opened ProtocolRuns
  import opened ProtocolTheorems

  ghost predicate Unanswered(s: State, a: string) {
    forall row <- s.results :: row.action != a
  }

  /** Whatever result is on record for the action is this one. */
  ghost predicate AnswersAre(s: State, a: string, r: JobResult) {
    forall row <- s.results :: row.action == a ==> row.result == r
  }

  predicate Current(u: Setup, s: State, a: string, n: nat) {
    OurAction(u, s, a) && s.actions[a].attempt == n
  }

  // ---- The control plane's side

  ghost predicate AnsweredOnce(s: State, a: string) {
    (Settled(s, a) || Unanswered(s, a)) && TokenBelongs(s, a)
  }

  lemma CreateAnswers(c: Config, s: State, tenant: string, actor: string, key: string, body: ActionBody, newId: string,
                      now: int)
    ensures Create(c, s, tenant, actor, key, body, newId, now).0.results == s.results
  {
  }

  lemma DecideAnswers(s: State, tenant: string, actor: string, id: string, approve: bool, reason: string)
    ensures Decide(s, tenant, actor, id, approve, reason).0.results == s.results
  {
  }

  lemma ClaimAnswers(c: Config, s: State, tenant: string, device: string, id: string, key: string, nonce: string,
                     now: int)
    ensures Claim(c, s, tenant, device, id, key, nonce, now).0.results == s.results
  {
  }

  lemma ReportAnswers(s: State, tenant: string, device: string, id: string, key: string, token: Token, r: JobResult,
                      now: int)
    ensures
      var t := Report(s, tenant, device, id, key, token, r, now).0;
      || t.results == s.results
      || (ReportRefusal(s, tenant, device, id, token, now).None?
          && t.results == s.results + [ResultRow(s.actions[id].tenant, id, r)] && Settled(t, id))
  {
  }

  /** Only an accepted report adds a result, and it settles its action. */
  lemma StepAnswers(c: Config, s: State, op: Op, now: int)
    ensures
      var t := Next(c, s, op, now);
      || t.results == s.results
      || (op.OpReport? && ReportRefusal(s, op.tenant, op.device, op.id, op.token, now).None?
          && t.results == s.results + [ResultRow(s.actions[op.id].tenant, op.id, op.result)] && Settled(t, op.id))
  {
    match op
    case OpCreate(tenant, actor, key, body, newId) => CreateAnswers(c, s, tenant, actor, key, body, newId, now);
    case OpDecide(tenant, actor, id, approve, reason) => DecideAnswers(s, tenant, actor, id, approve, reason);
    case OpClaim(tenant, device, id, key, nonce) => ClaimAnswers(c, s, tenant, device, id, key, nonce, now);
    case OpReport(tenant, device, id, key, token, r) => ReportAnswers(s, tenant, device, id, key, token, r, now);
    case _ =>
  }

  lemma SilentStep(c: Config, s: State, op: Op, now: int, a: string)
    requires op.OpReport? ==> op.id != a || ReportRefusal(s, op.tenant, op.device, op.id, op.token, now).Some?
    ensures Unanswered(s, a) ==> Unanswered(Next(c, s, op, now), a)
    ensures forall r | AnswersAre(s, a, r) :: AnswersAre(Next(c, s, op, now), a, r)
  {
    StepAnswers(c, s, op, now);
  }

  lemma StepAnsweredOnce(c: Config, s: State, op: Op, now: int, a: string)
    requires AnsweredOnce(s, a)
    ensures AnsweredOnce(Next(c, s, op, now), a)
  {
    StepAnswers(c, s, op, now);
    StepToken(c, s, op, now, a);
    if Settled(s, a) {
      TerminalStep(c, s, op, now, a);
    }
  }

  /** Nobody else can answer the agent's action, and it stays the agent's at the same attempt. */
  lemma ForeignAnswers(u: Setup, s: State, op: Op, now: int, a: string, n: nat)
    requires Foreign(u, op) && AnsweredOnce(s, a)
    ensures
      var t := Next(u.config, s, op, now);
      && AnsweredOnce(t, a)
      && (OurAction(u, s, a) && Unanswered(s, a) ==> Unanswered(t, a))
      && (Current(u, t, a, n) ==>
            (Unanswered(t, a) || (Current(u, s, a, n) && forall r | AnswersAre(s, a, r) :: AnswersAre(t, a, r))))
  {
    var t := Next(u.config, s, op, now);
    StepAnsweredOnce(u.config, s, op, now, a);
    StepTouches(u.config, s, op, now, a);
    if OurAction(u, s, a) {
      ForeignRow(u, s, op, now, a);
      SilentStep(u.config, s, op, now, a);
    } else if OurAction(u, t, a) {
      OnlyNewRowsAreOurs(u, s, t, now, a);
      SilentStep(u.config, s, op, now, a);
    }
  }

  /** A row keeps its tenant and device. */
  lemma OnlyNewRowsAreOurs(u: Setup, s: State, t: State, now: int, a: string)
    requires RowMoves(u.config, Row(s, a), Row(t, a), a, now) && !OurAction(u, s, a) && OurAction(u, t, a)
    ensures a !in s.actions
  {
  }

  /** A report with the token of attempt m is accepted only while m is the current attempt, and never once
      the action has settled. */
  lemma AcceptedIsCurrent(s: State, tenant: string, device: string, a: string, m: nat, key: string, now: int)
    requires TokenBelongs(s, a)
    requires ReportRefusal(s, tenant, device, a, ClaimToken(a, m, key), now).None?
    ensures !Settled(s, a) && s.actions[a].attempt == m
  {
    var minted :| ClaimToken(a, m, key) == ClaimToken(a, s.actions[a].attempt, minted);
    TokenMessageAttempt(a, m, key, s.actions[a].attempt, minted);
  }

  /** The agent's report of attempt m: only this attempt's own results have to agree with it. */
  lemma OwnReportAnswers(u: Setup, s: State, e: Entry, m: nat, r: JobResult, now: int, a: string, n: nat)
    requires AnsweredOnce(s, a) && e.job == JobRef(a, m) && e.claimToken == ClaimToken(a, m, ClaimKey(a))
    ensures
      var t := Next(u.config, s, ReportOp(u, e, r), now);
      && AnsweredOnce(t, a)
      && (Current(u, t, a, n) ==> Current(u, s, a, n))
      && (forall x | Current(u, t, a, n) && AnswersAre(s, a, x) && (m == n && !Settled(s, a) ==> x == r) ::
          AnswersAre(t, a, x))
  {
    var op := ReportOp(u, e, r);
    var t := Next(u.config, s, op, now);
    StepAnsweredOnce(u.config, s, op, now, a);
    StepTouches(u.config, s, op, now, a);
    StepAnswers(u.config, s, op, now);
    if ReportRefusal(s, op.tenant, op.device, op.id, op.token, now).None? {
      AcceptedIsCurrent(s, op.tenant, op.device, a, m, ClaimKey(a), now);
    }
  }

  // ---- The joint invariant

  /** A recorded result is past its execution, and no other result is on record for the current attempt. */
  ghost predicate EntryAgrees(u: Setup, s: State, m: Entries, a: string, n: nat) {
    var job := JobRef(a, n);
    job in m && m[job].result.Some? ==>
      Rank(m[job].progress) >= Rank(Executed) && (Current(u, s, a, n) ==> AnswersAre(s, a, m[job].result.value))
  }

  /** Nothing is on record while the job is on its way; what is being reported is what was recorded. */
  ghost predicate FlightAgrees(w: World, a: string, n: nat) {
    var job := JobRef(a, n);
    && (TicketOf(w.pc).Some? && TicketOf(w.pc).value.fields.actionId == a ==>
          TicketOf(w.pc).value.token == ClaimToken(a, TicketOf(w.pc).value.attempt, ClaimKey(a)))
    && (w.pc.Claiming? || w.pc.Journaled? || w.pc.Launching? || w.pc.Finished? ==>
          w.pc.g.fields.actionId == a ==> Unanswered(w.server, a))
    && (w.pc.Reporting? && Handles(w.pc, job) ==>
          w.mem == w.disk && job in w.mem && (w.mem[job].result.Some? ==> w.mem[job].result.value == w.pc.result))
  }

  ghost predicate ResultsOk(u: Setup, w: World, a: string, n: nat) {
    && AnsweredOnce(w.server, a)
    && EntryAgrees(u, w.server, w.mem, a, n) && EntryAgrees(u, w.server, w.disk, a, n)
    && FlightAgrees(w, a, n)
  }

  lemma ElsewhereAgrees(u: Setup, w: World, op: Op, a: string, n: nat)
    requires Foreign(u, op) && Inv(u, w, a, n) && ResultsOk(u, w, a, n)
    ensures ResultsOk(u, DoElsewhere(u, w, op), a, n)
  {
    ForeignAnswers(u, w.server, op, w.now, a, n);
  }

  /** The tables after the agent's report of job (b, m). */
  lemma ReportAgrees(u: Setup, w: World, e: Entry, b: string, m: nat, r: JobResult, a: string, n: nat)
    requires ResultsOk(u, w, a, n) && w.pc.Idle?
    requires e.job == JobRef(b, m) && e.claimToken == ClaimToken(b, m, ClaimKey(b))
    requires JobRef(b, m) == JobRef(a, n) && !Settled(w.server, a) ==>
      && (JobRef(a, n) in w.mem && w.mem[JobRef(a, n)].result.Some? ==> w.mem[JobRef(a, n)].result.value == r)
      && (JobRef(a, n) in w.disk && w.disk[JobRef(a, n)].result.Some? ==> w.disk[JobRef(a, n)].result.value == r)
    ensures ResultsOk(u, w.(server := Next(u.config, w.server, ReportOp(u, e, r), w.now)), a, n)
  {
    var op := ReportOp(u, e, r);
    if a == b {
      OwnReportAnswers(u, w.server, e, m, r, w.now, a, n);
    } else {
      StepAnsweredOnce(u.config, w.server, op, w.now, a);
      SilentStep(u.config, w.server, op, w.now, a);
      StepTouches(u.config, w.server, op, w.now, a);
      OthersUntouched(u.config, w.server, op, w.now, a);
    }
  }

  lemma QuietAgrees(u: Setup, w: World, pc: Pc, a: string, n: nat)
    requires ResultsOk(u, w, a, n) && TicketOf(pc).None?
    ensures ResultsOk(u, w.(pc := pc), a, n)
  {
  }

  lemma MarkAgrees(u: Setup, w: World, job: JobRef, saved: bool, pc: Pc, a: string, n: nat)
    requires ResultsOk(u, w, a, n) && TicketOf(pc).None?
    ensures
      var mem := Marked(w.mem, job, Reported, None, w.now);
      ResultsOk(u, w.(mem := mem, disk := Written(saved, mem, w.disk), pc := pc), a, n)
  {
  }

  lemma RecoverAgrees(u: Setup, w: World, observed: JobResult, net: Delivery, saved: bool, a: string, n: nat)
    requires w.pc.Recovering? && w.pc.pending != [] && Inv(u, w, a, n) && ResultsOk(u, w, a, n)
    requires Inv(u, w, w.pc.pending[0].action, w.pc.pending[0].attempt)
    ensures ResultsOk(u, DoRecoverOne(u, w, observed, net, saved), a, n)
  {
    var job := w.pc.pending[0];
    var rest := Recovering(w.pc.pending[1..]);
    QuietAgrees(u, w, rest, a, n);
    if job in w.mem {
      var e := w.mem[job];
      var r := RecoveryResult(e, observed);
      var idle := w.(pc := Idle);
      QuietAgrees(u, w, Idle, a, n);
      if net != RequestLost {
        ReportAgrees(u, idle, e, job.action, job.attempt, r, a, n);
      }
      var sent := idle.(server := After(u, w, ReportOp(u, e, r), net));
      QuietAgrees(u, sent, rest, a, n);
      MarkAgrees(u, sent, job, saved, if saved then rest else Idle, a, n);
    }
  }

  /** The tables after a claim, whatever became of its reply, with the agent back at rest. */
  lemma ClaimSentAgrees(u: Setup, w: World, nonce: string, net: Delivery, a: string, n: nat)
    requires w.pc.Polled? && w.pc.todo != [] && Inv(u, w, a, n) && ResultsOk(u, w, a, n)
    ensures
      var t := After(u, w, ClaimOp(u, w.pc.todo[0], nonce), net);
      && ResultsOk(u, w.(server := t, pc := Idle), a, n)
      && (w.pc.todo[0] == a ==> Unanswered(t, a))
  {
    var b := w.pc.todo[0];
    var op := ClaimOp(u, b, nonce);
    StepAnsweredOnce(u.config, w.server, op, w.now, a);
    SilentStep(u.config, w.server, op, w.now, a);
    if a != b {
      ClaimOk(u, w.server, b, nonce, w.now, a);
    }
  }

  lemma ClaimAgrees(u: Setup, w: World, nonce: string, net: Delivery, a: string, n: nat)
    requires w.pc.Polled? && w.pc.todo != [] && Inv(u, w, a, n) && ResultsOk(u, w, a, n)
    ensures ResultsOk(u, DoClaimNext(u, w, nonce, net), a, n)
  {
    var b := w.pc.todo[0];
    var answer := Answer(u, w, ClaimOp(u, b, nonce), net);
    ClaimSentAgrees(u, w, nonce, net, a, n);
    if answer.Some? && answer.value.Ok? {
      ReplyNamesAction(u, w.server, b, nonce, w.now);
      if a == b {
        ReplyIsFreshOrExpired(u, w.server, a, nonce, w.now);
      }
    }
  }

  lemma SendAgrees(u: Setup, w: World, net: Delivery, a: string, n: nat)
    requires w.pc.Reporting? && Inv(u, w, a, n) && ResultsOk(u, w, a, n)
    requires ResultsOk(u, w, JobOf(w.pc.g).action, JobOf(w.pc.g).attempt)
    ensures ResultsOk(u, DoSendReport(u, w, net), a, n)
  {
    var e := NewEntry(w.pc.g, w.now);
    var idle := w.(pc := Idle);
    QuietAgrees(u, w, Idle, a, n);
    if net != RequestLost {
      ReportAgrees(u, idle, e, JobOf(w.pc.g).action, JobOf(w.pc.g).attempt, w.pc.result, a, n);
    }
  }

  lemma CrashAgrees(u: Setup, w: World, a: string, n: nat)
    requires ResultsOk(u, w, a, n)
    ensures ResultsOk(u, w.(pc := Idle, mem := w.disk), a, n)
  {
  }

  lemma EndRecoveryAgrees(u: Setup, w: World, drop: set<JobRef>, saved: bool, a: string, n: nat)
    requires w.pc.Recovering? && ResultsOk(u, w, a, n)
    ensures ResultsOk(u, w.(mem := w.mem - drop, disk := Pruned(w.mem, w.disk, drop, saved),
                            pc := if drop == {} || saved then Ready else Idle), a, n)
  {
  }

  lemma LaunchAgrees(u: Setup, w: World, outcome: Option<JobResult>, a: string, n: nat)
    requires w.pc.Launching? && ResultsOk(u, w, a, n)
    ensures ResultsOk(u, DoLaunch(w, outcome), a, n)
  {
  }

  lemma JournalAgrees(u: Setup, w: World, saved: bool, a: string, n: nat)
    requires w.pc.Claiming? && Inv(u, w, a, n) && ResultsOk(u, w, a, n)
    ensures ResultsOk(u, DoJournal(w, saved), a, n)
  {
  }

  lemma VerifyAgrees(u: Setup, w: World, otherwiseValid: bool, error: string, saved: bool, a: string, n: nat)
    requires w.pc.Journaled? && Inv(u, w, a, n) && ResultsOk(u, w, a, n)
    ensures ResultsOk(u, DoVerify(w, otherwiseValid, error, saved), a, n)
  {
  }

  lemma FinishAgrees(u: Setup, w: World, saved: bool, a: string, n: nat)
    requires w.pc.Finished? && Inv(u, w, a, n) && ResultsOk(u, w, a, n)
    ensures ResultsOk(u, DoFinish(w, saved), a, n)
  {
  }

  lemma AcknowledgeAgrees(u: Setup, w: World, marked: bool, drop: set<JobRef>, saved: bool, a: string, n: nat)
    requires w.pc.Acknowledged? && ResultsOk(u, w, a, n)
    ensures ResultsOk(u, DoAcknowledge(w, marked, drop, saved), a, n)
  {
  }

  lemma StepAgrees(u: Setup, w: World, step: Step, a: string, n: nat)
    requires Enabled(u, w, step) && Inv(u, w, a, n) && ResultsOk(u, w, a, n)
    requires step.RecoverOne? ==> Inv(u, w, w.pc.pending[0].action, w.pc.pending[0].attempt)
    requires step.SendReport? ==> ResultsOk(u, w, JobOf(w.pc.g).action, JobOf(w.pc.g).attempt)
    ensures ResultsOk(u, Do(u, w, step), a, n)
  {
    match step
    case Elsewhere(op) => ElsewhereAgrees(u, w, op, a, n);
    case RecoverOne(observed, net, saved) => RecoverAgrees(u, w, observed, net, saved, a, n);
    case ClaimNext(nonce, net) => ClaimAgrees(u, w, nonce, net, a, n);
    case SendReport(net) => SendAgrees(u, w, net, a, n);
    case Tick(_) =>
    case Crash => CrashAgrees(u, w, a, n);
    case BeginCycle(order) => QuietAgrees(u, w, Recovering(order), a, n);
    case EndRecovery(drop, saved) => EndRecoveryAgrees(u, w, drop, saved, a, n);
    case Poll(ids, net) => QuietAgrees(u, w, if net == Delivered then Polled(ids) else Idle, a, n);
    case Journal(saved) => JournalAgrees(u, w, saved, a, n);
    case Verify(otherwiseValid, error, saved) => VerifyAgrees(u, w, otherwiseValid, error, saved, a, n);
    case Launch(outcome) => LaunchAgrees(u, w, outcome, a, n);
    case Finish(saved) => FinishAgrees(u, w, saved, a, n);
    case Acknowledge(marked, drop, saved) => AcknowledgeAgrees(u, w, marked, drop, saved, a, n);
  }

  lemma {:induction false} RunAgrees(u: Setup, worlds: seq<World>, steps: seq<Step>, i: nat, a: string, n: nat)
    requires IsRun(u, worlds, steps) && i < |worlds|
    ensures ResultsOk(u, worlds[i], a, n)
  {
    if i > 0 {
      var w, step := worlds[i - 1], steps[i - 1];
      RunAgrees(u, worlds, steps, i - 1, a, n);
      RunKeeps(u, worlds, steps, i - 1, a, n);
      StepOf(u, worlds, steps, i - 1);
      if step.RecoverOne? {
        RunKeeps(u, worlds, steps, i - 1, w.pc.pending[0].action, w.pc.pending[0].attempt);
      }
      if step.SendReport? {
        RunAgrees(u, worlds, steps, i - 1, JobOf(w.pc.g).action, JobOf(w.pc.g).attempt);
      }
      StepAgrees(u, w, step, a, n);
    }
  }

  // ---- The theorems

  /** Over every run, a result in the agent's journal, in memory or on file, is the only one the control
      plane can have on record for that attempt. */
  lemma JournaledResultIsRecorded(u: Setup, worlds: seq<World>, steps: seq<Step>, i: nat, a: string, n: nat)
    requires IsRun(u, worlds, steps) && i < |worlds| && Current(u, worlds[i].server, a, n)
    ensures
      var w, job := worlds[i], JobRef(a, n);
      && (job in w.mem && w.mem[job].result.Some? ==> AnswersAre(w.server, a, w.mem[job].result.value))
      && (job in w.disk && w.disk[job].result.Some? ==> AnswersAre(w.server, a, w.disk[job].result.value))
  {
    RunAgrees(u, worlds, steps, i, a, n);
  }

  lemma UnsettledStaysOnDisk(u: Setup, w: World, step: Step, a: string, n: nat)
    requires Enabled(u, w, step) && Inv(u, w, a, n) && JobRef(a, n) in w.disk && !Settled(w.server, a)
    ensures JobRef(a, n) in Do(u, w, step).disk
  {
    assert JobRef(a, n) in w.mem;
  }

  lemma SettledAnswersStay(u: Setup, w: World, step: Step, a: string, r: JobResult)
    requires Enabled(u, w, step) && Settled(w.server, a) && AnswersAre(w.server, a, r)
    ensures Settled(Do(u, w, step).server, a) && AnswersAre(Do(u, w, step).server, a, r)
  {
    var op := TablesStep(u, w, step);
    SilentStep(u.config, w.server, op, w.now, a);
    TerminalStep(u.config, w.server, op, w.now, a);
  }

  /** The recorded result still stands: it is on file, or the action has settled; and nothing else is on record. */
  ghost predicate Prevails(u: Setup, w: World, a: string, n: nat, r: JobResult) {
    && (Current(u, w.server, a, n) ==> AnswersAre(w.server, a, r))
    && ((JobRef(a, n) in w.disk && w.disk[JobRef(a, n)].result == Some(r)) || Settled(w.server, a))
  }

  lemma SettledPrevails(u: Setup, w: World, step: Step, a: string, n: nat, r: JobResult)
    requires Enabled(u, w, step) && Settled(w.server, a) && Prevails(u, w, a, n, r)
    ensures Settled(Do(u, w, step).server, a)
    ensures Current(u, Do(u, w, step).server, a, n) ==> AnswersAre(Do(u, w, step).server, a, r)
  {
    var op := TablesStep(u, w, step);
    TerminalStep(u.config, w.server, op, w.now, a);
    if Current(u, w.server, a, n) {
      SettledAnswersStay(u, w, step, a, r);
    }
  }

  /** Once a job's result is on file, no crash, lost reply, resend, pruning, purge or other client can make
      the control plane record another one for that attempt: what the executor returned prevails. */
  lemma {:induction false} ExecutedResultPrevails(
    u: Setup, worlds: seq<World>, steps: seq<Step>, i: nat, j: nat, a: string, n: nat)
    requires IsRun(u, worlds, steps) && i <= j < |worlds|
    requires JobRef(a, n) in worlds[i].disk && worlds[i].disk[JobRef(a, n)].result.Some?
    ensures Prevails(u, worlds[j], a, n, worlds[i].disk[JobRef(a, n)].result.value)
  {
    RunAgrees(u, worlds, steps, j, a, n);
    if i < j {
      var w, r := worlds[j - 1], worlds[i].disk[JobRef(a, n)].result.value;
      ExecutedResultPrevails(u, worlds, steps, i, j - 1, a, n);
      StepOf(u, worlds, steps, j - 1);
      if Settled(w.server, a) {
        SettledPrevails(u, w, steps[j - 1], a, n, r);
      } else {
        RunKeeps(u, worlds, steps, j - 1, a, n);
        UnsettledStaysOnDisk(u, w, steps[j - 1], a, n);
      }
      if JobRef(a, n) in w.disk {
        DiskMovesForward(u, worlds, steps, j - 1, a, n);
      }
    }
  }
}
