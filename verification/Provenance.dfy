/** Where a job comes from: whatever the agent journals and hands to an executor is the skill with the parameters
    somebody submitted for this device (helpdesktool/api.py, linux_agent/agent.py). */
module Provenance {
  import opened Text
  import opened Skills
  import opened Server
  import opened Journal
  import opened Protocol
  import opened ProtocolRuns
  import opened ProtocolTheorems
  import opened Origins
  import opened Submissions
  import opened Claims

  // ---- Who made the action

  /** Over every run of agent and control plane an action of the tables was submitted by an acceptable request
      of some client, and its row still is what that request asked for. */
  lemma {:induction false} ActionOrigin(u: Setup, worlds: seq<World>, steps: seq<Step>, i: nat, a: string)
      returns (j: nat)
    requires IsRun(u, worlds, steps) && i < |worlds| && a in worlds[i].server.actions
    ensures j < i && steps[j].Elsewhere?
    ensures Submits(u.config, worlds[j].server, steps[j].op, worlds[j].now, a, worlds[i].server.actions[a])
  {
    StepOf(u, worlds, steps, i - 1);
    var w, step := worlds[i - 1], steps[i - 1];
    var op := TablesStep(u, w, step);
    if a in w.server.actions {
      j := ActionOrigin(u, worlds, steps, i - 1, a);
      StepNames(u.config, w.server, op, w.now, a);
    } else {
      j := i - 1;
      StepOrigin(u.config, w.server, op, w.now, a);
    }
  }

  // ---- What the agent holds

  /** The entry is about this action of the tables: its skill and parameters. */
  predicate EntryOfRow(s: State, e: Entry, job: JobRef) {
    && job.action in s.actions
    && e.skillId == s.actions[job.action].skillId && e.parameters == s.actions[job.action].parameters
  }

  ghost predicate JournalOfRows(s: State, m: Entries) {
    forall job <- m :: EntryOfRow(s, m[job], job)
  }

  /** Everything the agent and the records hold about a job is about its action. */
  ghost predicate Sourced(w: World) {
    && RecordsOfRows(w.server)
    && JournalOfRows(w.server, w.mem) && JournalOfRows(w.server, w.disk)
    && (TicketOf(w.pc).Some? ==> OfRow(w.server, TicketOf(w.pc).value.fields))
  }

  lemma EntriesStay(c: Config, s: State, op: Op, now: int, m: Entries)
    requires JournalOfRows(s, m)
    ensures JournalOfRows(Next(c, s, op, now), m)
  {
    forall job | job in m ensures EntryOfRow(Next(c, s, op, now), m[job], job) {
      StepNames(c, s, op, now, job.action);
    }
  }

  lemma TablesKeepSources(c: Config, w: World, op: Op)
    requires Sourced(w)
    ensures Sourced(w.(server := Next(c, w.server, op, w.now)))
  {
    StepRecords(c, w.server, op, w.now);
    EntriesStay(c, w.server, op, w.now, w.mem);
    EntriesStay(c, w.server, op, w.now, w.disk);
    if TicketOf(w.pc).Some? {
      OfRowStays(c, w.server, op, w.now, TicketOf(w.pc).value.fields);
    }
  }

  lemma ClaimKeepsSources(u: Setup, w: World, nonce: string, net: Delivery)
    requires w.pc.Polled? && w.pc.todo != [] && Sourced(w)
    ensures Sourced(DoClaimNext(u, w, nonce, net))
  {
    var a := w.pc.todo[0];
    TablesKeepSources(u.config, w, ClaimOp(u, a, nonce));
    if ReplyTo(u.config, w.server, ClaimOp(u, a, nonce), w.now).Ok? {
      AnswerOfRow(u.config, w.server, u.tenant, u.device, a, ClaimKey(a), nonce, w.now);
    }
  }

  lemma RecoverKeepsSources(u: Setup, w: World, observed: JobResult, net: Delivery, saved: bool)
    requires w.pc.Recovering? && w.pc.pending != [] && Sourced(w)
    ensures Sourced(DoRecoverOne(u, w, observed, net, saved))
  {
    var job := w.pc.pending[0];
    if job in w.mem {
      TablesKeepSources(u.config, w, ReportOp(u, w.mem[job], RecoveryResult(w.mem[job], observed)));
    }
  }

  lemma ReportKeepsSources(u: Setup, w: World, net: Delivery)
    requires w.pc.Reporting? && Sourced(w)
    ensures Sourced(DoSendReport(u, w, net))
  {
    TablesKeepSources(u.config, w, ReportOp(u, NewEntry(w.pc.g, w.now), w.pc.result));
  }

  /** Journaling a job, and noting how far it is. */
  lemma NotingKeepsSources(u: Setup, w: World, step: Step)
    requires Enabled(u, w, step) && Sourced(w) && (step.Journal? || step.Verify? || step.Finish?)
    ensures Sourced(Do(u, w, step))
  {
  }

  /** The other steps that only touch the agent. */
  lemma LocalKeepsSources(u: Setup, w: World, step: Step)
    requires Enabled(u, w, step) && Sourced(w)
    requires !step.Elsewhere? && !step.ClaimNext? && !step.RecoverOne? && !step.SendReport?
    requires !step.Journal? && !step.Verify? && !step.Finish?
    ensures Sourced(Do(u, w, step))
  {
  }

  lemma StepKeepsSources(u: Setup, w: World, step: Step)
    requires Enabled(u, w, step) && Sourced(w)
    ensures Sourced(Do(u, w, step))
  {
    match step
    case Elsewhere(op) => TablesKeepSources(u.config, w, op);
    case ClaimNext(nonce, net) => ClaimKeepsSources(u, w, nonce, net);
    case RecoverOne(observed, net, saved) => RecoverKeepsSources(u, w, observed, net, saved);
    case SendReport(net) => ReportKeepsSources(u, w, net);
    case _ =>
      if step.Journal? || step.Verify? || step.Finish? {
        NotingKeepsSources(u, w, step);
      } else {
        LocalKeepsSources(u, w, step);
      }
  }

  lemma {:induction false} RunSourced(u: Setup, worlds: seq<World>, steps: seq<Step>, i: nat)
    requires IsRun(u, worlds, steps) && i < |worlds|
    ensures Sourced(worlds[i])
  {
    if i > 0 {
      RunSourced(u, worlds, steps, i - 1);
      StepOf(u, worlds, steps, i - 1);
      StepKeepsSources(u, worlds[i - 1], steps[i - 1]);
    }
  }

  // ---- What is journaled and what runs

  /** Journaling a claim writes one fresh entry with the claim's own nonce, token, report key, skill and parameters
      and no result, and leaves the other entries alone. */
  lemma JournaledExactly(w: World, saved: bool)
    requires w.pc.Claiming?
    ensures
      var g, v := w.pc.g, DoJournal(w, saved);
      var job := JobRef(g.fields.actionId, g.attempt);
      && v.mem.Keys == w.mem.Keys + {job} && (forall other <- w.mem :: other != job ==> v.mem[other] == w.mem[other])
      && v.disk == (if saved then v.mem else w.disk)
      && v.mem[job] == Entry(job, g.fields.nonce, g.token, ResultKey(g.fields.actionId, g.attempt), g.fields.skillId,
                             g.fields.parameters, Recorded, None, w.now)
  {
  }

  /** Step j submits the action, for this device of this tenant, with this skill and these parameters. */
  predicate SubmittedAt(
    worlds: seq<World>, steps: seq<Step>, j: nat, a: string, skillId: string, parameters: Parameters)
    requires |worlds| == |steps| + 1 && j < |steps|
  {
    && steps[j].Elsewhere? && steps[j].op.OpCreate? && steps[j].op.newId == a
    && steps[j].op.body.skillId == skillId && steps[j].op.body.parameters == parameters
  }

  /** Over every run each journal entry, in memory or on file, names the skill and the parameters of the request
      that submitted its action. */
  lemma JournaledAsSubmitted(u: Setup, worlds: seq<World>, steps: seq<Step>, i: nat, job: JobRef) returns (j: nat)
    requires IsRun(u, worlds, steps) && i < |worlds| && (job in worlds[i].mem || job in worlds[i].disk)
    ensures j < i
    ensures job in worlds[i].mem ==>
      SubmittedAt(worlds, steps, j, job.action, worlds[i].mem[job].skillId, worlds[i].mem[job].parameters)
    ensures job in worlds[i].disk ==>
      SubmittedAt(worlds, steps, j, job.action, worlds[i].disk[job].skillId, worlds[i].disk[job].parameters)
  {
    RunSourced(u, worlds, steps, i);
    j := ActionOrigin(u, worlds, steps, i, job.action);
  }

  /** Step k verified this very ticket, and found its envelope good and not yet expired. */
  predicate VerifiedAt(worlds: seq<World>, steps: seq<Step>, k: nat, g: Ticket)
    requires |worlds| == |steps| + 1 && k < |steps|
  {
    && worlds[k].pc.Journaled? && worlds[k].pc.g == g
    && steps[k].Verify? && steps[k].otherwiseValid && steps[k].saved && worlds[k].now < g.fields.expiresAt
  }

  lemma ToLaunching(u: Setup, w: World, step: Step)
    requires Enabled(u, w, step) && Do(u, w, step).pc.Launching?
    ensures (w.pc.Launching? && w.pc.g == Do(u, w, step).pc.g)
         || (step.Verify? && step.otherwiseValid && step.saved && w.pc.Journaled? && w.pc.g == Do(u, w, step).pc.g
             && w.now < w.pc.g.fields.expiresAt)
  {
    if step.ClaimNext? {
      ClaimLaunchesNothing(u, w, step.nonce, step.net);
    }
  }

  lemma ClaimLaunchesNothing(u: Setup, w: World, nonce: string, net: Delivery)
    requires w.pc.Polled? && w.pc.todo != []
    ensures !DoClaimNext(u, w, nonce, net).pc.Launching?
  {
  }

  lemma {:induction false} LaunchingWasVerified(u: Setup, worlds: seq<World>, steps: seq<Step>, i: nat)
      returns (k: nat)
    requires IsRun(u, worlds, steps) && i < |worlds| && worlds[i].pc.Launching?
    ensures k < i && VerifiedAt(worlds, steps, k, worlds[i].pc.g)
  {
    StepOf(u, worlds, steps, i - 1);
    ToLaunching(u, worlds[i - 1], steps[i - 1]);
    if worlds[i - 1].pc.Launching? {
      k := LaunchingWasVerified(u, worlds, steps, i - 1);
    } else {
      k := i - 1;
    }
  }

  /** Over every run each call of an executor was for the skill and the parameters of the request that submitted
      the action, under an envelope that had passed verification, addressed to the action's device and not yet
      expired then. */
  lemma ExecutedAsSubmitted(u: Setup, worlds: seq<World>, steps: seq<Step>, i: nat, job: JobRef)
      returns (launch: nat, verify: nat, submit: nat)
    requires IsRun(u, worlds, steps) && i < |worlds| && job in worlds[i].executed
    ensures submit < launch < i && verify < launch && Launched(worlds, steps, launch, job)
    ensures
      var f := worlds[launch].pc.g.fields;
      && SubmittedAt(worlds, steps, submit, job.action, f.skillId, f.parameters)
      && f.deviceId == steps[submit].op.body.device && f.tenantId == steps[submit].op.tenant
      && VerifiedAt(worlds, steps, verify, worlds[launch].pc.g)
  {
    ExecutedExactlyLaunched(u, worlds, steps, i, job);
    launch :| 0 <= launch < i && Launched(worlds, steps, launch, job);
    RunSourced(u, worlds, steps, launch);
    submit := ActionOrigin(u, worlds, steps, launch, job.action);
    verify := LaunchingWasVerified(u, worlds, steps, launch);
  }
}
