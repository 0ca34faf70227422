/** The job-lease protocol, control plane and endpoint agent together: one agent for one device, every other
    client free to send anything, one shared clock, requests and replies that may be lost, journal saves
    that may fail, and crashes at any point (linux_agent/agent.py against helpdesktool/api.py). */
module Protocol {
  import opened Text
  import opened Skills
  import opened Signing
  import opened Lifecycle
  import opened Server
  import opened Journal

  /** Settings, and the agent's credential: its device and the tenant that device belongs to. */
  datatype Setup = Setup(config: Config, tenant: string, device: string)

  /** A claim reply in the agent's hands. */
  datatype Ticket = Ticket(fields: Fields, attempt: nat, token: Token)

  function JobOf(g: Ticket): JobRef {
    JobRef(g.fields.actionId, g.attempt)
  }

  /** Where the agent's cycle is; `todo` is the rest of the polled list (or of the pending list). */
  datatype Pc =
    | Idle
    | Recovering(pending: seq<JobRef>)
    | Ready
    | Polled(todo: seq<string>)
    | Claiming(g: Ticket, todo: seq<string>)
    | Journaled(g: Ticket, todo: seq<string>)
    | Launching(g: Ticket, todo: seq<string>)
    | Finished(g: Ticket, result: JobResult, todo: seq<string>)
    | Reporting(g: Ticket, result: JobResult, todo: seq<string>)
    | Acknowledged(g: Ticket, todo: seq<string>)

  /** `executed` lists the jobs handed to the executor; `purged` counts, per action, how often the record of
      the agent's claim was purged. */
  datatype World = World(
    server: State, now: int, pc: Pc, mem: Entries, disk: Entries, executed: seq<JobRef>, purged: multiset<string>)

  datatype Delivery = Delivered | RequestLost | ReplyLost

  datatype Step =
    | Tick(elapsed: nat)
    | Elsewhere(op: Op)
    | Crash
    | BeginCycle(order: seq<JobRef>)
    | RecoverOne(observed: JobResult, net: Delivery, saved: bool)
    | EndRecovery(drop: set<JobRef>, saved: bool)
    | Poll(ids: seq<string>, net: Delivery)
    | ClaimNext(nonce: string, net: Delivery)
    | Journal(saved: bool)
    | Verify(otherwiseValid: bool, error: string, saved: bool)
    | Launch(outcome: Option<JobResult>)
    | Finish(saved: bool)
    | SendReport(net: Delivery)
    | Acknowledge(marked: bool, drop: set<JobRef>, saved: bool)

  // ---- Requests

  function ClaimRk(u: Setup, a: string): RecordKey {
    RecordKey(u.tenant, ClaimScope, ClaimKey(a))
  }

  /** The server after a request that may have been lost on the way. */
  function After(u: Setup, w: World, op: Op, net: Delivery): State {
    if net == RequestLost then w.server else Next(u.config, w.server, op, w.now)
  }

  /** The reply the agent sees; None when it sees an I/O error instead. */
  function Answer(u: Setup, w: World, op: Op, net: Delivery): Option<Reply> {
    if net == Delivered then Some(ReplyTo(u.config, w.server, op, w.now)) else None
  }

  function ClaimOp(u: Setup, a: string, nonce: string): Op {
    OpClaim(u.tenant, u.device, a, ClaimKey(a), nonce)
  }

  function ReportOp(u: Setup, e: Entry, r: JobResult): Op {
    OpReport(u.tenant, u.device, e.job.action, e.key, e.claimToken, r)
  }

  /** The entry record_claimed writes. */
  function NewEntry(g: Ticket, now: int): Entry {
    Entry(JobOf(g), g.fields.nonce, g.token, ResultKey(g.fields.actionId, g.attempt), g.fields.skillId,
          g.fields.parameters, Recorded, None, now)
  }

  /** What recovery reports: the recorded result of an executed entry, otherwise an observation. */
  function RecoveryResult(e: Entry, observed: JobResult): JobResult {
    if e.progress == Executed && e.result.Some? then e.result.value else observed
  }

  /** The result reported instead of an execution. */
  function Refusal(error: string): JobResult {
    JobResult(false, false, "", Some(error), false, None)
  }

  /** What recovery can observe: a service that looks healthy, or nothing it can vouch for. */
  predicate IsObservation(r: JobResult) {
    r.success == r.verified && !r.rollbackAttempted
  }

  function Written(saved: bool, mem: Entries, disk: Entries): Entries {
    if saved then mem else disk
  }

  /** prune_reported: without excess it returns before saving. */
  function Pruned(mem: Entries, disk: Entries, drop: set<JobRef>, saved: bool): Entries {
    if drop == {} then disk else Written(saved, mem - drop, disk)
  }

  /** The claim records a purge takes away from the agent, by action. */
  ghost function Lost(u: Setup, w: World, t: State): set<string> {
    set a <- w.server.actions | ClaimRk(u, a) in w.server.records && ClaimRk(u, a) !in t.records
  }

  // ---- Steps

  /** Between two cycles: the last one failed, or finished its list. */
  predicate Resting(pc: Pc) {
    pc.Idle? || pc == Polled([])
  }

  /** Steps the protocol can take. Clients other than the agent never hold its credential. */
  ghost predicate Enabled(u: Setup, w: World, step: Step) {
    match step
    case Tick(_) => true
    case Elsewhere(op) => (op.OpClaim? ==> op.device != u.device) && (op.OpReport? ==> op.device != u.device)
    case Crash => true
    case BeginCycle(order) => Resting(w.pc) && forall j <- order :: j in PendingJobs(w.mem)
    case RecoverOne(observed, _, _) => w.pc.Recovering? && w.pc.pending != [] && IsObservation(observed)
    case EndRecovery(drop, _) => w.pc.Recovering? && w.pc.pending == [] && drop <= ReportedJobs(w.mem)
    case Poll(ids, _) => w.pc.Ready? && Distinct(ids) && forall a <- ids :: Pollable(w.server, u.tenant, u.device, a)
    case ClaimNext(_, _) => w.pc.Polled? && w.pc.todo != []
    case Journal(_) => w.pc.Claiming?
    case Verify(_, _, _) => w.pc.Journaled?
    case Launch(_) => w.pc.Launching?
    case Finish(_) => w.pc.Finished?
    case SendReport(_) => w.pc.Reporting?
    case Acknowledge(_, drop, _) =>
        w.pc.Acknowledged? && drop <= ReportedJobs(Marked(w.mem, JobOf(w.pc.g), Reported, None, w.now))
  }

  /** Another client's request, the reaper, the retention purge or a skill registration. */
  ghost function DoElsewhere(u: Setup, w: World, op: Op): World {
    var t := Next(u.config, w.server, op, w.now);
    w.(server := t, purged := w.purged + multiset(Lost(u, w, t)))
  }

  /** A pending entry is reported with its own key and token; only an acknowledgement marks it reported. An
      API error moves on to the next entry, an I/O error ends the cycle. Nothing is executed. */
  function DoRecoverOne(u: Setup, w: World, observed: JobResult, net: Delivery, saved: bool): World
    requires w.pc.Recovering? && w.pc.pending != []
  {
    var job := w.pc.pending[0];
    var rest := Recovering(w.pc.pending[1..]);
    if job !in w.mem then w.(pc := rest)
    else
      var op := ReportOp(u, w.mem[job], RecoveryResult(w.mem[job], observed));
      var sent := w.(server := After(u, w, op, net));
      match Answer(u, w, op, net)
      case None => sent.(pc := Idle)
      case Some(Refused(_)) => sent.(pc := rest)
      case Some(Ok(_)) =>
        var mem := Marked(w.mem, job, Reported, None, w.now);
        sent.(mem := mem, disk := Written(saved, mem, w.disk), pc := if saved then rest else Idle)
  }

  /** Claims the next polled action. A job already journaled is skipped. */
  function DoClaimNext(u: Setup, w: World, nonce: string, net: Delivery): World
    requires w.pc.Polled? && w.pc.todo != []
  {
    var op := ClaimOp(u, w.pc.todo[0], nonce);
    var sent := w.(server := After(u, w, op, net));
    match Answer(u, w, op, net)
    case Some(Ok(GrantedClaim(fields, _, attempt, token))) =>
      var g := Ticket(fields, attempt, token);
      sent.(pc := if JobOf(g) in w.mem then Polled(w.pc.todo[1..]) else Claiming(g, w.pc.todo[1..]))
    case _ => sent.(pc := Idle)
  }

  function DoJournal(w: World, saved: bool): World
    requires w.pc.Claiming?
  {
    var mem := w.mem[JobOf(w.pc.g) := NewEntry(w.pc.g, w.now)];
    w.(mem := mem, disk := Written(saved, mem, w.disk), pc := if saved then Journaled(w.pc.g, w.pc.todo) else Idle)
  }

  /** Only an envelope that has not expired, and passes whatever else is checked, gets as far as the executor,
      and only after `executing` is on disk. */
  function DoVerify(w: World, otherwiseValid: bool, error: string, saved: bool): World
    requires w.pc.Journaled?
  {
    if w.pc.g.fields.expiresAt <= w.now || !otherwiseValid then w.(pc := Reporting(w.pc.g, Refusal(error), w.pc.todo))
    else
      var mem := Marked(w.mem, JobOf(w.pc.g), Executing, None, w.now);
      w.(mem := mem, disk := Written(saved, mem, w.disk), pc := if saved then Launching(w.pc.g, w.pc.todo) else Idle)
  }

  /** The executor runs; it returns a result or lets an exception through. */
  function DoLaunch(w: World, outcome: Option<JobResult>): World
    requires w.pc.Launching?
  {
    w.(executed := w.executed + [JobOf(w.pc.g)],
       pc := if outcome.Some? then Finished(w.pc.g, outcome.value, w.pc.todo) else Idle)
  }

  function DoFinish(w: World, saved: bool): World
    requires w.pc.Finished?
  {
    var mem := Marked(w.mem, JobOf(w.pc.g), Executed, Some(w.pc.result), w.now);
    w.(mem := mem, disk := Written(saved, mem, w.disk),
       pc := if saved then Reporting(w.pc.g, w.pc.result, w.pc.todo) else Idle)
  }

  function DoSendReport(u: Setup, w: World, net: Delivery): World
    requires w.pc.Reporting?
  {
    var op := ReportOp(u, NewEntry(w.pc.g, w.now), w.pc.result);
    var sent := w.(server := After(u, w, op, net));
    match Answer(u, w, op, net)
    case Some(Ok(_)) => sent.(pc := Acknowledged(w.pc.g, w.pc.todo))
    case _ => sent.(pc := Idle)
  }

  /** Marks the job reported, then prunes: which reported entries go is left open. */
  function DoAcknowledge(w: World, marked: bool, drop: set<JobRef>, saved: bool): World
    requires w.pc.Acknowledged?
  {
    var mem := Marked(w.mem, JobOf(w.pc.g), Reported, None, w.now);
    var disk := Written(marked, mem, w.disk);
    if !marked then w.(mem := mem, pc := Idle)
    else w.(mem := mem - drop, disk := Pruned(mem, disk, drop, saved),
            pc := if drop == {} || saved then Polled(w.pc.todo) else Idle)
  }

  ghost function Do(u: Setup, w: World, step: Step): World
    requires Enabled(u, w, step)
  {
    match step
    case Tick(elapsed) => w.(now := w.now + elapsed)
    case Elsewhere(op) => DoElsewhere(u, w, op)
    case Crash => w.(pc := Idle, mem := w.disk)
    case BeginCycle(order) => w.(pc := Recovering(order))
    case RecoverOne(observed, net, saved) => DoRecoverOne(u, w, observed, net, saved)
    case EndRecovery(drop, saved) =>
      w.(mem := w.mem - drop, disk := Pruned(w.mem, w.disk, drop, saved),
         pc := if drop == {} || saved then Ready else Idle)
    case Poll(ids, net) => w.(pc := if net == Delivered then Polled(ids) else Idle)
    case ClaimNext(nonce, net) => DoClaimNext(u, w, nonce, net)
    case Journal(saved) => DoJournal(w, saved)
    case Verify(otherwiseValid, error, saved) => DoVerify(w, otherwiseValid, error, saved)
    case Launch(outcome) => DoLaunch(w, outcome)
    case Finish(saved) => DoFinish(w, saved)
    case SendReport(net) => DoSendReport(u, w, net)
    case Acknowledge(marked, drop, saved) => DoAcknowledge(w, marked, drop, saved)
  }

  ghost predicate Start(w: World) {
    && Server.Initial(w.server) && w.pc.Idle? && w.mem == map[] && w.disk == map[] && w.executed == []
    && w.purged == multiset{}
  }

  /** The worlds of a run, one per step. */
  ghost predicate IsRun(u: Setup, worlds: seq<World>, steps: seq<Step>) {
    && |worlds| == |steps| + 1
    && Start(worlds[0])
    && forall i {:trigger Enabled(u, worlds[i], steps[i])} :: 0 <= i < |steps| ==>
         Enabled(u, worlds[i], steps[i]) && worlds[i + 1] == Do(u, worlds[i], steps[i])
  }

  lemma StepOf(u: Setup, worlds: seq<World>, steps: seq<Step>, i: nat)
    requires IsRun(u, worlds, steps) && i < |steps|
    ensures Enabled(u, worlds[i], steps[i]) && worlds[i + 1] == Do(u, worlds[i], steps[i])
  {
  }

  lemma OneMoreStep(u: Setup, worlds: seq<World>, steps: seq<Step>, step: Step)
    requires IsRun(u, worlds, steps) && Enabled(u, worlds[|steps|], step)
    ensures IsRun(u, worlds + [Do(u, worlds[|steps|], step)], steps + [step])
  {
    var longer, more := worlds + [Do(u, worlds[|steps|], step)], steps + [step];
    forall i | 0 <= i < |more| ensures Enabled(u, longer[i], more[i]) && longer[i + 1] == Do(u, longer[i], more[i]) {
      if i < |steps| {
        StepOf(u, worlds, steps, i);
      }
    }
  }

  /** Where a list of steps leads, if each is enabled when it is taken. */
  ghost function Reached(u: Setup, w: World, trace: seq<Step>): Option<World> {
    if trace == [] then Some(w)
    else
      var n := |trace| - 1;
      match Reached(u, w, trace[..n])
      case None => None
      case Some(v) => if Enabled(u, v, trace[n]) then Some(Do(u, v, trace[n])) else None
  }

  lemma {:induction false} ReachedIsRun(u: Setup, w: World, trace: seq<Step>, v: World) returns (worlds: seq<World>)
    requires Start(w) && Reached(u, w, trace) == Some(v)
    ensures IsRun(u, worlds, trace) && worlds[0] == w && worlds[|trace|] == v
  {
    if trace == [] {
      worlds := [w];
    } else {
      var n := |trace| - 1;
      var before := Reached(u, w, trace[..n]).value;
      var earlier := ReachedIsRun(u, w, trace[..n], before);
      OneMoreStep(u, earlier, trace[..n], trace[n]);
      worlds := earlier + [v];
      assert trace[..n] + [trace[n]] == trace;
    }
  }

  lemma ReachedSnoc(u: Setup, w: World, trace: seq<Step>, v: World, step: Step)
    requires Reached(u, w, trace) == Some(v) && Enabled(u, v, step)
    ensures Reached(u, w, trace + [step]) == Some(Do(u, v, step))
  {
    assert (trace + [step])[..|trace|] == trace;
  }
}
