/** The endpoint's service executor (linux_agent/executor.py): which commands it issues, and what a reported
    result says about the service. What the operating system answers is a script of replies. */
module Executor {
  import opened Text
  import opened Skills
  import opened Server
  import opened Journal
  import Lifecycle
  import Protocol
  import ServerRuns
  import ProtocolTheorems

  datatype Command = Show(unit: string) | Restart(unit: string) | Stop(unit: string)

  datatype ServiceState = ServiceState(load: string, active: string, sub: string)

  /** One answer: completion with an exit code and, for `show`, the printed state; or an exception. */
  datatype Answer = Completed(code: int, printed: ServiceState) | TimedOut | OsError | NotPermitted

  /** The answers to the five commands a restart may issue: precheck, restart, postcheck, undo, final check. */
  datatype Script = Script(precheck: Answer, restart: Answer, postcheck: Answer, undo: Answer, recheck: Answer)

  datatype Outcome = Returned(result: JobResult) | Raised(error: Exception)
  datatype Exception = ValueError | PermissionError | OtherOsError

  predicate Mutating(c: Command) {
    !c.Show?
  }

  function MutatingCount(cs: seq<Command>): nat {
    if cs == [] then 0 else MutatingCount(cs[..|cs| - 1]) + (if Mutating(cs[|cs| - 1]) then 1 else 0)
  }

  predicate Healthy(s: ServiceState) {
    s.active == "active" && s.sub == "running"
  }

  function Success(output: string): JobResult {
    JobResult(true, true, output, None, false, None)
  }

  function Failure(error: string): JobResult {
    JobResult(false, false, "", Some(error), false, None)
  }

  function RolledBackResult(error: string, restored: bool): JobResult {
    JobResult(false, false, "", Some(error), true, Some(restored))
  }

  datatype Run = Run(commands: seq<Command>, outcome: Outcome)

  function UndoCommand(unit: string, before: ServiceState): Command {
    if before.active == "active" then Restart(unit) else Stop(unit)
  }

  predicate Restored(before: ServiceState, s: Script) {
    s.undo.Completed? && s.undo.code == 0 && s.recheck.Completed? && s.recheck.printed.active == before.active
  }

  /** The commands of _rollback: the check follows only a command that completed. */
  function RollbackCommands(unit: string, before: ServiceState, s: Script): seq<Command> {
    [UndoCommand(unit, before)] + (if s.undo.Completed? then [Show(unit)] else [])
  }

  /** What a restart of an allowlisted unit does, given the answers. */
  function RestartRun(unit: string, s: Script): Run {
    if !s.precheck.Completed? then Run([Show(unit)], Returned(Failure("service precheck failed")))
    else
      var before := s.precheck.printed;
      if before.load != "loaded" then Run([Show(unit)], Returned(Failure("service unit is not loaded")))
      else if s.restart.OsError? then Run([Show(unit), Restart(unit)], Raised(OtherOsError))
      else if s.restart.NotPermitted? then Run([Show(unit), Restart(unit)], Raised(PermissionError))
      else if s.restart.TimedOut? then
        Run([Show(unit), Restart(unit)] + RollbackCommands(unit, before, s),
            Returned(RolledBackResult("restart timed out", Restored(before, s))))
      else if s.restart.code != 0 then
        Run([Show(unit), Restart(unit)] + RollbackCommands(unit, before, s),
            Returned(RolledBackResult("restart failed", Restored(before, s))))
      else if s.postcheck.Completed? && Healthy(s.postcheck.printed) then
        Run([Show(unit), Restart(unit), Show(unit)], Returned(Success(unit)))
      else
        Run([Show(unit), Restart(unit), Show(unit)] + RollbackCommands(unit, before, s),
            Returned(RolledBackResult("post-restart verification failed", Restored(before, s))))
  }

  lemma {:induction false} MutatingAdds(a: seq<Command>, b: seq<Command>)
    ensures MutatingCount(a + b) == MutatingCount(a) + MutatingCount(b)
  {
    if b == [] {
      assert a + b == a;
    } else {
      MutatingAdds(a, b[..|b| - 1]);
      assert (a + b)[..|a + b| - 1] == a + b[..|b| - 1];
    }
  }

  lemma ShortCounts(c: Command, d: Command, e: Command)
    ensures MutatingCount([c]) == if Mutating(c) then 1 else 0
    ensures MutatingCount([c, d]) == MutatingCount([c]) + if Mutating(d) then 1 else 0
    ensures MutatingCount([c, d, e]) == MutatingCount([c, d]) + if Mutating(e) then 1 else 0
  {
    assert [c, d, e][..2] == [c, d] && [c, d][..1] == [c] && [c][..0] == [];
  }

  lemma RollbackMutatesOnce(unit: string, before: ServiceState, s: Script)
    ensures MutatingCount(RollbackCommands(unit, before, s)) == 1
    ensures forall c <- RollbackCommands(unit, before, s) :: c.unit == unit
  {
    var undo := UndoCommand(unit, before);
    ShortCounts(undo, Show(unit), Show(unit));
    assert [undo] + [Show(unit)] == [undo, Show(unit)] && [undo] + [] == [undo];
  }

  /** One execution issues at most two mutating commands, all on the unit it was asked about. */
  lemma AtMostTwoMutations(unit: string, s: Script)
    ensures MutatingCount(RestartRun(unit, s).commands) <= 2
    ensures forall c <- RestartRun(unit, s).commands :: c.unit == unit
  {
    ShortCounts(Show(unit), Restart(unit), Show(unit));
    if s.precheck.Completed? {
      RollbackMutatesOnce(unit, s.precheck.printed, s);
      MutatingAdds([Show(unit), Restart(unit)], RollbackCommands(unit, s.precheck.printed, s));
      MutatingAdds([Show(unit), Restart(unit), Show(unit)], RollbackCommands(unit, s.precheck.printed, s));
    }
  }

  /** Success is reported exactly when a loaded unit was restarted with exit code 0 and then observed active
      and running; the control plane records it as succeeded. */
  lemma SuccessExactlyWhenObserved(unit: string, s: Script)
    ensures
      var run := RestartRun(unit, s);
      (run.outcome.Returned? && ReportedStatus(run.outcome.result).Succeeded?)
      <==> (s.precheck.Completed? && s.precheck.printed.load == "loaded"
            && s.restart.Completed? && s.restart.code == 0
            && s.postcheck.Completed? && Healthy(s.postcheck.printed))
  {
  }

  /** A rollback is recorded as successful exactly when it was needed and left the unit as active as the
      precheck had found it. */
  lemma RolledBackExactlyWhenRestored(unit: string, s: Script)
    ensures
      var run := RestartRun(unit, s);
      (run.outcome.Returned? && ReportedStatus(run.outcome.result).RolledBack?)
      <==> (s.precheck.Completed? && s.precheck.printed.load == "loaded"
            && !s.restart.OsError? && !s.restart.NotPermitted?
            && !(s.restart.Completed? && s.restart.code == 0 && s.postcheck.Completed? && Healthy(s.postcheck.printed))
            && Restored(s.precheck.printed, s))
  {
  }

  /** After the restart was tried, and went wrong or left the unit unwell: not loaded is not tried, and an
      exception of the operating system gets through. */
  predicate NeedsRollback(s: Script) {
    && s.precheck.Completed? && s.precheck.printed.load == "loaded"
    && (s.restart.TimedOut?
        || (s.restart.Completed?
            && !(s.restart.code == 0 && s.postcheck.Completed?
                 && s.postcheck.printed.active == "active" && s.postcheck.printed.sub == "running")))
  }

  /** What the control plane records of a restart, told from the answers alone: which outcome, and which commands
      had been issued by then. A rollback restarts a unit that had been active and stops any other; it counts as
      done exactly when that command succeeded and the unit is seen as active as before. */
  lemma RestartExactly(unit: string, s: Script)
    ensures
      var run := RestartRun(unit, s);
      var status := if run.outcome.Returned? then Some(ReportedStatus(run.outcome.result)) else None;
      var undo := if s.precheck.Completed? && s.precheck.printed.active == "active" then Restart(unit) else Stop(unit);
      var restored := s.precheck.Completed? && s.undo.Completed? && s.undo.code == 0
                      && s.recheck.Completed? && s.recheck.printed.active == s.precheck.printed.active;
      var checks := if s.restart.Completed? && s.restart.code == 0 then [Show(unit)] else [];
      var recheck := if s.undo.Completed? then [Show(unit)] else [];
      if !s.precheck.Completed? || s.precheck.printed.load != "loaded" then
        status == Some(Lifecycle.Failed) && run.commands == [Show(unit)]
      else if s.restart.OsError? || s.restart.NotPermitted? then
        status == None && run.commands == [Show(unit), Restart(unit)]
      else if NeedsRollback(s) then
        && status == Some(if restored then Lifecycle.RolledBack else Lifecycle.RollbackFailed)
        && run.commands == [Show(unit), Restart(unit)] + checks + [undo] + recheck
      else
        && status == Some(Lifecycle.Succeeded) && run.commands == [Show(unit), Restart(unit), Show(unit)]
  {
  }

  class ServiceRestartExecutor {
    const allowed: set<string>
    var issued: seq<Command>

    constructor (allowed: set<string>)
      ensures this.allowed == allowed && issued == []
    {
      this.allowed, issued := allowed, [];
    }

    /** One call of the runner, answered by `answer`. */
    method Issue(c: Command, answer: Answer) returns (r: Answer)
      modifies this
      ensures issued == old(issued) + [c] && r == answer
    {
      issued := issued + [c];
      return answer;
    }

    method Rollback(unit: string, before: ServiceState, error: string, s: Script) returns (result: JobResult)
      modifies this
      ensures issued == old(issued) + RollbackCommands(unit, before, s)
      ensures result == RolledBackResult(error, Restored(before, s))
    {
      var restored := false;
      var undone := Issue(if before.active == "active" then Restart(unit) else Stop(unit), s.undo);
      if undone.Completed? {
        var current := Issue(Show(unit), s.recheck);
        if current.Completed? {
          restored := undone.code == 0 && current.printed.active == before.active;
        }
      }
      return RolledBackResult(error, restored);
    }

    method Execute(parameters: Parameters, s: Script) returns (outcome: Outcome)
      modifies this
      ensures parameters.Keys != {"service"} || !parameters["service"].Str? ==>
                outcome == Raised(ValueError) && issued == old(issued)
      ensures parameters.Keys == {"service"} && parameters["service"].Str? && parameters["service"].s !in allowed ==>
                outcome == Raised(PermissionError) && issued == old(issued)
      ensures parameters.Keys == {"service"} && parameters["service"].Str? && parameters["service"].s in allowed ==>
                var run := RestartRun(parameters["service"].s, s);
                outcome == run.outcome && issued == old(issued) + run.commands
    {
      if parameters.Keys != {"service"} || !parameters["service"].Str? {
        return Raised(ValueError);
      }
      var unit := parameters["service"].s;
      if unit !in allowed {
        return Raised(PermissionError);
      }
      var checked := Issue(Show(unit), s.precheck);
      if !checked.Completed? {
        return Returned(Failure("service precheck failed"));
      }
      var before := checked.printed;
      if before.load != "loaded" {
        return Returned(Failure("service unit is not loaded"));
      }
      var restarted := Issue(Restart(unit), s.restart);
      if restarted.OsError? {
        return Raised(OtherOsError);
      }
      if restarted.NotPermitted? {
        return Raised(PermissionError);
      }
      var result: JobResult;
      if restarted.TimedOut? {
        result := Rollback(unit, before, "restart timed out", s);
        return Returned(result);
      }
      if restarted.code != 0 {
        result := Rollback(unit, before, "restart failed", s);
        return Returned(result);
      }
      var after := Issue(Show(unit), s.postcheck);
      if after.Completed? && Healthy(after.printed) {
        return Returned(Success(unit));
      }
      result := Rollback(unit, before, "post-restart verification failed", s);
      return Returned(result);
    }

    /** Recovery's observation: it issues one `show` and nothing else. */
    method VerifyOnly(unit: string, answer: Answer) returns (result: JobResult)
      modifies this
      ensures issued == old(issued) + [Show(unit)]
      ensures ReportedStatus(result).Succeeded? <==> answer.Completed? && Healthy(answer.printed)
      ensures !result.rollbackAttempted
    {
      var seen := Issue(Show(unit), answer);
      if !seen.Completed? {
        return Failure("post-interruption verification failed");
      }
      if Healthy(seen.printed) {
        return Success(unit);
      }
      return Failure("service not healthy after an interrupted execution; manual verification required");
    }
  }

  // ---- Commands per job

  /** Mutating commands issued for one job, when the k-th execution issued `commands[k]`. */
  function MutationsFor(executed: seq<JobRef>, commands: seq<seq<Command>>, job: JobRef): nat
    requires |executed| == |commands|
  {
    if executed == [] then 0
    else
      var n := |executed| - 1;
      MutationsFor(executed[..n], commands[..n], job) + (if executed[n] == job then MutatingCount(commands[n]) else 0)
  }

  /** What one executor call may issue: nothing (another skill, or a service refused beforehand), or the
      commands of a restart. */
  ghost predicate IssuedBy(commands: seq<Command>) {
    commands == [] || exists unit: string, s: Script :: commands == RestartRun(unit, s).commands
  }

  lemma IssuedFew(commands: seq<Command>)
    requires IssuedBy(commands)
    ensures MutatingCount(commands) <= 2
  {
    if commands != [] {
      var unit, s :| commands == RestartRun(unit, s).commands;
      AtMostTwoMutations(unit, s);
    }
  }

  lemma {:induction false} DistinctMutateOnce(executed: seq<JobRef>, commands: seq<seq<Command>>, job: JobRef)
    requires |executed| == |commands| && Distinct(executed)
    requires forall k :: 0 <= k < |commands| ==> MutatingCount(commands[k]) <= 2
    ensures MutationsFor(executed, commands, job) <= 2
    ensures job !in executed ==> MutationsFor(executed, commands, job) == 0
  {
    if executed != [] {
      var n := |executed| - 1;
      DistinctMutateOnce(executed[..n], commands[..n], job);
      assert executed == executed[..n] + [executed[n]];
      assert forall k :: 0 <= k < n ==> executed[k] != executed[n];
    }
  }

  /** Over every run of agent and control plane, whatever the operating system answers to the executor, a job
      stands for at most two mutating service commands ever. */
  lemma TwoMutationsPerJob(
      u: Protocol.Setup, worlds: seq<Protocol.World>, steps: seq<Protocol.Step>, i: nat, commands: seq<seq<Command>>,
      job: JobRef)
    requires Protocol.IsRun(u, worlds, steps) && i < |worlds|
    requires |commands| == |worlds[i].executed| && forall k :: 0 <= k < |commands| ==> IssuedBy(commands[k])
    ensures MutationsFor(worlds[i].executed, commands, job) <= 2
  {
    ProtocolTheorems.AtMostOnceExecution(u, worlds, steps, i);
    forall k | 0 <= k < |commands| ensures MutatingCount(commands[k]) <= 2 {
      IssuedFew(commands[k]);
    }
    DistinctMutateOnce(worlds[i].executed, commands, job);
  }

  /** Mutating commands issued for one action, over all its jobs. */
  function MutationsForAction(executed: seq<JobRef>, commands: seq<seq<Command>>, action: string): nat
    requires |executed| == |commands|
  {
    if executed == [] then 0
    else
      var n := |executed| - 1;
      MutationsForAction(executed[..n], commands[..n], action)
          + (if executed[n].action == action then MutatingCount(commands[n]) else 0)
  }

  lemma {:induction false} MutationsByRuns(executed: seq<JobRef>, commands: seq<seq<Command>>, action: string)
    requires |executed| == |commands| && forall k :: 0 <= k < |commands| ==> IssuedBy(commands[k])
    ensures MutationsForAction(executed, commands, action) <= 2 * ProtocolTheorems.RunsOf(executed, action)
  {
    if executed != [] {
      MutationsByRuns(executed[..|executed| - 1], commands[..|executed| - 1], action);
      IssuedFew(commands[|executed| - 1]);
    }
  }

  /** And an action for at most twice its permitted attempts, or twice one more than its claim record was
      purged. */
  lemma MutationsPerAction(
      u: Protocol.Setup, worlds: seq<Protocol.World>, steps: seq<Protocol.Step>, i: nat, commands: seq<seq<Command>>,
      action: string)
    requires Protocol.IsRun(u, worlds, steps) && i < |worlds|
    requires |commands| == |worlds[i].executed| && forall k :: 0 <= k < |commands| ==> IssuedBy(commands[k])
    ensures MutationsForAction(worlds[i].executed, commands, action) <= 2 * ServerRuns.AttemptCap(u.config)
    ensures MutationsForAction(worlds[i].executed, commands, action) <= 2 * (worlds[i].purged[action] + 1)
  {
    ProtocolTheorems.ExecutionsPerAction(u, worlds, steps, i, action);
    MutationsByRuns(worlds[i].executed, commands, action);
  }
}
