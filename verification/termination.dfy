/** The graceful-then-forced kill of one supervised process
    (`ProcessManager._kill_process`). What the operating system answers is
    an input: whether the process had already exited, whether the polite
    terminate or the forced kill raised, and whether the process exited
    within the grace period. The result is the signals sent and the lines
    logged; the procedure never raises. */
module Termination {
  import opened Text

  /** What a signal call can raise: `ProcessLookupError` (the process is gone) or
      any other error, with its message. */
  datatype Fault = NotFound | Failed(reason: string)

  /** A polite terminate, and the forced kill (`proc.kill()` in the mock mode,
      `taskkill /F /T` of the whole tree otherwise). */
  datatype Signal = Terminate | ForceKill

  /** The answers of the operating system during one kill. */
  datatype KillInputs = KillInputs(
    returnCode: Option<int>,        // the process's return code when the kill starts
    onTerminate: Option<Fault>,     // what `terminate()` raised, if anything
    exitsWithinGrace: bool,         // whether the process exited within the 2-second grace period
    onForceKill: Option<Fault>)     // what the forced kill raised, if anything

  datatype KillReport = KillReport(signals: seq<Signal>, logs: seq<string>)

  function KillingLine(pid: int): string {
    "Killing process " + IntToString(pid) + "..."
  }

  function EscalationLine(pid: int): string {
    "Process " + IntToString(pid) + " did not terminate, forcing kill..."
  }

  function ErrorLine(pid: int, reason: string): string {
    "Error killing process " + IntToString(pid) + ": " + reason
  }

  /** The three kinds of kill lines never coincide: they start with different letters. */
  lemma KillLinesDiffer(pid: int, reason: string)
    ensures KillingLine(pid) != EscalationLine(pid)
    ensures KillingLine(pid) != ErrorLine(pid, reason) && EscalationLine(pid) != ErrorLine(pid, reason)
  {
    assert KillingLine(pid)[0] == 'K' && EscalationLine(pid)[0] == 'P' && ErrorLine(pid, reason)[0] == 'E';
  }

  /** The fault, if any, that the kill procedure runs into: the terminate's, or the
      forced kill's when the grace period ran out. */
  function FaultMet(k: KillInputs): Option<Fault> {
    if k.returnCode.Some? then None
    else if k.onTerminate.Some? then k.onTerminate
    else if k.exitsWithinGrace then None
    else k.onForceKill
  }

  /** The lines one kill logs: the killing line, the escalation line if the forced kill
      was sent, and the error line if a fault other than "not found" was met. */
  function KillLog(pid: int, escalated: bool, reported: Option<string>): (logs: seq<string>)
    ensures |logs| > 0 && logs[0] == KillingLine(pid) && |logs| <= 3
    ensures EscalationLine(pid) in logs <==> escalated
    ensures reported.Some? ==> logs[|logs| - 1] == ErrorLine(pid, reported.value)
    ensures reported.None? ==> forall line <- logs :: line == KillingLine(pid) || line == EscalationLine(pid)
    ensures forall i, j | 0 <= i < j < |logs| :: logs[i] != logs[j]
  {
    KillLinesDiffer(pid, if reported.Some? then reported.value else "");
    match reported
    case None => if escalated then [KillingLine(pid), EscalationLine(pid)] else [KillingLine(pid)]
    case Some(e) =>
      if escalated then [KillingLine(pid), EscalationLine(pid), ErrorLine(pid, e)]
      else [KillingLine(pid), ErrorLine(pid, e)]
  }

  function KillProcess(pid: int, k: KillInputs): (r: KillReport)
    // a process that has already exited is left alone: killing is idempotent
    ensures k.returnCode.Some? ==> r.signals == [] && r.logs == []
    // otherwise the polite terminate always comes first, and it is followed by the forced
    // kill exactly when it went through and the grace period ran out
    ensures k.returnCode.None? ==>
      r.signals == (if k.onTerminate.None? && !k.exitsWithinGrace then [Terminate, ForceKill] else [Terminate])
    // the lines are exactly the killing line, the escalation line when the forced kill was
    // sent, and the error line when a fault other than "not found" was met, in that order
    ensures k.returnCode.None? ==>
      r.logs == [KillingLine(pid)]
                + (if ForceKill in r.signals then [EscalationLine(pid)] else [])
                + (if FaultMet(k).Some? && FaultMet(k).value.Failed? then [ErrorLine(pid, FaultMet(k).value.reason)] else [])

    // corollaries of the two exact lists above, stated for callers:
    // the terminate is announced first
    ensures k.returnCode.None? ==> |r.logs| > 0 && r.logs[0] == KillingLine(pid)
    // the escalation is logged exactly when the forced kill is sent
    ensures EscalationLine(pid) in r.logs <==> ForceKill in r.signals
    // "not found" is swallowed, any other fault is logged, as the last line
    ensures (FaultMet(k).Some? && FaultMet(k).value.Failed?) ==>
      r.logs[|r.logs| - 1] == ErrorLine(pid, FaultMet(k).value.reason)
    ensures !(FaultMet(k).Some? && FaultMet(k).value.Failed?) ==>
      forall line <- r.logs :: line == KillingLine(pid) || line == EscalationLine(pid)
    // no line is logged twice, so at most three lines in all
    ensures forall i, j | 0 <= i < j < |r.logs| :: r.logs[i] != r.logs[j]
    ensures |r.logs| <= 3
  {
    if k.returnCode.Some? then KillReport([], [])
    else
      var signals := if k.onTerminate.None? && !k.exitsWithinGrace then [Terminate, ForceKill] else [Terminate];
      var fault := FaultMet(k);
      var reported := if fault.Some? && fault.value.Failed? then Some(fault.value.reason) else None;
      KillReport(signals, KillLog(pid, ForceKill in signals, reported))
  }
}
