/** Whole requests, run by the machine. */
module ControlRuns {
  import opened PhpSyntax
  import opened StructuredSemantics
  import opened ControlMachineModule
  import opened ControlCallGraph
  import opened ControlTheorems

  /** The run ends as the semantics says. */
  predicate EndsAs(ref: Result<(Env, Outcome)>, status: Status, env: Env) {
    match ref
    case Timeout => status == OutOfFuel
    case Halt(why, trace) => status == Stopped(why, trace)
    case Done((final, out)) => status == Completed && out == Normal && env == final
  }

  /** Runs a script from the start of a request: the in-place machine, which knows no syntax tree but
      for the order of the hooks, ends as the structured semantics says whenever the semantics calls
      no function that a mark stops, and for a tidy script that the semantics completes exactly then;
      for a script whose call graph is safe, always. */
  method RunScript(m: Meaning, script: Stmt, fuel: nat) returns (status: Status, env: Env)
    requires WellPlaced(script)
    ensures var ref := Reference(m, script, fuel);
      && (CallsNoStop(m, script, fuel) ==> EndsAs(ref, status, env))
      && (Tidy(script, BRACED) && ref.Done? && EndsAs(ref, status, env) ==> CallsNoStop(m, script, fuel))
      && (CallGraphSafe(script) ==> EndsAs(ref, status, env))
  {
    var machine := new ControlMachine(m);
    status := machine.Statement(script, BRACED, fuel);
    env := machine.env;
    ScriptsRunExactly(m, script, fuel);
    if CallGraphSafe(script) { ScriptsRunAsWritten(m, script, fuel); }
  }
}
