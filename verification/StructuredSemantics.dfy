/** The reference: a structured, flag-free big-step semantics of the control constructs.

    What an expression without control flow computes is left open.  `Meaning` gives its value as
    an arbitrary function of everything that happened before, so every deterministic store,
    scoping rule or library behaviour is an instance.  `fuel` bounds the number of nested loop
    iterations and calls; the machine spends it at the same points. */
module StructuredSemantics {
  import opened Options
  import opened PhpSyntax

  datatype Value = Null | Num(n: int) | Other(code: int)

  datatype Event =
    | Evaluated(id: int)
    | Passed(arg: Value)          // an argument or an operand has been evaluated
    | Entered(name: string)
    | Left(result: Value)
    | Printed(value: Value)

  type Trace = seq<Event>

  datatype Meaning = Meaning(
    value: (Trace, int) -> Value,       // value of an atom, given the history ending with it
    truth: int -> bool,                 // truth of a value that is not a number
    long: int -> int,                   // conversion of such a value to an integer
    equal: (Value, Value) -> bool,      // the == of switch
    stale: (Trace, int) -> Value)       // what an unevaluated expression leaves on the value stack

  predicate IsTrue(m: Meaning, v: Value) {
    match v
    case Null => false
    case Num(n) => n != 0
    case Other(code) => m.truth(code)
  }

  function ToLong(m: Meaning, v: Value): int {
    match v
    case Null => 0
    case Num(n) => n
    case Other(code) => m.long(code)
  }

  function Bool(b: bool): Value { if b then Num(1) else Num(0) }

  /** Why a run ends early.  The last four are never reasons of the reference semantics. */
  datatype Reason =
    | BadLevel                     // break or continue past the loops there are
    | Undefined(name: string)
    | Redeclared(name: string)
    | LeftMain                     // return outside any function
    | Garbled                      // a for header whose parts were exchanged twice
    | EmptyStack                   // a hook reads from an empty stack
    | ContinuedWhileMet            // a marked while token that no rule of the grammar can take
    | WhileSwallowed               // a marked while token taken for an iteration of an inner while

  predicate OfMachineOnly(why: Reason) {
    why == Garbled || why == EmptyStack || why == ContinuedWhileMet || why == WhileSwallowed
  }

  datatype Result<+T> = Done(value: T) | Halt(why: Reason, trace: Trace) | Timeout {
    predicate IsFailure() { !Done? }
    function PropagateFailure<U>(): Result<U>
      requires !Done?
    {
      match this
      case Halt(why, trace) => Halt(why, trace)
      case Timeout => Timeout
    }
    function Extract(): T
      requires Done?
    {
      value
    }
  }

  datatype Env = Env(trace: Trace, functions: map<string, Stmt>) {
    function Log(e: Event): Env { this.(trace := trace + [e]) }
  }

  /** How a statement completes: break and continue say how many enclosing loops or switches
      they still have to leave. */
  datatype Outcome = Normal | Broke(levels: int) | Continued(levels: int) | Returned(value: Value)

  /** What a loop or switch makes of an outcome of its body that it does not consume. */
  function Outward(out: Outcome): Outcome {
    match out
    case Broke(k) => Broke(k - 1)
    case Continued(k) => Continued(k - 1)
    case _ => out
  }

  predicate Iterates(out: Outcome) { out == Normal || out == Continued(1) }

  /** An outcome that can leave a statement nested in `depth` loops and switches. */
  predicate Legal(out: Outcome, depth: nat, inFunction: bool) {
    match out
    case Normal => true
    case Broke(k) => 1 <= k <= depth
    case Continued(k) => 1 <= k <= depth
    case Returned(_) => inFunction
  }

  predicate Sound(r: Result<(Env, Outcome)>, depth: nat, inFunction: bool) {
    && (r.Done? ==> Legal(r.value.1, depth, inFunction))
    && (r.Halt? ==> !OfMachineOnly(r.why))
  }

  predicate Proper<T>(r: Result<T>) {
    r.Halt? ==> !OfMachineOnly(r.why)
  }

  function Eval(m: Meaning, e: Expr, env: Env, fuel: nat): (r: Result<(Env, Value)>)
    ensures Proper(r)
    decreases fuel, e
  {
    match e
    case Empty => Done((env, Num(1)))
    case Atom(id) =>
      var after := env.Log(Evaluated(id));
      Done((after, m.value(after.trace, id)))
    case Op(id, operands) =>
      var env1 :- EvalArgs(m, operands, env, fuel);
      var after := env1.Log(Evaluated(id));
      Done((after, m.value(after.trace, id)))
    case Or(a, b) =>
      var (env1, v) :- Eval(m, a, env, fuel);
      if IsTrue(m, v) then Done((env1, Bool(true)))
      else
        var (env2, w) :- Eval(m, b, env1, fuel);
        Done((env2, Bool(IsTrue(m, w))))
    case And(a, b) =>
      var (env1, v) :- Eval(m, a, env, fuel);
      if !IsTrue(m, v) then Done((env1, Bool(false)))
      else
        var (env2, w) :- Eval(m, b, env1, fuel);
        Done((env2, Bool(IsTrue(m, w))))
    case Ternary(c, a, b) =>
      var (env1, v) :- Eval(m, c, env, fuel);
      Eval(m, if IsTrue(m, v) then a else b, env1, fuel)
    case Call(name, args) =>
      if name !in env.functions then Halt(Undefined(name), env.trace)
      else
        var body := env.functions[name];
        var env1 :- EvalArgs(m, args, env, fuel);
        if fuel == 0 then Timeout
        else
          var (env2, out) :- Exec(m, body, env1.Log(Entered(name)), 0, true, fuel - 1);
          var result := if out.Returned? then out.value else Null;
          Done((env2.Log(Left(result)), result))
  }

  function EvalArgs(m: Meaning, args: Exprs, env: Env, fuel: nat): (r: Result<Env>)
    ensures Proper(r)
    decreases fuel, args
  {
    match args
    case NoArgs => Done(env)
    case Arg(e, rest) =>
      var (env1, v) :- Eval(m, e, env, fuel);
      EvalArgs(m, rest, env1.Log(Passed(v)), fuel)
  }

  /** Executes a statement nested in `depth` loops and switches of its function. */
  function Exec(m: Meaning, st: Stmt, env: Env, depth: nat, inFunction: bool, fuel: nat)
    : (r: Result<(Env, Outcome)>)
    ensures Sound(r, depth, inFunction)
    decreases fuel, st, 2
  {
    match st
    case Nop => Done((env, Normal))
    case Seq(a, b) =>
      var (env1, out) :- Exec(m, a, env, depth, inFunction, fuel);
      if out.Normal? then Exec(m, b, env1, depth, inFunction, fuel) else Done((env1, out))
    case Block(body) => Exec(m, body, env, depth, inFunction, fuel)
    case Do(e) =>
      var (env1, _) :- Eval(m, e, env, fuel);
      Done((env1, Normal))
    case If(c, thn, tail) =>
      var (env1, v) :- Eval(m, c, env, fuel);
      if IsTrue(m, v) then Exec(m, thn, env1, depth, inFunction, fuel)
      else ExecTail(m, tail, env1, depth, inFunction, fuel)
    case While(_, _, _) => ExecWhile(m, st, env, depth, inFunction, fuel)
    case DoWhile(_, _) => ExecDoWhile(m, st, env, depth, inFunction, fuel)
    case For(_, init, _, _, _) =>
      var (env1, _) :- Eval(m, init, env, fuel);
      ExecFor(m, st, env1, depth, inFunction, fuel)
    case Switch(_, _, _) => ExecSwitch(m, st, env, depth, inFunction, fuel)
    case Break(levels) =>
      var (env1, k) :- Levels(m, levels, env, fuel);
      if 1 <= k <= depth then Done((env1, Broke(k))) else Halt(BadLevel, env1.trace)
    case Continue(levels) =>
      var (env1, k) :- Levels(m, levels, env, fuel);
      if 1 <= k <= depth then Done((env1, Continued(k))) else Halt(BadLevel, env1.trace)
    case Return(e) =>
      if e.None? then
        if inFunction then Done((env, Returned(Null))) else Halt(LeftMain, env.trace)
      else
        var (env1, v) :- Eval(m, e.value, env, fuel);
        if inFunction then Done((env1, Returned(v))) else Halt(LeftMain, env1.Log(Printed(v)).trace)
    case Declare(name, body) =>
      if name in env.functions then Halt(Redeclared(name), env.trace)
      else Done((env.(functions := env.functions[name := body]), Normal))
  }

  /** The operand of break and continue; none means one level. */
  function Levels(m: Meaning, levels: Option<Expr>, env: Env, fuel: nat): (r: Result<(Env, int)>)
    ensures Proper(r)
    decreases fuel, levels
  {
    match levels
    case None => Done((env, 1))
    case Some(e) =>
      var (env1, v) :- Eval(m, e, env, fuel);
      Done((env1, ToLong(m, v)))
  }

  /** The outcome of a loop whose body ended it with `out`. */
  function LoopOutcome(out: Outcome): Outcome { if out == Broke(1) then Normal else Outward(out) }

  function ExecWhile(m: Meaning, st: Stmt, env: Env, depth: nat, inFunction: bool, fuel: nat)
    : (r: Result<(Env, Outcome)>)
    requires st.While?
    ensures Sound(r, depth, inFunction)
    decreases fuel, st, 1
  {
    var (env1, v) :- Eval(m, st.cond, env, fuel);
    if !IsTrue(m, v) then Done((env1, Normal))
    else
      var (env2, out) :- Exec(m, st.body, env1, depth + 1, inFunction, fuel);
      if !Iterates(out) then Done((env2, LoopOutcome(out)))
      else if fuel == 0 then Timeout
      else ExecWhile(m, st, env2, depth, inFunction, fuel - 1)
  }

  function ExecDoWhile(m: Meaning, st: Stmt, env: Env, depth: nat, inFunction: bool, fuel: nat)
    : (r: Result<(Env, Outcome)>)
    requires st.DoWhile?
    ensures Sound(r, depth, inFunction)
    decreases fuel, st, 1
  {
    var (env1, out) :- Exec(m, st.body, env, depth + 1, inFunction, fuel);
    if !Iterates(out) then Done((env1, LoopOutcome(out)))
    else
      var (env2, v) :- Eval(m, st.cond, env1, fuel);
      if !IsTrue(m, v) then Done((env2, Normal))
      else if fuel == 0 then Timeout
      else ExecDoWhile(m, st, env2, depth, inFunction, fuel - 1)
  }

  /** What a pass over a `for` starts with: the initialisation on entry, the step afterwards;
      then the condition. */
  function Header(m: Meaning, st: Stmt, first: bool, env: Env, fuel: nat): Result<(Env, Value)>
    requires st.For?
  {
    var (env1, _) :- Eval(m, if first then st.init else st.step, env, fuel);
    Eval(m, st.cond, env1, fuel)
  }

  /** Condition, body, step, in source order, until the condition fails. */
  function ExecFor(m: Meaning, st: Stmt, env: Env, depth: nat, inFunction: bool, fuel: nat)
    : (r: Result<(Env, Outcome)>)
    requires st.For?
    ensures Sound(r, depth, inFunction)
    decreases fuel, st, 1
  {
    var (env1, v) :- Eval(m, st.cond, env, fuel);
    if IsTrue(m, v) then ExecForBody(m, st, env1, depth, inFunction, fuel) else Done((env1, Normal))
  }

  function ExecForBody(m: Meaning, st: Stmt, env: Env, depth: nat, inFunction: bool, fuel: nat)
    : (r: Result<(Env, Outcome)>)
    requires st.For?
    ensures Sound(r, depth, inFunction)
    decreases fuel, st, 0
  {
    var (env1, out) :- Exec(m, st.body, env, depth + 1, inFunction, fuel);
    if !Iterates(out) then Done((env1, LoopOutcome(out)))
    else if fuel == 0 then Timeout
    else
      var (env2, _) :- Eval(m, st.step, env1, fuel - 1);
      ExecFor(m, st, env2, depth, inFunction, fuel - 1)
  }

  function ExecSwitch(m: Meaning, st: Stmt, env: Env, depth: nat, inFunction: bool, fuel: nat)
    : (r: Result<(Env, Outcome)>)
    requires st.Switch?
    ensures Sound(r, depth, inFunction)
    decreases fuel, st, 1
  {
    var (env1, v) :- Eval(m, st.subject, env, fuel);
    var (env2, out) :- Select(m, st.cases, v, env1, depth + 1, inFunction, fuel);
    Done((env2, if out == Broke(1) || out == Continued(1) then Normal else Outward(out)))
  }

  /** The first branch whose condition holds, else the else branch, else nothing. */
  function ExecTail(m: Meaning, t: IfTail, env: Env, depth: nat, inFunction: bool, fuel: nat)
    : (r: Result<(Env, Outcome)>)
    ensures Sound(r, depth, inFunction)
    decreases fuel, t, 1
  {
    match t
    case EndIf => Done((env, Normal))
    case Else(body) => Exec(m, body, env, depth, inFunction, fuel)
    case ElseIf(c, body, rest) =>
      var (env1, v) :- Eval(m, c, env, fuel);
      if IsTrue(m, v) then Exec(m, body, env1, depth, inFunction, fuel)
      else ExecTail(m, rest, env1, depth, inFunction, fuel)
  }

  /** Labels are tried in source order until one equals the subject; `default` always matches. */
  function Select(m: Meaning, cs: Cases, subject: Value, env: Env, depth: nat, inFunction: bool, fuel: nat)
    : (r: Result<(Env, Outcome)>)
    ensures Sound(r, depth, inFunction)
    decreases fuel, cs, 1
  {
    match cs
    case EndCases => Done((env, Normal))
    case Default(body) => Exec(m, body, env, depth, inFunction, fuel)
    case Case(key, body, rest) =>
      var (env1, v) :- Eval(m, key, env, fuel);
      if m.equal(subject, v) then
        var (env2, out) :- Exec(m, body, env1, depth, inFunction, fuel);
        if out.Normal? then FallThrough(m, rest, env2, depth, inFunction, fuel) else Done((env2, out))
      else Select(m, rest, subject, env1, depth, inFunction, fuel)
  }

  /** After the match every body runs.  A label fallen through is still evaluated, for its effects. */
  function FallThrough(m: Meaning, cs: Cases, env: Env, depth: nat, inFunction: bool, fuel: nat)
    : (r: Result<(Env, Outcome)>)
    ensures Sound(r, depth, inFunction)
    decreases fuel, cs, 0
  {
    match cs
    case EndCases => Done((env, Normal))
    case Default(body) => Exec(m, body, env, depth, inFunction, fuel)
    case Case(key, body, rest) =>
      var (env1, _) :- Eval(m, key, env, fuel);
      var (env2, out) :- Exec(m, body, env1, depth, inFunction, fuel);
      if out.Normal? then FallThrough(m, rest, env2, depth, inFunction, fuel) else Done((env2, out))
  }
}
