# Control machine, configuration parser and memory manager of PHP 3

A Dafny model of three parts of the PHP 3 interpreter and the proofs of what they promise.

1. **Execution while parsing.** PHP 3 builds no syntax tree. The parser calls hooks as it walks over the
   tokens; a gate decides whether each action has an effect, loops send the parser back in the token cache, and
   the second and third parts of a `for` header are exchanged after the first pass. `ControlHooks` has every hook
   as a state transformer, `ControlMachineModule` performs them in place, `ParserDriver` calls them in grammar
   order, `StructuredSemantics` is an ordinary big-step semantics without flags, and `ReferenceLaws` says what it
   does in independent terms. `ControlSkipping` and `ControlRefinement` prove that machine and
   semantics agree; `ControlMarks`, `ControlTracking` and `ControlCallGraph` say exactly where they do not, and
   `TextPlaces` and `ControlPlaces` what the place of a `while` in its text has to do with it; `ControlTheorems` has
   the results and `ControlRuns` states them for the running machine. What an expression without control flow
   computes is an arbitrary function of everything that happened before it, so any store and any library is an
   instance.
2. **The configuration parser.** The packed LALR(1) tables and the token map literally, the driver loop over array
   stacks, the actions, the grammar by derivation trees and by token codes (`ConfigCodes`), what the lines of a file
   leave in the store (`ConfigFiles`), the translation of browscap globs, and the lookup of a browser in what the
   parser has stored (`BrowscapLookup`).
3. **The request memory manager.** The intrusive list, the caches by size, the accounting, the shutdown, and
   whole requests of arbitrary legal calls.

## What does not hold

The proofs found these places where the code does not do what one would expect. Each is stated exactly.

- A `while` that has been sent back keeps the token type CONTINUED_WHILE until its condition has been evaluated
  again. A call in that condition to a function whose text holds the same loop meets the mark. If the loop directly
  follows another loop there, the parser takes it for an iteration of that one, with the same effect; otherwise no
  rule of the grammar can take it and parsing stops. `ControlMarks` follows the marks in the structured semantics;
  a tidy script that the semantics completes runs as written if and only if the semantics calls no function whose
  text a mark stops; and a script has no such run if no call in the condition of a `while` can lead to such a
  function. A script is tidy if no `while` directly follows an unbraced statement that ends in a `while`; in one
  that is not, a marked loop behind `if (p) while (a);` is taken into the branch.
- The same recursion is harmless for `for`, because a declaration walks over the function body and so exchanges
  every header in it before the first call.
- `cs_switch_end` clears the pending change but leaves its level, and compares the level without looking at the type
  of the change. Without a pending change that comparison only clears what is clear already, so it has no effect.
- Labels of a switch that are fallen through are still evaluated.
- The translation of a browscap pattern copies a backslash, which then escapes what follows. Only patterns with a `*`
  are compiled: one without wildcards is found by its exact name, which is what it stands for, but one with `?` and
  no `*` is translated and then never matched. The search is content with a part of the name, so one with a `*`
  means what it says only if it is wide open at both ends.
- The buffer of a translated browscap pattern is twice the pattern's length; the terminating zero fits if and
  only if some character is neither `*` nor `.`.
- A browscap setting before the first section header is stored through a section pointer that is not set.
- `_emalloc` allocates one fixed size whatever is asked for. With the constants of the repository this size is
  not below MAX_CACHED_MEMORY, so it never takes a block from a cache; the model keeps the constants as parameters
  and proves both branches.

Lemmas carry `{:induction false}` throughout: every induction is written out.

## Model

| member | source | states |
|---|---|---|
| `ControlRuns.RunScript` | src/php-src/language-parser.y:267-419 | A whole script run by the in-place machine from the start of a request ends as the flag-free structured semantics says (same history, same functions declared, same error and history at the error) whenever the semantics calls no function that a mark stops, and for a tidy script that the semantics completes exactly then; for every script whose call graph is safe, always |
| `ControlTheorems.ScriptsRunExactly` | src/php-src/control_structures_inline.h:208-1061 | The same for the state transformers: a completed script leaves every stack empty, the nesting level 0, no token marked and the gate open; a tidy script that does not run as written stops at a `while` token that no rule of the grammar can take |
| `ControlTheorems.ScriptsRunAsWritten` | src/php-src/control_structures_inline.h:208-1061 | Every script in which no call in the condition of a `while` can lead, by the calls functions make to each other, to a function whose text the mark of that `while` stops runs as written |
| `ControlTheorems.AgreesExactly` | src/php-src/control_structures_inline.h:208-679 | For any statement from any consistent state: if no mark stops its text and the semantics calls no function whose text a mark stops, machine and semantics agree; in a tidy script, when the semantics completes, only then; the marks followed are those of the semantics |
| `ControlRefinement.RefineStmt` | src/php-src/control_structures_inline.h:208-679 | For every statement, from every consistent state with the gate open: the hooks in grammar order, with re-walks for the jumps back, give the history and the outcome (normal, break n, continue n, return v) of the structured semantics, leave all stacks and the nesting level as they were, add no mark, and encode the outcome in flag, gate and change registers; unless a mark stops the walk |
| `ControlTheorems.AgreesUnlessStopped` | src/php-src/control_structures_inline.h:208-248 | Without a marked `while` that stops it or leads it astray the machine agrees; stopped at one that no rule can take it does not; in particular no `for` header is garbled and no stack runs empty |
| `ControlTracking.TrackStmt` | src/php-src/control_structures_inline.h:226-248 | The machine has the marks the semantics computes; it completes a text only if no stop in it is marked, and comes to a mark only if one is or the semantics calls such a function; only marks of loops that directly follow a loop are lost; in a tidy script none is swallowed |
| `ControlTracking.TrackCall` | src/php-src/control_structures_inline.h:826-985 | The same across a call, whose whole text is walked over |
| `ControlMarks.MarksWhile` | src/php-src/control_structures_inline.h:208-248 | The mark of a `while` is gone when the loop ends |
| `ControlCallGraph.CallGraphSuffices` | src/php-src/control_structures_inline.h:826-937 | With a safe call graph no run, of any length, calls a function that a mark stops |
| `ControlCallGraph.SafeStmt` | src/php-src/control_structures_inline.h:826-937 | The same from any set of marks that no call in the text can lead to |
| `ControlTheorems.AbsorbingScriptRuns` | src/php-src/language-parser.y:330-333 | A function that calls itself in the condition of a loop directly behind another loop runs as written: the marked loop is taken for an iteration of the loop before it |
| `ControlTheorems.UnsafeScriptStops` | src/php-src/control_structures_inline.h:226-236 | A function that calls itself in the condition of the loop its body begins with: the semantics completes the script and the machine stops at the marked token |
| `ControlTheorems.UnsafeScriptCompletes` | src/php-src/control_structures_inline.h:208-248 | The semantics does complete it, calling a function that a mark stops |
| `ControlSkipping.SkipStmt` | src/php-src/control_structures_inline.h:208-679 | A statement walked with the gate shut changes nothing but exchanges the `for` headers in its text, unless a mark stops the walk, which in a tidy text is at a token no rule can take; so no loop or switch first met while skipping consumes a pending break or continue |
| `ControlSkipping.SkipExpr` | src/php-src/control_structures_inline.h:747-985 | A skipped expression changes nothing |
| `ControlSkipping.SkipCases` | src/php-src/control_structures_inline.h:1003-1039 | Skipped cases change nothing but the headers in them, unless a mark stops the walk |
| `ControlRefinement.TailAfterBranch` | src/php-src/control_structures_inline.h:362-413 | Once a branch has run, however it completed, no further condition is evaluated and no further branch runs, unless a mark stops the walk |
| `ControlRefinement.RefineTail` | src/php-src/control_structures_inline.h:362-413 | A chain still looking runs the first branch whose condition holds, else the else branch, else nothing |
| `ControlRefinement.RefineWhileStatement` | src/php-src/language-parser.y:277-277 | A `while`, marked or not, and the look at the token behind it |
| `ControlRefinement.RefineWhile` | src/php-src/control_structures_inline.h:208-249 | All iterations of a `while`, including break and continue aimed at it or past it |
| `ControlRefinement.WhileEnds` | src/php-src/control_structures_inline.h:226-249 | The end of a pass jumps back exactly when another pass is due, and otherwise leaves with what is left of the outcome |
| `ControlRefinement.RefineDoWhile` | src/php-src/control_structures_inline.h:252-298 | All iterations of a `do`; a continue aimed at it still evaluates the condition |
| `ControlRefinement.LoopExit` | src/php-src/control_structures_inline.h:226-249 | A pending change is the one aimed here if and only if the outcome is break 1 or continue 1; it is consumed exactly then and otherwise passed outward with one level less |
| `ControlRefinement.RefineHeader` | src/php-src/control_structures_inline.h:534-606 | The header of a `for`, exchanged or not, first pass or later: init or step is effectively evaluated, then the condition, and nothing else |
| `ControlRefinement.RefineFor` | src/php-src/control_structures_inline.h:534-650 | Every entry to a `for`, first ever or with its header exchanged before: init once, then condition, body, step in source order; the `for` stack is left as it was found |
| `ControlRefinement.ForEnds` | src/php-src/control_structures_inline.h:609-650 | The end of a pass jumps back, with the position on the `for` stack, exactly when another pass is due; the last one leaves the `for` stack as the loop found it |
| `ControlRefinement.ForStops` | src/php-src/control_structures_inline.h:609-650 | So does a pass whose condition fails |
| `ControlRefinement.RefineSwitch` | src/php-src/control_structures_inline.h:988-1061 | A switch runs from the first matching label by fall-through, and a break or continue aimed at it stops there |
| `ControlRefinement.RefineSelect` | src/php-src/control_structures_inline.h:1003-1039 | Before a match: labels are evaluated in source order, bodies of labels that differ from the subject are skipped |
| `ControlRefinement.RefineFallThrough` | src/php-src/control_structures_inline.h:1003-1039 | After a match: every body runs, and labels fallen through are still evaluated |
| `ControlRefinement.SwitchExit` | src/php-src/control_structures_inline.h:1042-1061 | A break or continue aimed at the switch ends there as a normal completion; any other outcome passes outward |
| `ControlRefinement.RefineCall` | src/php-src/control_structures_inline.h:826-985 | A user function call has the effect and the value of its body run on its own |
| `ControlRefinement.ReturnFromCall` | src/php-src/control_structures_inline.h:939-985 | The caller gets back its stacks, function state, flag and gate, the -1 marker ending the unwinding of the `for` stack |
| `ControlTheorems.CallIsolation` | src/php-src/control_structures_inline.h:826-985 | The same for run and skipped calls together |
| `ControlTheorems.StatementsBalance` | src/php-src/control_structures_inline.h:208-679 | Every complete statement, run or skipped, restores stacks and nesting level, adds no mark, keeps a pending change aimed at an open loop, and restores the flag unless the function has returned |
| `ControlRefinement.RefineExpr` | src/php-src/control_structures_inline.h:747-985 | Strict operators, boolean operators, the ternary operator and calls evaluate exactly the operands the structured semantics evaluates |
| `ControlRefinement.RefineDeclare` | src/php-src/control_structures_inline.h:491-530 | A declaration walks over the body with the gate shut, so that every `for` of a declared function is exchanged before the first call |
| `ControlTheorems.LoopHooksKeepGate` | src/php-src/control_structures_inline.h:208-298 | After each while, do and switch hook the gate is SHOULD_EXECUTE of the state |
| `ControlTheorems.ForHooksKeepGate` | src/php-src/control_structures_inline.h:534-606 | After each hook of a `for` header |
| `ControlTheorems.LeavingSetsGate` | src/php-src/control_structures_inline.h:609-650 | After the end of a `for` pass, whatever the gate was |
| `ControlTheorems.BranchHooksKeepGate` | src/php-src/control_structures_inline.h:301-413 | After each if, elseif, else, boolean and ternary hook |
| `ControlTheorems.JumpHooksKeepGate` | src/php-src/control_structures_inline.h:329-359 | After break, continue, return, the end of a call and the start of a declaration |
| `ControlTheorems.CallHooksKeepGate` | src/php-src/control_structures_inline.h:826-937 | After the hooks before, between and after the arguments of a call, and the end of a declaration |
| `ControlTheorems.BreakLeavesThemAll` | src/php-src/control_structures_inline.h:329-359 | A script that is `break n` inside n loops and switches of any kind ends on the machine after what is evaluated on the way in and the operand |
| `ReferenceLaws.LevelLaw` | src/php-src/control_structures_inline.h:329-359 | The operand of break and continue counts levels: a number n between 1 and the depth leaves n, any other and Null, which converts to 0, is an error; no operand means one |
| `ReferenceLaws.LeaveAll` | src/php-src/control_structures_inline.h:226-359 | `break n` inside at most n loops and switches of any kind leaves them all and goes on outward with what is left of n; so does `continue n` inside fewer |
| `ReferenceLaws.TruthLaw` | src/php-src/control_structures_inline.h:301-317 | Null and the number 0 are false, every other number is true |
| `ReferenceLaws.BooleanLaw` | src/php-src/control_structures_inline.h:747-786 | `||` and `&&` give 1 or 0 and evaluate the right operand only when it decides |
| `ReferenceLaws.AtomLaw` | src/php-src/language-parser.y:497-530 | Evaluating appends one event to the history |
| `ReferenceLaws.StmtAppends` | src/php-src/language-parser.y:267-419 | Whatever runs only appends to the history, also when it ends in an error |
| `ControlPlaces.ListsHaveNoNesting` | src/php-src/language-parser.y:267-270 | A statement list is walked over in the same way however the list rule has grouped it |
| `ControlPlaces.MeaningHasNoNesting` | src/php-src/language-parser.y:267-270 | ... and has the same meaning |
| `ControlPlaces.MarksHaveNoNesting` | src/php-src/language-parser.y:267-270 | ... and leaves the same marks |
| `ControlPlaces.StopsHaveNoNesting` | src/php-src/language-parser.y:267-270 | ... and the same marks stop it |
| `ControlPlaces.LoopBehindLoop` | src/php-src/language-parser.y:330-333 | A `while` directly behind any list that ends in a loop with a closed body is walked over, marked or not |
| `ControlPlaces.SkippedWithMarks` | src/php-src/language-parser.y:330-333 | With the gate shut a text whose only marks are on loops behind loops is walked to its end |
| `ControlPlaces.SkippedLoopBehindLoop` | src/php-src/language-parser.y:330-333 | ... such as a list that ends in a loop in front of a marked loop, however it is grouped |
| `ControlPlaces.MarkStopsElsewhere` | src/php-src/language-parser.y:273-311 | A marked `while` at the start of a text, or behind a statement that is no loop, stops the walk |
| `ControlPlaces.MarkIsSwallowed` | src/php-src/language-parser.y:330-333 | A marked `while` behind an if, elseif, else or while whose unbraced body is a loop is swallowed by that loop |
| `TextPlaces.StopsFollowNoLoop` | src/php-src/language-parser.y:325-333 | In a text whose `while` keywords each have a position of their own, no keyword both stops the parser when marked and directly follows a loop |
| `TextPlaces.LoopTakesTheNext` | src/php-src/language-parser.y:330-333 | A list that ends in a closed loop takes a `while` directly behind it, which is then no stop |
| `TextPlaces.ClosedLooksNoFurther` | src/php-src/language-parser.y:330-333 | Only a statement whose last token is that of an open loop looks at the keyword behind it |
| `ControlTheorems.TextsAreWellPlaced` | src/php-src/language-parser.y:325-333 | So what the theorems ask of a script holds of every text in which each `for` and `while` has its own position |
| `ReferenceFuel.MoreFuel` | src/php-src/language-parser.y:267-419 | The structured semantics gives one result: a run not cut short is the same with any more fuel |
| `ControlMachineModule.ControlMachine.constructor` | src/php-src/main.c:647-656 | The state in which a request starts |
| `ControlMachineModule.ControlMachine.StartWhile` | src/php-src/control_structures_inline.h:208-224 | The hook as a transformer of the whole state: enters the loop, clears the mark and sets the flag from the condition when executing |
| `ControlMachineModule.ControlMachine.EndWhile` | src/php-src/control_structures_inline.h:226-249 | Marks the token and jumps back when executing or continued; consumes a change aimed here; restores the flag |
| `ControlMachineModule.ControlMachine.StartDoWhile` | src/php-src/control_structures_inline.h:252-259 | Enters the loop |
| `ControlMachineModule.ControlMachine.ForceEvalDoWhile` | src/php-src/control_structures_inline.h:263-272 | Turns a continue aimed here into normal execution |
| `ControlMachineModule.ControlMachine.EndDoWhile` | src/php-src/control_structures_inline.h:275-298 | Jumps back when executing and the condition holds; consumes a change aimed here |
| `ControlMachineModule.ControlMachine.StartIf` | src/php-src/control_structures_inline.h:301-317 | Opens a chain: EXECUTE, BEFORE_EXECUTE or, when skipping, DONT_EXECUTE |
| `ControlMachineModule.ControlMachine.EndIf` | src/php-src/control_structures_inline.h:320-326 | Restores the flag |
| `ControlMachineModule.ControlMachine.BreakContinue` | src/php-src/control_structures_inline.h:329-359 | Level arithmetic, the error for a level out of range, and the shut gate |
| `ControlMachineModule.ControlMachine.ElseifStartEvaluate` | src/php-src/control_structures_inline.h:362-376 | Opens the gate for the condition only in a chain still looking whose context executes |
| `ControlMachineModule.ControlMachine.ElseifEndEvaluate` | src/php-src/control_structures_inline.h:379-384 | Restores the chain flag |
| `ControlMachineModule.ControlMachine.StartElseif` | src/php-src/control_structures_inline.h:387-400 | Closes an executed branch; takes this one if none was taken and the condition holds |
| `ControlMachineModule.ControlMachine.StartElse` | src/php-src/control_structures_inline.h:403-413 | Closes an executed branch; takes this one if none was taken |
| `ControlMachineModule.ControlMachine.StartDeclaration` | src/php-src/control_structures_inline.h:491-497 | Shuts the gate over the body |
| `ControlMachineModule.ControlMachine.EndDeclaration` | src/php-src/control_structures_inline.h:500-530 | Declares the function when executing; redeclaring is an error |
| `ControlMachineModule.ControlMachine.ForPreExpr1` | src/php-src/control_structures_inline.h:534-549 | Enters the loop; init is skipped on later passes |
| `ControlMachineModule.ControlMachine.ForPreExpr2` | src/php-src/control_structures_inline.h:552-564 | The part in second place is skipped on the first pass over an exchanged header |
| `ControlMachineModule.ControlMachine.ForPreExpr3` | src/php-src/control_structures_inline.h:567-578 | The part in third place is skipped while the header is not exchanged |
| `ControlMachineModule.ControlMachine.ForPreStatement` | src/php-src/control_structures_inline.h:581-606 | The flag from the condition, taken from the place it is in |
| `ControlMachineModule.ControlMachine.ForPostStatement` | src/php-src/control_structures_inline.h:609-650 | Exchanges the header once, pushes and pops the `for` stack, jumps back or leaves |
| `ControlMachineModule.ControlMachine.CsReturn` | src/php-src/control_structures_inline.h:653-679 | Return value and returned flag inside a function; in the main text the end of the script, printing the operand |
| `ControlMachineModule.ControlMachine.PreOr` | src/php-src/control_structures_inline.h:747-754 | The right operand is skipped when the left one is true |
| `ControlMachineModule.ControlMachine.PostOr` | src/php-src/control_structures_inline.h:757-765 | Restores the flag and gives the disjunction |
| `ControlMachineModule.ControlMachine.PreAnd` | src/php-src/control_structures_inline.h:768-775 | The right operand is skipped when the left one is false |
| `ControlMachineModule.ControlMachine.PostAnd` | src/php-src/control_structures_inline.h:778-786 | Restores the flag and gives the conjunction |
| `ControlMachineModule.ControlMachine.PreYes` | src/php-src/control_structures_inline.h:789-796 | The first branch is skipped when the test fails |
| `ControlMachineModule.ControlMachine.PreNo` | src/php-src/control_structures_inline.h:799-807 | The second branch is skipped when the test holds |
| `ControlMachineModule.ControlMachine.PostNo` | src/php-src/control_structures_inline.h:810-823 | Restores the flag and gives the branch taken |
| `ControlMachineModule.ControlMachine.PreVariablePassing` | src/php-src/control_structures_inline.h:826-910 | Finds the function, pushes the marker and the function state; an undefined function is an error |
| `ControlMachineModule.ControlMachine.PostVariablePassing` | src/php-src/control_structures_inline.h:912-937 | Saves the flag and resets the loop registers for the callee |
| `ControlMachineModule.ControlMachine.FunctioncallEnd` | src/php-src/control_structures_inline.h:939-985 | Unwinds the `for` stack to the marker and restores the caller |
| `ControlMachineModule.ControlMachine.SwitchStart` | src/php-src/control_structures_inline.h:988-1000 | Enters the switch and pushes its subject |
| `ControlMachineModule.ControlMachine.SwitchCasePre` | src/php-src/control_structures_inline.h:1003-1032 | Decides whether a body runs, marking the switch as matched |
| `ControlMachineModule.ControlMachine.SwitchCasePost` | src/php-src/control_structures_inline.h:1035-1039 | Restores the flag |
| `ControlMachineModule.ControlMachine.SwitchEnd` | src/php-src/control_structures_inline.h:1042-1061 | Consumes a change aimed here and restores the flag; the change level is left stale |
| `ControlMachineModule.ControlMachine.Statement` | src/php-src/language-parser.y:267-316 | A statement walked by the machine at its place in the text, where a marked while that directly follows a while is an iteration, has exactly the effect of the driver function, which the refinement relates to the semantics |
| `ControlMachineModule.ControlMachine.PastWhile` | src/php-src/language-parser.y:330-333 | The token behind a `while`: a marked `while` behind an enclosing statement would be taken here |
| `ControlMachineModule.ControlMachine.IfStatement` | src/php-src/language-parser.y:275-276 | The order of the hooks of an if chain |
| `ControlMachineModule.ControlMachine.Tail` | src/php-src/language-parser.y:352-375 | The order of the hooks of elseif and else |
| `ControlMachineModule.ControlMachine.WhileStatement` | src/php-src/language-parser.y:325-333 | The order of the hooks of a while and of its own iterations; a marked while behind it is walked by Statement, as an iteration |
| `ControlMachineModule.ControlMachine.DoStatement` | src/php-src/language-parser.y:336-339 | The order of the hooks of a do and its iterations |
| `ControlMachineModule.ControlMachine.ForStatement` | src/php-src/language-parser.y:279-282 | The order of the hooks of a for |
| `ControlMachineModule.ControlMachine.ForHeader` | src/php-src/language-parser.y:279-282 | The three header hooks around the parts as they stand in the token cache |
| `ControlMachineModule.ControlMachine.ForBody` | src/php-src/language-parser.y:342-350 | The body, the end of the pass and further passes |
| `ControlMachineModule.ControlMachine.SwitchStatement` | src/php-src/language-parser.y:283-283 | The order of the hooks of a switch |
| `ControlMachineModule.ControlMachine.CaseList` | src/php-src/language-parser.y:378-385 | The order of the hooks of case and default |
| `ControlMachineModule.ControlMachine.Expr` | src/php-src/language-parser.y:497-530 | The order of the hooks of boolean operators |
| `ControlMachineModule.ControlMachine.TernaryExpr` | src/php-src/language-parser.y:525-527 | The order of the hooks of the ternary operator |
| `ControlMachineModule.ControlMachine.CallExpr` | src/php-src/language-parser.y:528-530 | The order of the hooks of a call |
| `ConfigParser.CfgParse` | src/php-src/configuration-parser.tab.c:1363-1804 | The table-driven parser: returns 0 if and only if the tokens derive from statement_list, and if and only if their codes form statements; the store is the initial one updated left to right by the complete statements read, also after an error; at most one error is reported; a rejecting run has shifted exactly the tokens before the first offending one; an accepting run takes exactly the moves its statements need, at most 4n + 2, and its stack grows to exactly three or five states; never more than five |
| `ConfigCodes.AcceptedByCodes` | src/php-src/configuration-parser.tab.c:722-751 | What derives from the grammar, in terms of the codes the scanner returns |
| `ConfigCodes.TranslateIsTable` | src/php-src/configuration-parser.tab.c:722-751 | The symbol of every code is its entry in yytranslate, and the undefined symbol beyond the vector |
| `ConfigGrammar.ReadIsDerivation` | src/php-src/configuration-parser.y:333-392 | Reading statement by statement accepts exactly the sequences with a derivation tree of the grammar |
| `ConfigGrammar.ListRead` | src/php-src/configuration-parser.y:333-392 | Completeness: whatever a tree derives is read |
| `ConfigGrammar.ListDerived` | src/php-src/configuration-parser.y:333-392 | Soundness: whatever is read extends a derivation |
| `ConfigGrammar.StatementYield` | src/php-src/configuration-parser.y:338-392 | The shapes of the statements the grammar derives |
| `ConfigTables.UnpackLookup` | src/php-src/configuration-parser.tab.c:795-840 | The packed tables, with bounds test, check vector and default reductions, are the automaton spelled out |
| `ConfigTables.TablesFitGrammar` | src/php-src/configuration-parser.tab.c:795-857 | Rule lengths and left-hand sides are those of the grammar, rule by rule, and no entry handles the error token |
| `ConfigParser.ShiftMove` | src/php-src/configuration-parser.tab.c:1442-1505 | A shift consumes the next token and keeps what is to be read |
| `ConfigParser.ReduceStack` | src/php-src/configuration-parser.tab.c:1518-1664 | A reduction pops the right-hand side of its rule and goes where yypgoto, yycheck and yydefgoto say |
| `ConfigParser.ReduceMove` | src/php-src/configuration-parser.tab.c:1518-1664 | A reduction keeps what is to be read, its action applies the statement it completes, and it uses up potential |
| `ConfigParser.ErrorMove` | src/php-src/configuration-parser.tab.c:1505-1516 | An error is signalled at the first offending token, where no complete statement can be read any more |
| `ConfigParser.Act` | src/php-src/configuration-parser.tab.c:1534-1630 | The actions of rules 4 to 14 update the store as the statement meanings say |
| `ConfigParser.Rejected` | src/php-src/configuration-parser.tab.c:1672-1804 | What an error says of the run before it: the tokens shifted are those before the offending one, and the store holds the complete statements |
| `ConfigParser.PopAndPush` | src/php-src/configuration-parser.tab.c:1518-1664 | The pops, the action and the push on the two array stacks |
| `ConfigParser.Backup` | src/php-src/configuration-parser.tab.c:1442-1505 | The action taken, reading a token only if the state needs one |
| `ConfigErrors.ErrorKeepsCompleteStatements` | src/php-src/configuration-parser.tab.c:1672-1804 | The statements in effect after an error are exactly those of the tokens before the statement that goes wrong, which starts at most two tokens earlier |
| `ConfigErrors.NothingRepairsTheOffence` | src/php-src/configuration-parser.tab.c:1672-1804 | No continuation makes the tokens up to and including the offending one acceptable |
| `ConfigErrors.PrefixIsViable` | src/php-src/configuration-parser.tab.c:1672-1804 | The tokens before the offending one can always be completed |
| `ConfigFiles.ParseConfiguration` | src/php-src/configuration-parser.tab.c:1534-1563 | Printing any lines and parsing them in configuration mode: each key holds the last value given to it, every other key stays, headings mean nothing, and extensions are loaded in the order of the file |
| `ConfigFiles.ParseBrowsers` | src/php-src/configuration-parser.tab.c:1534-1592 | The same in browscap mode: each section named is a block that holds its name translated, unless a setting replaces it, and under each key, in lower case, the last value given behind the last heading of that name; every other entry stays |
| `ConfigFiles.ConfigurationMeans` | src/php-src/configuration-parser.tab.c:1541-1544 | The meaning of configuration lines, key by key |
| `ConfigFiles.BrowsersMean` | src/php-src/configuration-parser.tab.c:1545-1592 | The meaning of browser lines, section by section and key by key |
| `ConfigFiles.FileIsRead` | src/php-src/configuration-parser.y:333-392 | What is printed is read: every kind of line with every kind of value |
| `ConfigFiles.EveryFileHasLines` | src/php-src/configuration-parser.y:333-392 | Every accepted token sequence says what some lines say, code by code |
| `ConfigMeaning.ToLower` | src/php-src/configuration-parser.tab.c:1546-1546 | Capital letters become small ones, every other character stays |
| `ConfigSections.WildExactlyWhenOrphaned` | src/php-src/configuration-parser.tab.c:1545-1548 | In browscap mode a setting is stored through an unset section pointer if and only if one precedes every section header |
| `ConfigSections.ConfigurationNeverWild` | src/php-src/configuration-parser.tab.c:1541-1544 | In configuration mode never |
| `BrowscapPattern.ConvertPattern` | src/php-src/configuration-parser.tab.c:350-390 | The index-filled buffer holds the translation; the terminator lies inside the buffer if and only if some character is neither `*` nor `.`, or there is no wildcard |
| `BrowscapPattern.LookupExactly` | src/php-src/functions/browscap.c:50-70 | For every pattern without brackets, anchors and backslash operators: the lookup finds the section for exactly the names that match its glob if and only if the pattern has no wildcard, or has a `*` in front of its first and a `*` behind its last ordinary character and no backslash |
| `BrowscapLookup.GetBrowser` | src/php-src/functions/browscap.c:76-117 | The section found in the store is the one of that name, else the first whose stored pattern has a `*` and matches a part of the name, else the default one if there is one |
| `BrowscapLookup.StoredPatterns` | src/php-src/functions/browscap.c:50-70 | What a browser file leaves in an empty store are sections with patterns, and a lookup finds each exactly as the translation of its name says |
| `BrowscapLookup.LookUp` | src/php-src/functions/browscap.c:76-117 | From the lines of a browser file to the section that answers |
| `BrowscapPattern.PreservedExactly` | src/php-src/configuration-parser.tab.c:350-390 | The same when the expression has to match the whole name: if and only if the pattern has no wildcard, or has a `*` and no backslash; a pattern with `?` and no `*` is translated but never compiled |
| `BrowscapPattern.TranslationPreservesMeaning` | src/php-src/configuration-parser.tab.c:350-390 | Without a backslash a string matches the translation as a whole if and only if it matches the glob |
| `BrowscapPattern.TranslationChangesMeaning` | src/php-src/configuration-parser.tab.c:350-390 | With a backslash in a pattern with a `*` some name matches only one of the two; if the expression is refused, it is one the glob matches |
| `BrowscapPattern.PartMatches` | src/php-src/functions/browscap.c:65-67 | If a part of a name matches a pattern that opens and ends wide, the whole name does |
| `BrowscapPattern.PartOnly` | src/php-src/functions/browscap.c:65-67 | For any other pattern with a `*` and no backslash some name is found of which only a part matches |
| `BrowscapPattern.ConvertedAt` | src/php-src/configuration-parser.tab.c:350-390 | What each character of a pattern with a wildcard becomes, and where in the output; a pattern without one stays as it is |
| `BrowscapPattern.ConvertedLength` | src/php-src/configuration-parser.tab.c:350-390 | The output length is the input length plus the number of `*` and `.` |
| `BrowscapPattern.AllDoubled` | src/php-src/configuration-parser.tab.c:365-387 | The output is twice as long as the input, which leaves no place for the terminator, exactly when every character is `*` or `.` |
| `MemorySessions.Session` | src/php-src/alloc.c:84-375 | A whole request of arbitrary legal calls: after each call the script holds what the calls so far have handed out and not taken back, no block twice; in the end the blocks it holds have the sizes the calls gave them, one by one, also after the shutdown; the blocks obtained from the system are all different, and after shutdown each has been given back exactly once |
| `MemorySessions.ServeAll` | src/php-src/alloc.c:84-251 | The calls of a request without its end, for every number of them: the blocks held, in order, and the size of each as the calls have set it |
| `MemorySessions.Serve` | src/php-src/alloc.c:84-251 | Any one call gives the size it should: the forced one to an allocation, the one asked for to a reallocation, and no other block held changes its size; it keeps the list, the caches and the accounting in order: the blocks held and those in the caches share the list out between them |
| `MemorySessions.Grant` | src/php-src/alloc.c:84-138 | An allocation adds one block that is not held, obtained from the system exactly when the list grows |
| `MemorySessions.Take` | src/php-src/alloc.c:144-171 | A free takes that one block from the holder, and gives it back to the system exactly when the list shrinks |
| `MemorySessions.Exchange` | src/php-src/alloc.c:203-251 | A reallocation puts one block in the place of one: the same, or a new one while the old one is given back |
| `MemorySessions.ReplacedOnce` | src/php-src/alloc.c:203-251 | The balance of blocks when one takes the place of another |
| `MemoryManagerModule.MemoryManager.constructor` | src/php-src/alloc.c:319-332 | An empty manager is valid |
| `MemoryManagerModule.MemoryManager.Unlink` | src/php-src/alloc.c:70-78 | The pointer surgery removes one block of a well-formed list, the head included, and leaves a well-formed list |
| `MemoryManagerModule.MemoryManager.CheckMemoryLimit` | src/php-src/alloc.c:37-62 | The counter wraps at 32 bits; exactly when the process exits, when an error is raised, and that it is raised once |
| `MemoryManagerModule.MemoryManager.Emalloc` | src/php-src/alloc.c:84-138 | Hands out the block last cached for the size, touching no counter, or a new one at the head, checked against the memory limit; never one that is handed out |
| `MemoryManagerModule.MemoryManager.Efree` | src/php-src/alloc.c:144-171 | The block goes to the cache of its size exactly when there is room, else it leaves the list and is freed |
| `MemoryManagerModule.MemoryManager.Relink` | src/php-src/alloc.c:203-251 | The block leaves its place and returns at the head with the new size, the counter follows, and the limit check says what it found |
| `MemoryManagerModule.MemoryManager.Erealloc` | src/php-src/alloc.c:203-251 | Exactly one block of the list is replaced, also when it moves or was the head; the caches stay; the limit is checked unless a cached block was handed out |
| `MemoryManagerModule.MemoryManager.Shutdown` | src/php-src/alloc.c:334-375 | The two passes free exactly the blocks of the list, each once, and terminate |
| `MemoryManagerModule.MemoryManager.FreeWaiting` | src/php-src/alloc.c:342-348 | The first pass frees the cached blocks and no others: what is left on the list, which stays well formed, are the blocks still handed out |
| `MemoryManagerModule.MemoryManager.FreeList` | src/php-src/alloc.c:351-373 | The walk frees exactly the blocks left, in order |
| `MemoryManagerModule.MemoryManager.Pop` | src/php-src/alloc.c:102-103 | A cached block becomes a handed-out one |
| `MemoryManagerModule.MemoryManager.Push` | src/php-src/alloc.c:154-155 | A handed-out block becomes a cached one |
| `MemoryManagerModule.MemoryManager.Prepend` | src/php-src/alloc.c:118-124 | A block becomes the head of a well-formed list |
| `MemoryManagerModule.TotalWithout` | src/php-src/alloc.c:164-166 | The bytes of the list drop by the size of the block removed |

## Left out

- ControlRefinement.RefineStmt: says nothing of a run after a mark has stopped it. Where no rule of the grammar can take the token, parsing ends; where a `while` behind an unbraced statement is swallowed, the parser goes on with another structure, which the model does not follow.
- ControlTheorems.AgreesExactly: the second half is stated for tidy scripts, because of that.
- ControlTheorems.ScriptsRunAsWritten: one direction, as a property of the text alone; whether a call is made depends on values, and ScriptsRunExactly has the exact condition on a run.
- BrowscapPattern.LookupExactly: brackets, anchors and operators made by a backslash are outside the expressions modelled, because the translation copies them; merging the settings of parent sections is left out.
- BrowscapLookup.StoredPatterns: for files in which no setting has the key of the stored pattern; ParseBrowsers says what one that has does.
- MemoryManagerModule.MemoryManager.CheckMemoryLimit: a call that exits the process is modelled as returning with the verdict Exited, so that what is proved after it holds vacuously of the process.
- The token cache: being sent back is walking over the same construct again, exchanging a header is a bit per `for`, and of the token read ahead only whether it is a marked `while`. Stacks are sequences and hash tables are maps.
- CONTINUED_FOR and CONTINUED_DOWHILE: both marks are removed before anything else of the next pass is evaluated.
- A loop of the model takes one unit of fuel for every walk back and a call one unit; there is no claim for runs without end beyond every finite part of them.
- Parameter binding, by-reference arguments, methods, class declarations, internal functions, `global` and `static`.
- `require`, `include`, `eval`, source display, output, headers, `exit`, and calls from the interpreter back into scripts.
- Return in the main text of an included file; values and arithmetic; the operand of break and continue outside 32 bits.
- Opening configuration files, the scanner, the effect of loading an extension beyond the order in which they are loaded, and the settings a lookup returns.
- Memory blocks: sizes from 2^31 on, the widths of the cache counters, failing malloc, DEBUG fields and the wrappers over the allocator.
- The shutdown of the memory manager leaves dangling cache entries, which nothing reads before the next start.
