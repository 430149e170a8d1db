# A verified model of net_lang

net_lang is a small language: a recursive-descent parser, a semantic analyzer and a
fuel-limited tree-walking interpreter whose `parallel` statement runs isolated workers.
This project models the three of them, the record types, the exact number comparison
and the socket handle table, and proves how the pieces agree.

## What is proved

**The analyzer is right about the interpreter.** If `analyze` reports nothing, then on
every input, with every budget and every host that forges no records, no undefined name,
unknown constructor, escaping `break`, `continue` or `return`, or internal panic is ever
reported; every annotated binding holds a value of its annotation and every record of the
execution, at any depth, has exactly its declared fields; and a type mismatch the analyzer
flags is one the runtime check would report (`Programs`, on top of `Soundness`, `Lists`,
`Worlds`, `Typing`). A `parallel` statement reports no such error under any schedule of its
batches, finished or not (`ScheduledStatement`). No program, accepted or not, calls a function handle
that denotes no function, if its host hands out none (`Handles`). Reading a `let` before its initializer, and
writing a binding that a worker has captured, need a function call, which the analyzer
does not follow. Both do happen in accepted programs, and the runtime refuses them
(`Witnesses`).

**It reports exactly the defects.** `Defects` says what is wrong with a program without running
the analyzer: which declarations are visible from where, what type a name promises, what a
`break` may leave. The analyzer reports an error, of whatever kind, about whatever names and
at whatever location, if and only if that defect is there, so a program is accepted if and
only if it has none (`Exactness`, on top of `Diagnoses`), and only then it runs (`EntryPoint`).

**Programs mean what they say.** What each expression evaluates to is stated over evaluation
itself: names, literals, operands and their order, access (`Laws`), construction
(`Constructing`), calls, printing and network operations (`Calling`). A successful assignment
is read back along its path and touches nothing else (`Assigning`, with `Paths` saying when it
succeeds), and integer, duration and unary arithmetic is that of the mathematical integers
inside the 64-bit range (`Arithmetic`). Statements have inference rules, sound and complete for
the interpreter, from which the taken branch, the unrolled loop and the first matching arm
follow (`Rules`). A declared `main` is what runs last (`EntryPoint`).

**Parallel workers do not depend on the schedule.** Workers share one step counter. For
every interleaving the counter loses exactly what was granted. If the budget covers the
batch, every complete interleaving gives each worker the outcome it has alone; otherwise
the counter is exhausted and some worker is refused a step (`Schedule`, on top of
`Budget`), which it reports exactly when its lines fit its buffer (`Starvation`, on top of
`OutputRoom`, and `SequentialCode`). So a whole statement ends as the in-order evaluator
does, whatever the schedules of its batches, unless the budget leaves a batch short, and
then fails under all of them (`ScheduledStatement`). A `parallel` statement refines an in-order loop over its iterations,
for every batch width (`Parallel`), and neither a worker nor the statement writes a
captured slot (`Evolution`).

**Locations mean nothing.** Analyzing and running a program and the same program without
its location wrappers give the same errors, values, output, arena and remaining steps
(`Locations`, on top of `Placement` and `Simulation`); parsing with and without locations
gives the same tree up to locations (`Locating`, `ProgramLocating`); and the locations of
ordered tokens form a tree (`SpanTree`, `StatementTree`).

**Parsing undoes printing.** A tree printed with parentheses as the precedence table asks
parses back to itself, and every tree the parser builds is of that kind (`RoundTrip`,
`Reparsing`). The same holds of statements, with their types, parameters and patterns, and of
whole programs (`StatementPrinting`, `StatementRoundTrip`, `StatementReparsing`).

**Smaller pieces.** Path assignment obeys the lens laws and keeps record contracts
(`Values`); the required-cycle search is exact, and acceptance makes every record type
inhabited (`Types`, `FiniteRecords`); mixed integer and float comparison is exact
(`Numbers`) and the comparison operators are an order, lexicographic on strings (`ScalarOrder`);
socket handles are unique, exclusive and never reused (`Sockets`); the byte count that bounds
buffered output is that of the encoding (`Utf8`).

## How it is built

`Evaluation`, `Analysis`, `Grammar` and `Declarations` give the interpreter, the analyzer
and the parser as functions. The classes `Interpreter`, `Analyzer`, `ScopeStack`, `Parser`
and `TransportRuntime` are the code's own objects, with its fields, loops and order of
updates; each of their methods is proved to compute what its function says and to put
back what the code puts back. The theorems are about the functions. Evaluation needs no
fuel parameter: the remaining steps, which every expression spends, are its measure, so
that every run terminates, `while true {}` included.

Network expressions are one `Effect` node whose operands are evaluated in order; its
answer, like that of every other host call, comes from an arbitrary function of the whole
history of calls. Where a theorem needs something of the host it says so: `HostOk` (an
answer holds no malformed record of this execution), `HostPlain` (nor any function),
`Obliging` (printing and forking never fail) and `ForksStartAfresh` (a fork does not remember its parent's calls).

## What turned out to be false

- *A worker that runs out of steps reports the step limit.* A nested worker's lines are
  replayed before its error is looked at, and overflowing the enclosing worker's output
  buffer then hides the step limit. `StarvedProgram.AcceptedProgramHidesTheStepLimit` is an
  accepted program with sixteen steps whose worker is refused its thirteenth step and reports
  the output limit. Exactly when a refused worker reports the step limit is
  `Starvation.RefusedWorkersShowIff`: if and only if the lines it buffers when there is room
  for all of them, nested workers included, cost no more than the limit; room for `n + 1`
  full buffers is enough for a worker refused after `n` steps, and with it a refused worker
  always reports the step limit (`Starvation.RoomShowsStarvation`). At the `parallel`
  statement where it happens the condition is that the nested worker's lines fit what is
  left (`OutputRoom.NestedBatchShows`), and a worker whose code contains no `parallel`
  always reports the step limit (`SequentialCode.UncoveredBatchShowsTheStepLimit`).
- *Text ends no earlier than it starts.* Line numbers saturate while columns restart, so
  at the last line number a newline can move backwards (`Source.SaturatedLineGoesBack`).
  `Source.WalkForwardIff` says exactly when text advances: below the last line number,
  without a newline, or if the text behind the last newline reaches the starting column.

## Model

| member | source | states |
|---|---|---|
| `Programs.AcceptedProgramsAreSound` | src/interpreter/mod.rs:57-118 | For every accepted program and host: the final state fits the store typing, an error is one of the allowed ones (never an undefined name, escaping control flow, unknown type or panic; an uninitialized read only inside a call), and the top-level list ends with normal flow |
| `Programs.EveryInterleavingIsSound` | src/interpreter/parallel.rs:165-207 | After any interleaving of the workers of an accepted `parallel`, finished or not, every report is without error or an allowed one |
| `ScheduledStatement.EveryScheduleIsSound` | src/interpreter/parallel.rs:113-228 | Whatever the schedule of each batch, an accepted `parallel` statement ends normally or in an allowed error, replay included |
| `Handles.NoHandleDangles` | src/interpreter/mod.rs:446-521 | For every program whose host hands out no functions: every function handle in the final state and result, at any depth, denotes a function, and the invalid-handle error is never reported |
| `Handles.WorkerSafe` | src/interpreter/parallel.rs:231-277 | The same of a worker's report, for any number of steps |
| `Handles.InstallSealed` | src/interpreter/mod.rs:254-284 | Installing functions gives each the handle of its own place in the arena |
| `Witnesses.EarlyReadIsUninitialized` | src/interpreter/mod.rs:254-284 | The accepted program `f(); let x = 1; fn f() { x; }` ends in the uninitialized error, inside the call |
| `Witnesses.CapturedWriteIsRefused` | src/semantic/mod.rs:457-473 | The accepted program `let x = 0; fn f() { x = 1; } parallel y in [0] { f(); }` ends in the captured-binding error, inside the call |
| `Programs.FlaggedSitesFail` | src/semantic/types.rs:123-138 | Where the static type is known and evaluation succeeds, the analyzer reports a mismatch if and only if the runtime check fails |
| `Programs.AcceptedTypes` | src/semantic/types.rs:25-64 | In an accepted program every declared type resolves its fields, field names are distinct and no type requires itself |
| `Programs.StartPoint` | src/interpreter/mod.rs:70-97 | The initial arena and the two-level environment with `print` and the built-ins correspond to the analyzer's initial scopes |
| `Programs.BuiltinsMatch` | src/semantic/scope.rs:35-51 | The built-in names and symbols of the analyzer are those of the interpreter |
| `Execution.Execute` | src/interpreter/mod.rs:57-118 | The imperative entry point: semantic errors first, then the worker limit 1 to 64, then a bad `main`, then the statements and `main` |
| `Execution.FindBadMain` | src/interpreter/mod.rs:99-103 | Finds the first top-level `main` that takes parameters |
| `Exactness.ReportedIffDefective` | src/semantic/mod.rs:15-37 | An error, of any kind, about any names and at any location, is reported if and only if the program has that defect there, as `Defects` defines it from the syntax alone |
| `Exactness.AcceptedIffSound` | src/semantic/mod.rs:15-37 | A program is accepted if and only if it has no defect |
| `Exactness.StmtIff` | src/semantic/mod.rs:153-317 | The same for one statement anywhere: `break` and `continue` only where the innermost loop of the function is missing or, for `break`, parallel; `return` outside a function or inside a worker; repeated names; annotations |
| `Exactness.BodyIff` | src/semantic/mod.rs:88-152 | The same for a body: hoisted functions first, then each statement in sight of the ones before it |
| `Exactness.FunctionHoistIff` | src/semantic/mod.rs:88-129 | A function clashes exactly with a name already in its scope, and its annotations are reported exactly when they name no type |
| `Exactness.ExprIff` | src/semantic/mod.rs:318-456 | The same for one expression: undefined names, wrong argument counts, members, constructors, targets |
| `Exactness.CaptureIff` | src/semantic/mod.rs:457-473 | An assignment is reported as captured exactly when the visible declaration of its root is mutable and lies outside the innermost worker |
| `Exactness.TypeIff` | src/semantic/types.rs:25-64 | A type declaration is reported exactly for its place, a reserved or repeated name, its fields or a required cycle |
| `Exactness.TypeNamesInside` | src/semantic/types.rs:25-64 | The type names a statement leaves taken are those declared anywhere inside it |
| `Diagnoses.TypedIff` | src/semantic/types.rs:139-230 | The static type is known exactly when the judgement assigns one, and is that one |
| `Diagnoses.VisibleIff` | src/semantic/scope.rs:80-86 | What a name resolves to is its innermost visible declaration |
| `EntryPoint.RunsIff` | src/interpreter/mod.rs:57-69 | A program runs if and only if it has no defect and the worker limit is from 1 to 64; a defect is what is reported first |
| `EntryPoint.MainIsApplied` | src/interpreter/mod.rs:98-118 | Once the statements have run, the last top-level `main` is called without arguments in what they left, and its result is the program's |
| `EntryPoint.WithoutMain` | src/interpreter/mod.rs:104-117 | Without a `main` the program ends as its statements do, in null |
| `EntryPoint.EmptyProgram` | src/interpreter/mod.rs:70-97 | A program starts with the whole step budget and a host that was asked nothing |
| `EntryPoint.StartNames` | src/interpreter/mod.rs:88-97 | At the start every documented built-in name evaluates to that built-in |
| `EntryPoint.FunctionStays` | src/interpreter/mod.rs:229-284 | After a list has run, the name of its last function of that name still denotes that function |
| `Rules.RulesAreExecution` | src/interpreter/mod.rs:347-445 | The inference rules for statements derive an end of a statement if and only if the interpreter reaches it |
| `Rules.IfRuns` | src/interpreter/mod.rs:377-388 | True runs the then branch, false the else branch or nothing, each in a new scope; anything else is an error at the condition |
| `Rules.WhileUnrolls` | src/interpreter/mod.rs:389-398 | `while` is the conditional that runs its body and then itself, until `break`, `return` or an error |
| `Rules.MatchRuns` | src/interpreter/mod.rs:420-434 | Arm k runs if and only if its pattern holds of the subject and no earlier one does; without such an arm nothing runs |
| `Rules.ReturnRuns` | src/interpreter/mod.rs:364-376 | `return` carries its value, null for a bare one, if the contract of the function admits it |
| `Rules.EachRuns` | src/interpreter/mod.rs:408-418 | A turn of `for` costs a step and puts its item into a new slot under the loop variable |
| `Rules.LoopVariableReads` | src/interpreter/mod.rs:408-413 | There the loop variable reads the item of the turn |
| `Rules.WorkerRuns` | src/interpreter/parallel.rs:231-260 | A worker runs the body on the snapshot with its item in a slot of its own, no return contract and an empty buffer |
| `Rules.LetRuns` | src/interpreter/mod.rs:289-301 | After a `let` whose value its annotation admits, the rest of the list runs with the value in the reserved slot and the name bound to it |
| `Laws.LimitsFirst` | src/interpreter/expression.rs:13-28 | Running out of steps comes before running out of depth, and locations cost nothing |
| `Laws.NameReads` | src/interpreter/mod.rs:187-228 | A name reads the slot of its innermost binding, or is uninitialized |
| `Laws.UnboundNameFails` | src/interpreter/mod.rs:187-193 | A name that no scope binds is undefined |
| `Laws.OperandFails` | src/interpreter/expression.rs:30-212 | The first operand that fails is the failure of its node, and no later operand runs |
| `Laws.LiteralsMean` | src/interpreter/expression.rs:122-127 | Every literal evaluates to its value, for one step |
| `Laws.ArrayHolds` | src/interpreter/expression.rs:129-134 | An array holds the values of its elements in order, each evaluated in the state the one before it left |
| `Laws.ObjectHolds` | src/interpreter/expression.rs:135-141 | An object has exactly the keys written, each with the value of its last field |
| `Laws.UnaryApplies` | src/interpreter/expression.rs:142-160 | The operand, then the operator |
| `Laws.BinaryApplies` | src/interpreter/expression.rs:161-180 | The left operand, then the right one, then the operator on both in that order |
| `Laws.ShortCircuits` | src/interpreter/expression.rs:167-175 | `&&` is decided by false and `||` by true; otherwise the right operand decides, and both must be booleans |
| `Laws.PropertyFinds` | src/interpreter/expression.rs:189-194 | A property is the field of that name of a record or object, or an error that names it |
| `Laws.IndexFinds` | src/interpreter/expression.rs:195-212 | An index into an array or bytes counts from zero, a string index is property access, and everything else is an error |
| `Assigning.AssignmentWrites` | src/interpreter/expression.rs:213-234 | Where the target denotes a place and the right-hand side has a value, the assignment succeeds exactly when the slot may be assigned, the path leads into what is there and the contract admits the result; then the place reads the value back, and every diverging path and every other slot is as the right-hand side left it. Otherwise nothing is written |
| `Assigning.AssignmentSucceeds` | src/interpreter/expression.rs:213-234 | Every assignment that succeeds is of that kind |
| `Assigning.LocatedTarget` | src/interpreter/expression.rs:255-282 | A target that evaluates denotes the slot of its root name and its selectors, outermost last |
| `Assigning.LetReads` | src/interpreter/mod.rs:289-301 | The name a `let` exposes reads what its initializer evaluated to, and no other slot changed |
| `Paths.SetsIff` | src/interpreter/expression.rs:320-378 | A nested update succeeds exactly when every step of its path leads into a value that is there; only the last may add a key, and only to an object |
| `Constructing.ConstructBuilds` | src/interpreter/expression.rs:32-57 | A constructor whose field values are admitted builds a record of this execution with exactly the written fields |
| `Constructing.ConstructRefuses` | src/interpreter/expression.rs:38-50 | The first field value that breaks its contract ends the construction right there, at that value's location |
| `Constructing.UnknownTypeRefuses` | src/interpreter/expression.rs:33-35 | A constructor of no declared record type fails before any field runs |
| `Constructing.NetworkOperandRefuses` | src/interpreter/expression.rs:103-111 | A destination, and a request's URL, that is no string ends the operation before the host is asked |
| `Calling.CallEnters` | src/interpreter/mod.rs:462-517 | A call whose arguments are admitted runs the body in the closure with one new scope, at depth zero and under the result contract, and returns what the body returned or null |
| `Calling.ParameterReads` | src/interpreter/mod.rs:481-491 | Inside, each parameter reads its argument |
| `Calling.CallRefuses` | src/interpreter/mod.rs:463-486 | Depth, handle, argument count and contracts are checked in that order, and other values are not callable |
| `Calling.JoinedWithSpaces` | src/interpreter/mod.rs:451-456 | `print` joins the displays of its arguments with single spaces |
| `Calling.CallPrints` | src/interpreter/mod.rs:451-461 | The line goes to the host at once, or into a worker's buffer exactly while there is room for it and its end |
| `Calling.CallPerforms` | src/interpreter/mod.rs:447-450 | Each built-in checks its number and kinds of arguments and makes the one host call, or computes the value, that it stands for |
| `Calling.EffectRuns` | src/interpreter/expression.rs:61-121 | A network expression whose operands fit makes exactly its host call with their values and ends in the answer |
| `Arithmetic.IntegersExact` | src/interpreter/operations.rs:77-91 | `+`, `-` and `*` give the sum, difference and product if it is in the 64-bit range and overflow otherwise |
| `Arithmetic.DivisionExact` | src/interpreter/operations.rs:77-91 | For `a == q * b + r` with `r` smaller than `b` in magnitude and zero or of the sign of `a`, `/` gives `q` and `%` gives `r`; a zero divisor and a quotient out of range fail |
| `Arithmetic.DivisionExists` | src/interpreter/operations.rs:77-91 | There is such a `q` and `r` for every `a` and every other `b` than zero |
| `Arithmetic.DurationsExact` | src/interpreter/operations.rs:92-100 | Durations add and subtract exactly, or overflow, below zero too |
| `Arithmetic.ConcatenationExact` | src/interpreter/operations.rs:43-76 | Bytes, and scalars with a string among them, are put one behind the other, the left one first |
| `Arithmetic.FloatsExact` | src/interpreter/operations.rs:101-135 | With a float on a side the operation is that of the exact floats; zero divisors and results that are not finite fail |
| `Arithmetic.InexactIntegersAreRefused` | src/interpreter/operations.rs:112-118 | An integer that no float equals meets no float |
| `Arithmetic.UnaryExact` | src/interpreter/expression.rs:146-159 | `!` negates booleans, `-` negates numbers exactly or overflows, and anything else is refused |
| `Arithmetic.OtherOperandsAreRefused` | src/interpreter/operations.rs:104-109 | All other operands are refused by kind |
| `ScalarOrder.LessMeans` | src/interpreter/operations.rs:23-41 | `<` is the order of the integers and durations, and on strings the lexicographic one |
| `ScalarOrder.EqualityIsStructural` | src/interpreter/operations.rs:10-18 | Without NaN two values of one kind are equal exactly when they are the same, up to the printed names of records |
| `StatementRoundTrip.ProgramParsePrint` | docs/src/content/docs/language/syntax.md:22-25 | A printed program, with its types, parameters, patterns and bodies, parses to itself and uses every token |
| `StatementRoundTrip.StmtParses` | src/parser/statement.rs:15-230 | The same for one statement in front of any token but `else` |
| `StatementReparsing.ProgramReparses` | src/parser/statement.rs:8-230 | Every program parsed without locations, from whatever tokens, prints and parses back to itself |
| `Literals.DurationUnits` | src/parser/expression.rs:258-274 | A number with `ms`, `s` or `m` is read as 1, 1000 or 60000 milliseconds a unit, or is out of range |
| `Literals.IntegersInRange` | src/parser/expression.rs:368-373 | A written integer is read back exactly when it is in the 64-bit range |
| `Sockets.RefusedForCapacityIff` | src/runtime/transport.rs:92-98 | Opening is refused for capacity exactly with 1024 sockets in the table |
| `Sockets.OpenedIff` | src/runtime/transport.rs:123-141 | A socket is opened exactly when there is room, an id is left and the system agrees |
| `Sockets.OpensWhatWasAsked` | src/runtime/transport.rs:29-40 | The socket added is the one asked for, with its default timeout, under the next id; a refusal changes nothing |
| `Sockets.UsableIff` | src/runtime/transport.rs:197-205 | A handle is refused exactly when it is none or is not in this table |
| `Sockets.TimeoutsExact` | src/runtime/transport.rs:100-122 | Timeouts from a millisecond to a day are taken; a listener keeps its own |
| `Sockets.CloseRemoves` | src/runtime/transport.rs:142-150 | Closing takes that handle, and no other, out of the table |
| `Utf8.CountsBytes` | src/interpreter/parallel.rs:53-63 | The length that a worker's output limit counts is that of the text's UTF-8 encoding |
| `Utf8.EncodingReads` | src/interpreter/parallel.rs:53-63 | Each character is read back from its encoding, whatever follows it |
| `Source.WalkEnds` | src/source.rs:28-39 | The end is a line further for each newline and a column further for each byte behind the last one, up to the maximum |
| `Soundness.SoundEvaluate` | src/interpreter/expression.rs:13-28 | From a point that fits its analysis, a clean expression ends in a state that fits, with a value of its known static type or an allowed error |
| `Soundness.SoundStrict` | src/interpreter/expression.rs:30-212 | The same for nodes that evaluate their operands in order, construction and calls included |
| `Soundness.SoundAssign` | src/interpreter/expression.rs:213-234 | Assignment keeps store typing, record contracts included, at any nesting depth |
| `Soundness.SoundTarget` | src/interpreter/expression.rs:255-282 | The slot an assignment target denotes is the one the analyzer resolved |
| `Soundness.SoundCall` | src/interpreter/mod.rs:462-517 | A call checks and binds its parameters, runs the closure in an environment that matches its declaration, and returns a value of the declared type; `break` and `continue` never leave it |
| `Soundness.SoundApply` | src/interpreter/mod.rs:446-521 | Applying any value of an accepted program keeps the store typing |
| `Soundness.SoundStatements` | src/interpreter/mod.rs:229-312 | A statement list that the analyzer accepts keeps scopes and environment in step, level by level and name by name |
| `Soundness.SoundRunLet` | src/interpreter/mod.rs:289-304 | A `let` becomes visible after its initializer, with a value of its annotation |
| `Soundness.SoundBody` | src/interpreter/mod.rs:314-330 | A body runs in the scope the analyzer checked it in |
| `Soundness.SoundExecute` | src/interpreter/mod.rs:347-445 | Every statement kind; `break`, `continue` and `return` leave it only where the analyzer saw a loop or a function |
| `Soundness.SoundEach` | src/interpreter/mod.rs:399-419 | A `for` over well-formed values keeps the correspondence through every iteration |
| `Soundness.SoundWorker` | src/interpreter/parallel.rs:231-277 | A worker of an accepted `parallel` body never fails with escaping control flow |
| `Soundness.SoundBatches` | src/interpreter/parallel.rs:113-228 | The whole `parallel` statement keeps the parent's store typing and ends with normal flow or an allowed error |
| `Soundness.CheckTypeMeaning` | src/interpreter/mod.rs:197-221 | The runtime check passes exactly on the values that have the type, and its message is a harmless one |
| `Worlds.LookUpAgrees` | src/interpreter/mod.rs:187-193 | A name is found in the environment exactly when the analyzer resolves it, at the same level |
| `Worlds.VariableSound` | src/interpreter/mod.rs:222-228 | A resolved name reads a value of its known type, or is uninitialized inside a call |
| `Worlds.WriteSound` | src/interpreter/expression.rs:226-232 | A permitted write keeps every slot at its annotation |
| `Worlds.CapturedAssignmentIsRefused` | src/semantic/mod.rs:457-473 | An assignment the analyzer rejects as captured would hit a slot below the worker's boundary and be refused |
| `Worlds.PermissionSound` | src/interpreter/expression.rs:215-221 | Where the analyzer sees no captured root, a refused write is an allowed error: refused as captured only inside a call |
| `Worlds.BindParametersSound` | src/interpreter/mod.rs:479-491 | Parameters become slots of their annotations, at one new level |
| `Lists.ReserveSound` | src/interpreter/mod.rs:229-253 | Reserving the slots of a list keeps the correspondence and makes only the function names visible |
| `Lists.InstallSound` | src/interpreter/mod.rs:254-284 | Each hoisted closure gets the slots of the earlier lets only, matching the context its body was checked in |
| `Lists.LetBinds` | src/interpreter/mod.rs:289-304 | Exposing a `let` corresponds to declaring it |
| `Lists.HoistClean` | src/semantic/mod.rs:88-129 | In a list without hoisting errors each function brings a name that is new in its scope |
| `Typing.NameDecidesCheck` | src/interpreter/mod.rs:197-221 | A value whose static name is known passes a runtime check exactly when the names agree |
| `Typing.PureNamed` | src/semantic/types.rs:139-219 | The known static type of a node is the type of the value computed from operands of their known types |
| `Typing.FieldNamed` | src/semantic/types.rs:220-230 | The known type of `x.k` is the type of the value found there |
| `Typing.IndexNamed` | src/semantic/types.rs:139-219 | The known type of `x["k"]` is the type of the value found there |
| `Typing.ConstructKeys` | src/semantic/types.rs:65-108 | A clean constructor mentions exactly the declared fields |
| `Typing.ConstructShape` | src/interpreter/expression.rs:32-57 | A clean constructor whose field checks pass builds a record that keeps its contract |
| `Typing.PureWellTyped` | src/interpreter/expression.rs:30-212 | No operation builds a value that holds a malformed record |
| `Evolution.EvaluateEvolves` | src/interpreter/expression.rs:13-28 | Over any evaluation steps only fall, arenas only grow, slots keep annotation and mutability, and slots below the capture boundary never change |
| `Evolution.CallEvolves` | src/interpreter/mod.rs:462-517 | The same for calls |
| `Evolution.StatementsEvolves` | src/interpreter/mod.rs:229-312 | The same for statement lists |
| `Evolution.ExecuteEvolves` | src/interpreter/mod.rs:347-445 | The same for statements |
| `Evolution.BatchesEvolves` | src/interpreter/parallel.rs:113-228 | A `parallel` statement leaves the parent's bindings and functions exactly as they were after its iterable |
| `Evolution.WorkerIsolation` | src/interpreter/parallel.rs:245-268 | Over a whole worker run, nested workers included, the captured slots are those of the snapshot |
| `Budget.EvaluateSpends` | src/interpreter/mod.rs:166-177 | A run that leaves k steps unused is the same with k fewer; a worker that needs more starves |
| `Budget.ExecuteSpends` | src/interpreter/mod.rs:347-445 | The same for statements |
| `Budget.WorkerSpends` | src/interpreter/parallel.rs:231-277 | The same for a whole worker |
| `Budget.WorkersSpend` | src/interpreter/parallel.rs:151-164 | With k fewer steps a batch does the same, or exhausts the counter and at least one worker starves |
| `Budget.BatchesSpends` | src/interpreter/parallel.rs:140-227 | The same for the statement |
| `Schedule.StepsAreConserved` | src/interpreter/mod.rs:166-177 | For every interleaving: initial budget minus remaining is the number of granted ticks |
| `Schedule.GrantsAtMostDemand` | src/interpreter/parallel.rs:165-192 | No worker is granted more than it needs alone, and one that stopped asking was granted exactly that |
| `Schedule.ScheduleIndependence` | src/interpreter/parallel.rs:165-207 | If demand fits, every complete interleaving gives each worker its outcome alone; otherwise the counter is exhausted and at least one worker is refused a step; a refused worker reports the step limit, or the output limit if it has forked workers of its own |
| `Schedule.CoveredSchedulesAgree` | src/interpreter/parallel.rs:165-207 | Two complete interleavings of a covered batch end in the same state |
| `Schedule.SequentialIsASchedule` | src/interpreter/parallel.rs:151-164 | Running the workers one after the other is a complete interleaving |
| `Schedule.InterleavingsRefineSequential` | src/interpreter/parallel.rs:151-208 | Threads and the sequential nested form agree: same outcomes and counter if covered, starvation in both if not |
| `ScheduledStatement.StatementIndependence` | src/interpreter/parallel.rs:135-227 | For every batch width and every finished schedule of each batch: if all batches that are reached have the steps they want, the statement ends exactly as in order; otherwise it fails with no step left |
| `ScheduledStatement.FinishedBatch` | src/interpreter/parallel.rs:135-227 | The same for one batch with its forks and its replay |
| `Starvation.RefusedWorkersShowIff` | src/interpreter/parallel.rs:165-225 | For every interleaving: a refused worker reports an error, and it is the step limit if and only if the lines it buffers with room for all of them cost no more than the output limit |
| `Starvation.StarvationShowsIff` | src/interpreter/parallel.rs:209-225 | The same for one worker and any number of granted steps |
| `Starvation.RoomShowsStarvation` | src/interpreter/parallel.rs:209-225 | With a buffer of at least `n + 1` output limits, a worker refused after `n` steps reports the step limit, however deep its nested workers |
| `Starvation.WorkerStarves` | src/interpreter/parallel.rs:231-277 | A worker that more steps would take further ends in the step limit when its buffer is wide enough, holding at most that much |
| `OutputRoom.RoomDecides` | src/interpreter/parallel.rs:53-64 | A worker does the same as with wider buffers if what it then buffers fits the limit, and otherwise ends in the output limit |
| `OutputRoom.WorkerWidens` | src/interpreter/parallel.rs:231-277 | Two runs of a worker with different output limits are equal, or the narrower one overflows where the wider one holds too much or overflows too |
| `OutputRoom.WorkerPays` | src/interpreter/parallel.rs:53-64 | A worker is charged for exactly the lines in its buffer |
| `OutputRoom.NestedBatchShows` | src/interpreter/parallel.rs:209-225 | In a worker, the error of a nested iteration is the one reported if and only if its lines fit the rest of the buffer; otherwise the output limit is |
| `SequentialCode.UncoveredBatchShowsTheStepLimit` | src/interpreter/parallel.rs:165-207 | Without a `parallel` in the workers' code, every refused worker of an uncovered batch reports exactly the step limit, and one is refused |
| `SequentialCode.BodyCalm` | src/interpreter/mod.rs:314-330 | Code without `parallel`, and functions without it, never fork |
| `SequentialCode.ForkedHostsAreCalm` | src/interpreter/parallel.rs:142-150 | The hosts a batch hands out have forked nothing |
| `StarvedProgram.AcceptedProgramHidesTheStepLimit` | src/interpreter/parallel.rs:209-225 | The accepted program `parallel x in [0] { print("a"); parallel y in [0] { print("b"); 0; } }`, with sixteen steps and two bytes of buffer, ends in the output limit that its refused worker reports, with no step left |
| `StarvedProgram.RefusedJobReportsTheOutputLimit` | src/interpreter/parallel.rs:209-225 | The worker of that program is refused its thirteenth step and reports the output limit |
| `Parallel.ParallelRefinesLoop` | src/interpreter/parallel.rs:135-227 | From any batch on: output is the input-order concatenation through the batch of the first failing iteration, the error is that iteration's, and the steps are accounted for |
| `Parallel.WholeStatement` | src/interpreter/parallel.rs:135-227 | The statement as a whole: all lines in order and one step per fork if nothing fails, otherwise the error of the first failing iteration k, labelled k+1 |
| `Parallel.WidthsAgree` | src/interpreter/parallel.rs:135-140 | Any two widths, nested width 1 included, give the same error and, without one, the same output and steps |
| `Parallel.FailureNamesIteration` | src/interpreter/parallel.rs:269-272 | The label of a failure is the input index plus one |
| `Parallel.ReplayFitsIff` | src/interpreter/parallel.rs:53-64 | Replaying lines into a worker's buffer fails exactly when they exceed the room left |
| `Parallel.WorkerIgnoresParent` | src/interpreter/parallel.rs:142-150 | A worker's outcome and steps do not depend on what its host did before the fork |
| `Parallel.AloneForetells` | src/interpreter/parallel.rs:231-277 | Running an iteration alone foretells its outcome in every batch |
| `Locations.ErasurePreservesMeaning` | src/interpreter/expression.rs:13-28 | Analyzing and running a program and its erasure agree on error kinds and messages, value, output, arena and remaining steps |
| `Locations.AnalyzeErased` | src/semantic/mod.rs:15-37 | The analyzer reports the same errors, up to where they point, for both |
| `Locations.RunErased` | src/interpreter/mod.rs:314-325 | Running both gives the same outcome up to spans |
| `Placement.ExpressionSame` | src/semantic/mod.rs:318-456 | Erasure of an expression keeps its errors |
| `Placement.StatementSame` | src/semantic/mod.rs:153-317 | Erasure of a statement keeps its errors |
| `Simulation.EvaluateSame` | src/interpreter/expression.rs:13-28 | Evaluating a located expression and its erasure ends alike, on hosts that answer alike |
| `Simulation.ExecuteSame` | src/interpreter/mod.rs:347-445 | The same for statements |
| `Simulation.WorkerSame` | src/interpreter/parallel.rs:231-277 | The same for workers |
| `Interpretation.Interpreter.constructor` | src/interpreter/mod.rs:70-86 | An interpreter starts with the given state and frame |
| `Interpretation.Interpreter.Tick` | src/interpreter/mod.rs:166-177 | One step is spent, or the step limit is reported and the counter stays at zero |
| `Interpretation.Interpreter.AllocateSlot` | src/interpreter/mod.rs:178-186 | The new slot is the next index of the arena |
| `Interpretation.Interpreter.Expression` | src/interpreter/expression.rs:13-28 | Computes the specified evaluation, stays within the depth limits and restores depth, call stack, return type and span on success and failure |
| `Interpretation.Interpreter.OperandValues` | src/interpreter/expression.rs:32-57 | Operands from left to right; the first failing operand or field check stops, at the field's own location |
| `Interpretation.Interpreter.ShortCircuit` | src/interpreter/expression.rs:161-180 | The right operand of a logical operator is evaluated only if the left one does not decide |
| `Interpretation.Interpreter.AssignmentExpression` | src/interpreter/expression.rs:213-234 | Target selectors, then mutability and capture, then the right-hand side, and only then the root |
| `Interpretation.Interpreter.WriteBinding` | src/interpreter/expression.rs:226-232 | A failed write leaves the bindings untouched |
| `Interpretation.Interpreter.AssignmentTarget` | src/interpreter/expression.rs:255-282 | The root slot and the selectors along the path |
| `Interpretation.Interpreter.InvokeFunction` | src/interpreter/mod.rs:462-517 | Computes the specified call and restores the frame even when the call fails |
| `Interpretation.Interpreter.Invoke` | src/interpreter/mod.rs:446-521 | Functions, built-ins and `print`; anything else is not callable |
| `Interpretation.Interpreter.ReserveSlots` | src/interpreter/mod.rs:229-253 | Slots of a list, in order, before anything runs |
| `Interpretation.Interpreter.InstallFunctions` | src/interpreter/mod.rs:254-284 | Closures over the earlier lets only |
| `Interpretation.Interpreter.RunStatements` | src/interpreter/mod.rs:229-312 | Computes the specified statement list |
| `Interpretation.Interpreter.RunStatement` | src/interpreter/mod.rs:347-445 | Computes the specified statement and restores the span |
| `Interpretation.Interpreter.RunWhile` | src/interpreter/mod.rs:389-398 | The loop terminates for every condition, within the budget |
| `Interpretation.Interpreter.ForEach` | src/interpreter/mod.rs:399-419 | One scope and one step an iteration |
| `Interpretation.Interpreter.RunMatch` | src/interpreter/mod.rs:420-434 | The first arm that matches |
| `Interpretation.Interpreter.RunParallel` | src/interpreter/parallel.rs:113-228 | Batches of the width, 1 inside a worker |
| `Interpretation.Interpreter.RunBatch` | src/interpreter/parallel.rs:141-227 | Forks, then workers, then replay |
| `Interpretation.Interpreter.ForkHosts` | src/interpreter/parallel.rs:142-150 | One step and one fork for each item; the first failure ends the statement |
| `Interpretation.Interpreter.ExecuteWorker` | src/interpreter/parallel.rs:231-277 | A fresh interpreter on the snapshot; only the counter of the parent changes |
| `Interpretation.Interpreter.ReplayOutput` | src/interpreter/parallel.rs:209-225 | A refused line stops the lines of that worker only; the first error wins |
| `SemanticPass.AnalyzeProgram` | src/semantic/mod.rs:15-37 | The imperative pass reports exactly the specified errors, in order |
| `SemanticPass.Analyzer.Expression` | src/semantic/mod.rs:318-456 | Appends the specified errors and restores the whole context |
| `SemanticPass.Analyzer.Statement` | src/semantic/mod.rs:153-317 | Appends the specified errors and leaves the specified scopes |
| `SemanticPass.Analyzer.HoistFunctions` | src/semantic/mod.rs:88-115 | Declares all functions of a list before its statements |
| `SemanticPass.Analyzer.ScopedBody` | src/semantic/mod.rs:145-152 | A body leaves the scopes as they were |
| `SemanticPass.Analyzer.CaptureCheck` | src/semantic/mod.rs:457-473 | Reports an assignment whose root lies outside the innermost worker |
| `SemanticPass.Analyzer.CheckType` | src/semantic/types.rs:123-138 | Reports a known type that differs from the contract |
| `SemanticPass.Analyzer.CheckMember` | src/semantic/types.rs:6-20 | Reports a field the known record type does not have |
| `SemanticPass.Analyzer.ConstructorCheck` | src/semantic/types.rs:65-108 | Reports unknown, repeated, unexpected, mistyped and missing fields |
| `SemanticPass.Analyzer.TypeDeclaration` | src/semantic/types.rs:25-64 | Reports reserved and repeated names, bad fields and required cycles |
| `SemanticPass.Analyzer.IterationCheck` | src/semantic/mod.rs:271-308 | Loop stack and worker boundary are pushed for the body and popped after it |
| `SemanticPass.Analyzer.FunctionCheck` | src/semantic/mod.rs:197-232 | A function body is checked with no enclosing loop and its own return contract |
| `Scope.ScopeStack.Declare` | src/semantic/scope.rs:62-71 | Adds the name to the innermost scope unless that scope has it |
| `Scope.ScopeStack.Enter` | src/semantic/scope.rs:52-55 | A new innermost scope |
| `Scope.ScopeStack.Leave` | src/semantic/scope.rs:56-61 | Undoes the matching enter |
| `Scope.ScopeStack.ResolveWithDepth` | src/semantic/scope.rs:80-86 | The innermost declaration and its level |
| `Types.HasRequiredCycle` | src/types.rs:18-38 | The worklist terminates despite duplicates and finds a cycle exactly when the type reaches itself |
| `Types.QueueFields` | src/types.rs:22-36 | Queues exactly the named required types of one definition |
| `Types.NewRegistry` | src/types.rs:39-52 | The first top-level declaration of each name, in order |
| `Types.DefinitionsDistinct` | src/types.rs:39-52 | Registered names are distinct |
| `Types.NothingLeadsBack` | src/types.rs:18-38 | An exhausted worklist proves there is no cycle |
| `Types.RankDecreases` | src/semantic/types.rs:25-64 | Acceptance gives a well-founded rank on named types |
| `FiniteRecords.InhabitedIffNotDoomed` | src/types.rs:18-38 | A type has a finite, contract-keeping record value if and only if it leads to no type that requires itself |
| `FiniteRecords.AcceptedTypesAreInhabited` | src/semantic/types.rs:25-64 | Every declared type of an accepted program has a value |
| `FiniteRecords.DefaultRecord` | src/types.rs:18-38 | Builds such a value, innermost types first |
| `Values.GetAfterSet` | src/interpreter/expression.rs:284-378 | After a successful assignment the path reads the new value |
| `Values.SetKeepsDiverging` | src/interpreter/expression.rs:284-378 | Every diverging path reads as before, errors included |
| `Values.SetOverwrites` | src/interpreter/expression.rs:320-378 | A second assignment along a path overwrites the first |
| `Values.SetOfGet` | src/interpreter/expression.rs:284-378 | Assigning what is already there changes nothing |
| `Values.SetKeepsType` | src/interpreter/expression.rs:320-378 | Assigning inside a value keeps its own type |
| `Values.SetKeepsWellTyped` | src/interpreter/expression.rs:320-378 | Nested assignment keeps every record contract |
| `Values.GetWellTyped` | src/interpreter/expression.rs:284-319 | Reading a part of a well-formed value gives a well-formed value |
| `Numbers.CompareIntFloatExact` | src/interpreter/operations.rs:139-154 | For every 64-bit integer and every float the comparison is that of the exact numbers |
| `Numbers.CompareNumbersExact` | src/interpreter/operations.rs:9-42 | So for every mix of integers and floats; only NaN is incomparable |
| `Numbers.MixedOrderIsTotalPreorder` | src/interpreter/operations.rs:9-42 | Away from NaN ordering is total and transitive, and equality is compatible with it |
| `ScalarOrder.OperatorsAreAnOrder` | src/interpreter/operations.rs:9-42 | On comparable operands `<=` is total and transitive, `==` is its equivalence and the other operators follow, for numbers (mixed ones included), strings and durations |
| `ScalarOrder.OrderedIffComparable` | src/interpreter/operations.rs:9-42 | The ordering operators succeed exactly on two numbers other than NaN, two strings or two durations |
| `ScalarOrder.StringsTransitive` | src/interpreter/operations.rs:9-42 | String order is transitive |
| `Numbers.ExactFloatIffRepresentable` | src/interpreter/operations.rs:112-118 | An integer converts exactly when it is a binary64 value |
| `RoundTrip.ParsePrint` | docs/src/content/docs/language/syntax.md:36-39 | Printing a producible tree with the documented precedence and parsing the tokens returns the tree |
| `RoundTrip.Whole` | src/parser/expression.rs:45-207 | The same at every precedence level, for any tokens that may follow |
| `Reparsing.ReparsesToItself` | src/parser/expression.rs:45-366 | Every tree parsed without locations prints and parses back to itself |
| `Literals.DecodeString` | src/parser/expression.rs:374-397 | The decoding loop computes the specified text, or reports the bad escape |
| `Literals.DecodeEscape` | src/parser/expression.rs:374-397 | Decoding undoes escaping, for every text |
| `Literals.SignedRoundTrip` | src/parser/expression.rs:368-373 | Reading undoes writing an integer, negative ones included |
| `Literals.DurationRoundTrip` | src/parser/expression.rs:258-274 | Reading undoes writing a duration in milliseconds |
| `Locating.AssignmentSame` | src/parser/expression.rs:8-25 | An expression parsed with locations erases to the one parsed without, with the same cursor and errors |
| `ProgramLocating.ProgramSame` | src/parser/statement.rs:8-29 | The same for whole programs |
| `SpanTree.AssignmentSpans` | src/parser/expression.rs:8-25 | For ordered tokens every expression node has exactly one location, from its first to its last token, and children lie inside their parents |
| `StatementTree.ProgramSpans` | src/parser/statement.rs:15-29 | For ordered tokens every statement of a list has one location, siblings do not overlap, and expressions, annotations, patterns and bodies lie inside |
| `StatementTree.StatementSpans` | src/parser/statement.rs:116-230 | Every statement kind keeps its parts within its tokens |
| `Source.FromText` | src/source.rs:28-39 | The byte loop ends where walking the text ends |
| `Source.WalkContinues` | src/source.rs:28-39 | Spans of consecutive texts meet |
| `Source.WalkForwardIff` | src/source.rs:28-39 | Exactly when text ends no earlier than it starts: below the last line number, without a newline, or with enough text behind the last one |
| `Source.SaturatedLineGoesBack` | src/source.rs:28-39 | At the last line number it can |
| `Parsing.IsTerminated` | src/parser/mod.rs:14-37 | Accepts exactly the token lists with one end-of-input token, at the end |
| `Parsing.Parser.constructor` | src/parser/mod.rs:14-41 | The cursor starts at the first token with constructors allowed |
| `Parsing.Parser.Advance` | src/parser/mod.rs:51-57 | The cursor never passes the end of input |
| `Parsing.Parser.Previous` | src/parser/mod.rs:45-47 | Only called behind a token, and returns that token |
| `Parsing.Parser.Matches` | src/parser/mod.rs:61-68 | Consumes one token or none |
| `Parsing.Parser.ConsumeToken` | src/parser/mod.rs:69-75 | Consumes the token or reports it as expected |
| `Parsing.Parser.AssignmentExpression` | src/parser/expression.rs:45-68 | Terminates, agrees with the grammar, advances on success, and restores the `constructors` flag on success and failure |
| `Parsing.Parser.SendExpression` | src/parser/expression.rs:69-93 | The same; a second `SEND` needs parentheses |
| `Parsing.Parser.BinaryExpression` | src/parser/expression.rs:95-155 | The same for all binary levels |
| `Parsing.Parser.UnaryExpression` | src/parser/expression.rs:156-172 | The same |
| `Parsing.Parser.PostfixExpression` | src/parser/expression.rs:173-207 | The same |
| `Parsing.Parser.DelimitedExpression` | src/parser/expression.rs:30-38 | Parses with the given flag and puts the old one back |
| `Parsing.Parser.ExpressionList` | src/parser/expression.rs:208-220 | The same, up to the closing delimiter |
| `Parsing.Parser.Primary` | src/parser/expression.rs:221-284 | The same |
| `Parsing.Parser.ConnectionExpression` | src/parser/expression.rs:285-309 | The same |
| `Parsing.Parser.RequestExpression` | src/parser/expression.rs:310-334 | The same |
| `Parsing.Parser.ObjectFields` | src/parser/expression.rs:340-367 | The same |
| `Parsing.Parser.Declaration` | src/parser/statement.rs:15-70 | The same for declarations |
| `Parsing.Parser.FunctionDeclaration` | src/parser/statement.rs:71-102 | The same |
| `Parsing.Parser.Statement` | src/parser/statement.rs:116-169 | The same for statements |
| `Parsing.Parser.MatchStatement` | src/parser/statement.rs:170-201 | The same |
| `Parsing.Parser.BlockStatement` | src/parser/statement.rs:202-210 | The same |
| `Parsing.Parser.IfStatement` | src/parser/statement.rs:212-230 | The same |
| `Parsing.Parser.Program` | src/parser/statement.rs:8-14 | A whole program, up to the end of input |
| `Sockets.IdSource.Draw` | src/runtime/transport.rs:123-128 | Draws the next id, or reports exhaustion and changes nothing |
| `Sockets.TransportRuntime.Insert` | src/runtime/transport.rs:123-130 | The new socket gets the drawn id |
| `Sockets.TransportRuntime.Open` | src/runtime/transport.rs:131-141 | Capacity first, then the system call, then insertion |
| `Sockets.TransportRuntime.Accept` | src/runtime/transport.rs:53-91 | Only listeners accept, and only with room in the table |
| `Sockets.TransportRuntime.Connect` | src/runtime/transport.rs:151-196 | Addresses are tried in order |
| `Sockets.TransportRuntime.Close` | src/runtime/transport.rs:142-150 | Removes the handle from this table only |
| `Sockets.TransportRuntime.SocketOf` | src/runtime/transport.rs:197-205 | A handle is valid exactly in the table that holds it |
| `Sockets.EveryHistoryIsSound` | src/runtime/transport.rs:92-150 | The table invariant holds after every history of any number of forked runtimes |
| `Sockets.HandlesAreExclusive` | src/runtime/mod.rs:136-142 | At most 1024 sockets a table, and an id is valid in at most one runtime |
| `Sockets.ClosedStaysClosed` | src/runtime/transport.rs:142-150 | A closed id is never valid again, in any runtime, whatever happens later |
| `Sockets.CloseRecords` | src/runtime/transport.rs:142-150 | Closing a valid handle closes it for good |
| `Sockets.HandlesIncrease` | src/runtime/transport.rs:123-130 | A new id is above every id open or closed so far; exhaustion is reported only at the maximum |

## Left out

- Programs.AcceptedProgramsAreSound: assumes `HostOk`, that a host answer holds no malformed record of this execution; the code's hosts cannot build records. The message for an invalid function handle is excluded by `Handles.NoHandleDangles`, which asks in addition that host answers hold no function.
- Parallel.ParallelRefinesLoop: assumes a host that refuses neither a line nor a fork, as the statement it refines has no such failures; the replay itself models refusals (`Interpretation.Interpreter.ReplayOutput`).
- Exactness.ReportedIffDefective: is about which errors are reported; in which order and how often is stated by `SemanticPass.AnalyzeProgram` alone.
- Rules.RulesAreExecution: a `parallel` statement is one rule whose meaning `Parallel.WholeStatement` and `ScheduledStatement.StatementIndependence` give, and expressions are evaluated in the premises.
- StatementReparsing.ProgramReparses: like `Reparsing.ReparsesToItself`, about programs parsed without locations.
- Reparsing.ReparsesToItself: is about trees parsed without locations and floats whose text reads back; trees with locations are covered through `Locating.AssignmentSame`, and an integer token whose text has a sign prints as one token.
- StatementTree.ProgramSpans: starts from ordered tokens; that the scanner orders them is not part of this model.
- Parallel.WorkerIgnoresParent: assumes `ForksStartAfresh`, that a forked host answers from the calls made to it; the standard runtime draws connection ids from a process-wide counter (src/runtime/transport.rs:123-128), so a worker that opens sockets sees handles that depend on the others.
- Parallel.AloneForetells: assumes the same, so it says nothing about workers that open sockets; neither do forecasts made from it for `Parallel.WholeStatement` and `Parallel.WidthsAgree`.
- ScheduledStatement.StatementIndependence: is about one `parallel` statement; a whole program with a schedule for each of its batches is not evaluated.
- Schedule.ScheduleIndependence: a worker's host answers from its own history, so socket handles drawn from the shared counter are outside it.
- Interpretation.Interpreter.RunBatch: calls `RunWorkers`, which runs the workers in input order instead of starting threads.
- Interpretation.Interpreter.RunWorkers: runs the workers of a batch in input order, as the nested form of the code does; `Schedule.InterleavingsRefineSequential` relates that to every interleaving of threads.
- Interpretation.Interpreter.RunStatements: environments are maps passed by value; the code clones hash maps where the model copies values.
- HTTP requests, sockets, DNS and timeouts (src/runtime/http.rs, src/runtime/transport.rs) are answers of the host; of transport.rs only the handle table is modelled.
- Network expressions are collapsed into one node; where their operands have wrong kinds the model gives one error, not the code's texts.
- Thread start failure, panics and stack sizes (src/interpreter/parallel.rs:173-205).
- Allocation failure, and `usize` overflow of counters other than the socket ids and source positions.
- Float arithmetic and its rounding are parameters; floats are finite reals, infinities and NaN, so negative zero is zero.
- Error texts, their `Display` form, diagnostics (src/diagnostic.rs) and the analyzer's `context` labels; errors are kinds with the names they are about.
- The `Display` form of values, JSON conversion, UTF-8 conversion and float literal syntax are parameters.
- A slot or type id outside its arena is the message `Panic`, which no accepted program reports.
- The scanner, the C bridge and FFI (lexer/, src/lexer/), the command line (src/main.rs) and the pretty printer (src/ast/pretty.rs).
