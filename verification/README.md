# Odio and lohin: a model and its proofs

LoHin serves web sites written in Odio, a small language with templates. This project models
the parts of it that are algorithms rather than input and output, in Dafny, and proves that they
do what they are for. Nothing in it is executed: it is checked by the verifier
(`dafny verify dfyconfig.toml`).

## What is modelled

**The Odio compiler and its virtual machine.** `Reference` says what a program means: an
interpreter of the syntax tree with names, scopes, exceptions and a store, which reads the value
of each `await` from a list. `Emission` and `Modules` are the compiler, a class that appends to a
chunk and patches jumps, and accepts or rejects programs. `Machine` is the virtual machine, one
instruction at a time, and `Vm` the class that runs it with frames, one operand stack and one
array of slots, updated in place. `Layout` says what compiled code looks like; the compiler is
proved to write it (`Acceptance`, `Stability`, `StmtParts`, `Patching`, `Assembly`, `Progress`,
`StmtAssembly`), and code that looks like it is proved to mean what the tree means (`Slots`,
`MachineSteps`, `Composition`, `Unfolding`, `StmtComposition`, `StmtRuns`, `StmtUnfolding`,
`Simulation`, `Correctness`). `Heights`, `Flowing`, `Discipline`, `Regions` and `Termination` are
about every reachable state, also of runs that never end, and so are `Initialised` and
`SlotHistory`, about slots that are written before they are read; `Endings` says which runs end;
`Awaiting` is about suspension;
`Pipeline` puts the compiler and the machine together. `Values` (values, store, operations),
`Operations` (what the operations are for), `Ast` and `Bytecode` are shared by both sides. What both
sides share is pinned by laws of its own: `Operations` has those of the values, and `Meaning` says what
each construct gives in terms of its own parts.

**Templates.** `Template` has the tags, the tree they stand for, what a tree renders to, and the
flat code; `TemplateReading` reads tags against a stack of open blocks, `TemplatePass` is the
one-pass compiler that patches jumps and hides names, `TemplateRun` the renderer;
`TemplateNames` says where expressions compile; `TemplateMeaning`, what a reader of the page gets.

**WebSocket framing** (RFC 6455): `Websocket`, a specification of the incremental parser and the
class that implements it; `WebsocketMeaning`, what a client sees, in the numbers of the RFC.

**JSON, UTF-8, base64url, sessions**: `Text` (escaping, UTF-8, the tests on eight bytes at once),
`Json` (what is written and what is parsed), `JsonExact` (which values come back), `JsonSpaces` (texts
made of tokens with white space between them), `JsonMeaning` (what strings and numbers stand for),
`JsonCode` (the parser and the writer as they run), `Base64`, `Session`.

**Routes**: `Routes` (a list of routes, and which one is right), `Trie` (the search),
`Routing` (the router). **Dictionaries**: `Dictionary`. **Worker pool**: `Pool`.

Members that model code that changes things in place are methods, proved against functions on
values; the theorems are about those functions.

## Where the code is not what one expects

The model follows the code. These are results, not assumptions:

- The flag that chooses a shared virtual machine for a route looks at the route's own chunk, but a
  route can be suspended by a function that it calls (`Awaiting.SilentChunkSuspends`; the right
  condition is in `Awaiting.CannotSuspend`).
- In a template both names of a loop, its variable and `loop`, stay registered behind it, and a
  datum that the variable hid comes back beside it. An expression over the data compiles behind
  loops exactly when there is at most one, whose variable is neither `loop` nor a datum, and no
  datum is called `loop` (`TemplateNames.CompilesBehindIff`); inside a loop, exactly when its
  variable is not `loop` and no other loop is before the expression in the body
  (`TemplateNames.CompilesInsideIff`). Four tag sequences that fail are in `TemplateNames`. The
  variable of a loop can be read behind it (`TemplateNames.StaleNameIsSeen`).
- A parameter name that is repeated along a path is lost when the search backtracks over the inner
  one (`Routing.RepeatedInRouter`); exactly when, `Routes.LeftIsBoundIff` says.
- A pool without workers accepts jobs and loses them (`Pool.LosesNothingIff`). Only a direct
  `start(0)` makes one: the drivers refuse sizes outside 1 to 64
  (`src/odio/db_sqlite.cpp:35-39`), and the default is 4 (`include/odio/db.hpp:101`).
- The comment at `src/odio/emitter.cpp:62-65` says that slots are not reused; they are, and the
  proofs hold with reuse.
- A caught error gives a new budget of jumps, so a stretch of a run is bounded
  (`Termination.EveryStretchEnds`) but a run is not: `Endings.EndlessNeverEnds` has a route that
  catches for ever. A run ends exactly when it comes to finitely many errors (`Endings.EndsIff`), and
  always when no function has a `try` (`Endings.EndsWithoutTry`).
- A full queue closes a WebSocket connection even when the next frame is a ping
  (`Websocket.PingFindsFullQueue`); a conversation is received exactly when no frame finds the queue
  full (`Websocket.ConversationReceivedIff`).
- A closed WebSocket connection goes on parsing what it is fed: a refused frame is refused again with
  a second Close frame (`Websocket.RefusedForGood`), and behind the client's Close frame messages are
  still delivered (`Websocket.DeliveredAfterClose`).

## Model

| member | source | states |
|---|---|---|
| Correctness.CompiledCodeIsCorrect | src/odio/vm.cpp:57-163 | For every declaration, arguments, world and awaited values: if the reference interpreter of the syntax tree gives a value, an uncaught error or an unanswered `await`, the machine running the compiled chunk ends the same way with the same store and the same trace of calls; if the interpreter needs more than `fuel` calls and iterations, the machine makes more than `fuel` steps. No hypothesis about limits: the step and frame limits are part of the meaning. |
| Correctness.MachineEndsAsInterpreted | src/odio/vm.cpp:72-76 | The machine ends with a result if and only if the interpreter does. Since the interpreter reads awaited values from a list, being suspended and resumed any number of times, at any depth, is one uninterrupted evaluation. |
| Correctness.CompiledCodeDoesNotCrash | src/odio/vm.cpp:165-556 | No run of compiled code that ends has popped an empty stack, named a slot or a constant that is not there, or jumped outside the code. |
| Correctness.FuelDoesNotMatter | src/odio/vm.cpp:143-163 | The bound on the reference interpreter decides nothing: two amounts that are enough give the same result. |
| Machine.EndIsUnique | src/odio/vm.cpp:143-163 | The machine is deterministic: a configuration has one end. |
| Machine.EndBoundsRun | src/odio/vm.cpp:143-163 | A run that ends is not also a run that goes on for ever. |
| Bytecode.SpecialisedIsGeneric | src/odio/vm.cpp:280-302 | An instruction specialised for integers does what its generic form does, for all operands, so the guess of `es_int` can be wrong without harm. |
| Operations.WrapIsCongruent | src/odio/vm.cpp:196-242 | Integer results are the 64-bit number congruent to the true one. |
| Operations.DivisionTruncates | src/odio/vm.cpp:220-233 | Division truncates toward zero; the remainder is smaller than the divisor and has the sign of the dividend. |
| Operations.CompareStrIsOrder | src/odio/vm.cpp:41-50 | Comparing strings gives 0 exactly for equal ones, and changes sign when they are swapped. |
| Operations.CompareStrIsTransitive | src/odio/vm.cpp:41-50 | The order of strings is transitive. |
| Operations.ElementIsWritten | src/odio/vm.cpp:457-480 | After an assignment to an element, reading any element of any container gives the new value exactly where container and index are the ones written, through whatever reference, and the old value elsewhere. |
| Operations.FieldIsElement | src/odio/vm.cpp:482-494 | Reading and writing a field is reading and writing that key. |
| Operations.StoreIsPut | src/odio/vm.cpp:361-382 | The dictionaries of the language are written as the insertion-ordered map says. |
| Operations.JsonStoreIsPut | src/odio/json_parse.cpp:108-137 | So are the dictionaries that the JSON parser fills. |
| Operations.LiteralHolds | src/odio/vm.cpp:335-359 | A dictionary literal has, for each key, the value that comes last with it. |
| Operations.KeysInOrder | src/odio/vm.cpp:386-398 | A `for` over a dictionary goes over its keys in order. |
| Operations.TruthMeans | include/odio/value.hpp:159-170 | Which conditions fail, by other operations: null and `false`; an integer that `==` finds equal to 0; a float that is zero; a string, list or dictionary whose `len` is 0. Everything else holds. |
| Operations.WrapKeeps | src/odio/vm.cpp:234-236 | A result is the number from -2^63 to 2^63 - 1 that differs from the true one by a multiple of 2^64. |
| Operations.AddMeans | src/odio/vm.cpp:187-210 | Which operands can be added; the sum of strings begins with the first and goes on with the second; integers are added in 64 bits. |
| Operations.ListsAdd | src/odio/vm.cpp:201-204 | The sum of lists is a new list: the elements of the first, then those of the second. |
| Operations.ArithmeticMeans | src/odio/vm.cpp:212-242 | `-`, `*`, `/` and `%`: exactly which operands are taken, and what integers give; a division that leaves a remainder is done in floating point. |
| Operations.NegateMeans | src/odio/vm.cpp:244-250 | An integer and its negation add up to 0, in 64 bits. |
| Operations.FloatsMean | src/odio/vm.cpp:238-239 | With a float on either side the operators are the host's, told which one and with the operands in order. |
| Operations.CompareStrMeans | src/odio/vm.cpp:42-50 | A string is smaller exactly when at the first place where the two differ it has ended or has the smaller character. |
| Operations.CompareMeans | src/odio/vm.cpp:22-53 | The four comparisons: integers as numbers, strings in that order, nothing else but numbers. |
| Operations.EqualMeans | src/odio/value.cpp:257-285 | Values of different types, but for two numbers, are not equal; null, truth values, integers and strings are equal to themselves only. |
| Operations.ListIsMade | src/odio/vm.cpp:327-333 | A new list has exactly the values it was made of, in order, and no other container changes. |
| Operations.WritableIffReadable | src/odio/vm.cpp:457-480 | What can be written is what can be read: lists at indices from 0 to one less than the length, dictionaries at any string, nothing else. |
| Operations.LiteralIsAssigned | src/odio/vm.cpp:335-359 | A dictionary literal is what assigning its pairs one by one to an empty dictionary gives; with `Operations.NoPairs` this says what every literal is. |
| Operations.NoPairs | src/odio/vm.cpp:343-345 | The empty literal is a new dictionary of length 0 where every key gives null. |
| Operations.IterMeans | src/odio/vm.cpp:386-398 | A `for` goes over the list itself, or over the keys of a dictionary in order, and over nothing else. |
| Operations.ErrorMeans | src/odio/vm.cpp:90-94 | What a handler gets is a new dictionary with the one key `message`, which has the text of the error. |
| Operations.NativeMeans | src/odio/vm.cpp:428-440 | A builtin other than `len` is one call of the host with the arguments in order, and one event. |
| Operations.DecimalMeans | src/odio/vm.cpp:466-468 | The numbers in the message of an index out of range are decimal, with a sign. |
| Simulation.SimExpr | src/odio/emitter.cpp:423-709 | The code of every accepted expression, run from any frame with any operands below, pushes the value that the interpreter gives, or raises the same error inside the code's own addresses, leaving the variables as the interpreter leaves them. |
| Simulation.SimTernary | src/odio/emitter.cpp:506-516 | The same of the ternary: only the chosen branch runs. |
| Simulation.SimShortCircuit | src/odio/emitter.cpp:462-475 | The same of `and` and `or`: the right side runs only when the left does not decide, and the value is that of the side that decides. |
| Simulation.SimOperation | src/odio/emitter.cpp:455-599 | The same of every construct that evaluates operands from left to right and then does one thing: calls, indexing, literals, operators. Which operands, and in which order, the laws of `Meaning` say: `BinaryMeans`, `IndexMeans`, `DictMeans`, `MethodMeans`, `UserCallMeans`. |
| Simulation.SimFieldStep | src/odio/emitter.cpp:624-650 | `++` and `--` on a field: the object is evaluated once, read once and written once, and the value is the new one or the old one. |
| Simulation.SimElementStep | src/odio/emitter.cpp:652-683 | `++` and `--` on an element: container and index are evaluated once, in that order. |
| Simulation.SimList | src/odio/emitter.cpp:517-529 | The operands of a construct, from left to right, each above the values of those before. |
| Simulation.SimHostCall | src/odio/vm.cpp:412-440 | A call of a builtin or a method: one call of the oracle, with the operands in order, and its event in the trace. |
| Simulation.SimUserCall | src/odio/vm.cpp:496-525 | A call of a user function: missing arguments filled in by the caller, its own slots, the 200 frame limit, and its result, error or suspension seen from the caller. |
| Simulation.SimStmt | src/odio/emitter.cpp:211-421 | The code of every accepted statement follows its execution: normal end, `break`, `continue`, `return`, errors, waits. |
| Simulation.SimSimple | src/odio/emitter.cpp:213-230 | `return`, an expression for its effect, a declaration, an assignment to a variable. |
| Simulation.SimEffect | src/odio/emitter.cpp:249-268 | An assignment to a field or an element: object, index and value in that order, then one write. |
| Simulation.SimIf | src/odio/emitter.cpp:284-299 | An `if`, with and without `else`: one branch runs, and its variables are gone behind it. Which one, `Operations.TruthMeans` and `Meaning.IfDecides` say. |
| Simulation.SimJump | src/odio/emitter.cpp:330-343 | `break` and `continue` land where the loop around them ends or goes on; `return` without a value gives null. |
| Simulation.SimStmts | src/odio/emitter.cpp:205-209 | Statements of one scope, in order, until one does not end normally. |
| Simulation.SimBlock | src/odio/emitter.cpp:205-209 | A block, behind which the variables are those before it. |
| Simulation.SimRequire | src/odio/emitter.cpp:319-329 | `require` goes on when the condition holds and otherwise returns the other value. |
| Simulation.SimWhile | src/odio/emitter.cpp:300-318 | A `while`, its counted jump back, and `break` and `continue` out of nested statements. |
| Simulation.SimFor | src/odio/emitter.cpp:344-394 | A `for`: the count is fixed before the first turn and the elements are read live; the hidden variables survive whatever the body does. |
| Simulation.SimTry | src/odio/emitter.cpp:396-418 | A `try`: an error raised at any depth in the body, and caught nowhere nearer, continues in the handler with the variables as they were at the error. |
| Simulation.SimDecl | src/odio/emitter.cpp:68-114 | A whole declaration: guards from the outside in, body, and null at the end. |
| Meaning.BinaryMeans | src/odio/emitter.cpp:472-504 | Every operator but `and` and `or`: the left side, then the right side in the state that the left one leaves, then the operation on the two values in that order. An error or a wait in the left side ends it before the right side. |
| Meaning.IntegersMean | src/odio/vm.cpp:187-262 | `a + b`, `a - b`, `a * b` and the comparisons of integers are those of arithmetic when the result has 64 bits. |
| Meaning.UnaryMeans | src/odio/emitter.cpp:455-458 | `not` and `-` of the value of their operand. |
| Meaning.IndexMeans | src/odio/emitter.cpp:530-534 | The container, then the index, then the element. |
| Meaning.MemberMeans | src/odio/emitter.cpp:583-586 | The object, then its field. |
| Meaning.ListMeans | src/odio/emitter.cpp:517-520 | The items of a list literal from left to right, and then a new list of their values. |
| Meaning.DictMeans | src/odio/emitter.cpp:522-528 | A dictionary literal pair by pair, each key before its value. |
| Meaning.MethodMeans | src/odio/emitter.cpp:805-828 | The receiver, then the arguments from left to right, then one call of the host and its event. |
| Meaning.AwaitMeans | src/odio/emitter.cpp:1096-1126 | To await a call is to make it: whether it suspends is decided by the builtin. |
| Meaning.BuiltinMeans | src/odio/emitter.cpp:1096-1126 | The arguments of a builtin from left to right, and then its answer, or, when it suspends, the next awaited value with a new budget of jumps. |
| Meaning.DefaultsAreValues | src/odio/emitter.cpp:936-939 | The defaults that are filled in have the values of the declared literals, in order, and do nothing else. |
| Meaning.UserCallMeans | src/odio/emitter.cpp:912-947 | The arguments from left to right, then the default values of exactly the parameters that are still missing, and then the function. |
| Meaning.LimitsMean | src/odio/vm.cpp:496-525 | A call at depth 200 fails, with that message; below, the function runs one deeper with its parameters alone in scope and the caller's variables come back; the counted jump that fails is the one after 50 million. |
| Meaning.ElementAssignMeans | src/odio/emitter.cpp:250-257 | Container, index, value, in that order, and then one write. |
| Meaning.FieldAssignMeans | src/odio/emitter.cpp:260-268 | Object, value, and then one write. |
| Meaning.DeclarationMeans | src/odio/emitter.cpp:223-229 | A variable that is declared without a value is null. |
| Meaning.TernaryDecides | src/odio/emitter.cpp:506-515 | `c ? a : b` with a literal condition: `a` when an integer is not 0, a string is not empty or a truth value is `true`, and otherwise, also for null, `b`. |
| Meaning.ShortCircuitMeans | src/odio/emitter.cpp:463-470 | `and` goes on to its right side only when the left one holds, `or` only when it does not; otherwise the left value is the value. |
| Meaning.IfDecides | src/odio/emitter.cpp:284-298 | Which branch of an `if` runs, for the same literal conditions. |
| Meaning.TryMeans | src/odio/emitter.cpp:396-418 | A handler that returns the field `message` of what it caught returns the text of the body's error, whatever the error and wherever it was raised; a body that does not fail is all there is of the statement. |
| Meaning.GuardMeans | src/odio/emitter.cpp:76-91 | The outermost guard decides first: when it holds, the declaration without it runs, and otherwise its other value is the answer. |
| Meaning.ExprKeepsScope | src/odio/emitter.cpp:423-709 | Evaluating an expression, to its value or to an error, declares no variable and drops none. |
| Meaning.BinaryCode | src/odio/emitter.cpp:472-504 | The code of an operator at an address: that of the left side there, that of the right side behind it, and one instruction. |
| Meaning.BinaryInstrMeans | src/odio/vm.cpp:187-302 | That instruction, specialised or not, does to the two values what the operator means. |
| Meaning.IndexCode | src/odio/emitter.cpp:530-534 | The code of the container, that of the index behind it, and the instruction that reads the element. |
| StmtComposition.InnermostTry | src/odio/vm.cpp:81-88 | Of the ranges around an error in the body of a `try` that nothing inside catches, that `try` has the shortest, so the scan of the table finds it. |
| Slots.SlotHoldsVariable | src/odio/emitter.cpp:52-56 | The slot that a name resolves to holds the value of its innermost live declaration. |
| Slots.SlotUpdatesVariable | src/odio/emitter.cpp:274-281 | Writing that slot assigns that variable and no other, hidden ones included. |
| Slots.FreeSlot | src/odio/emitter.cpp:16-30 | A new declaration gets a slot that no live variable has, also when slots are reused. |
| Slots.EnvPrefix | src/odio/emitter.cpp:60-66 | Leaving a scope gives back the variables of the outer scope, with the values they have by then. |
| Slots.ParamsInSlots | src/odio/vm.cpp:496-525 | The arguments of a call are the parameters of the callee, by position; those that are missing are null. |
| Initialised.DeclLives | src/odio/emitter.cpp:16-66 | For each address of compiled code it is known how many slots hold something: on every way through the code a load reads below that, a store is at most one above, a handler needs no more than what it covers, and a function begins with its parameters. Hidden variables of `for`, `++` and `--` included. |
| SlotHistory.EverySlotIsWritten | src/odio/vm.cpp:165-195 | In every state of every run of a compiled route, ending or not, through calls, errors and suspensions: a slot that the next instruction reads has been written since its function was called, or holds one of its arguments. |
| Emission.Emitter.AddConstant | include/odio/bytecode.hpp:89-92 | A constant goes to the end of the table, and its index is returned. |
| Emission.Emitter.EmitAsync | src/odio/emitter.cpp:1122-1126 | A call that suspends sets the flag of the chunk. |
| Emission.Emitter.FindLocal | src/odio/emitter.cpp:52-56 | The search from the end finds the innermost declaration, or nothing. |
| Emission.Emitter.DeclareLocal | src/odio/emitter.cpp:16-30 | A name that the innermost scope already has is rejected; any other gets the next slot, and room for it. |
| Emission.Emitter.EndScope | src/odio/emitter.cpp:60-66 | Exactly the variables of the scope go, and their slots are free again. |
| Emission.Emitter.EmitExpr | src/odio/emitter.cpp:423-709 | The expression is rejected exactly when a name is not declared or a call does not fit; otherwise the code of the expression is now at the end of the chunk, and everything before it is untouched. |
| Emission.Emitter.EmitTernary | src/odio/emitter.cpp:506-516 | The same of the ternary, with both jumps aimed. |
| Emission.Emitter.EmitShortCircuit | src/odio/emitter.cpp:462-475 | The same of `and` and `or`. |
| Emission.Emitter.EmitCall | src/odio/emitter.cpp:830-1126 | The same of a call: which functions, how many arguments, and whether it has to be awaited. |
| Emission.Emitter.EmitUserCall | src/odio/emitter.cpp:912-947 | A call of a user function is accepted with between the required and the full number of arguments, and the missing ones are filled in. |
| Emission.Emitter.EmitBuiltin | src/odio/emitter.cpp:1096-1126 | A call of a builtin is accepted with a number of arguments it takes, and awaited exactly when it suspends. |
| Emission.Emitter.EmitMethodCall | src/odio/emitter.cpp:805-828 | A call of a method: receiver, arguments, one instruction. |
| Emission.Emitter.EmitList | src/odio/emitter.cpp:517-529 | Expressions are compiled from left to right, each one exactly as it would be alone. |
| Emission.Emitter.EmitOperation | src/odio/emitter.cpp:455-599 | Operands, and then the one instruction of the construct; for operators on operands of declared type int, the specialised one. `Meaning.BinaryCode`, `BinaryInstrMeans` and `IndexCode` say which code that is. |
| Emission.Emitter.EmitNameStep | src/odio/emitter.cpp:611-623 | A step on a variable: two reads, one write. |
| Emission.Emitter.EmitFieldStep | src/odio/emitter.cpp:624-650 | A step on a field, with two hidden variables. |
| Emission.Emitter.EmitElementStep | src/odio/emitter.cpp:652-683 | A step on an element, with three hidden variables. |
| Emission.Emitter.EmitStmt | src/odio/emitter.cpp:211-421 | The statement is rejected exactly when the acceptance predicate says so; otherwise its code is at the end of the chunk, its variables are in scope, its ranges are in the table in order, and exactly its own `break` and `continue` jumps are open in the loop around it. |
| Emission.Emitter.EmitSimple | src/odio/emitter.cpp:213-281 | The same of the statements that are one expression and one instruction; a declaration adds its variable only behind its value. |
| Emission.Emitter.EmitEffect | src/odio/emitter.cpp:249-268 | The same of an assignment to a field or an element. |
| Emission.Emitter.EmitStmts | src/odio/emitter.cpp:205-209 | The same of the statements of one scope. |
| Emission.Emitter.EmitBlock | src/odio/emitter.cpp:205-209 | The same of a block, whose variables are gone again at its end. |
| Emission.Emitter.EmitIf | src/odio/emitter.cpp:284-299 | The same of `if`, with and without `else`. |
| Emission.Emitter.EmitWhile | src/odio/emitter.cpp:300-318 | The same of `while`: every open jump of its body is aimed at its test or behind it. |
| Emission.Emitter.EmitFor | src/odio/emitter.cpp:344-394 | The same of `for`, with its three hidden variables in a scope of their own. |
| Emission.Emitter.EmitTry | src/odio/emitter.cpp:396-418 | The same of `try`, whose range comes behind those of its body and before those of its handler. |
| Emission.Emitter.EmitRequire | src/odio/emitter.cpp:319-329 | The same of `require`. |
| Emission.Emitter.EmitOpenJump | src/odio/emitter.cpp:330-343 | `break` and `continue` are rejected outside loops, and otherwise leave one open jump in the innermost loop. |
| Emission.Emitter.PatchAll | src/odio/emitter.cpp:311-316 | Every open jump of a list gets its target, and no other instruction changes. |
| Emission.Emitter.EmitRoute | src/odio/emitter.cpp:68-99 | A route is rejected exactly when the acceptance predicate says so; otherwise the chunk is its compilation, in the sense that the correctness theorem needs; and the flag says exactly whether the chunk itself awaits. |
| Emission.Emitter.EmitFunction | src/odio/emitter.cpp:101-114 | The same of a user function. |
| Patching.StmtFilled | src/odio/emitter.cpp:300-318 | What was the code of a statement with its jumps open is its code with any targets, once exactly its open jumps are filled in. |
| Acceptance.OpenJumpsInside | src/odio/emitter.cpp:330-343 | The jumps that a statement leaves open are inside its own code. |
| Emission.Emitter.DeclareParams | src/odio/emitter.cpp:101-109 | Parameters are accepted exactly when their names are distinct, and take the first slots in order. |
| Modules.MakeSig | src/odio/project.cpp:1257-1272 | A signature is accepted exactly when no parameter without a default follows one with it; it counts the required ones. |
| Modules.RequiredMeans | src/odio/project.cpp:1257-1272 | With the defaults last, the parameters without one are exactly the first ones, as many as the signature requires. |
| Modules.CallsAccepted | src/odio/emitter.cpp:912-947 | A call of a function of the file is accepted if and only if its arguments are, there are not more of them than parameters, not more than 255 parameters, and every parameter that is left over has a default. |
| Modules.BuildIndex | src/odio/project.cpp:1350-1362 | The table of functions is built exactly when no name is a builtin's or repeated; it gives each function its place in declaration order. |
| Modules.BuildFunctions | src/odio/project.cpp:1364-1371 | Functions are compiled against the complete table, so they can call each other in any order; the result is a linked program, in the sense that the correctness theorem needs, exactly when every function is accepted. |
| Flowing.ExprFlows | src/odio/emitter.cpp:423-709 | Expression code that starts with `d` operands ends with `d + 1`, never touches those `d`, and its conditional jumps go forward. |
| Flowing.DeclFlows | src/odio/emitter.cpp:68-114 | Compiled code has a static operand depth at every address, and every instruction fits the depths around it. |
| Discipline.RawStepKeepsDiscipline | src/odio/vm.cpp:165-556 | Every instruction keeps the frames in order: the operands above a frame's base are as many as its address says, the slots of the running frame are exactly the top of the array, nothing crashes. |
| Discipline.EveryReachableStateIsDisciplined | src/odio/vm.cpp:57-126 | That holds in every state of every run of a compiled route, through calls, errors, handlers and suspensions, and whether the run ends or not. |
| Discipline.OtherFramesStay | src/odio/vm.cpp:527-556 | No instruction changes the operands or the slots of a frame other than the running one. |
| Discipline.RaiseKeepsDiscipline | src/odio/vm.cpp:102-126 | An error continues in the nearest frame with a handler, with its own slots as they were and the error as its only operand; the frames below are as they were, those above are gone, and the budget is new. Without such a frame the run fails with that error. The result is in order. |
| Discipline.DeclHandlers | src/odio/emitter.cpp:396-418 | Every handler of compiled code starts with exactly one operand. |
| Regions.StatementsStartEmpty | src/odio/vm.cpp:117-121 | At the start of every statement the running frame has no operands, which is why clearing the stack is right. |
| Regions.RangesNest | src/odio/emitter.cpp:396-418 | The ranges of a function are nested or disjoint. |
| Regions.HandlerIsInnermost | src/odio/vm.cpp:81-88 | The shortest range around an address is the innermost enclosing `try`; there is none exactly when nothing in the function catches the error. |
| Termination.EveryStretchEnds | src/odio/vm.cpp:143-163 | Between a start, a resumption or a caught error and what comes next, compiled code runs at most `Measure` instructions: the jumps back left under the limit, then what each frame has ahead of it, from the outermost in. |
| Termination.MovesShrinks | src/odio/vm.cpp:304-313 | Each instruction goes forward in its frame, into a call, out of one, or spends one counted jump; each makes the measure smaller. |
| Endings.EndsIff | src/odio/vm.cpp:102-163 | A run of a compiled route ends, with a value, an error or a wait, if and only if it comes to finitely many errors: between errors and suspensions it cannot go on for ever. |
| Endings.EndsWithoutTry | src/odio/vm.cpp:102-126 | What can be checked before: when neither the chunk of the route nor that of any function has a handler, every run ends, and comes to one error at most. |
| Endings.DeclWithoutTry | src/odio/emitter.cpp:396-418 | The chunk of a declaration has no handler exactly when its body has no `try`, at any depth. |
| Endings.EndlessNeverEnds | src/odio/vm.cpp:110-121 | `while true { try { -null } catch { } }`, compiled and linked in any way, with any arguments: the run goes on for ever, and comes to more than `k` errors for every `k`, because each caught error gives a new budget. |
| Endings.EndlessIsAccepted | src/odio/emitter.cpp:300-418 | The compiler accepts it. |
| Vm.VM.Turn | src/odio/vm.cpp:143-163 | One turn of the loop, fields updated in place, does what the step function says. |
| Vm.VM.DoOperation | src/odio/vm.cpp:182-302 | An instruction on values takes its operands from the stack in order and pushes the result, or fails and leaves the world as the operation left it. |
| Vm.VM.DoJump | src/odio/vm.cpp:304-325 | Jumps move the counter; only a jump back is counted, and fails beyond the limit; the peeking ones keep the value they look at. Which values make them jump, `Operations.TruthMeans` says. |
| Vm.VM.EnterFunction | src/odio/vm.cpp:496-525 | A call pushes a frame whose first slots are the arguments, or fails when the function is missing or 200 frames are there. |
| Vm.VM.LeaveFrame | src/odio/vm.cpp:527-556 | A return drops the frame with its slots and operands and leaves the value to the caller, or ends the run. |
| Vm.VM.RunUntilError | src/odio/vm.cpp:143-163 | The loop ends, and stops at the first instruction that ends, fails or suspends; the proof that it ends is its `decreases` clause. |
| Vm.VM.Unwind | src/odio/vm.cpp:102-121 | Frames are dropped until one has a handler around its current instruction; the run goes on there, or fails with the same error. |
| Vm.VM.Start | src/odio/vm.cpp:57-70 | The arguments fill the first slots, as many as there are; the rest are null. |
| Vm.VM.Resume | src/odio/vm.cpp:72-76 | The awaited value is pushed where the `await` stands. |
| Vm.VM.Execute | src/odio/vm.cpp:102-126 | Runs, unwinding after each error, until the route ends, fails or waits, and says which, in terms of runs of the machine. It gives up only when the run comes to more errors than the caller allows, which takes more than that many steps; allowed one, never when no frame and no function has a handler. |
| Vm.VM.Drive | src/odio/project.cpp:1631-1653 | The loop that starts a route and resumes it after every suspension gives what the reference interpreter gives for the same awaited values, or gives up in a run that comes to more errors than the caller allows; allowed one, never when no chunk has a handler. |
| Machine.ErrorsTakeSteps | src/odio/vm.cpp:102-126 | A run that comes to more than `k` errors makes more than `k` steps, so giving up says that the run is a long one. |
| Pipeline.Serve | src/odio/project.cpp:1589-1653 | From declarations to outcome: the functions are compiled and linked, then the route, and the machine runs it. It is rejected exactly when one of the declarations is; an ending that comes out is one that the interpreter reaches, and the only one; giving up means that a compilation of the route comes to more errors than allowed, and, when one is allowed, that some declaration has a `try`. |
| Vm.ScanHandlers | src/odio/vm.cpp:81-88 | The scan finds the shortest range around an address, the first of equals. |
| Awaiting.CannotSuspend | src/odio/emitter.cpp:1122-1126 | A route cannot be suspended if neither its chunk nor that of any function it can reach, directly or not, has a call that suspends. |
| Awaiting.SilentChunkSuspends | src/odio/project.cpp:1628-1631 | The flag of the route's own chunk is not enough: every compilation of a route `return f()`, where `f` is `return await sleep()`, has no suspending call, and is suspended when it runs. |
| Awaiting.SleepyIsCompiled | src/odio/emitter.cpp:1096-1126 | There are such compilations: chunks are given for both declarations, and they are linked. |
| TemplatePass.Compiler.Compile | src/odio/plantilla.cpp:291-512 | The pass succeeds exactly when the tags are those of a balanced tree that compiles; then the code is the code of that tree, every jump aimed, and there is a name for every slot. |
| TemplatePass.Compiler.ReadTag | src/odio/plantilla.cpp:361-453 | One tag, against the stack of open blocks: code, names and stack change as the tree does, or the tag is rejected. |
| TemplatePass.Compiler.EndIf | src/odio/plantilla.cpp:395-405 | The end of a condition aims the pending test and every jump to the end. |
| TemplatePass.Compiler.EndFor | src/odio/plantilla.cpp:441-453 | The end of a loop gives back the names it hid and aims the start behind it. |
| TemplatePass.Compiler.CompileExpr | src/odio/plantilla.cpp:159-189 | An expression compiles exactly when all names are distinct and those it uses are visible; each use gets its slot. |
| TemplatePass.ChainAimed | src/odio/plantilla.cpp:373-405 | Aiming the recorded jumps turns the code of the open branches into that of the finished condition, and leaves the rest alone. |
| TemplatePass.NamesRestored | src/odio/plantilla.cpp:441-448 | The names that a loop hides come back at its end, both of them. |
| TemplatePass.OneTree | src/odio/plantilla.cpp:361-453 | A tag sequence that compiles stands for one tree only. |
| TemplatePass.Page | src/odio/plantilla.cpp:524-626 | From tags to text: what compiles is rendered as its tree. |
| TemplateNames.DistinctIff | src/odio/plantilla.cpp:425-448 | Behind blocks with the loop variables `vars`, all names are distinct if and only if there is no loop, or one, whose variable is neither `loop` nor a datum, while no datum is called `loop`. |
| TemplateNames.CompilesBehindIff | src/odio/plantilla.cpp:159-189 | An expression over the data compiles behind a block under exactly that condition on the loop variables of the block. |
| TemplateNames.DistinctInsideIff | src/odio/plantilla.cpp:425-448 | Inside a loop, behind a block of its body, all names are distinct if and only if the block has no loop and the variable is not `loop`. |
| TemplateNames.CompilesInsideIff | src/odio/plantilla.cpp:159-189 | An expression over the visible names compiles inside a loop under exactly that condition. |
| TemplateNames.CtxHidesInPlace | src/odio/plantilla.cpp:425-448 | Wherever a block is open, a hidden name says the slot it was hidden in, so the two conditions on the inside of a loop apply everywhere. |
| TemplateNames.WriteCompilesIff | src/odio/plantilla.cpp:361-453 | The same of tags: the tags of a block with an output behind them compile as a template exactly under the condition on the loop variables of the block. |
| TemplateNames.TwoLoopsDoNotCompile | src/odio/plantilla.cpp:425-448 | Two loops, one behind the other, and then an output of a datum: no tree for these tags compiles. |
| TemplateNames.ShadowingDoesNotCompile | src/odio/plantilla.cpp:441-448 | One loop whose variable is called like a datum, and then an output: no tree for these tags compiles, because the datum comes back beside the loop's own name. |
| TemplateNames.InnerLoopDoesNotCompile | src/odio/plantilla.cpp:425-448 | A loop inside a loop, and an output behind the inner one: no tree for these tags compiles. |
| TemplateNames.CalledLoopDoesNotCompile | src/odio/plantilla.cpp:425-430 | A loop whose variable is called `loop`, and an output in its body: no tree for these tags compiles. |
| TemplateNames.StaleNameIsSeen | src/odio/plantilla.cpp:441-448 | A loop variable used behind its loop compiles and is seen with the last item, so the condition on where names are used is needed. |
| TemplateReading.WalkIff | src/odio/plantilla.cpp:361-453 | Reading tags against a stack of open blocks succeeds for the tags of the trees that compile, for no others, and finds the tree. |
| TemplateRun.TemplateRuns | src/odio/plantilla.cpp:524-626 | For every tree that compiles and uses names inside the loops that make them, running the flat code outputs exactly the recursive if/elif/else/for rendering, or stops with the same error and the same partial output; each expression sees the innermost item and `loop` data. |
| TemplateRun.Render | src/odio/plantilla.cpp:524-626 | The renderer with its stack of loops computes that rendering, and ends. |
| TemplateRun.ChainRuns | src/odio/plantilla.cpp:582-590 | Branches are tried in order; the first whose condition holds is rendered and the rest are jumped over. |
| TemplateRun.LoopRuns | src/odio/plantilla.cpp:592-620 | From item `i` on the loop renders the remaining items, leaves its frame, and touches no slot outside the loop. |
| TemplateRun.ExprSees | src/odio/plantilla.cpp:159-189 | An expression that compiles reads the slot of the innermost visible name. |
| TemplateRun.TemplateFlows | src/odio/plantilla.cpp:361-453 | Jumps stay among the same loops and go forward; only the two loop instructions go in and out, and only the end of a loop goes back, to just behind its own start. |
| TemplateRun.EveryStateMirrors | src/odio/plantilla.cpp:592-620 | In every reachable state the stack of loops has the static nesting of the current instruction, each loop pushed by the start that the nesting names and at an item of its list, so the end of a loop always finds its own frame. |
| Template.EscapeHtml | src/odio/plantilla.cpp:15-33 | The escaper that copies clean stretches in one go replaces exactly the five characters, one by one; `TemplateMeaning.HtmlRoundTrip` and `HtmlIsInert` say what that achieves. |
| TemplateMeaning.HtmlRoundTrip | src/odio/plantilla.cpp:15-34 | A reader that knows the five entities gets back every text that was escaped. |
| TemplateMeaning.HtmlIsInert | src/odio/plantilla.cpp:15-34 | In what was escaped there is no `<`, `>`, `"` or `'`, and every `&` begins one of the five entities. |
| TemplateMeaning.WriteMeans | src/odio/plantilla.cpp:568-581 | What `{{ }}` adds to the page has both properties, for the text that the value shows; with `raw` the text itself is added. |
| TemplateMeaning.LoopMeans | src/odio/plantilla.cpp:548-557 | In a loop the variable is the item of the turn, `loop` has the five fields with the values that the turn and the length say, and every other name is what it was. |
| Websocket.ConversationReceived | include/lohin/websocket.hpp:178-298 | Any conversation of messages, fragmented anyhow, masked with any keys, measured in any of the three forms, with pings and pongs between, is received as exactly those messages and pongs, in order, with one matching pong sent for each ping. |
| Websocket.ConversationReceivedIff | include/lohin/websocket.hpp:232-244 | From an open connection between two messages, with nothing left over, a conversation is received exactly if and only if no frame of it finds the queue full; otherwise the connection is closed. |
| Websocket.PingFindsFullQueue | include/lohin/websocket.hpp:232-238 | 256 pongs and then a ping, with nobody taking messages out: the ping closes the connection. |
| Websocket.ChunkingDoesNotMatter | include/lohin/websocket.hpp:303-307 | If the first part leaves the connection open, feeding two parts is feeding them together; if it closes it, feeding them together shows no more than feeding the first. A second feed behind a closing one can show more. |
| Websocket.ClosedIsIgnored | include/lohin/websocket.hpp:170-307 | What a feed does to a closed connection: what it would do to an open one, and the connection stays closed. |
| Websocket.RefusedForGood | include/lohin/websocket.hpp:170-234 | A frame that is refused in its header, for its size or for a full queue stays: every later feed refuses it again, delivers nothing, and sends the Close frame of the refusal, if there is one, once more. |
| Websocket.DeliveredAfterClose | include/lohin/websocket.hpp:246-276 | A Close frame in one feed and a pong in the next: both are delivered; in one feed the pong is not. |
| Websocket.ParseKeepsLimits | include/lohin/websocket.hpp:144-147 | At most 256 pending messages, at most 16 MiB being put together, and less than 16 MiB + 14 bytes left over in an open connection, whatever arrives. |
| Websocket.EncodedIsParsed | include/lohin/websocket.hpp:178-244 | Whatever the key and the form of the length, the parser reads back the frame that was encoded. |
| Websocket.BuiltFrameIsEncoded | include/lohin/websocket.hpp:114-132 | A frame of the server is one of those the parser reads back. |
| Websocket.WireIsPrefixDetermined | include/lohin/websocket.hpp:178-231 | What the parser has decided about a prefix more bytes do not change. |
| Websocket.MaskedTwice | include/lohin/websocket.hpp:240-242 | Masking twice with one key gives the payload back. |
| Websocket.BigEndianRoundTrip | include/lohin/websocket.hpp:125-129 | A length written in 2 or 8 bytes is read back. |
| Websocket.Connection.Feed | include/lohin/websocket.hpp:303-307 | Bytes from the network leave the connection in the state of the specification, and keep the limits. |
| Websocket.Connection.TryParse | include/lohin/websocket.hpp:178-298 | The loop handles as many frames as there are. |
| Websocket.Connection.ParseFrame | include/lohin/websocket.hpp:178-231 | One turn of the loop: waits, closes with the right code, or consumes one frame. |
| Websocket.Connection.DeliverFrame | include/lohin/websocket.hpp:246-296 | Close is echoed and queued, ping answered, pong queued, fragments put together under the rules of section 5.4 of RFC 6455. What is sent, read back from the wire, the laws of `WebsocketMeaning` say. |
| Websocket.Connection.Unmask | include/lohin/websocket.hpp:240-242 | The loop takes the mask off byte by byte. |
| WebsocketMeaning.MaskMeans | include/lohin/websocket.hpp:240-242 | Bit by bit: byte `i` of a payload is turned over exactly where byte `i` modulo 4 of the key has a one. |
| WebsocketMeaning.HeaderMeans | include/lohin/websocket.hpp:183-214 | The header in numbers: end mark and opcode, mask and length, with 126 and 127 for a length of two or eight bytes, the most significant first. |
| WebsocketMeaning.PingMeans | include/lohin/websocket.hpp:263-266 | A ping, whatever its key and form of length, is answered with one frame that reads back as a final pong with the same payload, and nothing else changes. |
| WebsocketMeaning.PongMeans | include/lohin/websocket.hpp:267-270 | A pong is handed over, and nothing else changes. |
| WebsocketMeaning.CloseMeans | include/lohin/websocket.hpp:247-262 | A Close frame closes the connection, is handed over with its payload, and is answered with one frame that reads back as a final Close with the same first two bytes, or with none when there were fewer. |
| WebsocketMeaning.HeaderRefused | include/lohin/websocket.hpp:189-199 | A reserved bit or a reserved opcode: the connection closes, hands over nothing, and one Close frame reads back with the code 1002. |
| WebsocketMeaning.LengthRefused | include/lohin/websocket.hpp:204-213 | The same for a length of eight bytes with its highest bit set. |
| WebsocketMeaning.ControlRefused | include/lohin/websocket.hpp:216-222 | The same for a control frame that is a fragment or has more than 125 bytes. |
| WebsocketMeaning.OrderRefused | include/lohin/websocket.hpp:273-289 | The same for a continuation of nothing, and for a new message within another. |
| WebsocketMeaning.GrowthRefused | include/lohin/websocket.hpp:277-279 | A message that grows beyond 16 MiB is refused with the code 1009. |
| WebsocketMeaning.OversizedCloses | include/lohin/websocket.hpp:224-225 | A frame that announces more than 16 MiB closes the connection without an answer. |
| WebsocketMeaning.FragmentsMean | include/lohin/websocket.hpp:274-295 | A message of up to 16 MiB in two frames is handed over as one, with the opcode of the first. |
| Text.DirtyWordIsExact | src/odio/value.cpp:49-57 | The test on eight bytes at once holds exactly when one of them has to be escaped; no borrow makes it wrong. |
| Text.AsciiWordIsExact | src/odio/value.cpp:106-111 | The other test on eight bytes holds exactly when all are ASCII. |
| Text.SkipClean | src/odio/value.cpp:152-167 | The fast scan stops at the first byte that has to be escaped. |
| Text.Escape | src/odio/value.cpp:142-188 | The escaper with the fast path writes what the byte by byte one does. |
| Text.CharLengthIsExact | src/odio/value.cpp:79-99 | The length it finds is that of the one character of section 4 of RFC 3629 that can start there, or 0 when there is none. |
| Text.IsValidUtf8 | src/odio/value.cpp:101-119 | The validator with the fast path accepts exactly the strings of that grammar. |
| Text.SanitisedIsValid | src/odio/value.cpp:124-140 | The sanitiser always gives valid UTF-8, and does not change what is valid. |
| Text.Sanitise | src/odio/value.cpp:124-140 | The loop computes that. |
| Text.WriteString | src/odio/value.cpp:190-195 | A string is escaped as it is when it is valid, and sanitised first when it is not. |
| JsonMeaning.SanitisedMeans | src/odio/value.cpp:124-140 | What is done to text that is not UTF-8: a character at the front is kept, and a byte where none starts becomes U+FFFD. |
| Json.RoundTrip | src/odio/value.cpp:219-254 | For every value without floating point numbers, nested at most 200 deep, with 64-bit integers, valid UTF-8 and distinct keys that do not start with two underscores: parsing what is written gives the value back, keys in the same order. |
| JsonExact.RoundTripIff | src/odio/value.cpp:219-254 | A value without floating point numbers comes back from its own text if and only if it meets those conditions. |
| JsonExact.WrittenIsRead | src/odio/value.cpp:190-254 | What comes back of any value without floating point numbers, with 64-bit integers and nested 200 deep at most in what is written: strings sanitised, internal keys dropped, and of keys that are alike then the first place and the last value. |
| Json.ValueIsRead | src/odio/json_parse.cpp:57-82 | The same of a value anywhere in a text, at any depth that leaves room for it. |
| Json.StringIsRead | src/odio/json_parse.cpp:173-230 | Every string written, escapes included, is read back. |
| Json.IntegerIsRead | src/odio/json_parse.cpp:232-277 | Every 64-bit integer written is read back as that integer, both extremes included. |
| JsonSpaces.SpacedIsRead | src/odio/json_parse.cpp:25-137 | The tokens of any readable value, nested 200 deep at most, with any white space (the bytes 0x20, 0x09, 0x0A and 0x0D) before and behind each of them: the document is accepted, as what its own compact text is accepted as. |
| JsonSpaces.BrokenIsRejected | src/odio/json_parse.cpp:42-137 | A text that breaks off before its last token, at its end or at a byte that cannot come there, is rejected whatever comes behind: a comma in a list wants a value and one in a dictionary a key, an opening bracket or brace also its end, a key its colon, a value a comma or the end of what it is in, and 200 deep there is no room for a value. |
| JsonSpaces.ComesIff | src/odio/json_parse.cpp:57-137 | Exactly: behind any tokens that begin a value, with any white space, a byte has some text behind it that makes a document if and only if it can come at that place; so a byte between two tokens does not always make the text wrong (a minus sign before 1 does not), and this says when it does. Bytes that go on with a number are the matter of `JsonMeaning.NumeralIsMeant` and its partners. |
| JsonSpaces.BehindIsRejected | src/odio/json_parse.cpp:25-30 | Behind the whole value any byte but white space is rejected, unless it makes a number longer. |
| JsonSpaces.WrittenIsTokens | src/odio/value.cpp:219-254 | What is written is exactly the tokens, with nothing between them. |
| JsonMeaning.StringIsMeant | src/odio/json_parse.cpp:173-230 | A string of bytes as they are, the eight short escapes, `\uXXXX` with digits of either case, and surrogate pairs, in any order, is accepted as what they stand for by section 7 of RFC 8259, characters in UTF-8 by division. |
| JsonMeaning.FlawIsRejected | src/odio/json_parse.cpp:173-230 | After any such pieces, these are rejected whatever comes behind: the end of the text, a control character, a backslash before any other letter, digits that are not hexadecimal, a low surrogate alone, a high one that no low one follows. |
| JsonMeaning.EscapedIsMeant | src/odio/value.cpp:142-188 | What is written between quotation marks is pieces that stand for exactly the bytes of the string. |
| JsonMeaning.NumeralIsMeant | src/odio/json_parse.cpp:232-276 | Every number of section 6 of RFC 8259 is read to its end: as the integer that its digits make when it has no fraction, no exponent and 64 bits, and otherwise as the float that the host makes of the text. |
| JsonMeaning.SignAloneIsRejected | src/odio/json_parse.cpp:234-243 | A minus sign without a digit behind it is rejected. |
| JsonMeaning.LeadingZeroIsRejected | src/odio/json_parse.cpp:237-238 | A zero at the front with a digit behind it is rejected. |
| JsonMeaning.PeriodAloneIsRejected | src/odio/json_parse.cpp:246-251 | A period without a digit behind it is rejected. |
| JsonMeaning.ExponentAloneIsRejected | src/odio/json_parse.cpp:252-258 | An exponent without a digit is rejected. |
| JsonMeaning.DeepIsRejected | src/odio/json_parse.cpp:33-35 | 202 opening brackets are rejected whatever comes behind them; 201 can be closed, by `JsonSpaces.SpacedIsRead`. |
| JsonMeaning.InternalMeans | src/odio/value.cpp:238-242 | The keys that are not written are those that begin with two underscores. |
| JsonCode.Write | src/odio/value.cpp:219-254 | The writer that appends to a buffer writes that text. |
| JsonCode.WriteDict | src/odio/value.cpp:237-251 | Internal keys are passed over, and take no comma. |
| JsonCode.Parser.Document | src/odio/json_parse.cpp:25-30 | The parser accepts one value with nothing behind it; its result is that of the specification, which `JsonSpaces.SpacedIsRead` and its partners pin to texts made of tokens. |
| JsonCode.Parser.ReadValue | src/odio/json_parse.cpp:57-82 | The dispatch on the first byte, and the limit of 200. |
| JsonCode.Parser.ReadList | src/odio/json_parse.cpp:84-106 | The loop over items: commas between them, none left over. |
| JsonCode.Parser.ReadDict | src/odio/json_parse.cpp:108-137 | The loop over pairs; a repeated key keeps its place and takes the new value. |
| JsonCode.Parser.ReadPair | src/odio/json_parse.cpp:117-127 | A key in quotes, a colon and a value, with spaces between. |
| JsonCode.Parser.ReadEscape | src/odio/json_parse.cpp:196-227 | What follows a backslash: eight short escapes, or a code point. |
| JsonCode.Parser.ReadString | src/odio/json_parse.cpp:173-230 | The copy in one go and the general loop read what the byte by byte reader does. |
| JsonCode.Parser.ReadCodePoint | src/odio/json_parse.cpp:208-225 | Surrogates are accepted only in pairs, high before low. |
| JsonCode.Parser.ReadHex4 | src/odio/json_parse.cpp:158-171 | Four hexadecimal digits of either case, most significant first, or a failure. |
| JsonCode.Parser.ReadNumber | src/odio/json_parse.cpp:232-277 | Integer part, fraction and exponent as in section 6 of RFC 8259; integers beyond 64 bits become floating point numbers. |
| JsonCode.AcceptedIsTame | src/odio/json_parse.cpp:57-137 | Every accepted document is nested at most 200 deep, has 64-bit integers and no repeated key. |
| JsonCode.Utf8IsExact | src/odio/json_parse.cpp:140-156 | The encoder writes the one character of a code point, and decoding it gives the code point back. |
| JsonCode.EscapesAreChars | src/odio/json_parse.cpp:198-227 | An escape that is accepted stands for exactly one character. |
| Base64.RoundTrip | src/odio/crypto.cpp:195-213 | Decoding gives back every string of bytes that was encoded, all three tail lengths, with the decoder's 32-bit accumulator losing what is shifted out. |
| Base64.Encode | src/odio/crypto.cpp:135-161 | The loop over groups of three, and the tail, write that encoding. |
| Base64.Decode | src/odio/crypto.cpp:195-213 | The loop over letters reads it: padding ends it, any other byte fails. |
| Base64.EncodedIsPlain | src/odio/crypto.cpp:135-161 | The encoding has neither dots nor padding. |
| Base64.EncodedMeans | src/odio/crypto.cpp:135-161 | Three bytes are one number, and the four letters its digits to the base 64, in the alphabet of table 2 of RFC 4648; of one or two bytes left over only the letters that have bits of them are written. |
| Base64.LettersMean | src/odio/crypto.cpp:121-132 | Letter and value belong together both ways, and the decoder knows no other letter. |
| Base64.StrangeIsMalformed | src/odio/crypto.cpp:203-204 | A byte outside the alphabet is refused wherever it is, unless an equals sign comes before it. |
| Base64.PaddingEnds | src/odio/crypto.cpp:201-202 | Nothing behind an equals sign changes what is decoded. |
| Session.SessionRoundTrip | src/odio/project.cpp:600-629 | Signing and loading with one secret gives the dictionary back, for every dictionary that JSON gives back, whatever the signature function is. |
| Session.OnlySignedIsLoaded | src/odio/project.cpp:610-629 | A cookie loads as a session if and only if it is a payload with its own signature, and the session is what that payload says. |
| Session.SignSession | src/odio/project.cpp:600-606 | The cookie is the payload, a dot, and its signature. |
| Session.LoadSession | src/odio/project.cpp:610-629 | Split at the last dot, compare, decode, parse: the session of the specification, or none. |
| Session.ConstantTimeEqual | src/odio/crypto.cpp:215-221 | The loop that looks at every byte decides equality. |
| Session.LoadedIsTame | src/odio/project.cpp:610-629 | A loaded session is within the limits of the parser. |
| Dictionary.Dict.Find | include/odio/value.hpp:233-242 | With and without the index the same place is found: that of the key, or the end. |
| Dictionary.Dict.Set | include/odio/value.hpp:255-262 | A key that is there keeps its place; a new one goes to the end; keys stay distinct, and the index is empty up to 16 entries and exact above, also when the threshold is crossed. |
| Dictionary.Dict.BuildIndex | include/odio/value.hpp:227-231 | The index maps every key to exactly its position. |
| Dictionary.Dict.Run | include/odio/value.hpp:227-262 | Across any sequence of insertions, lookups and erasures the dictionary holds what the operations say, and every lookup answers it. |
| Dictionary.RunIsAnOrderedMap | include/odio/value.hpp:227-262 | What the operations say is an insertion-ordered map: distinct keys, in the order of first insertion, each with the value inserted last. |
| Routing.Router.Match | src/router.cpp:114-126 | A request is answered if and only if some route matches it, and by the best one. What the parameters are bound to is given exactly, repeated names included: the pattern's own bindings if and only if every name of it survives the names tried in vain, which is always so when no pattern repeats a name. |
| Routing.Router.Add | src/router.cpp:80-112 | Registering a route keeps the trie a faithful image of the list of routes, new nodes only where there are none. |
| Routing.Router.MatchFrom | src/router.cpp:128-187 | The recursive search, with bindings put in and erased, computes the specified search. |
| Routing.BestIsUnique | src/router.cpp:128-187 | There is one best route: text before parameters before wildcards, from left to right; then the method before any method; then the last registered. |
| Routes.LeftIsBoundIff | src/router.cpp:160-168 | What the search leaves bound is what the pattern says if and only if each name of the pattern has a parameter behind which no parameter of that name was tried in vain. |
| Routes.DifferentNamesSurvive | src/router.cpp:160-168 | When no pattern repeats a name, that is always so. |
| Routes.MatchesIff | src/router.cpp:128-187 | A pattern matches a path if and only if they have the same length and agree segment by segment, a parameter with any, or the pattern ends in a wildcard, agrees before it, and leaves something for it. |
| Routes.EligibleIff | src/router.cpp:136-150 | A route can answer exactly the requests whose path its pattern matches, of its own method, or of any when its method is a star. |
| Routes.PreferredMeans | src/router.cpp:152-183 | Text is preferred to a parameter and a parameter to a wildcard at the first segment where two patterns differ; then the route that names the method; then the one registered last. Strictly in each case. |
| Routes.FirstNameIs | src/router.cpp:97-110 | A parameter has the name that the first route through it gave it. |
| Routes.BoundMeans | src/router.cpp:160-168 | It is bound to its own segment of the path, unless a later parameter has the same name. |
| Routing.RepeatedNameIsLost | src/router.cpp:160-168 | Two routes and a request where it is not: the second route is the best one, its parameter should be bound, and nothing is left. |
| Routing.RepeatedInRouter | src/router.cpp:80-187 | The router itself, filled with these two routes, answers that request with the second one and no bindings. |
| Trie.FindIsBest | src/router.cpp:128-187 | The search finds a node whenever one matches, and the first in that order, however it backtracks. |
| Trie.FindLeaves | src/router.cpp:128-187 | However much the search backtracks, what it leaves bound is, at a hit, what is left along the path to it, and, after a miss, what was bound before without the names that were tried. |
| Pool.StepKeeps | src/odio/db.cpp:9-74 | Every step of every thread keeps the invariant of the pool. |
| Pool.ReachableKeeps | src/odio/db.cpp:9-74 | So it holds in every state of every interleaving. |
| Pool.EveryJobOnce | src/odio/db.cpp:25-36 | An accepted job has been taken once or waits in its queue once, never both; no other job is ever taken. |
| Pool.TakenInOrder | src/odio/db.cpp:27-33 | Pinned jobs are taken by their worker only; the jobs for a target are taken in the order in which they were accepted. |
| Pool.OwnJobsFirst | src/odio/db.cpp:25-36 | Between any two states of any run a worker takes the jobs pinned to it before, in order, and only then others. |
| Pool.AcceptedUnlessStopping | src/odio/db.cpp:45-58 | A job goes to the end of its queue and into the history; once the pool is stopping, nothing changes. |
| Pool.SettledIsDone | src/odio/db.cpp:16-25 | No lost wakeup: a pool with workers cannot come to rest with a job in a queue, nor, once stopping, with a worker that is not gone. |
| Pool.QuietRunsEnd | src/odio/db.cpp:16-41 | Left alone, a pool comes to rest within a number of steps that is given. |
| Pool.ShutdownIsComplete | src/odio/db.cpp:65-74 | Told to stop and come to rest, every job ever accepted has been taken, once. |
| Pool.LosesNothingIff | src/odio/db.cpp:65-74 | No accepted job survives shutdown if and only if the pool has at least one worker; only a direct `start(0)` makes one without. |
| Pool.DbPool.TakeTurn | src/odio/db.cpp:17-36 | The critical section of a worker: sleep, leave, or take a job, its own ones first. |
| Pool.DbPool.SubmitJob | src/odio/db.cpp:45-52 | A job is queued and a notification is due, unless the pool is stopping. |
| Pool.DbPool.SubmitJobTo | src/odio/db.cpp:54-63 | The same for one worker; unknown workers are refused, and everybody is notified. |
| Pool.DbPool.StopPool | src/odio/db.cpp:65-71 | The flag is set once, and everybody is notified. |

## Left out

- Vm.VM.Execute: gives up after a number of caught errors that its caller chooses, where the source goes on, because a program can catch errors for ever (`Endings.EndlessNeverEnds`); it says when it gives up, and what it says otherwise is complete.
- Vm.VM.Drive: inherits that bound, which is one for each stretch between two suspensions.
- Pipeline.Serve: inherits that bound, and compiles only the functions and the route that it is given.
- Awaiting.CannotSuspend: one direction only; the converse asks whether a call is ever reached, which no look at the code decides.
- Endings.EndsWithoutTry: one direction only; whether a route with a `try` comes to errors without end is not decided by any look at the code.
- TemplateRun.TemplateRuns: asks that names are used inside the loop that makes them, and that expressions do not change what they read. The first condition is sufficient and not necessary: by `TemplateNames.CompilesBehindIff` and `CompilesInsideIff` a use that compiles outside that loop has only that finished loop before it, and when that loop stands in an earlier branch of the same condition it has never run before the use, which then sees null as the tree says. That case is left out, and so is the proof that it is the only one. Expressions are an opaque function of the values of their names.
- TemplateRun.Render: the same conditions.
- TemplatePass.Page: the same conditions.
- Websocket.ConversationReceived: asks that the queue never fills up, because nobody takes messages out between two feeds; ConversationReceivedIff shows that this is exact.
- Simulation.SimUserCall: default arguments are literals, so that where they are evaluated does not matter; in the code they are arbitrary expressions evaluated where the call stands.
- Emission.Emitter.EmitExpr: the reserved objects of routes are not names here, and rejections that depend on the declared types of fields and methods are not made.
- Emission.Emitter.EmitCall: calls of modules, classes and reserved objects, named arguments and `render` are not part of the model.
- Emission.Emitter.EmitUserCall: default arguments are literals where the source compiles arbitrary expressions, and there are no named arguments.
- Emission.Emitter.EmitBuiltin: `render`, which the source compiles with the tables of templates, is rejected.
- Emission.Emitter.EmitMethodCall: there are no classes, so no method is found statically, and the checks of the builtin methods by declared type are not made.
- Emission.Emitter.EmitOperation: no rejection by the declared types of fields, and no reserved objects.
- Emission.Emitter.EmitStmt: no rejection of assignments to reserved objects, and none by the declared types of fields.
- Emission.Emitter.EmitEffect: no check of a field by declared type.
- Emission.Emitter.EmitRoute: what is accepted does not depend on the reserved objects of the route, nor on declared types of fields and methods.
- Emission.Emitter.EmitFunction: the same; methods of classes are left out.
- Modules.BuildIndex: a repeated function name fails here, where the source skips it because the parser has already reported it.
- TemplatePass.Compiler.Compile: stops at the first error, where the source collects more; `include`, `extends` and `block` are left out.
- TemplatePass.Compiler.ReadTag: a second `else`, or an `elif` behind `else`, is rejected, where the source accepts it and then indexes out of bounds.
- Values.Wrap: integer arithmetic wraps around in 64 bits on both sides; in C++ signed overflow is undefined.
- Session.SessionRoundTrip: HMAC-SHA256 is an arbitrary function, so nothing is said about forging a signature.
- Classes, methods and constructors with static dispatch, named call arguments, and the reserved objects of routes (`sse`, `ws`, `session`, `error`) and database modules are not part of the compiler model; builtins and methods are one deterministic oracle that gets and returns the store.
- Rejections that depend on declared types of fields and builtin methods (`comprobar_campo`, `comprobar_metodo_builtin`), and `render()`.
- Source locations, error texts beyond those a program can catch, and the packing of operands in 32 bits.
- Deep equality of containers and the text of floating point numbers are opaque; floats are opaque everywhere.
- Names that begin with a space are the compiler's own; that the lexer makes none is taken from the lexer.
- The compiler class stops caring about the code once it has failed, where the source goes on to report more errors; operands of all operators are emitted by one method and the instruction after them, where the source repeats that for each operator.
- Template lexing, whitespace trimming, `include`, `extends` and `block`; the tables of texts and expressions are folded into the instructions; an unclosed block is an error like the others.
- Splitting paths and patterns into segments, upper-casing of methods, and the braces of `{name}` in patterns; children of a node are indices into one sequence of nodes, where the source has owning pointers.
- The coroutine that waits for a WebSocket message, TLS and HTTP/2 transport; unmasked client frames are accepted, as in the code.
- Values in JSON are trees without sharing; integers are parsed and written as numbers, not by `from_chars` and `to_string` digit by digit.
- The decoder of base64url accepts leftover bits, as in the code; nothing is claimed about texts that were not encoded by it.
- Lookup by `count` and iteration over a dictionary; memory reservation.
- What jobs do, exceptions in them, `start` called twice or after `stop`, and thread creation; transaction isolation.
- Sockets, event loops, HTTP parsing, TLS, static files, logging, metrics, SQL drivers, OpenAPI, JWT, cookies and multipart bodies.
