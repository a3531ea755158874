# A verified model of the devproc2 compiler back end and its virtual machines

devproc2 compiles a small tensor IR to bytecode and runs it on two virtual machines, one in C++ and one in Python.
This project models that path in Dafny and proves what it is for: that the memory plan, the rewriting passes, the
code generator, the file format and both machines together do not change what a program means.

Nothing here was executed. Every statement below is a lemma or a method contract that Dafny checks; `dafny verify
dfyconfig.toml` checks them all.

The project has six parts.

* **Code generation and the machines.** `Builtins` and `Structured` give structured programs a meaning (values,
  foreign calls in order, failures; loops by fuel, with "means" as "for some fuel"). `CodegenSpec` is the code
  generator as a function, `Codegen` the same as the source writes it, a class that appends instructions, leaves
  placeholders and patches them. `StraightLineCorrect`, `ControlFlowCorrect`, `FunctionCorrect` and `ProgramCorrect`
  prove compiled code correct on a machine with one register frame for each activation (`VirtualMachine`), from what
  `CodegenState`, `WellFormed` and `ModuleForm` say about the state of the code generator. `FlatMachines` refines that
  machine to the two flat ones, `CppMachine` and `PyMachine` are their interpreter loops, `Lockstep` compares them,
  `Deployment` puts these together. `CodeFlow` and `CodegenFlow` prove emitted code statically well formed,
  `CodeSafety` that such code is safe to run; `Verifier` and `VerifierNames` relate what the IR verifier accepts to
  what compiles. `PrimMeaning`, `BuiltinMeaning`, `CallMeaning` and `EntryReads` say what expressions, builtins, calls
  and entry code amount to without the definitions that evaluation and code generation share.
* **Memory planning.** `TensorIR` and `TensorSemantics` give tensor programs a meaning byte by byte, in which bytes
  that were never written are undefined. `AliasAnalysis`, `Lifetimes`, `StoragePlan` and `MemoryPlanning` are the
  planner. `AliasEdges` and `AliasSound` say what alias analysis finds; `MemoryFrame`, `StorageSharing`,
  `PlannedProgram` and `PlacedProgram` prove that running with shared storages cannot be told from running with private
  ones. `ShapeBounds`, `ShapeMeaning`, `EntryBounds`, `SymbolicSharing` and `LoopSharing` are about sizes and about
  where the plan is not safe, `PlanOptimal` is about how many storages it needs.
* **Rewriting.** `Rewriter` and `IRRewriter` are the substitution-based rewriter with its destination-passing pass.
  The results are that rewritten IR verifies, is a renaming of the pass's local change, and means the same;
  `ClosedCode` is about what verified IR depends on, `FilledBuffers` and `ReplacedCalls` about the calls that are lowered.
* **The whole way.** `TensorCalls` shows that the two meanings of the IR agree, bytes on one side and foreign calls on
  handles on the other; `Pipeline` composes rewriting, planning, placement, code generation, the file and the C++
  machine.
* **File format.** `Wire`, `Utf8`, `Format`, `Readers` and `BytecodeFile` are the writer and the two readers.
* **Views and shapes.** `RowMajor`, `Views` and `Indexing` prove which slices, selections and splits a tensor view
  denotes; `Broadcasting` is shape inference for broadcasting.

## Model

| member | source | states |
|---|---|---|
| Pipeline.FunctionalPipelineCorrect | python/devproc2/export/pipeline.py:131-156 | The whole way: a function of functional calls is lowered to destination-passing style, its memory is planned, its tensors are placed, code is generated, written to a file, read in C++ and invoked. Whenever the function runs with a storage for every tensor, and the plan is safe in the sense of `SharedStoragesAreInvisible`, the invocation returns; foreign code has then seen the same calls in the same order, kernels that take the place of functional calls apart, with every defined byte of their arguments; the returned value has the same tensors with every defined byte, and so has the caller's memory. |
| Pipeline.PipelineCorrect | python/devproc2/export/pipeline.py:145-148 | The same from a function in destination-passing style on, where every call counts. |
| Pipeline.EvaluatesPlaced | python/devproc2/compiler/passes/lower_tensor_create_to_alloc.py:56-108 | Before code generation: the function that placement returns, evaluated as a structured program, delivers the same, whatever foreign code left in the storages it gives out. |
| TensorCalls.FunctionSame | python/devproc2/compiler/passes/vm_codegen.py:223-253 | The two meanings of one IR agree: when placed ops run on bytes, the structured ops, with the storages that foreign code gives out, evaluate to the same value after calls that leave foreign code with the same history and, under the handles, the same bytes. |
| TensorCalls.OpsSame | python/devproc2/compiler/passes/vm_codegen.py:223-253 | The relation behind it, kept by every op, by both branches and by any number of rounds of nested loops. |
| TensorCalls.LeavesFailTogether | runtime/src/tensor.cc:71-111 | A placement, a view, a shape check or an item of a tuple runs in the tensor program if and only if the host accepts it. |
| TensorCalls.CallSame | python/devproc2/compiler/passes/vm_codegen.py:382-407 | A destination-passing call reaches foreign code with its inputs and outputs as handles, and what the kernel is then shown and writes is what it is shown and writes in the tensor program. |
| TensorSemantics.DescribesExactly | runtime/src/vm.cc:589-656 | What foreign code is shown of an argument besides its bytes tells two values apart exactly when they differ in more than where their tensors lie. |
| TensorCalls.ServerServes | runtime/src/vm.cc:589-656 | Foreign code of the kind that is assumed exists for every kernel: it gives out new handles and runs the kernel on its own memory. |
| Deployment.CppDeploymentCorrect | runtime/src/vm.cc:262-359 | Compile a module, serialize it, read it with the C++ reader and invoke a function, with arguments completed by weights: the call returns v after foreign calls w' if and only if the function means that, throws if and only if the function fails, and never touches a register, instruction or pool entry out of range. String constants are null in C++, in the file's program and in the meaning alike. Bytes after the executable do not matter. |
| Deployment.PyDeploymentCorrect | python/devproc2/vm/serializer.py:77-152 | The same for the Python reader and interpreter, where strings stay strings and a parameter without an argument is None. |
| Deployment.FileIsRead | python/devproc2/vm/serializer.py:24-75 | From the file of a compiled program, the Python reader gets that program and the C++ reader gets it with every string constant replaced by null. |
| Deployment.InvocationsAgree | python/devproc2/vm/interpreter.py:206-281 | When a C++ invocation returns and its calls are portable, the Python invocation returns the same value after the same foreign calls, up to strings that C++ has lost. |
| Deployment.CompiledInvocationsAgree | python/devproc2/vm/interpreter.py:206-281 | For a compiled module that is all there is to assume: its frames always fit and its runs are never stuck. |
| Deployment.CppInvokeCorrect | runtime/src/vm.cc:445-485 | On a freshly compiled module `Invoke` returns v if and only if the function means v, throws if and only if it fails, and is never stuck. |
| Deployment.CppInvokeRefuses | runtime/src/vm.cc:451-480 | With too many arguments, or one missing that no weight supplies, `Invoke` throws without making any foreign call. |
| Deployment.PyInvokeCorrect | python/devproc2/vm/interpreter.py:206-281 | The same if-and-only-if for the Python interpreter; parameters beyond the given arguments are None. |
| ProgramCorrect.ModuleCorrect | python/devproc2/compiler/passes/vm_codegen.py:186-219 | Over whole runs of the machine with separate frames: the code of every function of a compiled module, called by name, ends with v (or fails) if and only if the function means v (or failure), wherever it lies in the executable, however many functions share the pools. |
| FunctionCorrect.FunctionRuns | python/devproc2/compiler/passes/vm_codegen.py:194-219 | For every fuel: entry code, body and return of one function compute exactly what evaluation of the function with that fuel gives, including running out of fuel. |
| ControlFlowCorrect.IfRuns | python/devproc2/compiler/passes/vm_codegen.py:468-520 | The jumps, branches and result copies of an `if`, with or without an else branch, have the outcome of evaluating it and change no register allocated before it. |
| ControlFlowCorrect.ForRuns | python/devproc2/compiler/passes/vm_codegen.py:541-626 | The counter, the test, the body, the carried copies and the jump back have the outcome of evaluating the loop, for every number of rounds and any nesting. |
| ControlFlowCorrect.OpsRun | python/devproc2/compiler/passes/vm_codegen.py:223-253 | The code of any sequence of ops, control flow included, placed anywhere in a function, has the outcome of evaluating the ops. |
| StraightLineCorrect.MaterializeRuns | python/devproc2/compiler/passes/shape_expr_lowering.py:54-81 | The code of a bound shape expression leaves its value in the result register, or fails exactly when the expression has none, and changes no register allocated earlier. |
| StraightLineCorrect.MaterializesNumber | python/devproc2/compiler/passes/shape_expr_lowering.py:54-81 | Where variables are integers, what that code leaves is the number that the expression stands for in plain arithmetic, stated without the builtins; when there is none, the code fails. |
| PrimMeaning.PrimMeans | python/devproc2/ir/prim_expr.py:104-175 | The value of an expression over integers is its number in plain arithmetic, on both hosts, and it has none exactly when there is no such number. |
| PrimMeaning.OpMeans | runtime/src/builtins.cc:171-211 | Each arithmetic builtin gives the one number that arithmetic asks for: a difference plus its subtrahend is the minuend, a quotient leaves a remainder smaller than the divisor with the sign that the host prescribes, a minimum is one of the operands and no larger than either. |
| PrimMeaning.RoundsDownAndUp | runtime/src/builtins.cc:183-197 | For a positive divisor, quotients round down and up: in Python always, in C++ where the dividend is not negative. |
| BuiltinMeaning.BuiltinMeans | runtime/src/builtins.cc:18-240 | What every builtin that the compiler emits answers, for any arguments and on both hosts, as a relation between arguments and answer: positions count from the front, in Python also from the back; a view lies forward of its base and its bits end within the storage; a tuple of the C++ host holds references; anything else raises. |
| BuiltinMeaning.ShapeCheckMeans | runtime/src/builtins.cc:129-147 | The shape check passes exactly when the tensor has the dimension and it is at most the bound. |
| BuiltinMeaning.ComparisonMeans | runtime/src/builtins.cc:233-250 | The bound check raises exactly when the number exceeds the bound, and the loop test says whether the first number is smaller. |
| BuiltinMeaning.DispatchExactly | python/devproc2/vm/interpreter.py:283-303 | A call is answered by the host itself exactly if it names a builtin other than storage allocation, and in Python other than a view; every other call goes to foreign code and is recorded behind the earlier ones. |
| BuiltinMeaning.ConditionMeans | python/devproc2/vm/interpreter.py:268-272 | A condition must be a boolean in C++; in Python everything is true but None, zero, an empty string and an empty tuple. |
| CallMeaning.CallsExactly | python/devproc2/compiler/passes/vm_codegen.py:382-425 | A destination-passing call is made with the values of its inputs, then its outputs, and on the C++ host with the numbers that its launch expressions stand for; it changes nothing but the history, and is not made at all when one of them has no value. |
| CallMeaning.BoundMeans | python/devproc2/compiler/passes/vm_codegen.py:641-645 | A loop bound is what its name is bound to; a constant becomes the integer that Python makes of it, on both hosts. |
| EntryReads.EntryIsExact | python/devproc2/compiler/passes/shape_expr_lowering.py:97-150 | Entry code lets the arguments pass if and only if every parameter that has a symbolic dimension first is a tensor, has such a dimension, and none of the numbers read exceeds its bound; then each symbol holds the number at its last place in the first parameter that mentions it, and every parameter its argument. |
| EntryReads.RefusedArguments | python/devproc2/compiler/passes/shape_expr_lowering.py:97-150 | A function with other arguments fails before its first foreign call. |
| CodegenSpec.DigitsSpell | python/devproc2/compiler/passes/shape_expr_lowering.py:139-141 | The bound in the text of a refusal is written in decimal. |
| Codegen.CodegenModule | python/devproc2/compiler/passes/vm_codegen.py:186-192 | The pass as written, with mutable pools and patched placeholders, succeeds exactly when every function compiles and then builds the executable that the theorems above are about. |
| Codegen.CodegenFn | python/devproc2/compiler/passes/vm_codegen.py:194-219 | Compiling one function succeeds exactly when all its operands are bound; the executable gains its code and its entry and keeps the rest. |
| Codegen.FnCtx.LowerIf | python/devproc2/compiler/passes/vm_codegen.py:468-520 | Emitting placeholders and patching them afterwards gives the code with the right relative jumps from the start; it fails exactly on unbound operands. |
| Codegen.FnCtx.LowerFor | python/devproc2/compiler/passes/vm_codegen.py:541-626 | The same for loops. |
| Codegen.FnCtx.LowerTensorView | python/devproc2/compiler/passes/vm_codegen.py:324-380 | The branches on the byte offset (constant, scaled, shifted, both) emit the code whose offset `StraightLineCorrect` proves to be stride times index plus base. |
| Codegen.FnCtx.Materialize | python/devproc2/compiler/passes/shape_expr_lowering.py:54-81 | The recursive emission appends the code of the expression, and fails exactly when a variable is unbound. |
| Codegen.FnCtx.EmitCopies | python/devproc2/compiler/passes/vm_codegen.py:522-539 | One identity call for every destination, in order, cut off at the shorter list. |
| CopyOrder.SequentialIsParallel | python/devproc2/compiler/passes/vm_codegen.py:592-599 | Copying carried values one after another delivers, on every register file, what copying at once would deliver if and only if no source is a destination written earlier. |
| CopyOrder.CopySafeIsExact | python/devproc2/compiler/passes/vm_codegen.py:592-599 | The condition on loops that the theorems use, stated on the yield, is exactly the absence of such hazards among the emitted copies. |
| CodegenFlow.FunctionCodeIsOk | python/devproc2/compiler/passes/vm_codegen.py:194-219 | On every path through a compiled function: registers are below `num_regs`, pool indices are in range, jumps stay inside, control never runs off the end, preloaded constants are never overwritten and every register is written before it is read. |
| CodegenFlow.CompiledFunctionsAreOk | python/devproc2/compiler/passes/vm_codegen.py:205-219 | The same for every function of a compiled module, at the offset and with the frame size and the pools of the finished executable. |
| CodeSafety.RunsAreSafe | runtime/src/vm.cc:506-587 | What that is good for: code all of whose paths are well formed, run on two register files that agree where it counts as written on entry, does the same step by step whatever the other registers contain, stays inside its instructions, leaves its constants alone, and is stuck only where it calls another VM function. |
| CodeSafety.CompiledRunsAreSafe | python/devproc2/compiler/passes/vm_codegen.py:205-219 | The same for every function of a compiled module, once its arguments and constants are in their registers. |
| CodegenState.PooledExactly | python/devproc2/compiler/passes/vm_codegen.py:108-115 | The pool entry found or made for a constant holds that constant, except exactly when it is a float zero and the other zero came first. |
| CodegenState.InternedExactly | python/devproc2/compiler/passes/vm_codegen.py:135-146 | The table entry found or made for a callee has its name, and has its kind if and only if no entry of that name has another kind. |
| VirtualMachine.FramesIsolated | runtime/src/vm.cc:547-569 | A step changes only the top activation, except that a return writes one register of the activation below. |
| FlatMachines.CppRefines | runtime/src/vm.cc:487-587 | Every run of the C++ loop on one shared register vector is, step by step, the flat picture of a run with separate frames. |
| FlatMachines.PyRefines | python/devproc2/vm/interpreter.py:206-281 | The same for Python, with its return slots. |
| CppMachine.VMState.ExecuteLoop | runtime/src/vm.cc:506-587 | The loop over `regs_` and `frames_` performs exactly the modelled steps, up to a limit on instructions. |
| CppMachine.VMState.PushFrame | runtime/src/vm.cc:487-504 | Growing the register vector, copying arguments and storing constants gives the new frame and leaves all others as they were. |
| CppMachine.VMState.Bind | runtime/src/vm.cc:454-480 | The loop that appends weights computes the completed arguments, or none. |
| CppMachine.BindsMissing | runtime/src/vm.cc:451-480 | Arguments are completed to a list if and only if it extends those given to the right length and each further one is the weight of its parameter's name. |
| CppMachine.VMState.Invoke | runtime/src/vm.cc:445-485 | Lookup, binding, clean state and loop together, including every way to throw. |
| PyMachine.VMInterpreter.Invoke | python/devproc2/vm/interpreter.py:206-281 | The Python loop over lists of registers, frames and return slots performs exactly the modelled steps. |
| Lockstep.FlatMachinesAgree | python/devproc2/vm/interpreter.py:206-281 | Started alike, both flat machines go through pictures of the same states as long as the C++ one has not failed and the calls are portable. |
| Lockstep.RunsAgree | runtime/src/builtins.cc:18-240 | The step-by-step agreement behind it: registers, positions and foreign calls stay alike. |
| Lockstep.LikeRunsAreEqual | runtime/src/vm.cc:500-502 | Without string constants "alike" is equality of states, results and calls, up to launch arguments, which Python has none of. |
| Lockstep.BuiltinsAgree | python/devproc2/vm/interpreter.py:45-180 | Whatever the C++ builtins accept, the Python builtins accept with the same result, on portable arguments. |
| Lockstep.BuiltinsAgreeExactly | python/devproc2/vm/interpreter.py:45-180 | Of the calls that C++ accepts, views apart, Python gives the same result if and only if the arguments are portable: a division on which the hosts round alike, an element type whose fields fit. |
| Lockstep.DivisionsAgree | runtime/src/builtins.cc:183-197 | Truncating and flooring division agree, for every divisor but zero, if and only if the division is exact or both operands have the same sign. |
| Lockstep.CeilDivisionsAgree | runtime/src/builtins.cc:191-197 | Division rounded up: C++ refuses divisors that are not positive; on the others the hosts agree if and only if x + y - 1 is not negative or is a multiple of y. |
| BuiltinNames.MeantSpell | python/devproc2/compiler/passes/vm_codegen.py:148-152 | A callee's name on file means the same callee if and only if it is not the name of a builtin. |
| BuiltinNames.NamesakeIsBuiltin | python/devproc2/compiler/passes/vm_codegen.py:148-152 | A packed function that is given the name of a builtin is read back as that builtin, whichever it is. |
| Verifier.VerifyFunction | python/devproc2/ir/verifier.py:49-61 | The verifier as written, with its sets of definitions and its reports, accepts exactly the functions in which every operand is defined before use (a variable by its name) and regions yield what they should. |
| Verifier.VerifiedCompiles | python/devproc2/ir/verifier.py:143-164 | A verified function compiles if and only if in addition its variables and the symbolic dimensions in its shapes and launch sizes are bound objects (the verifier compares names only), its loop bounds are integers, and it returns at most one value. |
| VerifierNames.VerifiedNames | python/devproc2/ir/verifier.py:143-164 | In a verified function every variable has the name of a parameter or of an enclosing loop, the variables a loop carries have names that are new there, and no block defines a result twice. |
| VerifierNames.VerifiedVariablesAreBound | python/devproc2/ir/verifier.py:143-164 | If one name stands for one variable, a verified function uses bound variables only; it then compiles if and only if its dimensions are bound, its loop bounds are integers and it returns at most one value. |
| VerifierNames.WfFunctionIsVerified | python/devproc2/ir/verifier.py:49-61 | If one name stands for one variable, the verifier accepts every function that the correctness theorem covers. |
| Verifier.WfFunctionCompiles | python/devproc2/compiler/passes/vm_codegen.py:83-93 | Everything the correctness theorem covers is accepted by the code generator. |
| AliasAnalysis.ResolveIsReachability | python/devproc2/ir/analysis.py:111-131 | The search with a visiting set, cycles included, finds exactly the matching values that forwarding edges lead to through values that do not match. |
| AliasAnalysis.ProjectIsReachability | python/devproc2/ir/analysis.py:83-109 | The possible sources of a tuple item are exactly the elements at that position of the tuples reachable by forwarding. |
| AliasAnalysis.Analysis.ResolveMatching | python/devproc2/ir/analysis.py:111-131 | The method that marks and unmarks values computes that search and leaves the marks as they were. |
| AliasAnalysis.Analysis.ProjectTupleItem | python/devproc2/ir/analysis.py:83-109 | The same for tuple items. |
| AliasEdges.EdgesExactly | python/devproc2/ir/analysis.py:49-81 | The forwarding edges, op by op: a tuple to its elements, a view to its base, an item to the elements at its position of the tuples found so far, a conditional's result to what each branch yields at its position, a loop's result to what the loop starts with and what its body yields there; no others. |
| AliasEdges.TuplesExactly | python/devproc2/ir/analysis.py:49-57 | The analysis takes exactly the results of tuple ops for tuples, with their elements. |
| AliasSound.OpsCovered | python/devproc2/ir/analysis.py:49-81 | On every run, through tuples, views, branches and any number of rounds of loops, also loops whose results carry created tensors, each tensor that a value holds is reachable from that value by forwarding edges, provided that no variable carrying a created tensor is read. |
| AliasSound.ReturnedIsResolved | python/devproc2/compiler/passes/memory_planning.py:196-213 | In such a function every created tensor that a run returns, inside tuples, through branches and as a loop's result too, is among those resolved for the operands of the return. |
| MemoryFrame.OpsFrame | python/devproc2/compiler/passes/lower_tensor_create_to_alloc.py:91-108 | Running ops, loops included, changes no storage but those that its environment holds and those that the ops make in the rounds they run in. |
| TensorIR.IterOps | python/devproc2/ir/analysis.py:10-17 | The walk over a region lists each op before the ops of its regions, in order. |
| TensorIR.EffectExactly | python/devproc2/ir/ops.py:795-821 | The effect of an op, regions included, reads and writes exactly what the views, checks and calls in it do, however deep; a call writes its outputs even if its effect does not list them. |
| Lifetimes.ExplicitLastUses | python/devproc2/compiler/passes/memory_planning.py:297-304 | The table gives each tensor the largest position of an op that refers to it, directly or by forwarding. |
| Lifetimes.LastUsesWithEffects | python/devproc2/compiler/passes/memory_planning.py:306-333 | The second pass, over effects and opaque calls, changes no entry of that table. |
| MemoryPlanning.PlanFunction | python/devproc2/compiler/passes/memory_planning.py:266-366 | Planning succeeds exactly when creation names are distinct and every shape has a size, and then gives the first-fit plan of the tensors with exact lifetimes. |
| MemoryPlanning.LifetimeIsExact | python/devproc2/compiler/passes/memory_planning.py:297-333 | A lifetime starts at the creation, ends at the creation or at an op that refers to the tensor, and no op that refers to it lies beyond. |
| MemoryPlanning.ReturnedLivesToTheEnd | python/devproc2/compiler/passes/memory_planning.py:196-213 | A returned tensor lives to the final return. |
| MemoryPlanning.ReturnedStorageIsPrivate | python/devproc2/compiler/passes/memory_planning.py:394-427 | The planner never puts another tensor of the function into the storage of a returned one. |
| StoragePlan.GreedyPlan | python/devproc2/compiler/passes/memory_planning.py:394-427 | The loop over sorted tensors computes the first-fit plan. |
| StoragePlan.SortOk | python/devproc2/compiler/passes/memory_planning.py:399-399 | The order is ascending by definition and a permutation of the tensors. |
| StoragePlan.PlanIsSound | python/devproc2/compiler/passes/memory_planning.py:83-110 | Every tensor gets one storage, on its device and large enough for it, and tensors that share one never overlap in lifetime. |
| StoragePlan.FirstFitExactly | python/devproc2/compiler/passes/memory_planning.py:394-427 | Where each tensor goes, in terms of sizes, devices and lifetimes of the tensors before it: a reusable tensor opens a storage if and only if every earlier one is on another device, smaller, or holds a tensor live at the same time; otherwise it joins the first that is none of these. Storages are numbered as they are opened. |
| StoragePlan.OpenerOf | python/devproc2/compiler/passes/memory_planning.py:394-427 | A storage has the device and the size of the tensor that opened it, and an alignment of 256. |
| PlanOptimal.GreedyIsOptimal | python/devproc2/compiler/passes/memory_planning.py:394-427 | For reusable tensors on one device whose static sizes never grow in the order of definition, first fit needs as many storages as are live at the busiest point, which no assignment can beat. |
| ShapeBounds.UpperIsSound | python/devproc2/compiler/passes/memory_planning.py:122-148 | On expressions of sums, products, minima, maxima and division by positive constants, the planned bound is never exceeded, and the value exists and is not negative. |
| ShapeBounds.PlannedBytesSuffice | python/devproc2/compiler/passes/memory_planning.py:155-171 | The planned bytes hold every tensor of such a shape. |
| ShapeMeaning.UpperMeans | python/devproc2/compiler/passes/memory_planning.py:122-148 | The planned bound of an expression is its value with every variable at its bound and divisors at least one; without one, the first fault in the order of evaluation is told. |
| ShapeMeaning.SizeMeans | python/devproc2/compiler/passes/memory_planning.py:151-171 | A size is planned if and only if every dimension has a bound, and is the least positive multiple of 256 with room for the elements. |
| ShapeMeaning.PlannedExactly | python/devproc2/compiler/passes/memory_planning.py:151-171 | For elements of whole bytes, the static size of a created tensor is the least such room for its bytes with every dimension at its bound. |
| ShapeMeaning.ComputedExactly | python/devproc2/compiler/passes/memory_planning.py:174-186 | A size without a static bound evaluates, once dimensions have values, to the bytes of the tensor. |
| ShapeMeaning.SameExprExactly | python/devproc2/ir/prim_expr.py:225-248 | Two expressions compare equal if and only if they differ in nothing but the identity of their variables. |
| EntryBounds.CheckedTensorsFit | python/devproc2/compiler/passes/shape_expr_lowering.py:84-150 | Once the entry code of a function has let the arguments pass, every tensor whose shape is over the checked dimensions fits its planned bytes. |
| ShapeBounds.SameExprSameValue | python/devproc2/ir/prim_expr.py:225-248 | Structurally equal expressions have one value if the variables occurring in them that look alike do. |
| PlannedProgram.SharedStoragesAreInvisible | python/devproc2/compiler/passes/lower_tensor_create_to_alloc.py:56-108 | If a program runs with private storages, then with the planned shared ones, whatever they contain at first, it also runs, makes the same calls in the same order, and every defined byte that calls see, that is returned, or that lies in the caller's tensors is the same. Loops are included if they carry no created tensor, if a tensor from before a loop whose lifetime reaches into the loop lives to its end, and if none created inside is referred to after it. Symbolic sizes are included if the variables in them that look alike have one value. |
| PlannedProgram.StorageIsOnDevice | python/devproc2/compiler/passes/lower_tensor_create_to_alloc.py:68-87 | Each created tensor is placed in a storage that is allocated at entry on the tensor's own device. |
| PlannedProgram.NoLoopsAreSafe | python/devproc2/compiler/passes/memory_planning.py:297-304 | Functions without loops always meet the condition on loops. |
| StorageSharing.OpsRel | python/devproc2/compiler/passes/lower_tensor_create_to_alloc.py:91-108 | The invariant behind it: after every op, in every round of every loop around it, every live tensor has its defined bytes in its shared storage. |
| PlacedProgram.PlacementIsInvisible | python/devproc2/compiler/passes/lower_tensor_create_to_alloc.py:56-108 | The same for the IR that the pass really returns, rebuilt and renumbered by the rewriter with the storages hoisted. |
| SymbolicSharing.SafeOverExactly | python/devproc2/compiler/passes/memory_planning.py:92-109 | Over positive symbolic dimensions, one of them without a bound, sharing is invisible in every function with safe loops if and only if dimensions of one name and one bound hold one value. |
| SymbolicSharing.SymbolicStoragesAreShared | python/devproc2/compiler/passes/memory_planning.py:92-109 | The theorem is not about static sizes only: two tensors of one unknown size meet all its hypotheses and share a storage. |
| Rewriter.OpsVerified | python/devproc2/compiler/passes/_rewriter.py:57-111 | A rewritten block refers only to what is defined before it in the rewritten program, regions and loop variables included. |
| Rewriter.FunctionVerified | python/devproc2/compiler/passes/_rewriter.py:49-52 | A verified function is rebuilt to a verified one, whatever the pass inserts or replaces. |
| ClosedCode.OpsSame | python/devproc2/ir/verifier.py:143-164 | What being verified is good for: two runs of verified ops from states that differ only in names not defined before them both fail or end alike, with the same memory, history and defined names, branches and any number of rounds included. |
| ClosedCode.FunctionSame | python/devproc2/ir/verifier.py:143-164 | A verified function depends on its parameters only: what it returns, calls and leaves in memory. |
| RewriterCorrect.OpsRenamed | python/devproc2/compiler/passes/_rewriter.py:57-111 | Rewriting equals the pass's local change followed by one renaming of results: substitution while walking never misses or mixes up an operand. |
| RewriteMeaning.OpsRn | python/devproc2/compiler/passes/dps_lowering.py:78-145 | The step-by-step relation: when the original ops run, so do the rewritten ones, and the states stay alike, replaced calls included. Nothing is said about original runs that fail. |
| RewriteMeaning.RewritePreservesMeaning | python/devproc2/compiler/passes/dps_lowering.py:78-145 | Whenever a function runs, its form in destination-passing style, with each functional call replaced by a new buffer and a kernel that implements the call, runs too: it returns the same values and bytes, makes the same other calls and leaves the caller's memory the same. |
| ReplacedCalls.CallsAreReplaced | python/devproc2/compiler/passes/dps_lowering.py:78-145 | If every functional call of a function has a kernel, none is left in its lowered form, in no region. |
| ReplacedCalls.OpaqueCallsStay | python/devproc2/compiler/passes/_rewriter.py:57-111 | Whatever the pass, the opaque calls of a function stay opaque and in order, and none is added. |
| FilledBuffers.BuffersAreFilledFirst | python/devproc2/compiler/passes/dps_lowering.py:115-143 | In every run of the lowered function each buffer that the pass inserts is filled by the call that directly follows its creation, before anything reads it. |
| FilledBuffers.TraceIsHistory | python/devproc2/compiler/passes/vm_codegen.py:223-253 | The order of execution that this speaks of is the real one: a run makes exactly the calls of its trace, in order. |
| IRRewriter.Rewriting.RewriteFn | python/devproc2/compiler/passes/_rewriter.py:49-52 | The rewriter as written, with its mutable map and object counter, computes the rewriting that the lemmas above are about. |
| IRRewriter.Rewriting.RewriteOp | python/devproc2/compiler/passes/_rewriter.py:67-73 | Operands are substituted before regions are walked and results are registered after both. |
| FormatRoundTrip.PyReadsBack | python/devproc2/vm/serializer.py:77-152 | Reading what was written gives the executable back and stops right after it, for every executable whose numbers fit their fields and whatever follows. |
| FormatRoundTrip.CppReadsBack | runtime/src/vm.cc:262-359 | The C++ reader gets the same executable with null for every string constant, and stops at the same place. |
| Format.HeaderBytes | python/devproc2/vm/serializer.py:15-29 | Every file begins with the bytes of DV2E, version 3 and the three counts, lowest byte first. |
| Format.ConstBytes | python/devproc2/vm/serializer.py:61-73 | A constant takes a tag byte, which tells its type, and eight bytes, or the length and the bytes of its text. |
| Wire.FitsExactly | python/devproc2/vm/serializer.py:24-75 | A number fits a field, signed or not, if and only if some bytes of that length are read as it. |
| FormatPrefixes.CppRejectsPrefixes | runtime/src/vm.cc:36-65 | No strict beginning of a file is accepted in C++. |
| FormatPrefixes.CppIgnoresTheRest | runtime/src/vm.cc:262-359 | What is read depends only on the bytes before the position reached, for any bytes at all. |
| FormatCuts.PyAcceptsCutStrings | python/devproc2/vm/serializer.py:77-152 | Python accepts a strict beginning of a file if and only if the file ends with a string and the cut is before one of that string's characters; the result then differs in that string only. |
| Readers.NegativeCounts | runtime/src/vm.cc:293-298 | A negative number of constant registers is none to the Python reader, and makes the C++ reader run out of data. |
| BytecodeFile.Serialize | python/devproc2/vm/serializer.py:24-75 | The writer produces the encoding, or fails exactly when some number does not fit its field. |
| BytecodeFile.CppLoad | runtime/src/vm.cc:262-359 | The reader that advances a position agrees with the parsing function on every input, malformed ones included. |
| BytecodeFile.PyLoad | python/devproc2/vm/serializer.py:77-152 | The same for Python. |
| Utf8.DecodeEncode | python/devproc2/vm/serializer.py:24-75 | Decoding inverts encoding for every string. |
| Utf8.EncodeDecode | python/devproc2/vm/serializer.py:77-152 | Only encodings decode: overlong and surrogate forms are refused. |
| RowMajor.ContiguousIffWhole | python/devproc2/nn/builder.py:643-647 | A box inside a row-major tensor occupies consecutive places in its own row-major order if and only if it takes whole every axis after one of which it takes more than one position. |
| RowMajor.SelectIffOuterOne | python/devproc2/nn/builder.py:362-381 | The part at one position of an axis is contiguous if and only if all axes before it have length one, or it has length one itself. |
| Views.Builder.EmitSlice | python/devproc2/nn/builder.py:383-431 | The method appends the view op that the lemmas below are about, or nothing when it raises. |
| Views.Builder.EmitSelect | python/devproc2/nn/builder.py:362-381 | The same for a position on an axis. |
| Views.Builder.EmitIndex | python/devproc2/nn/builder.py:433-463 | A list of selectors appends one view for each, axes shifting as positions drop out; an error stops it after the views already emitted. |
| Views.Builder.EmitSplit | python/devproc2/nn/builder.py:465-480 | One slice for each section, each starting where the one before it ended. |
| Views.SliceRunsExactly | runtime/src/tensor.cc:71-111 | A slice, empty or not and with static or one dynamic start, denotes the address of its first element, if and only if the part is within the storage; otherwise the machine's check fails. |
| Views.SliceRuns | runtime/src/tensor.cc:71-111 | A slice in range that is not empty always passes the check. |
| Views.SectionRuns | python/devproc2/nn/builder.py:465-480 | So does every section of a split, an empty one included, when no other dimension is empty. |
| Views.SliceElements | python/devproc2/nn/builder.py:383-431 | The elements of the view are the intended elements of the base if and only if the slice takes the later axes whole. |
| Views.SelectRuns | python/devproc2/nn/builder.py:362-381 | Selecting a position in range passes the check and gives the view at that position. |
| Views.AxisExactly | python/devproc2/nn/builder.py:617-624 | An axis is counted from the front, or from the back with -1 as the last one; anything else is refused. |
| Views.SelectElements | python/devproc2/nn/builder.py:362-381 | Its elements are the intended ones if and only if all axes before the selected one have length one, or it has length one itself. |
| Views.ChainElements | python/devproc2/nn/builder.py:433-463 | Selecting the first axis again and again denotes the intended part, for chains of any length. |
| Views.SplitPartitions | python/devproc2/nn/builder.py:465-480 | Every element of a tensor split along its first axis lies in exactly one section, at the address it has in the tensor. |
| Indexing.IndexRuns | python/devproc2/nn/builder.py:433-463 | All views that indexing in range emits pass their checks and end in the tensor at the right address with the right shape. |
| Indexing.IndexElements | python/devproc2/nn/builder.py:433-463 | The elements reached by indexing are the intended ones if and only if the part asked for takes the later axes whole. |
| Broadcasting.Infer | python/devproc2/compiler/op/infer.py:210-226 | The loop from the last dimension computes the broadcast of the two shapes, a clash, or that it is unknown. |
| Broadcasting.InferredExactly | python/devproc2/compiler/op/infer.py:210-226 | A broadcast is known if and only if in every pair of dimensions one is 1 or both are the same expression, and then takes the one that is not 1; otherwise the first pair from the right that is neither decides: two constants are a clash, anything else is unknown. |
| Broadcasting.SoundExactly | python/devproc2/compiler/op/infer.py:210-226 | Under any values of the dimensions, an inferred shape is what broadcasting the two actual shapes gives if and only if every pair of dimensions that was taken for equal is equal or has one on the right; a clash found is always one. |
| Broadcasting.BroadcastIsSound | python/devproc2/compiler/op/infer.py:210-226 | Inference is right whenever the variables of the two shapes that look alike have one value. |
| Broadcasting.SoundOverExactly | python/devproc2/compiler/op/infer.py:236-241 | Inference is right about all shapes over given dimensions if and only if those that look alike have one value. |
| Broadcasting.BroadcastCommutes | python/devproc2/compiler/op/infer.py:210-226 | Swapping the operands changes neither the shape nor the kind of failure. |
| Broadcasting.BroadcastAssociates | python/devproc2/compiler/op/infer.py:210-226 | Both ways of broadcasting three shapes give structurally equal shapes, or both fail. |
| CodegenState.NegativeZeroIsConflated | python/devproc2/compiler/passes/vm_codegen.py:108-115 | After +0.0, the constant -0.0 is interned as +0.0. |
| CodegenState.KernelIsMisfiled | python/devproc2/compiler/passes/vm_codegen.py:135-146 | A kernel with the name of a packed function gets the packed function's entry. |
| CopyOrder.SwapLosesAValue | python/devproc2/compiler/passes/vm_codegen.py:592-599 | The copies that are emitted for a loop that swaps its two carried values, wherever they lie in a function, leave both registers with the same value. |
| Lockstep.PythonIsMoreLenient | python/devproc2/vm/interpreter.py:45-180 | Conditions, positions and a division on which the hosts differ. |
| Lockstep.StringsAreLost | runtime/src/vm.cc:262-359 | A function that returns a string constant returns null in C++ and the string in Python. |
| Verifier.NamesakeDoesNotCompile | python/devproc2/ir/verifier.py:143-164 | A variable with a parameter's name passes the verifier but cannot be compiled. |
| LoopSharing.LoopsBreakSharing | python/devproc2/compiler/passes/memory_planning.py:297-304 | Two families of functions in which two tensors share a storage: a loop that reads an older tensor before it writes one of its own, and a loop that carries an older tensor. What the calls see is the same if and only if the first goes round at most once, and the second never. Neither is safe: the first fails the condition on lifetimes only, the second the one on carried tensors only. |
| StorageSharing.LoweredCreationIsFaithful | python/devproc2/compiler/passes/lower_tensor_create_to_alloc.py:96-108 | A lowered creation keeps the initial contents, whatever the storage held, if and only if the tensor was not initialised or is empty. |
| StoragePlan.NotReusableMayBeShared | python/devproc2/compiler/passes/memory_planning.py:400-419 | On its own, first fit lets a later tensor into the storage of one that is not reusable, if that one's lifetime is over. |
| SymbolicSharing.RunsShared | python/devproc2/compiler/passes/memory_planning.py:92-109 | A view of the second of two tensors in one dynamic storage passes the check if and only if the second is no larger than the first. |
| ShapeBounds.SubIsNotBounded | python/devproc2/compiler/passes/memory_planning.py:122-148 | With both bounds 8 the difference 8 - 0 exceeds its planned bound 0. |
| ShapeBounds.QuotientIsNotBounded | python/devproc2/compiler/passes/memory_planning.py:122-148 | With both bounds 8 the quotient 8 // 1 exceeds its planned bound 1. |
| ShapeBounds.SubIsBoundedExactly | python/devproc2/compiler/passes/memory_planning.py:122-148 | The planned bound of a difference of two variables holds if and only if the second can only be zero. |
| ShapeBounds.QuotientIsBoundedExactly | python/devproc2/compiler/passes/memory_planning.py:122-148 | The planned bound of a quotient of two variables holds if and only if the divisor is at most one or the dividend can only be zero. |
| ShapeBounds.CeilIsBoundedExactly | python/devproc2/compiler/passes/memory_planning.py:122-148 | The planned bound of a quotient of two variables rounded up holds if and only if one of them is at most one. |
| ShapeBounds.FactorIsBoundedExactly | python/devproc2/compiler/passes/memory_planning.py:122-148 | The planned bound of a variable times a constant holds if and only if the constant is not negative or the variable can only be zero. |
| Views.EmptyPartMayFail | runtime/src/tensor.cc:71-111 | Of two rows of three bytes, a slice of no rows after the last row, from the second column on, starts beyond the storage. |
| Indexing.ColumnIsNotAView | python/devproc2/nn/builder.py:433-463 | One column of two rows is asked for in range but is not in one piece. |
| Broadcasting.NamesakesBroadcast | python/devproc2/compiler/op/infer.py:236-241 | For one variable on each side that look alike, inference is right if and only if their values are equal or the second is one. |
| Broadcasting.FailureDependsOnGrouping | python/devproc2/compiler/op/infer.py:210-226 | Whether a clash or an unknown shape is reported depends on the grouping. |

## Findings

Properties that one would expect, or that the documentation suggests, and that the code does not have. Each has an
input on which it fails and the exact condition under which it holds.

| expected | fails on | holds exactly when |
|---|---|---|
| Storages planned for symbolic sizes are large enough | two dimensions named `n`, the later one larger (`ShapeBounds.NamesakesDiffer`, `SymbolicSharing.RunsShared`) | dimensions of one name and one bound hold one value (`SymbolicSharing.SafeOverExactly`) |
| Tensors with disjoint lifetimes can share a storage | two rounds of a loop that reads `a`, then creates and writes `b`; one round of a loop that carries `a` and writes `b` before it reads what it carries (`LoopSharing.LoopsBreakSharing`) | in those two families: at most one round, and none; in general it is enough that loops carry no created tensor and that older tensors whose lifetimes reach into a loop live to its end (`PlannedProgram.SharedStoragesAreInvisible`), and neither half of that can be left out (`LoopSharing.ReadingIsNotSafe`, `LoopSharing.CarryingIsNotSafe`) |
| Lowering a creation keeps its contents | `zeros` or `full` in a storage that held something else | the tensor is not initialised or is empty (`StorageSharing.LoweredCreationIsFaithful`) |
| The planned bound of a size is never exceeded | 8 - 0 and 8 // 1 with both variables bounded by 8 (`ShapeBounds.SubIsNotBounded`, `ShapeBounds.QuotientIsNotBounded`) | `a - b`: `b` can only be 0 (`ShapeBounds.SubIsBoundedExactly`); `a // b`: `b` is at most 1 or `a` only 0 (`ShapeBounds.QuotientIsBoundedExactly`); rounded up: `a` or `b` is at most 1 (`ShapeBounds.CeilIsBoundedExactly`); `a * c`: `c` is not negative or `a` only 0 (`ShapeBounds.FactorIsBoundedExactly`); without these, always (`ShapeBounds.UpperIsSound`) |
| A tensor that is not reusable keeps its storage to itself | a tensor marked so that is dead before another is created (`StoragePlan.NotReusableMayBeShared`) | the planner only marks tensors that live to the end, so always in its plans (`MemoryPlanning.ReturnedStorageIsPrivate`) |
| Broadcast shapes are right whatever the dimensions are | `[n]` and `[n]` with two variables `n` of values 2 and 3 (`Broadcasting.NamesakesBroadcast`) | variables that look alike have one value (`Broadcasting.SoundOverExactly`); pair by pair: `Broadcasting.SoundExactly` |
| A loop carries over all values of its yield | a loop that swaps two values (`CopyOrder.SwapLosesAValue`) | no source is a destination written earlier (`CopyOrder.SequentialIsParallel`, on the IR `CopyOrder.CopySafeIsExact`) |
| A constant register holds its constant | -0.0 after +0.0 (`CodegenState.NegativeZeroIsConflated`) | it is no zero, or the other zero was not first (`CodegenState.PooledExactly`) |
| A call has the kind it was compiled with | one name used for a kernel and a packed function (`CodegenState.KernelIsMisfiled`) | no other kind has the name (`CodegenState.InternedExactly`) |
| A callee is found again under its name | a packed function called like a builtin (`BuiltinNames.NamesakeIsBuiltin`) | its name is not that of a builtin (`BuiltinNames.MeantSpell`) |
| What verifies compiles | a variable with the name of a parameter (`Verifier.NamesakeDoesNotCompile`) | variables and dimensions are bound objects, loop bounds integers, and at most one value is returned (`Verifier.VerifiedCompiles`); the variables are if one name stands for one variable (`VerifierNames.VerifiedVariablesAreBound`) |
| A truncated file is refused | Python, a file that ends in a string, cut inside it | the cut is not before a character of a final string (`FormatCuts.PyAcceptsCutStrings`); in C++ always (`FormatPrefixes.CppRejectsPrefixes`) |
| Both hosts load the same constants | any string constant (`Lockstep.StringsAreLost`) | it is no string (`Lockstep.LoadsAgree`) |
| Both hosts divide alike | -7 by 2 and 7 by -2 (`Lockstep.PythonIsMoreLenient`) | the division is exact or the signs are the same (`Lockstep.DivisionsAgree`); rounded up, for a positive divisor y: x + y - 1 is not negative or a multiple (`Lockstep.CeilDivisionsAgree`) |
| A slice, selection or index denotes the elements it names | one column of a matrix (`Indexing.ColumnIsNotAView`) | the part takes later axes whole (`Views.SliceElements`, `Indexing.IndexElements`); for a position on an axis, the axes before it have length one, or it has (`Views.SelectElements`) |
| A slice in range passes the check | no rows after the last one, from the second column on (`Views.EmptyPartMayFail`) | its first address and its size are within the storage (`Views.SliceRunsExactly`) |

## Left out

Where the model says less than the source does:

- ProgramCorrect.ModuleCorrect: covers modules in which loops copy without hazards, a name has one kind and at most one of the two float zeros occurs; the exact effect of each exclusion is a finding above. A loop without end means nothing, and the machines then do not return.
- Deployment.CppInvokeCorrect: the weight store is a function from parameter names to values; device copies are not modelled.
- Deployment.PyInvokeCorrect: more arguments than parameters overwrite registers in the source; this is not described.
- CppMachine.VMState.ExecuteLoop: has a limit on instructions, so that the loop ends; the theorems quantify over it.
- PyMachine.VMInterpreter.Invoke: a negative list index counts as stuck, where Python would count from the end; compiled code has none.
- Lockstep.FlatMachinesAgree: is about portable calls only: divisions on which the hosts agree, element types whose fields fit theirs, no tensor view, which only the C++ host has.
- PlannedProgram.SharedStoragesAreInvisible: is about safe loops only, since with others it is false (see the findings); and without zeros and full tensors, for the same reason. Dynamic sizes must evaluate where storages are hoisted to. Foreign code may depend on defined bytes only.
- AliasSound.OpsCovered: a variable that carries a created tensor must not be read: the source gives loop results forwarding edges, and the variables inside the loop none.
- RewriteMeaning.OpsRn: says nothing about runs that fail: what implements a call may do anything where the call has no meaning.
- RewriteMeaning.RewritePreservesMeaning: needs op objects to be distinct, and kernels that implement the functional call and do not depend on earlier calls; what kernels compute is not modelled.
- Pipeline.PipelineCorrect: is about the C++ host; tuples hold tensors, storages and tuples only, which that host demands, and string constants do not occur; calls write their outputs and have no further effects; launch sizes are integers over symbolic dimensions; at most the first returned value counts. That the generated function is well formed is assumed as for any module.
- PlanOptimal.GreedyIsOptimal: is about static sizes that never grow in the order of definition; otherwise first fit is not optimal and nothing is claimed beyond `StoragePlan.FirstFitExactly`.
- EntryReads.EntryIsExact: parameters and symbolic dimensions are different objects, as they are in the source.
- ShapeBounds.UpperIsSound: leaves subtraction, negative factors and division by an expression out, where the bound fails (see the findings).
- EntryBounds.CheckedTensorsFit: a dimension that occurs twice is taken from its last occurrence, as in the source, which does not compare occurrences.
- FormatPrefixes.CppRejectsPrefixes: counts may be as large as their fields allow; memory for them is not modelled.
- Views.Builder.EmitSlice: strides other than one are refused, as in the source.

What the repository does and the model does not:

- Overflow of 64-bit and 32-bit integers in the machines; integers are unbounded, file fields excepted.
- Float arithmetic: float constants are bit patterns that are only stored and compared. Float and string loop bounds or conditions (Python's `int(...)` of them) are refused.
- Parsing of device and dtype strings (given parsed), item sizes other than whole bytes, kernel spec metadata, string launch expressions.
- The separate dictionary of the shape lowerer; its bindings live in the register map of the function.
- The identity builtin is looked up again where the source keeps its index; the index is the same.
- `CudaCallOp` before lowering is a call without results; other foreign calls with results are not modelled.
- Lone surrogates in Python strings; unknown enumerators in C++, which are stored unchecked (a file of a compiled program has none).
- `StorageEntry` objects and storage plans are values; object identities in the IR are numbers from a counter; a rebuilt `AllocStorageOp` keeps its number.
- Subclasses that override rewriter methods are cases of one pass type; the kernel registry is a function.
- Shapes of `empty_like` are given resolved. Fill values of full tensors do not occur; their bytes count as defined.
- The frontend, struct inference other than broadcasting, CUDA code generation, artifacts, weight packages, the tokenizer, the printer and the models.
