# Verification of the executorch-numpy-runtime protocol

ExecuTorch's `Module` is not thread-safe, its outputs alias an arena that the next call overwrites, it may write into the inputs it borrows, and its OpenVINO delegate loads a library once per process with no retry. This project models what the repository builds around that: the locking and copying of `run_method`, the order in which the public API enters it, the resolver and the guard in front of the delegate, the marshalling between numpy and the core, and the checker of the USDT probe notes. The `Module` itself is an opaque deterministic transition (`Protocol.Config`), so the results hold for every behaviour it can have.

## Shape of the model

* `Protocol` is a transition system. A state has any number of threads and Runtimes, the GIL, one mutex per Runtime, the process environment, the files, the delegate's once-only load, and a heap of buffers that may be collected as soon as nothing keeps them alive. One action is one lock, read, execute, copy, write or unlock of a thread; or a thread makes a call, a caller makes an array, a buffer is collected, a file appears. Calls are made on what the thread can have: arrays made by a caller or returned by a finished call, Programs and Methods returned by finished calls, or the core Runtime directly. Arguments are references: marshalling copies nothing, and an execute may write into the buffers it borrows. The GIL may change hands between any two actions of the Python resolver.
* `Sequential` is the reference: what a Module answers when the accesses of a log are made one after the other, with the arena copied at once. It knows no threads, locks or heap.
* `Invariant`, `Preservation`, `Turns` and `Runs` show that every action keeps each thread in step with the reference; `Growth` and `Executions` say what stays along runs and what an execute is made on. `Locks`, `Termination`, `Linearizability`, `CallLevel`, `Permanence`, `Aliasing`, `Api`, `Safety` and `Outcomes` hold the results over runs; `Outcomes` says them in terms of what the Module itself lists, describes, computes and writes, without the reference functions.
* `EtCore`, `Binding`, `Openvino` and `BufferLoad` are the bodies that change things in place, as one thread executes them: classes over an arena array, borrowed inputs, a vector of storage, mutex and environment. Their contracts are stated with the same reference functions the protocol uses, so the copy-out loop is shown to refine the protocol's copying and the atomic snapshot alike.
* `Marshal`, `DtypeMap` and `RoundTrip` are the value mappings; `UsdtNotes` and `UsdtPrinter` the probe checker and the notes it reads.

Assumptions about foreign code are preconditions: `Trusted` (metadata of a method that executes through the OpenVINO delegate names that delegate, and the empty path is no file), `SaneModule` (outputs lie in the arena and tensors have the byte count their sizes and dtype give), `Transparent` (metadata reads only fill caches; used for `CallLevel` alone). Within a run only this package writes `OPENVINO_LIB_PATH`, files may appear but do not vanish, the glob over the openvino wheel gives every resolver the same result, and every call to the Module terminates. A returned array counts as referred to for ever, so that it is alive in every later state is how the model collects buffers; what is proved of it is its contents.

One property holds under a condition. A result keeps its contents as long as it is passed to no other call; when it is passed on, the Module that borrows it may write into it, and `Aliasing.PassedOnChanges` gives the run. `Executions.OnlyExecutesWrite` says step by step exactly when bytes change, and `Aliasing.KeptByEveryModule` that borrowing is exactly what lets some Module change them.

Three places where comments or documents differ from the code, and the code was followed: the comment at `src/et_core/et_core.cpp:80` says `owned_bytes` is declared after `module`, while it is declared before it and so destroyed after it; the comment at `src/binding/module.cpp:96` speaks of a view into arena memory, while the view is into the core's own storage; and the OpenVINO design puts the guard on a method-load path, while it runs at the start of `run_method`.

## Model

| member | source | states |
|---|---|---|
| Linearizability.Linearizable | src/et_core/et_core.cpp:208-297 | for any threads, Runtimes, calls and interleaving, a call that executed has its own place in the order in which the Runtime's mutex was taken; the access there is its method on its arguments, with the bytes they had in the state in which it was about to execute; and what it returned is what the sequential reference gives at that place |
| Linearizability.ExecutesAreOnArguments | src/et_core/et_core.cpp:211-229 | the same of every execute in a Runtime's log, finished call or not: some earlier state had the call about to execute, and what is logged is its method on the tensors of its arguments with the bytes they had then |
| Linearizability.ExecutesOnItsArguments | src/et_core/et_core.cpp:211-229 | end to end: when no execute between the making of a call and its own execute borrows one of its arguments, the logged execute is on these as they were when the call was made, and the call returned the sequential outcome of that |
| Executions.StepExecutes | src/et_core/et_core.cpp:229 | a step that logs an execute logs it at the place of the call of its thread, as that call's method on its arguments' contents in the state before the step |
| Linearizability.ExecutesAreCalls | src/et_core/et_core.cpp:226-229 | every place in that order belongs to a call on that Runtime, at most the last has no access yet, and every execute is its call's only one |
| Linearizability.MetadataLinearizable | src/et_core/et_core.cpp:96-166 | metadata calls and load_method, which may mutate the Module, have their own place too, with the read they ask for, and there they answer exactly what the Module in its state at that place lists or describes, and raise LoadFailed exactly when it fails to; load_method returns a Method exactly when that list has its name |
| Linearizability.RealTimeOrder | src/et_core/et_core.cpp:226-229 | no place taken after a call has returned is that call's, and every place of a call made after that is behind all of its places, for executes and metadata reads alike |
| Outcomes.ReturnsWhatWasComputed | src/binding/module.cpp:66-101 | for every finished call that returned, in every run: output by output the value its execute computed; integers, floats and booleans themselves, a text whose bytes decode to it, and for a tensor an array of its shape, of numpy's dtype for its kind and size of element, and of its bytes in the arena the execute left |
| Outcomes.EndsAsComputed | src/et_core/et_core.cpp:228-281 | how every finished call that executed ended, by what its execute did: ExecutionFailed if it failed, UnsupportedOutput if some output is a list or none, else the fault of the first output numpy or UTF-8 refuses, a text by its number, else a list |
| Outcomes.ResultsHoldWhatWasComputed | src/et_core/et_core.cpp:29-34 | and it stays: in every reachable state an array that was passed to no call is alive and holds the bytes that were computed for it |
| Outcomes.ExecutesOnWhatWasPassed | src/et_core/et_core.cpp:211-220 | the execute of every finished call has one tensor for each argument, in order, with the ScalarType of its dtype, its extents narrowed to 32 bits, and the bytes its own buffer held in the state in which the call was about to execute |
| Outcomes.ArgumentsAreBorrowed | src/binding/module.cpp:155-158 | an execute borrows the buffers of its call's arguments, in order, and nothing else |
| Outcomes.WhatExecutesWrite | src/et_core/et_core.cpp:217-229 | after an execute each of its arguments holds the last thing its Module wrote there that fits, or what it held before |
| Outcomes.OthersWriteNothing | src/et_core/et_core.h:60-64 | and no other step, of a thread, caller or collector, changes any buffer |
| Outcomes.ConstructorsReadTheirProgram | executorch_numpy_runtime/_openvino.py:44-55 | what a finished constructor had read from the Module: a list without any delegated method if it found no OpenVINO, metadata that names it if it found one, a failed read if it raised LoadFailed |
| Outcomes.SawMeans | src/et_core/et_core.cpp:157-166 | to have seen OpenVINO is that the Module, at that place of the log, described the method with a backend of that name |
| Sequential.ReplayMeans | src/et_core/et_core.cpp:96-166 | the reference starts where the Module was loaded and moves by the Module's own functions, one access after the other |
| Sequential.ReplyMeans | src/et_core/et_core.cpp:96-166 | each access of the reference answers exactly what the Module does: the whole list, the metadata, or all outputs |
| Sequential.OutcomeMeans | src/et_core/et_core.cpp:228-281 | what the reference returns or raises at an execute, by what the Module did there |
| Sequential.ReturnedMeans | src/et_core/et_core.cpp:237-293 | a list the reference returns has every output as the value it stands for |
| Sequential.TensorsAreTheArrays | src/et_core/et_core.cpp:211-220 | the tensors of a list of arrays are theirs, one for one |
| CallLevel.CallsAreLinearizable | README.md:71-73 | when metadata reads are transparent, outcomes are those of the run_method calls alone run sequentially in lock order, each on its arguments with the bytes they had when it was about to execute |
| CallLevel.ExecuteAlone | src/et_core/et_core.cpp:96-101 | removing the metadata reads from a log keeps the order and the outcome of every execute |
| CallLevel.ExecutesInOrder | src/et_core/et_core.cpp:96-101 | the log without its metadata reads has exactly the executes, each once and in order |
| CallLevel.PureReadsAreTransparent | src/et_core/et_core.cpp:96-101 | the assumption can be met: reads that change nothing are transparent |
| Permanence.ResultsArePermanent | src/et_core/et_core.cpp:29-34 | whatever runs later on any Runtime, a finished call's record and the buffers of its arrays stay, and an array that is passed to no call holds what it held when it was returned |
| Permanence.UnborrowedArraysAreKept | src/et_core/et_core.cpp:29-34 | passed on or not, an array keeps its contents over any run in which no execute borrows it, so calls that are refused or fail before their execute change none of their arguments |
| Permanence.NewResultsAreUnshared | src/binding/module.cpp:55-63 | at the step in which a call returns, its arrays read as recorded and have been passed to no call |
| Executions.OnlyExecutesWrite | src/et_core/et_core.h:60-64 | a step changes a buffer's bytes exactly when it is an execute that borrows the buffer and the last write to it is something else |
| Executions.UntouchedMeans | src/et_core/et_core.h:60-64 | what it is for a run not to touch a buffer: no action of it is an execute that borrows it |
| Executions.UntouchedUntilMeans | src/et_core/et_core.h:60-64 | and not before a call's execute: any such action comes no earlier than the call's own |
| Aliasing.KeptByEveryModule | src/et_core/et_core.h:60-64 | the exact condition, step by step: a buffer keeps its contents whatever Modules write into their inputs if and only if the step is no execute that borrows it, or it is empty |
| Aliasing.PassedOnChanges | tests/test_openvino_parity.py:32-35 | with Modules that meet the assumptions, a complete run in which a result is passed to a second call, whose Module writes into it, and no longer holds what was returned |
| Permanence.ResultsAreDisjoint | src/binding/module.cpp:55-63 | every returned array has a live buffer of its own, shared with no other result and no storage of the core, and borrowed by an execute only if it was passed to a call |
| Permanence.NewBuffersAreFresh | src/et_core/et_core.cpp:282-292 | a buffer that storage or a result is put into was never there before: no thread refers to it and no call was passed it |
| Permanence.ReferencesAreAlive | src/binding/module.cpp:15-18 | in every reachable state whatever a thread still needs, arguments, keepalives, storage and results, is alive |
| Permanence.UnneededCanBeCollected | src/et_core/et_core.h:60-64 | nothing is kept longer than needed: a caller's array can be collected once no unfinished call has it as an argument, and the core's storage once its call is over |
| Locks.MutualExclusion | src/et_core/et_core.cpp:96-101 | at most one thread is inside a Runtime's Module, metadata reads included, and at most one holds the GIL |
| Locks.WhereLocksAreHeld | src/binding/module.cpp:152-191 | marshalling, building the list, and metadata calls from beginning to end hold the GIL; the guard's checks and reads, execute and copy-out do not; and whatever is inside a Module owns its mutex |
| Locks.EffectsNeedTheirLocks | src/et_core/et_core.cpp:226-296 | only the owner of a Runtime's mutex changes its Module or log or copies an output out; a call returns, a result is made or the variable is written only under the GIL or when it is free to take |
| Locks.NoSelfAcquire | src/et_core/et_core.cpp:176-228 | no thread asks for a mutex it holds or for the GIL it holds, and none asks for the GIL while it holds any mutex |
| Locks.HolderCanStep | src/et_core/et_core.cpp:227-295 | the thread inside a Module can always take its next step |
| Locks.DeadlockFreedom | src/binding/module.cpp:152-191 | in every reachable state with an unfinished call some thread can step, although metadata calls wait for the mutex while holding the GIL |
| Locks.LocksEffect | src/binding/module.cpp:159-162 | one disciplined action keeps every lock owned exactly by the thread whose program point holds it |
| Termination.MeasureDecreases | src/et_core/et_core.cpp:208-297 | every thread action lowers the measure (open answers, remaining actions) summed over all threads; a collection lowers the number of buffers |
| Termination.EveryScheduleEnds | src/et_core/et_core.cpp:208-297 | from any state with correct locks, no infinite schedule of thread steps and collections can be followed for ever |
| Termination.Termination | src/binding/module.cpp:153-167 | the same from every reachable state, so for any finite set of pending calls with any numbers of inputs and outputs |
| Termination.QuietMeansDone | src/binding/module.cpp:153-167 | when no thread can step, every call that was made has been answered once and in order, and the GIL and all mutexes are free |
| Termination.IssuedInOrder | src/binding/module.cpp:153-167 | the calls made on a thread are exactly the run's Issue actions for it, each once and in order |
| Safety.FaultsAreExact | src/et_core/et_core.cpp:176-281 | a call that raised: an unmapped dtype made no access; an unknown method and a refused delegate made one metadata read, which failed, or named OpenVINO when at no time before the call was made the backend was registered and the path usable, and made no execute; every other fault is the sequential reference's |
| Safety.GuardIsExact | src/et_core/et_core.cpp:176-206 | a run_method made when the backend is registered and the variable names a regular file is never refused for a missing backend, whatever resolvers do; one that needs OpenVINO and ends while that is still not so always is; whichever is refused needs OpenVINO and never executed |
| Safety.FitCallsAreAccepted | src/et_core/et_core.cpp:176-206 | in no run does a call made when it was fit, a run_method as above or a constructor whose path could be found, end in a missing backend |
| Safety.ExecutedWasCleared | src/et_core/et_core.cpp:176-210 | a call that reached its execute had mapped dtypes and readable metadata, and if that names OpenVINO the backend is registered and the path is usable, now and ever after |
| Safety.ClearedStaysGood | src/et_core/et_core.cpp:176-206 | a delegated method that passed the guard finds a registered backend and a usable path in every later state |
| Sequential.UnsupportedIffOther | src/et_core/et_core.cpp:274-281 | the copy-out fails exactly when some output has no Python form, whatever stands before it |
| Sequential.FirstBadOutputIsNamed | src/binding/module.cpp:72-84 | building the list fails exactly when some output fails, and with the fault of the first one, which names it if it is a string |
| Safety.FinishedHoldsNothing | src/et_core/et_core.cpp:227-295 | after any exit a thread holds neither GIL nor mutex and keeps no input alive |
| Safety.InputsStayAlive | src/binding/module.cpp:15-18 | from the end of marshalling until the outputs are built every borrowed pointer is its argument's own buffer, described with its shape and dtype, and alive, with collection possible at any step |
| Safety.LoadNeverPoisoned | src/et_core/et_core.cpp:168-206 | in no run does the once-only load fail, and every execute that enters it finds the variable set to a regular file and the backend registered, also for callers that skip the Python layer |
| Safety.PathIsKept | executorch_numpy_runtime/_openvino.py:57-72 | a path set at start-up is never overwritten, one set later is the wheel's, and a set variable never changes again, racing resolvers included |
| Safety.EnvChangesOnlyForOpenvino | executorch_numpy_runtime/_openvino.py:52-55 | if the variable changed, some constructor that has returned read metadata of its own program that names the OpenVINO delegate |
| Safety.GuardVerdict | src/et_core/et_core.cpp:187-204 | neither path check of the guard refuses while the variable names a regular file, and the file check refuses exactly when it does not |
| Safety.ResolverMeetsGuard | executorch_numpy_runtime/_openvino.py:61-72 | once Program construction succeeded for a program with an OpenVINO method, the guard's path checks pass exactly when the path was set at start-up or the wheel's match is a regular file |
| Safety.ResolverRefinesGuard | executorch_numpy_runtime/_openvino.py:61-72 | once Program construction succeeded for a program with an OpenVINO method, no run_method made later is refused for a missing backend if the build has it and the path was set at start-up or the wheel's match is a regular file; and if that is not so to the end, every one that needs OpenVINO is refused |
| Safety.ResolverFaultsAreExact | executorch_numpy_runtime/_openvino.py:27-72 | construction raises only when a metadata read failed, or some method needs OpenVINO and no path could be found when it was called, so with one no race between resolvers makes it fail; when it returns for such a program there was a path, a usable one if it was set at start-up |
| Safety.ResolverAcceptsDirectory | executorch_numpy_runtime/_openvino.py:35-41 | a complete run in which construction succeeds and the guard's path checks fail, because the glob match is a directory |
| Api.CallsAreOnFinishedObjects | executorch_numpy_runtime/_api.py:22-40 | every call of load_method and every call of a Method is made on objects whose own calls are over: the Program's constructor had returned, and all its metadata reads, and load_method's list of methods, have places before those of the call |
| Api.ReturnedObjectsCanBeUsed | executorch_numpy_runtime/_api.py:22-40 | the converse, so that nothing here is about calls that cannot be made: any thread between two calls can load methods of any returned Program and run any returned Method on callers' and returned arrays |
| Api.ResolutionPrecedesExecute | executorch_numpy_runtime/_api.py:23-40 | in every reachable state every execute in a Runtime's log that was made through a Method stands behind the list that Method was loaded from and behind all metadata reads of the constructor of its own Program, both of which have returned |
| Api.DelegateInitialisationOrder | src/et_core/et_core.h:95-99 | the once-only load leaves Unloaded only in an execute of a delegated method, and if that was made through a Method, the metadata reads and path resolution of that Method's own Program are all behind it |
| Api.LoadedExactlyByExecutes | src/et_core/et_core.cpp:168-171 | the delegate is loaded exactly when some delegated method has been executed |
| Preservation.SetEffects | executorch_numpy_runtime/_openvino.py:72 | the resolver's non-atomic write never changes a variable that is set |
| Preservation.CopyReads | src/et_core/et_core.cpp:221-228 | at every turn of the copy-out loop the arena is still the one the execute left |
| Preservation.BuildMatches | src/binding/module.cpp:163-165 | at every turn the views are the atomic snapshot's and the list so far is the reference's list of as many outputs; it ends as the reference ends, or fails as it fails |
| Marshal.CopyAllByIndex | src/et_core/et_core.cpp:237-294 | what a loop copied one output at a time is the snapshot of those outputs, and it ends in exactly the snapshot's views or fault |
| Marshal.PyFromByIndex | src/binding/module.cpp:163-165 | the same for the loop that builds the Python outputs |
| Marshal.ToSizesType | src/et_core/et_core.cpp:211-216 | extents are narrowed to 32 bits with wrap-around |
| Marshal.InputMeans | src/binding/module.cpp:30-53 | the tensor made of an array has its bytes, its extents narrowed to 32 bits, and the ScalarType of its dtype |
| Marshal.DlpackKeepsMeaning | src/binding/module.cpp:37-47 | an argument's DLPack dtype gets the ScalarType of its kind and whole bytes, and is refused as unmapped exactly when there is none |
| Marshal.LastWriteMeans | src/et_core/et_core.cpp:217-220 | of the writes to borrowed buffers the last one that is to a buffer and fits it is what it holds |
| Marshal.PyOneMeans | src/binding/module.cpp:66-101 | one output, copied out of the arena and then into Python, is the value it stands for, or fails exactly when it is text that is no UTF-8 or a tensor of an unmapped type |
| Values.NumelIsProduct | src/binding/module.cpp:87-98 | the number of elements is the product of the extents, 1 for a scalar |
| EtCore.CopyOutputs | src/et_core/et_core.cpp:237-294 | the copy-out loop over a real arena gives the atomic snapshot's views in fresh storage, each the value its output stands for with a tensor's bytes behind it, or the first unsupported output's fault |
| EtCore.CopyNext | src/et_core/et_core.cpp:237-293 | one turn adds one view, the output's own value or a pointer to its bytes, and one storage slot exactly for a tensor, whose view points at the slot numbered by the tensors before it; earlier views and storage stay, and the vector's slots do not move |
| EtCore.StorageFits | src/et_core/et_core.cpp:234-236 | there is never more storage than outputs, so the reservation before the loop is enough |
| EtCore.Vector.PushBack | src/et_core/et_core.cpp:290-292 | a push appends, and moves the slots exactly when there is no room |
| EtCore.HoldsIsSnapshot | src/et_core/et_core.cpp:282-293 | what the loop holds at any turn is the snapshot of the outputs so far |
| EtCore.Runtime.ExecuteAndCopy | src/et_core/et_core.cpp:226-296 | one acquisition covers execute and all copies, both of which demand the mutex; the result is the reference's, the inputs hold what the execute wrote, and the mutex is free on every exit |
| EtCore.Runtime.GuardOpenvino | src/et_core/et_core.cpp:176-206 | the guard makes one metadata access, is called with the mutex free and leaves it free; it raises LoadFailed exactly when the metadata cannot be read, and BackendMissing exactly when it names OpenVINO and the backend is not registered or the variable is unset, empty or names no regular file |
| EtCore.GuardIsProtocols | src/et_core/et_core.cpp:176-206 | from the metadata reply, with variable and files as they are, the protocol's steps end at the execute exactly when this guard accepts, and unwind with the same fault when it refuses |
| EtCore.GuardProtects | src/et_core/et_core.cpp:168-206 | a method that enters the delegate is let through only with the backend registered and a path to a regular file |
| EtCore.CoreMeans | src/et_core/et_core.cpp:228-293 | what the core hands out is what the Module computed, and it fails exactly when that did or some output is a list or none |
| EtCore.Runtime.MethodUsesBackend | src/et_core/et_core.cpp:157-166 | one metadata access under the mutex: whether the Module, as it is, describes the method with that backend, or LoadFailed exactly when it does not describe it |
| EtCore.Runtime.MethodNames | src/et_core/et_core.cpp:96-107 | one access under the mutex: all methods the Module, as it is, lists, or LoadFailed exactly when it does not |
| EtCore.Runtime.RunMethod | src/et_core/et_core.cpp:208-297 | it executes exactly when the guard's conditions hold, and never a delegated method without backend and path; refused calls write nothing and carry the guard's fault; otherwise one guard read and one execute, whose outputs are handed out as the values they stand for in buffers of their own, and only the execute's writes in the inputs |
| EtCore.Module.Use | src/et_core/et_core.cpp:221-225 | any use may overwrite the arena in place, and answers and leaves the Module as the reference does |
| Binding.HoldInputs | src/binding/module.cpp:30-53 | all arguments are described over their own buffers, or none is and the dtype is the reason |
| Binding.CopyOutView | src/binding/module.cpp:64-102 | given memory with room for product(shape) items, one output as a Python value: scalars themselves, text if it decodes, an array of numpy's dtype for its element type in a fresh buffer of exactly that size with the view's bytes |
| Binding.BuildList | src/binding/module.cpp:163-166 | the whole list, in fresh buffers that are pairwise distinct, or no list and the first failing output's fault |
| Binding.RunMethod | src/binding/module.cpp:153-167 | the whole binding is the sequential reference at the place its execute gets, on a tensor for each argument, and gives what that computed, output by output; it executes exactly when dtypes map and the guard's conditions hold; it ends with the GIL held and the mutex free, results are fresh, pairwise distinct and not the arena, and arguments hold only what the execute wrote |
| Binding.MoreCalls | src/et_core/et_core.cpp:29-34 | any number of calls on two Runtimes leaves earlier results as they are, when these are not among the arguments |
| Binding.KeepResults | src/et_core/et_core.cpp:29-34 | what a call returned is still the sequential outcome of its execute after any number of later calls on either Runtime |
| Openvino.DetectOpenvino | executorch_numpy_runtime/_openvino.py:52-55 | reads metadata up to the first OpenVINO method or failure, as its specification |
| Openvino.AnyUsesIsExact | executorch_numpy_runtime/_openvino.py:52-55 | the metadata of the methods is read in order, and only until one names OpenVINO or cannot be read; it fails exactly when the last read failed, finds OpenVINO exactly when that named it, and nothing exactly when all were read and none did |
| Openvino.DetectionIsExact | executorch_numpy_runtime/_openvino.py:52-55 | the whole detection is that over the list the Module gives, or fails with the list; a program reported as not needing OpenVINO has no delegated method |
| Openvino.EnsureOpenvinoLibPath | executorch_numpy_runtime/_openvino.py:44-72 | a set path is checked and kept, an unset one is set to the wheel's, and nothing is written otherwise or on a failure; the arena afterwards is the old one or a new one |
| Openvino.LoadAndRun | executorch_numpy_runtime/_api.py:16-29 | constructor and call in sequence: with the backend built in and a regular file as the wheel's match, a call on a Program that needs OpenVINO is never refused for a missing backend |
| BufferLoad.LoadBuffer | src/et_core/et_core.cpp:83-91 | success gives a module whose loader borrows its own live copy of the bytes; failure destroys module, loader and bytes, and the bytes are never read after they are freed |
| BufferLoad.RuntimeState.Destroy | src/et_core/et_core.cpp:42-46 | the module and its loader are destroyed while their bytes are alive, then the bytes |
| DtypeMap.TablesAreMutualInverses | src/binding/dtype_map.cpp:13-42 | the two tables accept exactly each other's pairs |
| DtypeMap.TablesKeepMeaning | src/binding/dtype_map.cpp:13-42 | a dtype gets the one ScalarType of its kind and size, a ScalarType the one dtype; every type with a kind is reached, nothing else is mapped, and the rest is refused as unmapped |
| DtypeMap.ElementTypesAreKnown | src/binding/dtype_map.cpp:13-42 | kind, size and code of the ten element types |
| RoundTrip.DtypeRoundTrip | src/binding/module.cpp:37-47 | an accepted DLPack dtype comes back unchanged exactly when it has whole bytes and one lane |
| RoundTrip.FinalCopyIsExact | src/binding/module.cpp:87-101 | for every rank and shape numpy reads exactly the bytes the core stored, though the byte count is not consulted |
| RoundTrip.ReturnedSizes | src/binding/module.cpp:87-101 | over whole runs, every array a call returned holds exactly product(shape) times itemsize bytes |
| RoundTrip.RoundTrip | src/et_core/et_core.cpp:211-220 | a program that returns its inputs gives back the same arrays exactly when every extent fits the 32-bit sizes |
| RoundTrip.EveryCallEchoes | src/binding/module.cpp:153-167 | the same over whole runs: with such Modules every finished call that executed, in every run, returned its arguments (arrays as numpy makes them) as they were when it was about to execute, exactly when their extents fit |
| RoundTrip.CallsEchoTheirArguments | src/binding/module.cpp:153-167 | and the very arrays it was called with, when no execute before its own borrows one of them |
| UsdtNotes.AwkScan | scripts/check-usdt-notes.sh:46-48 | the awk program computes the recursive scan |
| UsdtNotes.ScanFindsFirstMatch | scripts/check-usdt-notes.sh:46-48 | for every text, the scan gives the text of the first Arguments line with the wanted name in force |
| UsdtNotes.ScanFindsNothingElse | scripts/check-usdt-notes.sh:46-50 | and nothing when there is no such line |
| UsdtNotes.NameLineMeans | scripts/check-usdt-notes.sh:47 | a line sets the name exactly when it has, behind white space only, "Name:" and a white space |
| UsdtNotes.SecondFieldMeans | scripts/check-usdt-notes.sh:47 | and the name is its second word, however it is indented and whatever follows |
| UsdtNotes.ArgumentsLineMeans | scripts/check-usdt-notes.sh:48 | a line is an Arguments line exactly when it has, behind white space only, "Arguments:", and its text starts at the next character that is no white space |
| UsdtNotes.ContainsMeans | scripts/check-usdt-notes.sh:28-38 | grep finds a part exactly when it is a slice of the line, at any position |
| UsdtNotes.CountAtMeans | scripts/check-usdt-notes.sh:52 | the count is the multiplicity of '@' |
| UsdtNotes.FailingCounts | scripts/check-usdt-notes.sh:42-61 | the failure counter is the number of probes that fail |
| UsdtNotes.CheckProbe | scripts/check-usdt-notes.sh:43-57 | a probe passes exactly when it is found with arguments and the wanted number of them |
| UsdtNotes.Check | scripts/check-usdt-notes.sh:27-62 | for every text, exit code 0 exactly when the verdict holds; the failure counter is the number of failing probes, none hidden by an early exit |
| UsdtPrinter.ScanIsAttribution | scripts/check-usdt-notes.sh:45-48 | on printed notes that lost any Name or Arguments lines, arguments go to the nearest name before them |
| UsdtPrinter.ScannerInvertsPrinter | scripts/check-usdt-notes.sh:43-57 | with any Name lines lost, scanning gives the arguments of the first note that still has the name, or nothing, and the number of '@' is the number of arguments |
| UsdtPrinter.LosingANameIsLocal | tests/test_usdt_notes.py:59-64 | losing one Name line changes what is found for no other probe, and hides its own probe when no other note has the name |
| UsdtPrinter.ScanIsOwnUnlessMisled | scripts/check-usdt-notes.sh:46-48 | for notes that lost any Name and Arguments lines, exactly when a probe is given the arguments of a note that lost its name: a note of it lost its Arguments line, with no complete note of it before, and the next Arguments line comes with no Name line in between; any other probe gets those of its own first complete note, or nothing |
| UsdtPrinter.NamesProtect | scripts/check-usdt-notes.sh:46-48 | when every Name line is there, lost Arguments lines mislead no probe |
| UsdtPrinter.LosingBothMisleads | scripts/check-usdt-notes.sh:46-48 | the smallest case: a note without Arguments line followed by one without Name line is given the other's arguments |
| UsdtPrinter.VerdictOnNotes | scripts/check-usdt-notes.sh:37-62 | printed notes are accepted exactly when the provider is named and the first notes of the three probes have 4, 4 and 7 arguments |
| UsdtPrinter.ReadelfLinesAreNeutral | tests/test_usdt_notes.py:25-30 | the owner, Provider and Location lines readelf prints are neither Name nor Arguments lines |
| UsdtPrinter.VerdictOnReadelf | tests/test_usdt_notes.py:24-42 | on what readelf prints for any list of probes `--expect on` accepts exactly when the first probes of the three names have 4, 4 and 7 arguments |
| UsdtPrinter.VerdictWithoutProbes | scripts/check-usdt-notes.sh:27-35 | and `--expect off` passes exactly when there are no probes: the owner line gives each of them away |

## Left out

- ExecuTorch, XNNPACK, OpenVINO, kernels and their numerics: foreign code behind `Protocol.Config`.
- Termination.Termination: does not count new calls, new arrays and new files, which can go on for ever without any thread stepping.
- Api.DelegateInitialisationOrder: says nothing about calls on the core Runtime directly, nor about metadata a user reads after the constructor, which may come after a delegate was initialised.
- Safety.LoadNeverPoisoned: a regular file that is no usable library, other writers of the variable, and the Windows build, which has no file check, are outside what the guard looks at.
- Safety.GuardIsExact: for a call during which the path becomes usable both outcomes occur; what the guard's checks see at their own steps is `Safety.GuardVerdict`.
- RoundTrip.RoundTrip: a negative 32-bit size is taken to be refused by ExecuTorch; that case is one where the round trip fails anyway.
- Locks.NoSelfAcquire: GIL hand-over inside other Python threads that make no call of this package is not modelled.
- Permanence.ResultsArePermanent: a caller that writes into an array itself is not modelled, while the GIL is released or otherwise; input bytes are those at the execute step.
- Executions.OnlyExecutesWrite: a Module is a function of its inputs' bytes, so it cannot see that two of them are one buffer; of several writes to one buffer the last counts; an array is a whole buffer, not a part of one.
- The shape of `method_meta`'s dictionary, with placeholders for non-tensor slots: one value mapped to another.
- Copying of non-contiguous inputs, refusal of read-only ones, CPython's UTF-8 decoder, reference counts and the memory of `getenv`: foreign code; decoding is a parameter and a keepalive is what prevents collection.
- The layout of the openvino wheel, and wheels installed or removed during a run: what the glob returns is the constant parameter `wheel`; with two different results, resolvers could overwrite each other's path.
- Argument parsing of the checker script, `readelf`, pipes, signals and awk's numeric comparison of number-like names: shell details.
- Path loading, backend and operator lists, workspace size, error classes, packaging and build files: configuration or single reads.
