# Handler: exception dispatch and lazy process identity in Hopac's runtime

This project models `Libs/Hopac.Core/Engine/Handler.cs` of Hopac, a cooperative
lightweight-thread runtime for .NET. The model covers:

- **Printing a fault.** `PrintExn` prints an exception and its chain of inner
  exceptions, one line per link, then `No other causes.`.
- **Dispatching a fault.** `DoHandle` sends a fault to the installed handler. When there
  is none, `DoHandleNull` falls back to the scheduler's top-level handler: it either
  prints the fault under `Unhandled exception: ` or installs a sentinel handler and runs
  the job the top-level handler makes of the fault.
- **The sentinel** (the private nested `Handler.Cont`). Resuming it does nothing. A fault
  it gets is printed under `Top level handler raised: `. Asking it for a Proc is an error.
- **Getting a process identity.** `GetProc` and `AllocProc` create a process's `Proc`
  lazily. On first demand a finalizing wrapper with a new `Proc` is published into the
  process's continuation cell by one compare-and-exchange. A caller that loses the race
  suppresses its wrapper's finalizer and takes the winner's `Proc`.
- **`Terminate`**, which resumes a continuation if there is one.
- **`Handler_State`**, a handler that only carries a payload.

Modules:

- `Options` (options.dfy): `Option`, standing for a nullable reference.
- `Diagnostics` (diagnostics.dfy): exceptions as `Exn(description, inner)`, the chain of
  descriptions `Chain`, the printed lines `Report`, the output sink `Console` (the
  runtime's `StaticData.writeLine`) and `PrintExn`.
- `Handlers` (handlers.dfy): everything else.
  - `Handler` is a datatype for a handler or null: `Absent` (null), `Sentinel`,
    `Finalizer(wrapper)` (a published `ProcFinalizer`) and `Other(id, ownProc)` (any other
    handler, whose code is not part of this model).
  - `Worker` is the execution context. It holds the scheduler, the installed handler
    (`wr.Handler`) and `calls`, the record of calls made into code that is not modelled
    (`DoWork`, `DoCont`, `DoHandle` of other handlers, `DoJob` of a job).
  - `ProcSlot` is the `ref Cont<X>` cell. It has an atomic `CompareExchange`. A ghost list
    holds every wrapper built against the cell.
  - `ProcFinalizer.finalizerActive` is the wrapper's finalizer registration.
  - The dispatch methods are specified by the functions `OnFault` and `OnUnhandled`. The
    twostate predicate `Performed` ties the worker, its record of calls and the output to
    what those functions say.
- A race between threads for a process's identity is modelled as any sequence of callers
  on one cell (`RaceOnEmptySlot`), each call being one atomic step.

## Model

| member | source | states |
|---|---|---|
| `Diagnostics.Chain` | Libs/Hopac.Core/Engine/Handler.cs:54-57 | The chain that the loop walks through `InnerException` is non-empty, and it starts with the exception's own description. |
| `Diagnostics.Report` | Libs/Hopac.Core/Engine/Handler.cs:51-59 | The lines printed for a fault: one more than the links of its chain, the last being `No other causes.`. |
| `Diagnostics.ReportLines` | Libs/Hopac.Core/Engine/Handler.cs:51-59 | A chain of n links prints exactly n+1 lines. Line 1 is the header followed by the first description. Line i, for i = 2..n, is `Caused by: ` followed by the i-th description. Line n+1 is `No other causes.`. |
| `Diagnostics.ThreeLinkChain` | Libs/Hopac.Core/Engine/Handler.cs:51-59 | The report for A caused by B caused by C under `Unhandled exception: ` is `Unhandled exception: A`, `Caused by: B`, `Caused by: C`, `No other causes.`. |
| `Diagnostics.Console.WriteLine` | Libs/Hopac.Core/Engine/Handler.cs:54 | Writing a line appends exactly that line to the output. |
| `Diagnostics.PrintExn` | Libs/Hopac.Core/Engine/Handler.cs:51-59 | The do-while loop appends exactly `Report(header, e)` to the output: a header line, a `Caused by: ` line per cause, then the terminator. |
| `Handlers.ProcFinalizer.constructor` | Libs/Hopac.Core/Engine/Handler.cs:34 | A new wrapper holds the scheduler and the Proc it was given, and its finalizer is registered. |
| `Handlers.SuppressFinalize` | Libs/Hopac.Core/Engine/Handler.cs:37 | After the call, the wrapper's finalizer is no longer registered. |
| `Handlers.Handler.GetProc` | Libs/Hopac.Core/Engine/Handler.cs:74-76 | A handler's own GetProc fails (NotImplementedException) exactly for the sentinel. A published wrapper reports its own Proc. |
| `Handlers.Handler.DoWork` | Libs/Hopac.Core/Engine/Handler.cs:80 | The sentinel's DoWork changes nothing. Any other continuation's DoWork is one call to its own code. |
| `Handlers.Handler.DoCont` | Libs/Hopac.Core/Engine/Handler.cs:81 | The sentinel's DoCont changes nothing. Any other continuation's DoCont is one call to its own code. |
| `Handlers.Handler.DoHandle` | Libs/Hopac.Core/Engine/Handler.cs:77-79 | The sentinel prints the fault's chain under `Top level handler raised: ` and runs nothing. Any other handler gets the fault once. Both leave the installed handler alone, as `OnFault` says. |
| `Handlers.Terminate` | Libs/Hopac.Core/Engine/Handler.cs:17-21 | A null continuation: nothing changes. A non-null one: its DoWork runs exactly once. That is one recorded call, or none for the sentinel, whose DoWork does nothing. |
| `Handlers.ProcSlot.CompareExchange` | Libs/Hopac.Core/Engine/Handler.cs:35 | One atomic step. It returns what the cell held, and stores the new value exactly when the cell held the comparand. |
| `Handlers.GetProc` | Libs/Hopac.Core/Engine/Handler.cs:23-30 | A filled cell: no wrapper is built, the cell is unchanged, and the result is that continuation's Proc. An empty cell: exactly one new wrapper, holding the worker's scheduler and a new Proc, is built and published. Either way the cell stays valid and non-empty. |
| `Handlers.AllocProc` | Libs/Hopac.Core/Engine/Handler.cs:32-41 | A new wrapper with a new Proc is built. It is stored only if the cell was null at the exchange, and then it keeps its finalizer. Otherwise the cell is unchanged and the wrapper's finalizer is suppressed. The result is the Proc of the continuation in the cell. The cell stays non-null and valid. |
| `Handlers.ActiveFinalizers` | Libs/Hopac.Core/Engine/Handler.cs:34-40 | In a valid cell that started empty, once any wrapper has been built, exactly one has its finalizer registered: the first one, which is the published one. Before that, none does. None does if the cell never was empty. |
| `Handlers.RaceOnEmptySlot` | Libs/Hopac.Core/Engine/Handler.cs:24-40 | k ≥ 1 callers race, in any order, on an empty cell. Each goes through GetProc or straight into AllocProc. All get the same Proc: that of the wrapper whose exchange came first. Of all the wrappers built, only that one keeps its finalizer. |
| `Handlers.OnFault` | Libs/Hopac.Core/Engine/Handler.cs:44-49 | No fault is dropped: one call is made for it or its whole chain is printed, never both. The only handler ever installed is the sentinel, and only when there is no handler and a top-level handler exists. The top-level handler's job for the fault then runs under the sentinel. The sentinel only prints. Any other handler gets the fault once. |
| `Handlers.DoHandle` | Libs/Hopac.Core/Engine/Handler.cs:43-49 | A non-null handler: that handler's own DoHandle. A null handler: the fallback of `DoHandleNull`. The resulting state is exactly what `OnFault` says. |
| `Handlers.DoHandleNull` | Libs/Hopac.Core/Engine/Handler.cs:61-71 | No top-level handler: the chain is printed under `Unhandled exception: ` and `wr.Handler` is unchanged. Otherwise `wr.Handler` becomes the sentinel and exactly one job, `tlh(e)`, runs with the sentinel as its continuation, and nothing is printed. |
| `Handlers.UnhandledThreeLinkChain` | Libs/Hopac.Core/Engine/Handler.cs:62-65 | A caused by B caused by C, dispatched with no handler and no top-level handler, installs nothing, calls nothing, and prints exactly `Unhandled exception: A`, `Caused by: B`, `Caused by: C`, `No other causes.`. |
| `Handlers.FallbackRunsOnce` | Libs/Hopac.Core/Engine/Handler.cs:62-79 | The fallback cannot loop. Take any series of faults, each dispatched to the handler installed at that moment. From no handler, only the first fault reaches the top-level handler. Under the sentinel, none does. |
| `Handlers.HandlerState.constructor` | Libs/Hopac.Core/Engine/Handler.cs:91-92 | `Handler_State(state)` stores exactly `state`. |

## Left out

- Threads and the .NET memory model behind `Interlocked.CompareExchange`: each whole GetProc or AllocProc call is one atomic step, and a race is a sequence of such steps on one cell. So the wrappers are listed in the order their exchanges happened; in the program a wrapper built earlier can still reach the exchange later and lose. Treating a whole call as one step loses no interleaving that matters: building the wrapper and suppressing its finalizer touch only the caller's own new objects, and, apart from GetProc's first read of the cell, the exchange is the only access to the shared cell. A caller whose first read found the cell empty but is overtaken before its exchange is modelled by a caller on path `StraightToAllocProc`.
- When or whether the garbage collector runs finalizers: a wrapper's finalizer is the flag `finalizerActive`, and `GC.SuppressFinalize` clears it.
- The text of `Exception.ToString()`: each link's description is opaque text.
- `StaticData.writeLine` is the `Console` sink, which appends lines to a sequence. Output is passed to the methods that print rather than being global.
- The code of `Worker`, `Scheduler`, `Proc`, `ProcFinalizer`, `Cont<X>` and `Job.DoJob` is not part of this model; the classes here hold only what `Handler.cs` reads or writes. Calls into their code are recorded in `Worker.calls` and are taken to change nothing except that record: `wr.Handler`, the output and every wrapper's finalizer flag stay as they were. This covers a published wrapper's own DoWork, DoCont and DoHandle, and the top-level job's `DoJob`, which `DoHandleNull` takes to leave the sentinel installed. A handler other than the sentinel or a published wrapper is `Other(id, ownProc)`, and its GetProc is taken to report `ownProc`.
- Handlers.Handler.GetProc: a published ProcFinalizer's own GetProc is not part of this model; it is taken to return the Proc the wrapper was built with. The results of `AllocProc`, `GetProc` and `RaceOnEmptySlot` rest on this.
- Each sentinel the fallback builds is a fresh object in the source. Here it is the single value `Sentinel`: the sentinel has no state, so identity does not matter.
- Handlers.DoHandleNull: the top-level handler is a total function, taken always to return a job. In the source, `tlh.Invoke(e)` runs user code that can throw. The sentinel is installed before that call, so when it throws, no job runs and the sentinel is left installed. The new exception then reaches the sentinel, under the per-fault dispatch that `FallbackRunsOnce` already assumes. The model does not represent a throwing top-level handler.
- `HandlerState.Default`: Dafny has no `default(T)`. The parameterless `Handler_State()` constructor leaves the payload at an unspecified value of `T`, and states nothing about it.
- `FallbackRunsOnce` assumes that each fault is dispatched to the handler installed in the worker at that moment. The runtime loop that does this lives in `Worker`, which is not part of this model.
- `MethodImpl` inlining attributes and F# `Unit` interop: they have no behaviour.
