/** Exception dispatch and lazy process identity of the cooperative runtime's handlers:
    the static helpers of Handler, the top-level sentinel continuation and Handler_State. */
module Handlers {
  import opened Options
  import opened Diagnostics

  /** A lightweight-process identity; only its identity matters. */
  class Proc {
    constructor ()
    {
    }
  }

  /** A job, opaque here; `id` tells jobs apart. */
  datatype Job = Job(id: nat)

  /** The scheduler as this core sees it: the top-level handler fixed when it was built. */
  class Scheduler {
    const topLevelHandler: Option<Exn -> Job>

    constructor (topLevelHandler: Option<Exn -> Job>)
      ensures this.topLevelHandler == topLevelHandler
    {
      this.topLevelHandler := topLevelHandler;
    }
  }

  /** A finalizing wrapper that owns a Proc. `finalizerActive` is its registration with
      the garbage collector: true when built, false once its finalization is suppressed. */
  class ProcFinalizer {
    const scheduler: Scheduler
    const proc: Proc
    var finalizerActive: bool

    constructor (scheduler: Scheduler, proc: Proc)
      ensures this.scheduler == scheduler && this.proc == proc && finalizerActive
    {
      this.scheduler := scheduler;
      this.proc := proc;
      finalizerActive := true;
    }
  }

  /** GC.SuppressFinalize: the wrapper's finalizer will not run. */
  method SuppressFinalize(w: ProcFinalizer)
    modifies w
    ensures !w.finalizerActive
  {
    w.finalizerActive := false;
  }

  /** What a handler's GetProc gives: a Proc, or the NotImplementedException the sentinel throws. */
  datatype GetProcResult = Returned(proc: Proc) | NotImplemented

  /** A call made by this core into a collaborator whose own code is not modelled. */
  datatype Call =
    | Worked(k: Handler)            // k.DoWork(ref wr)
    | Continued(k: Handler)         // k.DoCont(ref wr, ())
    | Handled(h: Handler, e: Exn)   // h.DoHandle(ref wr, e)
    | JobRun(job: Job, k: Handler)  // job.DoJob(ref wr, k)

  /** A handler (every continuation is one), or null. */
  datatype Handler =
    | Absent                                // null
    | Sentinel                              // the private Handler.Cont guarding a top-level job
    | Finalizer(wrapper: ProcFinalizer)     // a ProcFinalizer published in a Proc slot
    | Other(id: nat, ownProc: Proc)         // any other handler; its GetProc reports ownProc
  {
    /** The handler's own GetProc. Only the sentinel refuses: the top level has no process. */
    function GetProc(): (r: GetProcResult)
      requires !Absent?
      ensures r.NotImplemented? <==> Sentinel?
      ensures Finalizer? ==> r == Returned(wrapper.proc)
    {
      match this
      case Sentinel => NotImplemented
      case Finalizer(w) => Returned(w.proc)
      case Other(_, p) => Returned(p)
    }

    /** The handler's own DoWork: nothing for the sentinel, the handler's own code otherwise. */
    method DoWork(wr: Worker)
      requires !Absent?
      modifies wr`calls
      ensures wr.calls == old(wr.calls) + (if Sentinel? then [] else [Worked(this)])
    {
      if !Sentinel? {
        wr.calls := wr.calls + [Worked(this)];
      }
    }

    /** The handler's own DoCont with the unit value: nothing for the sentinel. */
    method DoCont(wr: Worker)
      requires !Absent?
      modifies wr`calls
      ensures wr.calls == old(wr.calls) + (if Sentinel? then [] else [Continued(this)])
    {
      if !Sentinel? {
        wr.calls := wr.calls + [Continued(this)];
      }
    }

    /** The handler's own DoHandle: the sentinel prints the fault under its own header. */
    method DoHandle(wr: Worker, out: Console, e: Exn)
      requires !Absent?
      modifies wr, out
      ensures Performed(wr, out, OnFault(this, wr.scheduler.topLevelHandler, e))
    {
      if Sentinel? {
        PrintExn(out, TopLevelHandlerRaised, e);
      } else {
        wr.calls := wr.calls + [Handled(this, e)];
      }
    }
  }

  /** The execution context of one step: its scheduler, the installed handler, and
      the calls the step has made into collaborators. */
  class Worker {
    const scheduler: Scheduler
    var handler: Handler
    var calls: seq<Call>

    constructor (scheduler: Scheduler, handler: Handler)
      ensures this.scheduler == scheduler && this.handler == handler && calls == []
    {
      this.scheduler := scheduler;
      this.handler := handler;
      calls := [];
    }
  }

  /** Resumes `xK`, if there is one. */
  method Terminate(wr: Worker, xK: Handler)
    modifies wr`calls
    ensures xK.Absent? || xK.Sentinel? ==> wr.calls == old(wr.calls)
    ensures !xK.Absent? && !xK.Sentinel? ==> wr.calls == old(wr.calls) + [Worked(xK)]
  {
    if !xK.Absent? {
      xK.DoWork(wr);
    }
  }

  // ---------------------------------------------------------------------------
  // Lazy, publish-once Proc allocation

  /** The continuation cell a process keeps, in which a finalizing wrapper is published on
      first demand for the process's identity. `wrappers` lists, oldest first, every
      wrapper built against this cell; `initial` is what the cell held when created. */
  class ProcSlot {
    var cont: Handler
    ghost const initial: Handler
    ghost var wrappers: seq<ProcFinalizer>

    /** Publication is once and for all, and only the published wrapper, if it was
        built against this cell, keeps its finalizer. */
    ghost predicate Valid()
      reads this, wrappers
    {
      (initial.Absent? ==> if wrappers == [] then cont.Absent? else cont == Finalizer(wrappers[0])) &&
      (!initial.Absent? ==> cont == initial) &&
      (forall i | 0 <= i < |wrappers| :: wrappers[i].finalizerActive <==> i == 0 && initial.Absent?)
    }

    /** The wrappers built against this cell whose finalizer is still registered. */
    ghost function ActiveWrappers(): set<ProcFinalizer>
      reads this, wrappers
    {
      set w | w in wrappers && w.finalizerActive
    }

    constructor (initial: Handler)
      ensures Valid() && cont == initial && this.initial == initial && wrappers == []
    {
      cont := initial;
      this.initial := initial;
      wrappers := [];
    }

    /** Interlocked.CompareExchange: one atomic step that stores `value` exactly when the
        cell holds `comparand`, and returns what the cell held. */
    method CompareExchange(value: Handler, comparand: Handler) returns (original: Handler)
      modifies this`cont
      ensures original == old(cont)
      ensures cont == if original == comparand then value else original
    {
      original := cont;
      if cont == comparand {
        cont := value;
      }
    }
  }

  /** Over any history of calls on a valid cell that started empty, exactly one wrapper
      keeps its finalizer once any was built, and it is the first one, the published one. */
  lemma ActiveFinalizers(slot: ProcSlot)
    requires slot.Valid()
    ensures slot.ActiveWrappers() == if slot.initial.Absent? && slot.wrappers != [] then {slot.wrappers[0]} else {}
    ensures |slot.ActiveWrappers()| == if slot.initial.Absent? && slot.wrappers != [] then 1 else 0
  {
  }

  /** The Proc of the process whose continuation cell is `xKr`: the published
      continuation's, or a new one allocated on first demand. */
  method GetProc(wr: Worker, xKr: ProcSlot) returns (r: GetProcResult)
    requires xKr.Valid()
    modifies xKr
    ensures xKr.Valid() && !xKr.cont.Absent?
    ensures !old(xKr.cont).Absent? ==> xKr.cont == old(xKr.cont) && xKr.wrappers == old(xKr.wrappers)
    ensures old(xKr.cont).Absent? ==>
              |xKr.wrappers| == 1 && xKr.cont == Finalizer(xKr.wrappers[0]) && fresh(xKr.wrappers[0]) &&
              fresh(xKr.wrappers[0].proc) && xKr.wrappers[0].scheduler == wr.scheduler
    ensures r == xKr.cont.GetProc()
  {
    var xK := xKr.cont;
    if !xK.Absent? {
      r := xK.GetProc();
    } else {
      ghost var built;
      r, built := AllocProc(wr, xKr);
    }
  }

  /** Builds a finalizing wrapper with a new Proc and publishes it if the cell is still
      empty; a caller that loses the race suppresses its wrapper's finalizer and takes
      the Proc of the continuation already published. */
  method AllocProc(wr: Worker, xKr: ProcSlot) returns (r: GetProcResult, ghost built: ProcFinalizer)
    requires xKr.Valid()
    modifies xKr
    ensures fresh(built) && fresh(built.proc) && built.scheduler == wr.scheduler
    ensures xKr.wrappers == old(xKr.wrappers) + [built]
    ensures old(xKr.cont).Absent? ==> xKr.cont == Finalizer(built) && built.finalizerActive
    ensures !old(xKr.cont).Absent? ==> xKr.cont == old(xKr.cont) && !built.finalizerActive
    ensures xKr.Valid() && !xKr.cont.Absent?
    ensures r == xKr.cont.GetProc()
  {
    var proc := new Proc();
    var xKn := new ProcFinalizer(wr.scheduler, proc);
    built := xKn;
    xKr.wrappers := xKr.wrappers + [xKn];
    var k: Handler := Finalizer(xKn);
    var xK := xKr.CompareExchange(k, Absent);
    if !xK.Absent? {
      SuppressFinalize(xKn);
      k := xK;
    }
    r := k.GetProc();
  }

  /** How a racing caller reaches the cell: through GetProc, reading the cell first, or
      straight into AllocProc, having read it empty before another caller published. */
  datatype Path = ThroughGetProc | StraightToAllocProc

  /** Callers racing, in any order, for the identity of one process whose cell starts
      empty: all get the same Proc, and of the wrappers built only the first keeps its
      finalizer. */
  method RaceOnEmptySlot(wr: Worker, callers: seq<Path>)
    returns (results: seq<GetProcResult>, ghost built: seq<ProcFinalizer>)
    requires |callers| >= 1
    ensures |results| == |callers| && 1 <= |built| <= |callers|
    ensures forall i | 0 <= i < |results| :: results[i] == Returned(built[0].proc)
    ensures forall j | 0 <= j < |built| :: built[j].finalizerActive <==> j == 0
  {
    var slot := new ProcSlot(Absent);
    results := [];
    var i := 0;
    while i < |callers|
      invariant 0 <= i <= |callers| && |results| == i
      invariant slot.Valid() && slot.initial.Absent?
      invariant i == 0 ==> slot.cont.Absent?
      invariant i > 0 ==> 1 <= |slot.wrappers| <= i
      invariant forall j | 0 <= j < i :: results[j] == Returned(slot.wrappers[0].proc)
    {
      var r;
      if callers[i] == ThroughGetProc {
        r := GetProc(wr, slot);
      } else {
        ghost var w;
        r, w := AllocProc(wr, slot);
      }
      results := results + [r];
      i := i + 1;
    }
    built := slot.wrappers;
  }

  // ---------------------------------------------------------------------------
  // Fault dispatch

  /** The effect of dispatching one fault: the handler installed in the worker (if any),
      the calls made into collaborators, and the lines printed. */
  datatype Reaction = Reaction(installed: Option<Handler>, calls: seq<Call>, printed: seq<string>)

  /** The worker, the calls it records and the output have changed exactly as `r` says. */
  twostate predicate Performed(wr: Worker, out: Console, r: Reaction)
    reads wr, out
  {
    wr.handler == (if r.installed.Some? then r.installed.value else old(wr.handler)) &&
    wr.calls == old(wr.calls) + r.calls &&
    out.lines == old(out.lines) + r.printed
  }

  /** DoHandleNull's effect: print the fault when there is no top-level handler, or else
      install the sentinel and run the job the top-level handler makes of the fault. */
  function OnUnhandled(tlh: Option<Exn -> Job>, e: Exn): Reaction
  {
    match tlh
    case None => Reaction(None, [], Report(UnhandledException, e))
    case Some(f) => Reaction(Some(Sentinel), [JobRun(f(e), Sentinel)], [])
  }

  /** The effect of dispatching fault `e` to handler `hr` (null included). */
  function OnFault(hr: Handler, tlh: Option<Exn -> Job>, e: Exn): (r: Reaction)
    // no fault is dropped: something runs for it, or its whole chain is printed
    ensures r.calls != [] || (r.printed == Report(UnhandledException, e) || r.printed == Report(TopLevelHandlerRaised, e))
    // never both, and never more than one call
    ensures |r.calls| <= 1 && (r.calls == [] || r.printed == [])
    // a handler is installed exactly on the path to the top-level handler, and it is the
    // sentinel, under which the top-level handler's job for `e` runs
    ensures r.installed.Some? <==> hr.Absent? && tlh.Some?
    ensures r.installed.Some? ==> r.installed == Some(Sentinel) && r.calls == [JobRun(tlh.value(e), Sentinel)]
    // something is printed exactly when nobody is left to run: no handler and no
    // top-level handler, or the sentinel; the former under "Unhandled exception: "
    ensures r.printed != [] <==> (hr.Absent? && tlh.None?) || hr.Sentinel?
    ensures hr.Absent? && tlh.None? ==> r == Reaction(None, [], Report(UnhandledException, e))
    // the sentinel never re-enters the fallback: it only prints
    ensures hr.Sentinel? ==> r == Reaction(None, [], Report(TopLevelHandlerRaised, e))
    // any other handler gets the fault itself, once
    ensures !hr.Absent? && !hr.Sentinel? ==> r.calls == [Handled(hr, e)] && r.printed == []
  {
    match hr
    case Absent => OnUnhandled(tlh, e)
    case Sentinel => Reaction(None, [], Report(TopLevelHandlerRaised, e))
    case _ => Reaction(None, [Handled(hr, e)], [])
  }

  /** Dispatches fault `e` to `hr`, or to the fallback when `hr` is null. */
  method DoHandle(hr: Handler, wr: Worker, out: Console, e: Exn)
    modifies wr, out
    ensures Performed(wr, out, OnFault(hr, wr.scheduler.topLevelHandler, e))
  {
    if !hr.Absent? {
      hr.DoHandle(wr, out, e);
    } else {
      DoHandleNull(wr, out, e);
    }
  }

  /** The fallback for a fault no handler guards. */
  method DoHandleNull(wr: Worker, out: Console, e: Exn)
    modifies wr, out
    ensures Performed(wr, out, OnUnhandled(wr.scheduler.topLevelHandler, e))
  {
    var tlh := wr.scheduler.topLevelHandler;
    if tlh.None? {
      PrintExn(out, UnhandledException, e);
    } else {
      var uK := Sentinel;
      wr.handler := uK;
      var job := tlh.value(e);
      wr.calls := wr.calls + [JobRun(job, uK)];
    }
  }

  /** Exception A caused by B caused by C, raised with no handler installed and no
      top-level handler, is printed as four lines and nothing else happens. */
  lemma UnhandledThreeLinkChain(a: string, b: string, c: string)
    ensures OnFault(Absent, None, Exn(a, Some(Exn(b, Some(Exn(c, None))))))
         == Reaction(None, [], [UnhandledException + a, CausedBy + b, CausedBy + c, NoOtherCauses])
  {
    ThreeLinkChain(a, b, c);
  }

  /** The top-level jobs started when the faults `es` are raised one after another in a
      worker whose installed handler is `h`, each dispatched to the handler installed
      at that moment. */
  function JobsStarted(h: Handler, tlh: Option<Exn -> Job>, es: seq<Exn>): seq<Job>
    decreases |es|
  {
    if es == [] then []
    else
      var r := OnFault(h, tlh, es[0]);
      (if r.calls != [] && r.calls[0].JobRun? then [r.calls[0].job] else []) +
      JobsStarted(if r.installed.Some? then r.installed.value else h, tlh, es[1..])
  }

  /** The fallback cannot loop: starting from no handler, however many faults follow,
      only the first one reaches the top-level handler; under the sentinel none does. */
  lemma {:induction false} FallbackRunsOnce(h: Handler, tlh: Option<Exn -> Job>, es: seq<Exn>)
    requires h.Absent? || h.Sentinel?
    ensures h.Sentinel? || tlh.None? || es == [] ==> JobsStarted(h, tlh, es) == []
    ensures h.Absent? && tlh.Some? && es != [] ==> JobsStarted(h, tlh, es) == [tlh.value(es[0])]
    decreases |es|
  {
    if es != [] {
      var r := OnFault(h, tlh, es[0]);
      if h.Absent? && tlh.Some? {
        FallbackRunsOnce(Sentinel, tlh, es[1..]);
      } else {
        FallbackRunsOnce(h, tlh, es[1..]);
      }
    }
  }

  // ---------------------------------------------------------------------------
  // Handler_State

  /** A handler carrying a payload for a concrete handling policy. */
  class HandlerState<T(0)> {
    var state: T

    /** Leaves the payload at its default. */
    constructor Default()
    {
    }

    constructor (state: T)
      ensures this.state == state
    {
      this.state := state;
    }
  }
}
