/**
 * The shared state of one callback dispatch thread (`CallbackThreadHAL`) as a
 * value, and what each atomic operation does to it: the handle-side writes of
 * `SetFunc` and `Notify`, the shutdown request, and one step of the worker's
 * `Main` between two lock boundaries.
 */
module CallbackState {
  import opened HalTypes

  /** Where the worker thread is inside `Main`. */
  datatype Pc =
    | FirstWait  // blocked in the wait before the lifecycle starts
    | Initing    // running `init` with the lock released
    | LoopHead   // at the head of the processing loop
    | Ending     // the loop has exited; `end` has not been considered yet
    | Done       // `Main` has returned

  /**
   * The worker's fields, its program counter, and the trace of hook calls it
   * has made so far (`calls`, instrumentation only).
   */
  datatype Worker = Worker(
    active: bool,
    notify: bool,
    mask: uint64,
    param: Addr,
    init: Option<HookId>,
    process: Option<HookId>,
    end: Option<HookId>,
    pc: Pc,
    calls: seq<HookCall>)

  /**
   * The worker can make progress: the predicate of the condition-variable
   * waits holds where it waits, and it is not finished elsewhere.
   */
  predicate Enabled(w: Worker)
  {
    match w.pc
    case FirstWait => !w.active || w.notify
    case Initing => true
    case LoopHead => !w.active || w.notify
    case Ending => true
    case Done => false
  }

  /**
   * A newly created worker. `m_mask` has no initialiser, so its first value is
   * whatever `junk` the memory held.
   */
  function Fresh(junk: uint64): (w: Worker)
    ensures w.active && !w.notify && w.param == Null
    ensures w.init == None && w.process == None && w.end == None
    ensures w.pc == FirstWait && w.calls == [] && w.mask == junk
    ensures !Enabled(w)
  {
    Worker(true, false, junk, Null, None, None, None, FirstWait, [])
  }

  /** What `SetFunc` writes into the worker it owns. */
  function Install(w: Worker, init: Option<HookId>, process: Option<HookId>,
                   end: Option<HookId>, param: Addr): (r: Worker)
    ensures r.param == param && r.init == init && r.process == process && r.end == end
    ensures r.notify
    ensures r.active == w.active && r.mask == w.mask && r.pc == w.pc && r.calls == w.calls
    ensures r.pc != Done ==> Enabled(r)
  {
    w.(param := param, init := init, process := process, end := end, notify := true)
  }

  /** What `Notify` writes into the worker it owns: the last mask wins. */
  function Signal(w: Worker, mask: uint64): (r: Worker)
    ensures r.mask == mask && r.notify
    ensures r.active == w.active && r.param == w.param && r.pc == w.pc && r.calls == w.calls
    ensures r.init == w.init && r.process == w.process && r.end == w.end
    ensures r.pc != Done ==> Enabled(r)
  {
    w.(mask := mask, notify := true)
  }

  /** The owner's shutdown request: the active flag is cleared and the worker woken. */
  function RequestStop(w: Worker): (r: Worker)
    ensures !r.active
    ensures r.notify == w.notify && r.mask == w.mask && r.param == w.param
    ensures r.init == w.init && r.process == w.process && r.end == w.end
    ensures r.pc == w.pc && r.calls == w.calls
    ensures r.pc != Done ==> Enabled(r)
  {
    w.(active := false)
  }

  /**
   * One stretch of `Main` between two lock boundaries. `rv` is what `init`
   * returns when this step completes an `init` call; it is ignored otherwise.
   * A worker that is not enabled stays blocked: a wake-up with the wait
   * predicate false changes nothing.
   */
  function Step(w: Worker, rv: int32): (r: Worker)
    ensures r.active == w.active && r.mask == w.mask && r.param == w.param
    ensures r.init == w.init && r.process == w.process && r.end == w.end
    ensures r.notify == (w.notify && !(w.pc == LoopHead && w.active))
    ensures |w.calls| <= |r.calls| <= |w.calls| + 1 && r.calls[..|w.calls|] == w.calls
    ensures !Enabled(w) ==> r == w
  {
    if !Enabled(w) then w
    else match w.pc
      case FirstWait =>
        if !w.active then w.(pc := Done)
        else if w.init.Some? then
          w.(pc := Initing, calls := w.calls + [Init(w.init.value, w.param)])
        else w.(pc := LoopHead)
      case Initing =>
        if rv != 0 then w.(pc := Done) else w.(pc := LoopHead)
      case LoopHead =>
        if !w.active then w.(pc := Ending)
        else if w.process.None? then w.(notify := false)
        else w.(notify := false, calls := w.calls + [Process(w.process.value, w.mask, w.param)])
      case Ending =>
        w.(pc := Done, calls := if w.end.Some? then w.calls + [End(w.end.value, w.param)] else w.calls)
  }

  /** `CallbackThread::SetFunc`: a no-op when the handle owns no thread. */
  function SetFunc(h: Option<Worker>, init: Option<HookId>, process: Option<HookId>,
                   end: Option<HookId>, param: Addr): (r: Option<Worker>)
    ensures r.Some? <==> h.Some?
    ensures GetParam(r) == if h.Some? then param else Null
  {
    if h.None? then None else Some(Install(h.value, init, process, end, param))
  }

  /** `CallbackThread::GetParam`: the installed parameter, or null without a thread. */
  function GetParam(h: Option<Worker>): (p: Addr)
    ensures h.None? ==> p == Null
  {
    if h.None? then Null else h.value.param
  }

  /** `CallbackThread::Notify`: a no-op when the handle owns no thread. */
  function Notify(h: Option<Worker>, mask: uint64): (r: Option<Worker>)
    ensures r.Some? <==> h.Some?
    ensures GetParam(r) == GetParam(h)
  {
    if h.None? then None else Some(Signal(h.value, mask))
  }

  /**
   * Coalescing: a second `Notify` before the worker runs replaces the first,
   * leaving exactly the state a lone `Notify(b)` would have left.
   */
  lemma NotifyTwiceIsNotifyLast(h: Option<Worker>, a: uint64, b: uint64)
    ensures Notify(Notify(h, a), b) == Notify(h, b)
  {
  }

  /**
   * At most one pending notification: `Notify(b)` on a handle whose worker
   * already has a notification pending (with any mask) leaves the same state
   * as `Notify(b)` on the same worker with nothing pending.
   */
  lemma NotifyIgnoresPending(w: Worker, pending: uint64, b: uint64)
    ensures Notify(Some(w.(notify := true, mask := pending)), b)
         == Notify(Some(w.(notify := false)), b)
  {
  }
}
