/**
 * The dispatch thread and its handle as objects whose fields are updated in
 * place. Every method is specified by the value-level function of
 * `CallbackState` that says what it does to the shared state.
 */
module CallbackThreads {
  import opened HalTypes
  import S = CallbackState

  /** The worker thread's shared fields (`CallbackThreadHAL`) and its progress through `Main`. */
  class CallbackThreadHAL {
    var active: bool
    var notify: bool
    var mask: uint64
    var param: Addr
    var init: Option<HookId>
    var process: Option<HookId>
    var end: Option<HookId>
    var pc: S.Pc
    ghost var calls: seq<HookCall>

    ghost function State(): S.Worker
      reads this
    {
      S.Worker(active, notify, mask, param, init, process, end, pc, calls)
    }

    /** A new worker with the declared defaults; `junk` is the uninitialised mask. */
    constructor (junk: uint64)
      ensures State() == S.Fresh(junk)
    {
      active, notify, mask, param := true, false, junk, Null;
      init, process, end := None, None, None;
      pc, calls := S.FirstWait, [];
    }

    /**
     * Runs one stretch of `Main`: from one lock boundary to the next, except
     * that leaving the loop and considering `end` are two steps although the
     * lock is held across both.
     */
    method WorkerStep(rv: int32)
      modifies this
      ensures State() == S.Step(old(State()), rv)
    {
      match pc
      case FirstWait =>
        if !active || notify {
          if !active {
            pc := S.Done;
          } else if init.Some? {
            var f, p := init.value, param;  // snapshot taken under the lock
            calls := calls + [Init(f, p)];
            pc := S.Initing;
          } else {
            pc := S.LoopHead;
          }
        }
      case Initing =>
        pc := if rv != 0 then S.Done else S.LoopHead;
      case LoopHead =>
        if !active {
          pc := S.Ending;
        } else if notify {
          notify := false;
          if process.Some? {
            var f, p, m := process.value, param, mask;  // snapshot taken under the lock
            calls := calls + [Process(f, m, p)];
          }
        }
      case Ending =>
        if end.Some? {
          var f, p := end.value, param;
          calls := calls + [End(f, p)];
        }
        pc := S.Done;
      case Done =>
    }

    /** The owner's shutdown request. */
    method Stop()
      modifies this
      ensures State() == S.RequestStop(old(State()))
    {
      active := false;
    }
  }

  /** The handle (`CallbackThread`), which owns at most one worker. */
  class CallbackThread {
    var thr: CallbackThreadHAL?

    ghost function Owned(): Option<S.Worker>
      reads this, thr
    {
      if thr == null then None else Some(thr.State())
    }

    /** A handle that has started its worker. */
    constructor Start(junk: uint64)
      ensures thr != null && fresh(thr)
      ensures Owned() == Some(S.Fresh(junk))
    {
      thr := new CallbackThreadHAL(junk);
    }

    /** A handle that owns no thread. */
    constructor Empty()
      ensures Owned() == None
    {
      thr := null;
    }

    method SetFunc(init: Option<HookId>, process: Option<HookId>, end: Option<HookId>, param: Addr)
      modifies thr
      ensures Owned() == S.SetFunc(old(Owned()), init, process, end, param)
    {
      var t := thr;
      if t == null { return; }
      t.param := param;
      t.init := init;
      t.process := process;
      t.end := end;
      t.notify := true;
    }

    method GetParam() returns (p: Addr)
      ensures p == S.GetParam(Owned())
    {
      var t := thr;
      if t == null { return Null; }
      p := t.param;
    }

    method Notify(mask: uint64)
      modifies thr
      ensures Owned() == S.Notify(old(Owned()), mask)
    {
      var t := thr;
      if t == null { return; }
      t.mask := mask;
      t.notify := true;
    }
  }

  /** The raw entry point given to the trigger source; `param` is the handle. */
  method CallbackHandler(mask: uint64, param: CallbackThread)
    modifies param.thr
    ensures param.Owned() == S.Notify(old(param.Owned()), mask)
  {
    param.Notify(mask);
  }

  /**
   * A client: only a `process` hook is installed, two notifications arrive
   * before the worker first runs, and the worker delivers one call carrying
   * the later mask.
   */
  method CoalescingClient(junk: uint64, f: HookId, p: Addr)
  {
    var h := new CallbackThread.Start(junk);
    h.SetFunc(None, Some(f), None, p);
    CallbackHandler(5, h);
    CallbackHandler(9, h);
    var t := h.thr;
    t.WorkerStep(0);
    t.WorkerStep(0);
    assert t.calls == [Process(f, 9, p)];
    var q := h.GetParam();
    assert q == p;
  }
}
