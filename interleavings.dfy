/**
 * Interleavings of handle calls, shutdown and worker steps on one thread
 * owned by a handle, and the lifecycle, ordering and coalescing properties of
 * the hook-call trace that hold for every interleaving.
 */
module Interleavings {
  import opened HalTypes
  import opened CallbackState

  /** One atomic event: a handle call, the shutdown request, or a worker step. */
  datatype Action =
    | CallSetFunc(init: Option<HookId>, process: Option<HookId>, end: Option<HookId>, param: Addr)
    | CallNotify(mask: uint64)
    | CallStop
    | WorkerRuns(rv: int32)  // `rv` is what `init` returns if this step completes it

  function Apply(w: Worker, a: Action): (r: Worker)
    ensures |w.calls| <= |r.calls| && r.calls[..|w.calls|] == w.calls
    ensures !w.active ==> !r.active
  {
    match a
    case CallSetFunc(i, p, e, param) => Install(w, i, p, e, param)
    case CallNotify(m) => Signal(w, m)
    case CallStop => RequestStop(w)
    case WorkerRuns(rv) => Step(w, rv)
  }

  /** The state after the events of `acts`, in order. */
  function Run(w: Worker, acts: seq<Action>): (r: Worker)
    ensures |w.calls| <= |r.calls| && r.calls[..|w.calls|] == w.calls
    ensures !w.active ==> !r.active
    decreases |acts|
  {
    if acts == [] then w else Run(Apply(w, acts[0]), acts[1..])
  }

  lemma {:induction false} RunAppend(w: Worker, xs: seq<Action>, ys: seq<Action>)
    ensures Run(w, xs + ys) == Run(Run(w, xs), ys)
    decreases |xs|
  {
    if xs == [] {
      assert xs + ys == ys;
    } else {
      assert (xs + ys)[0] == xs[0];
      assert (xs + ys)[1..] == xs[1..] + ys;
      RunAppend(Apply(w, xs[0]), xs[1..], ys);
    }
  }

  /** No `End` call appears in the trace. */
  predicate NoEnd(calls: seq<HookCall>)
  {
    forall i | 0 <= i < |calls| :: !calls[i].End?
  }

  /**
   * The lifecycle order of the trace: an `Init` call can only be the first
   * call and an `End` call only the last, so each happens at most once, `init`
   * precedes every `process`, and `end` follows every one.
   */
  predicate WellOrdered(calls: seq<HookCall>)
  {
    (forall i | 0 < i < |calls| :: !calls[i].Init?) &&
    (forall i | 0 <= i < |calls| - 1 :: !calls[i].End?)
  }

  /** How the trace and the active flag relate to where the worker is. */
  predicate Consistent(w: Worker)
  {
    WellOrdered(w.calls) &&
    (w.pc == FirstWait ==> w.calls == []) &&
    (w.pc == Initing ==> |w.calls| == 1 && w.calls[0].Init?) &&
    (w.pc == Ending ==> !w.active) &&
    (w.pc != Done ==> NoEnd(w.calls)) &&
    (!NoEnd(w.calls) ==> !w.active)
  }

  lemma ApplyConsistent(w: Worker, a: Action)
    requires Consistent(w)
    ensures Consistent(Apply(w, a))
  {
  }

  lemma {:induction false} RunConsistent(w: Worker, acts: seq<Action>)
    requires Consistent(w)
    ensures Consistent(Run(w, acts))
    decreases |acts|
  {
    if acts != [] {
      ApplyConsistent(w, acts[0]);
      RunConsistent(Apply(w, acts[0]), acts[1..]);
    }
  }

  /**
   * Lifecycle ordering over every interleaving from a fresh worker: `init` is
   * called at most once and before any `process`; `end` is called at most
   * once, after every other hook, and only once the active flag is false,
   * after which the worker has finished.
   */
  lemma Lifecycle(junk: uint64, acts: seq<Action>)
    ensures var r := Run(Fresh(junk), acts);
      (forall i | 0 < i < |r.calls| :: !r.calls[i].Init?) &&
      (forall i | 0 <= i < |r.calls| - 1 :: !r.calls[i].End?) &&
      (forall i | 0 <= i < |r.calls| :: r.calls[i].End? ==> r.pc == Done && !r.active)
  {
    RunConsistent(Fresh(junk), acts);
  }

  /** A finished worker calls no more hooks, whatever happens afterwards. */
  lemma {:induction false} DoneIsFinal(w: Worker, acts: seq<Action>)
    requires w.pc == Done
    ensures Run(w, acts).pc == Done && Run(w, acts).calls == w.calls
    decreases |acts|
  {
    if acts != [] {
      DoneIsFinal(Apply(w, acts[0]), acts[1..]);
    }
  }

  /**
   * A shutdown that the worker sees at its first wake ends it without any
   * hook call, `end` included, whatever handle calls come before or after.
   */
  lemma {:induction false} StopBeforeFirstWake(w: Worker, acts: seq<Action>)
    requires w.pc == FirstWait && !w.active && w.calls == []
    ensures Run(w, acts).pc in {FirstWait, Done} && Run(w, acts).calls == []
    decreases |acts|
  {
    if acts != [] {
      var w' := Apply(w, acts[0]);
      if w'.pc == Done {
        DoneIsFinal(w', acts[1..]);
      } else {
        StopBeforeFirstWake(w', acts[1..]);
      }
    }
  }

  /**
   * A failing `init` is silent: after it returns nonzero, the trace holds the
   * single `Init` call and nothing is ever added, neither `process` nor `end`.
   */
  lemma InitFailureIsFinal(junk: uint64, before: seq<Action>, rv: int32, after: seq<Action>)
    requires Run(Fresh(junk), before).pc == Initing
    requires rv != 0
    ensures var r := Run(Fresh(junk), before + [WorkerRuns(rv)] + after);
      r.pc == Done && r.calls == Run(Fresh(junk), before).calls && |r.calls| == 1 && r.calls[0].Init?
  {
    var w := Run(Fresh(junk), before);
    RunConsistent(Fresh(junk), before);
    RunAppend(Fresh(junk), before, [WorkerRuns(rv)]);
    RunAppend(Fresh(junk), before + [WorkerRuns(rv)], after);
    assert Run(w, [WorkerRuns(rv)]) == Step(w, rv);
    DoneIsFinal(Step(w, rv), after);
  }

  /** No `Init` call appears in the trace. */
  predicate NoInit(calls: seq<HookCall>)
  {
    forall i | 0 <= i < |calls| :: !calls[i].Init?
  }

  /**
   * `init` is considered only at the first wake: once the worker is past it
   * without having called `init`, no later event brings an `Init` call.
   */
  lemma {:induction false} NoInitLater(w: Worker, acts: seq<Action>)
    requires w.pc != FirstWait && NoInit(w.calls)
    ensures Run(w, acts).pc != FirstWait && NoInit(Run(w, acts).calls)
    decreases |acts|
  {
    if acts != [] {
      var w' := Apply(w, acts[0]);
      assert w'.pc != FirstWait;
      assert NoInit(w'.calls) by {
        if |w'.calls| > |w.calls| {
          assert w'.calls == w.calls + [w'.calls[|w.calls|]];
        }
      }
      NoInitLater(w', acts[1..]);
    }
  }

  /** The actions of a burst of notifications, in order. */
  function Notifies(ms: seq<uint64>): (acts: seq<Action>)
    ensures |acts| == |ms|
    ensures forall i | 0 <= i < |ms| :: acts[i] == CallNotify(ms[i])
  {
    if ms == [] then [] else [CallNotify(ms[0])] + Notifies(ms[1..])
  }

  /** A burst of notifications leaves only the last mask pending. */
  lemma {:induction false} BurstLeavesLast(w: Worker, ms: seq<uint64>)
    requires ms != []
    ensures Run(w, Notifies(ms)) == w.(mask := ms[|ms| - 1], notify := true)
    decreases |ms|
  {
    var acts := Notifies(ms);
    assert acts[1..] == Notifies(ms[1..]);
    if |ms| > 1 {
      BurstLeavesLast(Signal(w, ms[0]), ms[1..]);
    }
  }

  /**
   * Coalescing: any number of `Notify` calls before the worker wakes in its
   * loop yield exactly one `process` call, carrying the last mask and the
   * installed parameter, and leave nothing pending.
   */
  lemma Coalescing(w: Worker, ms: seq<uint64>, rv: int32)
    requires w.pc == LoopHead && w.active && w.process.Some?
    requires ms != []
    ensures var r := Run(w, Notifies(ms) + [WorkerRuns(rv)]);
      r.calls == w.calls + [Process(w.process.value, ms[|ms| - 1], w.param)] &&
      !r.notify && r.pc == LoopHead && !Enabled(r)
  {
    BurstLeavesLast(w, ms);
    RunAppend(w, Notifies(ms), [WorkerRuns(rv)]);
    var b := Run(w, Notifies(ms));
    assert b == w.(mask := ms[|ms| - 1], notify := true);
    var r := Step(b, rv);
    assert r == b.(notify := false, calls := w.calls + [Process(w.process.value, ms[|ms| - 1], w.param)]);
    assert Run(b, [WorkerRuns(rv)]) == r by {
      assert [WorkerRuns(rv)][1..] == [];
    }
  }

  /**
   * Each hook call uses the hook and arguments held when the worker took its
   * snapshot under the lock.
   */
  lemma StepCallsUseSnapshot(w: Worker, rv: int32)
    ensures var r := Step(w, rv);
      |r.calls| == |w.calls| + 1 ==>
        r.calls[|w.calls|] ==
          match w.pc
          case FirstWait => Init(w.init.value, w.param)
          case LoopHead => Process(w.process.value, w.mask, w.param)
          case _ => End(w.end.value, w.param)
  {
  }

  /**
   * Leaving the loop once shutdown is requested commutes with every handle
   * call and shutdown request, so modelling the exit and the `end` call as two
   * steps, although the lock is held across both, adds no new outcome.
   */
  lemma LoopExitCommutes(w: Worker, a: Action, rv: int32)
    requires w.pc == LoopHead && !w.active && !a.WorkerRuns?
    ensures Apply(Step(w, rv), a) == Step(Apply(w, a), rv)
  {
  }

  /**
   * The first wake calls an installed `init`: a step at the first wait, with
   * the worker active and notified, appends `Init` with the installed hook
   * and parameter and moves into the `init` call.
   */
  lemma InstalledInitIsCalled(w: Worker, rv: int32)
    requires w.pc == FirstWait && w.active && w.notify && w.init.Some?
    ensures var r := Step(w, rv);
      r.calls == w.calls + [Init(w.init.value, w.param)] && r.pc == Initing
  {
  }

  /**
   * A loop iteration that proceeds clears the notify flag even when no
   * `process` hook is installed: that notification is dropped and the worker
   * blocks again.
   */
  lemma NotifyWithoutProcessIsDropped(w: Worker, m: uint64, rv: int32)
    requires w.pc == LoopHead && w.active && w.process.None?
    ensures var r := Step(Signal(w, m), rv);
      r.calls == w.calls && !r.notify && r.pc == LoopHead && !Enabled(r)
  {
  }

  /** `end` runs only when installed, on the step that leaves the loop's exit. */
  lemma EndOnlyIfInstalled(w: Worker, rv: int32)
    requires Consistent(w)
    ensures var r := Step(w, rv);
      !NoEnd(r.calls) && NoEnd(w.calls) ==>
        w.pc == Ending && !w.active && w.end.Some? && r.pc == Done
  {
  }
}
