/**
 * Concrete interleavings: the usage scenarios of the dispatch thread, and the
 * schedules on which its behaviour depends on timing.
 */
module Scenarios {
  import opened HalTypes
  import opened CallbackState
  import opened Interleavings

  /** Running the suffix of `acts` from position `k` takes event `k` first. */
  lemma RunAt(w: Worker, acts: seq<Action>, k: nat)
    requires k < |acts|
    ensures Run(w, acts[k..]) == Run(Apply(w, acts[k]), acts[k + 1..])
  {
  }

  /**
   * Only `process` is installed and two notifications (5, then 9) arrive
   * before the worker consumes either: exactly one call, with mask 9.
   */
  lemma LatestMaskWins(junk: uint64, f: HookId, p: Addr)
    ensures Run(Fresh(junk), [CallSetFunc(None, Some(f), None, p), CallNotify(5), CallNotify(9),
                              WorkerRuns(0), WorkerRuns(0)]).calls == [Process(f, 9, p)]
  {
    var acts := [CallSetFunc(None, Some(f), None, p), CallNotify(5), CallNotify(9),
                 WorkerRuns(0), WorkerRuns(0)];
    var w0 := Fresh(junk);
    assert acts[0..] == acts;
    var w1 := Apply(w0, acts[0]);  RunAt(w0, acts, 0);
    var w2 := Apply(w1, acts[1]);  RunAt(w1, acts, 1);
    var w3 := Apply(w2, acts[2]);  RunAt(w2, acts, 2);
    var w4 := Apply(w3, acts[3]);  RunAt(w3, acts, 3);
    var w5 := Apply(w4, acts[4]);  RunAt(w4, acts, 4);
    assert acts[5..] == [];
    assert w5.calls == [Process(f, 9, p)];
  }

  /**
   * `init` fails after a notification: the trace stays the single `Init`
   * call, whatever is signalled or requested afterwards.
   */
  lemma FailedInitCallsNothingElse(junk: uint64, i: HookId, pr: Option<HookId>, e: Option<HookId>,
                                   p: Addr, after: seq<Action>)
    ensures Run(Fresh(junk), [CallSetFunc(Some(i), pr, e, p), CallNotify(1), WorkerRuns(0), WorkerRuns(1)]
                             + after).calls == [Init(i, p)]
  {
    var before := [CallSetFunc(Some(i), pr, e, p), CallNotify(1), WorkerRuns(0)];
    var w0 := Fresh(junk);
    assert before[0..] == before;
    var w1 := Apply(w0, before[0]);  RunAt(w0, before, 0);
    var w2 := Apply(w1, before[1]);  RunAt(w1, before, 1);
    var w3 := Apply(w2, before[2]);  RunAt(w2, before, 2);
    assert before[3..] == [];
    assert w3.pc == Initing && w3.calls == [Init(i, p)];
    InitFailureIsFinal(junk, before, 1, after);
    assert before + [WorkerRuns(1)] + after
        == [CallSetFunc(Some(i), pr, e, p), CallNotify(1), WorkerRuns(0), WorkerRuns(1)] + after;
  }

  /**
   * All three hooks installed, `init` succeeds, one notification, then
   * shutdown: `init`, `process`, `end`, each exactly once and in that order.
   */
  lemma FullLifecycle(junk: uint64, i: HookId, f: HookId, e: HookId, p: Addr, m: uint64)
    ensures Run(Fresh(junk), [CallSetFunc(Some(i), Some(f), Some(e), p), CallNotify(m),
                              WorkerRuns(0), WorkerRuns(0), WorkerRuns(0)]
                             + [CallStop, WorkerRuns(0), WorkerRuns(0)]).calls
         == [Init(i, p), Process(f, m, p), End(e, p)]
  {
    var first := [CallSetFunc(Some(i), Some(f), Some(e), p), CallNotify(m),
                  WorkerRuns(0), WorkerRuns(0), WorkerRuns(0)];
    var w0 := Fresh(junk);
    assert first[0..] == first;
    var w1 := Apply(w0, first[0]);  RunAt(w0, first, 0);
    var w2 := Apply(w1, first[1]);  RunAt(w1, first, 1);
    assert w2.mask == m && w2.notify && w2.pc == FirstWait;
    var w3 := Apply(w2, first[2]);  RunAt(w2, first, 2);
    assert w3.pc == Initing && w3.calls == [Init(i, p)];
    var w4 := Apply(w3, first[3]);  RunAt(w3, first, 3);
    assert w4.pc == LoopHead && w4.notify && w4.mask == m;
    var w5 := Apply(w4, first[4]);  RunAt(w4, first, 4);
    assert first[5..] == [];
    assert w5.pc == LoopHead && w5.calls == [Init(i, p), Process(f, m, p)];
    ShutdownAtLoopRunsEnd(w5);
    RunAppend(w0, first, [CallStop, WorkerRuns(0), WorkerRuns(0)]);
  }

  /**
   * A shutdown requested while the worker is at the head of its loop: the
   * next step leaves the loop and the one after calls the installed `end`
   * once, as the last hook, and finishes.
   */
  lemma ShutdownAtLoopRunsEnd(w: Worker)
    requires w.pc == LoopHead && w.end.Some?
    ensures var r := Run(w, [CallStop, WorkerRuns(0), WorkerRuns(0)]);
      r.calls == w.calls + [End(w.end.value, w.param)] && r.pc == Done
  {
    var acts := [CallStop, WorkerRuns(0), WorkerRuns(0)];
    assert acts[0..] == acts;
    var w1 := Apply(w, acts[0]);  RunAt(w, acts, 0);
    var w2 := Apply(w1, acts[1]);  RunAt(w1, acts, 1);
    var w3 := Apply(w2, acts[2]);  RunAt(w2, acts, 2);
    assert acts[3..] == [];
  }

  /**
   * Only `end` installed and shutdown requested before the worker first
   * wakes: the worker finishes without calling `end`.
   */
  lemma EndSkippedIfStoppedUnwoken(junk: uint64, e: HookId, p: Addr)
    ensures var r := Run(Fresh(junk), [CallSetFunc(None, None, Some(e), p), CallStop, WorkerRuns(0)]);
      r.calls == [] && r.pc == Done
  {
    var acts := [CallSetFunc(None, None, Some(e), p), CallStop, WorkerRuns(0)];
    var w0 := Fresh(junk);
    assert acts[0..] == acts;
    var w1 := Apply(w0, acts[0]);  RunAt(w0, acts, 0);
    var w2 := Apply(w1, acts[1]);  RunAt(w1, acts, 1);
    var w3 := Apply(w2, acts[2]);  RunAt(w2, acts, 2);
    assert acts[3..] == [];
  }

  /**
   * Only `end` installed and no notification after installation, but the
   * worker wakes on `SetFunc`'s own signal before shutdown: with no `init` it
   * enters the loop, so `end` does run at shutdown.
   */
  lemma EndRunsIfWokenBeforeStop(junk: uint64, e: HookId, p: Addr)
    ensures var r := Run(Fresh(junk), [CallSetFunc(None, None, Some(e), p), WorkerRuns(0), WorkerRuns(0),
                                       CallStop, WorkerRuns(0), WorkerRuns(0)]);
      r.calls == [End(e, p)] && r.pc == Done
  {
    var acts := [CallSetFunc(None, None, Some(e), p), WorkerRuns(0), WorkerRuns(0),
                 CallStop, WorkerRuns(0), WorkerRuns(0)];
    var w0 := Fresh(junk);
    assert acts[0..] == acts;
    var w1 := Apply(w0, acts[0]);  RunAt(w0, acts, 0);
    var w2 := Apply(w1, acts[1]);  RunAt(w1, acts, 1);
    var w3 := Apply(w2, acts[2]);  RunAt(w2, acts, 2);
    var w4 := Apply(w3, acts[3]);  RunAt(w3, acts, 3);
    var w5 := Apply(w4, acts[4]);  RunAt(w4, acts, 4);
    var w6 := Apply(w5, acts[5]);  RunAt(w5, acts, 5);
    assert acts[6..] == [];
  }

  /**
   * A successful `init` leaves `SetFunc`'s notification pending, so the loop
   * calls `process` at once, with no `Notify`; the mask it passes is the
   * uninitialised one.
   */
  lemma FirstProcessAfterInitSeesStaleMask(junk: uint64, i: HookId, f: HookId, e: Option<HookId>,
                                           p: Addr)
    ensures var r := Run(Fresh(junk), [CallSetFunc(Some(i), Some(f), e, p), WorkerRuns(0),
                                       WorkerRuns(0), WorkerRuns(0)]);
      r.calls == [Init(i, p), Process(f, junk, p)] &&
      r.pc == LoopHead && r.active && !r.notify && r.process == Some(f) && r.end == e && r.param == p
  {
    var acts := [CallSetFunc(Some(i), Some(f), e, p), WorkerRuns(0), WorkerRuns(0), WorkerRuns(0)];
    var w0 := Fresh(junk);
    assert acts[0..] == acts;
    var w1 := Apply(w0, acts[0]);  RunAt(w0, acts, 0);
    var w2 := Apply(w1, acts[1]);  RunAt(w1, acts, 1);
    var w3 := Apply(w2, acts[2]);  RunAt(w2, acts, 2);
    assert w3.pc == LoopHead && w3.notify && Enabled(w3);
    var w4 := Apply(w3, acts[3]);  RunAt(w3, acts, 3);
    assert acts[4..] == [];
  }

  /**
   * A `Notify` that reaches a worker before any `SetFunc` can wake it with no
   * `init` installed: it enters the loop and drops the notification. An
   * `init` installed afterwards is never called, whatever events follow.
   */
  lemma EarlyNotifySkipsInit(junk: uint64, m: uint64, i: HookId, f: HookId, p: Addr,
                             after: seq<Action>)
    ensures Run(Fresh(junk), [CallNotify(m), WorkerRuns(0), WorkerRuns(0),
                              CallSetFunc(Some(i), Some(f), None, p), WorkerRuns(0)]).calls
         == [Process(f, m, p)]
    ensures NoInit(Run(Fresh(junk), [CallNotify(m), WorkerRuns(0), WorkerRuns(0),
                                     CallSetFunc(Some(i), Some(f), None, p), WorkerRuns(0)]
                                    + after).calls)
  {
    var acts := [CallNotify(m), WorkerRuns(0), WorkerRuns(0),
                 CallSetFunc(Some(i), Some(f), None, p), WorkerRuns(0)];
    var w0 := Fresh(junk);
    assert acts[0..] == acts;
    var w1 := Apply(w0, acts[0]);  RunAt(w0, acts, 0);
    var w2 := Apply(w1, acts[1]);  RunAt(w1, acts, 1);
    var w3 := Apply(w2, acts[2]);  RunAt(w2, acts, 2);
    assert w3.calls == [] && !w3.notify;
    var w4 := Apply(w3, acts[3]);  RunAt(w3, acts, 3);
    var w5 := Apply(w4, acts[4]);  RunAt(w4, acts, 4);
    assert acts[5..] == [];
    assert w5.pc == LoopHead && w5.calls == [Process(f, m, p)];
    NoInitLater(w5, after);
    RunAppend(w0, acts, after);
  }

  /**
   * All three hooks installed and `init` succeeds, but the single `Notify`
   * arrives only after the worker's first loop iteration: `SetFunc`'s own
   * notification has already produced a `process` call with the
   * uninitialised mask, so shutdown ends the trace with two `process` calls.
   */
  lemma LateNotifyAddsSecondProcess(junk: uint64, i: HookId, f: HookId, e: HookId, p: Addr,
                                    m: uint64)
    ensures Run(Fresh(junk), [CallSetFunc(Some(i), Some(f), Some(e), p),
                              WorkerRuns(0), WorkerRuns(0), WorkerRuns(0), CallNotify(m)]
                             + [WorkerRuns(0)]
                             + [CallStop, WorkerRuns(0), WorkerRuns(0)]).calls
         == [Init(i, p), Process(f, junk, p), Process(f, m, p), End(e, p)]
  {
    var first := [CallSetFunc(Some(i), Some(f), Some(e), p), WorkerRuns(0), WorkerRuns(0), WorkerRuns(0)];
    var w0 := Fresh(junk);
    FirstProcessAfterInitSeesStaleMask(junk, i, f, Some(e), p);
    var w4 := Run(w0, first);
    var w5 := Signal(w4, m);
    assert Run(w4, [CallNotify(m)]) == w5;
    RunAppend(w0, first, [CallNotify(m)]);
    assert first + [CallNotify(m)] == [CallSetFunc(Some(i), Some(f), Some(e), p),
                                       WorkerRuns(0), WorkerRuns(0), WorkerRuns(0), CallNotify(m)];
    var w6 := Step(w5, 0);
    assert Run(w5, [WorkerRuns(0)]) == w6;
    assert w6.pc == LoopHead && w6.calls == [Init(i, p), Process(f, junk, p), Process(f, m, p)];
    ShutdownAtLoopRunsEnd(w6);
    RunAppend(w0, first + [CallNotify(m)], [WorkerRuns(0)]);
    RunAppend(w0, first + [CallNotify(m)] + [WorkerRuns(0)], [CallStop, WorkerRuns(0), WorkerRuns(0)]);
  }

  /**
   * The same late `Notify`, but shutdown is requested before the worker runs
   * another iteration: the loop tests the active flag before the notify flag,
   * so the worker leaves the loop and the late mask is never delivered.
   */
  lemma LateNotifyThenStopIsLost(junk: uint64, i: HookId, f: HookId, e: HookId, p: Addr,
                                 m: uint64)
    ensures Run(Fresh(junk), [CallSetFunc(Some(i), Some(f), Some(e), p),
                              WorkerRuns(0), WorkerRuns(0), WorkerRuns(0), CallNotify(m)]
                             + [CallStop, WorkerRuns(0), WorkerRuns(0)]).calls
         == [Init(i, p), Process(f, junk, p), End(e, p)]
  {
    var first := [CallSetFunc(Some(i), Some(f), Some(e), p), WorkerRuns(0), WorkerRuns(0), WorkerRuns(0)];
    var w0 := Fresh(junk);
    FirstProcessAfterInitSeesStaleMask(junk, i, f, Some(e), p);
    var w4 := Run(w0, first);
    var w5 := Signal(w4, m);
    assert Run(w4, [CallNotify(m)]) == w5;
    RunAppend(w0, first, [CallNotify(m)]);
    assert first + [CallNotify(m)] == [CallSetFunc(Some(i), Some(f), Some(e), p),
                                       WorkerRuns(0), WorkerRuns(0), WorkerRuns(0), CallNotify(m)];
    ShutdownAtLoopRunsEnd(w5);
    RunAppend(w0, first + [CallNotify(m)], [CallStop, WorkerRuns(0), WorkerRuns(0)]);
  }

  /**
   * A `Notify` that reaches the loop head while no `process` hook is
   * installed is not lost when a `SetFunc` installs one before the worker's
   * next iteration: that hook receives the notified mask.
   */
  lemma PendingNotifyReachesLaterProcess(w: Worker, m: uint64, i: Option<HookId>, f: HookId,
                                         e: Option<HookId>, p: Addr)
    requires w.pc == LoopHead && w.active
    ensures Run(w, [CallNotify(m), CallSetFunc(i, Some(f), e, p), WorkerRuns(0)]).calls
         == w.calls + [Process(f, m, p)]
  {
    var acts := [CallNotify(m), CallSetFunc(i, Some(f), e, p), WorkerRuns(0)];
    assert acts[0..] == acts;
    var w1 := Apply(w, acts[0]);  RunAt(w, acts, 0);
    var w2 := Apply(w1, acts[1]);  RunAt(w1, acts, 1);
    var w3 := Apply(w2, acts[2]);  RunAt(w2, acts, 2);
    assert acts[3..] == [];
  }

  /**
   * A shutdown requested before the worker's first wake: no hook is ever
   * called, whatever handle calls and steps follow.
   */
  lemma StoppedBeforeStartCallsNothing(junk: uint64, acts: seq<Action>)
    ensures Run(Fresh(junk), [CallStop] + acts).calls == []
  {
    RunAppend(Fresh(junk), [CallStop], acts);
    assert Run(Fresh(junk), [CallStop]) == RequestStop(Fresh(junk));
    StopBeforeFirstWake(RequestStop(Fresh(junk)), acts);
  }
}
