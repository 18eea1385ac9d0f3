/** src/cleanup_handler.py: the one-flag guard that lets the cleanup callback run at most
    once, however many exit paths (atexit, SIGHUP, SIGTERM, SIGINT) reach it. What the
    process observes is kept as an event log. */
module Cleanup {
  import opened Wrappers

  /** Observable effects: the callback running, a line printed, the process exiting. */
  datatype Event = CallbackRan | Printed(text: string) | Exit(code: int)

  const SIGHUP: int := 1
  const SIGINT: int := 2
  const SIGTERM: int := 15

  /** The names `_signal_handler` knows; any other signal number has none. */
  function SignalName(signum: int): (r: Option<string>)
    ensures r.Some? <==> signum == SIGHUP || signum == SIGTERM || signum == SIGINT
  {
    if signum == SIGHUP then Some("SIGHUP (terminal closed)")
    else if signum == SIGTERM then Some("SIGTERM (kill command)")
    else if signum == SIGINT then Some("SIGINT (Ctrl+C)")
    else None
  }

  /** The state after one `_cleanup` call and whether the callback ran during it. */
  datatype CleanupStep = CleanupStep(called: bool, runs: bool)

  function AfterCleanup(called: bool): (s: CleanupStep)
    ensures s.called
    ensures s.runs <==> !called
  {
    if !called then CleanupStep(true, true) else CleanupStep(called, false)
  }

  /** How often the callback runs over `n` consecutive `_cleanup` calls. */
  function CallbackRuns(called: bool, n: nat): nat
    decreases n
  {
    if n == 0 then 0
    else
      var s := AfterCleanup(called);
      (if s.runs then 1 else 0) + CallbackRuns(s.called, n - 1)
  }

  /** Across any `n >= 1` calls on a fresh handler the callback runs exactly once, and never
      again once the flag is set. */
  lemma {:induction false} CallbackRunsOnce(called: bool, n: nat)
    ensures CallbackRuns(called, n) == if called || n == 0 then 0 else 1
    decreases n
  {
    if n > 0 {
      CallbackRunsOnce(true, n - 1);
    }
  }

  class CleanupHandler {
    var cleanupCalled: bool
    var log: seq<Event>

    /** A new handler has not run cleanup. */
    constructor ()
      ensures !cleanupCalled && log == []
    {
      cleanupCalled := false;
      log := [];
    }

    /** `_cleanup`: runs the callback only the first time. */
    method DoCleanup()
      modifies this
      ensures cleanupCalled == AfterCleanup(old(cleanupCalled)).called
      ensures log == old(log) + (if AfterCleanup(old(cleanupCalled)).runs then [CallbackRan] else [])
    {
      if !cleanupCalled {
        cleanupCalled := true;
        log := log + [CallbackRan];
      }
    }

    /** `_signal_handler`: announces a known signal, cleans up, then exits with status 0. */
    method SignalHandler(signum: int)
      modifies this
      ensures cleanupCalled
      ensures var name := SignalName(signum);
              log == old(log)
                     + (if name.Some? then [Printed("\nReceived " + name.value)] else [])
                     + (if old(cleanupCalled) then [] else [CallbackRan])
                     + [Exit(0)]
    {
      var name := SignalName(signum);
      if name.Some? {
        log := log + [Printed("\nReceived " + name.value)];
      }
      DoCleanup();
      log := log + [Exit(0)];
    }

    /** `register`: hooks the handler up and returns it. */
    method Register() returns (h: CleanupHandler)
      ensures h == this
    {
      h := this;
    }
  }

  /** `register_cleanup`: a fresh, registered handler. */
  method RegisterCleanup() returns (handler: CleanupHandler)
    ensures fresh(handler) && !handler.cleanupCalled && handler.log == []
  {
    handler := new CleanupHandler();
    handler := handler.Register();
  }
}
