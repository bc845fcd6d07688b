/**
 The `close` listener with the identity check that `stop-script`'s immediate
 `delete` (main.js:192) makes necessary: a child's exit removes the table entry
 for its name only while that entry still holds this child, so the late `close`
 of a stopped child leaves a newer run of the same script registered.
 Everything else is the supervisor as written.
 */
module FixedClose {
  import opened Opt
  import opened Registry
  import opened Supervisor

  /** `close` with `if (activeProcesses.get(scriptName) === proc) activeProcesses.delete(scriptName)`. */
  function CloseFixed(s: State, pid: Pid, code: ExitCode): (o: Outcome)
    requires Inv(s)
    ensures Inv(o.state)
    ensures o.reply == Close(s, pid, code).reply && o.effects == Close(s, pid, code).effects
    ensures o.state.children == Close(s, pid, code).state.children
    ensures o.state.windowAlive == s.windowAlive
    ensures forall n :: n in View(s.procs) && View(s.procs)[n] != pid ==>
      n in View(o.state.procs) && View(o.state.procs)[n] == View(s.procs)[n]
    ensures View(o.state.procs).Keys <= View(s.procs).Keys
    ensures forall n :: n in View(s.procs) && View(s.procs)[n] == pid ==> n !in View(o.state.procs)
  {
    if pid in s.children && s.children[pid].Script? && Get(s.procs, s.children[pid].name) != Some(pid) then
      var name := s.children[pid].name;
      StaleClose(s, pid);
      Outcome(s.(children := s.children - {pid}), NoReply, SafeSend(s, ExitChannel, Exit(name, code)))
    else
      CurrentClose(s, pid, code);
      Close(s, pid, code)
  }

  /** A child whose name now maps to another process holds no entry, so
      dropping its listeners alone keeps the invariant. */
  lemma StaleClose(s: State, pid: Pid)
    requires Inv(s)
    requires pid in s.children && s.children[pid].Script?
    requires Get(s.procs, s.children[pid].name) != Some(pid)
    ensures Inv(s.(children := s.children - {pid}))
    ensures forall n :: n in View(s.procs) ==> View(s.procs)[n] != pid
  {
  }

  /** Otherwise the close as written removes exactly the entries holding `pid`. */
  lemma CurrentClose(s: State, pid: Pid, code: ExitCode)
    requires Inv(s)
    requires !(pid in s.children && s.children[pid].Script? && Get(s.procs, s.children[pid].name) != Some(pid))
    ensures var r := Close(s, pid, code).state;
      && (forall n :: n in View(s.procs) && View(s.procs)[n] != pid ==>
            n in View(r.procs) && View(r.procs)[n] == View(s.procs)[n])
      && View(r.procs).Keys <= View(s.procs).Keys
      && (forall n :: n in View(s.procs) && View(s.procs)[n] == pid ==> n !in View(r.procs))
  {
  }

  /** One step of the corrected supervisor. */
  function StepFixed(s: State, e: Event): (o: Outcome)
    requires Inv(s)
    ensures Inv(o.state)
  {
    match e
    case ChildClose(pid, code) => CloseFixed(s, pid, code)
    case _ => Step(s, e)
  }

  /** In the corrected machine a registered script stays registered, under the
      same process, until it is stopped, its own process closes, or the window
      closes. The machine as written breaks this (`LateCloseExample`). */
  lemma RegisteredUntilStoppedOrExited(s: State, e: Event, name: string)
    requires Inv(s)
    requires name in View(s.procs)
    requires e != StopScript(name) && !e.WindowAllClosed?
    requires !(e.ChildClose? && e.pid == View(s.procs)[name])
    ensures name in View(StepFixed(s, e).state.procs)
    ensures View(StepFixed(s, e).state.procs)[name] == View(s.procs)[name]
  {
  }

  /** With the identity check, the late `close` of a stopped child leaves the
      newer run of the same script registered, under its own process. */
  lemma LateCloseKeepsNewerRun(s: State, path: string, name: string, code: ExitCode)
    requires Inv(s)
    requires name in View(s.procs)
    ensures var first := View(s.procs)[name];
      var s2 := Stop(s, name).state;
      var o3 := Run(s2, path, name);
      var s4 := CloseFixed(o3.state, first, code).state;
      && name in View(s4.procs)
      && View(s4.procs)[name] == s.nextPid
      && s4.children[s.nextPid] == Script(name)
  {
  }

  /** The concrete run: after `dev` runs, stops and runs again, child 0's late
      `close` leaves child 1 listed, a third run is refused, and shutdown signals child 1. */
  lemma LateCloseExampleFixed()
    ensures var s1 := Run(Init, "/p", "dev").state;
      var s2 := Stop(s1, "dev").state;
      var s3 := Run(s2, "/p", "dev").state;
      var s4 := CloseFixed(s3, 0, Null).state;
      && Running(s4).reply == Names(["dev"])
      && Run(s4, "/p", "dev").reply == Error(AlreadyRunning("dev"))
      && Shutdown(s4).effects == [Kill(1, SIGTERM)]
  {
  }

}
