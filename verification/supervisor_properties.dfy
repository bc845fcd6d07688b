/**
 Properties of the supervisor that relate several steps: duplicate runs, stop
 followed by run, a child's exit, shutdown, concurrent installs, the late
 `close` of a stopped child, and facts about whole event sequences.
 */
module SupervisorProperties {
  import opened Registry
  import opened Command
  import opened Supervisor

  /** Two `run-script` requests for a name that is not running: the first
      spawns and succeeds, the second is refused, and exactly one child is spawned. */
  lemma DuplicateRunRejected(s: State, path1: string, path2: string, name: string)
    requires Inv(s)
    requires name !in View(s.procs)
    ensures Run(s, path1, name).reply == Success(true)
    ensures Run(Run(s, path1, name).state, path2, name).reply == Error(AlreadyRunning(name))
    ensures Run(Run(s, path1, name).state, path2, name).state == Run(s, path1, name).state
    ensures Spawns(Run(s, path1, name).effects + Run(Run(s, path1, name).state, path2, name).effects) == 1
  {
  }

  /** A stop frees the name at once: a `run-script` right after it succeeds. */
  lemma StopThenRun(s: State, path: string, name: string)
    requires Inv(s)
    requires name in View(s.procs)
    ensures Stop(s, name).reply == Success(true)
    ensures Run(Stop(s, name).state, path, name).reply == Success(true)
    ensures Spawns(Run(Stop(s, name).state, path, name).effects) == 1
  {
  }

  /** Stopping a name that is not registered signals nothing and changes nothing. */
  lemma StopUnregistered(s: State, name: string)
    requires Inv(s)
    requires name !in View(s.procs)
    ensures Stop(s, name) == Outcome(s, Error("Script not running"), [])
    ensures Kills(Stop(s, name).effects) == 0
  {
  }

  /** When a registered child exits, its name leaves the running list, exactly
      one `script-exit` is sent (window alive), and a second `close` of it does nothing. */
  lemma ExitOfRegistered(s: State, name: string, code: ExitCode)
    requires Inv(s)
    requires name in View(s.procs)
    ensures var o := Close(s, View(s.procs)[name], code);
      && name !in Running(o.state).reply.names
      && (s.windowAlive ==> o.effects == [Send("script-exit", Exit(name, code))])
      && Close(o.state, View(s.procs)[name], code) == Outcome(o.state, NoReply, [])
  {
  }

  /** After `window-all-closed` every registered child has been sent SIGTERM and
      `get-running-scripts` answers with the empty list. */
  lemma ShutdownThenList(s: State)
    requires Inv(s)
    ensures forall n :: n in View(s.procs) ==> Kill(View(s.procs)[n], SIGTERM) in Shutdown(s).effects
    ensures Kills(Shutdown(s).effects) == |View(s.procs)|
    ensures Running(Shutdown(s).state).reply == Names([])
  {
  }

  /** Two `install-deps` requests back to back both spawn `npm install`, as two
      different children, and leave the table as it was. */
  lemma InstallsRunConcurrently(s: State, path1: string, path2: string)
    requires Inv(s)
    ensures var o1 := Install(s, path1);
      var o2 := Install(o1.state, path2);
      && o1.effects == [Spawn(s.nextPid, InstallCommand(path1))]
      && o2.effects == [Spawn(s.nextPid + 1, InstallCommand(path2))]
      && o2.state.procs == s.procs
      && o2.state.children[s.nextPid] == Installer && o2.state.children[s.nextPid + 1] == Installer
  {
    var o1 := Install(s, path1);
    assert o1.state.nextPid == s.nextPid + 1;
  }

  /** The `close` listener deletes by name, not by process: after a stop, a new
      run under the same name is unregistered by the stopped child's late `close`,
      although the new child is still alive. */
  lemma LateCloseUnregistersNewerRun(s: State, path: string, name: string, code: ExitCode)
    requires Inv(s)
    requires name in View(s.procs)
    ensures var first := View(s.procs)[name];
      var s2 := Stop(s, name).state;
      var o3 := Run(s2, path, name);
      var s4 := Close(o3.state, first, code).state;
      && o3.reply == Success(true)
      && o3.effects == [Spawn(s.nextPid, RunCommand(name, path))]
      && name !in View(s4.procs)
      && s4.children[s.nextPid] == Script(name)
  {
  }

  /** The concrete run of the above: `dev` runs as child 0, is stopped, runs again
      as child 1, and child 0's `close` leaves child 1 running but unlisted, so a
      third `run-script` starts a second live `dev` and shutdown never signals child 1. */
  lemma LateCloseExample()
    ensures var s1 := Run(Init, "/p", "dev").state;
      var s2 := Stop(s1, "dev").state;
      var s3 := Run(s2, "/p", "dev").state;
      var s4 := Close(s3, 0, Null).state;
      var o5 := Run(s4, "/p", "dev");
      && s4.children == map[1 := Script("dev")]
      && Running(s4).reply == Names([])
      && o5.reply == Success(true)
      && o5.state.children == map[1 := Script("dev"), 2 := Script("dev")]
      && Shutdown(o5.state).effects == [Kill(2, SIGTERM)]
  {
    var s1 := Run(Init, "/p", "dev").state;
    assert s1.procs == [Entry("dev", 0)];
    var s2 := Stop(s1, "dev").state;
    assert s2.procs == [];
    var s3 := Run(s2, "/p", "dev").state;
    assert s3.procs == [Entry("dev", 1)];
    var s4 := Close(s3, 0, Null).state;
    assert s4.procs == [];
  }

  /** The scenario of a build script: it runs, a second request is refused, it
      exits with code 0, the exit is reported and nothing is listed as running. */
  lemma BuildScenario()
    ensures var o1 := Run(Init, "/p", "build");
      var o2 := Run(o1.state, "/p", "build");
      var o3 := Close(o2.state, 0, Code(0));
      && o1.reply == Success(true)
      && o1.effects == [Spawn(0, Command("/bin/zsh", ["-lc", "npm run build"], "/p", [("FORCE_COLOR", "1")]))]
      && o2.reply == Error("Script 'build' is already running")
      && o3.effects == [Send("script-exit", Exit("build", Code(0)))]
      && Running(o3.state).reply == Names([])
  {
    BuildStarts();
    BuildRefused();
    BuildMessage();
    BuildExits();
  }

  /** The state while `build` runs as child 0. */
  const BuildRunning := State([Entry("build", 0)], map[0 := Script("build")], 1, true)

  lemma BuildStarts()
    ensures Run(Init, "/p", "build") ==
      Outcome(BuildRunning, Success(true),
              [Spawn(0, Command("/bin/zsh", ["-lc", "npm run build"], "/p", [("FORCE_COLOR", "1")]))])
  {
    assert "npm run " + "build" == "npm run build";
  }

  lemma BuildRefused()
    ensures Inv(BuildRunning)
    ensures Run(BuildRunning, "/p", "build") == Outcome(BuildRunning, Error(AlreadyRunning("build")), [])
  {
    BuildStarts();
  }

  lemma BuildMessage()
    ensures AlreadyRunning("build") == "Script 'build' is already running"
  {
  }

  lemma BuildExits()
    ensures Inv(BuildRunning)
    ensures Close(BuildRunning, 0, Code(0)) ==
      Outcome(State([], map[], 1, true), NoReply, [Send("script-exit", Exit("build", Code(0)))])
    ensures Running(State([], map[], 1, true)).reply == Names([])
  {
    BuildStarts();
    assert Delete(BuildRunning.procs, "build") == [];
  }

  /** Whether a sequence of events holds a `run-script` request. */
  predicate HasRun(es: seq<Event>)
  {
    exists i :: 0 <= i < |es| && es[i].RunScript?
  }

  /** Only `run-script` registers names: along any sequence of events without
      one, the set of running names can only shrink. */
  lemma {:induction false} OnlyRunRegisters(s: State, es: seq<Event>)
    requires Inv(s)
    requires !HasRun(es)
    ensures View(After(s, es).procs).Keys <= View(s.procs).Keys
    decreases |es|
  {
    if es != [] {
      var s' := Step(s, es[0]).state;
      assert !es[0].RunScript?;
      assert View(s'.procs).Keys <= View(s.procs).Keys;
      assert !HasRun(es[1..]) by {
        forall i | 0 <= i < |es[1..]| ensures !es[1..][i].RunScript? {
          assert es[1..][i] == es[i + 1];
        }
      }
      OnlyRunRegisters(s', es[1..]);
    }
  }

  /** `map.delete` keeps the other names in insertion order: a stop removes
      exactly the stopped name's position from what `get-running-scripts`
      lists and from the order in which shutdown signals the processes. */
  lemma StopKeepsOrder(s: State, name: string)
    requires Inv(s)
    requires name in View(s.procs)
    ensures var i := Position(s.procs, name);
      var s' := Stop(s, name).state;
      && Running(s').reply.names == Omit(Running(s).reply.names, i)
      && Shutdown(s').effects == Omit(Shutdown(s).effects, i)
  {
    var i := Position(s.procs, name);
    assert Stop(s, name).state.procs == Omit(s.procs, i);
    KillAllOmit(s.procs, i);
  }

  /** The outcomes of the steps along a sequence of events. */
  function Outcomes(s: State, es: seq<Event>): (os: seq<Outcome>)
    requires Inv(s)
    ensures |os| == |es|
    decreases |es|
  {
    if es == [] then []
    else
      var o := Step(s, es[0]);
      [o] + Outcomes(o.state, es[1..])
  }

  predicate NoSends(effects: seq<Effect>)
  {
    forall i :: 0 <= i < |effects| ==> !effects[i].Send?
  }

  /** With the window gone, one step sends nothing and leaves it gone. */
  lemma SilentStep(s: State, e: Event)
    requires Inv(s)
    requires !s.windowAlive
    ensures !Step(s, e).state.windowAlive
    ensures NoSends(Step(s, e).effects)
  {
    match e
    case ChildClose(pid, code) =>
      if pid in s.children && s.children[pid].Script? {
        assert Close(s, pid, code).effects == [];
      }
    case _ =>
  }

  /** Once the window is gone nothing is sent to it again, whatever happens next.
      This holds because `activate`, which on macOS opens a new window that later
      messages would reach, is not part of this model. */
  lemma {:induction false} SilentAfterShutdown(s: State, es: seq<Event>)
    requires Inv(s)
    requires !s.windowAlive
    ensures !After(s, es).windowAlive
    ensures forall i :: 0 <= i < |es| ==> NoSends(Outcomes(s, es)[i].effects)
    decreases |es|
  {
    if es != [] {
      var o := Step(s, es[0]);
      SilentStep(s, es[0]);
      SilentAfterShutdown(o.state, es[1..]);
      assert After(s, es) == After(o.state, es[1..]);
      OutcomesUnfold(s, es);
    }
  }

  /** The outcomes along a non-empty sequence: the first step's, then the rest's. */
  lemma OutcomesUnfold(s: State, es: seq<Event>)
    requires Inv(s)
    requires es != []
    ensures Outcomes(s, es) == [Step(s, es[0])] + Outcomes(Step(s, es[0]).state, es[1..])
  {
  }


}
