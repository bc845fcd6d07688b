/**
 The script-process supervisor of main.js as a state machine with one step per
 event: the IPC requests `run-script`, `stop-script`, `get-running-scripts` and
 `install-deps`, the `data` and `close` events of a spawned child, and the
 application's `window-all-closed` event.

 Each step returns the new state, the reply to the request (if the event is one)
 and the effects it performs, in order: spawning a child, signalling a child,
 and sending a message to the window. `safeSend` drops a message when the window
 is gone, so a `Send` effect appears only while the window is alive.

 JavaScript runs each handler to completion on one event loop, and none of these
 handlers awaits between reading and writing the table, so a sequential step
 function is faithful. The listeners a handler attaches to a child are kept in
 `children`: for each child that has not yet closed, the script name its
 listeners captured (or `Installer` for the child of `install-deps`).
 */
module Supervisor {
  import opened Opt
  import opened Registry
  import opened Command

  datatype Signal = SIGTERM

  datatype Stream = Stdout | Stderr

  /** The `code` of a `close` event: a number, or `null` when a signal ended the child. */
  datatype ExitCode = Code(n: int) | Null

  /** The payloads of `script-output` and `script-exit`. */
  datatype Message =
    | Output(script: string, kind: Stream, data: string)
    | Exit(script: string, code: ExitCode)

  const OutputChannel := "script-output"
  const ExitChannel := "script-exit"

  /** The tag `install-deps` puts on its output. */
  const InstallTag := "install"

  datatype Effect =
    | Spawn(pid: Pid, command: Command)
    | Kill(pid: Pid, signal: Signal)
    | Send(channel: string, message: Message)

  /** What a request resolves to; `Pending` is an `install-deps` promise that
      resolves when its child closes, and `NoReply` marks events that are not requests. */
  datatype Reply =
    | Success(success: bool)
    | Error(error: string)
    | Names(names: seq<string>)
    | Pending
    | NoReply

  /** Whose listeners are attached to a child. */
  datatype Owner = Script(name: string) | Installer

  datatype State = State(procs: Table, children: map<Pid, Owner>, nextPid: Pid, windowAlive: bool)

  datatype Outcome = Outcome(state: State, reply: Reply, effects: seq<Effect>)

  datatype Event =
    | RunScript(projectPath: string, scriptName: string)
    | StopScript(scriptName: string)
    | GetRunningScripts
    | InstallDeps(projectPath: string)
    | ChildData(pid: Pid, stream: Stream, data: string)
    | ChildClose(pid: Pid, code: ExitCode)
    | WindowAllClosed

  /** The state when the window has just been created: nothing is running. */
  const Init := State([], map[], 0, true)

  /** What every reachable state satisfies: the table is a `Map` (each name once),
      every registered process is a live child whose listeners carry that name,
      and fresh pids are above every pid handed out. */
  ghost predicate Inv(s: State)
  {
    && Distinct(s.procs)
    && (forall n :: n in View(s.procs) ==>
          View(s.procs)[n] in s.children && s.children[View(s.procs)[n]] == Script(n))
    && (forall p :: p in s.children ==> p < s.nextPid)
  }

  function AlreadyRunning(name: string): string
  {
    "Script '" + name + "' is already running"
  }

  const NotRunning := "Script not running"

  /** `safeSend(channel, message)`: the message goes out, once, exactly when the window is alive. */
  function SafeSend(s: State, channel: string, m: Message): (es: seq<Effect>)
    ensures es != [] <==> s.windowAlive
    ensures |es| <= 1
    ensures forall i :: 0 <= i < |es| ==> es[i] == Send(channel, m)
  {
    if s.windowAlive then [Send(channel, m)] else []
  }

  /** How many effects of `es` spawn a child. */
  function Spawns(es: seq<Effect>): nat
  {
    if es == [] then 0 else (if es[0].Spawn? then 1 else 0) + Spawns(es[1..])
  }

  /** How many effects of `es` signal a child. */
  function Kills(es: seq<Effect>): nat
  {
    if es == [] then 0 else (if es[0].Kill? then 1 else 0) + Kills(es[1..])
  }

  /** The `run-script` handler. */
  function Run(s: State, projectPath: string, name: string): (o: Outcome)
    requires Inv(s)
    ensures Inv(o.state)
    ensures name in View(s.procs) ==>
      o == Outcome(s, Error(AlreadyRunning(name)), [])
    ensures name !in View(s.procs) ==>
      && o.reply == Success(true)
      && o.effects == [Spawn(s.nextPid, RunCommand(name, projectPath))]
      && s.nextPid !in s.children
      && View(o.state.procs) == View(s.procs)[name := s.nextPid]
      && Keys(o.state.procs) == Keys(s.procs) + [name]
      && o.state.children == s.children[s.nextPid := Script(name)]
      && o.state.windowAlive == s.windowAlive
  {
    if Has(s.procs, name) then
      Outcome(s, Error(AlreadyRunning(name)), [])
    else
      var pid := s.nextPid;
      var s' := State(Set(s.procs, name, pid), s.children[pid := Script(name)], pid + 1, s.windowAlive);
      assert Keys(s'.procs) == Keys(s.procs) + [name];
      Outcome(s', Success(true), [Spawn(pid, RunCommand(name, projectPath))])
  }

  /** The `stop-script` handler. */
  function Stop(s: State, name: string): (o: Outcome)
    requires Inv(s)
    ensures Inv(o.state)
    ensures name in View(s.procs) ==>
      && o.reply == Success(true)
      && o.effects == [Kill(View(s.procs)[name], SIGTERM)]
      && View(o.state.procs) == View(s.procs) - {name}
      && Keys(o.state.procs) == Omit(Keys(s.procs), Position(s.procs, name))
      && o.state.children == s.children
      && o.state.windowAlive == s.windowAlive
    ensures name !in View(s.procs) ==>
      o == Outcome(s, Error(NotRunning), [])
  {
    match Get(s.procs, name)
    case Some(pid) =>
      DeletedKeys(s.procs, name);
      Outcome(s.(procs := Delete(s.procs, name)), Success(true), [Kill(pid, SIGTERM)])
    case None =>
      Outcome(s, Error(NotRunning), [])
  }

  /** The `get-running-scripts` handler. */
  function Running(s: State): (o: Outcome)
    requires Inv(s)
    ensures o.state == s && o.effects == [] && o.reply.Names?
    ensures forall n :: n in o.reply.names <==> n in View(s.procs)
    ensures forall i, j :: 0 <= i < j < |o.reply.names| ==> o.reply.names[i] != o.reply.names[j]
  {
    KeysDistinct(s.procs);
    Outcome(s, Names(Keys(s.procs)), [])
  }

  /** The `install-deps` handler: it spawns `npm install` and never touches the table. */
  function Install(s: State, projectPath: string): (o: Outcome)
    requires Inv(s)
    ensures Inv(o.state)
    ensures o.reply == Pending
    ensures o.effects == [Spawn(s.nextPid, InstallCommand(projectPath))]
    ensures s.nextPid !in s.children
    ensures o.state.procs == s.procs
    ensures o.state.children == s.children[s.nextPid := Installer]
    ensures o.state.nextPid == s.nextPid + 1
    ensures o.state.windowAlive == s.windowAlive
  {
    var pid := s.nextPid;
    Outcome(s.(children := s.children[pid := Installer], nextPid := pid + 1), Pending,
            [Spawn(pid, InstallCommand(projectPath))])
  }

  /** The name a child's output is tagged with. */
  function Tag(owner: Owner): string
  {
    match owner
    case Script(name) => name
    case Installer => InstallTag
  }

  /** A `data` chunk on a child's stdout or stderr. */
  function Data(s: State, pid: Pid, stream: Stream, chunk: string): (o: Outcome)
    ensures o.state == s && o.reply == NoReply
    ensures pid in s.children && s.windowAlive ==>
      o.effects == [Send(OutputChannel, Output(Tag(s.children[pid]), stream, chunk))]
    ensures pid !in s.children || !s.windowAlive ==> o.effects == []
  {
    if pid in s.children then
      Outcome(s, NoReply, SafeSend(s, OutputChannel, Output(Tag(s.children[pid]), stream, chunk)))
    else
      Outcome(s, NoReply, [])
  }

  /** A child's `close` event, as written: a script's listener deletes the
      table entry under the name it captured, whichever process that entry now
      holds; the install listener resolves the `install-deps` promise. A child
      closes once, so its listeners are dropped. */
  function Close(s: State, pid: Pid, code: ExitCode): (o: Outcome)
    requires Inv(s)
    ensures Inv(o.state)
    ensures pid !in s.children ==> o == Outcome(s, NoReply, [])
    ensures pid in s.children ==>
      && o.state.children == s.children - {pid}
      && o.state.windowAlive == s.windowAlive
      && Kills(o.effects) == 0 && Spawns(o.effects) == 0
    ensures pid in s.children && s.children[pid].Script? ==>
      var name := s.children[pid].name;
      && o.reply == NoReply
      && View(o.state.procs) == View(s.procs) - {name}
      && (name in View(s.procs) ==> Keys(o.state.procs) == Omit(Keys(s.procs), Position(s.procs, name)))
      && (name !in View(s.procs) ==> o.state.procs == s.procs)
      && o.effects == (if s.windowAlive then [Send(ExitChannel, Exit(name, code))] else [])
    ensures pid in s.children && s.children[pid].Installer? ==>
      && o.reply == Success(code == Code(0))
      && o.state.procs == s.procs
      && o.effects == []
  {
    if pid !in s.children then Outcome(s, NoReply, [])
    else
      match s.children[pid]
      case Script(name) =>
        DeletedKeys(s.procs, name);
        Outcome(s.(procs := Delete(s.procs, name), children := s.children - {pid}), NoReply,
                SafeSend(s, ExitChannel, Exit(name, code)))
      case Installer =>
        Outcome(s.(children := s.children - {pid}), Success(code == Code(0)), [])
  }

  /** `proc.kill('SIGTERM')` for every entry, in the table's order. */
  function KillAll(t: Table): (es: seq<Effect>)
    ensures |es| == |t| == Kills(es) && Spawns(es) == 0
    ensures forall n :: n in View(t) ==> Kill(View(t)[n], SIGTERM) in es
    ensures forall i :: 0 <= i < |es| ==> es[i] == Kill(t[i].pid, SIGTERM)
  {
    if t == [] then []
    else
      var rest := KillAll(t[1..]);
      var es := [Kill(t[0].pid, SIGTERM)] + rest;
      assert es[1..] == rest;
      es
  }

  /** Signalling a table without one entry omits just that entry's signal. */
  lemma KillAllOmit(t: Table, i: nat)
    requires i < |t|
    ensures KillAll(Omit(t, i)) == Omit(KillAll(t), i)
  {
    var r := Omit(t, i);
    var ks := KillAll(t);
    var rs := KillAll(r);
    var os := ks[..i] + ks[i + 1..];
    forall k | 0 <= k < |rs| ensures rs[k] == os[k] {
      if k < i {
        assert r[k] == t[k];
        assert os[k] == ks[k];
      } else {
        assert r[k] == t[k + 1];
        assert os[k] == ks[k + 1];
      }
    }
    assert rs == os;
  }

  /** In a `Map`, every entry's process is the one its name maps to. */
  lemma {:induction false} EntriesInView(t: Table)
    requires Distinct(t)
    ensures forall i :: 0 <= i < |t| ==> t[i].name in View(t) && View(t)[t[i].name] == t[i].pid
  {
    if t != [] {
      EntriesInView(t[1..]);
      forall i | 1 <= i < |t|
        ensures t[i].name in View(t) && View(t)[t[i].name] == t[i].pid
      {
        assert t[i] == t[1..][i - 1];
      }
    }
  }

  /** The `window-all-closed` handler: every registered child is sent SIGTERM
      and the table is cleared; the window is gone, so later messages are dropped. */
  function Shutdown(s: State): (o: Outcome)
    requires Inv(s)
    ensures Inv(o.state)
    ensures o.reply == NoReply
    ensures o.state.procs == [] && !o.state.windowAlive
    ensures o.state.children == s.children
    ensures |o.effects| == |View(s.procs)| == Kills(o.effects) && Spawns(o.effects) == 0
    ensures forall n :: n in View(s.procs) ==> Kill(View(s.procs)[n], SIGTERM) in o.effects
    ensures forall e :: e in o.effects ==> e.Kill? && e.signal == SIGTERM && e.pid in View(s.procs).Values
  {
    DistinctSize(s.procs);
    EntriesInView(s.procs);
    Outcome(s.(procs := [], windowAlive := false), NoReply, KillAll(s.procs))
  }

  /** A table whose names are distinct has one entry per name. */
  lemma {:induction false} DistinctSize(t: Table)
    requires Distinct(t)
    ensures |View(t)| == |t|
  {
    if t != [] {
      DistinctSize(t[1..]);
    }
  }

  /** One step of the supervisor. */
  function Step(s: State, e: Event): (o: Outcome)
    requires Inv(s)
    ensures Inv(o.state)
  {
    match e
    case RunScript(path, name) => Run(s, path, name)
    case StopScript(name) => Stop(s, name)
    case GetRunningScripts => Running(s)
    case InstallDeps(path) => Install(s, path)
    case ChildData(pid, stream, chunk) => Data(s, pid, stream, chunk)
    case ChildClose(pid, code) => Close(s, pid, code)
    case WindowAllClosed => Shutdown(s)
  }

  /** The state after a sequence of events. */
  function After(s: State, es: seq<Event>): (r: State)
    requires Inv(s)
    ensures Inv(r)
    decreases |es|
  {
    if es == [] then s else After(Step(s, es[0]).state, es[1..])
  }

}
