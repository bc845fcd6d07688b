/**
 The command builder `runNpmCommand` of main.js: `npm` with its arguments joined
 by single spaces, handed as one string to a login `zsh` (`/bin/zsh -lc …`) in
 the project directory, with `FORCE_COLOR=1` added to the inherited environment.
 `Split` is JavaScript's `split` at one character. For a line whose words are
 non-empty and hold no quotes or other metacharacters, its pieces are the
 words the shell passes to npm; it keeps empty pieces, which the shell drops.
 */
module Command {

  const Shell := "/bin/zsh"
  const ShellFlag := "-lc"

  /** A spawn request: program, argument vector, working directory, and the
      variables laid over the inherited environment. */
  datatype Command = Command(program: string, args: seq<string>, cwd: string, env: seq<(string, string)>)

  /** JavaScript `parts.join(sep)`. */
  function Join(parts: seq<string>, sep: string): string
  {
    if |parts| == 0 then ""
    else if |parts| == 1 then parts[0]
    else parts[0] + sep + Join(parts[1..], sep)
  }

  /** The words of `s` between occurrences of `c` (JavaScript `s.split(c)`). */
  function Split(s: string, c: char): (r: seq<string>)
    ensures |r| >= 1
  {
    if s == [] then [""]
    else if s[0] == c then [""] + Split(s[1..], c)
    else
      var rest := Split(s[1..], c);
      [[s[0]] + rest[0]] + rest[1..]
  }

  /** `runNpmCommand(args, cwd)`: a login `zsh` runs one command line whose
      words, when the arguments are plain non-empty words, are `npm` and the arguments. */
  function NpmCommand(args: seq<string>, cwd: string): (c: Command)
    ensures c.program == Shell && c.cwd == cwd && c.env == [("FORCE_COLOR", "1")]
    ensures |c.args| == 2 && c.args[0] == ShellFlag
    ensures |args| >= 1 && (forall i :: 0 <= i < |args| ==> args[i] != "" && ' ' !in args[i]) ==>
      Split(c.args[1], ' ') == ["npm"] + args
  {
    PlainWords(args);
    var line := "npm " + Join(args, " ");
    Command(Shell, [ShellFlag, line], cwd, [("FORCE_COLOR", "1")])
  }

  /** Plain non-empty words joined after `npm ` split back into `npm` and those words. */
  lemma {:induction false} PlainWords(args: seq<string>)
    ensures |args| >= 1 && (forall i :: 0 <= i < |args| ==> args[i] != "" && ' ' !in args[i]) ==>
      Split("npm " + Join(args, " "), ' ') == ["npm"] + args
  {
    if |args| >= 1 && (forall i :: 0 <= i < |args| ==> args[i] != "" && ' ' !in args[i]) {
      var words := ["npm"] + args;
      assert words[1..] == args;
      assert Join(words, " ") == "npm" + " " + Join(args, " ");
      assert "npm" + " " + Join(args, " ") == "npm " + Join(args, " ");
      assert ' ' !in "npm";
      forall i | 0 <= i < |words| ensures ' ' !in words[i] {
        if i > 0 { assert words[i] == args[i - 1]; }
      }
      SplitJoin(words, ' ');
    }
  }

  /** The command `run-script` spawns for `name`. */
  function RunCommand(name: string, cwd: string): (c: Command)
    ensures c.program == Shell && c.cwd == cwd
    ensures c.args == [ShellFlag, "npm run " + name]
    ensures c.env == [("FORCE_COLOR", "1")]
  {
    assert ["run", name][1..] == [name];
    assert Join(["run", name], " ") == "run" + " " + name;
    assert "npm " + ("run" + " " + name) == "npm run " + name;
    NpmCommand(["run", name], cwd)
  }

  /** The command `install-deps` spawns. */
  function InstallCommand(cwd: string): (c: Command)
    ensures c.program == Shell && c.cwd == cwd
    ensures c.args == [ShellFlag, "npm install"]
    ensures c.env == [("FORCE_COLOR", "1")]
  {
    assert "npm " + Join(["install"], " ") == "npm install";
    NpmCommand(["install"], cwd)
  }

  /** A word without `c` in front of the rest joins the first word of the rest. */
  lemma {:induction false} SplitPrefix(a: string, rest: string, c: char)
    requires c !in a
    ensures Split(a + rest, c) == [a + Split(rest, c)[0]] + Split(rest, c)[1..]
  {
    if a != [] {
      assert (a + rest)[1..] == a[1..] + rest;
      assert (a + rest)[0] == a[0];
      SplitPrefix(a[1..], rest, c);
      assert [a[0]] + (a[1..] + Split(rest, c)[0]) == a + Split(rest, c)[0];
    } else {
      var r := Split(rest, c);
      assert a + rest == rest;
      assert a + r[0] == r[0];
      assert r == [r[0]] + r[1..];
    }
  }

  /** Splitting undoes joining, as long as no part holds the separator. */
  lemma {:induction false} SplitJoin(parts: seq<string>, c: char)
    requires |parts| >= 1
    requires forall i :: 0 <= i < |parts| ==> c !in parts[i]
    ensures Split(Join(parts, [c]), c) == parts
  {
    if |parts| == 1 {
      SplitPrefix(parts[0], "", c);
      assert parts[0] + "" == parts[0];
      assert parts[0] + Split("", c)[0] == parts[0];
    } else {
      var tail := Join(parts[1..], [c]);
      assert Join(parts, [c]) == parts[0] + ([c] + tail);
      SplitPrefix(parts[0], [c] + tail, c);
      assert ([c] + tail)[1..] == tail;
      SplitJoin(parts[1..], c);
      assert Split([c] + tail, c) == [""] + parts[1..];
      assert parts[0] + "" == parts[0];
      assert parts == [parts[0]] + parts[1..];
    }
  }

  /** A non-empty script name without spaces reaches npm as the single word after `npm run`. */
  lemma RunCommandWords(name: string, cwd: string)
    requires name != "" && ' ' !in name
    ensures Split(RunCommand(name, cwd).args[1], ' ') == ["npm", "run", name]
  {
    var parts := ["npm", "run", name];
    assert parts[1..] == ["run", name] && parts[1..][1..] == [name];
    assert Join(parts[1..], " ") == "run" + " " + name;
    assert Join(parts, " ") == "npm" + " " + ("run" + " " + name);
    assert "npm" + " " + ("run" + " " + name) == "npm run " + name;
    SplitJoin(["npm", "run", name], ' ');
  }

  /** The command line is not quoted: a script named `dev server` reaches npm as
      `npm run dev` followed by the extra word `server`. */
  lemma SpacedNameSplits()
    ensures Split(RunCommand("dev server", "/p").args[1], ' ') == ["npm", "run", "dev", "server"]
  {
    var parts := ["npm", "run", "dev", "server"];
    assert parts[1..] == ["run", "dev", "server"];
    assert parts[1..][1..] == ["dev", "server"];
    assert parts[1..][1..][1..] == ["server"];
    assert "npm run " + "dev server" == Join(parts, " ");
    SplitJoin(["npm", "run", "dev", "server"], ' ');
  }

}
