/**
 * The browser-test runner: reading `KEY=VALUE` lines from the env file,
 * putting the library directory first on PYTHONPATH, checking the
 * `--server`/`--port` lists and building the command that starts the
 * servers around the test.
 */
module RunTest {
  import opened Wrappers
  import opened Text

  /** No whitespace at either end: what `strip` leaves. */
  predicate Unpadded(s: string) {
    s == [] || (!IsPySpace(s[0]) && !IsPySpace(s[|s| - 1]))
  }

  /** One env-file line: stripped, skipped when blank, a comment or without `=`, else split at its first `=`. */
  function ParseEnvLine(line: string): (r: Option<(string, string)>)
    ensures r.Some? <==> (var l := StripPy(line); l != [] && l[0] != '#' && '=' in l)
    ensures r.Some? ==> Unpadded(r.value.0) && Unpadded(r.value.1)
  {
    var l := StripPy(line);
    if l != [] && l[0] != '#' && '=' in l then
      var i := IndexOf(l, '=');
      StripIsUnpadded(l[..i]);
      StripIsUnpadded(l[i + 1..]);
      Some((StripPy(l[..i]), StripPy(l[i + 1..])))
    else None
  }

  /** The variables after one more parsed line. */
  function Apply(env: map<string, string>, p: Option<(string, string)>): map<string, string> {
    match p
    case None => env
    case Some(kv) => env[kv.0 := kv.1]
  }

  /** The variables of a sequence of parsed lines, a later pair overriding an earlier one. */
  function FoldEnv(ps: seq<Option<(string, string)>>): map<string, string> {
    if ps == [] then map[] else Apply(FoldEnv(ps[..|ps| - 1]), ps[|ps| - 1])
  }

  /** Every line parsed. */
  function Parsed(lines: seq<string>): (ps: seq<Option<(string, string)>>)
    ensures |ps| == |lines|
  {
    seq(|lines|, i requires 0 <= i < |lines| => ParseEnvLine(lines[i]))
  }

  /** The variables an env file defines. */
  function EnvOf(lines: seq<string>): map<string, string> {
    FoldEnv(Parsed(lines))
  }

  /** Parsed line `i` defines `key`. */
  predicate DefinesAt(ps: seq<Option<(string, string)>>, i: int, key: string) {
    0 <= i < |ps| && ps[i].Some? && ps[i].value.0 == key
  }

  lemma FoldPrefix(ps: seq<Option<(string, string)>>, n: nat)
    requires n < |ps|
    ensures FoldEnv(ps[..n + 1]) == Apply(FoldEnv(ps[..n]), ps[n])
  {
    assert ps[..n + 1][..n] == ps[..n];
  }

  /**
   * `load_env_file`, given the file's lines, or None when the file does not
   * exist: fills the map one line at a time.
   */
  method LoadEnvFile(file: Option<seq<string>>) returns (env: map<string, string>)
    ensures file.None? ==> env == map[]
    ensures file.Some? ==> env == EnvOf(file.value)
  {
    env := map[];
    if file.None? {
      return;
    }
    var lines := file.value;
    ghost var ps := Parsed(lines);
    var n := 0;
    while n < |lines|
      invariant 0 <= n <= |lines|
      invariant env == FoldEnv(ps[..n])
    {
      FoldPrefix(ps, n);
      var parsed := ParseEnvLine(lines[n]);
      assert parsed == ps[n];
      if parsed.Some? {
        env := env[parsed.value.0 := parsed.value.1];
      }
      n := n + 1;
    }
    assert ps[..n] == ps;
  }

  /** A key is defined exactly when some parsed line defines it. */
  lemma {:induction false} FoldKeys(ps: seq<Option<(string, string)>>, key: string)
    ensures key in FoldEnv(ps) <==> exists i :: DefinesAt(ps, i, key)
  {
    if ps != [] {
      var n := |ps| - 1;
      var front := ps[..n];
      FoldKeys(front, key);
      FoldPrefix(ps, n);
      assert ps[..n + 1] == ps;
      assert forall i :: 0 <= i < n ==> (DefinesAt(front, i, key) <==> DefinesAt(ps, i, key));
      assert key in FoldEnv(ps) <==> key in FoldEnv(front) || DefinesAt(ps, n, key);
      if key in FoldEnv(front) {
        var i :| DefinesAt(front, i, key);
        assert DefinesAt(ps, i, key);
      }
      if exists i :: DefinesAt(ps, i, key) {
        var i :| DefinesAt(ps, i, key);
        assert i < n ==> DefinesAt(front, i, key);
      }
    }
  }

  /** The value of a key is the one of the last parsed line that defines it. */
  lemma {:induction false} FoldLastWins(ps: seq<Option<(string, string)>>, i: nat, key: string)
    requires DefinesAt(ps, i, key)
    requires forall j :: i < j < |ps| ==> !DefinesAt(ps, j, key)
    ensures key in FoldEnv(ps) && FoldEnv(ps)[key] == ps[i].value.1
  {
    var n := |ps| - 1;
    var front := ps[..n];
    FoldPrefix(ps, n);
    assert ps[..n + 1] == ps;
    if i < n {
      assert DefinesAt(front, i, key);
      assert forall j :: i < j < |front| ==> !DefinesAt(front, j, key) by {
        assert forall j :: i < j < |front| ==> DefinesAt(front, j, key) == DefinesAt(ps, j, key);
      }
      FoldLastWins(front, i, key);
      assert !DefinesAt(ps, n, key);
    }
  }

  /** A line written as `key=value` is read back as that pair, `=` signs in the value included. */
  lemma EnvLineRoundTrip(key: string, value: string)
    requires '=' !in key && (key == [] || key[0] != '#')
    requires Unpadded(key) && Unpadded(value)
    ensures var r := ParseEnvLine(key + "=" + value);
      r.Some? && r.value.0 == key && r.value.1 == value
  {
    var line := key + "=" + value;
    assert line[..|key|] == key && line[|key| + 1..] == value;
    assert line[0] != '#' by {
      assert line[0] == if key == [] then '=' else key[0];
    }
    assert StripPy(line) == line by {
      StrippedLine(key, value);
    }
    ParseSplitsAt(line, |key|);
    UnpaddedStrip(key);
    UnpaddedStrip(value);
  }

  /** A stripped line whose first `=` is at `i` splits there. */
  lemma ParseSplitsAt(line: string, i: nat)
    requires i < |line| && line[i] == '=' && '=' !in line[..i]
    requires StripPy(line) == line && line[0] != '#'
    ensures ParseEnvLine(line) == Some((StripPy(line[..i]), StripPy(line[i + 1..])))
  {
    var l := StripPy(line);
    assert l[i] == '=';
    IndexOfIs(l, '=', i);
  }

  /** Stripped text has no outer whitespace. */
  lemma StripIsUnpadded(s: string)
    ensures Unpadded(StripPy(s))
  {
    var r := StripPy(s);
    assert r == [] || (!IsPySpace(r[0]) && !IsPySpace(r[|r| - 1]));
  }

  lemma UnpaddedStrip(s: string)
    requires Unpadded(s)
    ensures StripPy(s) == s
  {
  }

  lemma StrippedLine(key: string, value: string)
    requires Unpadded(key) && Unpadded(value)
    ensures StripPy(key + "=" + value) == key + "=" + value
  {
    var line := key + "=" + value;
    assert !IsPySpace('=');
    assert line[0] == (if key != [] then key[0] else '=');
    assert line[|line| - 1] == (if value != [] then value[|value| - 1] else '=');
    UnpaddedStrip(line);
  }

  /** A skipped line (blank, a comment, or without `=`) leaves the variables as they were. */
  lemma SkippedLine(ps: seq<Option<(string, string)>>)
    ensures FoldEnv(ps + [None]) == FoldEnv(ps)
  {
    assert (ps + [None])[..|ps|] == ps;
  }

  /** `os.pathsep` on POSIX. */
  const PathSep := ':'

  /** PYTHONPATH for the test: the library directory, then the inherited value when it is not empty. */
  function PythonPath(libDir: string, inherited: Option<string>): (r: string)
    ensures libDir <= r
    ensures inherited.None? || inherited.value == [] ==> r == libDir
  {
    if inherited.Some? && inherited.value != [] then libDir + [PathSep] + inherited.value else libDir
  }

  lemma {:induction false} SplitAfterFirst(a: string, b: string, c: char)
    requires c !in a
    ensures SplitOn(a + [c] + b, c) == [a] + SplitOn(b, c)
  {
    if a == [] {
      assert [c] + b == a + [c] + b;
      assert ([c] + b)[1..] == b;
    } else {
      assert (a + [c] + b)[1..] == a[1..] + [c] + b;
      SplitAfterFirst(a[1..], b, c);
      assert a == [a[0]] + a[1..];
    }
  }

  /**
   * On the search path the library directory comes first, followed by the
   * inherited entries in their order.
   */
  lemma LibraryFirstOnPath(libDir: string, inherited: string)
    requires PathSep !in libDir && inherited != []
    ensures SplitOn(PythonPath(libDir, Some(inherited)), PathSep) == [libDir] + SplitOn(inherited, PathSep)
  {
    SplitAfterFirst(libDir, inherited, PathSep);
  }

  /** The environment of the child: the parent's, with PYTHONPATH replaced. */
  function ChildEnv(environ: map<string, string>, libDir: string): (env: map<string, string>)
    ensures "PYTHONPATH" in env && env["PYTHONPATH"] == PythonPath(libDir, if "PYTHONPATH" in environ then Some(environ["PYTHONPATH"]) else None)
    ensures env.Keys == environ.Keys + {"PYTHONPATH"}
    ensures forall k :: k in environ && k != "PYTHONPATH" ==> env[k] == environ[k]
  {
    environ["PYTHONPATH" := PythonPath(libDir, if "PYTHONPATH" in environ then Some(environ["PYTHONPATH"]) else None)]
  }

  /** `--server s --port p` for each pair of `zip(servers, ports)`. */
  function ServerArgs(servers: seq<string>, ports: seq<int>): (r: seq<string>)
    ensures |r| == 4 * (if |servers| < |ports| then |servers| else |ports|)
  {
    if servers == [] || ports == [] then []
    else ["--server", servers[0], "--port", IntToString(ports[0])] + ServerArgs(servers[1..], ports[1..])
  }

  /** The command that runs the test under the server launcher. */
  function CommandOf(script: string, timeout: int, servers: seq<string>, ports: seq<int>, test: string): seq<string> {
    ["python", script, "--timeout", IntToString(timeout)] + ServerArgs(servers, ports) + ["--", "python", test]
  }

  /** The command list of `main`, grown one `extend` at a time. */
  method BuildCommand(script: string, timeout: int, servers: seq<string>, ports: seq<int>, test: string)
    returns (cmd: seq<string>)
    requires |servers| == |ports|
    ensures cmd == CommandOf(script, timeout, servers, ports, test)
  {
    cmd := ["python", script];
    cmd := cmd + ["--timeout", IntToString(timeout)];
    var i := 0;
    while i < |servers|
      invariant 0 <= i <= |servers|
      invariant cmd + ServerArgs(servers[i..], ports[i..]) == ["python", script, "--timeout", IntToString(timeout)] + ServerArgs(servers, ports)
    {
      assert servers[i..][1..] == servers[i + 1..] && ports[i..][1..] == ports[i + 1..];
      cmd := cmd + ["--server", servers[i], "--port", IntToString(ports[i])];
      i := i + 1;
    }
    cmd := cmd + ["--", "python", test];
  }

  /**
   * The command has 7 + 4n entries: the launcher and its timeout, one
   * `--server s --port p` group per pair in order, then the test.
   */
  lemma {:induction false} CommandShape(script: string, timeout: int, servers: seq<string>, ports: seq<int>, test: string)
    requires |servers| == |ports|
    ensures var cmd := CommandOf(script, timeout, servers, ports, test);
      |cmd| == 7 + 4 * |servers|
      && cmd[..4] == ["python", script, "--timeout", IntToString(timeout)]
      && cmd[|cmd| - 3..] == ["--", "python", test]
      && forall i :: 0 <= i < |servers| ==>
           cmd[4 + 4 * i..8 + 4 * i] == ["--server", servers[i], "--port", IntToString(ports[i])]
  {
    var cmd := CommandOf(script, timeout, servers, ports, test);
    var head := ["python", script, "--timeout", IntToString(timeout)];
    var args := ServerArgs(servers, ports);
    assert cmd == head + args + ["--", "python", test];
    forall i | 0 <= i < |servers|
      ensures cmd[4 + 4 * i..8 + 4 * i] == ["--server", servers[i], "--port", IntToString(ports[i])]
    {
      ServerArgsGroup(servers, ports, i);
      assert cmd[4 + 4 * i..8 + 4 * i] == args[4 * i..4 * i + 4];
    }
  }

  lemma {:induction false} ServerArgsGroup(servers: seq<string>, ports: seq<int>, i: nat)
    requires |servers| == |ports| && i < |servers|
    ensures ServerArgs(servers, ports)[4 * i..4 * i + 4] == ["--server", servers[i], "--port", IntToString(ports[i])]
  {
    if i > 0 {
      ServerArgsGroup(servers[1..], ports[1..], i - 1);
      var rest := ServerArgs(servers[1..], ports[1..]);
      assert ServerArgs(servers, ports)[4 * i..4 * i + 4] == rest[4 * (i - 1)..4 * (i - 1) + 4];
    }
  }

  /** Every port in the command reads back, as `int` reads it, as the port given. */
  lemma PortsReadBack(script: string, timeout: int, servers: seq<string>, ports: seq<nat>, test: string, i: nat)
    requires |servers| == |ports| && i < |ports|
    ensures var cmd := CommandOf(script, timeout, servers, ports, test);
      7 + 4 * i < |cmd| && AllDigits(cmd[7 + 4 * i]) && DigitsValue(cmd[7 + 4 * i]) == ports[i]
  {
    CommandShape(script, timeout, servers, ports, test);
    var cmd := CommandOf(script, timeout, servers, ports, test);
    assert cmd[7 + 4 * i] == cmd[4 + 4 * i..8 + 4 * i][3] == NatToString(ports[i]);
    DigitsValueOfNatToString(ports[i]);
  }

  /** The parsed command line. */
  datatype RunArgs = RunArgs(testScript: string, servers: Option<seq<string>>, ports: Option<seq<int>>,
                             autoServer: bool, timeout: int)

  /** How the runner ends: an error exit, an uncaught exception, or the test process started. */
  datatype Outcome =
    | Exit(code: int, message: string)
    | Crash(reason: string)
    | Launch(cmd: seq<string>, env: map<string, string>)

  const CountMismatch := "[ERROR] --server and --port count must match"
  const AutoServerMissing := "[ERROR] --auto-server requires TEST_SERVER_CMD and TEST_SERVER_PORT in .env.test"
  const BadPortLiteral := "ValueError: invalid literal for int() with base 10"

  function ScriptNotFound(test: string): string {
    "[ERROR] Test script not found: " + test
  }

  /** `int(s)` for an optional sign followed by decimal digits. */
  function ParsePort(s: string): (r: Option<int>)
    ensures AllDigits(s) && s != [] ==> r == Some(DigitsValue(s))
    ensures r.Some? ==> s != []
  {
    if s != [] && AllDigits(s) then Some(DigitsValue(s))
    else if |s| >= 2 && s[0] == '-' && AllDigits(s[1..]) then Some(0 - DigitsValue(s[1..]) as int)
    else if |s| >= 2 && s[0] == '+' && AllDigits(s[1..]) then Some(DigitsValue(s[1..]))
    else None
  }

  /** A non-empty list, which is what `if args.servers and args.ports` accepts. */
  predicate NonEmpty<T>(xs: Option<seq<T>>) {
    xs.Some? && xs.value != []
  }

  /** `dict.get(key)` tested for truth: present and not empty. */
  predicate Set(env: map<string, string>, key: string) {
    key in env && env[key] != []
  }

  function WithServerScript(skillDir: string): string {
    JoinPath(JoinPath(skillDir, "scripts"), "with_server.py")
  }

  function LibDir(skillDir: string): string {
    JoinPath(skillDir, "lib")
  }

  /** The launch once the server and port lists are settled. */
  function LaunchFor(test: string, timeout: int, servers: Option<seq<string>>, ports: Option<seq<int>>,
                     env: map<string, string>, skillDir: string): (o: Outcome)
    ensures o.Exit? <==> NonEmpty(servers) && NonEmpty(ports) && |servers.value| != |ports.value|
    ensures o.Exit? ==> o == Exit(1, CountMismatch)
    ensures !(NonEmpty(servers) && NonEmpty(ports)) ==> o == Launch(["python", test], env)
    ensures o.Launch? && NonEmpty(servers) && NonEmpty(ports) ==>
      o.cmd == CommandOf(WithServerScript(skillDir), timeout, servers.value, ports.value, test)
  {
    if NonEmpty(servers) && NonEmpty(ports) then
      if |servers.value| != |ports.value| then Exit(1, CountMismatch)
      else Launch(CommandOf(WithServerScript(skillDir), timeout, servers.value, ports.value, test), env)
    else Launch(["python", test], env)
  }

  /**
   * What `main` does, given whether the test script exists, the lines of
   * `.env.test` (None when it is missing), the parent environment and the
   * skill directory.
   */
  function RunPlan(args: RunArgs, testExists: bool, envFile: Option<seq<string>>,
                   environ: map<string, string>, skillDir: string): (o: Outcome)
    ensures !testExists ==> o == Exit(1, ScriptNotFound(args.testScript))
    ensures o.Launch? ==> o.env == ChildEnv(environ, LibDir(skillDir))
    ensures o.Launch? ==> |o.cmd| >= 2 && o.cmd[|o.cmd| - 1] == args.testScript
  {
    if !testExists then Exit(1, ScriptNotFound(args.testScript))
    else
      var vars := if envFile.None? then map[] else EnvOf(envFile.value);
      var env := ChildEnv(environ, LibDir(skillDir));
      if args.autoServer then
        if Set(vars, "TEST_SERVER_CMD") && Set(vars, "TEST_SERVER_PORT") then
          match ParsePort(vars["TEST_SERVER_PORT"])
          case None => Crash(BadPortLiteral)
          case Some(port) =>
            LaunchFor(args.testScript, args.timeout, Some([vars["TEST_SERVER_CMD"]]), Some([port]), env, skillDir)
        else Exit(1, AutoServerMissing)
      else LaunchFor(args.testScript, args.timeout, args.servers, args.ports, env, skillDir)
  }

  /**
   * `main`: checks the test script, loads the env file, lets `--auto-server`
   * replace the server and port lists, sets PYTHONPATH and builds the command.
   */
  method RunMain(args: RunArgs, testExists: bool, envFile: Option<seq<string>>,
                 environ: map<string, string>, skillDir: string) returns (o: Outcome)
    ensures o == RunPlan(args, testExists, envFile, environ, skillDir)
  {
    if !testExists {
      return Exit(1, ScriptNotFound(args.testScript));
    }
    var vars := LoadEnvFile(envFile);
    var servers := args.servers;
    var ports := args.ports;
    if args.autoServer {
      if Set(vars, "TEST_SERVER_CMD") && Set(vars, "TEST_SERVER_PORT") {
        var port := ParsePort(vars["TEST_SERVER_PORT"]);
        if port.None? {
          return Crash(BadPortLiteral);
        }
        servers := Some([vars["TEST_SERVER_CMD"]]);
        ports := Some([port.value]);
      } else {
        return Exit(1, AutoServerMissing);
      }
    }
    var env := environ;
    var inherited := if "PYTHONPATH" in env then env["PYTHONPATH"] else "";
    if inherited != [] {
      env := env["PYTHONPATH" := LibDir(skillDir) + [PathSep] + inherited];
    } else {
      env := env["PYTHONPATH" := LibDir(skillDir)];
    }
    if NonEmpty(servers) && NonEmpty(ports) {
      if |servers.value| != |ports.value| {
        return Exit(1, CountMismatch);
      }
      var cmd := BuildCommand(WithServerScript(skillDir), args.timeout, servers.value, ports.value, args.testScript);
      o := Launch(cmd, env);
    } else {
      o := Launch(["python", args.testScript], env);
    }
  }

  /** Unequal `--server` and `--port` counts end the run with code 1 before anything is started. */
  lemma CountMismatchExits(args: RunArgs, envFile: Option<seq<string>>, environ: map<string, string>, skillDir: string)
    requires !args.autoServer && NonEmpty(args.servers) && NonEmpty(args.ports)
    requires |args.servers.value| != |args.ports.value|
    ensures RunPlan(args, true, envFile, environ, skillDir) == Exit(1, CountMismatch)
  {
  }

  /** `--auto-server` without both variables set in the env file ends the run with code 1. */
  lemma AutoServerNeedsBoth(args: RunArgs, envFile: Option<seq<string>>, environ: map<string, string>, skillDir: string)
    requires args.autoServer
    requires var vars := if envFile.None? then map[] else EnvOf(envFile.value);
      !Set(vars, "TEST_SERVER_CMD") || !Set(vars, "TEST_SERVER_PORT")
    ensures RunPlan(args, true, envFile, environ, skillDir) == Exit(1, AutoServerMissing)
  {
  }

  /**
   * With `--auto-server` and both variables set, the single pair from the env
   * file replaces whatever `--server`/`--port` lists were given.
   */
  lemma AutoServerReplacesLists(args: RunArgs, lines: seq<string>, environ: map<string, string>, skillDir: string)
    requires args.autoServer
    requires Set(EnvOf(lines), "TEST_SERVER_CMD") && Set(EnvOf(lines), "TEST_SERVER_PORT")
    requires AllDigits(EnvOf(lines)["TEST_SERVER_PORT"])
    ensures var o := RunPlan(args, true, Some(lines), environ, skillDir);
      o.Launch?
      && o.cmd == CommandOf(WithServerScript(skillDir), args.timeout,
                            [EnvOf(lines)["TEST_SERVER_CMD"]], [DigitsValue(EnvOf(lines)["TEST_SERVER_PORT"])], args.testScript)
      && |o.cmd| == 11
  {
    CommandShape(WithServerScript(skillDir), args.timeout,
      [EnvOf(lines)["TEST_SERVER_CMD"]], [DigitsValue(EnvOf(lines)["TEST_SERVER_PORT"])], args.testScript);
  }

  /** A server list without a port list, or the reverse, runs the test directly, without the launcher. */
  lemma OneListRunsDirectly(args: RunArgs, envFile: Option<seq<string>>, environ: map<string, string>, skillDir: string)
    requires !args.autoServer && !(NonEmpty(args.servers) && NonEmpty(args.ports))
    ensures RunPlan(args, true, envFile, environ, skillDir) == Launch(["python", args.testScript], ChildEnv(environ, LibDir(skillDir)))
  {
  }
}
