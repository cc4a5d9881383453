/** The command builder of the process manager (`_get_command`): the token
    list handed to the OS for each logical command, in the real mode (the
    `pymobiledevice3` helper) and in the mock mode (the offline
    `mock_cli.py` helper run by the Python interpreter). The path of the
    executable is a parameter: how the source resolves it is not modelled. */
module Commands {
  import opened Text

  /** Which helper the commands address: `Mock(python)` runs `python mock_cli.py ...`,
      `Real(exe)` runs the `pymobiledevice3` executable found at `exe`. */
  datatype Mode = Mock(python: string) | Real(exe: string)

  const MockScript: string := "mock_cli.py"

  /** The first token of every known command. */
  function Program(mode: Mode): string {
    match mode
    case Mock(python) => python
    case Real(exe) => exe
  }

  /** The five command types the builder knows. */
  predicate IsKnown(cmdType: string) {
    cmdType in ["tunnel_a", "tunnel_b", "set_location", "play", "clear_location"]
  }

  /** The command types that carry (ip, port, a, b) arguments. */
  predicate TakesPayload(cmdType: string) {
    cmdType == "set_location" || cmdType == "play"
  }

  /** Whether the builder can read its arguments: the mock branch indexes `args[2]`
      and `args[3]`, the real branch unpacks exactly four values. */
  predicate ArityOk(mode: Mode, cmdType: string, args: seq<string>) {
    !TakesPayload(cmdType) || (if mode.Mock? then |args| >= 4 else |args| == 4)
  }

  /** The real helper's verb for the two payload commands. */
  function SimulateVerb(cmdType: string): string {
    if cmdType == "set_location" then "set" else "play"
  }

  /** `_get_command(cmd_type, *args)`; `None` where Python raises while reading `args`. */
  function GetCommand(mode: Mode, cmdType: string, args: seq<string>): (r: Option<seq<string>>)
    ensures r.Some? <==> ArityOk(mode, cmdType, args)
    ensures r.Some? && !IsKnown(cmdType) ==> r.value == []
    ensures r.Some? && IsKnown(cmdType) ==> |r.value| >= 3 && r.value[0] == Program(mode)
    ensures r.Some? && IsKnown(cmdType) && mode.Mock? ==> r.value[1] == MockScript && r.value[2] == cmdType
  {
    match mode
    case Mock(python) =>
      var base := [python, MockScript];
      if cmdType == "tunnel_a" then Some(base + ["tunnel_a"])
      else if cmdType == "tunnel_b" then Some(base + ["tunnel_b"])
      else if cmdType == "set_location" then
        if |args| >= 4 then Some(base + ["set_location", "--", args[2], args[3]]) else None
      else if cmdType == "play" then
        if |args| >= 4 then Some(base + ["play", "--", args[2], args[3]]) else None
      else if cmdType == "clear_location" then Some(base + ["clear_location"])
      else Some([])
    case Real(exe) =>
      if cmdType == "tunnel_a" then Some([exe, "remote", "tunneld"])
      else if cmdType == "tunnel_b" then Some([exe, "lockdown", "start-tunnel"])
      else if TakesPayload(cmdType) then
        if |args| == 4 then
          Some([exe, "developer", "dvt", "simulate-location", SimulateVerb(cmdType),
                "--rsd", args[0], args[1], "--", args[2], args[3]])
        else None
      else if cmdType == "clear_location" then Some([exe, "developer", "dvt", "simulate-location", "clear"])
      else Some([])
  }

  /** The exact token lists of the real helper: the two tunnels and the clear command,
      which ignore any arguments (the manager passes none), and the simulate-location set
      and play commands, with the endpoint after `--rsd` and the payload after `--`. */
  lemma RealLayouts(exe: string, cmdType: string, args: seq<string>)
    ensures GetCommand(Real(exe), "tunnel_a", args) == Some([exe, "remote", "tunneld"])
    ensures GetCommand(Real(exe), "tunnel_b", args) == Some([exe, "lockdown", "start-tunnel"])
    ensures GetCommand(Real(exe), "clear_location", args) ==
      Some([exe, "developer", "dvt", "simulate-location", "clear"])
    ensures TakesPayload(cmdType) && |args| == 4 ==> GetCommand(Real(exe), cmdType, args) == Some(
      [exe, "developer", "dvt", "simulate-location", SimulateVerb(cmdType),
       "--rsd", args[0], args[1], "--", args[2], args[3]])
  {
  }

  /** The exact token lists of the mock helper: the interpreter, the script and the mode,
      with nothing else for the tunnels and the clear command whatever the arguments, and
      for the payload commands `--` with the last two of the four arguments. */
  lemma MockLayouts(python: string, cmdType: string, args: seq<string>)
    ensures GetCommand(Mock(python), "tunnel_a", args) == Some([python, MockScript, "tunnel_a"])
    ensures GetCommand(Mock(python), "tunnel_b", args) == Some([python, MockScript, "tunnel_b"])
    ensures GetCommand(Mock(python), "clear_location", args) == Some([python, MockScript, "clear_location"])
    ensures TakesPayload(cmdType) && |args| >= 4 ==>
      GetCommand(Mock(python), cmdType, args) == Some([python, MockScript, cmdType, "--", args[2], args[3]])
  {
    var base := [python, MockScript];
    assert base + ["tunnel_a"] == [python, MockScript, "tunnel_a"];
    assert base + ["tunnel_b"] == [python, MockScript, "tunnel_b"];
    assert base + ["clear_location"] == [python, MockScript, "clear_location"];
    if TakesPayload(cmdType) && |args| >= 4 {
      assert base + [cmdType, "--", args[2], args[3]] == [python, MockScript, cmdType, "--", args[2], args[3]];
    }
  }

  /** Both modes put the same two payload values right after the first `--`
      separator, so a reader of the separator sees the same coordinates (or route
      and noise) whichever helper is configured. In the real mode this relies on
      the endpoint tokens not being `--` themselves. */
  lemma PayloadFollowsSeparator(mode: Mode, cmdType: string, args: seq<string>)
    requires TakesPayload(cmdType) && ArityOk(mode, cmdType, args)
    requires Program(mode) != "--"
    requires mode.Real? ==> args[0] != "--" && args[1] != "--"
    ensures PairAfter(GetCommand(mode, cmdType, args).value, "--") == Some((args[2], args[3]))
  {
    var cmd := GetCommand(mode, cmdType, args).value;
    if mode.Mock? {
      assert cmd[..3] == [Program(mode), MockScript, cmdType];
      PairAfterFirstFlag(cmd, "--", 3);
    } else {
      assert cmd[..8] == [Program(mode), "developer", "dvt", "simulate-location",
                          SimulateVerb(cmdType), "--rsd", args[0], args[1]];
      PairAfterFirstFlag(cmd, "--", 8);
    }
  }

  /** In the real mode the endpoint is the pair right after the `--rsd` flag. */
  lemma EndpointFollowsRsdFlag(exe: string, cmdType: string, args: seq<string>)
    requires TakesPayload(cmdType) && |args| == 4 && exe != "--rsd"
    ensures PairAfter(GetCommand(Real(exe), cmdType, args).value, "--rsd") == Some((args[0], args[1]))
  {
    var cmd := GetCommand(Real(exe), cmdType, args).value;
    assert cmd[..5] == [exe, "developer", "dvt", "simulate-location", SimulateVerb(cmdType)];
    PairAfterFirstFlag(cmd, "--rsd", 5);
  }
}
