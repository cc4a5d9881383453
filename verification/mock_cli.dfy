/** The argv dispatch of the offline helper `mock_cli.py` (its `main()`), as
    a pure function from argv to the action the helper takes, and the round
    trip with the mock branch of the command builder. The printing and
    sleeping bodies of the actions are not modelled; `ExitCode` records only
    how each action ends. */
module MockCli {
  import opened Text
  import opened Commands

  /** What `main()` does for an argv. `PlayRoute` is never produced by `Decode`; it
      exists for the corrected decoder `DecodeWithPlay`. */
  datatype Action =
    | Usage
    | TunnelA
    | TunnelB
    | SetLocation(lat: string, lon: string)
    | PlayRoute(gpx: string, noise: string)
    | Clear
    | Unknown(mode: string)

  /** The coordinate the helper falls back to when the separator or its values are missing. */
  const DefaultCoordinate: string := "0.0"

  /** The two tokens after the first `--` anywhere in argv, or the defaults when `--` is
      absent or fewer than two tokens follow it (the caught `IndexError`). */
  function Coordinates(argv: seq<string>): (string, string) {
    match PairAfter(argv, "--")
    case Some(pair) => pair
    case None => (DefaultCoordinate, DefaultCoordinate)
  }

  /** `main()`'s dispatch on `sys.argv`. */
  function Decode(argv: seq<string>): (a: Action)
    ensures a.Usage? <==> |argv| < 2
    ensures !a.PlayRoute?
    ensures a.Unknown? <==> |argv| >= 2 && argv[1] !in ["tunnel_a", "tunnel_b", "set_location", "clear_location"]
    ensures a.Unknown? ==> a.mode == argv[1]
    // each handled mode starts its own action
    ensures |argv| >= 2 && argv[1] == "tunnel_a" ==> a == TunnelA
    ensures |argv| >= 2 && argv[1] == "tunnel_b" ==> a == TunnelB
    ensures |argv| >= 2 && argv[1] == "set_location" ==> a.SetLocation?
    ensures |argv| >= 2 && argv[1] == "clear_location" ==> a == Clear
  {
    if |argv| < 2 then Usage
    else
      var mode := argv[1];
      if mode == "tunnel_a" then TunnelA
      else if mode == "tunnel_b" then TunnelB
      else if mode == "set_location" then
        var (lat, lon) := Coordinates(argv);
        SetLocation(lat, lon)
      else if mode == "clear_location" then Clear
      else Unknown(mode)
  }

  /** How the helper process ends for each action: the usage message exits with 1,
      the clear action and an unknown mode return normally (exit code 0), and the
      tunnel and set-location actions run until they are killed (`None`). */
  function ExitCode(a: Action): (r: Option<int>)
    ensures r == Some(1) <==> a.Usage?
    ensures r == Some(0) <==> a.Clear? || a.Unknown?
    ensures r.None? <==> a.TunnelA? || a.TunnelB? || a.SetLocation? || a.PlayRoute?
  {
    match a
    case Usage => Some(1)
    case Clear => Some(0)
    case Unknown(_) => Some(0)
    case _ => None
  }

  /** The argv the helper sees for a command `[python, "mock_cli.py", ...]`: the
      interpreter drops its own path. */
  function HelperArgv(cmd: seq<string>): seq<string>
    requires |cmd| >= 1
  {
    cmd[1..]
  }

  /** set_location reads the two tokens after the first `--`. */
  lemma SetLocationReadsSeparator(argv: seq<string>, d: nat)
    requires |argv| >= 2 && argv[1] == "set_location"
    requires d + 2 < |argv| && argv[d] == "--" && "--" !in argv[..d]
    ensures Decode(argv) == SetLocation(argv[d + 1], argv[d + 2])
  {
    PairAfterFirstFlag(argv, "--", d);
  }

  /** set_location falls back to ("0.0", "0.0") when there is no `--`, or when the
      first `--` is followed by fewer than two tokens. */
  lemma SetLocationDefaults(argv: seq<string>)
    requires |argv| >= 2 && argv[1] == "set_location"
    requires forall d | 0 <= d < |argv| && argv[d] == "--" && "--" !in argv[..d] :: d + 2 >= |argv|
    ensures Decode(argv) == SetLocation(DefaultCoordinate, DefaultCoordinate)
  {
    FirstFlagReads(argv, "--");
  }

  /** The round trip of a set-location request: whatever the endpoint and coordinates,
      the helper started by the mock builder reads back the coordinates it was given. */
  lemma SetLocationRoundTrip(python: string, ip: string, port: string, lat: string, lon: string)
    ensures Decode(["mock_cli.py"] + HelperArgv(GetCommand(Mock(python), "set_location", [ip, port, lat, lon]).value)[1..])
      == SetLocation(lat, lon)
    ensures Decode(HelperArgv(GetCommand(Mock(python), "set_location", [ip, port, lat, lon]).value))
      == SetLocation(lat, lon)
  {
    var argv := HelperArgv(GetCommand(Mock(python), "set_location", [ip, port, lat, lon]).value);
    assert argv == [MockScript, "set_location", "--", lat, lon];
    assert ["mock_cli.py"] + argv[1..] == argv;
    SetLocationReadsSeparator(argv, 2);
  }

  /** As written, the mock helper has no `play` mode: the command the mock builder emits
      for a route is rejected as an unknown mode, and the helper returns at once
      with exit code 0 instead of playing the route. */
  lemma MockPlayIsUnknown(python: string, args: seq<string>)
    requires |args| >= 4
    ensures Decode(HelperArgv(GetCommand(Mock(python), "play", args).value)) == Unknown("play")
    ensures ExitCode(Decode(HelperArgv(GetCommand(Mock(python), "play", args).value))) == Some(0)
  {
  }

  /** The helper's dispatch with the `play` mode the builder evidently expects: the
      route and noise are read after `--` the way set_location reads coordinates. The
      helper as written has no such branch, so what a malformed `play` argv yields is a
      modelling choice: it falls back to `DefaultCoordinate` for both values, as
      set_location does. */
  function DecodeWithPlay(argv: seq<string>): (a: Action)
    ensures |argv| >= 2 && argv[1] == "play" ==> a.PlayRoute?
    // the route and noise are the two tokens after the first `--` ...
    ensures |argv| >= 2 && argv[1] == "play" ==>
      forall d | 0 <= d < |argv| && argv[d] == "--" && "--" !in argv[..d] && d + 2 < |argv| ::
        a == PlayRoute(argv[d + 1], argv[d + 2])
    // ... or the defaults when there is no `--`, or fewer than two tokens follow the first one
    ensures (&& |argv| >= 2 && argv[1] == "play"
             && forall d | 0 <= d < |argv| && argv[d] == "--" && "--" !in argv[..d] :: d + 2 >= |argv|)
      ==> a == PlayRoute(DefaultCoordinate, DefaultCoordinate)
    // every other argv is dispatched as before
    ensures |argv| < 2 || argv[1] != "play" ==> a == Decode(argv)
  {
    if |argv| >= 2 && argv[1] == "play" then
      FirstFlagReads(argv, "--");
      var (gpx, noise) := Coordinates(argv);
      PlayRoute(gpx, noise)
    else Decode(argv)
  }

  /** The action each logical command is meant to start in the helper. */
  function Intended(cmdType: string, args: seq<string>): Action
    requires TakesPayload(cmdType) ==> |args| >= 4
  {
    if cmdType == "tunnel_a" then TunnelA
    else if cmdType == "tunnel_b" then TunnelB
    else if cmdType == "set_location" then SetLocation(args[2], args[3])
    else if cmdType == "play" then PlayRoute(args[2], args[3])
    else if cmdType == "clear_location" then Clear
    else Unknown(cmdType)
  }

  /** With the `play` mode in place, every command the mock builder emits starts the
      intended action in the helper. */
  lemma MockCommandsRoundTrip(python: string, cmdType: string, args: seq<string>)
    requires IsKnown(cmdType) && ArityOk(Mock(python), cmdType, args)
    ensures DecodeWithPlay(HelperArgv(GetCommand(Mock(python), cmdType, args).value)) == Intended(cmdType, args)
  {
    var argv := HelperArgv(GetCommand(Mock(python), cmdType, args).value);
    if TakesPayload(cmdType) {
      assert argv == [MockScript, cmdType, "--", args[2], args[3]];
      PairAfterFirstFlag(argv, "--", 2);
    }
  }
}
