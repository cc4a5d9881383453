/** Properties of the process manager that relate several steps: exits of
    detached processes never count as failures, repeated endpoint
    announcements are reported once, the launched commands carry what the
    helpers read back, and an end-to-end session. */
module ManagerInvariants {
  import opened Text
  import opened RsdScanner
  import opened Commands
  import opened ProcessManager
  import MockCli

  /** In every session reachable from the initial one, the endpoint fields are both
      set or both unset, whatever operations and events interleave. */
  lemma {:induction false} EndpointBothOrNeither(mode: Mode, events: seq<Event>)
    ensures var t := Run(mode, Init, events); t.rsdIp.Some? <==> t.rsdPort.Some?
    ensures Valid(Run(mode, Init, events))
  {
    assert Valid(Init);
  }

  /** A handle that was issued but is no longer tracked is never tracked again, so its
      exit is ignored after any further operations and events. */
  lemma {:induction false} DetachedExitIgnored(mode: Mode, s: Session, events: seq<Event>, h: Handle, role: Role, code: Option<int>)
    requires h < s.nextHandle && !s.Tracks(h)
    ensures !Run(mode, s, events).Tracks(h)
    ensures var t := Run(mode, s, events); OnExit(t, role, h, code) == Quiet(t)
  {
    var t := Run(mode, s, events);
    assert OnlyFreshTracked(s, t);
  }

  /** Every process stop_services kills is detached before the kills are awaited: its
      exit at the await point, or at any time after the stop, changes nothing. */
  lemma StoppedProcessesExitQuietly(mode: Mode, s: Session, events: seq<Event>, h: Handle, role: Role, code: Option<int>)
    requires Valid(s) && h in StopServices(s).kills
    ensures OnExit(Detached(s), role, h, code) == Quiet(Detached(s))
    ensures var t := Run(mode, StopServices(s).after, events); OnExit(t, role, h, code) == Quiet(t)
  {
    assert h < s.nextHandle;
    DetachedExitIgnored(mode, StopServices(s).after, events, h, role, code);
  }

  /** A simulation superseded by set_location or play_route is detached before its kill
      is awaited: its exit at the await point, or at any time after, changes nothing. */
  lemma SupersededSimulationExitsQuietly(
    mode: Mode, s: Session, kind: SimKind, a: string, b: string, spawn: Spawn,
    events: seq<Event>, role: Role, code: Option<int>)
    requires Valid(s) && HasEndpoint(s) && s.sim.Some?
    ensures StartSimulation(mode, s, kind, a, b, spawn).kills == [s.sim.value]
    ensures OnExit(SimAwaitPoint(s), role, s.sim.value, code) == Quiet(SimAwaitPoint(s))
    ensures var t := Run(mode, StartSimulation(mode, s, kind, a, b, spawn).after, events);
      OnExit(t, role, s.sim.value, code) == Quiet(t)
  {
    var r := StartSimulation(mode, s, kind, a, b, spawn);
    assert !r.after.Tracks(s.sim.value);
    DetachedExitIgnored(mode, r.after, events, s.sim.value, role, code);
  }

  /** A simulation cleared by clear_location is detached before its kill is awaited, and
      clearing needs no endpoint: its exit at the await point, or at any time after,
      changes nothing. */
  lemma ClearedSimulationExitsQuietly(
    mode: Mode, s: Session, run: Spawn, events: seq<Event>, role: Role, code: Option<int>)
    requires Valid(s) && s.sim.Some?
    ensures ClearLocation(mode, s, run).kills == [s.sim.value]
    ensures OnExit(SimAwaitPoint(s), role, s.sim.value, code) == Quiet(SimAwaitPoint(s))
    ensures var t := Run(mode, ClearLocation(mode, s, run).after, events);
      OnExit(t, role, s.sim.value, code) == Quiet(t)
  {
    var r := ClearLocation(mode, s, run);
    assert !r.after.Tracks(s.sim.value);
    DetachedExitIgnored(mode, r.after, events, s.sim.value, role, code);
  }

  /** Feeding Tunnel B's reader the same line twice reports at most one discovery: a line
      announcing a new endpoint stores and reports it on the first read, and the second
      time the line is only echoed and the session is unchanged. */
  lemma RepeatedAnnouncementReportedOnce(s: Session, raw: string)
    ensures var first := OnOutput(s, TunnelB, raw);
      AnnouncesNewEndpoint(s, TunnelB, raw) ==>
        var (ip, port) := Scan(Strip(raw)).value;
        && first.after.rsdIp == Some(ip) && first.after.rsdPort == Some(port)
        && DiscoveryLine(ip, port) in first.logs
        && first.statuses == (if s.state == Simulating then [] else [Connected])
    ensures var first := OnOutput(s, TunnelB, raw);
      var second := OnOutput(first.after, TunnelB, raw);
      && second.after == first.after
      && second.statuses == []
      && second.logs == (if Strip(raw) == [] then [] else [Echo(TunnelB, Strip(raw))])
  {
    var first := OnOutput(s, TunnelB, raw);
    assert !AnnouncesNewEndpoint(first.after, TunnelB, raw);
  }

  /** Two announcement lines for different endpoints, read from Tunnel B starting from a
      session with no endpoint, are both reported, and the second endpoint is stored. */
  lemma DistinctAnnouncementsReportedTwice(s: Session, ip1: string, port1: string, ip2: string, port2: string)
    requires s.rsdIp.None?
    requires |ip1| > 0 && AllAddr(ip1) && |port1| > 0 && AllDigits(port1)
    requires |ip2| > 0 && AllAddr(ip2) && |port2| > 0 && AllDigits(port2)
    requires ip1 != ip2 || port1 != port2
    ensures var first := OnOutput(s, TunnelB, Marker + " " + ip1 + " " + port1);
      var second := OnOutput(first.after, TunnelB, Marker + " " + ip2 + " " + port2);
      && DiscoveryLine(ip1, port1) in first.logs
      && DiscoveryLine(ip2, port2) in second.logs
      && second.after.rsdIp == Some(ip2) && second.after.rsdPort == Some(port2)
  {
    var raw1 := Marker + " " + ip1 + " " + port1;
    var raw2 := Marker + " " + ip2 + " " + port2;
    AnnouncementLineReadBack(ip1, port1);
    AnnouncementLineReadBack(ip2, port2);
    var first := OnOutput(s, TunnelB, raw1);
    assert AnnouncesNewEndpoint(s, TunnelB, raw1);
    assert AnnouncesNewEndpoint(first.after, TunnelB, raw2);
  }

  /** Only Tunnel B's reader scans for the endpoint: the same line on the other
      streams is echoed and changes nothing. */
  lemma OnlyTunnelBIsScanned(s: Session, role: Role, raw: string)
    requires role != TunnelB
    ensures OnOutput(s, role, raw).after == s
    ensures OnOutput(s, role, raw).statuses == []
  {
    assert !AnnouncesNewEndpoint(s, role, raw);
  }

  /** The reader does not check that its process is still tracked: an announcement
      read from the stream of a Tunnel B that stop_services already detached moves
      the stopped session to Connected and stores the endpoint, with no process
      tracked. */
  lemma StaleAnnouncementAfterStop(s: Session, ip: string, port: string)
    requires |ip| > 0 && AllAddr(ip) && |port| > 0 && AllDigits(port)
    ensures var stopped := StopServices(s).after;
      var r := OnOutput(stopped, TunnelB, Marker + " " + ip + " " + port);
      && r.after.state == Connected
      && r.after.rsdIp == Some(ip) && r.after.rsdPort == Some(port)
      && forall h :: !r.after.Tracks(h)
  {
    AnnouncementLineReadBack(ip, port);
  }

  /** The announcement line the helper prints survives stripping and scans back to
      its endpoint. */
  lemma AnnouncementLineReadBack(ip: string, port: string)
    requires |ip| > 0 && AllAddr(ip) && |port| > 0 && AllDigits(port)
    ensures var line := Marker + " " + ip + " " + port;
      Strip(line) == line && Scan(Strip(line)) == Some((ip, port))
  {
    var line := Marker + " " + ip + " " + port;
    ScanReadsAnnouncement(ip, port);
    assert line[0] == '-' && line[|line| - 1] == port[|port| - 1];
    assert IsDigit(port[|port| - 1]);
    StripKeepsTrimmed(line);
  }

  /** A line that neither starts nor ends with whitespace is its own strip. */
  lemma StripKeepsTrimmed(line: string)
    requires |line| > 0 && !IsSpace(line[0]) && !IsSpace(line[|line| - 1])
    ensures Strip(line) == line
  {
    assert Span(line, 0, IsSpace) == 0;
  }

  /** An endpoint stored in a valid session is never taken for the `--` separator or
      the `--rsd` flag. */
  lemma EndpointIsNotAFlag(s: Session)
    requires Valid(s) && s.rsdIp.Some?
    ensures s.rsdIp.value != "--" && s.rsdPort.value != "--"
    ensures s.rsdIp.value != "--rsd" && s.rsdPort.value != "--rsd"
  {
    assert IsAddrChar(s.rsdIp.value[0]) && IsDigit(s.rsdPort.value[0]);
  }

  /** The simulation set_location launches is addressed to the stored endpoint and
      carries the requested coordinates where the helper reads them: after `--rsd`
      and `--` for the real helper, and as the decoded set-location action for the
      mock helper. */
  lemma SetLocationLaunchCarriesRequest(mode: Mode, s: Session, lat: string, lon: string)
    requires Valid(s) && HasEndpoint(s) && Program(mode) != "--" && Program(mode) != "--rsd"
    ensures var argv := SetLocation(mode, s, lat, lon, Spawned).launches[0].argv;
      && PairAfter(argv, "--") == Some((lat, lon))
      && (mode.Real? ==> PairAfter(argv, "--rsd") == Some((s.rsdIp.value, s.rsdPort.value)))
      && (mode.Mock? ==> MockCli.Decode(MockCli.HelperArgv(argv)) == MockCli.SetLocation(lat, lon))
  {
    EndpointIsNotAFlag(s);
    var args := [s.rsdIp.value, s.rsdPort.value, lat, lon];
    PayloadFollowsSeparator(mode, "set_location", args);
    if mode.Real? {
      EndpointFollowsRsdFlag(mode.exe, "set_location", args);
    } else {
      MockCli.SetLocationRoundTrip(mode.python, args[0], args[1], lat, lon);
    }
  }

  /** In the mock mode a route cannot be played: the helper started by play_route does
      not know the `play` mode and exits with code 0, and that exit leaves the session
      Simulating with the finished process still tracked. */
  lemma MockRouteNeverPlays(python: string, s: Session, gpx: string, noise: string)
    requires Valid(s) && HasEndpoint(s)
    ensures var r := PlayRoute(Mock(python), s, gpx, noise, Spawned);
      var action := MockCli.Decode(MockCli.HelperArgv(r.launches[0].argv));
      && action == MockCli.Unknown("play")
      && MockCli.ExitCode(action) == Some(0)
      && r.after.state == Simulating
      && OnExit(r.after, Simulate, r.launches[0].handle, MockCli.ExitCode(action)) == Quiet(r.after)
  {
    MockCli.MockPlayIsUnknown(python, [s.rsdIp.value, s.rsdPort.value, gpx, noise]);
  }

  /** A restart from Error neither kills nor detaches a Tunnel B still tracked from the
      failed session; starting Tunnel B again then replaces the handle without a kill,
      leaving the old process running untracked. */
  lemma RestartAfterErrorOrphansTunnelB(mode: Mode, s: Session, h: Handle)
    requires Valid(s) && s.state == Error && s.tunnelB == Some(h)
    ensures var a := StartTunnelA(mode, s, Spawned);
      var b := StartTunnelB(mode, a.after, Spawned);
      && a.kills == [] && a.after.tunnelB == Some(h)
      && b.kills == [] && !b.after.Tracks(h)
  {
  }

  /** The start of a session: start Tunnel A, start Tunnel B, read the endpoint Tunnel B
      announces. The session is then Connected with both tunnels tracked. */
  lemma EndToEndSession(mode: Mode, ip: string, port: string)
    requires |ip| > 0 && AllAddr(ip) && |port| > 0 && AllDigits(port)
    ensures var s1 := StartTunnelA(mode, Init, Spawned).after;
      var s2 := StartTunnelB(mode, s1, Spawned).after;
      var s3 := OnOutput(s2, TunnelB, Marker + " " + ip + " " + port).after;
      && s1.state == TunnelARunning
      && s2.state == Starting
      && s3 == Session(Connected, Some(0), Some(1), None, Some(ip), Some(port), 2)
  {
    var s1 := Session(TunnelARunning, Some(0), None, None, None, None, 1);
    var s2 := Session(Starting, Some(0), Some(1), None, None, None, 2);
    assert StartTunnelA(mode, Init, Spawned).after == s1;
    assert StartTunnelB(mode, s1, Spawned).after == s2;
    EndToEndReadsEndpoint(s2, ip, port);
  }

  /** Setting a location on a Connected session and then clearing it launches the
      set_location command for the stored endpoint, kills exactly that simulation, runs
      the clear command, and returns to the same session, the handle counter aside. */
  lemma SetThenClearRestores(mode: Mode, s: Session, lat: string, lon: string)
    requires s.state == Connected && HasEndpoint(s) && s.sim.None?
    ensures var placed := SetLocation(mode, s, lat, lon, Spawned);
      var clear := ClearLocation(mode, placed.after, Spawned);
      && placed.after.state == Simulating
      && placed.launches == [Supervised(Simulate, s.nextHandle,
           GetCommand(mode, "set_location", [s.rsdIp.value, s.rsdPort.value, lat, lon]).value)]
      && clear.kills == [s.nextHandle]
      && clear.launches == [RunToEnd(GetCommand(mode, "clear_location", []).value)]
      && clear.after == s.(nextHandle := s.nextHandle + 1)
  {
  }

  lemma EndToEndReadsEndpoint(s2: Session, ip: string, port: string)
    requires |ip| > 0 && AllAddr(ip) && |port| > 0 && AllDigits(port)
    requires s2 == Session(Starting, Some(0), Some(1), None, None, None, 2)
    ensures OnOutput(s2, TunnelB, Marker + " " + ip + " " + port).after
      == Session(Connected, Some(0), Some(1), None, Some(ip), Some(port), 2)
  {
    AnnouncementLineReadBack(ip, port);
    assert AnnouncesNewEndpoint(s2, TunnelB, Marker + " " + ip + " " + port);
  }
}
