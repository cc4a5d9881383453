/** The session state machine of `ProcessManager`: an immutable session
    record, one transition function per public coroutine, and one event
    function for each of the two background activities every spawned
    process gets (its output reader and its exit waiter).

    What the operating system decides is an input: whether a spawn
    succeeds, the lines a process prints, the code it exits with. Handles
    are abstract ids drawn from a counter, so a handle spawned later is
    never equal to one spawned earlier (Python compares the process
    objects by identity). Each public operation is one atomic step; the
    sessions at its await points are exposed as `Detached` and
    `SimAwaitPoint` so that events arriving there can be reasoned about.

    A step reports what the manager did besides changing the session: the
    lines the manager itself sends to the log callback, the states sent to
    the status callback, the processes launched, and the handles whose kill
    was awaited (in order). Each `kills` entry also logs the lines of one
    run of `Termination.KillProcess` for that process, which depend on how
    the operating system answers and are left to that module. */
module ProcessManager {
  import opened Text
  import opened RsdScanner
  import opened Commands

  datatype State = Stopped | Starting | TunnelARunning | Connected | Simulating | Error

  /** The status string each state is published as. */
  function Label(st: State): string {
    match st
    case Stopped => "Stopped"
    case Starting => "Starting"
    case TunnelARunning => "Tunnel A Running"
    case Connected => "Connected (RSD Found)"
    case Simulating => "Simulating..."
    case Error => "Error"
  }

  /** Distinct states are published as distinct status strings, so a status callback
      that compares strings can tell every state apart. */
  lemma LabelsDistinct(a: State, b: State)
    ensures Label(a) == Label(b) <==> a == b
  {
  }

  /** The three process roles; the name is what log lines and exit checks use. */
  datatype Role = TunnelA | TunnelB | Simulate

  function RoleName(role: Role): string {
    match role
    case TunnelA => "Tunnel A"
    case TunnelB => "Tunnel B"
    case Simulate => "Simulate"
  }

  type Handle = nat

  datatype Session = Session(
    state: State,
    tunnelA: Option<Handle>,
    tunnelB: Option<Handle>,
    sim: Option<Handle>,
    rsdIp: Option<string>,
    rsdPort: Option<string>,
    nextHandle: Handle)   // the id the next spawned process gets
  {
    /** The handle currently owning a role. */
    function Tracked(role: Role): Option<Handle> {
      match role
      case TunnelA => tunnelA
      case TunnelB => tunnelB
      case Simulate => sim
    }

    predicate Tracks(h: Handle) {
      tunnelA == Some(h) || tunnelB == Some(h) || sim == Some(h)
    }
  }

  /** Python truthiness of an optional string: present and non-empty. */
  predicate Truthy(o: Option<string>) {
    o.Some? && o.value != ""
  }

  /** The guard of set_location and play_route. */
  predicate HasEndpoint(s: Session) {
    Truthy(s.rsdIp) && Truthy(s.rsdPort)
  }

  predicate Below(o: Option<Handle>, n: Handle) {
    o.None? || o.value < n
  }

  predicate Apart(o: Option<Handle>, p: Option<Handle>) {
    o.None? || p.None? || o.value != p.value
  }

  /** What holds of every session the manager can reach: the endpoint fields are
      both set or both unset, and hold what the scanner can capture; every
      tracked handle was issued, and no handle owns two roles. */
  predicate Valid(s: Session) {
    && (s.rsdIp.Some? <==> s.rsdPort.Some?)
    && (s.rsdIp.Some? ==> |s.rsdIp.value| > 0 && AllAddr(s.rsdIp.value))
    && (s.rsdPort.Some? ==> |s.rsdPort.value| > 0 && AllDigits(s.rsdPort.value))
    && Below(s.tunnelA, s.nextHandle) && Below(s.tunnelB, s.nextHandle) && Below(s.sim, s.nextHandle)
    && Apart(s.tunnelA, s.tunnelB) && Apart(s.tunnelA, s.sim) && Apart(s.tunnelB, s.sim)
  }

  /** Handles tracked after a step were tracked before it or are freshly issued by it. */
  ghost predicate OnlyFreshTracked(s: Session, t: Session) {
    && s.nextHandle <= t.nextHandle
    && forall h: Handle :: t.Tracks(h) ==> s.Tracks(h) || s.nextHandle <= h < t.nextHandle
  }

  const Init: Session := Session(Stopped, None, None, None, None, None, 0)

  /** The outcome of an attempt to start a process. */
  datatype Spawn = Spawned | SpawnFailed(reason: string)

  /** A process the manager started: one it tracks under a role, or the clear
      command it runs to completion without tracking. */
  datatype Launch = Supervised(role: Role, handle: Handle, argv: seq<string>) | RunToEnd(argv: seq<string>)

  datatype Step = Step(
    after: Session,
    logs: seq<string>,
    statuses: seq<State>,
    launches: seq<Launch>,
    kills: seq<Handle>)

  function Quiet(s: Session): Step {
    Step(s, [], [], [], [])
  }

  function Note(s: Session, line: string): Step {
    Step(s, [line], [], [], [])
  }

  const MockNotice: string := "INFO: Running in MOCK MODE"
  const AlreadyRunning: string := "Services already running or starting."
  const NeedTunnelA: string := "Tunnel A must be running before starting Tunnel B."
  const NoEndpoint: string := "ERROR: RSD Connection info not found yet."
  const StoppingPrevious: string := "Stopping previous simulation process..."
  const StoppingAll: string := "Stopping all services..."
  const AllStopped: string := "All services stopped."
  const LocationCleared: string := "Location cleared."

  /** Constructing the manager: the initial session, announcing the mock mode. */
  function Construct(mode: Mode): (r: Step)
    ensures r.after == Init && Valid(r.after)
    ensures r.logs == (if mode.Mock? then [MockNotice] else [])
    ensures r.statuses == [] && r.launches == [] && r.kills == []
  {
    Step(Init, if mode.Mock? then [MockNotice] else [], [], [], [])
  }

  function Present(o: Option<Handle>): seq<Handle> {
    if o.Some? then [o.value] else []
  }

  /** The order stop_services collects its kills in: simulation, Tunnel B, Tunnel A. */
  function KillOrder(s: Session): seq<Handle> {
    Present(s.sim) + Present(s.tunnelB) + Present(s.tunnelA)
  }

  /** The session while stop_services awaits its kills: every handle and the
      endpoint already detached, the state not yet changed. */
  function Detached(s: Session): Session {
    s.(tunnelA := None, tunnelB := None, sim := None, rsdIp := None, rsdPort := None)
  }

  function StopServices(s: Session): (r: Step)
    ensures r.after.state == Stopped
    ensures forall h :: !r.after.Tracks(h)
    ensures r.after.rsdIp.None? && r.after.rsdPort.None?
    ensures r.after.nextHandle == s.nextHandle
    ensures forall h :: h in r.kills <==> s.Tracks(h)
    ensures r.kills == KillOrder(s)
    ensures r.statuses == [Stopped] && r.launches == []
    ensures r.logs == [StoppingAll, AllStopped]
    ensures Valid(r.after) && OnlyFreshTracked(s, r.after)
  {
    Step(Detached(s).(state := Stopped), [StoppingAll, AllStopped], [Stopped], [], KillOrder(s))
  }

  /** The failure path of both tunnel starts: log, move to Error, stop everything. */
  function FailStart(s: Session, prefix: seq<string>, failure: string): (r: Step)
    ensures r.after == StopServices(s).after
    ensures r.statuses == [Starting, Error, Stopped]
    ensures r.kills == KillOrder(s) && r.launches == []
    // the lines logged before the failure, the failure itself, then stop_services' lines
    ensures r.logs == prefix + [failure, StoppingAll, AllStopped]
  {
    var stop := StopServices(s.(state := Error));
    Step(stop.after, prefix + [failure] + stop.logs, [Starting, Error] + stop.statuses, stop.launches, stop.kills)
  }

  function StartTunnelA(mode: Mode, s: Session, spawn: Spawn): (r: Step)
    ensures s.state != Stopped && s.state != Error ==> r == Note(s, AlreadyRunning)
    ensures (s.state == Stopped || s.state == Error) && spawn.Spawned? ==>
      && r.after.state == TunnelARunning
      && r.after.tunnelA == Some(s.nextHandle)
      && r.after.rsdIp.None? && r.after.rsdPort.None?
      && r.after.tunnelB == s.tunnelB && r.after.sim == s.sim
      && r.statuses == [Starting, TunnelARunning] && r.kills == []
      && r.launches == [Supervised(TunnelA, s.nextHandle, GetCommand(mode, "tunnel_a", []).value)]
      && r.logs == ["Starting Tunnel A: " + Join(GetCommand(mode, "tunnel_a", []).value)]
    ensures (s.state == Stopped || s.state == Error) && spawn.SpawnFailed? ==>
      && r.after.state == Stopped && (forall h :: !r.after.Tracks(h))
      && r.after.rsdIp.None? && r.after.rsdPort.None?
      && r.statuses == [Starting, Error, Stopped]
      && r.launches == [] && r.kills == KillOrder(s)
      && r.logs == ["Starting Tunnel A: " + Join(GetCommand(mode, "tunnel_a", []).value),
                    "CRITICAL ERROR starting Tunnel A: " + spawn.reason, StoppingAll, AllStopped]
    ensures Valid(s) ==> Valid(r.after)
    ensures OnlyFreshTracked(s, r.after)
  {
    if s.state != Stopped && s.state != Error then Note(s, AlreadyRunning)
    else
      var starting := s.(state := Starting, rsdIp := None, rsdPort := None);
      var cmd := GetCommand(mode, "tunnel_a", []).value;
      var announce := "Starting Tunnel A: " + Join(cmd);
      match spawn
      case Spawned =>
        var h := s.nextHandle;
        Step(starting.(tunnelA := Some(h), nextHandle := h + 1, state := TunnelARunning),
             [announce], [Starting, TunnelARunning], [Supervised(TunnelA, h, cmd)], [])
      case SpawnFailed(e) =>
        FailStart(starting, [announce], "CRITICAL ERROR starting Tunnel A: " + e)
  }

  function StartTunnelB(mode: Mode, s: Session, spawn: Spawn): (r: Step)
    ensures s.state != TunnelARunning ==> r == Note(s, NeedTunnelA)
    ensures s.state == TunnelARunning && spawn.Spawned? ==>
      && r.after.state == Starting
      && r.after.tunnelB == Some(s.nextHandle)
      && r.after.tunnelA == s.tunnelA && r.after.sim == s.sim
      && r.after.rsdIp == s.rsdIp && r.after.rsdPort == s.rsdPort
      && r.statuses == [Starting] && r.kills == []
      && r.launches == [Supervised(TunnelB, s.nextHandle, GetCommand(mode, "tunnel_b", []).value)]
      && r.logs == ["Starting Tunnel B: " + Join(GetCommand(mode, "tunnel_b", []).value)]
    ensures s.state == TunnelARunning && spawn.SpawnFailed? ==>
      && r.after.state == Stopped && (forall h :: !r.after.Tracks(h))
      && r.after.rsdIp.None? && r.after.rsdPort.None?
      && r.statuses == [Starting, Error, Stopped]
      && r.launches == [] && r.kills == KillOrder(s)
      && r.logs == ["Starting Tunnel B: " + Join(GetCommand(mode, "tunnel_b", []).value),
                    "CRITICAL ERROR starting Tunnel B: " + spawn.reason, StoppingAll, AllStopped]
    // the endpoint, not the start, is what moves the session to Connected
    ensures Connected !in r.statuses
    ensures Valid(s) ==> Valid(r.after)
    ensures OnlyFreshTracked(s, r.after)
  {
    if s.state != TunnelARunning then Note(s, NeedTunnelA)
    else
      var starting := s.(state := Starting);
      var cmd := GetCommand(mode, "tunnel_b", []).value;
      var announce := "Starting Tunnel B: " + Join(cmd);
      match spawn
      case Spawned =>
        var h := s.nextHandle;
        Step(starting.(tunnelB := Some(h), nextHandle := h + 1), [announce], [Starting], [Supervised(TunnelB, h, cmd)], [])
      case SpawnFailed(e) =>
        FailStart(starting, [announce], "CRITICAL ERROR starting Tunnel B: " + e)
  }

  /** The two simulation requests, which share one code shape. */
  datatype SimKind = SetPoint | PlayGpx

  function CommandType(kind: SimKind): string {
    match kind
    case SetPoint => "set_location"
    case PlayGpx => "play"
  }

  /** The start of the line announcing a simulation command. */
  function SimAnnounce(kind: SimKind): string {
    match kind
    case SetPoint => "Setting Location: "
    case PlayGpx => "Playing Route: "
  }

  /** The start of the line reporting that a simulation command could not be started. */
  function SimFailure(kind: SimKind): string {
    match kind
    case SetPoint => "ERROR setting location: "
    case PlayGpx => "ERROR playing route: "
  }

  /** The session while set_location or play_route awaits the kill of the previous
      simulation: that process already detached. */
  function SimAwaitPoint(s: Session): Session {
    s.(sim := None)
  }

  /** set_location and play_route: with an endpoint, detach and kill any previous
      simulation, then spawn the new one. */
  function StartSimulation(mode: Mode, s: Session, kind: SimKind, a: string, b: string, spawn: Spawn): (r: Step)
    // without an endpoint nothing is spawned or killed and the session is unchanged
    ensures !HasEndpoint(s) ==> r == Note(s, NoEndpoint)
    ensures HasEndpoint(s) ==>
      && r.kills == Present(s.sim)
      && r.after.tunnelA == s.tunnelA && r.after.tunnelB == s.tunnelB
      && r.after.rsdIp == s.rsdIp && r.after.rsdPort == s.rsdPort
    ensures HasEndpoint(s) && spawn.Spawned? ==>
      && r.after.state == Simulating
      && r.after.sim == Some(s.nextHandle)
      && r.statuses == [Simulating]
      && |r.launches| == 1 && r.launches[0].Supervised?
      && r.launches[0].role == Simulate && r.launches[0].handle == s.nextHandle
      && r.launches[0].argv == GetCommand(mode, CommandType(kind), [s.rsdIp.value, s.rsdPort.value, a, b]).value
    // a failed spawn only logs: the state is kept and no simulation is tracked
    ensures HasEndpoint(s) && spawn.SpawnFailed? ==>
      r.after == SimAwaitPoint(s) && r.statuses == [] && r.launches == []
    // the notice about the previous simulation, the command, and on failure the error
    ensures HasEndpoint(s) ==>
      var announce := SimAnnounce(kind) + Join(GetCommand(mode, CommandType(kind), [s.rsdIp.value, s.rsdPort.value, a, b]).value);
      var stopping := if s.sim.Some? then [StoppingPrevious] else [];
      r.logs == if spawn.Spawned? then stopping + [announce] else stopping + [announce, SimFailure(kind) + spawn.reason]
    ensures Valid(s) ==> Valid(r.after)
    ensures OnlyFreshTracked(s, r.after)
  {
    if !HasEndpoint(s) then Note(s, NoEndpoint)
    else
      var mid := SimAwaitPoint(s);
      var stopping := if s.sim.Some? then [StoppingPrevious] else [];
      var args := [s.rsdIp.value, s.rsdPort.value, a, b];
      var cmd := GetCommand(mode, CommandType(kind), args).value;
      var announce := SimAnnounce(kind) + Join(cmd);
      match spawn
      case Spawned =>
        var h := s.nextHandle;
        Step(mid.(sim := Some(h), nextHandle := h + 1, state := Simulating),
             stopping + [announce], [Simulating], [Supervised(Simulate, h, cmd)], Present(s.sim))
      case SpawnFailed(e) =>
        var failure := SimFailure(kind) + e;
        Step(mid, stopping + [announce, failure], [], [], Present(s.sim))
  }

  function SetLocation(mode: Mode, s: Session, lat: string, lon: string, spawn: Spawn): (r: Step)
    ensures HasEndpoint(s) && spawn.Spawned? ==>
      r.launches == [Supervised(Simulate, s.nextHandle,
        GetCommand(mode, "set_location", [s.rsdIp.value, s.rsdPort.value, lat, lon]).value)]
  {
    StartSimulation(mode, s, SetPoint, lat, lon, spawn)
  }

  function PlayRoute(mode: Mode, s: Session, gpx: string, noise: string, spawn: Spawn): (r: Step)
    ensures HasEndpoint(s) && spawn.Spawned? ==>
      r.launches == [Supervised(Simulate, s.nextHandle,
        GetCommand(mode, "play", [s.rsdIp.value, s.rsdPort.value, gpx, noise]).value)]
  {
    StartSimulation(mode, s, PlayGpx, gpx, noise, spawn)
  }

  /** clear_location: detach and kill any simulation, leave Simulating for Connected,
      then run the clear command to its end. It needs no endpoint, and how the clear
      command fares never touches the session. */
  function ClearLocation(mode: Mode, s: Session, run: Spawn): (r: Step)
    ensures r.after == s.(sim := None, state := if s.state == Simulating then Connected else s.state)
    ensures r.kills == Present(s.sim)
    ensures r.statuses == (if s.state == Simulating then [Connected] else [])
    ensures r.launches == (if run.Spawned? then [RunToEnd(GetCommand(mode, "clear_location", []).value)] else [])
    // the command, then whether it ran to its end
    ensures r.logs == ["Clearing Location: " + Join(GetCommand(mode, "clear_location", []).value),
                       if run.Spawned? then LocationCleared else "ERROR clearing location: " + run.reason]
    ensures Valid(s) ==> Valid(r.after)
    ensures OnlyFreshTracked(s, r.after)
  {
    var cmd := GetCommand(mode, "clear_location", []).value;
    var announce := "Clearing Location: " + Join(cmd);
    var st := if s.state == Simulating then Connected else s.state;
    var statuses := if s.state == Simulating then [Connected] else [];
    var cleared := s.(sim := None, state := st);
    match run
    case Spawned => Step(cleared, [announce, LocationCleared], statuses, [RunToEnd(cmd)], Present(s.sim))
    case SpawnFailed(e) => Step(cleared, [announce, "ERROR clearing location: " + e], statuses, [], Present(s.sim))
  }

  /** The log line an output line is echoed as. */
  function Echo(role: Role, line: string): string {
    "[" + RoleName(role) + "] " + line
  }

  function DiscoveryLine(ip: string, port: string): string {
    "SUCCESS: RSD Updated - IP: " + ip + ", Port: " + port
  }

  /** Whether a line from `role`'s stream announces an endpoint other than the stored one. */
  predicate AnnouncesNewEndpoint(s: Session, role: Role, raw: string) {
    var found := Scan(Strip(raw));
    role == TunnelB && found.Some?
      && (s.rsdIp != Some(found.value.0) || s.rsdPort != Some(found.value.1))
  }

  /** One line arriving on the output stream of a process of `role`. The reader does
      not consult the tracked handles: a line from a detached process is handled
      like any other. */
  function OnOutput(s: Session, role: Role, raw: string): (r: Step)
    // blank lines are dropped; every other line is echoed to the log first
    ensures Strip(raw) == [] ==> r == Quiet(s)
    ensures Strip(raw) != [] ==> |r.logs| > 0 && r.logs[0] == Echo(role, Strip(raw))
    // the endpoint is replaced exactly when Tunnel B announces a different one
    ensures AnnouncesNewEndpoint(s, role, raw) ==>
      && r.after.rsdIp == Some(Scan(Strip(raw)).value.0)
      && r.after.rsdPort == Some(Scan(Strip(raw)).value.1)
      && r.after.state == (if s.state == Simulating then Simulating else Connected)
      && r.logs == [Echo(role, Strip(raw)), DiscoveryLine(r.after.rsdIp.value, r.after.rsdPort.value)]
      && r.statuses == (if s.state == Simulating then [] else [Connected])
    ensures !AnnouncesNewEndpoint(s, role, raw) ==> r.after == s && r.statuses == [] && |r.logs| <= 1
    ensures r.after.tunnelA == s.tunnelA && r.after.tunnelB == s.tunnelB && r.after.sim == s.sim
    ensures r.after.nextHandle == s.nextHandle
    ensures r.launches == [] && r.kills == []
    ensures Valid(s) ==> Valid(r.after)
    ensures OnlyFreshTracked(s, r.after)
  {
    var line := Strip(raw);
    if line == [] then Quiet(s)
    else
      var echo := Echo(role, line);
      if role != TunnelB then Note(s, echo)
      else
        match Scan(line)
        case None => Note(s, echo)
        case Some((ip, port)) =>
          if s.rsdIp == Some(ip) && s.rsdPort == Some(port) then Note(s, echo)
          else
            var updated := s.(rsdIp := Some(ip), rsdPort := Some(port));
            if s.state == Simulating then Step(updated, [echo, DiscoveryLine(ip, port)], [], [], [])
            else Step(updated.(state := Connected), [echo, DiscoveryLine(ip, port)], [Connected], [], [])
  }

  /** Whether an exit of handle `h` in `role` with `code` is a failure of the session. */
  predicate UnexpectedExit(s: Session, role: Role, h: Handle, code: Option<int>) {
    s.Tracked(role) == Some(h) && code.Some? && code.value != 0 && s.state != Stopped && s.state != Error
  }

  /** The exit waiter of a process: it reports a failure only for the process still
      tracked in its role, with a non-zero code, while the session is running. */
  function OnExit(s: Session, role: Role, h: Handle, code: Option<int>): (r: Step)
    ensures r.after != s <==> UnexpectedExit(s, role, h, code)
    ensures UnexpectedExit(s, role, h, code) ==>
      && r.after == s.(state := Error) && r.statuses == [Error]
      && r.logs == ["ERROR: " + RoleName(role) + " exited unexpectedly with code " + IntToString(code.value)]
    ensures !UnexpectedExit(s, role, h, code) ==> r == Quiet(s)
    ensures r.launches == [] && r.kills == []
    ensures Valid(s) ==> Valid(r.after)
    ensures OnlyFreshTracked(s, r.after)
  {
    if s.Tracked(role) == Some(h) && code.Some? && code.value != 0 && s.state != Stopped && s.state != Error then
      Step(s.(state := Error),
           ["ERROR: " + RoleName(role) + " exited unexpectedly with code " + IntToString(code.value)],
           [Error], [], [])
    else Quiet(s)
  }

  /** Everything that can happen to the manager: a call of a public operation
      (with the outcome of its spawn) or an event of a background activity. */
  datatype Event =
    | StartTunnelACall(spawn: Spawn)
    | StartTunnelBCall(spawn: Spawn)
    | SetLocationCall(lat: string, lon: string, spawn: Spawn)
    | PlayRouteCall(gpx: string, noise: string, spawn: Spawn)
    | ClearLocationCall(run: Spawn)
    | StopServicesCall
    | OutputLine(role: Role, raw: string)
    | ProcessExit(role: Role, handle: Handle, code: Option<int>)

  function Apply(mode: Mode, s: Session, ev: Event): (r: Step)
    ensures Valid(s) ==> Valid(r.after)
    ensures OnlyFreshTracked(s, r.after)
  {
    match ev
    case StartTunnelACall(spawn) => StartTunnelA(mode, s, spawn)
    case StartTunnelBCall(spawn) => StartTunnelB(mode, s, spawn)
    case SetLocationCall(lat, lon, spawn) => SetLocation(mode, s, lat, lon, spawn)
    case PlayRouteCall(gpx, noise, spawn) => PlayRoute(mode, s, gpx, noise, spawn)
    case ClearLocationCall(run) => ClearLocation(mode, s, run)
    case StopServicesCall => StopServices(s)
    case OutputLine(role, raw) => OnOutput(s, role, raw)
    case ProcessExit(role, h, code) => OnExit(s, role, h, code)
  }

  /** The session after any interleaving of operations and events. */
  function Run(mode: Mode, s: Session, events: seq<Event>): (t: Session)
    ensures Valid(s) ==> Valid(t)
    ensures OnlyFreshTracked(s, t)
    decreases |events|
  {
    if events == [] then s else Run(mode, Apply(mode, s, events[0]).after, events[1..])
  }
}
