/** services/pingSimulator.js: a registry of per-device route simulations and
    the tick that walks a route, sends one ping and folds the answer into the
    run statistics. Timers and the HTTP call are outside the model: a tick is
    one atomic call that receives the outcome of its ping as a parameter. */
module Simulator {
  import opened Common

  datatype Waypoint = Waypoint(name: string, lat: real, lon: real)

  function Pos(w: Waypoint): Coord
  {
    Coord(w.lat, w.lon)
  }

  const NormalRoute: seq<Waypoint> := [
    Waypoint("Shivajinagar Start", 18.5204, 73.8567),
    Waypoint("FC Road", 18.5218, 73.8577),
    Waypoint("JM Road", 18.5232, 73.8587),
    Waypoint("Deccan", 18.5246, 73.8597),
    Waypoint("Prabhat Road", 18.5260, 73.8607),
    Waypoint("Law College Road", 18.5274, 73.8617),
    Waypoint("Senapati Bapat", 18.5288, 73.8627),
    Waypoint("SB Road", 18.5302, 73.8637),
    Waypoint("University Circle", 18.5316, 73.8647),
    Waypoint("Pashan", 18.5330, 73.8657)
  ]

  const FastRoute: seq<Waypoint> := [
    Waypoint("Pune Start", 18.5204, 73.8567),
    Waypoint("Kothrud", 18.5304, 73.8667),
    Waypoint("Warje", 18.5404, 73.8767),
    Waypoint("Bavdhan", 18.5504, 73.8867),
    Waypoint("Hinjewadi", 18.5604, 73.8967),
    Waypoint("Mumbai Outskirts", 18.6204, 73.9567)
  ]

  const TeleportRoute: seq<Waypoint> := [
    Waypoint("Pune", 18.5204, 73.8567),
    Waypoint("Mumbai", 19.0760, 72.8777),
    Waypoint("Delhi", 28.7041, 77.1025),
    Waypoint("Bangalore", 12.9716, 77.5946),
    Waypoint("Kolkata", 22.5726, 88.3639),
    Waypoint("Chennai", 13.0827, 80.2707)
  ]

  /** `getRoutes()`: exactly the modes normal, fast and teleport, with routes of
      10, 6 and 6 waypoints that all start in Pune and never repeat a waypoint
      back to back. */
  function Routes(): (routes: map<string, seq<Waypoint>>)
    ensures routes.Keys == {"normal", "fast", "teleport"}
    ensures |routes["normal"]| == 10 && |routes["fast"]| == 6 && |routes["teleport"]| == 6
    ensures forall m :: m in routes ==> Pos(routes[m][0]) == Coord(18.5204, 73.8567)
    ensures forall m, i :: m in routes && 0 < i < |routes[m]| ==> Pos(routes[m][i - 1]) != Pos(routes[m][i])
  {
    map["normal" := NormalRoute, "fast" := FastRoute, "teleport" := TeleportRoute]
  }

  datatype Stats = Stats(fraudsDetected: nat, lastFraudType: Option<string>, maxSpeed: real)

  /** What one ping's HTTP call gave back: the response body's `fraudTypes`
      and `speed` (null or undefined read as None), or a thrown error. */
  datatype PingOutcome =
    | Delivered(fraudTypes: Option<seq<string>>, speed: Option<real>)
    | Failed(message: string)

  datatype SimEvent =
    | SimulationStarted(deviceId: string, mode: string, interval: int)
    | PingSent(deviceId: string, location: Waypoint, pingNumber: nat, fraudTypes: Option<seq<string>>,
               speed: Option<real>, totalDistance: real, stats: Stats)
    | RouteCompleted(deviceId: string)
    | PingError(deviceId: string, error: string)
    | SimulationStopped(deviceId: string, totalPings: nat, duration: int)

  predicate HasFraud(fraudTypes: Option<seq<string>>)
  {
    fraudTypes.Some? && |fraudTypes.value| > 0
  }

  /** The statistics after one answered ping: one more detected fraud exactly
      when the answer lists fraud types, and `maxSpeed` the least value that
      bounds both the old maximum and the reported speed. */
  function FoldStats(s: Stats, fraudTypes: Option<seq<string>>, speed: Option<real>): (r: Stats)
    ensures r.fraudsDetected == s.fraudsDetected + (if HasFraud(fraudTypes) then 1 else 0)
    ensures r.lastFraudType == if HasFraud(fraudTypes) then Some(Join(fraudTypes.value, ", ")) else s.lastFraudType
    ensures r.maxSpeed >= s.maxSpeed
    ensures s.maxSpeed >= 0.0 && speed.Some? ==> r.maxSpeed >= speed.value
    ensures r.maxSpeed == s.maxSpeed || (speed.Some? && r.maxSpeed == speed.value)
  {
    var frauds := if HasFraud(fraudTypes) then s.(fraudsDetected := s.fraudsDetected + 1,
                                                   lastFraudType := Some(Join(fraudTypes.value, ", ")))
                  else s;
    if speed.Some? && speed.value != 0.0 && speed.value > frauds.maxSpeed then frauds.(maxSpeed := speed.value)
    else frauds
  }

  /** The mutable part of a simulation. */
  datatype RunState = RunState(currentPosition: nat, pingCount: nat, totalDistance: real, stats: Stats)

  const Initial: RunState := RunState(0, 0, 0.0, Stats(0, None, 0.0))

  /** What every reachable state satisfies: the position indexes the route,
      no more frauds than pings, a last fraud type exactly when a fraud was
      seen, and no negative totals. */
  predicate Consistent(route: seq<Waypoint>, s: RunState)
  {
    && s.currentPosition < |route|
    && s.stats.fraudsDetected <= s.pingCount
    && (s.stats.lastFraudType.None? <==> s.stats.fraudsDetected == 0)
    && s.stats.maxSpeed >= 0.0
    && s.totalDistance >= 0.0
  }

  /** The distance from the previous waypoint to waypoint `i` (none for the first). */
  function Leg(route: seq<Waypoint>, i: nat, dist: Distance): (r: real)
    ensures i == 0 ==> r == 0.0
    ensures NonNegative(dist) ==> r >= 0.0
  {
    if 0 < i < |route| then dist(Pos(route[i - 1]), Pos(route[i])) else 0.0
  }

  /** The number of laps a sequence of events reports as finished. */
  function Completions(events: seq<SimEvent>): nat
  {
    if |events| == 0 then 0
    else (if events[0].RouteCompleted? then 1 else 0) + Completions(events[1..])
  }

  lemma {:induction false} CompletionsAppend(a: seq<SimEvent>, b: seq<SimEvent>)
    ensures Completions(a + b) == Completions(a) + Completions(b)
  {
    if |a| > 0 {
      assert (a + b)[1..] == a[1..] + b;
      CompletionsAppend(a[1..], b);
    } else {
      assert a + b == b;
    }
  }

  lemma MulAtLeast(k: int, n: int)
    requires k >= 1 && n > 0
    ensures k * n >= n
  {
  }

  /** Euclidean division is determined by any quotient/remainder pair. */
  lemma DivModUnique(x: int, n: int, q: int, r: int)
    requires n > 0 && 0 <= r < n && x == q * n + r
    ensures x / n == q && x % n == r
  {
    var q', r' := x / n, x % n;
    assert x == q' * n + r' && 0 <= r' < n;
    if q > q' {
      MulAtLeast(q - q', n);
      assert false;
    } else if q < q' {
      MulAtLeast(q' - q, n);
      assert false;
    }
  }

  datatype TickResult = TickResult(state: RunState, events: seq<SimEvent>)

  /** One tick of `_sendPing`. The leg to the current waypoint is added before
      the ping is sent, so a failed ping keeps it and changes nothing else; an
      answered ping counts, folds its answer into the statistics and advances
      the position, wrapping to 0 (with the distance reset and one
      `route-completed`) at the end of the route. */
  function Tick(deviceId: string, route: seq<Waypoint>, s: RunState, outcome: PingOutcome, dist: Distance): (r: TickResult)
    requires s.currentPosition < |route|
    ensures r.state.currentPosition < |route|
    ensures r.state.pingCount == s.pingCount + (if outcome.Delivered? then 1 else 0)
    ensures outcome.Delivered? ==>
              r.state.currentPosition == if s.currentPosition + 1 == |route| then 0 else s.currentPosition + 1
    ensures Completions(r.events) == if outcome.Delivered? && s.currentPosition + 1 == |route| then 1 else 0
    ensures outcome.Failed? ==>
              r.state == s.(totalDistance := s.totalDistance + Leg(route, s.currentPosition, dist)) &&
              r.events == [PingError(deviceId, outcome.message)]
    ensures outcome.Delivered? ==>
              && r.state.stats == FoldStats(s.stats, outcome.fraudTypes, outcome.speed)
              && r.state.totalDistance == (if r.state.currentPosition == 0 then 0.0
                                           else s.totalDistance + Leg(route, s.currentPosition, dist))
              && r.events == [PingSent(deviceId, route[s.currentPosition], r.state.pingCount,
                                       outcome.fraudTypes, outcome.speed,
                                       s.totalDistance + Leg(route, s.currentPosition, dist), r.state.stats)] +
                             (if s.currentPosition + 1 == |route| then [RouteCompleted(deviceId)] else [])
    ensures Consistent(route, s) && Leg(route, s.currentPosition, dist) >= 0.0 ==> Consistent(route, r.state)
  {
    var i := s.currentPosition;
    var location := route[i];
    var distance := s.totalDistance + Leg(route, i, dist);
    match outcome
    case Failed(message) =>
      TickResult(s.(totalDistance := distance), [PingError(deviceId, message)])
    case Delivered(fraudTypes, speed) =>
      var pingCount := s.pingCount + 1;
      var stats := FoldStats(s.stats, fraudTypes, speed);
      var sent := PingSent(deviceId, location, pingCount, fraudTypes, speed, distance, stats);
      if i + 1 >= |route| then
        var events := [sent, RouteCompleted(deviceId)];
        assert events[1..][1..] == [];
        TickResult(RunState(0, pingCount, 0.0, stats), events)
      else
        TickResult(RunState(i + 1, pingCount, distance, stats), [sent])
  }

  /** A run of consecutive ticks with the given ping outcomes. */
  function Run(deviceId: string, route: seq<Waypoint>, s: RunState, outcomes: seq<PingOutcome>, dist: Distance): (r: TickResult)
    requires s.currentPosition < |route|
    ensures r.state.currentPosition < |route|
    decreases |outcomes|
  {
    if |outcomes| == 0 then TickResult(s, [])
    else
      var t := Tick(deviceId, route, s, outcomes[0], dist);
      var rest := Run(deviceId, route, t.state, outcomes[1..], dist);
      TickResult(rest.state, t.events + rest.events)
  }

  function Answered(outcomes: seq<PingOutcome>): nat
  {
    if |outcomes| == 0 then 0
    else (if outcomes[0].Delivered? then 1 else 0) + Answered(outcomes[1..])
  }

  /** The arithmetic of one step: wrapping to 0 and counting a lap loses no ping. */
  lemma StepArith(n: int, c: int, k: int, c': int, laps: int)
    requires 0 <= c < n && k >= 0
    requires c' == (if c + 1 == n then 0 else c + 1)
    requires laps == (if c + 1 == n then 1 else 0)
    ensures (c' + k) % n == (c + 1 + k) % n
    ensures laps + (c' + k) / n == (c + 1 + k) / n
  {
    if c + 1 == n {
      DivModUnique(c + 1 + k, n, k / n + 1, k % n);
    }
  }

  /** The waypoint after `k` answered pings from waypoint `c` of an `n`-waypoint route. */
  function Advance(n: nat, c: nat, k: nat): nat
    decreases k
  {
    if k == 0 then c else Advance(n, if c + 1 == n then 0 else c + 1, k - 1)
  }

  /** How many times those `k` pings wrap around the end of the route. */
  function Laps(n: nat, c: nat, k: nat): nat
    decreases k
  {
    if k == 0 then 0
    else (if c + 1 == n then 1 else 0) + Laps(n, if c + 1 == n then 0 else c + 1, k - 1)
  }

  /** Stepping one waypoint at a time with wrap-around is division by the route length. */
  lemma {:induction false} AdvanceIsMod(n: nat, c: nat, k: nat)
    requires c < n
    ensures Advance(n, c, k) == (c + k) % n && Laps(n, c, k) == (c + k) / n
    decreases k
  {
    if k > 0 {
      var c' := if c + 1 == n then 0 else c + 1;
      AdvanceIsMod(n, c', k - 1);
      StepArith(n, c, k - 1, c', if c + 1 == n then 1 else 0);
    }
  }

  /** Over any run, failed pings do not count: the ping count grows by the
      number of answered pings, and the position and the `route-completed`
      laps are those of stepping once per answered ping. */
  lemma {:induction false} RunAdvances(deviceId: string, route: seq<Waypoint>, s: RunState, outcomes: seq<PingOutcome>, dist: Distance)
    requires s.currentPosition < |route|
    ensures var r := Run(deviceId, route, s, outcomes, dist);
            && r.state.pingCount == s.pingCount + Answered(outcomes)
            && r.state.currentPosition == Advance(|route|, s.currentPosition, Answered(outcomes))
            && Completions(r.events) == Laps(|route|, s.currentPosition, Answered(outcomes))
    decreases |outcomes|
  {
    if |outcomes| > 0 {
      var t := Tick(deviceId, route, s, outcomes[0], dist);
      var rest := Run(deviceId, route, t.state, outcomes[1..], dist);
      RunAdvances(deviceId, route, t.state, outcomes[1..], dist);
      CompletionsAppend(t.events, rest.events);
      var n, c, k := |route|, s.currentPosition, Answered(outcomes[1..]);
      if outcomes[0].Delivered? {
        assert Answered(outcomes) == k + 1;
        assert Advance(n, c, k + 1) == Advance(n, t.state.currentPosition, k);
        assert Laps(n, c, k + 1) == Completions(t.events) + Laps(n, t.state.currentPosition, k);
      } else {
        assert Answered(outcomes) == k && t.state.currentPosition == c && Completions(t.events) == 0;
      }
    }
  }

  /** The same in closed form: the position is the start plus the answered
      pings modulo the route length, and the laps their quotient. */
  lemma RunCounts(deviceId: string, route: seq<Waypoint>, s: RunState, outcomes: seq<PingOutcome>, dist: Distance)
    requires s.currentPosition < |route|
    ensures var r := Run(deviceId, route, s, outcomes, dist);
            && r.state.pingCount == s.pingCount + Answered(outcomes)
            && r.state.currentPosition == (s.currentPosition + Answered(outcomes)) % |route|
            && Completions(r.events) == (s.currentPosition + Answered(outcomes)) / |route|
  {
    RunAdvances(deviceId, route, s, outcomes, dist);
    AdvanceIsMod(|route|, s.currentPosition, Answered(outcomes));
  }

  /** Invariant: every state reachable from the initial one is consistent. */
  lemma {:induction false} RunKeepsConsistent(deviceId: string, route: seq<Waypoint>, s: RunState, outcomes: seq<PingOutcome>, dist: Distance)
    requires Consistent(route, s) && NonNegative(dist)
    ensures Consistent(route, Run(deviceId, route, s, outcomes, dist).state)
    decreases |outcomes|
  {
    if |outcomes| > 0 {
      var t := Tick(deviceId, route, s, outcomes[0], dist);
      RunKeepsConsistent(deviceId, route, t.state, outcomes[1..], dist);
    }
  }

  /** From a fresh start, after `laps` full routes' worth of answered pings
      (failures anywhere in between), the simulation is back at the first
      waypoint and `route-completed` has fired exactly `laps` times. */
  lemma LapsComplete(deviceId: string, route: seq<Waypoint>, outcomes: seq<PingOutcome>, laps: nat, dist: Distance)
    requires |route| > 0
    requires Answered(outcomes) == laps * |route|
    ensures var r := Run(deviceId, route, Initial, outcomes, dist);
            r.state.currentPosition == 0 && Completions(r.events) == laps
  {
    RunCounts(deviceId, route, Initial, outcomes, dist);
    DivModUnique(laps * |route|, |route|, laps, 0);
  }

  /** From a fresh start the position is always the number of answered pings
      modulo the route length. */
  lemma PositionTracksPings(deviceId: string, route: seq<Waypoint>, outcomes: seq<PingOutcome>, dist: Distance)
    requires |route| > 0
    ensures var r := Run(deviceId, route, Initial, outcomes, dist);
            r.state.currentPosition == r.state.pingCount % |route|
  {
    RunCounts(deviceId, route, Initial, outcomes, dist);
  }

  datatype StartOptions = StartOptions(mode: Option<string>, interval: Option<int>)

  datatype StartError = AlreadyActive(deviceId: string) | InvalidMode(mode: string)

  function ModeOf(options: StartOptions): string
  {
    if options.mode.Some? then options.mode.value else "normal"
  }

  function IntervalOf(options: StartOptions): int
  {
    if options.interval.Some? then options.interval.value else 10
  }

  /** The simulation record kept for one device. */
  class Simulation {
    const deviceId: string
    const mode: string
    const interval: int
    const route: seq<Waypoint>
    const startTime: int
    var currentPosition: nat
    var pingCount: nat
    var totalDistance: real
    var isRunning: bool
    var stats: Stats

    function State(): RunState
      reads this
    {
      RunState(currentPosition, pingCount, totalDistance, stats)
    }

    ghost predicate Valid()
      reads this
    {
      Consistent(route, State())
    }

    constructor (deviceId: string, mode: string, interval: int, route: seq<Waypoint>, startTime: int)
      requires |route| > 0
      ensures this.deviceId == deviceId && this.mode == mode && this.interval == interval
      ensures this.route == route && this.startTime == startTime
      ensures State() == Initial && isRunning && Valid()
    {
      this.deviceId := deviceId;
      this.mode := mode;
      this.interval := interval;
      this.route := route;
      this.startTime := startTime;
      currentPosition := 0;
      pingCount := 0;
      totalDistance := 0.0;
      isRunning := true;
      stats := Stats(0, None, 0.0);
    }

    /** `totalDistance += dist(prevLocation, location)`, past the first waypoint only. */
    method AddLeg(dist: Distance)
      requires currentPosition < |route|
      modifies this`totalDistance
      ensures totalDistance == old(totalDistance) + Leg(route, currentPosition, dist)
    {
      var location := route[currentPosition];
      if currentPosition > 0 {
        var prevLocation := route[currentPosition - 1];
        totalDistance := totalDistance + dist(Pos(prevLocation), Pos(location));
      }
    }

    /** `pingCount++` and the statistics updates for an answered ping. */
    method CountAnswer(fraudTypes: Option<seq<string>>, speed: Option<real>)
      modifies this`pingCount, this`stats
      ensures pingCount == old(pingCount) + 1
      ensures stats == FoldStats(old(stats), fraudTypes, speed)
    {
      pingCount := pingCount + 1;
      if fraudTypes.Some? && |fraudTypes.value| > 0 {
        stats := stats.(fraudsDetected := stats.fraudsDetected + 1,
                        lastFraudType := Some(Join(fraudTypes.value, ", ")));
      }
      if speed.Some? && speed.value != 0.0 && speed.value > stats.maxSpeed {
        stats := stats.(maxSpeed := speed.value);
      }
    }

    /** `currentPosition++`, back to 0 with the distance reset at the end of the route. */
    method NextWaypoint() returns (wrapped: bool)
      requires currentPosition < |route|
      modifies this`currentPosition, this`totalDistance
      ensures wrapped <==> old(currentPosition) + 1 == |route|
      ensures currentPosition == if wrapped then 0 else old(currentPosition) + 1
      ensures totalDistance == if wrapped then 0.0 else old(totalDistance)
    {
      currentPosition := currentPosition + 1;
      wrapped := currentPosition >= |route|;
      if wrapped {
        currentPosition := 0;
        totalDistance := 0.0;
      }
    }
  }

  /** The `PingSimulator` service: its map of active simulations and the
      events it has emitted. */
  class PingSimulator {
    var active: map<string, Simulation>
    ghost var emitted: seq<SimEvent>

    /** At most one simulation per device, registered under its own deviceId
        and still running. (Each simulation's own consistency is kept by the
        simulation: established when it is created, preserved by every tick.) */
    ghost predicate Valid()
      reads this, active.Values
    {
      forall d :: d in active ==> active[d].deviceId == d && active[d].isRunning
    }

    constructor ()
      ensures Valid() && active == map[] && emitted == []
    {
      active := map[];
      emitted := [];
    }

    /** `startSimulation(deviceId, {mode, interval})`, with `now` for `Date.now()`.
        A device that already has a simulation is refused first, then a mode
        that names no route; either way nothing changes. */
    method StartSimulation(deviceId: string, options: StartOptions, now: int) returns (r: Result<Simulation, StartError>)
      requires Valid()
      modifies this
      ensures Valid()
      ensures deviceId in old(active) ==>
                r == Failure(AlreadyActive(deviceId)) && active == old(active) && emitted == old(emitted)
      ensures deviceId !in old(active) && ModeOf(options) !in Routes() ==>
                r == Failure(InvalidMode(ModeOf(options))) && active == old(active) && emitted == old(emitted)
      ensures deviceId !in old(active) && ModeOf(options) in Routes() ==>
                && r.Success? && fresh(r.value)
                && active == old(active)[deviceId := r.value]
                && r.value.deviceId == deviceId && r.value.mode == ModeOf(options)
                && r.value.interval == IntervalOf(options) * 1000
                && r.value.route == Routes()[ModeOf(options)] && r.value.startTime == now
                && r.value.State() == Initial && r.value.isRunning && r.value.Valid()
                && emitted == old(emitted) + [SimulationStarted(deviceId, ModeOf(options), IntervalOf(options))]
    {
      var mode := ModeOf(options);
      var interval := IntervalOf(options);
      if deviceId in active {
        return Failure(AlreadyActive(deviceId));
      }
      var routes := Routes();
      if mode !in routes {
        return Failure(InvalidMode(mode));
      }
      var simulation := new Simulation(deviceId, mode, interval * 1000, routes[mode], now);
      active := active[deviceId := simulation];
      emitted := emitted + [SimulationStarted(deviceId, mode, interval)];
      r := Success(simulation);
    }

    /** `_sendPing(simulation)`: one tick, whose ping got `outcome`. It updates
        the simulation in place as `Tick` describes and emits its events; the
        registry itself is untouched. */
    method SendPing(sim: Simulation, outcome: PingOutcome, dist: Distance)
      requires Valid() && sim.Valid()
      requires Leg(sim.route, sim.currentPosition, dist) >= 0.0
      modifies this`emitted, sim`currentPosition, sim`pingCount, sim`totalDistance, sim`stats
      ensures Valid() && sim.Valid()
      ensures sim.State() == Tick(sim.deviceId, sim.route, old(sim.State()), outcome, dist).state
      ensures emitted == old(emitted) + Tick(sim.deviceId, sim.route, old(sim.State()), outcome, dist).events
    {
      ghost var t := Tick(sim.deviceId, sim.route, sim.State(), outcome, dist);
      assert Consistent(sim.route, t.state);
      var location := sim.route[sim.currentPosition];
      sim.AddLeg(dist);

      match outcome {
        case Failed(message) =>
          emitted := emitted + [PingError(sim.deviceId, message)];
        case Delivered(fraudTypes, speed) =>
          sim.CountAnswer(fraudTypes, speed);
          emitted := emitted + [PingSent(sim.deviceId, location, sim.pingCount, fraudTypes, speed,
                                         sim.totalDistance, sim.stats)];
          var wrapped := sim.NextWaypoint();
          if wrapped {
            emitted := emitted + [RouteCompleted(sim.deviceId)];
          }
      }
      assert sim.State() == t.state;
    }

    /** The simulation registered for `deviceId`, if any. */
    function SimulationOf(deviceId: string): set<Simulation>
      reads this
    {
      if deviceId in active then {active[deviceId]} else {}
    }

    /** The `simulation-stopped` event `stopSimulation` emits for `sim`,
        registered under `deviceId`, at time `now`. */
    function StopEvent(deviceId: string, sim: Simulation, now: int): SimEvent
      reads sim
    {
      SimulationStopped(deviceId, sim.pingCount, now - sim.startTime)
    }

    /** `stopSimulation(deviceId)`, with `now` for `Date.now()`: false and no
        change for an unknown device; otherwise that entry alone is removed,
        marked not running and reported with its ping count and run time. */
    method StopSimulation(deviceId: string, now: int) returns (found: bool)
      requires Valid()
      modifies this, SimulationOf(deviceId)`isRunning
      ensures Valid()
      ensures found <==> deviceId in old(active)
      ensures active == old(active) - {deviceId}
      ensures !found ==> emitted == old(emitted)
      ensures found ==>
                var sim := old(active[deviceId]);
                !sim.isRunning &&
                emitted == old(emitted) + [StopEvent(deviceId, sim, now)]
    {
      if deviceId !in active {
        return false;
      }
      var simulation := active[deviceId];
      simulation.isRunning := false;
      active := active - {deviceId};
      emitted := emitted + [SimulationStopped(deviceId, simulation.pingCount, now - simulation.startTime)];
      found := true;
    }

    /** `getSimulation(deviceId)`: the device's own running simulation, or null. */
    function GetSimulation(deviceId: string): (r: Option<Simulation>)
      reads this, active.Values
      requires Valid()
      ensures r.Some? <==> deviceId in active
      ensures r.Some? ==> r.value in active.Values && r.value.deviceId == deviceId && r.value.isRunning
    {
      if deviceId in active then Some(active[deviceId]) else None
    }

    /** What `stopAll` has done so far: the devices no longer registered are
        stopped, and each is reported by exactly one stop event carrying its
        ping count and run time, appended in the order the devices were
        stopped. */
    ghost predicate Progress(before: map<string, Simulation>, start: seq<SimEvent>, added: seq<SimEvent>, now: int)
      reads this, before.Values
    {
      && (forall d :: d in active ==> d in before && active[d] == before[d])
      && (forall d :: d in before && d !in active ==> !before[d].isRunning)
      && emitted == start + added
      && |added| + |active| == |before|
      && (forall k :: 0 <= k < |added| ==>
            && added[k].deviceId in before && added[k].deviceId !in active
            && added[k] == StopEvent(added[k].deviceId, before[added[k].deviceId], now))
      && (forall i, j :: 0 <= i < j < |added| ==> added[i].deviceId != added[j].deviceId)
    }

    /** One step of `stopAll`: `stopSimulation` on a registered device. */
    method StopOne(d: string, now: int, ghost before: map<string, Simulation>, ghost start: seq<SimEvent>,
                   ghost added: seq<SimEvent>) returns (ghost added': seq<SimEvent>)
      requires Valid() && d in active && Progress(before, start, added, now)
      modifies this, SimulationOf(d)`isRunning
      ensures Valid() && Progress(before, start, added', now)
      ensures |active| < old(|active|)
    {
      ghost var e := StopEvent(d, before[d], now);
      var found := StopSimulation(d, now);
      added' := added + [e];
      assert forall k :: 0 <= k < |added| ==> added'[k] == added[k];
    }

    /** `stopAll()`: stops every simulation active at call time, emitting one
        `simulation-stopped` per device, and returns how many there were. */
    method StopAll(now: int) returns (count: nat)
      requires Valid()
      modifies this, active.Values`isRunning
      ensures Valid()
      ensures count == old(|active|)
      ensures active == map[]
      ensures forall d :: d in old(active) ==> !old(active)[d].isRunning
      ensures |emitted| == old(|emitted|) + count && emitted[..old(|emitted|)] == old(emitted)
      ensures forall k :: old(|emitted|) <= k < |emitted| ==>
                emitted[k].SimulationStopped? && emitted[k].deviceId in old(active) &&
                emitted[k] == StopEvent(emitted[k].deviceId, old(active)[emitted[k].deviceId], now)
      ensures forall i, j :: old(|emitted|) <= i < j < |emitted| ==> emitted[i].deviceId != emitted[j].deviceId
    {
      count := |active|;
      ghost var before := active;
      ghost var added: seq<SimEvent> := [];
      while active != map[]
        invariant Valid() && Progress(before, old(emitted), added, now)
        decreases |active|
      {
        var d :| d in active;
        added := StopOne(d, now, before, old(emitted), added);
      }
    }
  }
}
