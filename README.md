# fraudX location prototype — a Dafny model

This project models the sequential core of a delivery-fraud prototype. Devices
send GPS pings. A location service classifies each ping against two
heuristics: a user far from the delivery point, and an impossible jump since
the device's previous ping. The service caches the last ping per device in
Redis, logs every ping to a Mongo collection and pushes socket events. A
separate check compares the GPS city with the IP city and with the device's
latest delivery point. A ping simulator walks devices along fixed routes, one
ping per tick, and keeps per-simulation statistics.

Modules, one per source file of the core:

- `Common` (common.dfy): optional values, results, coordinates, `Array.join`.
  It also holds the abstract great-circle distance `Distance`, a function
  parameter.
- `Fraud` (fraud.dfy): `isFar` and `isImpossibleJump` of utils/fraud.js, as
  functions over a distance and two millisecond timestamps.
- `CityMapper` (city_mapper.dfy): `mapCity` of utils/cityMapper.js. It is a
  first-match search over a city list, which is a parameter because
  cities.json is not part of this model.
- `Location` (location.dfy): the `/ping`, `/set-delivery` and `/check-fraud`
  handlers of routes/location.js.
  - The class `LocationService` holds three pieces of state: the Redis cache
    as a `map<string, LastPing>`, the collection as a `seq<LogRecord>` in
    insertion order, and a ghost trace of every cache, log and socket effect
    in order.
  - The handler is modelled against the `{flag, speed}` record it reads from
    each heuristic (`Check`), so it is a function of how the heuristics are
    wired. See Findings.
- `Simulator` (ping_simulator.dfy): services/pingSimulator.js.
  - `Tick` is the pure specification of one `_sendPing`, and `Run` of a
    sequence of ticks.
  - The classes `Simulation` (the record updated in place) and `PingSimulator`
    (the registry `map<string, Simulation>` plus a ghost event log) carry the
    imperative operations, which are proved against `Tick`.

JavaScript truthiness is modelled explicitly. An empty string, the number 0,
null and undefined are all falsy. So a `/ping` with timestamp 0 is rejected,
and a cached ping at latitude 0 skips the speed check.

Three consequences of the code are worth stating plainly, since a reader
might expect otherwise:

- the speed threshold is 40 km/h;
- two pings with equal timestamps flag as an impossible jump rather than
  being skipped;
- a coordinate of exactly 0 counts as missing wherever the code tests
  truthiness.

## Model

| member | source | states |
|---|---|---|
| Fraud.IsFar | utils/fraud.js:5-8 | The user is far iff the distance from the delivery point exceeds 0.5 km, strictly. For a symmetric distance the order of the two points does not matter. |
| Fraud.ElapsedHours | utils/fraud.js:13 | The elapsed time in hours is zero exactly when the timestamps are equal, and positive exactly when the new timestamp is later. |
| Fraud.IsImpossibleJump | utils/fraud.js:11-19 | Equal timestamps always flag, whatever the distance. For a later timestamp, it flags iff the distance covered exceeds 40 km per 3,600,000 ms elapsed, i.e. the speed is above 40 km/h. With a non-negative distance, an earlier timestamp never flags. |
| Fraud.StandingStillNeverFlags | utils/fraud.js:17-18 | Zero distance with distinct timestamps never flags. |
| CityMapper.MapCity | utils/cityMapper.js:4-11 | "Unknown" when no entry passes the box test. Otherwise the city of the first entry, in list order, that passes it. Either way the result is "Unknown" or the name of some entry. |
| CityMapper.UnknownIffNoneNear | utils/cityMapper.js:5-10 | When no entry is itself named "Unknown", the result is "Unknown" iff no entry passes the box test. |
| CityMapper.LaterEntriesIgnored | utils/cityMapper.js:5-7 | Once some entry matches, entries appended after it never change the result. |
| CityMapper.BoundaryIsOutside | utils/cityMapper.js:6 | A difference of exactly 0.2 degrees in either coordinate is not a match. |
| Location.PingRejection | routes/location.js:23-29 | A request is accepted iff its deviceId is a non-empty string, userCoords is present and timestamp is a non-zero number. Otherwise the answer is "deviceId is required" or "userCoords and timestamp are required", checked in that order. |
| Location.Classify | routes/location.js:33-69 | fraudTypes is an order-preserving subsequence of [GeoMismatch, ImpossibleJump]. GeoMismatch is present iff delivery coordinates were given and the far check flags. ImpossibleJump is present iff the cached ping has non-zero lat, lon and timestamp and the jump check flags. riskScore is 0.9 if ImpossibleJump, else 0.8 if GeoMismatch, else 0 (a maximum, never a sum). speed is the jump check's speed when that check runs, else null. |
| Location.ClassifyPing | routes/location.js:33-69 | The handler's step-by-step push and Math.max computation yields exactly Classify. |
| Location.FraudFlag | routes/location.js:84 | The log record's fraudFlag is null iff no signal fired. With both signals it is "GeoMismatch, ImpossibleJump", the names joined by ", " in the order they fired. |
| Location.Reported | routes/location.js:98 | fraudTypes in location_update and in the response (line 118): null iff no signal fired, otherwise the signal names in the order they fired. |
| Location.PingEffects | routes/location.js:37-114 | An accepted ping's effects, in order: read the cache, overwrite the device's entry with the new lat/lon/timestamp, append one log record carrying the risk score, emit location_update (fraudTypes null iff none fired), and emit fraud_alert iff some signal fired. |
| Location.PingRecordIsNotDeliveryPoint | routes/location.js:79-86 | A ping's log record has fraudFlag null, "GeoMismatch", "ImpossibleJump" or "GeoMismatch, ImpossibleJump", and never the "DeliveryPoint" marker. |
| Location.LatestDeliveryIndex | routes/location.js:160-163 | The position of the device's most recently inserted delivery-point record, or none iff there is no such record. |
| Location.LatestDeliveryPoint | routes/location.js:160-163 | The device's delivery-point record with no later one after it, or none iff the device has no delivery point. |
| Location.LatestIgnoresOtherRecords | routes/location.js:160-163 | Appending a record that is not a delivery point of the device leaves its latest delivery point unchanged. |
| Location.PingKeepsDeliveryPoint | routes/location.js:79-86 | Logging a ping never changes any device's latest delivery point. |
| Location.LocationService.Ping | routes/location.js:15-123 | A rejected request answers 400 and touches neither cache, log nor trace. An accepted one overwrites the cache entry, appends exactly PingRecord, performs exactly PingEffects, and answers with the classification (fraudTypes null when empty). |
| Location.LocationService.AcceptPing | routes/location.js:33-122 | The accepted path on its own: the same cache, log, trace and response as Ping. |
| Location.LocationService.SetDelivery | routes/location.js:132-146 | With a non-empty deviceId, a `Lat` and a `Lon` (the body's capitalised field names, so lowercase `lat`/`lon` count as missing) (the schema's required fields, models/locationLogs.js:3-12), it appends one "DeliveryPoint" record. The record carries the body's `city` as gpsCity and the current time, and becomes the device's latest delivery point. Otherwise nothing is stored and the answer is a validation failure. The cache is never touched. |
| Location.LocationService.CheckFraud | routes/location.js:149-194 | Any falsy field is rejected. gpsCity is mapCity(lat, lon). regionFraud iff ipCity differs from it. With no delivery point, geoFraud is false and distance null. Otherwise distance is the distance to the latest delivery point and geoFraud iff it exceeds 0.5 km; for a symmetric distance that is exactly isFar. |
| Location.AsWrittenNeverFlags | routes/location.js:40-64 | With the heuristics wired as written, which return booleans, no ping is ever classified as fraud. The risk score stays 0, and speed is undefined whenever the speed check runs. |
| Location.AsWrittenMissesFarDelivery | routes/location.js:41-47 | A delivery point for which isFar is true still yields no GeoMismatch. |
| Location.IntendedWiringClassifies | routes/location.js:40-64 | With heuristics returning {flag, speed}, GeoMismatch fires iff isFar, ImpossibleJump fires iff the speed check applies and isImpossibleJump, and speed is the computed km/h. |
| Location.RepeatedTimestampFlags | utils/fraud.js:13-15 | With the intended wiring, a ping repeating the cached timestamp is an ImpossibleJump scored 0.9. |
| Simulator.Routes | services/pingSimulator.js:11-42 | Exactly the modes normal, fast and teleport, with 10, 6 and 6 waypoints. All start at the same point, and no waypoint repeats the previous one. |
| Simulator.FoldStats | services/pingSimulator.js:121-127 | fraudsDetected grows by one iff the answer lists fraud types, and lastFraudType becomes their join. maxSpeed never decreases, bounds the reported speed, and only ever becomes that speed. |
| Simulator.Leg | services/pingSimulator.js:95-105 | The distance a tick adds: nothing at the first waypoint, otherwise the distance from the previous waypoint, never negative for a non-negative distance. |
| Simulator.Tick | services/pingSimulator.js:92-153 | The position stays inside the route. A failed ping keeps the distance leg added before sending, changes nothing else and emits exactly one ping-error. An answered ping counts once, folds its stats, advances the position and wraps to 0 at the end of the route with the distance reset. Its events are exactly ping-sent (with the waypoint, the new count, the answer, the distance and the stats), followed by one route-completed for the same device only on that wrap. Tick preserves Consistent. |
| Simulator.Run | services/pingSimulator.js:140-143 | After any sequence of ticks the position is inside the route. |
| Simulator.AdvanceIsMod | services/pingSimulator.js:140-145 | Stepping one waypoint at a time with wrap-around gives (start + steps) mod length as the position, and the quotient as the number of wraps. |
| Simulator.RunAdvances | services/pingSimulator.js:118-145 | Over any run, pingCount grows by the number of answered pings. The position and the route-completed count are those of stepping once per answered ping; failed pings do not move. |
| Simulator.RunCounts | services/pingSimulator.js:118-145 | Over any run, the position is (start + answered) mod route length, and route-completed fires (start + answered) div route length times. |
| Simulator.RunKeepsConsistent | services/pingSimulator.js:92-153 | Every state reachable from a consistent one is consistent. The position indexes the route, there are no more frauds than pings, a last fraud type exists iff a fraud was seen, and the totals are non-negative. |
| Simulator.LapsComplete | services/pingSimulator.js:140-145 | From a fresh start, after laps × length answered pings (with failures anywhere), the simulation is back at the first waypoint, with exactly laps route-completed events. |
| Simulator.PositionTracksPings | services/pingSimulator.js:118-145 | From a fresh start the position is always pingCount mod route length. |
| Simulator.Simulation.constructor | services/pingSimulator.js:58-74 | A new simulation is at position 0 with 0 pings, 0 distance, stats {0, null, 0}, running and consistent. |
| Simulator.Simulation.AddLeg | services/pingSimulator.js:94-105 | totalDistance grows by the leg from the previous waypoint, and not at all at the first waypoint. |
| Simulator.Simulation.CountAnswer | services/pingSimulator.js:118-127 | pingCount grows by exactly one, and stats become FoldStats of the answer. |
| Simulator.Simulation.NextWaypoint | services/pingSimulator.js:140-145 | The position advances by one. At the end of the route it wraps to 0, the distance is reset, and the method reports the wrap. |
| Simulator.PingSimulator.constructor | services/pingSimulator.js:5-9 | The registry starts empty. |
| Simulator.PingSimulator.StartSimulation | services/pingSimulator.js:44-90 | An already active device throws and nothing changes. Otherwise a mode other than normal, fast or teleport throws and nothing changes. Otherwise one fresh simulation is registered: mode defaults to normal, interval to 10 s and is stored ×1000, it starts in the initial state, and simulation-started is emitted. |
| Simulator.PingSimulator.SendPing | services/pingSimulator.js:92-153 | One tick updates the simulation in place to exactly Tick's state and emits exactly Tick's events. The registry and every consistency invariant are kept. |
| Simulator.PingSimulator.StopSimulation | services/pingSimulator.js:155-170 | An unknown device returns false and nothing changes. Otherwise it returns true, removes exactly that entry, marks it not running and emits simulation-stopped with its ping count and run time. |
| Simulator.PingSimulator.GetSimulation | services/pingSimulator.js:172-174 | The device's own running simulation, or null iff none is registered. |
| Simulator.PingSimulator.StopOne | services/pingSimulator.js:190-192 | One step of the stopAll loop: the stopped devices are not running, each is reported by exactly one stop event with its ping count and run time, and the registry shrinks. |
| Simulator.PingSimulator.StopAll | services/pingSimulator.js:188-194 | It returns the number of simulations active at the call (0 for an empty registry) and leaves the registry empty. Every simulation active at the call is no longer running. Exactly that many simulation-stopped events are appended, for pairwise distinct devices, each of which was active. Each event carries that simulation's ping count and `now` minus its start time, as stopSimulation reports them (lines 163-167). |

## Left out

- Haversine trigonometry (`_calculateDistance` and utils/haversine): floating point and trigonometry are not modelled. The distance is a function parameter. Non-negativity (`NonNegative`) and symmetry (`Symmetric`) are hypotheses of the few results that need them, not facts proved about haversine. utils/haversine is not part of this model.
- JavaScript numbers are modelled as exact reals and unbounded integers. Rounding of the speed division and `toFixed(2)` in `ping-sent` are not modelled.
- Timers and asynchrony: `setInterval`/`clearInterval` and the awaited HTTP call. A tick is one atomic `SendPing` whose ping outcome is a parameter. Overlapping ticks of one simulation, and a tick still in flight when its simulation stops, are concurrency concerns the model does not capture.
- Simulator.PingSimulator.StartSimulation: the first `_sendPing` that `startSimulation` fires straight away is modelled as an ordinary later `SendPing`. Before its await, that call changes nothing, because the position is 0 and no leg is added.
- `Date.now()` is a parameter (`now`) of StartSimulation, StopSimulation, StopAll and SetDelivery. The payload timestamp the simulator sends is not modelled, since the answer arrives as the outcome.
- Simulator.PingSimulator.StopAll: the order of the stop events, which is the Map's insertion order in JavaScript, is not modelled. The model stops the devices in an unspecified order.
- Redis and Mongo error paths: `getLastPing` and `saveLastPing` swallow errors, so a failing cache looks like a miss or a no-op. The model's cache never fails. A failed Mongo insert in `/ping` and the 500 answer of `/check-fraud` are not modelled. The 24-hour expiry of cache entries is not modelled.
- Location.LocationService.SetDelivery: when a required field is missing, Mongo's validation error is thrown out of the handler and the request gets no JSON answer. The model returns `ValidationFailed` instead, since the HTTP behaviour of an unhandled rejection is not modelled.
- `GET /logs`, `GET /delivery/:deviceId` and the health-check route are not modelled: they are queries with no decision logic. `getAllSimulations` is presentation only.
- The HTTP validation in routes/simulator.js is not modelled, because `startSimulation` itself does not rely on it. It accepts any deviceId and interval and checks the mode itself, so the model covers every input without a precondition. A mode naming an inherited JavaScript property (such as "toString") would pass the source's `routes[mode]` test. The model treats such a mode as invalid.
- Location.LocationService.Ping: `userCoords` is assumed to carry numeric `lat`/`lon`. A malformed object is not modelled, nor is mongoose casting strings to numbers.
- Simulator.PingSimulator.SendPing: the leg it adds must be non-negative (`Leg(...) >= 0.0`), so that the non-negative total distance stays an invariant. The haversine distance always satisfies this.
- The process wiring is not modelled: index.js, routes/dashboard.js, routes/simulator.js, the Socket.IO transport and the shutdown signals.

## Findings

| source | as written | input that shows it | evidently intended | confidence | as-written member | corrected member |
|---|---|---|---|---|---|---|
| routes/location.js:42-61 with utils/fraud.js:5-19 | The handler reads `.flag` and `.speed` from `isFar` and `isImpossibleJump`, which return bare booleans. A property read on a boolean is `undefined`, so no signal ever fires, the risk score is always 0 and `speed` becomes `undefined`. | deliveryCoords 0.6 km away from userCoords: isFar returns true, yet fraudTypes is empty | The heuristics return `{flag, speed}` records, so each signal fires exactly when its heuristic does | high (not executed) | Location.AsWrittenMissesFarDelivery | Location.IntendedWiringClassifies |
