/** routes/location.js: the `/ping` classification step with its cache, log
    and socket effects, the `/set-delivery` record and the `/check-fraud`
    decision. The Redis cache is a map, the Mongo collection a sequence in
    insertion order, and the effects on the outside world a ghost trace. */
module Location {
  import opened Common
  import Fraud
  import CityMapper

  datatype FraudKind = GeoMismatch | ImpossibleJump

  function KindName(k: FraudKind): string
  {
    match k
    case GeoMismatch => "GeoMismatch"
    case ImpossibleJump => "ImpossibleJump"
  }

  function Names(ks: seq<FraudKind>): (r: seq<string>)
    ensures |r| == |ks|
  {
    seq(|ks|, i requires 0 <= i < |ks| => KindName(ks[i]))
  }

  /** What a JavaScript read of `speed` can give: null, undefined or a number (km/h). */
  datatype Speed = Null | Undefined | Kmh(kmh: real)

  /** The two fields the handler reads from a heuristic's result: `.flag` and `.speed`. */
  datatype Check = Check(flag: bool, speed: Speed)

  /** How the handler calls `isFar(deliveryCoords, userCoords)`. */
  type FarCheck = (Coord, Coord) -> Check
  /** How the handler calls `isImpossibleJump(prevCoords, prevTime, newCoords, newTime)`. */
  type JumpCheck = (Coord, int, Coord, int) -> Check

  /** The value kept in Redis under `lastPing:<deviceId>`. */
  datatype LastPing = LastPing(lat: real, lon: real, timestamp: int)

  /** The body of POST /ping; every field may be missing. */
  datatype PingRequest = PingRequest(
    deviceId: Option<string>,
    userCoords: Option<Coord>,
    deliveryCoords: Option<Coord>,
    timestamp: Option<int>)

  /** A document of the LocationLog collection (models/locationLogs.js). */
  datatype LogRecord = LogRecord(
    deviceId: string,
    lat: real,
    lon: real,
    timestamp: Option<int>,
    ipCity: Option<string>,
    gpsCity: Option<string>,
    fraudFlag: Option<string>,
    riskScore: Option<real>)

  datatype SocketEvent =
    | LocationUpdate(deviceId: string, lat: real, lon: real, fraudTypes: Option<seq<string>>,
                     riskScore: real, speed: Speed, timestamp: int)
    | FraudAlert(deviceId: string, alertTypes: seq<string>, riskScore: real, speed: Speed,
                 lat: real, lon: real, timestamp: int)

  /** One interaction of a handler with Redis, Mongo or Socket.IO, in the order it happens. */
  datatype Effect =
    | CacheRead(deviceId: string)
    | CacheWrite(deviceId: string, entry: LastPing)
    | LogAppend(record: LogRecord)
    | Emit(event: SocketEvent)

  datatype PingResponse =
    | BadRequest(error: string)
    | Accepted(fraudTypes: Option<seq<string>>, riskScore: real, speed: Speed, deviceId: string)

  const DeviceIdRequired: string := "deviceId is required"
  const CoordsAndTimeRequired: string := "userCoords and timestamp are required"
  const DeliveryPointFlag: string := "DeliveryPoint"
  const GeoMismatchScore: real := 0.8
  const ImpossibleJumpScore: real := 0.9

  /** JavaScript truthiness of a string field and of a numeric field. */
  predicate TruthyString(s: Option<string>) { s.Some? && s.value != "" }
  predicate TruthyInt(n: Option<int>) { n.Some? && n.value != 0 }
  predicate TruthyReal(x: Option<real>) { x.Some? && x.value != 0.0 }

  /** The 400 answer a /ping request gets, if any. */
  function PingRejection(req: PingRequest): (r: Option<string>)
    ensures r.None? <==> TruthyString(req.deviceId) && req.userCoords.Some? && TruthyInt(req.timestamp)
    ensures !TruthyString(req.deviceId) ==> r == Some(DeviceIdRequired)
    ensures TruthyString(req.deviceId) && (req.userCoords.None? || !TruthyInt(req.timestamp)) ==>
              r == Some(CoordsAndTimeRequired)
  {
    if !TruthyString(req.deviceId) then Some(DeviceIdRequired)
    else if req.userCoords.None? || !TruthyInt(req.timestamp) then Some(CoordsAndTimeRequired)
    else None
  }

  /** The speed check runs only when the cached ping has a truthy lat, lon and timestamp. */
  predicate SpeedCheckApplies(last: Option<LastPing>)
  {
    last.Some? && last.value.lat != 0.0 && last.value.lon != 0.0 && last.value.timestamp != 0
  }

  function LastCoord(p: LastPing): Coord
  {
    Coord(p.lat, p.lon)
  }

  datatype Classification = Classification(fraudTypes: seq<FraudKind>, riskScore: real, speed: Speed)

  /** The classification the /ping handler computes from the request and the
      cached previous ping. The risk score is the largest severity among the
      signals that fired, never their sum. */
  function Classify(user: Coord, delivery: Option<Coord>, timestamp: int, last: Option<LastPing>,
                    far: FarCheck, jump: JumpCheck): (c: Classification)
    ensures c.fraudTypes in [[], [GeoMismatch], [ImpossibleJump], [GeoMismatch, ImpossibleJump]]
    ensures GeoMismatch in c.fraudTypes <==> delivery.Some? && far(delivery.value, user).flag
    ensures ImpossibleJump in c.fraudTypes <==>
              SpeedCheckApplies(last) && jump(LastCoord(last.value), last.value.timestamp, user, timestamp).flag
    ensures c.riskScore == if ImpossibleJump in c.fraudTypes then ImpossibleJumpScore
                           else if GeoMismatch in c.fraudTypes then GeoMismatchScore
                           else 0.0
    ensures c.speed == if SpeedCheckApplies(last)
                       then jump(LastCoord(last.value), last.value.timestamp, user, timestamp).speed
                       else Null
  {
    var geo := delivery.Some? && far(delivery.value, user).flag;
    var jumpResult := if SpeedCheckApplies(last)
                      then Some(jump(LastCoord(last.value), last.value.timestamp, user, timestamp))
                      else None;
    var jumped := jumpResult.Some? && jumpResult.value.flag;
    var geoScore := Max(0.0, if geo then GeoMismatchScore else 0.0);
    var types := (if geo then [GeoMismatch] else []) + (if jumped then [ImpossibleJump] else []);
    assert types == if geo && jumped then [GeoMismatch, ImpossibleJump]
                    else if geo then [GeoMismatch] else if jumped then [ImpossibleJump] else [];
    Classification(
      types,
      Max(geoScore, if jumped then ImpossibleJumpScore else 0.0),
      if jumpResult.Some? then jumpResult.value.speed else Null)
  }

  /** `fraudFlag` of the log record: the names joined by ", ", or null. */
  function FraudFlag(types: seq<FraudKind>): (r: Option<string>)
    ensures r.None? <==> types == []
    ensures types == [GeoMismatch, ImpossibleJump] ==> r == Some("GeoMismatch, ImpossibleJump")
  {
    if |types| > 0 then
      var names := Names(types);
      assert types == [GeoMismatch, ImpossibleJump] ==> Join(names, ", ") == "GeoMismatch, ImpossibleJump" by {
        if types == [GeoMismatch, ImpossibleJump] {
          assert names == ["GeoMismatch", "ImpossibleJump"] && names[1..] == ["ImpossibleJump"];
          assert Join(names, ", ") == "GeoMismatch" + ", " + "ImpossibleJump";
        }
      }
      Some(Join(names, ", "))
    else None
  }

  /** `fraudTypes` as reported to clients: null when empty. */
  function Reported(types: seq<FraudKind>): (r: Option<seq<string>>)
    ensures r.None? <==> types == []
    ensures r.Some? ==> |r.value| == |types| && forall i :: 0 <= i < |types| ==> r.value[i] == KindName(types[i])
  {
    if |types| > 0 then Some(Names(types)) else None
  }

  function PingRecord(deviceId: string, user: Coord, timestamp: int, c: Classification): LogRecord
  {
    LogRecord(deviceId, user.lat, user.lon, Some(timestamp), None, None, FraudFlag(c.fraudTypes), Some(c.riskScore))
  }

  /** Everything an accepted ping does, in order: read the cache, overwrite
      the device's entry, append one log record, emit `location_update`, and
      emit `fraud_alert` exactly when a signal fired. */
  function PingEffects(deviceId: string, user: Coord, timestamp: int, c: Classification): (effs: seq<Effect>)
    ensures 4 <= |effs| <= 5
    ensures effs[0] == CacheRead(deviceId)
    ensures effs[1] == CacheWrite(deviceId, LastPing(user.lat, user.lon, timestamp))
    ensures effs[2].LogAppend? && effs[2].record.deviceId == deviceId && effs[2].record.riskScore == Some(c.riskScore)
    ensures effs[3].Emit? && effs[3].event.LocationUpdate?
    ensures (effs[3].event.fraudTypes == None) <==> c.fraudTypes == []
    ensures |effs| == 5 <==> c.fraudTypes != []
    ensures |effs| == 5 ==> effs[4].Emit? && effs[4].event.FraudAlert? && effs[4].event.alertTypes == Names(c.fraudTypes)
  {
    var update := LocationUpdate(deviceId, user.lat, user.lon, Reported(c.fraudTypes), c.riskScore, c.speed, timestamp);
    var base := [CacheRead(deviceId), CacheWrite(deviceId, LastPing(user.lat, user.lon, timestamp)),
                 LogAppend(PingRecord(deviceId, user, timestamp, c)), Emit(update)];
    if |c.fraudTypes| > 0 then
      base + [Emit(FraudAlert(deviceId, Names(c.fraudTypes), c.riskScore, c.speed, user.lat, user.lon, timestamp))]
    else base
  }

  /** `PingEffects` as the four effects every accepted ping has, followed by
      the alert when one is due. */
  lemma PingEffectsSplit(deviceId: string, user: Coord, timestamp: int, c: Classification)
    ensures PingEffects(deviceId, user, timestamp, c) ==
              [CacheRead(deviceId), CacheWrite(deviceId, LastPing(user.lat, user.lon, timestamp)),
               LogAppend(PingRecord(deviceId, user, timestamp, c)),
               Emit(LocationUpdate(deviceId, user.lat, user.lon, Reported(c.fraudTypes), c.riskScore, c.speed, timestamp))] +
              (if |c.fraudTypes| > 0
               then [Emit(FraudAlert(deviceId, Names(c.fraudTypes), c.riskScore, c.speed, user.lat, user.lon, timestamp))]
               else [])
  {
  }

  /** A `/ping` log record never carries the "DeliveryPoint" marker, so the
      delivery-point lookup cannot pick one up. */
  lemma PingRecordIsNotDeliveryPoint(deviceId: string, user: Coord, timestamp: int, c: Classification)
    requires c.fraudTypes in [[], [GeoMismatch], [ImpossibleJump], [GeoMismatch, ImpossibleJump]]
    ensures PingRecord(deviceId, user, timestamp, c).fraudFlag in
              {None, Some("GeoMismatch"), Some("ImpossibleJump"), Some("GeoMismatch, ImpossibleJump")}
    ensures PingRecord(deviceId, user, timestamp, c).fraudFlag != Some(DeliveryPointFlag)
  {
    var ns := Names(c.fraudTypes);
    if |c.fraudTypes| == 2 {
      assert c.fraudTypes == [GeoMismatch, ImpossibleJump];
      assert ns == ["GeoMismatch", "ImpossibleJump"];
      assert ns[1..] == ["ImpossibleJump"];
      assert Join(ns, ", ") == "GeoMismatch" + ", " + "ImpossibleJump" == "GeoMismatch, ImpossibleJump";
    } else if |c.fraudTypes| == 1 {
      assert ns == [KindName(c.fraudTypes[0])];
    }
  }

  predicate IsDeliveryPointOf(r: LogRecord, deviceId: string)
  {
    r.deviceId == deviceId && r.fraudFlag == Some(DeliveryPointFlag)
  }

  /** The position in the log of the device's most recently inserted delivery point. */
  function LatestDeliveryIndex(log: seq<LogRecord>, deviceId: string): (r: Option<nat>)
    ensures r.None? <==> forall i :: 0 <= i < |log| ==> !IsDeliveryPointOf(log[i], deviceId)
    ensures r.Some? ==> r.value < |log| && IsDeliveryPointOf(log[r.value], deviceId) &&
                        forall j :: r.value < j < |log| ==> !IsDeliveryPointOf(log[j], deviceId)
  {
    if |log| == 0 then None
    else if IsDeliveryPointOf(log[|log| - 1], deviceId) then Some(|log| - 1)
    else
      var init := log[..|log| - 1];
      assert forall i :: 0 <= i < |init| ==> init[i] == log[i];
      LatestDeliveryIndex(init, deviceId)
  }

  /** `findOne({deviceId, fraudFlag: "DeliveryPoint"}).sort({_id: -1})`: the
      most recently inserted delivery point of the device. */
  function LatestDeliveryPoint(log: seq<LogRecord>, deviceId: string): (r: Option<LogRecord>)
    ensures r.None? <==> forall i :: 0 <= i < |log| ==> !IsDeliveryPointOf(log[i], deviceId)
    ensures r.Some? ==> exists i :: 0 <= i < |log| && log[i] == r.value && IsDeliveryPointOf(log[i], deviceId) &&
                          forall j :: i < j < |log| ==> !IsDeliveryPointOf(log[j], deviceId)
  {
    match LatestDeliveryIndex(log, deviceId)
    case None => None
    case Some(i) => Some(log[i])
  }

  /** Appending a record that is not a delivery point of the device leaves its
      latest delivery point unchanged. */
  lemma LatestIgnoresOtherRecords(log: seq<LogRecord>, r: LogRecord, deviceId: string)
    requires !IsDeliveryPointOf(r, deviceId)
    ensures LatestDeliveryPoint(log + [r], deviceId) == LatestDeliveryPoint(log, deviceId)
  {
    assert (log + [r])[..|log + [r]| - 1] == log;
    assert LatestDeliveryIndex(log + [r], deviceId) == LatestDeliveryIndex(log, deviceId);
  }

  /** A `/ping` never moves a device's delivery point: whatever it logs, the
      latest delivery point `/check-fraud` compares against stays the same. */
  lemma PingKeepsDeliveryPoint(log: seq<LogRecord>, deviceId: string, pinger: string, user: Coord,
                               timestamp: int, c: Classification)
    requires c.fraudTypes in [[], [GeoMismatch], [ImpossibleJump], [GeoMismatch, ImpossibleJump]]
    ensures LatestDeliveryPoint(log + [PingRecord(pinger, user, timestamp, c)], deviceId) == LatestDeliveryPoint(log, deviceId)
  {
    PingRecordIsNotDeliveryPoint(pinger, user, timestamp, c);
    LatestIgnoresOtherRecords(log, PingRecord(pinger, user, timestamp, c), deviceId);
  }

  datatype CheckFraudRequest = CheckFraudRequest(
    deviceId: Option<string>, lat: Option<real>, lon: Option<real>, ipCity: Option<string>)

  datatype CheckFraudResponse =
    | MissingFields
    | FraudReport(gpsCity: string, regionFraud: bool, geoFraud: bool, distance: Option<real>)

  predicate CheckFraudAccepted(req: CheckFraudRequest)
  {
    TruthyString(req.deviceId) && TruthyReal(req.lat) && TruthyReal(req.lon) && TruthyString(req.ipCity)
  }

  datatype SetDeliveryResult = Stored(storedId: nat) | ValidationFailed

  /** `getLastPing(deviceId)`: a miss is null. */
  function Lookup(cache: map<string, LastPing>, deviceId: string): (r: Option<LastPing>)
  {
    if deviceId in cache then Some(cache[deviceId]) else None
  }

  /** The classification part of the /ping handler as the source performs it:
      `fraudTypes` grows by `push`, `riskScore` is raised with `Math.max` and
      `speed` starts null and takes the jump check's value. */
  method ClassifyPing(user: Coord, delivery: Option<Coord>, timestamp: int, lastPing: Option<LastPing>,
                      far: FarCheck, jump: JumpCheck)
    returns (fraudTypes: seq<FraudKind>, riskScore: real, speed: Speed)
    ensures Classification(fraudTypes, riskScore, speed) == Classify(user, delivery, timestamp, lastPing, far, jump)
  {
    fraudTypes, riskScore, speed := [], 0.0, Null;

    if delivery.Some? {
      var distanceCheck := far(delivery.value, user);
      if distanceCheck.flag {
        fraudTypes := fraudTypes + [GeoMismatch];
        riskScore := Max(riskScore, GeoMismatchScore);
      }
    }

    if SpeedCheckApplies(lastPing) {
      var jumpCheck := jump(LastCoord(lastPing.value), lastPing.value.timestamp, user, timestamp);
      speed := jumpCheck.speed;
      if jumpCheck.flag {
        fraudTypes := fraudTypes + [ImpossibleJump];
        riskScore := Max(riskScore, ImpossibleJumpScore);
      }
    }
  }

  /** The Redis cache, the LocationLog collection and the trace of effects the
      location routes produce. */
  class LocationService {
    var cache: map<string, LastPing>
    var log: seq<LogRecord>
    ghost var trace: seq<Effect>

    constructor ()
      ensures cache == map[] && log == [] && trace == []
    {
      cache := map[];
      log := [];
      trace := [];
    }

    /** POST /ping with the heuristics wired as `far` and `jump`. A rejected
        request touches nothing; an accepted one reads the cache, overwrites the
        device's entry, appends one log record and then emits its events. */
    method Ping(req: PingRequest, far: FarCheck, jump: JumpCheck) returns (resp: PingResponse)
      modifies this
      ensures PingRejection(req).Some? ==>
                resp == BadRequest(PingRejection(req).value) &&
                cache == old(cache) && log == old(log) && trace == old(trace)
      ensures PingRejection(req).None? ==>
                var id := req.deviceId.value;
                var user := req.userCoords.value;
                var ts := req.timestamp.value;
                var c := Classify(user, req.deliveryCoords, ts, Lookup(old(cache), id), far, jump);
                && cache == old(cache)[id := LastPing(user.lat, user.lon, ts)]
                && log == old(log) + [PingRecord(id, user, ts, c)]
                && trace == old(trace) + PingEffects(id, user, ts, c)
                && resp == Accepted(Reported(c.fraudTypes), c.riskScore, c.speed, id)
    {
      if !TruthyString(req.deviceId) {
        return BadRequest(DeviceIdRequired);
      }
      if req.userCoords.None? || !TruthyInt(req.timestamp) {
        return BadRequest(CoordsAndTimeRequired);
      }
      resp := AcceptPing(req.deviceId.value, req.userCoords.value, req.deliveryCoords, req.timestamp.value, far, jump);
    }

    /** The accepted path of `POST /ping`: read the device's last ping, classify,
        cache the new ping, append its log record and emit its events. */
    method AcceptPing(deviceId: string, userCoords: Coord, deliveryCoords: Option<Coord>, timestamp: int,
                      far: FarCheck, jump: JumpCheck) returns (resp: PingResponse)
      modifies this
      ensures var c := Classify(userCoords, deliveryCoords, timestamp, Lookup(old(cache), deviceId), far, jump);
              && cache == old(cache)[deviceId := LastPing(userCoords.lat, userCoords.lon, timestamp)]
              && log == old(log) + [PingRecord(deviceId, userCoords, timestamp, c)]
              && trace == old(trace) + PingEffects(deviceId, userCoords, timestamp, c)
              && resp == Accepted(Reported(c.fraudTypes), c.riskScore, c.speed, deviceId)
    {
      var lastPing := Lookup(cache, deviceId);
      trace := trace + [CacheRead(deviceId)];

      var fraudTypes, riskScore, speed := ClassifyPing(userCoords, deliveryCoords, timestamp, lastPing, far, jump);
      ghost var c := Classification(fraudTypes, riskScore, speed);

      var entry := LastPing(userCoords.lat, userCoords.lon, timestamp);
      cache := cache[deviceId := entry];
      trace := trace + [CacheWrite(deviceId, entry)];

      var record := LogRecord(deviceId, userCoords.lat, userCoords.lon, Some(timestamp), None, None,
                              FraudFlag(fraudTypes), Some(riskScore));
      assert record == PingRecord(deviceId, userCoords, timestamp, c);
      log := log + [record];
      trace := trace + [LogAppend(record)];

      var reported := Reported(fraudTypes);
      var update := LocationUpdate(deviceId, userCoords.lat, userCoords.lon, reported, riskScore, speed, timestamp);
      trace := trace + [Emit(update)];
      ghost var common := [CacheRead(deviceId), CacheWrite(deviceId, entry), LogAppend(record), Emit(update)];
      assert trace == old(trace) + common;
      PingEffectsSplit(deviceId, userCoords, timestamp, c);
      if |fraudTypes| > 0 {
        trace := trace + [Emit(FraudAlert(deviceId, Names(fraudTypes), riskScore, speed, userCoords.lat, userCoords.lon, timestamp))];
      }
      assert trace == old(trace) + PingEffects(deviceId, userCoords, timestamp, c);

      resp := Accepted(reported, riskScore, speed, deviceId);
    }

    /** POST /set-delivery: stores a reference point tagged "DeliveryPoint".
        `lat` and `lon` are the body fields `Lat` and `Lon`, capitalised unlike
        every other route, so a client sending lowercase `lat`/`lon` leaves
        them missing. The collection's schema requires a non-empty deviceId, a
        lat and a lon; without them nothing is stored. */
    method SetDelivery(deviceId: Option<string>, lat: Option<real>, lon: Option<real>, city: Option<string>, now: int)
      returns (r: SetDeliveryResult)
      modifies this
      ensures cache == old(cache)
      ensures !(TruthyString(deviceId) && lat.Some? && lon.Some?) ==>
                r == ValidationFailed && log == old(log) && trace == old(trace)
      ensures TruthyString(deviceId) && lat.Some? && lon.Some? ==>
                var record := LogRecord(deviceId.value, lat.value, lon.value, Some(now), None, city,
                                        Some(DeliveryPointFlag), None);
                && r == Stored(|old(log)|)
                && log == old(log) + [record]
                && trace == old(trace) + [LogAppend(record)]
                && LatestDeliveryPoint(log, deviceId.value) == Some(record)
    {
      if !(TruthyString(deviceId) && lat.Some? && lon.Some?) {
        return ValidationFailed;
      }
      var record := LogRecord(deviceId.value, lat.value, lon.value, Some(now), None, city,
                              Some(DeliveryPointFlag), None);
      r := Stored(|log|);
      log := log + [record];
      trace := trace + [LogAppend(record)];
    }

    /** POST /check-fraud: compares the IP city with the city of the GPS fix and
        the GPS fix with the device's latest delivery point. */
    method CheckFraud(req: CheckFraudRequest, cities: seq<CityMapper.City>, dist: Distance)
      returns (resp: CheckFraudResponse)
      ensures !CheckFraudAccepted(req) ==> resp == MissingFields
      ensures CheckFraudAccepted(req) ==>
                var here := Coord(req.lat.value, req.lon.value);
                var delivery := LatestDeliveryPoint(log, req.deviceId.value);
                && resp.FraudReport?
                && resp.gpsCity == CityMapper.MapCity(cities, here.lat, here.lon)
                && (resp.regionFraud <==> req.ipCity.value != resp.gpsCity)
                && (delivery.None? ==> !resp.geoFraud && resp.distance == None)
                && (delivery.Some? ==>
                      resp.distance == Some(dist(here, Coord(delivery.value.lat, delivery.value.lon))) &&
                      (resp.geoFraud <==> resp.distance.value > Fraud.GeoRadiusKm))
                && (Symmetric(dist) ==>
                      (resp.geoFraud <==> delivery.Some? &&
                                          Fraud.IsFar(dist, Coord(delivery.value.lat, delivery.value.lon), here)))
    {
      if !CheckFraudAccepted(req) {
        return MissingFields;
      }
      var deviceId, lat, lon, ipCity := req.deviceId.value, req.lat.value, req.lon.value, req.ipCity.value;
      var gpsCity := CityMapper.MapCity(cities, lat, lon);
      var regionFraud := ipCity != gpsCity;
      var delivery := LatestDeliveryPoint(log, deviceId);
      var geoFraud := false;
      var distance: Option<real> := None;
      if delivery.Some? {
        distance := Some(dist(Coord(lat, lon), Coord(delivery.value.lat, delivery.value.lon)));
        geoFraud := distance.value > Fraud.GeoRadiusKm;
      }
      resp := FraudReport(gpsCity, regionFraud, geoFraud, distance);
    }
  }

  /** Reading a property off a JavaScript boolean gives `undefined`, which is
      falsy: this is what the handler sees from utils/fraud.js, whose two
      functions return bare booleans. */
  function FieldsOfBoolean(b: bool): Check
  {
    Check(false, Undefined)
  }

  /** The heuristics wired as the repository has them. */
  function AsWrittenFar(dist: Distance): FarCheck
  {
    (d: Coord, u: Coord) => FieldsOfBoolean(Fraud.IsFar(dist, d, u))
  }

  function AsWrittenJump(dist: Distance): JumpCheck
  {
    (p: Coord, pt: int, n: Coord, nt: int) => FieldsOfBoolean(Fraud.IsImpossibleJump(dist, p, pt, n, nt))
  }

  /** As written, no ping is ever classified as fraud: the risk score stays 0
      and `speed` turns undefined whenever the speed check runs. */
  lemma AsWrittenNeverFlags(dist: Distance, user: Coord, delivery: Option<Coord>, timestamp: int, last: Option<LastPing>)
    ensures var c := Classify(user, delivery, timestamp, last, AsWrittenFar(dist), AsWrittenJump(dist));
            c.fraudTypes == [] && c.riskScore == 0.0 &&
            c.speed == if SpeedCheckApplies(last) then Undefined else Null
  {
  }

  /** The input that shows it: a delivery point further than 0.5 km, for which
      `isFar` itself answers true, still yields no GeoMismatch. */
  lemma AsWrittenMissesFarDelivery(dist: Distance, user: Coord, delivery: Coord, timestamp: int, last: Option<LastPing>)
    requires Fraud.IsFar(dist, delivery, user)
    ensures GeoMismatch !in Classify(user, Some(delivery), timestamp, last, AsWrittenFar(dist), AsWrittenJump(dist)).fraudTypes
  {
    AsWrittenNeverFlags(dist, user, Some(delivery), timestamp, last);
  }

  /** The evident intent: heuristics that return `{flag, speed}` records. */
  function IntendedFar(dist: Distance): FarCheck
  {
    (d: Coord, u: Coord) => Check(Fraud.IsFar(dist, d, u), Undefined)
  }

  function IntendedJump(dist: Distance): JumpCheck
  {
    (p: Coord, pt: int, n: Coord, nt: int) =>
      Check(Fraud.IsImpossibleJump(dist, p, pt, n, nt),
            if nt == pt then Null else Kmh(Fraud.JumpSpeed(dist, p, pt, n, nt)))
  }

  /** With the intended wiring each signal fires exactly when its heuristic does. */
  lemma IntendedWiringClassifies(dist: Distance, user: Coord, delivery: Option<Coord>, timestamp: int, last: Option<LastPing>)
    ensures var c := Classify(user, delivery, timestamp, last, IntendedFar(dist), IntendedJump(dist));
            && (GeoMismatch in c.fraudTypes <==> delivery.Some? && Fraud.IsFar(dist, delivery.value, user))
            && (ImpossibleJump in c.fraudTypes <==>
                  SpeedCheckApplies(last) &&
                  Fraud.IsImpossibleJump(dist, LastCoord(last.value), last.value.timestamp, user, timestamp))
            && (SpeedCheckApplies(last) && last.value.timestamp != timestamp ==>
                  c.speed == Kmh(Fraud.JumpSpeed(dist, LastCoord(last.value), last.value.timestamp, user, timestamp)))
  {
  }

  /** With the intended wiring a repeated timestamp after a cached ping away
      from lat/lon 0 is an ImpossibleJump, scored 0.9. */
  lemma RepeatedTimestampFlags(dist: Distance, user: Coord, delivery: Option<Coord>, last: LastPing)
    requires last.lat != 0.0 && last.lon != 0.0 && last.timestamp != 0
    ensures var c := Classify(user, delivery, last.timestamp, Some(last), IntendedFar(dist), IntendedJump(dist));
            ImpossibleJump in c.fraudTypes && c.riskScore == ImpossibleJumpScore
  {
  }
}
