/** The session accessor `TcxParser`: lazily reads the per-trackpoint series of
    one activity document, gap-fills them when `recovery` is on, caches them,
    and composes the derived series and summaries from them. The document
    queries themselves are not modelled: their results are the `Document`. */
module Parser {
  import opened Values
  import opened GapFill
  import opened GradeTransform
  import opened TreeFlattener
  import opened Series

  /** What the document queries of the session return. */
  datatype Document = Document(
    activity: Option<Elem>,                       // root.Activities.Activity, None when absent
    trackpointExtensions: seq<map<string, Val>>,  // //ns:Extensions/ns3:TPX: each node's numeric children
    heartRates: seq<map<string, Val>>,            // //ns:HeartRateBpm
    distanceMeters: seq<Val>,                     // float(...) of //ns:Trackpoint/ns:DistanceMeters
    altitudeMeters: seq<Val>,                     // float(...) of //ns:Trackpoint/ns:AltitudeMeters
    cadences: seq<Val>,                           // float(...) of //ns:Cadence
    lapDistance: Val)                             // //ns:Lap/ns:DistanceMeters, first match

  /** The configuration mapping with its two keys, 'high_altitude' and 'recovery'.
      It is an object: the session keeps a reference to the caller's mapping. */
  class Params {
    var highAltitude: real
    var recovery: bool

    constructor (highAltitude: real, recovery: bool)
      ensures this.highAltitude == highAltitude && this.recovery == recovery
    {
      this.highAltitude := highAltitude;
      this.recovery := recovery;
    }

    /** `default_params`. */
    constructor Default()
      ensures highAltitude == 1500.0 && recovery
    {
      highAltitude := 1500.0;
      recovery := true;
    }
  }

  /** What an access to `grades` returns, and the list it leaves in the cache,
      given what `elevations` and `moves` return. The cache is set to [] before
      either is read, so a failing input leaves []; a list shorter than two
      samples fails in the grade transform after the gap filling was stored. */
  function GradesOutcome(e: Result<seq<Val>>, m: Result<seq<Val>>, recovery: bool, arcsin: real -> Val)
    : (r: (Result<seq<Val>>, seq<Val>))
    ensures e.Failure? ==> r == (Failure(e.error), [])
    ensures e.Success? && m.Failure? ==> r == (Failure(m.error), [])
    ensures r.0.Success? <==> e.Success? && m.Success? && Min(|e.value|, |m.value|) >= 2
    ensures r.0.Success? ==> r.1 == r.0.value && |r.1| == Min(|e.value|, |m.value|) && r.1[0] == r.1[1]
    ensures e.Success? && m.Success? && r.0.Failure? ==> r.0.error == IndexError && |r.1| < 2
  {
    if e.Failure? then (Failure(e.error), [])
    else if m.Failure? then (Failure(m.error), [])
    else
      var g := Recovered(RawGrades(e.value, m.value), recovery);
      if |g| < 2 then (Failure(IndexError), g)
      else (Success(GradeArcsin(arcsin, g)), GradeArcsin(arcsin, g))
  }

  /** The loop of `elevations` that appends, for each altitude, the rise to
      the next one (the last altitude is its own next) or 0 when it does not rise. */
  method PositiveRises(altitudes: seq<Val>) returns (e: seq<Val>)
    requires |altitudes| > 0
    ensures e == ElevationsOf(altitudes)
  {
    var next := altitudes[1..] + [altitudes[|altitudes| - 1]];
    e := [];
    for i := 0 to |altitudes|
      invariant |e| == i
      invariant forall j :: 0 <= j < i ==> e[j] == PositiveDelta(next[j], altitudes[j])
    {
      var delta := Sub(next[i], altitudes[i]);
      if Gt(delta, 0.0) {
        e := e + [delta];
      } else {
        e := e + [Num(0.0)];
      }
    }
  }

  /** The loop of `grades` that appends one slope per (elevation, move) pair. */
  method SlopeRatios(e: seq<Val>, m: seq<Val>) returns (g: seq<Val>)
    ensures g == RawGrades(e, m)
  {
    g := [];
    for i := 0 to Min(|e|, |m|)
      invariant |g| == i
      invariant forall j :: 0 <= j < i ==> g[j] == GradeOf(e[j], m[j])
    {
      if Gt(m[i], 0.0) {
        var sinValue := DivBy(e[i], m[i].r);
        if Gt(sinValue, 1.0) {
          sinValue := NaN;
        }
        g := g + [sinValue];
      } else {
        g := g + [NaN];
      }
    }
  }

  /** For series read from one document, `grades` succeeds exactly when both
      have at least two samples; its output then has one sample per pair,
      its first two samples agree, and every valid grade fed to the arcsin lies in [0, 1]. */
  lemma GradesOfSession(a: seq<Val>, d: seq<Val>, recovery: bool, arcsin: real -> Val)
    requires |a| > 0 && |d| > 0
    ensures var out := GradesOutcome(Success(Recovered(ElevationsOf(a), recovery)), Success(MovesOf(d)), recovery, arcsin);
      var g := Recovered(RawGrades(ElevationsOf(a), MovesOf(d)), recovery);
      && (out.0.Success? <==> Min(|a|, |d|) >= 2)
      && (out.0.Success? ==> |out.0.value| == Min(|a|, |d|) && out.0.value[0] == out.0.value[1])
      && (out.0.Success? ==> forall i :: 1 <= i < |g| ==> out.0.value[i] == ScaledArcsin(arcsin, g[i]))
      && (forall i :: 0 <= i < |g| && g[i].Num? ==> 0.0 <= g[i].r <= 1.0)
  {
    RecoveredNaNFree(ElevationsOf(a), recovery);
    GradesInArcsinDomain(a, d, recovery);
  }

  class TcxParser {
    const doc: Document
    const activity: Elem
    const params: Params
    /** `np.arcsin`, which the model leaves abstract. */
    const arcsin: real -> Val

    var powerValues: Option<seq<Val>>
    var distanceValues: Option<seq<Val>>
    var speedValues: Option<seq<Val>>
    var highAltitudeDistanceValue: Option<Val>
    var elevationsValues: Option<seq<Val>>
    var gradesValues: Option<seq<Val>>
    var heartRateValues: Option<seq<Val>>
    var altitudeValues: Option<seq<Val>>

    /** Every cached reading holds one sample per queried node. */
    ghost predicate Valid()
      reads this
    {
      && (powerValues.Some? ==> |powerValues.value| == |doc.trackpointExtensions|)
      && (speedValues.Some? ==> |speedValues.value| == |doc.trackpointExtensions|)
      && (distanceValues.Some? ==> |distanceValues.value| == |doc.distanceMeters|)
      && (altitudeValues.Some? ==> |altitudeValues.value| == |doc.altitudeMeters|)
      && (heartRateValues.Some? ==> |heartRateValues.value| == |doc.heartRates|)
    }

    predicate NothingCached()
      reads this
    {
      && powerValues.None? && distanceValues.None? && speedValues.None?
      && highAltitudeDistanceValue.None? && elevationsValues.None? && gradesValues.None?
      && heartRateValues.None? && altitudeValues.None?
    }

    constructor Init(doc: Document, activity: Elem, params: Params, arcsin: real -> Val)
      ensures this.doc == doc && this.activity == activity && this.params == params && this.arcsin == arcsin
      ensures NothingCached() && Valid()
    {
      this.doc := doc;
      this.activity := activity;
      this.params := params;
      this.arcsin := arcsin;
      powerValues, distanceValues, speedValues := None, None, None;
      highAltitudeDistanceValue, elevationsValues, gradesValues := None, None, None;
      heartRateValues, altitudeValues := None, None;
    }

    /** `TcxParser(file_name, pre_read, params, recovery)`: writes `recovery`
        into the caller's mapping, fails when the document has no activity,
        and with `pre_read` reads powers, distances, speeds and the
        high-altitude distance, which fails for a document without distances. */
    static method Open(doc: Document, preRead: bool, params: Params, recovery: bool, arcsin: real -> Val)
      returns (r: Result<TcxParser>)
      modifies params
      ensures params.recovery == recovery && params.highAltitude == old(params.highAltitude)
      ensures doc.activity.None? ==> r == Failure(AttributeError)
      ensures doc.activity.Some? && preRead && |doc.distanceMeters| == 0 ==> r == Failure(IndexError)
      ensures doc.activity.Some? && (!preRead || |doc.distanceMeters| > 0) ==> r.Success?
      ensures r.Success? ==> fresh(r.value) && r.value.Valid()
      ensures r.Success? ==> r.value.doc == doc && r.value.params == params && r.value.arcsin == arcsin
      ensures r.Success? ==> r.value.activity == doc.activity.value
      ensures r.Success? && !preRead ==> r.value.NothingCached()
      ensures r.Success? && preRead ==>
        var p, distances, altitudes := r.value, Recovered(doc.distanceMeters, recovery), Recovered(doc.altitudeMeters, recovery);
        && p.powerValues == Some(Recovered(ReadXpathProperty(doc.trackpointExtensions, "Watts"), recovery))
        && p.distanceValues == Some(distances)
        && p.speedValues == Some(Recovered(ReadXpathProperty(doc.trackpointExtensions, "Speed"), recovery))
        && p.altitudeValues == Some(altitudes)
        && p.highAltitudeDistanceValue == Some(HighAltitudeDistanceOf(MovesOf(distances), altitudes, params.highAltitude))
        && p.elevationsValues.None? && p.gradesValues.None? && p.heartRateValues.None?
    {
      params.recovery := recovery;
      if doc.activity.None? {
        return Failure(AttributeError);
      }
      var p := new TcxParser.Init(doc, doc.activity.value, params, arcsin);
      if preRead {
        var high := p.PreRead();
        if high.Failure? {
          return Failure(high.error);
        }
      }
      r := Success(p);
    }

    /** The `pre_read` part of the constructor: reads powers, distances, speeds
        and the high-altitude distance into their caches. */
    method PreRead() returns (r: Result<Val>)
      requires Valid() && NothingCached()
      modifies this`powerValues, this`distanceValues, this`speedValues, this`highAltitudeDistanceValue, this`altitudeValues
      ensures Valid()
      ensures |doc.distanceMeters| == 0 ==> r == Failure(IndexError)
      ensures |doc.distanceMeters| > 0 ==>
        var distances, altitudes := Recovered(doc.distanceMeters, params.recovery), Recovered(doc.altitudeMeters, params.recovery);
        && r == Success(HighAltitudeDistanceOf(MovesOf(distances), altitudes, params.highAltitude))
        && powerValues == Some(Recovered(ReadXpathProperty(doc.trackpointExtensions, "Watts"), params.recovery))
        && distanceValues == Some(distances)
        && speedValues == Some(Recovered(ReadXpathProperty(doc.trackpointExtensions, "Speed"), params.recovery))
        && altitudeValues == Some(altitudes)
        && highAltitudeDistanceValue == Some(r.value)
    {
      var powers := Powers();
      powerValues := Some(powers);
      var distances := Distances();
      distanceValues := Some(distances);
      var speeds := Speeds();
      speedValues := Some(speeds);
      assert highAltitudeDistanceValue.None? && altitudeValues.None?;
      assert MovesNow() == if |distances| == 0 then Failure(IndexError) else Success(MovesOf(distances));
      r := HighAltitudeDistance();
      if r.Success? {
        highAltitudeDistanceValue := Some(r.value);
      }
    }

    /** `features`: the activity node flattened. */
    method Features() returns (r: Result<map<string, Feature>>)
      ensures r == Flatten(activity)
    {
      r := Elem2Dict(activity);
    }

    /** What each cached reader returns in the current state. */
    ghost function PowersNow(): seq<Val>
      reads this`powerValues, params`recovery
    {
      match powerValues
      case Some(v) => v
      case None => Recovered(ReadXpathProperty(doc.trackpointExtensions, "Watts"), params.recovery)
    }

    ghost function SpeedsNow(): seq<Val>
      reads this`speedValues, params`recovery
    {
      match speedValues
      case Some(v) => v
      case None => Recovered(ReadXpathProperty(doc.trackpointExtensions, "Speed"), params.recovery)
    }

    ghost function DistancesNow(): seq<Val>
      reads this`distanceValues, params`recovery
    {
      match distanceValues
      case Some(v) => v
      case None => Recovered(doc.distanceMeters, params.recovery)
    }

    ghost function AltitudesNow(): seq<Val>
      reads this`altitudeValues, params`recovery
    {
      match altitudeValues
      case Some(v) => v
      case None => Recovered(doc.altitudeMeters, params.recovery)
    }

    ghost function HeartRateNow(): seq<Val>
      reads this`heartRateValues
    {
      match heartRateValues
      case Some(v) => v
      case None => ReadXpathProperty(doc.heartRates, "Value")
    }

    /** What `moves` returns in the current state. */
    ghost function MovesNow(): Result<seq<Val>>
      reads this`distanceValues, params`recovery
    {
      var d := DistancesNow();
      if |d| == 0 then Failure(IndexError) else Success(MovesOf(d))
    }

    /** What `elevations` returns in the current state. */
    ghost function ElevationsNow(): Result<seq<Val>>
      reads this`elevationsValues, this`altitudeValues, params`recovery
    {
      match elevationsValues
      case Some(e) => Success(e)
      case None =>
        var a := AltitudesNow();
        if |a| == 0 then Failure(IndexError) else Success(Recovered(ElevationsOf(a), params.recovery))
    }

    /** What the elevations cache holds after an access to `elevations`. */
    ghost function ElevationsCacheNext(): seq<Val>
      reads this`elevationsValues, this`altitudeValues, params`recovery
    {
      match ElevationsNow()
      case Success(e) => e
      case Failure(_) => []
    }

    /** What `high_altitude_distance` returns in the current state. */
    ghost function HighAltitudeDistanceNow(): Result<Val>
      reads this`highAltitudeDistanceValue, this`distanceValues, this`altitudeValues, params
    {
      match highAltitudeDistanceValue
      case Some(h) => Success(h)
      case None =>
        match MovesNow()
        case Failure(e) => Failure(e)
        case Success(m) => Success(HighAltitudeDistanceOf(m, AltitudesNow(), params.highAltitude))
    }

    /** What `grades` returns in the current state, and what it leaves in its cache. */
    ghost function GradesNow(): (Result<seq<Val>>, seq<Val>)
      reads this`gradesValues, this`elevationsValues, this`altitudeValues, this`distanceValues, params`recovery
    {
      match gradesValues
      case Some(g) => (Success(g), g)
      case None => GradesOutcome(ElevationsNow(), MovesNow(), params.recovery, arcsin)
    }

    /** `powers`: the Watts of every TPX extension, NaN where missing, gap-filled with recovery. */
    method Powers() returns (r: seq<Val>)
      requires Valid()
      modifies this`powerValues
      ensures Valid()
      ensures old(powerValues).Some? ==> r == old(powerValues).value
      ensures r == old(PowersNow()) && powerValues == Some(r)
    {
      if powerValues.None? {
        powerValues := Some(ReadXpathProperty(doc.trackpointExtensions, "Watts"));
        if params.recovery {
          var filled := InterpolateNans(powerValues.value);
          powerValues := Some(filled);
        }
      }
      r := powerValues.value;
    }

    /** `speeds`: the Speed of every TPX extension, NaN where missing, gap-filled with recovery. */
    method Speeds() returns (r: seq<Val>)
      requires Valid()
      modifies this`speedValues
      ensures Valid()
      ensures old(speedValues).Some? ==> r == old(speedValues).value
      ensures r == old(SpeedsNow()) && speedValues == Some(r)
    {
      if speedValues.None? {
        speedValues := Some(ReadXpathProperty(doc.trackpointExtensions, "Speed"));
        if params.recovery {
          var filled := InterpolateNans(speedValues.value);
          speedValues := Some(filled);
        }
      }
      r := speedValues.value;
    }

    /** `distances`: the trackpoint distances, gap-filled with recovery. */
    method Distances() returns (r: seq<Val>)
      requires Valid()
      modifies this`distanceValues
      ensures Valid()
      ensures old(distanceValues).Some? ==> r == old(distanceValues).value
      ensures r == old(DistancesNow()) && distanceValues == Some(r)
    {
      if distanceValues.None? {
        distanceValues := Some(doc.distanceMeters);
        if params.recovery {
          var filled := InterpolateNans(distanceValues.value);
          distanceValues := Some(filled);
        }
      }
      r := distanceValues.value;
    }

    /** `altitudes`: the trackpoint altitudes, gap-filled with recovery. */
    method Altitudes() returns (r: seq<Val>)
      requires Valid()
      modifies this`altitudeValues
      ensures Valid()
      ensures old(altitudeValues).Some? ==> r == old(altitudeValues).value
      ensures r == old(AltitudesNow()) && altitudeValues == Some(r)
    {
      if altitudeValues.None? {
        altitudeValues := Some(doc.altitudeMeters);
        if params.recovery {
          var filled := InterpolateNans(altitudeValues.value);
          altitudeValues := Some(filled);
        }
      }
      r := altitudeValues.value;
    }

    /** `heart_rate`: the Value of every HeartRateBpm node, NaN where missing; never gap-filled. */
    method HeartRate() returns (r: seq<Val>)
      requires Valid()
      modifies this`heartRateValues
      ensures Valid()
      ensures old(heartRateValues).Some? ==> r == old(heartRateValues).value
      ensures r == old(HeartRateNow()) && heartRateValues == Some(r)
    {
      if heartRateValues.None? {
        heartRateValues := Some(ReadXpathProperty(doc.heartRates, "Value"));
      }
      r := heartRateValues.value;
    }

    /** `cadences`: read afresh on every access, gap-filled with recovery. */
    method Cadences() returns (r: seq<Val>)
      ensures r == Recovered(doc.cadences, params.recovery)
    {
      if params.recovery {
        r := InterpolateNans(doc.cadences);
      } else {
        r := doc.cadences;
      }
    }

    /** `moves`: recomputed on every access from the (cached) distances;
        `distances[-1]` raises IndexError when there are none. */
    method Moves() returns (r: Result<seq<Val>>)
      requires Valid()
      modifies this`distanceValues
      ensures Valid()
      ensures r == old(MovesNow()) && distanceValues == Some(old(DistancesNow()))
    {
      var distances := Distances();
      if |distances| == 0 {
        return Failure(IndexError);
      }
      r := Success(Difference(distances[1..] + [distances[|distances| - 1]], distances));
    }

    /** `elevations`: the positive rises between consecutive altitudes. The
        cache is set to [] before the altitudes are read, so an activity
        without altitudes fails once and returns [] afterwards. */
    method Elevations() returns (r: Result<seq<Val>>)
      requires Valid()
      modifies this`elevationsValues, this`altitudeValues
      ensures Valid()
      ensures old(elevationsValues).Some? ==> r == Success(old(elevationsValues).value)
      ensures r == old(ElevationsNow()) && elevationsValues == Some(old(ElevationsCacheNext()))
      ensures altitudeValues == if old(elevationsValues).Some? then old(altitudeValues) else Some(old(AltitudesNow()))
    {
      if elevationsValues.None? {
        elevationsValues := Some([]);
        var altitudes := Altitudes();
        if |altitudes| == 0 {
          return Failure(IndexError);
        }
        var rises := PositiveRises(altitudes);
        elevationsValues := Some(rises);
        if params.recovery {
          var filled := InterpolateNans(elevationsValues.value);
          elevationsValues := Some(filled);
        }
      }
      r := Success(elevationsValues.value);
    }

    /** `grades`: elevation / move per sample pair, NaN for a move that is not
        positive or a slope above 1, gap-filled with recovery, then passed
        through the grade transform. */
    method Grades() returns (r: Result<seq<Val>>)
      requires Valid()
      modifies this`gradesValues, this`elevationsValues, this`altitudeValues, this`distanceValues
      ensures Valid()
      ensures old(gradesValues).Some? ==> r == Success(old(gradesValues).value) && unchanged(this)
      ensures r == old(GradesNow()).0 && gradesValues == Some(old(GradesNow()).1)
      ensures old(gradesValues).None? ==>
        && elevationsValues == Some(old(ElevationsCacheNext()))
        && altitudeValues == (if old(elevationsValues).Some? then old(altitudeValues) else Some(old(AltitudesNow())))
        && distanceValues == (if old(ElevationsNow()).Success? then Some(old(DistancesNow())) else old(distanceValues))
    {
      if gradesValues.Some? {
        return Success(gradesValues.value);
      }
      gradesValues := Some([]);
      var elevations := Elevations();
      if elevations.Failure? {
        return Failure(elevations.error);
      }
      r := GradesFrom(elevations.value);
    }

    /** The part of `grades` after the elevations were read: pairs them with
        the moves, gap-fills and transforms, storing each stage in the cache. */
    method GradesFrom(elevations: seq<Val>) returns (r: Result<seq<Val>>)
      requires Valid() && gradesValues == Some([])
      modifies this`gradesValues, this`distanceValues
      ensures Valid()
      ensures (r, gradesValues) == (old(GradesOutcome(Success(elevations), MovesNow(), params.recovery, arcsin)).0,
        Some(old(GradesOutcome(Success(elevations), MovesNow(), params.recovery, arcsin)).1))
      ensures distanceValues == Some(old(DistancesNow()))
    {
      var moves := Moves();
      if moves.Failure? {
        return Failure(moves.error);
      }
      var raw := SlopeRatios(elevations, moves.value);
      gradesValues := Some(raw);
      if params.recovery {
        var filled := InterpolateNans(gradesValues.value);
        gradesValues := Some(filled);
      }
      var transformed := Transformed(gradesValues.value);
      if transformed.Failure? {
        return Failure(transformed.error);
      }
      gradesValues := Some(transformed.value);
      r := transformed;
    }

    /** The grade transform applied to a fresh array holding the grades. */
    method Transformed(g: seq<Val>) returns (r: Result<seq<Val>>)
      ensures |g| < 2 ==> r == Failure(IndexError)
      ensures |g| >= 2 ==> r == Success(GradeArcsin(arcsin, g))
    {
      var buffer := new Val[|g|](i requires 0 <= i < |g| => g[i]);
      assert buffer[..] == g;
      r := CalculateGradeArcsin(buffer, arcsin);
    }

    /** `high_altitude_distance`: the sum of the moves made at an altitude at
        least `params['high_altitude']`; cached once computed. */
    method HighAltitudeDistance() returns (r: Result<Val>)
      requires Valid()
      modifies this`highAltitudeDistanceValue, this`distanceValues, this`altitudeValues
      ensures Valid()
      ensures old(highAltitudeDistanceValue).Some? ==> r == Success(old(highAltitudeDistanceValue).value) && unchanged(this)
      ensures r == old(HighAltitudeDistanceNow())
      ensures old(highAltitudeDistanceValue).None? ==>
        && distanceValues == Some(old(DistancesNow()))
        && altitudeValues == (if r.Success? then Some(old(AltitudesNow())) else old(altitudeValues))
        && highAltitudeDistanceValue == (if r.Success? then Some(r.value) else None)
    {
      if highAltitudeDistanceValue.None? {
        var moves := Moves();
        if moves.Failure? {
          return Failure(moves.error);
        }
        var altitudes := Altitudes();
        var masked := AboveMask(moves.value, altitudes, params.highAltitude);
        highAltitudeDistanceValue := Some(Sum(masked));
      }
      r := Success(highAltitudeDistanceValue.value);
    }

    /** `low_altitude_distance`: the lap distance minus the high-altitude distance. */
    method LowAltitudeDistance() returns (r: Result<Val>)
      requires Valid()
      modifies this`highAltitudeDistanceValue, this`distanceValues, this`altitudeValues
      ensures Valid()
      ensures r == match old(HighAltitudeDistanceNow())
        case Failure(e) => Failure(e)
        case Success(high) => Success(LowAltitudeDistanceOf(doc.lapDistance, high))
      ensures old(highAltitudeDistanceValue).Some? ==> unchanged(this)
      ensures old(highAltitudeDistanceValue).None? ==>
        && distanceValues == Some(old(DistancesNow()))
        && altitudeValues == (if r.Success? then Some(old(AltitudesNow())) else old(altitudeValues))
        && highAltitudeDistanceValue == (if r.Success? then Some(old(HighAltitudeDistanceNow()).value) else None)
    {
      var total := doc.lapDistance;
      var high := HighAltitudeDistance();
      if high.Failure? {
        return Failure(high.error);
      }
      r := Success(Sub(total, high.value));
    }

    /** `high_altitude_time`: how many altitude samples reach the threshold
        (a count of samples, not seconds). */
    method HighAltitudeTime() returns (r: nat)
      requires Valid()
      modifies this`altitudeValues
      ensures Valid()
      ensures r == HighAltitudeTimeOf(old(AltitudesNow()), params.highAltitude)
      ensures altitudeValues == Some(old(AltitudesNow()))
    {
      var altitudes := Altitudes();
      r := HighAltitudeTimeOf(altitudes, params.highAltitude);
    }

    /** `total_elevation`: the sum of the positive elevations. */
    method TotalElevation() returns (r: Result<Val>)
      requires Valid()
      modifies this`elevationsValues, this`altitudeValues
      ensures Valid()
      ensures r == match old(ElevationsNow())
        case Failure(e) => Failure(e)
        case Success(e) => Success(TotalElevationOf(e))
      ensures elevationsValues == Some(old(ElevationsCacheNext()))
      ensures altitudeValues == if old(elevationsValues).Some? then old(altitudeValues) else Some(old(AltitudesNow()))
    {
      var elevations := Elevations();
      if elevations.Failure? {
        return Failure(elevations.error);
      }
      r := Success(TotalElevationOf(elevations.value));
    }

    /** `has_powers`: false exactly when every power sample is NaN. */
    method HasPowers() returns (r: bool)
      requires Valid()
      modifies this`powerValues
      ensures Valid()
      ensures r == HasPowersOf(old(PowersNow())) && powerValues == Some(old(PowersNow()))
    {
      var powers := Powers();
      r := NaNCount(powers) != |powers|;
    }

    /** `mean_power_interval(interval)`: the moving mean of the powers over
        `interval` samples; numpy raises ValueError for an interval below 1. */
    method MeanPowerInterval(interval: int) returns (r: Result<seq<Val>>)
      requires Valid()
      requires interval <= |doc.trackpointExtensions|
      modifies this`powerValues
      ensures Valid()
      ensures powerValues == Some(old(PowersNow()))
      ensures interval < 1 ==> r == Failure(ValueError)
      ensures interval >= 1 ==> r == Success(MeanPowerIntervalOf(old(PowersNow()), interval))
    {
      var powers := Powers();
      if interval < 1 {
        return Failure(ValueError);
      }
      var window := ConvolveValid(powers, Ones(interval));
      r := Success(seq(|window|, k requires 0 <= k < |window| => DivBy(window[k], interval as real)));
    }
  }

  /** Two sessions built on the shared default configuration: constructing the
      second with `recovery=False` switches recovery off for the first as well. */
  method SharedDefaultsLeak(doc: Document, arcsin: real -> Val) returns (first: Result<TcxParser>, second: Result<TcxParser>)
    requires doc.activity.Some?
    ensures first.Success? && second.Success?
    ensures first.value.params == second.value.params && !first.value.params.recovery
  {
    var defaults := new Params.Default();
    first := TcxParser.Open(doc, false, defaults, true, arcsin);
    second := TcxParser.Open(doc, false, defaults, false, arcsin);
  }

  /** A caller's configuration with recovery off, passed without a `recovery`
      argument: the default `recovery=True` overwrites the caller's setting,
      so the session runs with recovery on and the caller's mapping says so too. */
  method OmittedRecoveryOverrides(doc: Document, threshold: real, arcsin: real -> Val)
    returns (configured: Params, session: Result<TcxParser>)
    requires doc.activity.Some?
    ensures session.Success? && session.value.params == configured
    ensures configured.recovery && configured.highAltitude == threshold
  {
    configured := new Params(threshold, false);
    session := TcxParser.Open(doc, false, configured, true, arcsin);
  }
}
