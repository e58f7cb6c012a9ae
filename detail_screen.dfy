/**
 * The DetailedInfoScreen's choice of which fixes to display: GPS fixes always,
 * network fixes only while GPS is not known to be active; on creation, the last
 * known GPS fix if it is recent, else the last known network fix if that is.
 * The displayed text itself (number formatting, distances) is outside this model.
 */
module DetailScreen {
  import opened Optional
  import opened Geo

  /** Two minutes in milliseconds: an older last-known fix is ignored. */
  const LOCATION_VALID_TIME: int := 120000

  predicate IsGpsFix(loc: Location) {
    loc.provider == Some(GPS_PROVIDER)
  }

  /** A last-known fix is recent when strictly less than two minutes passed since it was taken. */
  predicate IsFresh(loc: Location, now: int) {
    now - loc.time < LOCATION_VALID_TIME
  }

  /**
   * The last-known fix shown on creation. The clock is read once for the GPS fix
   * and, only if that one is missing or stale, again for the network fix.
   */
  function ChooseLastKnown(gps: Option<Location>, network: Option<Location>, nowAtGps: int, nowAtNetwork: int)
    : (r: Option<Location>)
    ensures gps.Some? && IsFresh(gps.value, nowAtGps) ==> r == gps
    ensures !(gps.Some? && IsFresh(gps.value, nowAtGps)) ==>
      (r.Some? <==> network.Some? && IsFresh(network.value, nowAtNetwork)) && (r.Some? ==> r == network)
  {
    if gps.Some? && IsFresh(gps.value, nowAtGps) then gps
    else if network.Some? && IsFresh(network.value, nowAtNetwork) then network
    else None
  }

  /** Exactly two minutes old is already too old. */
  lemma FreshnessIsStrict(loc: Location)
    ensures !IsFresh(loc, loc.time + LOCATION_VALID_TIME)
    ensures IsFresh(loc, loc.time + LOCATION_VALID_TIME - 1)
  {
  }

  // ---------------------------------------------------------------------------
  // Hemisphere suffixes
  // ---------------------------------------------------------------------------

  /** "N" for a latitude above 0, "S" otherwise (the equator included). */
  function LatitudeSuffix(lat: real): (s: string)
    ensures s == "N" || s == "S"
    ensures s == "N" <==> lat > 0.0
  {
    if lat > 0.0 then "N" else "S"
  }

  /** "E" for a longitude above 0, "W" otherwise (the prime meridian included). */
  function LongitudeSuffix(lon: real): (s: string)
    ensures s == "E" || s == "W"
    ensures s == "E" <==> lon > 0.0
  {
    if lon > 0.0 then "E" else "W"
  }

  function Abs(x: real): real {
    if x < 0.0 then -x else x
  }

  /** The signed latitude a reader takes from a magnitude and "N" or "S"; any other suffix is no latitude. */
  function ReadLatitude(magnitude: real, suffix: string): Option<real> {
    if suffix == "N" then Some(magnitude)
    else if suffix == "S" then Some(-magnitude)
    else None
  }

  /** The signed longitude a reader takes from a magnitude and "E" or "W"; any other suffix is no longitude. */
  function ReadLongitude(magnitude: real, suffix: string): Option<real> {
    if suffix == "E" then Some(magnitude)
    else if suffix == "W" then Some(-magnitude)
    else None
  }

  /**
   * The magnitude and the suffix together give the latitude back, the equator
   * included, and the suffix is never one a longitude reader accepts.
   */
  lemma LatitudeRoundTrip(lat: real)
    ensures ReadLatitude(Abs(lat), LatitudeSuffix(lat)) == Some(lat)
    ensures ReadLongitude(Abs(lat), LatitudeSuffix(lat)) == None
  {
  }

  lemma LongitudeRoundTrip(lon: real)
    ensures ReadLongitude(Abs(lon), LongitudeSuffix(lon)) == Some(lon)
    ensures ReadLatitude(Abs(lon), LongitudeSuffix(lon)) == None
  {
  }

  /** Opposite non-zero coordinates get opposite suffixes. */
  lemma SuffixesAreOpposite(x: real)
    requires x != 0.0
    ensures LatitudeSuffix(x) != LatitudeSuffix(-x)
    ensures LongitudeSuffix(x) != LongitudeSuffix(-x)
  {
  }

  /**
   * makeLatitude / makeLongitude: the magnitude of the coordinate as DecimalFormat
   * writes it (the formatter fmt, given here), a degree sign, and the hemisphere
   * letter.
   */
  function MakeLatitude(fmt: real -> string, lat: real): (s: string)
    ensures |s| == |fmt(Abs(lat))| + 2
    ensures s[..|fmt(Abs(lat))|] == fmt(Abs(lat)) && s[|s| - 2] == '\U{00B0}'
    ensures s[|s| - 1] == 'N' || s[|s| - 1] == 'S'
    ensures s[|s| - 1] == 'N' <==> lat > 0.0
    ensures ReadLatitude(Abs(lat), s[|s| - 1..]) == Some(lat)
  {
    fmt(Abs(lat)) + "\U{00B0}" + LatitudeSuffix(lat)
  }

  function MakeLongitude(fmt: real -> string, lon: real): (s: string)
    ensures |s| == |fmt(Abs(lon))| + 2
    ensures s[..|fmt(Abs(lon))|] == fmt(Abs(lon)) && s[|s| - 2] == '\U{00B0}'
    ensures s[|s| - 1] == 'E' || s[|s| - 1] == 'W'
    ensures s[|s| - 1] == 'E' <==> lon > 0.0
    ensures ReadLongitude(Abs(lon), s[|s| - 1..]) == Some(lon)
  {
    fmt(Abs(lon)) + "\U{00B0}" + LongitudeSuffix(lon)
  }

  // ---------------------------------------------------------------------------
  // The GPS-preference machine
  // ---------------------------------------------------------------------------

  /** The LocationListener callbacks the screen receives. */
  datatype Event =
    | LocationChanged(loc: Location)
    | ProviderDisabled(provider: string)
    | ProviderEnabled(provider: string)
    | StatusChanged(provider: string, status: int)

  /** The flag mIsGPSActive and the fixes handed to updateInfo so far, oldest first. */
  datatype ScreenState = ScreenState(gpsActive: bool, shown: seq<Location>)

  /**
   * One callback. At most the event's own fix is added to the display, and only a
   * GPS fix can raise the flag.
   */
  function Step(s: ScreenState, e: Event): (r: ScreenState)
    ensures s.shown <= r.shown && |r.shown| <= |s.shown| + 1
    ensures |r.shown| == |s.shown| + 1 ==> e.LocationChanged? && r.shown[|s.shown|] == e.loc
    ensures r.gpsActive && !s.gpsActive ==> e.LocationChanged? && IsGpsFix(e.loc)
  {
    match e
    case LocationChanged(loc) =>
      if IsGpsFix(loc) then ScreenState(true, s.shown + [loc])
      else if !s.gpsActive then s.(shown := s.shown + [loc])
      else s
    case ProviderDisabled(provider) =>
      if provider == GPS_PROVIDER then s.(gpsActive := false) else s
    case ProviderEnabled(_) => s
    case StatusChanged(provider, status) =>
      if provider == GPS_PROVIDER && status != AVAILABLE then s.(gpsActive := false) else s
  }

  function Replay(s: ScreenState, events: seq<Event>): ScreenState
    decreases |events|
  {
    if events == [] then s else Replay(Step(s, events[0]), events[1..])
  }

  /** The callbacks that tell the screen GPS has gone away. */
  predicate ClearsGps(e: Event) {
    (e.ProviderDisabled? && e.provider == GPS_PROVIDER)
    || (e.StatusChanged? && e.provider == GPS_PROVIDER && e.status != AVAILABLE)
  }

  /** A GPS fix is always shown and marks GPS active. */
  lemma GpsFixAlwaysShown(s: ScreenState, loc: Location)
    requires IsGpsFix(loc)
    ensures Step(s, LocationChanged(loc)) == ScreenState(true, s.shown + [loc])
  {
  }

  /** Any other fix leaves the flag alone, and is shown exactly when GPS is not active. */
  lemma OtherFixShownIffGpsInactive(s: ScreenState, loc: Location)
    requires !IsGpsFix(loc)
    ensures Step(s, LocationChanged(loc)).gpsActive == s.gpsActive
    ensures Step(s, LocationChanged(loc)).shown == s.shown + [loc] <==> !s.gpsActive
    ensures s.gpsActive ==> Step(s, LocationChanged(loc)).shown == s.shown
  {
  }

  /** Provider callbacks never show anything, and change the flag only when they clear it for GPS. */
  lemma ProviderCallbacksOnlyClearGps(s: ScreenState, e: Event)
    requires !e.LocationChanged?
    ensures Step(s, e).shown == s.shown
    ensures Step(s, e).gpsActive == (s.gpsActive && !ClearsGps(e))
  {
  }

  /**
   * Once GPS is active, and as long as no callback says GPS went away, the flag stays
   * set and every fix shown from then on is a GPS fix.
   */
  lemma {:induction false} GpsHoldsTheScreen(s: ScreenState, events: seq<Event>)
    requires s.gpsActive
    requires forall i :: 0 <= i < |events| ==> !ClearsGps(events[i])
    ensures Replay(s, events).gpsActive
    ensures s.shown <= Replay(s, events).shown
    ensures forall i :: |s.shown| <= i < |Replay(s, events).shown| ==> IsGpsFix(Replay(s, events).shown[i])
    decreases |events|
  {
    if events != [] {
      var s' := Step(s, events[0]);
      assert !ClearsGps(events[0]);
      assert s'.gpsActive && s.shown <= s'.shown;
      assert forall i :: |s.shown| <= i < |s'.shown| ==> IsGpsFix(s'.shown[i]);
      assert forall i :: 0 <= i < |events[1..]| ==> !ClearsGps(events[1..][i]) by {
        forall i | 0 <= i < |events[1..]| ensures !ClearsGps(events[1..][i]) {
          assert events[1..][i] == events[i + 1];
        }
      }
      GpsHoldsTheScreen(s', events[1..]);
      var r := Replay(s, events);
      forall i | |s.shown| <= i < |r.shown|
        ensures IsGpsFix(r.shown[i])
      {
        if i < |s'.shown| {
          assert r.shown[i] == s'.shown[i];
        }
      }
    }
  }

  class DetailedInfoScreen {
    var isGpsActive: bool
    /** The fixes handed to updateInfo, oldest first; the screen displays the last. */
    var shown: seq<Location>

    function State(): ScreenState
      reads this
    {
      ScreenState(isGpsActive, shown)
    }

    constructor ()
      ensures !isGpsActive && shown == []
    {
      isGpsActive := false;
      shown := [];
    }

    /** updateInfo on a fix: the fix is displayed. */
    method UpdateInfo(loc: Location)
      modifies this`shown
      ensures shown == old(shown) + [loc]
    {
      shown := shown + [loc];
    }

    /**
     * The last-known selection of onCreate. Displaying a last-known GPS fix does not
     * set the GPS flag.
     */
    method OnCreate(gpsLastKnown: Option<Location>, networkLastKnown: Option<Location>, nowAtGps: int, nowAtNetwork: int)
      modifies this`shown
      ensures isGpsActive == old(isGpsActive)
      ensures shown == old(shown) +
        match ChooseLastKnown(gpsLastKnown, networkLastKnown, nowAtGps, nowAtNetwork)
        case Some(loc) => [loc]
        case None => []
    {
      var lastKnown := gpsLastKnown;
      if lastKnown.Some? && nowAtGps - lastKnown.value.time < LOCATION_VALID_TIME {
        UpdateInfo(lastKnown.value);
      } else {
        lastKnown := networkLastKnown;
        if lastKnown.Some? && nowAtNetwork - lastKnown.value.time < LOCATION_VALID_TIME {
          UpdateInfo(lastKnown.value);
        }
      }
    }

    method OnLocationChanged(location: Location)
      modifies this
      ensures State() == Step(old(State()), LocationChanged(location))
    {
      if location.provider.Some? && location.provider.value == GPS_PROVIDER {
        isGpsActive := true;
        UpdateInfo(location);
      } else if !isGpsActive {
        UpdateInfo(location);
      }
    }

    method OnProviderDisabled(provider: string)
      modifies this`isGpsActive
      ensures State() == Step(old(State()), ProviderDisabled(provider))
    {
      if provider == GPS_PROVIDER {
        isGpsActive := false;
      }
    }

    /** Even a GPS provider coming back waits for its first fix before it counts as active. */
    method OnProviderEnabled(provider: string)
      ensures State() == Step(old(State()), ProviderEnabled(provider))
    {
    }

    method OnStatusChanged(provider: string, status: int)
      modifies this`isGpsActive
      ensures State() == Step(old(State()), StatusChanged(provider, status))
    {
      if provider == GPS_PROVIDER && status != AVAILABLE {
        isGpsActive := false;
      }
    }
  }
}
