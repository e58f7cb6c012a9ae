/**
 * The background GeohashService: which location providers are up, the last
 * fix seen, and whether tracking is on. Notifications, listener registration
 * and distance arithmetic are outside this model.
 */
module LocationService {
  import opened Optional
  import opened Geo

  /** Float.MAX_VALUE, the sentinel the binder returns when it has no reading. */
  const FLOAT_MAX_VALUE: real := 340282346638528859811704183484516925440.0

  /** Some provider in the map is marked enabled. */
  predicate AnyAlive(m: map<string, bool>) {
    exists p :: p in m && m[p]
  }

  /**
   * Disabling p takes the map from "some provider alive" to "none alive"
   * exactly when p was alive and it was the only one.
   */
  lemma LastProviderGoesDown(m: map<string, bool>, p: string)
    ensures (AnyAlive(m) && !AnyAlive(m[p := false]))
      <==> (p in m && m[p] && forall q :: q in m && q != p ==> !m[q])
  {
    var m' := m[p := false];
    if AnyAlive(m) && !AnyAlive(m') {
      forall q | q in m && q != p
        ensures !m[q]
      {
        assert q in m' && m'[q] == m[q];
      }
    }
  }

  /** Enabling a provider always leaves some provider alive. */
  lemma EnabledProviderIsAlive(m: map<string, bool>, p: string)
    ensures AnyAlive(m[p := true])
  {
    assert p in m[p := true] && m[p := true][p];
  }

  class GeohashService {
    var lastLocation: Option<Location>
    var info: Option<Info>
    /** mEnabledProviders; null (None) until onStart finds at least one provider. */
    var enabledProviders: Option<map<string, bool>>
    var isTracking: bool

    /**
     * While tracking, the Info bundle is there: onStart turns tracking on only after
     * updateNotification has read the destination from it.
     */
    predicate Valid()
      reads this
    {
      isTracking ==> info.Some?
    }

    constructor ()
      ensures lastLocation == None && info == None
      ensures enabledProviders == None && !isTracking
      ensures Valid()
    {
      lastLocation := None;
      info := None;
      enabledProviders := None;
      isTracking := false;
    }

    /**
     * onStart: takes the Info from the intent; with no providers, tracking stays off
     * and no map is built. Otherwise the new map holds exactly the providers, each
     * with the enabled state the LocationManager reports. updateNotification then
     * reads the destination from the Info: without one it throws (crashed), before
     * tracking is switched on; with one, tracking starts.
     */
    method OnStart(intentInfo: Option<Info>, providers: seq<string>, isProviderEnabled: string -> bool)
      returns (crashed: bool)
      modifies this`info, this`enabledProviders, this`isTracking
      ensures info == intentInfo
      ensures crashed <==> |providers| > 0 && intentInfo.None?
      ensures |providers| == 0 ==> !isTracking && enabledProviders == old(enabledProviders)
      ensures |providers| > 0 ==>
        && enabledProviders.Some?
        && (forall p :: p in enabledProviders.value <==> p in providers)
        && (forall p :: p in enabledProviders.value ==> enabledProviders.value[p] == isProviderEnabled(p))
      ensures |providers| > 0 ==> isTracking == (if crashed then old(isTracking) else true)
      ensures !crashed ==> Valid()
    {
      info := intentInfo;
      if |providers| == 0 {
        isTracking := false;
        return false;
      }
      var m: map<string, bool> := map[];
      for i := 0 to |providers|
        invariant forall p :: p in m <==> p in providers[..i]
        invariant forall p :: p in m ==> m[p] == isProviderEnabled(p)
      {
        assert providers[..i + 1] == providers[..i] + [providers[i]];
        m := m[providers[i] := isProviderEnabled(providers[i])];
      }
      assert providers[..|providers|] == providers;
      enabledProviders := Some(m);
      // updateNotification dereferences the Info.
      if info.None? {
        return true;
      }
      isTracking := true;
      return false;
    }

    /** areAnyProvidersStillAlive: walks the keys until it meets one marked enabled. */
    method AreAnyProvidersStillAlive() returns (alive: bool)
      requires enabledProviders.Some?
      ensures alive == AnyAlive(enabledProviders.value)
    {
      var m := enabledProviders.value;
      if |m| == 0 {
        return false;
      }
      var keys := m.Keys;
      while keys != {}
        invariant keys <= m.Keys
        invariant forall q :: q in m && q !in keys ==> !m[q]
        decreases keys
      {
        var s :| s in keys;
        if m[s] {
          return true;
        }
        keys := keys - {s};
      }
      return false;
    }

    /** onLocationChanged: the fix becomes the last location. */
    method OnLocationChanged(location: Location)
      modifies this`lastLocation
      ensures lastLocation == Some(location)
      ensures Valid() <==> old(Valid())
    {
      lastLocation := Some(location);
    }

    /**
     * onProviderDisabled: marks the provider down, leaving every other entry as it
     * was; if that took the last live provider down, the last location is dropped.
     * Called back only after onStart has built the map and registered the listener.
     */
    method OnProviderDisabled(provider: string)
      requires enabledProviders.Some?
      modifies this`enabledProviders, this`lastLocation
      ensures enabledProviders == Some(old(enabledProviders.value)[provider := false])
      ensures lastLocation ==
        if AnyAlive(old(enabledProviders.value)) && !AnyAlive(enabledProviders.value) then None
        else old(lastLocation)
      ensures Valid() <==> old(Valid())
    {
      var wereAnyProvidersStillAlive := AreAnyProvidersStillAlive();
      enabledProviders := Some(enabledProviders.value[provider := false]);
      var stillAlive := AreAnyProvidersStillAlive();
      if wereAnyProvidersStillAlive && !stillAlive {
        lastLocation := None;
      }
    }

    /** onProviderEnabled: marks the provider up; the last location is not touched. */
    method OnProviderEnabled(provider: string)
      requires enabledProviders.Some?
      modifies this`enabledProviders
      ensures enabledProviders == Some(old(enabledProviders.value)[provider := true])
      ensures Valid() <==> old(Valid())
    {
      enabledProviders := Some(enabledProviders.value[provider := true]);
    }

    /**
     * onStatusChanged: both branches disable the provider, so any status change,
     * AVAILABLE included, counts as the provider going down.
     */
    method OnStatusChanged(provider: string, status: int, providerEnabled: bool)
      requires enabledProviders.Some?
      modifies this`enabledProviders, this`lastLocation
      ensures enabledProviders == Some(old(enabledProviders.value)[provider := false])
      ensures lastLocation ==
        if AnyAlive(old(enabledProviders.value)) && !AnyAlive(enabledProviders.value) then None
        else old(lastLocation)
      ensures Valid() <==> old(Valid())
    {
      if status == OUT_OF_SERVICE || !providerEnabled {
        OnProviderDisabled(provider);
      } else {
        OnProviderDisabled(provider);
      }
    }

    method HasLocation() returns (has: bool)
      ensures has <==> lastLocation.Some?
    {
      has := lastLocation.Some?;
    }

    method IsTracking() returns (tracking: bool)
      ensures tracking == isTracking
    {
      tracking := isTracking;
    }

    method GetLastLocation() returns (location: Option<Location>)
      ensures location == lastLocation
    {
      location := lastLocation;
    }

    /** The accuracy of the last fix while tracking with a fix, Float.MAX_VALUE otherwise. */
    method GetLastAccuracyInMeters() returns (accuracy: real)
      ensures isTracking && lastLocation.Some? ==> accuracy == lastLocation.value.accuracy
      ensures !(isTracking && lastLocation.Some?) ==> accuracy == FLOAT_MAX_VALUE
    {
      var tracking := IsTracking();
      var has := HasLocation();
      if tracking && has {
        return lastLocation.value.accuracy;
      }
      return FLOAT_MAX_VALUE;
    }

    /**
     * The distance from the last fix to the final destination while tracking with a
     * fix, Float.MAX_VALUE otherwise; Location.distanceTo is the parameter distanceTo.
     */
    method GetLastDistanceInMeters(distanceTo: (Location, Location) -> real) returns (distance: real)
      requires Valid()
      ensures isTracking && lastLocation.Some? ==>
        distance == distanceTo(lastLocation.value, info.value.finalLocation)
      ensures !(isTracking && lastLocation.Some?) ==> distance == FLOAT_MAX_VALUE
    {
      var tracking := IsTracking();
      var has := HasLocation();
      if tracking && has {
        return distanceTo(lastLocation.value, info.value.finalLocation);
      }
      return FLOAT_MAX_VALUE;
    }
  }
}
