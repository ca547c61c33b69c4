/**
 * DeliveryAreasService's zone search: each enabled zone's ring is closed
 * (`correctPolygon`), and the zones whose polygon holds the point are
 * reported, a same-day zone only before its cut-off hour on one of its days.
 */
module DeliveryAreas {
  import opened Common

  /** A coordinate pair; `correctPolygon` compares the two numbers only. */
  datatype Position = Position(lon: real, lat: real)

  /** A delivery zone (delivery-area schema); `enabled` is missing on old documents. */
  datatype Zone = Zone(
    description: string, coordinates: seq<Position>, sheetName: string, schedule: string,
    orderCutOffHour: int, sameDayDelivery: bool, sameDayDeliveryDays: seq<string>,
    whatsappNumber: string, enabled: Option<bool>)

  /** A ring whose last point repeats its first. */
  predicate Closed(ring: seq<Position>)
  {
    |ring| > 0 && ring[0] == ring[|ring| - 1]
  }

  /** The ring after `correctPolygon`: an open ring gets its first point again at the end. */
  function Corrected(ring: seq<Position>): (r: seq<Position>)
    requires |ring| > 0
    ensures Closed(r)
    ensures Closed(ring) ==> r == ring
    ensures !Closed(ring) ==> |r| == |ring| + 1 && r[..|ring|] == ring && r[|ring|] == ring[0]
  {
    if Closed(ring) then ring else ring + [ring[0]]
  }

  /** Closing a ring twice is closing it once. */
  lemma CorrectedIdempotent(ring: seq<Position>)
    requires |ring| > 0
    ensures Corrected(Corrected(ring)) == Corrected(ring)
  {
  }

  const NoFirstPoint := "Cannot read properties of undefined (reading '0')"

  /**
   * `correctPolygon(coordinates)` (lines 208-220): pushes the first point
   * onto the first ring, in place, when that ring is open. An empty ring has
   * no first point to read.
   */
  method CorrectPolygon(coordinates: array<seq<Position>>) returns (r: Outcome)
    requires coordinates.Length > 0
    modifies coordinates
    ensures |old(coordinates[0])| == 0 ==> r == Fail(TypeError(NoFirstPoint)) && coordinates[..] == old(coordinates[..])
    ensures |old(coordinates[0])| > 0 ==> r == Pass && coordinates[0] == Corrected(old(coordinates[0]))
    ensures forall k :: 1 <= k < coordinates.Length ==> coordinates[k] == old(coordinates[k])
  {
    var ring := coordinates[0];
    if |ring| == 0 {
      return Fail(TypeError(NoFirstPoint));
    }
    var first := ring[0];
    var last := ring[|ring| - 1];
    if first.lon != last.lon || first.lat != last.lat {
      coordinates[0] := ring + [first];
    }
    return Pass;
  }

  /** `{ enabled: true }` or `{ enabled: { $exists: false } }`. */
  predicate Enabled(zone: Zone)
  {
    zone.enabled != Some(false)
  }

  /** One entry of `matchedZones` (lines 141-157). */
  datatype ZoneMatch = ZoneMatch(message: string, zone: Zone, orderCutOffHour: int,
                                 sameDayDelivery: bool, whatsappNumber: string)

  /** The answer `{ validAddress: true, zones }`. */
  datatype SearchResult = SearchResult(validAddress: bool, zones: seq<ZoneMatch>)

  /**
   * What one zone adds (lines 131-159): nothing unless its closed polygon
   * holds the point; a same-day zone also needs the hour before its cut-off
   * and the day among its days. `correctPolygon` pushes onto the zone's own
   * coordinate array, so the zone reported carries the closed ring.
   */
  function MatchFor(zone: Zone, inside: seq<Position> -> bool, currentHour: int, currentDay: string): (m: Option<ZoneMatch>)
    requires |zone.coordinates| > 0
    ensures m.Some? <==>
      inside(Corrected(zone.coordinates))
      && (zone.sameDayDelivery ==> currentHour < zone.orderCutOffHour && currentDay in zone.sameDayDeliveryDays)
    ensures m.Some? ==>
      m.value.zone == zone.(coordinates := Corrected(zone.coordinates))
      && Closed(m.value.zone.coordinates)
      && m.value.sameDayDelivery == zone.sameDayDelivery
      && m.value.message == "Dias de entrega: " + zone.schedule
  {
    var closed := zone.(coordinates := Corrected(zone.coordinates));
    if !inside(closed.coordinates) then None
    else if zone.sameDayDelivery then
      if currentHour < zone.orderCutOffHour && currentDay in zone.sameDayDeliveryDays then
        Some(ZoneMatch("Dias de entrega: " + zone.schedule, closed, zone.orderCutOffHour, true, zone.whatsappNumber))
      else None
    else Some(ZoneMatch("Dias de entrega: " + zone.schedule, closed, zone.orderCutOffHour, false, zone.whatsappNumber))
  }

  /** Every zone has a first point. */
  predicate AllRingsNonEmpty(zones: seq<Zone>)
  {
    forall i :: 0 <= i < |zones| ==> |zones[i].coordinates| > 0
  }

  /** The matches among the zones, in zone order. */
  function Matches(zones: seq<Zone>, inside: seq<Position> -> bool, currentHour: int, currentDay: string): (r: seq<ZoneMatch>)
    requires AllRingsNonEmpty(zones)
    ensures |r| <= |zones|
    ensures forall i :: 0 <= i < |r| ==> Closed(r[i].zone.coordinates)
  {
    if |zones| == 0 then []
    else
      var init := zones[..|zones| - 1];
      var last := zones[|zones| - 1];
      Matches(init, inside, currentHour, currentDay)
      + match MatchFor(last, inside, currentHour, currentDay)
        case None => []
        case Some(m) => [m]
  }

  /**
   * The matches are exactly the zones' own matches: each comes from a zone,
   * and every zone that matches is reported.
   */
  lemma {:induction false} MatchesAreZoneMatches(zones: seq<Zone>, inside: seq<Position> -> bool, currentHour: int, currentDay: string)
    requires AllRingsNonEmpty(zones)
    ensures forall m :: m in Matches(zones, inside, currentHour, currentDay) ==>
      exists i :: 0 <= i < |zones| && MatchFor(zones[i], inside, currentHour, currentDay) == Some(m)
    ensures forall i :: 0 <= i < |zones| && MatchFor(zones[i], inside, currentHour, currentDay).Some? ==>
      MatchFor(zones[i], inside, currentHour, currentDay).value in Matches(zones, inside, currentHour, currentDay)
  {
    if |zones| > 0 {
      var init := zones[..|zones| - 1];
      assert forall i :: 0 <= i < |init| ==> init[i] == zones[i];
      MatchesAreZoneMatches(init, inside, currentHour, currentDay);
    }
  }

  const NoZone := "No encontramos esa dirección en ninguna de nuestras zonas"

  /** The enabled zones, in collection order. */
  function EnabledZones(zones: seq<Zone>): (r: seq<Zone>)
    ensures forall z :: z in r <==> z in zones && Enabled(z)
  {
    if |zones| == 0 then []
    else if Enabled(zones[0]) then [zones[0]] + EnabledZones(zones[1..])
    else EnabledZones(zones[1..])
  }

  /**
   * What `searchAreaByCoordinates` answers for the enabled zones: every
   * error is rethrown as an internal error with its message.
   */
  function Search(enabled: seq<Zone>, inside: seq<Position> -> bool, currentHour: int, currentDay: string): (r: Result<SearchResult>)
    ensures !AllRingsNonEmpty(enabled) ==> r == Err(InternalError(NoFirstPoint))
    ensures AllRingsNonEmpty(enabled) && |Matches(enabled, inside, currentHour, currentDay)| == 0 ==>
      r == Err(InternalError(NoZone))
    ensures r.Ok? ==>
      (r.value.validAddress && |r.value.zones| > 0
       && r.value.zones == Matches(enabled, inside, currentHour, currentDay))
    ensures r.Ok? ==> forall i :: 0 <= i < |r.value.zones| ==> Closed(r.value.zones[i].zone.coordinates)
  {
    if !AllRingsNonEmpty(enabled) then Err(InternalError(NoFirstPoint))
    else
      var matched := Matches(enabled, inside, currentHour, currentDay);
      if |matched| > 0 then Ok(SearchResult(true, matched)) else Err(InternalError(NoZone))
  }

  /**
   * `searchAreaByCoordinates(lat, lon, currentDay)` (lines 111-176) over the
   * zones the store holds; `inside` stands for turf's point-in-polygon test
   * on the requested point, and `currentHour` for the Buenos Aires hour.
   */
  method SearchAreaByCoordinates(zones: seq<Zone>, inside: seq<Position> -> bool, currentHour: int, currentDay: string)
    returns (r: Result<SearchResult>)
    ensures r == Search(EnabledZones(zones), inside, currentHour, currentDay)
  {
    r := SearchZones(EnabledZones(zones), inside, currentHour, currentDay);
  }

  /** The loop of lines 131-160 over the enabled zones, and the answer of lines 162-171 after it. */
  method SearchZones(enabled: seq<Zone>, inside: seq<Position> -> bool, currentHour: int, currentDay: string)
    returns (r: Result<SearchResult>)
    ensures r == Search(enabled, inside, currentHour, currentDay)
  {
    var matchedZones: seq<ZoneMatch> := [];
    var i := 0;
    while i < |enabled|
      invariant 0 <= i <= |enabled|
      invariant AllRingsNonEmpty(enabled[..i])
      invariant matchedZones == Matches(enabled[..i], inside, currentHour, currentDay)
    {
      var zone := enabled[i];
      var matched := MatchZone(zone, inside, currentHour, currentDay);
      if matched.Err? {
        return Err(matched.error);
      }
      MatchesSnoc(enabled[..i], zone, inside, currentHour, currentDay);
      assert enabled[..i] + [zone] == enabled[..i + 1];
      if matched.value.Some? {
        matchedZones := matchedZones + [matched.value.value];
      }
      i := i + 1;
    }
    assert enabled[..i] == enabled;
    if |matchedZones| > 0 {
      return Ok(SearchResult(true, matchedZones));
    }
    return Err(InternalError(NoZone));
  }

  /** Matching one more zone appends its match, if any. */
  lemma MatchesSnoc(zones: seq<Zone>, zone: Zone, inside: seq<Position> -> bool, currentHour: int, currentDay: string)
    requires AllRingsNonEmpty(zones) && |zone.coordinates| > 0
    ensures AllRingsNonEmpty(zones + [zone])
    ensures Matches(zones + [zone], inside, currentHour, currentDay)
      == Matches(zones, inside, currentHour, currentDay)
         + match MatchFor(zone, inside, currentHour, currentDay)
           case None => []
           case Some(m) => [m]
  {
    var all := zones + [zone];
    assert all[..|all| - 1] == zones && all[|all| - 1] == zone;
  }

  /**
   * The body of the loop over the zones (lines 132-159): one zone's match, if
   * any. The array handed to `correctPolygon` holds the zone's own ring, and
   * the zone reported is read back through it.
   */
  method MatchZone(zone: Zone, inside: seq<Position> -> bool, currentHour: int, currentDay: string)
    returns (r: Result<Option<ZoneMatch>>)
    ensures |zone.coordinates| == 0 ==> r == Err(InternalError(NoFirstPoint))
    ensures |zone.coordinates| > 0 ==> r == Ok(MatchFor(zone, inside, currentHour, currentDay))
  {
    var coordinates := new seq<Position>[1];
    coordinates[0] := zone.coordinates;
    var closed := CorrectPolygon(coordinates);
    if closed.Fail? {
      return Err(InternalError(closed.error.reason));
    }
    var reported := zone.(coordinates := coordinates[0]);
    var isValidPoint := inside(coordinates[0]);
    if isValidPoint {
      if zone.sameDayDelivery {
        var isBeforeCutoff := currentHour < zone.orderCutOffHour;
        var isDayAllowed := currentDay in zone.sameDayDeliveryDays;
        if isBeforeCutoff && isDayAllowed {
          return Ok(Some(ZoneMatch("Dias de entrega: " + zone.schedule, reported, zone.orderCutOffHour, true, zone.whatsappNumber)));
        }
      } else {
        return Ok(Some(ZoneMatch("Dias de entrega: " + zone.schedule, reported, zone.orderCutOffHour, false, zone.whatsappNumber)));
      }
    }
    return Ok(None);
  }

  /** A same-day zone holding the point is not reported at or after its cut-off hour. */
  lemma SameDayAfterCutOffSkipped(zone: Zone, inside: seq<Position> -> bool, currentHour: int, currentDay: string)
    requires |zone.coordinates| > 0 && zone.sameDayDelivery && currentHour >= zone.orderCutOffHour
    ensures MatchFor(zone, inside, currentHour, currentDay).None?
  {
  }
}
