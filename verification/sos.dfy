/** The SOS endpoints: creating an alert, the admin listing (date window,
    optional distance filter with the distance rounded to two decimals,
    unresolved only), resolving an alert, and the resolved listing. */
module Sos {
  import opened Common

  /** A row of the `sos` table. `distance` is not a column: the admin listing
      attaches it to the alerts it returns. */
  datatype Alert = Alert(
    id: int,
    createdAt: int,
    issueRectified: bool,
    latitude: real,
    longitude: real,
    persons: Option<int>,
    userId: Option<int>,
    resolved: bool,
    distance: Option<real>)

  function Key(a: Alert): int { a.id }
  function Position(a: Alert): Point { Point(a.latitude, a.longitude) }

  /** The alert a request creates: a count of 0 (the only falsy integer)
      becomes 1, any other count, negative ones included, is stored as
      given; `resolved` takes its column default. */
  function NewAlert(id: int, persons: int, latitude: real, longitude: real,
                    caller: Option<int>, now: int): (a: Alert)
    ensures a.persons == Some(if persons == 0 then 1 else persons)
    ensures a.persons.value != 0
    ensures !a.issueRectified && !a.resolved && a.distance.None?
    ensures a.id == id && a.createdAt == now && a.userId == caller
    ensures Position(a) == Point(latitude, longitude)
  {
    Alert(id, now, false, latitude, longitude, Some(if persons != 0 then persons else 1),
          caller, false, None)
  }

  /** Python's `round(x, 2)`: the nearest multiple of 0.01, ties to the even
      multiple. */
  function Round2(x: real): (r: real)
  {
    var y := x * 100.0;
    var f := y.Floor;
    var frac := y - f as real;
    var n := if frac < 0.5 then f
             else if frac > 0.5 then f + 1
             else if f % 2 == 0 then f else f + 1;
    n as real / 100.0
  }

  /** Rounding moves a value by at most half a hundredth. */
  lemma Round2Close(x: real)
    ensures -0.005 <= Round2(x) - x <= 0.005
  {
    var y := x * 100.0;
    var f := y.Floor;
    assert f as real <= y < f as real + 1.0;
  }

  /** Against a whole number of km the rounded distance passes exactly when
      the true distance does, up to half a hundredth above it. */
  lemma Round2WithinRadius(x: real, radius: int)
    ensures x <= radius as real ==> Round2(x) <= radius as real
    ensures Round2(x) <= radius as real ==> x <= radius as real + 0.005
  {
    var y := x * 100.0;
    var f := y.Floor;
    var R := radius * 100;
    assert f as real <= y < f as real + 1.0;
    if x <= radius as real {
      assert y <= R as real;
      assert f <= R;
      if f == R {
        assert y - f as real == 0.0;
      }
    }
    Round2Close(x);
  }

  /** The date window as day numbers: both bounds, or the last two days up
      to `today` when either is missing (absent or the empty string). */
  function DateWindow(start: Option<int>, end: Option<int>, today: int): (w: (int, int))
    ensures start.None? || end.None? ==> w == (today - 2, today)
    ensures start.Some? && end.Some? ==> w == (start.value, end.value)
  {
    if start.None? || end.None? then (today - 2, today) else (start.value, end.value)
  }

  /** The window query: a date compared with a timestamp stands for midnight
      at the start of that day, so the window ends at the first second of its
      last day. */
  function InWindow(w: (int, int)): Alert -> bool
  {
    (a: Alert) => w.0 * SecondsPerDay <= a.createdAt <= w.1 * SecondsPerDay
  }

  function Unresolved(a: Alert): bool { !a.resolved }

  /** The distance stage: with both admin coordinates, the alerts whose
      rounded distance is within the radius, with that distance attached;
      without them, every alert unchanged. */
  function DistanceStage(s: seq<Alert>, adminLat: Option<real>, adminLon: Option<real>,
                         radius: int, d: DistFn): (r: seq<Alert>)
    ensures |r| <= |s|
  {
    if s == [] then []
    else
      var init := DistanceStage(s[..|s| - 1], adminLat, adminLon, radius, d);
      var a := s[|s| - 1];
      if adminLat.Some? && adminLon.Some? then
        var ad := Round2(d(Point(adminLat.value, adminLon.value), Position(a)));
        if ad <= radius as real then init + [a.(distance := Some(ad))] else init
      else init + [a]
  }

  /** What get_sos_alerts returns, for the whole table `rows`. */
  function SosListing(rows: seq<Alert>, adminLat: Option<real>, adminLon: Option<real>,
                      radius: int, start: Option<int>, end: Option<int>, today: int, d: DistFn)
    : seq<Alert>
  {
    var inWindow := Filter(rows, InWindow(DateWindow(start, end, today)));
    Filter(DistanceStage(inWindow, adminLat, adminLon, radius, d), Unresolved)
  }

  /** The listing's radius in km when the request gives none. */
  const DefaultRadius: int := 10

  /** get_sos_alerts. `radius` is the optional query parameter. */
  method GetSosAlerts(rows: seq<Alert>, adminLat: Option<real>, adminLon: Option<real>,
                      radiusParam: Option<int>, start: Option<int>, end: Option<int>,
                      today: int, d: DistFn)
    returns (r: seq<Alert>)
    ensures r == SosListing(rows, adminLat, adminLon,
                            if radiusParam.Some? then radiusParam.value else DefaultRadius,
                            start, end, today, d)
  {
    var radius := if radiusParam.Some? then radiusParam.value else DefaultRadius;
    var window := DateWindow(start, end, today);
    var alerts := Filter(rows, InWindow(window));
    var filteredAlerts: seq<Alert> := [];
    var i := 0;
    while i < |alerts|
      invariant 0 <= i <= |alerts|
      invariant filteredAlerts == DistanceStage(alerts[..i], adminLat, adminLon, radius, d)
    {
      var alert := alerts[i];
      assert alerts[..i + 1][..i] == alerts[..i];
      if adminLat.Some? && adminLon.Some? {
        var alertDistance := Round2(d(Point(adminLat.value, adminLon.value),
                                      Point(alert.latitude, alert.longitude)));
        if alertDistance <= radius as real {
          alert := alert.(distance := Some(alertDistance));
          filteredAlerts := filteredAlerts + [alert];
        }
      } else {
        filteredAlerts := filteredAlerts + [alert];
      }
      i := i + 1;
    }
    assert alerts[..|alerts|] == alerts;
    r := Filter(filteredAlerts, Unresolved);
  }

  lemma {:induction false} DistanceStageItems(s: seq<Alert>, adminLat: Option<real>,
                                              adminLon: Option<real>, radius: int, d: DistFn)
    ensures forall n :: n in DistanceStage(s, adminLat, adminLon, radius, d) ==>
      exists m :: m in s && n == m.(distance := n.distance)
    ensures adminLat.Some? && adminLon.Some? ==>
      forall n :: n in DistanceStage(s, adminLat, adminLon, radius, d) ==>
        var ad := Round2(d(Point(adminLat.value, adminLon.value), Position(n)));
        n.distance == Some(ad) && ad <= radius as real
  {
    if s != [] {
      var k := |s| - 1;
      var init := DistanceStage(s[..k], adminLat, adminLon, radius, d);
      DistanceStageItems(s[..k], adminLat, adminLon, radius, d);
      forall n | n in DistanceStage(s, adminLat, adminLon, radius, d)
        ensures exists m :: m in s && n == m.(distance := n.distance)
      {
        if n in init {
          var m :| m in s[..k] && n == m.(distance := n.distance);
          assert m in s;
        } else {
          assert s[k] in s && n == s[k].(distance := n.distance);
        }
      }
    }
  }

  /** Without both admin coordinates the distance stage keeps everything. */
  lemma {:induction false} DistanceStageNoAdmin(s: seq<Alert>, adminLat: Option<real>,
                                                adminLon: Option<real>, radius: int, d: DistFn)
    requires adminLat.None? || adminLon.None?
    ensures DistanceStage(s, adminLat, adminLon, radius, d) == s
  {
    if s != [] {
      var k := |s| - 1;
      DistanceStageNoAdmin(s[..k], adminLat, adminLon, radius, d);
      assert s == s[..k] + [s[k]];
    }
  }

  lemma {:induction false} DistanceStageComplete(s: seq<Alert>, adminLat: Option<real>,
                                                 adminLon: Option<real>, radius: int,
                                                 d: DistFn, m: Alert)
    requires adminLat.Some? && adminLon.Some? && m in s
    requires Round2(d(Point(adminLat.value, adminLon.value), Position(m))) <= radius as real
    ensures m.(distance := Some(Round2(d(Point(adminLat.value, adminLon.value), Position(m)))))
            in DistanceStage(s, adminLat, adminLon, radius, d)
  {
    var k := |s| - 1;
    if s[k] != m {
      assert m in s[..k] by { assert s == s[..k] + [s[k]]; }
      DistanceStageComplete(s[..k], adminLat, adminLon, radius, d, m);
    }
  }

  /** Every listed alert is unresolved, lies in the date window and comes from
      the table; with admin coordinates it also carries its rounded distance,
      which is within the radius. */
  lemma ListingItemsQualify(rows: seq<Alert>, adminLat: Option<real>, adminLon: Option<real>,
                            radius: int, start: Option<int>, end: Option<int>, today: int,
                            d: DistFn, n: Alert)
    requires n in SosListing(rows, adminLat, adminLon, radius, start, end, today, d)
    ensures !n.resolved
    ensures DateWindow(start, end, today).0 * SecondsPerDay <= n.createdAt
            <= DateWindow(start, end, today).1 * SecondsPerDay
    ensures exists m :: m in rows && n == m.(distance := n.distance)
    ensures adminLat.Some? && adminLon.Some? ==>
      n.distance == Some(Round2(d(Point(adminLat.value, adminLon.value), Position(n))))
      && Round2(d(Point(adminLat.value, adminLon.value), Position(n))) <= radius as real
  {
    var inWindow := Filter(rows, InWindow(DateWindow(start, end, today)));
    DistanceStageItems(inWindow, adminLat, adminLon, radius, d);
    var m :| m in inWindow && n == m.(distance := n.distance);
  }

  /** Without admin coordinates the listing is every unresolved alert of the
      window, in table order. */
  lemma ListingWithoutAdmin(rows: seq<Alert>, adminLat: Option<real>, adminLon: Option<real>,
                            radius: int, start: Option<int>, end: Option<int>, today: int,
                            d: DistFn)
    requires adminLat.None? || adminLon.None?
    ensures SosListing(rows, adminLat, adminLon, radius, start, end, today, d)
         == Filter(Filter(rows, InWindow(DateWindow(start, end, today))), Unresolved)
  {
    DistanceStageNoAdmin(Filter(rows, InWindow(DateWindow(start, end, today))),
                         adminLat, adminLon, radius, d);
  }

  /** With admin coordinates, every unresolved alert of the window whose
      rounded distance is within the radius is listed. */
  lemma ListingComplete(rows: seq<Alert>, adminLat: Option<real>, adminLon: Option<real>,
                        radius: int, start: Option<int>, end: Option<int>, today: int,
                        d: DistFn, m: Alert)
    requires adminLat.Some? && adminLon.Some? && m in rows && !m.resolved
    requires InWindow(DateWindow(start, end, today))(m)
    requires Round2(d(Point(adminLat.value, adminLon.value), Position(m))) <= radius as real
    ensures m.(distance := Some(Round2(d(Point(adminLat.value, adminLon.value), Position(m)))))
            in SosListing(rows, adminLat, adminLon, radius, start, end, today, d)
  {
    var inWindow := Filter(rows, InWindow(DateWindow(start, end, today)));
    FilterMember(rows, InWindow(DateWindow(start, end, today)), m);
    DistanceStageComplete(inWindow, adminLat, adminLon, radius, d, m);
    var n := m.(distance := Some(Round2(d(Point(adminLat.value, adminLon.value), Position(m)))));
    FilterMember(DistanceStage(inWindow, adminLat, adminLon, radius, d), Unresolved, n);
  }

  /** The resolve endpoint as a function of the table: unknown id is a 404,
      an already resolved alert a 400, and otherwise only that alert's
      `resolved` flag becomes true. */
  function ResolveAlert(rows: map<int, Alert>, id: int): (r: (Outcome, map<int, Alert>))
    ensures r.0 == Failed(NotFound) <==> id !in rows
    ensures r.0 == Failed(BadRequest) <==> id in rows && rows[id].resolved
    ensures r.0 == Done <==> id in rows && !rows[id].resolved
    ensures r.0.Failed? ==> r.1 == rows
    ensures r.0.Done? ==> r.1.Keys == rows.Keys && r.1[id].resolved
    ensures r.0.Done? ==> r.1[id].(resolved := false) == rows[id].(resolved := false)
    ensures r.0.Done? ==> forall k :: k in rows && k != id ==> r.1[k] == rows[k]
  {
    if id !in rows then (Failed(NotFound), rows)
    else if rows[id].resolved then (Failed(BadRequest), rows)
    else (Done, rows[id := rows[id].(resolved := true)])
  }

  /** A second resolve of the same alert is a 400 that changes nothing. */
  lemma ResolveTwiceFails(rows: map<int, Alert>, id: int)
    requires ResolveAlert(rows, id).0.Done?
    ensures ResolveAlert(ResolveAlert(rows, id).1, id)
         == (Failed(BadRequest), ResolveAlert(rows, id).1)
  {
  }

  /** get_resolved_sos_alerts: exactly the resolved alerts. */
  function ResolvedAlerts(rows: seq<Alert>): (r: seq<Alert>)
    ensures forall a :: a in r <==> a in rows && a.resolved
  {
    FilterMemberAll(rows, (a: Alert) => a.resolved);
    Filter(rows, (a: Alert) => a.resolved)
  }

  /** The `sos` table. */
  class SosTable {
    var rows: map<int, Alert>
    var nextId: int

    ghost predicate Valid()
      reads this
    {
      forall id :: id in rows ==> rows[id].id == id && id < nextId
    }

    constructor ()
      ensures Valid() && rows == map[] && nextId == 1
    {
      rows := map[];
      nextId := 1;
    }

    /** The SOS request: `caller` is the authenticated user, if any. */
    method Create(persons: int, latitude: real, longitude: real, caller: Option<int>, now: int)
      requires Valid()
      modifies this
      ensures Valid()
      ensures nextId == old(nextId) + 1 && old(nextId) !in old(rows)
      ensures rows == old(rows)[old(nextId) :=
        NewAlert(old(nextId), persons, latitude, longitude, caller, now)]
    {
      var alert := Alert(nextId, now, false, latitude, longitude,
                         Some(if persons != 0 then persons else 1), caller, false, None);
      rows := rows[nextId := alert];
      nextId := nextId + 1;
    }

    /** The resolve endpoint. */
    method Resolve(sosId: int) returns (r: Outcome)
      requires Valid()
      modifies this
      ensures Valid() && nextId == old(nextId)
      ensures (r, rows) == ResolveAlert(old(rows), sosId)
    {
      if sosId !in rows {
        return Failed(NotFound);
      }
      var alert := rows[sosId];
      if alert.resolved {
        return Failed(BadRequest);
      }
      alert := alert.(resolved := true);
      rows := rows[sosId := alert];
      return Done;
    }
  }
}
