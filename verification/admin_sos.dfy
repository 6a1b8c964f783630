/** The admin SOS page: the active alert list fetched for the admin's
    position, the resolved list, and the move of a resolved alert from one to
    the other. */
module AdminSos {
  import opened Common
  import opened Client
  import Sos

  /** The page's state. `hasClient` says whether the API client exists yet;
      a network outcome is passed to each handler, `None` when the request
      throws. */
  class AdminSosPage {
    var loading: bool
    var sosAlerts: seq<Sos.Alert>
    var resolvedSosAlerts: seq<Option<Sos.Alert>>
    var adminLatitude: JsValue
    var adminLongitude: JsValue
    var hasClient: bool

    constructor (hasClient: bool)
      ensures this.hasClient == hasClient && loading
      ensures sosAlerts == [] && resolvedSosAlerts == []
      ensures adminLatitude == Str("") && adminLongitude == Str("")
    {
      this.hasClient := hasClient;
      loading := true;
      sosAlerts := [];
      resolvedSosAlerts := [];
      adminLatitude := Str("");
      adminLongitude := Str("");
    }

    /** fetchSOSAlerts: no request without a client or with a falsy admin
        coordinate (0 included); otherwise the response replaces the list
        and `loading` ends false, whether or not the request failed. */
    method FetchSosAlerts(response: Option<seq<Sos.Alert>>) returns (requested: bool)
      modifies this
      ensures requested == (hasClient && Truthy(adminLatitude) && Truthy(adminLongitude))
      ensures !requested ==> unchanged(this)
      ensures requested ==> !loading && resolvedSosAlerts == old(resolvedSosAlerts)
      ensures requested ==> sosAlerts == (if response.Some? then response.value else old(sosAlerts))
      ensures adminLatitude == old(adminLatitude) && adminLongitude == old(adminLongitude)
      ensures hasClient == old(hasClient)
    {
      if !hasClient {
        return false;
      }
      if !Truthy(adminLatitude) || !Truthy(adminLongitude) {
        return false;
      }
      loading := true;
      if response.Some? {
        sosAlerts := response.value;
      }
      loading := false;
      return true;
    }

    /** fetchResolvedSOSAlerts: replaces the resolved list on success. */
    method FetchResolved(response: Option<seq<Sos.Alert>>) returns (requested: bool)
      modifies this
      ensures requested == hasClient
      ensures !requested ==> unchanged(this)
      ensures requested ==> (resolvedSosAlerts ==
        if response.Some? then Present(response.value) else old(resolvedSosAlerts))
      ensures sosAlerts == old(sosAlerts) && loading == old(loading)
      ensures adminLatitude == old(adminLatitude) && adminLongitude == old(adminLongitude)
      ensures hasClient == old(hasClient)
    {
      if !hasClient {
        return false;
      }
      if response.Some? {
        resolvedSosAlerts := Present(response.value);
      }
      return true;
    }

    /** handleResolveSOS. `succeeded` is whether the PUT succeeded; without
        a client the call throws and is handled as a failure. On success the
        first active alert with that id (or `undefined`) is appended to the
        resolved list and every active alert with that id is dropped. */
    method ResolveSos(sosId: int, succeeded: bool) returns (moved: bool)
      modifies this
      ensures moved == (hasClient && succeeded)
      ensures !moved ==> unchanged(this)
      ensures moved ==> (resolvedSosAlerts ==
        old(resolvedSosAlerts) + [Find(old(sosAlerts), Sos.Key, sosId)])
      ensures moved ==> sosAlerts == RemoveById(old(sosAlerts), Sos.Key, sosId)
      ensures loading == old(loading) && hasClient == old(hasClient)
      ensures adminLatitude == old(adminLatitude) && adminLongitude == old(adminLongitude)
    {
      if !hasClient || !succeeded {
        return false;
      }
      var resolvedAlert := Find(sosAlerts, Sos.Key, sosId);
      resolvedSosAlerts := resolvedSosAlerts + [resolvedAlert];
      sosAlerts := RemoveById(sosAlerts, Sos.Key, sosId);
      return true;
    }
  }

  /** The active list after a resolve: no alert with that id is left, every
      other alert remains, exactly as many are dropped as carried the id,
      and a repeated removal drops nothing more. */
  lemma ResolveRemoves(alerts: seq<Sos.Alert>, sosId: int)
    ensures forall a :: a in RemoveById(alerts, Sos.Key, sosId) ==> a.id != sosId
    ensures forall a :: a in alerts && a.id != sosId ==> a in RemoveById(alerts, Sos.Key, sosId)
    ensures |RemoveById(alerts, Sos.Key, sosId)| + |Filter(alerts, HasKey(Sos.Key, sosId))| == |alerts|
    ensures RemoveById(RemoveById(alerts, Sos.Key, sosId), Sos.Key, sosId)
         == RemoveById(alerts, Sos.Key, sosId)
  {
    RemoveByIdCount(alerts, Sos.Key, sosId);
    var r := RemoveById(alerts, Sos.Key, sosId);
    FilterAll(r, KeyIsNot(Sos.Key, sosId));
  }

  /** A resolve moves the alert: the one appended to the resolved list is the
      first active alert with that id, and when the ids are distinct (they
      are the table's keys) it is the only one that leaves the active list,
      so no alert is lost or duplicated. */
  lemma ResolveMoves(alerts: seq<Sos.Alert>, sosId: int, i: int)
    requires 0 <= i < |alerts| && alerts[i].id == sosId
    requires forall j :: 0 <= j < i ==> alerts[j].id != sosId
    ensures Find(alerts, Sos.Key, sosId) == Some(alerts[i])
    ensures (forall j, k :: 0 <= j < k < |alerts| ==> alerts[j].id != alerts[k].id) ==>
      multiset(RemoveById(alerts, Sos.Key, sosId)) + multiset{alerts[i]} == multiset(alerts)
  {
    FindFirst(alerts, Sos.Key, sosId, i);
    if forall j, k :: 0 <= j < k < |alerts| ==> alerts[j].id != alerts[k].id {
      RemoveByIdUnique(alerts, Sos.Key, i);
    }
  }
}
