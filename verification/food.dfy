/** The food-providing-region endpoints: the proximity listing, the per-user
    listing, and add, update and delete of the `food` table. Unlike shelters
    and news, update and delete look a row up by id alone. */
module Food {
  import opened Common
  import opened Sorting

  /** A row of the `food` table. */
  datatype FoodRegion = FoodRegion(
    id: int,
    createdAt: int,
    latitude: Option<real>,
    longitude: Option<real>,
    address: string,
    pincode: string,
    description: Option<string>,
    images: Option<string>,
    userId: Option<int>,
    distance: Option<real>)

  function Key(f: FoodRegion): int { f.id }
  function Owner(f: FoodRegion): Option<int> { f.userId }
  function Created(f: FoodRegion): int { f.createdAt }

  const DefaultRadius: int := 10

  /** The form fields addFood and update_food_region require; the caller's
      coordinates and the image are optional. */
  const FormFields: set<string> := {"address", "pincode", "description", "latitude", "longitude"}

  /** The `dist` query parameter of the listing, 10 when the request does not
      carry it. `query` holds the request's integer parameters by name. */
  function RadiusParam(query: map<string, int>): (radius: int)
    ensures "dist" !in query ==> radius == DefaultRadius
    ensures "dist" in query ==> radius == query["dist"]
  {
    if "dist" in query then query["dist"] else DefaultRadius
  }

  function Nearby(user: Point, radius: int, d: DistFn): FoodRegion -> bool
  {
    (f: FoodRegion) => f.latitude.Some? && f.longitude.Some?
         && d(user, Point(f.latitude.value, f.longitude.value)) <= radius as real
  }

  /** getFood: the regions with coordinates within the radius of the user,
      in table order, or 404. */
  method GetFood(rows: seq<FoodRegion>, user: Point, query: map<string, int>, d: DistFn)
    returns (r: Result<seq<FoodRegion>>)
    ensures r.Err? <==> forall f :: f in rows ==> !Nearby(user, RadiusParam(query), d)(f)
    ensures r.Err? ==> r.error == NotFound
    ensures r.Ok? ==> r.value == Filter(rows, Nearby(user, RadiusParam(query), d))
    ensures r.Ok? ==> forall f :: f in r.value ==>
      f in rows && f.latitude.Some? && f.longitude.Some?
      && d(user, Point(f.latitude.value, f.longitude.value)) <= RadiusParam(query) as real
    ensures r.Ok? ==> forall f :: (f in rows && f.latitude.Some? && f.longitude.Some?
      && d(user, Point(f.latitude.value, f.longitude.value)) <= RadiusParam(query) as real) ==> f in r.value
  {
    var dist := RadiusParam(query);
    var nearbyFood: seq<FoodRegion> := [];
    var i := 0;
    while i < |rows|
      invariant 0 <= i <= |rows|
      invariant nearbyFood == Filter(rows[..i], Nearby(user, dist, d))
    {
      var region := rows[i];
      assert rows[..i + 1][..i] == rows[..i];
      if region.latitude.None? || region.longitude.None? {
        i := i + 1;
        continue;
      }
      var distance := d(user, Point(region.latitude.value, region.longitude.value));
      if distance <= dist as real {
        nearbyFood := nearbyFood + [region];
      }
      i := i + 1;
    }
    assert rows[..|rows|] == rows;
    FilterMemberAll(rows, Nearby(user, dist, d));
    if nearbyFood == [] {
      return Err(NotFound);
    }
    assert nearbyFood[0] in nearbyFood;
    return Ok(nearbyFood);
  }

  /** get_food_by_user_id: the caller's regions, newest first. */
  function FoodByUser(rows: seq<FoodRegion>, caller: int): (r: Result<seq<FoodRegion>>)
    ensures r.Err? <==> forall f :: f in rows ==> f.userId != Some(caller)
    ensures r.Err? ==> r.error == NotFound
    ensures r.Ok? ==> forall f :: f in r.value <==> f in rows && f.userId == Some(caller)
    ensures r.Ok? ==> multiset(r.value) == multiset(Filter(rows, OwnedBy(Owner, caller)))
    ensures r.Ok? ==> forall i, j :: 0 <= i < j < |r.value| ==> r.value[i].createdAt >= r.value[j].createdAt
  {
    ListOwned(rows, Owner, Created, caller)
  }

  /** The `food` table. */
  class FoodTable {
    var rows: map<int, FoodRegion>
    var nextId: int

    ghost predicate Valid()
      reads this
    {
      forall id :: id in rows ==> rows[id].id == id && id < nextId
    }

    constructor ()
      ensures Valid() && rows == map[] && nextId == 1
    {
      rows := map[];
      nextId := 1;
    }

    /** addFood. The caller's coordinates are optional form fields; the
        distance computation fails on a missing one, after the image was
        uploaded, and the unhandled error is a 500. */
    method Add(address: string, pincode: string, description: string,
               latitude: real, longitude: real,
               userLatitude: Option<real>, userLongitude: Option<real>,
               image: Option<UploadFile>, upload: Option<string>,
               now: int, caller: int, d: DistFn)
      returns (r: Outcome)
      requires Valid()
      modifies this
      ensures Valid()
      ensures StoreImage(image, upload).Err? ==> r == Failed(StoreImage(image, upload).error)
      ensures StoreImage(image, upload).Ok? && (userLatitude.None? || userLongitude.None?)
              ==> r == Failed(ServerError)
      ensures r.Failed? ==> rows == old(rows) && nextId == old(nextId)
      ensures r.Done? <==> StoreImage(image, upload).Ok? && userLatitude.Some? && userLongitude.Some?
      ensures r.Done? ==> nextId == old(nextId) + 1 && old(nextId) !in old(rows)
      ensures r.Done? ==> rows == old(rows)[old(nextId) := FoodRegion(
        old(nextId), now, Some(latitude), Some(longitude), address, pincode,
        Some(description), Some(upload.value), Some(caller),
        Some(d(Point(latitude, longitude), Point(userLatitude.value, userLongitude.value))))]
    {
      var stored := StoreImage(image, upload);
      if stored.Err? {
        return Failed(stored.error);
      }
      if userLatitude.None? || userLongitude.None? {
        return Failed(ServerError);
      }
      var dist := d(Point(latitude, longitude), Point(userLatitude.value, userLongitude.value));
      var region := FoodRegion(
        nextId, now, Some(latitude), Some(longitude), address, pincode,
        Some(description), Some(stored.value), Some(caller), Some(dist));
      rows := rows[nextId := region];
      nextId := nextId + 1;
      return Done;
    }

    /** update_food_region: any caller may update any region. */
    method Update(foodId: int, address: string, pincode: string, description: string,
                  latitude: real, longitude: real, image: Option<UploadFile>)
      returns (r: Outcome)
      requires Valid()
      modifies this
      ensures Valid() && nextId == old(nextId)
      ensures r == (if foodId in old(rows) then Done else Failed(NotFound))
      ensures r.Failed? ==> rows == old(rows)
      ensures r.Done? ==> rows.Keys == old(rows).Keys
      ensures r.Done? ==> forall id :: id in rows && id != foodId ==> rows[id] == old(rows)[id]
      ensures r.Done? ==> rows[foodId] == old(rows)[foodId].(
        address := address, pincode := pincode, description := Some(description),
        latitude := Some(latitude), longitude := Some(longitude),
        images := if image.Some? then Some(UploadFolder + "/" + image.value.filename)
                  else old(rows)[foodId].images)
    {
      if foodId !in rows {
        return Failed(NotFound);
      }
      var region := rows[foodId];
      if image.Some? {
        region := region.(images := Some(UploadFolder + "/" + image.value.filename));
      }
      region := region.(address := address, pincode := pincode, description := Some(description),
                        latitude := Some(latitude), longitude := Some(longitude));
      rows := rows[foodId := region];
      return Done;
    }

    /** delete_food_region: any caller may delete any region. */
    method Delete(foodId: int) returns (r: Outcome)
      requires Valid()
      modifies this
      ensures Valid() && nextId == old(nextId)
      ensures r == (if foodId in old(rows) then Done else Failed(NotFound))
      ensures r.Done? ==> rows == old(rows) - {foodId}
      ensures r.Failed? ==> rows == old(rows)
    {
      if foodId !in rows {
        return Failed(NotFound);
      }
      rows := rows - {foodId};
      return Done;
    }
  }
}
