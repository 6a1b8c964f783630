/** The shelter endpoints: the proximity listing, the per-user listing, and
    the owner-checked add, update and delete of the `shelters` table. */
module Shelters {
  import opened Common
  import opened Sorting

  /** A row of the `shelters` table. Timestamps are whole seconds. */
  datatype Shelter = Shelter(
    id: int,
    name: string,
    address: string,
    pincode: string,
    images: Option<string>,
    description: Option<string>,
    createdAt: int,
    updatedAt: int,
    latitude: Option<real>,
    longitude: Option<real>,
    userId: Option<int>,
    distance: Option<real>)

  function Key(s: Shelter): int { s.id }
  function Owner(s: Shelter): Option<int> { s.userId }
  function Created(s: Shelter): int { s.createdAt }

  /** The listing's test: the shelter has both coordinates and lies within
      `dist` km of the user. */
  function Nearby(user: Point, dist: int, d: DistFn): Shelter -> bool
  {
    (s: Shelter) => s.latitude.Some? && s.longitude.Some?
         && d(user, Point(s.latitude.value, s.longitude.value)) <= dist as real
  }

  /** get_shelters: `rows` is the whole table in the order the database
      returns it. */
  method GetShelters(rows: seq<Shelter>, user: Point, dist: int, d: DistFn)
    returns (r: Result<seq<Shelter>>)
    ensures r.Err? <==> forall s :: s in rows ==> !Nearby(user, dist, d)(s)
    ensures r.Err? ==> r.error == NotFound
    ensures r.Ok? ==> r.value == Filter(rows, Nearby(user, dist, d))
    ensures r.Ok? ==> forall s :: s in r.value ==>
      s in rows && s.latitude.Some? && s.longitude.Some?
      && d(user, Point(s.latitude.value, s.longitude.value)) <= dist as real
    ensures r.Ok? ==> forall s :: (s in rows && s.latitude.Some? && s.longitude.Some?
      && d(user, Point(s.latitude.value, s.longitude.value)) <= dist as real) ==> s in r.value
  {
    var nearby: seq<Shelter> := [];
    var i := 0;
    while i < |rows|
      invariant 0 <= i <= |rows|
      invariant nearby == Filter(rows[..i], Nearby(user, dist, d))
    {
      var shelter := rows[i];
      assert rows[..i + 1][..i] == rows[..i];
      if shelter.latitude.None? || shelter.longitude.None? {
        i := i + 1;
        continue;
      }
      var distance := d(user, Point(shelter.latitude.value, shelter.longitude.value));
      if distance <= dist as real {
        nearby := nearby + [shelter];
      }
      i := i + 1;
    }
    assert rows[..|rows|] == rows;
    FilterMemberAll(rows, Nearby(user, dist, d));
    if nearby == [] {
      return Err(NotFound);
    }
    assert nearby[0] in nearby;
    return Ok(nearby);
  }

  /** get_shelters_by_user: the caller's shelters, newest first. */
  function SheltersByUser(rows: seq<Shelter>, caller: int): (r: Result<seq<Shelter>>)
    ensures r.Err? <==> forall s :: s in rows ==> s.userId != Some(caller)
    ensures r.Err? ==> r.error == NotFound
    ensures r.Ok? ==> forall s :: s in r.value <==> s in rows && s.userId == Some(caller)
    ensures r.Ok? ==> multiset(r.value) == multiset(Filter(rows, OwnedBy(Owner, caller)))
    ensures r.Ok? ==> forall i, j :: 0 <= i < j < |r.value| ==> r.value[i].createdAt >= r.value[j].createdAt
  {
    ListOwned(rows, Owner, Created, caller)
  }

  /** The form fields add_shelter requires besides its file; a request
      without one of them is refused with a 422. */
  const AddFormFields: set<string> :=
    {"name", "address", "pincode", "latitude", "longitude", "userLatitude", "userLongitude"}

  /** The form fields update_shelter requires; its image is optional. */
  const UpdateFormFields: set<string> :=
    {"name", "address", "pincode", "latitude", "longitude", "description"}

  /** The image checks of add_shelter, whose file is a required form field:
      a request without it is refused with a 422 before the handler runs, so
      the handler's own "Image is required" 400 is never raised; an empty
      file is still a 400 and a failed upload a 500. */
  function AddImage(image: Option<UploadFile>, upload: Option<string>): (r: Result<string>)
    ensures image.None? ==> r == Err(Unprocessable)
    ensures r.Ok? <==> image.Some? && image.value.content != [] && upload.Some? && upload.value != ""
    ensures r.Ok? ==> r.value == upload.value
    ensures image.Some? && image.value.content == [] ==> r == Err(BadRequest)
    ensures r != Err(BadRequest) || (image.Some? && image.value.content == [])
  {
    if image.None? then Err(Unprocessable) else StoreImage(image, upload)
  }

  /** The lookup the update and delete endpoints start with: a row with that
      id that belongs to the caller. */
  predicate Owned(rows: map<int, Shelter>, id: int, caller: int)
  {
    id in rows && rows[id].userId == Some(caller)
  }

  /** The `shelters` table. Ids are assigned from `nextId`, as the database's
      autoincrement does. */
  class ShelterTable {
    var rows: map<int, Shelter>
    var nextId: int

    ghost predicate Valid()
      reads this
    {
      forall id :: id in rows ==> rows[id].id == id && id < nextId
    }

    constructor ()
      ensures Valid() && rows == map[] && nextId == 1
    {
      rows := map[];
      nextId := 1;
    }

    /** add_shelter. `upload` is what the S3 upload returns; `now` is the
        clock. The stored distance is from the shelter to the caller's
        position. */
    method Add(name: string, address: string, pincode: string, image: Option<UploadFile>,
               latitude: real, longitude: real, userLatitude: real, userLongitude: real,
               upload: Option<string>, now: int, caller: int, d: DistFn)
      returns (r: Outcome)
      requires Valid()
      modifies this
      ensures Valid()
      ensures r.Failed? <==> AddImage(image, upload).Err?
      ensures r.Failed? ==> r.error == AddImage(image, upload).error
      ensures r.Failed? ==> rows == old(rows) && nextId == old(nextId)
      ensures r.Done? ==> nextId == old(nextId) + 1 && old(nextId) !in old(rows)
      ensures r.Done? ==> rows == old(rows)[old(nextId) := Shelter(
        old(nextId), name, address, pincode, Some(upload.value), None, now, now,
        Some(latitude), Some(longitude), Some(caller),
        Some(d(Point(latitude, longitude), Point(userLatitude, userLongitude))))]
    {
      var stored := AddImage(image, upload);
      if stored.Err? {
        return Failed(stored.error);
      }
      var shelter := Shelter(
        nextId, name, address, pincode, Some(stored.value), None, now, now,
        Some(latitude), Some(longitude), Some(caller),
        Some(d(Point(latitude, longitude), Point(userLatitude, userLongitude))));
      rows := rows[nextId := shelter];
      nextId := nextId + 1;
      return Done;
    }

    /** delete_shelter: only the caller's own shelter is removed. */
    method Delete(shelterId: int, caller: int) returns (r: Outcome)
      requires Valid()
      modifies this
      ensures Valid() && nextId == old(nextId)
      ensures r == (if Owned(old(rows), shelterId, caller) then Done else Failed(NotFound))
      ensures r.Done? ==> rows == old(rows) - {shelterId}
      ensures r.Failed? ==> rows == old(rows)
    {
      if !Owned(rows, shelterId, caller) {
        return Failed(NotFound);
      }
      rows := rows - {shelterId};
      return Done;
    }

    /** update_shelter: the caller's own shelter gets the new fields; its
        image is replaced only when a new one is sent. The coordinates are
        assigned before the distance is recomputed, so the stored distance
        is from the new point to itself. */
    method Update(shelterId: int, name: string, address: string, pincode: string,
                  image: Option<UploadFile>, latitude: real, longitude: real,
                  description: string, now: int, caller: int, d: DistFn)
      returns (r: Outcome)
      requires Valid()
      modifies this
      ensures Valid() && nextId == old(nextId)
      ensures r == (if Owned(old(rows), shelterId, caller) then Done else Failed(NotFound))
      ensures r.Failed? ==> rows == old(rows)
      ensures r.Done? ==> rows.Keys == old(rows).Keys
      ensures r.Done? ==> forall id :: id in rows && id != shelterId ==> rows[id] == old(rows)[id]
      ensures r.Done? ==> rows[shelterId] == old(rows)[shelterId].(
        name := name, address := address, pincode := pincode,
        latitude := Some(latitude), longitude := Some(longitude),
        description := Some(description), updatedAt := now,
        images := if image.Some? then Some(UploadFolder + "/" + image.value.filename)
                  else old(rows)[shelterId].images,
        distance := Some(d(Point(latitude, longitude), Point(latitude, longitude))))
      ensures r.Done? && (forall p :: d(p, p) == 0.0) ==> rows[shelterId].distance == Some(0.0)
    {
      if !Owned(rows, shelterId, caller) {
        return Failed(NotFound);
      }
      var shelter := rows[shelterId];
      shelter := shelter.(name := name, address := address, pincode := pincode,
                          latitude := Some(latitude), longitude := Some(longitude),
                          description := Some(description), updatedAt := now);
      if image.Some? {
        shelter := shelter.(images := Some(UploadFolder + "/" + image.value.filename));
      }
      var here := Point(shelter.latitude.value, shelter.longitude.value);
      shelter := shelter.(distance := Some(d(Point(latitude, longitude), here)));
      rows := rows[shelterId := shelter];
      return Done;
    }
  }
}
