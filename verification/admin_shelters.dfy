/** The admin shelters page: one geolocation request per mount, the proximity
    listing for the user's position, and the add form. */
module AdminShelters {
  import opened Common
  import opened Client
  import Shelters

  /** What `response.data.shelters` holds: an array, or anything else. */
  datatype Payload = Array(items: seq<Shelters.Shelter>) | NotArray

  /** The text fields the add form sends before the optional image: the
      form's own fields, the chosen coordinates, and the user's position. */
  function AddFields(form: map<string, JsValue>, chosen: (JsValue, JsValue), user: Point)
    : (parts: seq<Part>)
    ensures |parts| == 7 && forall p :: p in parts ==> p.Text?
    ensures Names(parts) == ["name", "address", "pincode", "latitude", "longitude",
                             "userLatitude", "userLongitude"]
    ensures forall i :: 0 <= i < 3 ==> parts[i].value == Field(form, parts[i].name)
    ensures parts[3] == Text("latitude", chosen.0) && parts[4] == Text("longitude", chosen.1)
    ensures parts[5] == Text("userLatitude", Num(user.latitude))
    ensures parts[6] == Text("userLongitude", Num(user.longitude))
  {
    var parts := [Text("name", Field(form, "name")),
                 Text("address", Field(form, "address")),
                 Text("pincode", Field(form, "pincode")),
                 Text("latitude", chosen.0),
                 Text("longitude", chosen.1),
                 Text("userLatitude", Num(user.latitude)),
                 Text("userLongitude", Num(user.longitude))];
    NamesAre(parts, ["name", "address", "pincode", "latitude", "longitude", "userLatitude",
                    "userLongitude"]);
    parts
  }

  /** The add request carries every form field add_shelter requires; its file
      is required too, so a request sent without a chosen image is refused
      with a 422. */
  lemma AddSendsRequiredFields(form: map<string, JsValue>, chosen: (JsValue, JsValue), user: Point,
                               image: Option<UploadFile>)
    ensures forall n :: n in Shelters.AddFormFields ==>
      n in Names(WithImage(AddFields(form, chosen, user), image))
    ensures "image" in Names(WithImage(AddFields(form, chosen, user), image)) <==> image.Some?
  {
    WithImageNames(AddFields(form, chosen, user), image);
  }

  /** The page's state. `form` holds the add form's current values and
      `fetchedOnce` is the ref that guards the geolocation request. */
  class AdminSheltersPage {
    var shelters: seq<Shelters.Shelter>
    var loading: bool
    var userCoordinates: Option<Point>
    var selectedDistance: int
    var isModalOpen: bool
    var form: map<string, JsValue>
    var image: Option<UploadFile>
    var useCurrentLocation: bool
    var fetchedOnce: bool
    var hasClient: bool

    constructor (hasClient: bool)
      ensures this.hasClient == hasClient && shelters == [] && loading
      ensures userCoordinates.None? && selectedDistance == 10 && !isModalOpen
      ensures form == map[] && image.None? && useCurrentLocation && !fetchedOnce
    {
      this.hasClient := hasClient;
      shelters := [];
      loading := true;
      userCoordinates := None;
      selectedDistance := 10;
      isModalOpen := false;
      form := map[];
      image := None;
      useCurrentLocation := true;
      fetchedOnce := false;
    }

    /** The mount effect: geolocation is requested only on the first run.
        `position` is what the request yields, `None` on error; a failure
        or missing support ends the loading state. */
    method LocateOnce(geoSupported: bool, position: Option<Point>) returns (requested: bool)
      modifies this
      ensures requested == (!old(fetchedOnce) && geoSupported)
      ensures fetchedOnce
      ensures old(fetchedOnce) ==> unchanged(this)
      ensures userCoordinates ==
        (if requested && position.Some? then position else old(userCoordinates))
      ensures loading ==
        (if !old(fetchedOnce) && !(requested && position.Some?) then false else old(loading))
      ensures shelters == old(shelters) && selectedDistance == old(selectedDistance)
      ensures isModalOpen == old(isModalOpen) && form == old(form) && image == old(image)
      ensures useCurrentLocation == old(useCurrentLocation) && hasClient == old(hasClient)
    {
      if fetchedOnce {
        return false;
      }
      fetchedOnce := true;
      if !geoSupported {
        loading := false;
        return false;
      }
      if position.Some? {
        userCoordinates := position;
      } else {
        loading := false;
      }
      return true;
    }

    /** fetchShelters: the list is replaced only when the response carries
        an array; `loading` ends false whatever happens. */
    method FetchShelters(latitude: JsValue, longitude: JsValue, distance: int,
                         response: Option<Payload>)
      modifies this
      ensures !loading
      ensures shelters == (if response.Some? && response.value.Array?
                           then response.value.items else old(shelters))
      ensures userCoordinates == old(userCoordinates) && selectedDistance == old(selectedDistance)
      ensures isModalOpen == old(isModalOpen) && form == old(form) && image == old(image)
      ensures useCurrentLocation == old(useCurrentLocation) && fetchedOnce == old(fetchedOnce)
      ensures hasClient == old(hasClient)
    {
      if response.Some? {
        if response.value.Array? {
          shelters := response.value.items;
        }
      }
      loading := false;
    }

    /** The listing effect: it fetches for the user's position and the
        selected radius once the position is known. */
    method FetchEffect(response: Option<Payload>) returns (query: Option<(JsValue, JsValue, int)>)
      modifies this
      ensures userCoordinates.None? ==> query.None? && unchanged(this)
      ensures userCoordinates.Some? ==> query == Some((Num(userCoordinates.value.latitude),
        Num(userCoordinates.value.longitude), selectedDistance))
      ensures userCoordinates.Some? ==> !loading
      ensures userCoordinates.Some? ==> (shelters ==
        if response.Some? && response.value.Array? then response.value.items else old(shelters))
      ensures userCoordinates == old(userCoordinates) && selectedDistance == old(selectedDistance)
      ensures isModalOpen == old(isModalOpen) && form == old(form) && image == old(image)
      ensures useCurrentLocation == old(useCurrentLocation) && fetchedOnce == old(fetchedOnce)
      ensures hasClient == old(hasClient)
    {
      if userCoordinates.None? {
        return None;
      }
      var lat := Num(userCoordinates.value.latitude);
      var lon := Num(userCoordinates.value.longitude);
      query := Some((lat, lon, selectedDistance));
      FetchShelters(lat, lon, selectedDistance, response);
    }

    /** handleAddShelter. A falsy chosen coordinate stops it before any
        request. With coordinates from the form but no known user position,
        reading the user's latitude throws and the handler only reports the
        error; so does a missing client. After a successful post the modal
        closes, the form and the image are cleared, and the list is fetched
        for the chosen coordinates and the selected radius. */
    method HandleAddShelter(posted: bool, refetch: Option<Payload>)
      returns (request: Option<seq<Part>>, refetchQuery: Option<(JsValue, JsValue, int)>)
      modifies this
      ensures var c := ChooseCoordinates(old(useCurrentLocation), old(userCoordinates), old(form));
        request == (if CoordinatesGiven(c) && old(userCoordinates).Some? && old(hasClient)
                    then Some(WithImage(AddFields(old(form), c, old(userCoordinates).value), old(image)))
                    else None)
      ensures refetchQuery.Some? <==> request.Some? && posted
      ensures refetchQuery.None? ==> unchanged(this)
      ensures refetchQuery.Some? ==>
        var c := ChooseCoordinates(old(useCurrentLocation), old(userCoordinates), old(form));
        refetchQuery == Some((c.0, c.1, old(selectedDistance)))
        && !isModalOpen && form == map[] && image.None? && !loading
        && shelters == (if refetch.Some? && refetch.value.Array? then refetch.value.items
                        else old(shelters))
      ensures userCoordinates == old(userCoordinates) && selectedDistance == old(selectedDistance)
      ensures useCurrentLocation == old(useCurrentLocation) && fetchedOnce == old(fetchedOnce)
      ensures hasClient == old(hasClient)
    {
      var c := ChooseCoordinates(useCurrentLocation, userCoordinates, form);
      if !Truthy(c.0) || !Truthy(c.1) {
        return None, None;
      }
      if userCoordinates.None? || !hasClient {
        return None, None;
      }
      var formData := WithImage(AddFields(form, c, userCoordinates.value), image);
      request := Some(formData);
      if !posted {
        return request, None;
      }
      isModalOpen := false;
      form := map[];
      image := None;
      refetchQuery := Some((c.0, c.1, selectedDistance));
      FetchShelters(c.0, c.1, selectedDistance, refetch);
    }
  }

  /** Two mounts request the position at most once. */
  method MountTwice(page: AdminSheltersPage, geoSupported: bool, position: Option<Point>)
    returns (first: bool, second: bool)
    modifies page
    ensures !second
    ensures first == (!old(page.fetchedOnce) && geoSupported)
  {
    first := page.LocateOnce(geoSupported, position);
    second := page.LocateOnce(geoSupported, position);
  }
}
