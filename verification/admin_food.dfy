/** The admin food-regions page: geolocation on mount, the proximity listing
    for the user's position, and the add form. */
module AdminFood {
  import opened Common
  import opened Client
  import Food

  /** The integer query parameters of the listing request: the page sends
      the radius as `distance`, a name the endpoint does not read, so the
      endpoint always uses its default radius. */
  function RegionsQuery(distance: int): (q: map<string, int>)
    ensures "distance" in q && q["distance"] == distance
    ensures "dist" !in q
    ensures Food.RadiusParam(q) == Food.DefaultRadius
  {
    map["distance" := distance]
  }

  /** The text fields the add form sends before the optional image. */
  function AddFields(form: map<string, JsValue>, chosen: (JsValue, JsValue), user: Point)
    : (parts: seq<Part>)
    ensures |parts| == 7 && forall p :: p in parts ==> p.Text?
    ensures Names(parts) == ["address", "pincode", "description", "latitude", "longitude",
                             "userLatitude", "userLongitude"]
    ensures forall i :: 0 <= i < 3 ==> parts[i].value == Field(form, parts[i].name)
    ensures parts[3] == Text("latitude", chosen.0) && parts[4] == Text("longitude", chosen.1)
    ensures parts[5] == Text("userLatitude", Num(user.latitude))
    ensures parts[6] == Text("userLongitude", Num(user.longitude))
  {
    var parts := [Text("address", Field(form, "address")),
                 Text("pincode", Field(form, "pincode")),
                 Text("description", Field(form, "description")),
                 Text("latitude", chosen.0),
                 Text("longitude", chosen.1),
                 Text("userLatitude", Num(user.latitude)),
                 Text("userLongitude", Num(user.longitude))];
    NamesAre(parts, ["address", "pincode", "description", "latitude", "longitude",
                    "userLatitude", "userLongitude"]);
    parts
  }

  /** The add request carries every form field addFood requires, and the image
      part only when an image was chosen. */
  lemma AddSendsRequiredFields(form: map<string, JsValue>, chosen: (JsValue, JsValue), user: Point,
                               image: Option<UploadFile>)
    ensures forall n :: n in Food.FormFields ==>
      n in Names(WithImage(AddFields(form, chosen, user), image))
    ensures "image" in Names(WithImage(AddFields(form, chosen, user), image)) <==> image.Some?
  {
    WithImageNames(AddFields(form, chosen, user), image);
  }

  /** The page's state; `form` holds the add form's current values. */
  class AdminFoodPage {
    var regions: seq<Food.FoodRegion>
    var loading: bool
    var userCoordinates: Option<Point>
    var selectedDistance: int
    var isModalOpen: bool
    var form: map<string, JsValue>
    var image: Option<UploadFile>
    var useCurrentLocation: bool
    var hasClient: bool

    constructor (hasClient: bool)
      ensures this.hasClient == hasClient && regions == [] && loading
      ensures userCoordinates.None? && selectedDistance == 10 && !isModalOpen
      ensures form == map[] && image.None? && useCurrentLocation
    {
      this.hasClient := hasClient;
      regions := [];
      loading := true;
      userCoordinates := None;
      selectedDistance := 10;
      isModalOpen := false;
      form := map[];
      image := None;
      useCurrentLocation := true;
    }

    /** The mount effect: without geolocation support, or when the request
        fails (`position` is `None`), loading ends; otherwise the position is
        stored. */
    method Locate(geoSupported: bool, position: Option<Point>)
      modifies this
      ensures userCoordinates ==
        (if geoSupported && position.Some? then position else old(userCoordinates))
      ensures loading == (if geoSupported && position.Some? then old(loading) else false)
      ensures regions == old(regions) && selectedDistance == old(selectedDistance)
      ensures isModalOpen == old(isModalOpen) && form == old(form) && image == old(image)
      ensures useCurrentLocation == old(useCurrentLocation) && hasClient == old(hasClient)
    {
      if !geoSupported {
        loading := false;
        return;
      }
      if position.Some? {
        userCoordinates := position;
      } else {
        loading := false;
      }
    }

    /** fetchRegions: the response replaces the list on success; `loading`
        is false afterwards either way. The result is the request's query:
        the latitude and longitude it is sent for and its integer parameters. */
    method FetchRegions(latitude: JsValue, longitude: JsValue, distance: int,
                        response: Option<seq<Food.FoodRegion>>)
      returns (query: (JsValue, JsValue, map<string, int>))
      modifies this
      ensures query == (latitude, longitude, RegionsQuery(distance))
      ensures !loading
      ensures regions == (if response.Some? then response.value else old(regions))
      ensures userCoordinates == old(userCoordinates) && selectedDistance == old(selectedDistance)
      ensures isModalOpen == old(isModalOpen) && form == old(form) && image == old(image)
      ensures useCurrentLocation == old(useCurrentLocation) && hasClient == old(hasClient)
    {
      loading := true;
      query := (latitude, longitude, RegionsQuery(distance));
      if response.Some? {
        regions := response.value;
      }
      loading := false;
    }

    /** The listing effect: a fetch runs only when the position is known and
        the selected radius is truthy (non-zero). */
    method FetchEffect(response: Option<seq<Food.FoodRegion>>)
      returns (query: Option<(JsValue, JsValue, map<string, int>)>)
      modifies this
      ensures query.Some? <==> userCoordinates.Some? && selectedDistance != 0
      ensures query.None? ==> unchanged(this)
      ensures query.Some? ==> !loading
      ensures query.Some? ==> query.value == (Num(userCoordinates.value.latitude),
                                              Num(userCoordinates.value.longitude),
                                              RegionsQuery(selectedDistance))
      ensures query.Some? ==> regions == (if response.Some? then response.value else old(regions))
      ensures userCoordinates == old(userCoordinates) && selectedDistance == old(selectedDistance)
      ensures isModalOpen == old(isModalOpen) && form == old(form) && image == old(image)
      ensures useCurrentLocation == old(useCurrentLocation) && hasClient == old(hasClient)
    {
      if userCoordinates.None? || selectedDistance == 0 {
        return None;
      }
      var q := FetchRegions(Num(userCoordinates.value.latitude),
                            Num(userCoordinates.value.longitude), selectedDistance, response);
      return Some(q);
    }

    /** handleAddRegion: the same guards as the shelters form. A falsy chosen
        coordinate stops it; with form coordinates but no known position,
        reading the user's latitude throws and only an error is reported, as
        with a missing client. After a successful post the modal closes, the
        form and image are cleared and the list is fetched again. */
    method HandleAddRegion(posted: bool, refetch: Option<seq<Food.FoodRegion>>)
      returns (request: Option<seq<Part>>,
               refetchQuery: Option<(JsValue, JsValue, map<string, int>)>)
      modifies this
      ensures var c := ChooseCoordinates(old(useCurrentLocation), old(userCoordinates), old(form));
        request == (if CoordinatesGiven(c) && old(userCoordinates).Some? && old(hasClient)
                    then Some(WithImage(AddFields(old(form), c, old(userCoordinates).value), old(image)))
                    else None)
      ensures refetchQuery.Some? <==> request.Some? && posted
      ensures refetchQuery.None? ==> unchanged(this)
      ensures refetchQuery.Some? ==>
        (var c := ChooseCoordinates(old(useCurrentLocation), old(userCoordinates), old(form));
         refetchQuery.value == (c.0, c.1, RegionsQuery(old(selectedDistance))))
        && !isModalOpen && form == map[] && image.None? && !loading
        && regions == (if refetch.Some? then refetch.value else old(regions))
      ensures userCoordinates == old(userCoordinates) && selectedDistance == old(selectedDistance)
      ensures useCurrentLocation == old(useCurrentLocation) && hasClient == old(hasClient)
    {
      var c := ChooseCoordinates(useCurrentLocation, userCoordinates, form);
      if !Truthy(c.0) || !Truthy(c.1) {
        return None, None;
      }
      if userCoordinates.None? || !hasClient {
        return None, None;
      }
      request := Some(WithImage(AddFields(form, c, userCoordinates.value), image));
      if !posted {
        return request, None;
      }
      isModalOpen := false;
      form := map[];
      image := None;
      var q := FetchRegions(c.0, c.1, selectedDistance, refetch);
      refetchQuery := Some(q);
    }
  }
}
