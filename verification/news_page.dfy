/** The admin news page: geolocation on mount, the news feed for the user's
    position, and the add form. */
module NewsPage {
  import opened Common
  import opened Client
  import News

  /** The text fields the add form sends before the optional image. */
  function AddFields(form: map<string, JsValue>, chosen: (JsValue, JsValue)): (parts: seq<Part>)
    ensures |parts| == 4 && forall p :: p in parts ==> p.Text?
    ensures Names(parts) == ["title", "description", "latitude", "longitude"]
    ensures forall i :: 0 <= i < 2 ==> parts[i].value == Field(form, parts[i].name)
    ensures parts[2] == Text("latitude", chosen.0) && parts[3] == Text("longitude", chosen.1)
  {
    var parts := [Text("title", Field(form, "title")),
                 Text("description", Field(form, "description")),
                 Text("latitude", chosen.0),
                 Text("longitude", chosen.1)];
    NamesAre(parts, ["title", "description", "latitude", "longitude"]);
    parts
  }

  /** The add request carries every form field add_news requires, and the image
      part only when an image was chosen. */
  lemma AddSendsRequiredFields(form: map<string, JsValue>, chosen: (JsValue, JsValue),
                               image: Option<UploadFile>)
    ensures forall n :: n in News.FormFields ==>
      n in Names(WithImage(AddFields(form, chosen), image))
    ensures "image" in Names(WithImage(AddFields(form, chosen), image)) <==> image.Some?
  {
    WithImageNames(AddFields(form, chosen), image);
  }

  /** The page's state; `form` holds the add form's current values. */
  class NewsAdminPage {
    var news: seq<News.NewsItem>
    var loading: bool
    var userCoordinates: Option<Point>
    var selectedDistance: int
    var isModalOpen: bool
    var form: map<string, JsValue>
    var image: Option<UploadFile>
    var useCurrentLocation: bool
    var hasClient: bool

    constructor (hasClient: bool)
      ensures this.hasClient == hasClient && news == [] && loading
      ensures userCoordinates.None? && selectedDistance == 10 && !isModalOpen
      ensures form == map[] && image.None? && useCurrentLocation
    {
      this.hasClient := hasClient;
      news := [];
      loading := true;
      userCoordinates := None;
      selectedDistance := 10;
      isModalOpen := false;
      form := map[];
      image := None;
      useCurrentLocation := true;
    }

    /** The mount effect, as on the food page. */
    method Locate(geoSupported: bool, position: Option<Point>)
      modifies this
      ensures userCoordinates ==
        (if geoSupported && position.Some? then position else old(userCoordinates))
      ensures loading == (if geoSupported && position.Some? then old(loading) else false)
      ensures news == old(news) && selectedDistance == old(selectedDistance)
      ensures isModalOpen == old(isModalOpen) && form == old(form) && image == old(image)
      ensures useCurrentLocation == old(useCurrentLocation) && hasClient == old(hasClient)
    {
      if !geoSupported {
        loading := false;
        return;
      }
      if position.Some? {
        userCoordinates := position;
      } else {
        loading := false;
      }
    }

    /** fetchNews: the response's news replaces the list on success;
        `loading` is false afterwards either way. The result is the
        request's query: the latitude and longitude it is sent for and the
        radius the feed endpoint receives. */
    method FetchNews(latitude: JsValue, longitude: JsValue, distance: int,
                     response: Option<seq<News.NewsItem>>)
      returns (query: (JsValue, JsValue, Option<real>))
      modifies this
      ensures query == (latitude, longitude, Some(distance as real))
      ensures !loading
      ensures news == (if response.Some? then response.value else old(news))
      ensures userCoordinates == old(userCoordinates) && selectedDistance == old(selectedDistance)
      ensures isModalOpen == old(isModalOpen) && form == old(form) && image == old(image)
      ensures useCurrentLocation == old(useCurrentLocation) && hasClient == old(hasClient)
    {
      loading := true;
      query := (latitude, longitude, Some(distance as real));
      if response.Some? {
        news := response.value;
      }
      loading := false;
    }

    /** The listing effect: a fetch runs only when the position is known and
        the selected radius is non-zero. */
    method FetchEffect(response: Option<seq<News.NewsItem>>)
      returns (query: Option<(JsValue, JsValue, Option<real>)>)
      modifies this
      ensures query.Some? <==> userCoordinates.Some? && selectedDistance != 0
      ensures query.None? ==> unchanged(this)
      ensures query.Some? ==> !loading
      ensures query.Some? ==> query.value == (Num(userCoordinates.value.latitude),
                                              Num(userCoordinates.value.longitude),
                                              Some(selectedDistance as real))
      ensures query.Some? ==> news == (if response.Some? then response.value else old(news))
      ensures userCoordinates == old(userCoordinates) && selectedDistance == old(selectedDistance)
      ensures isModalOpen == old(isModalOpen) && form == old(form) && image == old(image)
      ensures useCurrentLocation == old(useCurrentLocation) && hasClient == old(hasClient)
    {
      if userCoordinates.None? || selectedDistance == 0 {
        return None;
      }
      var q := FetchNews(Num(userCoordinates.value.latitude),
                         Num(userCoordinates.value.longitude), selectedDistance, response);
      return Some(q);
    }

    /** handleAddNews: a falsy chosen coordinate stops it before any
        request. Unlike the shelters and food forms it does not send the
        user's position, so form coordinates need no known position. After a
        successful post the modal closes, the form and image are cleared and
        the feed is fetched again for the chosen coordinates. */
    method HandleAddNews(posted: bool, refetch: Option<seq<News.NewsItem>>)
      returns (request: Option<seq<Part>>,
               refetchQuery: Option<(JsValue, JsValue, Option<real>)>)
      modifies this
      ensures var c := ChooseCoordinates(old(useCurrentLocation), old(userCoordinates), old(form));
        request == (if CoordinatesGiven(c) && old(hasClient)
                    then Some(WithImage(AddFields(old(form), c), old(image)))
                    else None)
      ensures refetchQuery.Some? <==> request.Some? && posted
      ensures refetchQuery.None? ==> unchanged(this)
      ensures refetchQuery.Some? ==>
        (var c := ChooseCoordinates(old(useCurrentLocation), old(userCoordinates), old(form));
         refetchQuery.value == (c.0, c.1, Some(old(selectedDistance) as real)))
        && !isModalOpen && form == map[] && image.None? && !loading
        && news == (if refetch.Some? then refetch.value else old(news))
      ensures userCoordinates == old(userCoordinates) && selectedDistance == old(selectedDistance)
      ensures useCurrentLocation == old(useCurrentLocation) && hasClient == old(hasClient)
    {
      var c := ChooseCoordinates(useCurrentLocation, userCoordinates, form);
      if !Truthy(c.0) || !Truthy(c.1) {
        return None, None;
      }
      if !hasClient {
        return None, None;
      }
      request := Some(WithImage(AddFields(form, c), image));
      if !posted {
        return request, None;
      }
      isModalOpen := false;
      form := map[];
      image := None;
      var q := FetchNews(c.0, c.1, selectedDistance, refetch);
      refetchQuery := Some(q);
    }
  }
}
