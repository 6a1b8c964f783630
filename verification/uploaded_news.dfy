/** The "uploaded news" page: the user's own news items, fetched from
    `mynews`, updated through a modal form and deleted by id. */
module UploadedNews {
  import opened Common
  import opened Client
  import News

  /** The text fields the update form sends, in the order they are
      appended, before the optional image. */
  function UpdateFields(values: map<string, JsValue>): (parts: seq<Part>)
    ensures |parts| == 4
    ensures forall p :: p in parts ==> p.Text? && p.value == Field(values, p.name)
    ensures Names(parts) == ["title", "description", "longitude", "latitude"]
  {
    var parts := [Text("title", Field(values, "title")),
                 Text("description", Field(values, "description")),
                 Text("longitude", Field(values, "longitude")),
                 Text("latitude", Field(values, "latitude"))];
    NamesAre(parts, ["title", "description", "longitude", "latitude"]);
    parts
  }

  /** The update request carries every form field update_news requires, and the
      image part only when a new image was chosen. */
  lemma UpdateSendsRequiredFields(values: map<string, JsValue>,
                                  image: Option<UploadFile>)
    ensures forall n :: n in News.FormFields ==>
      n in Names(WithImage(UpdateFields(values), image))
    ensures "image" in Names(WithImage(UpdateFields(values), image)) <==> image.Some?
  {
    WithImageNames(UpdateFields(values), image);
  }

  /** The page's state. `hasClient` says whether the API client exists yet;
      each handler receives the outcome of its request (`None` or `false`
      when the request throws). */
  class UploadedNewsPage {
    var news: seq<News.NewsItem>
    var loading: bool
    var isModalOpen: bool
    var selectedNews: Option<News.NewsItem>
    var imageFile: Option<UploadFile>
    var updating: bool
    var deleting: bool
    var hasClient: bool

    constructor (hasClient: bool)
      ensures this.hasClient == hasClient && news == [] && loading
      ensures !isModalOpen && selectedNews.None? && imageFile.None? && !updating && !deleting
    {
      this.hasClient := hasClient;
      news := [];
      loading := true;
      isModalOpen := false;
      selectedNews := None;
      imageFile := None;
      updating := false;
      deleting := false;
    }

    /** fetchUserNews: nothing happens without a client; otherwise a successful
        response replaces the list, a failed one leaves it, and `loading`
        ends false. */
    method FetchUserNews(response: Option<seq<News.NewsItem>>) returns (requested: bool)
      modifies this
      ensures requested == hasClient
      ensures !requested ==> unchanged(this)
      ensures requested ==> !loading
      ensures requested ==> news == (if response.Some? then response.value else old(news))
      ensures isModalOpen == old(isModalOpen) && selectedNews == old(selectedNews) && imageFile == old(imageFile)
      ensures updating == old(updating) && deleting == old(deleting) && hasClient == old(hasClient)
    {
      if !hasClient {
        return false;
      }
      loading := true;
      if response.Some? {
        news := response.value;
      }
      loading := false;
      return true;
    }

    /** handleDeleteNews: after a successful delete every item with that id is
        gone and the others keep their order; after a failure (or without a
        client) the list is unchanged. `deleting` ends false either way. */
    method HandleDeleteNews(newsId: int, succeeded: bool) returns (deleted: bool)
      modifies this
      ensures deleted == (hasClient && succeeded)
      ensures news == (if deleted then RemoveById(old(news), News.Key, newsId) else old(news))
      ensures !deleting
      ensures loading == old(loading) && isModalOpen == old(isModalOpen) && selectedNews == old(selectedNews)
      ensures imageFile == old(imageFile) && updating == old(updating) && hasClient == old(hasClient)
    {
      deleting := true;
      deleted := hasClient && succeeded;
      if deleted {
        news := RemoveById(news, News.Key, newsId);
      }
      deleting := false;
    }

    /** handleUpdateNews: the request goes to the selected item's id and carries
        the form's fields and, only when a new file was chosen, the image.
        Without a client or a selection the call throws before any request.
        A successful update closes the modal and refetches the list; a
        failure leaves the modal open. `updating` ends false either way. */
    method HandleUpdateNews(values: map<string, JsValue>, succeeded: bool,
                    refetch: Option<seq<News.NewsItem>>)
      returns (request: Option<(int, seq<Part>)>, updated: bool)
      modifies this
      ensures request == (if old(hasClient) && old(selectedNews).Some?
        then Some((old(selectedNews).value.id, WithImage(UpdateFields(values), old(imageFile))))
        else None)
      ensures updated == (request.Some? && succeeded)
      ensures updated ==> !isModalOpen && !loading
      ensures updated ==> news == (if refetch.Some? then refetch.value else old(news))
      ensures !updated ==> isModalOpen == old(isModalOpen) && loading == old(loading)
      ensures !updated ==> news == old(news)
      ensures !updating
      ensures selectedNews == old(selectedNews) && imageFile == old(imageFile)
      ensures deleting == old(deleting) && hasClient == old(hasClient)
    {
      updating := true;
      var formData := WithImage(UpdateFields(values), imageFile);
      if !hasClient || selectedNews.None? {
        updating := false;
        return None, false;
      }
      request := Some((selectedNews.value.id, formData));
      if !succeeded {
        updating := false;
        return request, false;
      }
      isModalOpen := false;
      var _ := FetchUserNews(refetch);
      updating := false;
      return request, true;
    }
  }
}
