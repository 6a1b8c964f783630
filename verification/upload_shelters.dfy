/** The "uploaded shelters" page: the user's own shelters, fetched from
    `get-shelters-by-user`, updated through a modal form and deleted by id. */
module UploadShelters {
  import opened Common
  import opened Client
  import Shelters

  /** The text fields the update form sends, in the order they are
      appended, before the optional image. */
  function UpdateFields(values: map<string, JsValue>): (parts: seq<Part>)
    ensures |parts| == 8
    ensures forall p :: p in parts ==> p.Text? && p.value == Field(values, p.name)
    ensures Names(parts) == ["name", "description", "address", "contactNumber", "capacity",
                             "longitude", "latitude", "pincode"]
  {
    var parts := [Text("name", Field(values, "name")),
                 Text("description", Field(values, "description")),
                 Text("address", Field(values, "address")),
                 Text("contactNumber", Field(values, "contactNumber")),
                 Text("capacity", Field(values, "capacity")),
                 Text("longitude", Field(values, "longitude")),
                 Text("latitude", Field(values, "latitude")),
                 Text("pincode", Field(values, "pincode"))];
    NamesAre(parts, ["name", "description", "address", "contactNumber", "capacity",
                    "longitude", "latitude", "pincode"]);
    parts
  }

  /** The update request carries every form field update_shelter requires, and the
      image part only when a new image was chosen. */
  lemma UpdateSendsRequiredFields(values: map<string, JsValue>,
                                  image: Option<UploadFile>)
    ensures forall n :: n in Shelters.UpdateFormFields ==>
      n in Names(WithImage(UpdateFields(values), image))
    ensures "image" in Names(WithImage(UpdateFields(values), image)) <==> image.Some?
  {
    WithImageNames(UpdateFields(values), image);
  }

  /** The page's state. `hasClient` says whether the API client exists yet;
      each handler receives the outcome of its request (`None` or `false`
      when the request throws). */
  class UploadSheltersPage {
    var shelters: seq<Shelters.Shelter>
    var loading: bool
    var isModalOpen: bool
    var selectedShelter: Option<Shelters.Shelter>
    var imageFile: Option<UploadFile>
    var updating: bool
    var deleting: bool
    var hasClient: bool

    constructor (hasClient: bool)
      ensures this.hasClient == hasClient && shelters == [] && loading
      ensures !isModalOpen && selectedShelter.None? && imageFile.None? && !updating && !deleting
    {
      this.hasClient := hasClient;
      shelters := [];
      loading := true;
      isModalOpen := false;
      selectedShelter := None;
      imageFile := None;
      updating := false;
      deleting := false;
    }

    /** fetchUserShelters: nothing happens without a client; otherwise a successful
        response replaces the list, a failed one leaves it, and `loading`
        ends false. */
    method FetchUserShelters(response: Option<seq<Shelters.Shelter>>) returns (requested: bool)
      modifies this
      ensures requested == hasClient
      ensures !requested ==> unchanged(this)
      ensures requested ==> !loading
      ensures requested ==> shelters == (if response.Some? then response.value else old(shelters))
      ensures isModalOpen == old(isModalOpen) && selectedShelter == old(selectedShelter) && imageFile == old(imageFile)
      ensures updating == old(updating) && deleting == old(deleting) && hasClient == old(hasClient)
    {
      if !hasClient {
        return false;
      }
      loading := true;
      if response.Some? {
        shelters := response.value;
      }
      loading := false;
      return true;
    }

    /** handleDeleteShelter: after a successful delete every item with that id is
        gone and the others keep their order; after a failure (or without a
        client) the list is unchanged. `deleting` ends false either way. */
    method HandleDeleteShelter(shelterId: int, succeeded: bool) returns (deleted: bool)
      modifies this
      ensures deleted == (hasClient && succeeded)
      ensures shelters == (if deleted then RemoveById(old(shelters), Shelters.Key, shelterId) else old(shelters))
      ensures !deleting
      ensures loading == old(loading) && isModalOpen == old(isModalOpen) && selectedShelter == old(selectedShelter)
      ensures imageFile == old(imageFile) && updating == old(updating) && hasClient == old(hasClient)
    {
      deleting := true;
      deleted := hasClient && succeeded;
      if deleted {
        shelters := RemoveById(shelters, Shelters.Key, shelterId);
      }
      deleting := false;
    }

    /** handleUpdateShelter: the request goes to the selected item's id and carries
        the form's fields and, only when a new file was chosen, the image.
        Without a client or a selection the call throws before any request.
        A successful update closes the modal and refetches the list; a
        failure leaves the modal open. `updating` ends false either way. */
    method HandleUpdateShelter(values: map<string, JsValue>, succeeded: bool,
                    refetch: Option<seq<Shelters.Shelter>>)
      returns (request: Option<(int, seq<Part>)>, updated: bool)
      modifies this
      ensures request == (if old(hasClient) && old(selectedShelter).Some?
        then Some((old(selectedShelter).value.id, WithImage(UpdateFields(values), old(imageFile))))
        else None)
      ensures updated == (request.Some? && succeeded)
      ensures updated ==> !isModalOpen && !loading
      ensures updated ==> shelters == (if refetch.Some? then refetch.value else old(shelters))
      ensures !updated ==> isModalOpen == old(isModalOpen) && loading == old(loading)
      ensures !updated ==> shelters == old(shelters)
      ensures !updating
      ensures selectedShelter == old(selectedShelter) && imageFile == old(imageFile)
      ensures deleting == old(deleting) && hasClient == old(hasClient)
    {
      updating := true;
      var formData := WithImage(UpdateFields(values), imageFile);
      if !hasClient || selectedShelter.None? {
        updating := false;
        return None, false;
      }
      request := Some((selectedShelter.value.id, formData));
      if !succeeded {
        updating := false;
        return request, false;
      }
      isModalOpen := false;
      var _ := FetchUserShelters(refetch);
      updating := false;
      return request, true;
    }
  }
}
