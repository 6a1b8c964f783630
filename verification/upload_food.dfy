/** The "uploaded food regions" page: the user's own food-providing regions, fetched from
    `get-food-regions`, updated through a modal form and deleted by id. */
module UploadFood {
  import opened Common
  import opened Client
  import Food

  /** The text fields the update form sends, in the order they are
      appended, before the optional image. */
  function UpdateFields(values: map<string, JsValue>): (parts: seq<Part>)
    ensures |parts| == 5
    ensures forall p :: p in parts ==> p.Text? && p.value == Field(values, p.name)
    ensures Names(parts) == ["address", "pincode", "description", "longitude", "latitude"]
  {
    var parts := [Text("address", Field(values, "address")),
                 Text("pincode", Field(values, "pincode")),
                 Text("description", Field(values, "description")),
                 Text("longitude", Field(values, "longitude")),
                 Text("latitude", Field(values, "latitude"))];
    NamesAre(parts, ["address", "pincode", "description", "longitude", "latitude"]);
    parts
  }

  /** The update request carries every form field update_food_region requires,
      and the image part only when a new image was chosen. */
  lemma UpdateSendsRequiredFields(values: map<string, JsValue>,
                                  image: Option<UploadFile>)
    ensures forall n :: n in Food.FormFields ==>
      n in Names(WithImage(UpdateFields(values), image))
    ensures "image" in Names(WithImage(UpdateFields(values), image)) <==> image.Some?
  {
    WithImageNames(UpdateFields(values), image);
  }

  /** The page's state. `hasClient` says whether the API client exists yet;
      each handler receives the outcome of its request (`None` or `false`
      when the request throws). */
  class UploadFoodPage {
    var foodRegions: seq<Food.FoodRegion>
    var loading: bool
    var isModalOpen: bool
    var selectedFood: Option<Food.FoodRegion>
    var imageFile: Option<UploadFile>
    var updating: bool
    var deleting: bool
    var hasClient: bool

    constructor (hasClient: bool)
      ensures this.hasClient == hasClient && foodRegions == [] && loading
      ensures !isModalOpen && selectedFood.None? && imageFile.None? && !updating && !deleting
    {
      this.hasClient := hasClient;
      foodRegions := [];
      loading := true;
      isModalOpen := false;
      selectedFood := None;
      imageFile := None;
      updating := false;
      deleting := false;
    }

    /** fetchFoodRegions: nothing happens without a client; otherwise a successful
        response replaces the list, a failed one leaves it, and `loading`
        ends false. */
    method FetchFoodRegions(response: Option<seq<Food.FoodRegion>>) returns (requested: bool)
      modifies this
      ensures requested == hasClient
      ensures !requested ==> unchanged(this)
      ensures requested ==> !loading
      ensures requested ==> foodRegions == (if response.Some? then response.value else old(foodRegions))
      ensures isModalOpen == old(isModalOpen) && selectedFood == old(selectedFood) && imageFile == old(imageFile)
      ensures updating == old(updating) && deleting == old(deleting) && hasClient == old(hasClient)
    {
      if !hasClient {
        return false;
      }
      loading := true;
      if response.Some? {
        foodRegions := response.value;
      }
      loading := false;
      return true;
    }

    /** handleDeleteFood: after a successful delete every item with that id is
        gone and the others keep their order; after a failure (or without a
        client) the list is unchanged. `deleting` ends false either way. */
    method HandleDeleteFood(foodId: int, succeeded: bool) returns (deleted: bool)
      modifies this
      ensures deleted == (hasClient && succeeded)
      ensures foodRegions == (if deleted then RemoveById(old(foodRegions), Food.Key, foodId) else old(foodRegions))
      ensures !deleting
      ensures loading == old(loading) && isModalOpen == old(isModalOpen) && selectedFood == old(selectedFood)
      ensures imageFile == old(imageFile) && updating == old(updating) && hasClient == old(hasClient)
    {
      deleting := true;
      deleted := hasClient && succeeded;
      if deleted {
        foodRegions := RemoveById(foodRegions, Food.Key, foodId);
      }
      deleting := false;
    }

    /** handleUpdateFood: the request goes to the selected item's id and carries
        the form's fields and, only when a new file was chosen, the image.
        Without a client or a selection the call throws before any request.
        A successful update closes the modal and refetches the list; a
        failure leaves the modal open. `updating` ends false either way. */
    method HandleUpdateFood(values: map<string, JsValue>, succeeded: bool,
                    refetch: Option<seq<Food.FoodRegion>>)
      returns (request: Option<(int, seq<Part>)>, updated: bool)
      modifies this
      ensures request == (if old(hasClient) && old(selectedFood).Some?
        then Some((old(selectedFood).value.id, WithImage(UpdateFields(values), old(imageFile))))
        else None)
      ensures updated == (request.Some? && succeeded)
      ensures updated ==> !isModalOpen && !loading
      ensures updated ==> foodRegions == (if refetch.Some? then refetch.value else old(foodRegions))
      ensures !updated ==> isModalOpen == old(isModalOpen) && loading == old(loading)
      ensures !updated ==> foodRegions == old(foodRegions)
      ensures !updating
      ensures selectedFood == old(selectedFood) && imageFile == old(imageFile)
      ensures deleting == old(deleting) && hasClient == old(hasClient)
    {
      updating := true;
      var formData := WithImage(UpdateFields(values), imageFile);
      if !hasClient || selectedFood.None? {
        updating := false;
        return None, false;
      }
      request := Some((selectedFood.value.id, formData));
      if !succeeded {
        updating := false;
        return request, false;
      }
      isModalOpen := false;
      var _ := FetchFoodRegions(refetch);
      updating := false;
      return request, true;
    }
  }
}
