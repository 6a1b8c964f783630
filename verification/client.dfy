/** JavaScript values as the admin pages see them: form and coordinate values
    with JavaScript's truthiness, and the multipart form data the pages post. */
module Client {
  import opened Common

  /** A value read from a form field or a coordinate state: `undefined`, a
      string typed into an input, or a number from the geolocation API. */
  datatype JsValue = Undefined | Str(s: string) | Num(x: real)

  /** JavaScript truthiness: `undefined`, the empty string and 0 are falsy;
      every other string, "0" included, is truthy. */
  predicate Truthy(v: JsValue)
  {
    match v
    case Undefined => false
    case Str(s) => s != ""
    case Num(x) => x != 0.0
  }

  /** `values.name` on a form's values: the field's value, or `undefined`
      when the form holds no such field. */
  function Field(form: map<string, JsValue>, name: string): (v: JsValue)
    ensures name !in form ==> v == Undefined
    ensures name in form ==> v == form[name]
  {
    if name in form then form[name] else Undefined
  }

  /** One `formData.append(name, value)`. */
  datatype Part = Text(name: string, value: JsValue) | File(name: string, file: UploadFile)

  /** `if (image) formData.append("image", image)`: the fields, followed by
      the image part exactly when an image was chosen. */
  function WithImage(fields: seq<Part>, image: Option<UploadFile>): (r: seq<Part>)
    ensures |r| == |fields| + (if image.Some? then 1 else 0)
    ensures r[..|fields|] == fields
    ensures image.Some? ==> r[|fields|] == File("image", image.value)
  {
    if image.Some? then fields + [File("image", image.value)] else fields
  }

  /** The field names a form data object carries, in the order they were
      appended. */
  function Names(parts: seq<Part>): (names: seq<string>)
    ensures |names| == |parts|
    ensures forall i :: 0 <= i < |parts| ==> names[i] == parts[i].name
  {
    seq(|parts|, i requires 0 <= i < |parts| => parts[i].name)
  }

  /** Two name lists agree when they agree position by position. */
  lemma NamesAre(parts: seq<Part>, names: seq<string>)
    requires |parts| == |names|
    requires forall i :: 0 <= i < |parts| ==> parts[i].name == names[i]
    ensures Names(parts) == names
  {
  }

  /** Attaching the image adds the name "image" after the fields' names, and
      only when an image was chosen. */
  lemma WithImageNames(fields: seq<Part>, image: Option<UploadFile>)
    ensures Names(WithImage(fields, image)) == Names(fields) + (if image.Some? then ["image"] else [])
  {
    var r := WithImage(fields, image);
    var e: seq<string> := if image.Some? then ["image"] else [];
    assert |Names(r)| == |Names(fields) + e|;
    forall i | 0 <= i < |Names(r)| ensures Names(r)[i] == (Names(fields) + e)[i] {
      if i < |fields| {
        assert r[i] == r[..|fields|][i];
      }
    }
  }

  /** The form data carries an image part only when an image was chosen and
      the fields carry none. */
  lemma WithImageHasImage(fields: seq<Part>, image: Option<UploadFile>)
    requires forall p :: p in fields ==> p.Text?
    ensures (exists p :: p in WithImage(fields, image) && p.File?) <==> image.Some?
  {
    var r := WithImage(fields, image);
    if image.Some? {
      assert r[|fields|] in r;
    } else {
      assert r == fields;
    }
  }

  /** The coordinate choice the three add forms make: the user's position
      (`userCoordinates?.latitude`) when the current location is used, the
      form's fields otherwise. */
  function ChooseCoordinates(useCurrentLocation: bool, user: Option<Point>,
                             form: map<string, JsValue>): (c: (JsValue, JsValue))
    ensures useCurrentLocation && user.Some? ==>
      c == (Num(user.value.latitude), Num(user.value.longitude))
    ensures useCurrentLocation && user.None? ==> c == (Undefined, Undefined)
    ensures !useCurrentLocation ==> c == (Field(form, "latitude"), Field(form, "longitude"))
  {
    if useCurrentLocation then
      if user.Some? then (Num(user.value.latitude), Num(user.value.longitude))
      else (Undefined, Undefined)
    else (Field(form, "latitude"), Field(form, "longitude"))
  }

  /** The add forms' guard `!latitude || !longitude`. */
  predicate CoordinatesGiven(c: (JsValue, JsValue))
  {
    Truthy(c.0) && Truthy(c.1)
  }

  /** Which positions the guard lets through: with the current location, a
      known position whose coordinates are both non-zero; from the form, any
      two non-empty fields. */
  lemma CoordinatesGivenCases(useCurrentLocation: bool, user: Option<Point>,
                              form: map<string, JsValue>)
    ensures useCurrentLocation ==>
      (CoordinatesGiven(ChooseCoordinates(useCurrentLocation, user, form)) <==>
         user.Some? && user.value.latitude != 0.0 && user.value.longitude != 0.0)
    ensures !useCurrentLocation ==>
      (CoordinatesGiven(ChooseCoordinates(useCurrentLocation, user, form)) <==>
         Truthy(Field(form, "latitude")) && Truthy(Field(form, "longitude")))
  {
  }

  /** The list a React state holds after `setList([...prev, x])` and similar
      updates, where `x` may be `undefined`. */
  function Present<T>(s: seq<T>): (r: seq<Option<T>>)
    ensures |r| == |s|
    ensures forall i :: 0 <= i < |s| ==> r[i] == Some(s[i])
  {
    seq(|s|, i requires 0 <= i < |s| => Some(s[i]))
  }
}
