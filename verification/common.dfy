/** Values shared by the server endpoints and the client pages: coordinates,
    the distance function taken as a parameter, HTTP error outcomes, and the
    order-preserving sequence filters that every listing is built from. */
module Common {

  datatype Option<T> = None | Some(value: T)

  /** A latitude/longitude pair in decimal degrees. */
  datatype Point = Point(latitude: real, longitude: real)

  /** Great-circle distance in km. The haversine arithmetic is not modelled:
      every operation that needs a distance receives this function. */
  type DistFn = (Point, Point) -> real

  /** The HTTP errors the endpoints raise; 422 is the framework's answer to a
      request that lacks a required form field or file. */
  datatype HttpError = BadRequest | NotFound | Unprocessable | ServerError
  {
    function Code(): (c: int)
      ensures 400 <= c < 600
    {
      match this
      case BadRequest => 400
      case NotFound => 404
      case Unprocessable => 422
      case ServerError => 500
    }
  }

  /** An endpoint that returns a value or raises an HTTP error. */
  datatype Result<T> = Ok(value: T) | Err(error: HttpError)

  /** An endpoint that changes the database and returns only a message. */
  datatype Outcome = Done | Failed(error: HttpError)

  /** A multipart file: its client-side name and its bytes. */
  datatype UploadFile = UploadFile(filename: string, content: seq<bv8>)

  /** Local folder that the update endpoints write replacement images to. */
  const UploadFolder: string := "images"

  /** The image checks that run before a row is inserted: a missing or empty
      file is a 400, and an upload that yields no URL (`None` or the empty
      string, both falsy) is a 500. `upload` is what the S3 upload returns;
      on success the URL is what the row stores. */
  function StoreImage(image: Option<UploadFile>, upload: Option<string>): (r: Result<string>)
    ensures r.Ok? <==> image.Some? && image.value.content != [] && upload.Some? && upload.value != ""
    ensures r.Ok? ==> r.value == upload.value
    ensures image.None? || image.value.content == [] ==> r == Err(BadRequest)
    ensures image.Some? && image.value.content != [] && (upload.None? || upload.value == "")
            ==> r == Err(ServerError)
  {
    if image.None? then Err(BadRequest)
    else if image.value.content == [] then Err(BadRequest)
    else if upload.None? || upload.value == "" then Err(ServerError)
    else Ok(upload.value)
  }

  const SecondsPerDay: int := 86400

  /** Whole days elapsed from `t` to `now`, as Python's `timedelta.days`
      (rounded towards minus infinity). */
  function Days(now: int, t: int): (d: int)
    ensures d * SecondsPerDay <= now - t < (d + 1) * SecondsPerDay
  {
    (now - t) / SecondsPerDay
  }

  /** The items of `s` that satisfy `p`, in their original order. */
  function Filter<T>(s: seq<T>, p: T -> bool): (r: seq<T>)
    ensures |r| <= |s|
    ensures forall x :: x in r ==> x in s && p(x)
  {
    if s == [] then []
    else Filter(s[..|s| - 1], p) + (if p(s[|s| - 1]) then [s[|s| - 1]] else [])
  }

  /** Filtering a prefix gives a prefix of the filtered sequence. */
  lemma FilterPrefix<T>(s: seq<T>, n: nat, p: T -> bool)
    requires n <= |s|
    ensures var f := Filter(s[..n], p);
      |f| <= |Filter(s, p)| && f == Filter(s, p)[..|f|]
  {
    assert s == s[..n] + s[n..];
    FilterAppend(s[..n], s[n..], p);
  }

  lemma {:induction false} FilterAppend<T>(a: seq<T>, b: seq<T>, p: T -> bool)
    ensures Filter(a + b, p) == Filter(a, p) + Filter(b, p)
  {
    if b == [] {
      assert a + b == a;
    } else {
      var n := |b| - 1;
      assert (a + b)[..|a + b| - 1] == a + b[..n];
      FilterAppend(a, b[..n], p);
    }
  }

  /** Filtering keeps every item that satisfies the predicate. */
  lemma {:induction false} FilterMember<T>(s: seq<T>, p: T -> bool, x: T)
    ensures x in Filter(s, p) <==> x in s && p(x)
  {
    if s != [] {
      var n := |s| - 1;
      assert s == s[..n] + [s[n]];
      FilterMember(s[..n], p, x);
    }
  }

  lemma {:induction false} FilterCons<T>(x: T, s: seq<T>, p: T -> bool)
    ensures Filter([x] + s, p) == (if p(x) then [x] else []) + Filter(s, p)
  {
    var one := [x];
    assert one[..|one| - 1] == [];
    assert Filter(one, p) == (if p(x) then [x] else []);
    FilterAppend(one, s, p);
  }

  /** A predicate every item satisfies leaves the sequence unchanged. */
  lemma {:induction false} FilterAll<T>(s: seq<T>, p: T -> bool)
    requires forall x :: x in s ==> p(x)
    ensures Filter(s, p) == s
  {
    if s != [] {
      var n := |s| - 1;
      assert s == s[..n] + [s[n]];
      FilterAll(s[..n], p);
    }
  }

  function KeyIsNot<T>(key: T -> int, id: int): T -> bool
  {
    x => key(x) != id
  }

  /** JavaScript's `list.filter(item => item.id !== id)`. */
  function RemoveById<T>(s: seq<T>, key: T -> int, id: int): (r: seq<T>)
    ensures forall x :: x in r ==> x in s && key(x) != id
    ensures forall x :: x in s && key(x) != id ==> x in r
  {
    FilterMemberAll(s, KeyIsNot(key, id));
    Filter(s, KeyIsNot(key, id))
  }

  lemma FilterMemberAll<T>(s: seq<T>, p: T -> bool)
    ensures forall x :: x in s && p(x) ==> x in Filter(s, p)
  {
    forall x | x in s && p(x) ensures x in Filter(s, p) {
      FilterMember(s, p, x);
    }
  }

  function HasKey<T>(key: T -> int, id: int): T -> bool
  {
    x => key(x) == id
  }

  /** Removing by id drops exactly the items that carry the id. */
  lemma {:induction false} RemoveByIdCount<T>(s: seq<T>, key: T -> int, id: int)
    ensures |RemoveById(s, key, id)| + |Filter(s, HasKey(key, id))| == |s|
  {
    if s != [] {
      RemoveByIdCount(s[..|s| - 1], key, id);
    }
  }

  /** When keys are distinct, removing by the key of `s[i]` drops exactly
      that one item. */
  lemma {:induction false} RemoveByIdUnique<T>(s: seq<T>, key: T -> int, i: int)
    requires 0 <= i < |s|
    requires forall j, k :: 0 <= j < k < |s| ==> key(s[j]) != key(s[k])
    ensures multiset(RemoveById(s, key, key(s[i]))) + multiset{s[i]} == multiset(s)
  {
    var n := |s| - 1;
    var id := key(s[i]);
    var init := s[..n];
    assert s == init + [s[n]];
    assert RemoveById(s, key, id) == Filter(init, KeyIsNot(key, id))
      + (if key(s[n]) != id then [s[n]] else []);
    if i == n {
      forall x | x in init ensures KeyIsNot(key, id)(x) {
        var j :| 0 <= j < n && init[j] == x;
      }
      FilterAll(init, KeyIsNot(key, id));
    } else {
      RemoveByIdUnique(init, key, i);
      assert init[i] == s[i];
    }
  }

  /** JavaScript's `list.find(item => item.id === id)`: the first item with
      that id, or `None` (JavaScript's `undefined`) when there is none. */
  function Find<T>(s: seq<T>, key: T -> int, id: int): (r: Option<T>)
    ensures r.Some? ==> r.value in s && key(r.value) == id
    ensures r.None? <==> forall x :: x in s ==> key(x) != id
  {
    if s == [] then None
    else if key(s[0]) == id then Some(s[0])
    else Find(s[1..], key, id)
  }

  /** `Find` yields the item at the first index that matches. */
  lemma {:induction false} FindFirst<T>(s: seq<T>, key: T -> int, id: int, i: int)
    requires 0 <= i < |s| && key(s[i]) == id
    requires forall j :: 0 <= j < i ==> key(s[j]) != id
    ensures Find(s, key, id) == Some(s[i])
  {
    if i > 0 {
      FindFirst(s[1..], key, id, i - 1);
    }
  }
}
