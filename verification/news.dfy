/** The news endpoints: the proximity feed (radius filter, nearest first,
    at most three days old, at most 100 items), the per-user listing, and the
    owner-checked add, update and delete of the `news` table. */
module News {
  import opened Common
  import opened Sorting

  /** A row of the `news` table. `distance` is the column the feed overwrites
      with the distance from the reader. */
  datatype NewsItem = NewsItem(
    id: int,
    title: string,
    description: string,
    createdAt: int,
    updatedAt: int,
    images: Option<string>,
    userId: Option<int>,
    latitude: real,
    longitude: real,
    distance: real)

  /** What a successful feed request returns. */
  datatype Feed = Feed(news: seq<NewsItem>, count: int)

  function Key(n: NewsItem): int { n.id }
  function Owner(n: NewsItem): Option<int> { n.userId }
  function Created(n: NewsItem): int { n.createdAt }
  function DistanceKey(n: NewsItem): real { n.distance }
  function Position(n: NewsItem): Point { Point(n.latitude, n.longitude) }

  const DefaultRadius: real := 5.0
  const MaxAgeDays: int := 3
  const MaxItems: int := 100

  /** The form fields add_news and update_news require; the image is
      optional. */
  const FormFields: set<string> := {"title", "description", "latitude", "longitude"}

  /** The first stage: each row within `radius` km of the reader, with its
      distance attached, in table order. */
  function InRadius(rows: seq<NewsItem>, user: Point, radius: real, d: DistFn): (r: seq<NewsItem>)
    ensures |r| <= |rows|
    ensures forall n :: n in r ==> n.distance == d(user, Position(n)) && n.distance <= radius
    ensures forall n :: n in r ==> exists m :: m in rows && n == m.(distance := n.distance)
  {
    if rows == [] then []
    else
      var last := rows[|rows| - 1];
      var init := InRadius(rows[..|rows| - 1], user, radius, d);
      assert forall m :: m in rows[..|rows| - 1] ==> m in rows;
      var dist := d(user, Position(last));
      if dist <= radius then init + [last.(distance := dist)] else init
  }

  /** `InRadius` keeps every row within the radius. */
  lemma {:induction false} InRadiusComplete(rows: seq<NewsItem>, user: Point, radius: real,
                                            d: DistFn, m: NewsItem)
    requires m in rows && d(user, Position(m)) <= radius
    ensures m.(distance := d(user, Position(m))) in InRadius(rows, user, radius, d)
  {
    var n := |rows| - 1;
    if rows[n] != m {
      assert m in rows[..n] by { assert rows == rows[..n] + [rows[n]]; }
      InRadiusComplete(rows[..n], user, radius, d, m);
    }
  }

  /** The recency test: `(now - createdAt).days <= 3`. */
  function Recent(now: int): NewsItem -> bool
  {
    (n: NewsItem) => Days(now, n.createdAt) <= MaxAgeDays
  }

  /** Age in whole days at most 3 means created less than four days ago. */
  lemma RecentMeansUnderFourDays(now: int, n: NewsItem)
    ensures Recent(now)(n) <==> now - n.createdAt < (MaxAgeDays + 1) * SecondsPerDay
  {
    var k := Days(now, n.createdAt);
    if k <= MaxAgeDays {
      assert (k + 1) * SecondsPerDay <= (MaxAgeDays + 1) * SecondsPerDay;
    } else {
      assert (MaxAgeDays + 1) * SecondsPerDay <= k * SecondsPerDay;
    }
  }

  /** In-radius rows, nearest first, then the recent ones: the feed before
      truncation. */
  function Selection(rows: seq<NewsItem>, user: Point, radius: real, now: int, d: DistFn)
    : seq<NewsItem>
  {
    Filter(SortBy(InRadius(rows, user, radius, d), DistanceKey), Recent(now))
  }

  /** The `[:100]` slice: the first 100 items, or all of them when there are
      fewer. */
  function Truncate(s: seq<NewsItem>): (r: seq<NewsItem>)
    ensures |r| == if |s| <= MaxItems then |s| else MaxItems
    ensures r == s[..|r|]
    ensures |s| <= MaxItems ==> r == s
  {
    if |s| <= MaxItems then s else s[..MaxItems]
  }

  /** The feed get_news computes. */
  function NewsFeed(rows: seq<NewsItem>, user: Point, radius: real, now: int, d: DistFn)
    : Result<Feed>
  {
    var page := Truncate(Selection(rows, user, radius, now, d));
    if page == [] then Err(NotFound) else Ok(Feed(page, |page|))
  }

  /** get_news. `radius` is the optional `distance` query parameter; `now` is
      the clock. The loop builds the in-radius list, which is then sorted,
      filtered for recency and truncated. */
  method GetNews(rows: seq<NewsItem>, user: Point, radius: Option<real>, now: int, d: DistFn)
    returns (r: Result<Feed>)
    ensures r == NewsFeed(rows, user, if radius.Some? then radius.value else DefaultRadius, now, d)
  {
    var distance := if radius.Some? then radius.value else DefaultRadius;
    var filteredNews: seq<NewsItem> := [];
    var i := 0;
    while i < |rows|
      invariant 0 <= i <= |rows|
      invariant filteredNews == InRadius(rows[..i], user, distance, d)
    {
      var news := rows[i];
      assert rows[..i + 1][..i] == rows[..i];
      var dist := d(user, Point(news.latitude, news.longitude));
      if dist <= distance {
        news := news.(distance := dist);
        filteredNews := filteredNews + [news];
      }
      i := i + 1;
    }
    assert rows[..|rows|] == rows;
    filteredNews := SortBy(filteredNews, DistanceKey);
    filteredNews := Filter(filteredNews, Recent(now));
    assert filteredNews == Selection(rows, user, distance, now, d);
    filteredNews := if |filteredNews| <= MaxItems then filteredNews else filteredNews[..MaxItems];
    assert filteredNews == Truncate(Selection(rows, user, distance, now, d));
    if filteredNews == [] {
      return Err(NotFound);
    }
    return Ok(Feed(filteredNews, |filteredNews|));
  }

  /** Every item of the feed is within the radius, carries its distance from
      the reader, is at most three days old, and comes from the table. */
  lemma FeedItemsQualify(rows: seq<NewsItem>, user: Point, radius: real, now: int, d: DistFn)
    ensures NewsFeed(rows, user, radius, now, d).Ok? ==>
      var f := NewsFeed(rows, user, radius, now, d).value;
      var qualifying := |Selection(rows, user, radius, now, d)|;
      f.count == |f.news| && 0 < |f.news| <= MaxItems
      && |f.news| == (if qualifying <= MaxItems then qualifying else MaxItems)
      && forall n :: n in f.news ==>
           n.distance == d(user, Position(n)) && n.distance <= radius
           && Days(now, n.createdAt) <= MaxAgeDays
           && exists m :: m in rows && n == m.(distance := n.distance)
  {
    var inRadius := InRadius(rows, user, radius, d);
    var sel := Selection(rows, user, radius, now, d);
    SortByMembers(inRadius, DistanceKey);
    var page := Truncate(sel);
    forall n | n in page ensures n in sel {
      var k :| 0 <= k < |page| && page[k] == n;
      assert sel[k] == n;
    }
  }

  /** The feed is ordered nearest first. */
  lemma FeedSorted(rows: seq<NewsItem>, user: Point, radius: real, now: int, d: DistFn)
    ensures NewsFeed(rows, user, radius, now, d).Ok? ==>
      var s := NewsFeed(rows, user, radius, now, d).value.news;
      forall i, j :: 0 <= i < j < |s| ==> s[i].distance <= s[j].distance
  {
    var sorted := SortBy(InRadius(rows, user, radius, d), DistanceKey);
    FilterKeepsSorted(sorted, DistanceKey, Recent(now));
  }

  /** Items at the same distance keep their table order, as Python's sort is
      stable and the later filters keep order. */
  lemma FeedTiesKeepTableOrder(rows: seq<NewsItem>, user: Point, radius: real, now: int,
                               d: DistFn, k: real)
    ensures Filter(Selection(rows, user, radius, now, d), KeyIs(DistanceKey, k))
         == Filter(Filter(InRadius(rows, user, radius, d), KeyIs(DistanceKey, k)), Recent(now))
  {
    var inRadius := InRadius(rows, user, radius, d);
    SortStable(inRadius, DistanceKey, k);
    FilterCommute(SortBy(inRadius, DistanceKey), Recent(now), KeyIs(DistanceKey, k));
    FilterCommute(inRadius, Recent(now), KeyIs(DistanceKey, k));
  }

  /** The same for the returned feed: its items at one distance are the
      first of the in-radius recent items at that distance, in table order. */
  lemma FeedPageTiesKeepTableOrder(rows: seq<NewsItem>, user: Point, radius: real, now: int,
                                   d: DistFn, k: real)
    requires NewsFeed(rows, user, radius, now, d).Ok?
    ensures var tied := Filter(NewsFeed(rows, user, radius, now, d).value.news, KeyIs(DistanceKey, k));
      var all := Filter(Filter(InRadius(rows, user, radius, d), KeyIs(DistanceKey, k)), Recent(now));
      |tied| <= |all| && tied == all[..|tied|]
  {
    var sel := Selection(rows, user, radius, now, d);
    assert NewsFeed(rows, user, radius, now, d).value.news == sel[..|Truncate(sel)|];
    FilterPrefix(sel, |Truncate(sel)|, KeyIs(DistanceKey, k));
    FeedTiesKeepTableOrder(rows, user, radius, now, d, k);
  }

  lemma {:induction false} FilterCommute<T>(s: seq<T>, p: T -> bool, q: T -> bool)
    ensures Filter(Filter(s, p), q) == Filter(Filter(s, q), p)
  {
    if s != [] {
      var n := |s| - 1;
      FilterCommute(s[..n], p, q);
      var last: seq<T> := [s[n]];
      FilterAppend(Filter(s[..n], p), if p(s[n]) then last else [], q);
      FilterAppend(Filter(s[..n], q), if q(s[n]) then last else [], p);
      assert [s[n]][..0] == [];
    }
  }

  /** Truncation follows the sort: an in-radius recent item that the feed
      leaves out is no nearer than any item it returns. */
  lemma FeedIsNearest(rows: seq<NewsItem>, user: Point, radius: real, now: int, d: DistFn,
                      x: NewsItem, y: NewsItem)
    requires NewsFeed(rows, user, radius, now, d).Ok?
    requires x in NewsFeed(rows, user, radius, now, d).value.news
    requires y in Selection(rows, user, radius, now, d)
    requires y !in NewsFeed(rows, user, radius, now, d).value.news
    ensures x.distance <= y.distance
  {
    var sel := Selection(rows, user, radius, now, d);
    FeedSorted(rows, user, radius, now, d);
    var sorted := SortBy(InRadius(rows, user, radius, d), DistanceKey);
    FilterKeepsSorted(sorted, DistanceKey, Recent(now));
    var m := |Truncate(sel)|;
    PrefixIsSmallest(sel, DistanceKey, m, x, y);
  }

  /** When at most 100 items qualify, the feed holds every in-radius recent
      row, and an empty selection is a 404. */
  lemma FeedComplete(rows: seq<NewsItem>, user: Point, radius: real, now: int, d: DistFn,
                     m: NewsItem)
    requires |Selection(rows, user, radius, now, d)| <= MaxItems
    requires m in rows && d(user, Position(m)) <= radius
    requires Days(now, m.createdAt) <= MaxAgeDays
    ensures NewsFeed(rows, user, radius, now, d).Ok?
    ensures m.(distance := d(user, Position(m))) in NewsFeed(rows, user, radius, now, d).value.news
  {
    var inRadius := InRadius(rows, user, radius, d);
    var n := m.(distance := d(user, Position(m)));
    InRadiusComplete(rows, user, radius, d, m);
    SortByMembers(inRadius, DistanceKey);
    FilterMember(SortBy(inRadius, DistanceKey), Recent(now), n);
  }

  lemma FeedEmptyIsNotFound(rows: seq<NewsItem>, user: Point, radius: real, now: int, d: DistFn)
    ensures NewsFeed(rows, user, radius, now, d).Err?
        <==> Selection(rows, user, radius, now, d) == []
    ensures NewsFeed(rows, user, radius, now, d).Err? ==>
            NewsFeed(rows, user, radius, now, d).error == NotFound
  {
    var sel := Selection(rows, user, radius, now, d);
    if sel != [] {
      assert Truncate(sel)[0] == sel[0];
    }
  }

  /** get_my_news: the caller's items, newest first. */
  function MyNews(rows: seq<NewsItem>, caller: int): (r: Result<Feed>)
    ensures r.Err? <==> forall n :: n in rows ==> n.userId != Some(caller)
    ensures r.Err? ==> r.error == NotFound
    ensures r.Ok? ==> r.value.count == |r.value.news|
    ensures r.Ok? ==> multiset(r.value.news) == multiset(Filter(rows, OwnedBy(Owner, caller)))
    ensures r.Ok? ==> r.value.count == |Filter(rows, OwnedBy(Owner, caller))|
    ensures r.Ok? ==> forall n :: n in r.value.news <==> n in rows && n.userId == Some(caller)
    ensures r.Ok? ==> forall i, j :: 0 <= i < j < |r.value.news| ==>
      r.value.news[i].createdAt >= r.value.news[j].createdAt
  {
    match ListOwned(rows, Owner, Created, caller)
    case Ok(mine) =>
      assert |multiset(mine)| == |multiset(Filter(rows, OwnedBy(Owner, caller)))|;
      Ok(Feed(mine, |mine|))
    case Err(e) => Err(e)
  }

  predicate Owned(rows: map<int, NewsItem>, id: int, caller: int)
  {
    id in rows && rows[id].userId == Some(caller)
  }

  /** The `news` table. */
  class NewsTable {
    var rows: map<int, NewsItem>
    var nextId: int

    ghost predicate Valid()
      reads this
    {
      forall id :: id in rows ==> rows[id].id == id && id < nextId
    }

    constructor ()
      ensures Valid() && rows == map[] && nextId == 1
    {
      rows := map[];
      nextId := 1;
    }

    /** add_news: the stored distance is 0 until a feed request overwrites
        it. */
    method Add(title: string, description: string, image: Option<UploadFile>,
               latitude: real, longitude: real, upload: Option<string>,
               now: int, caller: int)
      returns (r: Outcome)
      requires Valid()
      modifies this
      ensures Valid()
      ensures r.Failed? <==> StoreImage(image, upload).Err?
      ensures r.Failed? ==> r.error == StoreImage(image, upload).error
      ensures r.Failed? ==> rows == old(rows) && nextId == old(nextId)
      ensures r.Done? ==> nextId == old(nextId) + 1 && old(nextId) !in old(rows)
      ensures r.Done? ==> rows == old(rows)[old(nextId) := NewsItem(
        old(nextId), title, description, now, now, Some(upload.value), Some(caller),
        latitude, longitude, 0.0)]
    {
      var stored := StoreImage(image, upload);
      if stored.Err? {
        return Failed(stored.error);
      }
      var item := NewsItem(nextId, title, description, now, now, Some(stored.value),
                           Some(caller), latitude, longitude, 0.0);
      rows := rows[nextId := item];
      nextId := nextId + 1;
      return Done;
    }

    /** delete_news: only the caller's own item is removed. */
    method Delete(newsId: int, caller: int) returns (r: Outcome)
      requires Valid()
      modifies this
      ensures Valid() && nextId == old(nextId)
      ensures r == (if Owned(old(rows), newsId, caller) then Done else Failed(NotFound))
      ensures r.Done? ==> rows == old(rows) - {newsId}
      ensures r.Failed? ==> rows == old(rows)
    {
      if !Owned(rows, newsId, caller) {
        return Failed(NotFound);
      }
      rows := rows - {newsId};
      return Done;
    }

    /** update_news: the caller's own item gets the new title, description
        and coordinates; its image is replaced only when a new one is sent. */
    method Update(newsId: int, title: string, description: string, image: Option<UploadFile>,
                  latitude: real, longitude: real, now: int, caller: int)
      returns (r: Outcome)
      requires Valid()
      modifies this
      ensures Valid() && nextId == old(nextId)
      ensures r == (if Owned(old(rows), newsId, caller) then Done else Failed(NotFound))
      ensures r.Failed? ==> rows == old(rows)
      ensures r.Done? ==> rows.Keys == old(rows).Keys
      ensures r.Done? ==> forall id :: id in rows && id != newsId ==> rows[id] == old(rows)[id]
      ensures r.Done? ==> rows[newsId] == old(rows)[newsId].(
        title := title, description := description,
        latitude := latitude, longitude := longitude, updatedAt := now,
        images := if image.Some? then Some(UploadFolder + "/" + image.value.filename)
                  else old(rows)[newsId].images)
    {
      if !Owned(rows, newsId, caller) {
        return Failed(NotFound);
      }
      var item := rows[newsId];
      if image.Some? {
        item := item.(images := Some(UploadFolder + "/" + image.value.filename));
      }
      item := item.(title := title, description := description,
                    latitude := latitude, longitude := longitude, updatedAt := now);
      rows := rows[newsId := item];
      return Done;
    }
  }
}
