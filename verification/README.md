# Alert: a Dafny model of the disaster-relief server's listings and tables and of its admin pages

Alert is a disaster-relief web application. A FastAPI server stores shelters, food-providing regions, news items and SOS alerts. React pages let citizens send SOS alerts and let administrators publish and manage the other records. This project models the deterministic core of both sides and proves what it promises:

- **Server proximity listings.**
  - Shelters and food regions: rows without coordinates are skipped and rows within the radius are kept in table order. An empty result is a 404.
  - News feed: each in-radius item gets its distance attached. The items are then stably sorted nearest first, filtered to at most three days old and cut to 100. An empty feed is a 404.
  - Admin SOS listing: alerts are taken from a date window. When the admin's coordinates are given, they are also filtered by distance rounded to two decimals. Resolved alerts are dropped.
- **Server tables.** Each table is a class over a `map` from id to row. The model covers:
  - image checks on insert: a missing file is a 400 for news and food. The shelter endpoint declares its file required, so there the framework refuses a request without one with a 422 before the handler runs. An empty file is a 400 and a failed upload a 500;
  - owner-checked update and delete for shelters and news;
  - update and delete by id alone for food;
  - SOS creation defaults and the two-step resolve (404 for an unknown id, 400 when already resolved).
  - The per-user listings are newest first, and none of them returns an empty list: an empty result is a 404.
- **Admin and public pages.** Each page is a class whose fields are the page's React state. Its handlers are methods that take as parameters what the network and the geolocation API return. The model covers:
  - the guards that stop a request: a missing API client, or a falsy coordinate or count;
  - the list replacement after a fetch;
  - remove-by-id after a delete;
  - the move of a resolved SOS alert to the resolved list;
  - the multipart form data each form posts;
  - the `loading`, `updating` and `deleting` flags ending false.
- **Session store.** This is the auth context's four state fields, mirrored into a key-value storage.

Distances are a parameter `d: (Point, Point) -> real` with the source's argument order. The clock is a parameter too: timestamps are whole seconds and dates are day numbers. A date compared with a timestamp stands for midnight at the start of that day. So the SOS window `[start, end]` ends at the first second of `end` and excludes alerts created later on the end day, as the code's query does.

Some consequences of the code that the model makes explicit:

- The food pages send the radius as `distance`, but the food listing reads `dist`. So the listing always uses its default of 10 km (`AdminFood.RegionsQuery`).
- Shelter update assigns the new coordinates before it recomputes the distance. The stored distance is therefore from the new point to itself (`Shelters.ShelterTable.Update`).
- On the forms a typed coordinate `"0"` is a non-empty string, which JavaScript treats as truthy, so it passes the coordinate guard. A geolocated 0 is a falsy number and is rejected (`Client.CoordinatesGivenCases`).
- `clearAuth` leaves the `department` key in storage (`AuthContext.AuthProvider.ClearAuth`).

## Model

| member | source | states |
|---|---|---|
| Common.StoreImage | server/app/api/food.py:75-90 | insertion can proceed exactly when the image is present, non-empty and the upload yields a non-empty URL, which is stored; a missing or empty file is a 400, a failed upload a 500 |
| Common.Days | server/app/api/news.py:53 | `timedelta.days` of `now - t`: the whole number of days rounded down, bracketing the elapsed seconds |
| Common.FilterMember | server/app/api/sos.py:106 | a list comprehension keeps an item exactly when it is in the input and satisfies the condition |
| Common.RemoveById | client/src/admin/UploadShelters.jsx:101 | `filter(item => item.id !== id)` keeps every item with another id and no item with that id |
| Common.RemoveByIdCount | client/src/admin/AdminSOS.jsx:126-128 | removing by id drops exactly as many items as carry the id |
| Common.Find | client/src/admin/AdminSOS.jsx:122 | `find` yields an item of the list with that id, and `undefined` exactly when no item has it |
| Common.RemoveByIdUnique | client/src/admin/AdminSOS.jsx:126-128 | with distinct ids, removing by the id of one item drops exactly that item |
| Common.FindFirst | client/src/admin/AdminSOS.jsx:122 | `find` yields the item at the first matching index |
| Sorting.SortBy | server/app/api/news.py:50 | the sorted list is a permutation of the input and ordered by the key |
| Sorting.SortStable | server/app/api/news.py:50 | the sort is stable: items with any one key keep their input order |
| Sorting.FilterKeepsSorted | server/app/api/news.py:53 | filtering an ordered list leaves it ordered |
| Sorting.PrefixIsSmallest | server/app/api/news.py:56 | a prefix of an ordered list holds no item with a larger key than any item it leaves out |
| Sorting.ListOwned | server/app/api/shelters.py:147-153 | a per-user listing is a 404 exactly when the user owns no row; otherwise it is a permutation of the user's rows (the same multiset as filtering the table by owner), newest first |
| Shelters.GetShelters | server/app/api/shelters.py:38-58 | the result is the rows with both coordinates within the radius, in table order, and nothing else; it is a 404 exactly when no row qualifies |
| Shelters.SheltersByUser | server/app/api/shelters.py:136-155 | a permutation of the caller's shelters (same multiset), newest first, or 404 when there are none |
| Shelters.AddImage | server/app/api/shelters.py:68-107 | the file is required, so a request without it is a 422 and never the handler's 400; an empty file is a 400, a failed upload a 500; otherwise the uploaded URL |
| Shelters.ShelterTable.Add | server/app/api/shelters.py:63-123 | a failed image check (422, 400 or 500) inserts nothing; otherwise one row under a fresh id with the uploaded URL, the caller as owner and distance `d(shelter, user)` |
| Shelters.ShelterTable.Delete | server/app/api/shelters.py:170-183 | only a row with that id owned by the caller is removed, else 404 and nothing changes |
| Shelters.ShelterTable.Update | server/app/api/shelters.py:208-241 | only the caller's own row changes, else 404; the new fields are written, the image is kept unless a new one is sent, and the distance is `d(p, p)` for the new point, 0 when `d` is 0 on equal points |
| Food.RadiusParam | server/app/api/food.py:27 | the listing radius is the `dist` parameter, 10 when it is absent |
| Food.GetFood | server/app/api/food.py:34-53 | the result is the regions with both coordinates within the radius, in table order; a 404 exactly when none qualifies |
| Food.FoodByUser | server/app/api/food.py:113-129 | a permutation of the caller's regions (same multiset), newest first, or 404 |
| Food.FoodTable.Add | server/app/api/food.py:73-103 | image failures insert nothing; a missing user coordinate is a 500 after the upload; the add succeeds exactly when the image checks pass and both user coordinates are given, and then inserts one row with distance `d(region, user)` |
| Food.FoodTable.Update | server/app/api/food.py:148-166 | any caller may update any existing row, else 404; the text fields and coordinates are overwritten and the image replaced only when one is sent |
| Food.FoodTable.Delete | server/app/api/food.py:183-192 | any caller may delete any existing row, else 404 |
| News.InRadius | server/app/api/news.py:41-47 | every kept item is within the radius and carries its distance from the reader, and comes from the table |
| News.InRadiusComplete | server/app/api/news.py:41-47 | every table item within the radius is kept, with its distance attached |
| News.RecentMeansUnderFourDays | server/app/api/news.py:53 | an age of at most 3 whole days means created less than four days before `now` |
| News.Truncate | server/app/api/news.py:56 | the slice is the prefix of exactly `min(n, 100)` items of an `n`-item list |
| News.GetNews | server/app/api/news.py:26-64 | the loop, sort, recency filter and slice compute the feed function, with the radius defaulting to 5 km |
| News.FeedItemsQualify | server/app/api/news.py:41-63 | every feed item is within the radius with its distance stored, at most 3 days old and from the table; the feed holds `min(q, 100)` items for `q` recent in-radius items, and `count` equals their number |
| News.FeedSorted | server/app/api/news.py:50-56 | the feed is ordered nearest first |
| News.FeedTiesKeepTableOrder | server/app/api/news.py:50-53 | items at the same distance keep their table order |
| News.FeedPageTiesKeepTableOrder | server/app/api/news.py:50-56 | in the returned (truncated) feed, the items at one distance are the first in-radius recent items at that distance, in table order |
| News.FeedIsNearest | server/app/api/news.py:50-56 | any recent in-radius item left out by the 100-item cut is no nearer than any item returned |
| News.FeedComplete | server/app/api/news.py:41-56 | when at most 100 items qualify, every recent in-radius item is in the feed |
| News.FeedEmptyIsNotFound | server/app/api/news.py:58-63 | the feed is a 404 exactly when no item qualifies |
| News.MyNews | server/app/api/news.py:123-139 | a permutation of the caller's items (same multiset), newest first, with a count equal to the number of items the caller owns, or 404 |
| News.NewsTable.Add | server/app/api/news.py:81-114 | image failures insert nothing; otherwise one row with the uploaded URL, the caller as owner and distance 0 |
| News.NewsTable.Delete | server/app/api/news.py:151-157 | only the caller's own item is removed, else 404 and nothing changes |
| News.NewsTable.Update | server/app/api/news.py:176-193 | only the caller's own item changes, else 404; title, description, coordinates and update time are overwritten, the image only when one is sent |
| Sos.NewAlert | server/app/api/sos.py:31-38 | a count of 0 is stored as 1 and any other count as given; the alert is neither rectified nor resolved |
| Sos.Round2Close | server/app/api/sos.py:64 | rounding to two decimals moves a distance by at most 0.005 |
| Sos.Round2WithinRadius | server/app/api/sos.py:64 | against a whole-km radius, a distance within it still passes once rounded, and a rounded pass means at most 0.005 km beyond it |
| Sos.DateWindow | server/app/api/sos.py:78-83 | a missing bound gives the window from two days before today to today; otherwise the given dates |
| Sos.GetSosAlerts | server/app/api/sos.py:66-109 | the loop and the final comprehension compute the listing function, with the radius defaulting to 10 km |
| Sos.DistanceStageItems | server/app/api/sos.py:92-103 | every alert passing the distance stage comes from its input; with admin coordinates it carries its rounded distance, which is within the radius |
| Sos.DistanceStageNoAdmin | server/app/api/sos.py:101-103 | without both admin coordinates every alert passes unchanged |
| Sos.DistanceStageComplete | server/app/api/sos.py:94-100 | with admin coordinates every alert whose rounded distance is within the radius passes, with that distance attached |
| Sos.ListingItemsQualify | server/app/api/sos.py:86-106 | every listed alert is unresolved, inside the date window and from the table, and with admin coordinates carries its rounded distance within the radius |
| Sos.ListingWithoutAdmin | server/app/api/sos.py:94-106 | without admin coordinates the listing is the window's unresolved alerts in table order |
| Sos.ListingComplete | server/app/api/sos.py:86-106 | with admin coordinates every unresolved alert of the window within the rounded radius is listed |
| Sos.ResolveAlert | server/app/api/sos.py:118-129 | 404 exactly for an unknown id, 400 exactly for a resolved alert, both changing nothing; success exactly for a known unresolved alert, and then only its `resolved` flag becomes true |
| Sos.ResolveTwiceFails | server/app/api/sos.py:125-129 | resolving the same alert again is a 400 that changes nothing |
| Sos.ResolvedAlerts | server/app/api/sos.py:149-153 | exactly the resolved alerts |
| Sos.SosTable.Create | server/app/api/sos.py:31-43 | one alert is added under a fresh id, built by the creation defaults |
| Sos.SosTable.Resolve | server/app/api/sos.py:118-132 | the table's outcome and new state are those of the resolve function |
| Client.Field | client/src/admin/AdminShelters.jsx:104 | a form value, `undefined` when the form has no such field |
| Client.WithImage | client/src/admin/UploadShelters.jsx:62-64 | the form data is the fields followed by an image part exactly when an image was chosen |
| Client.WithImageNames | client/src/admin/UploadShelters.jsx:62-64 | the names sent are the fields' names followed by `image` exactly when an image was chosen |
| Client.WithImageHasImage | client/src/admin/UploadFood.jsx:59-61 | the request carries an image part if and only if a new file was chosen |
| Client.ChooseCoordinates | client/src/admin/AdminShelters.jsx:100-105 | the user's position when the current location is used (`undefined` before it is known), the form's fields otherwise |
| Client.CoordinatesGivenCases | client/src/admin/AdminShelters.jsx:107-110 | the guard passes with the current location exactly when it is known and both coordinates are non-zero, and with form values exactly when both are truthy |
| Client.Present | client/src/admin/AdminSOS.jsx:88 | the resolved list holds every fetched alert, in order |
| AdminSos.AdminSosPage.FetchSosAlerts | client/src/admin/AdminSOS.jsx:47-75 | a request is made exactly with a client and truthy admin coordinates; success replaces the active list, failure keeps it, `loading` ends false |
| AdminSos.AdminSosPage.FetchResolved | client/src/admin/AdminSOS.jsx:77-93 | with a client, success replaces the resolved list and failure keeps it |
| AdminSos.AdminSosPage.ResolveSos | client/src/admin/AdminSOS.jsx:117-135 | on success the first active alert with the id (or `undefined`) is appended to the resolved list and every active alert with the id is removed; on failure nothing changes |
| AdminSos.ResolveRemoves | client/src/admin/AdminSOS.jsx:126-128 | after a resolve no active alert has the id, all others remain, exactly the matching ones are dropped, and a repeat removes nothing more |
| AdminSos.ResolveMoves | client/src/admin/AdminSOS.jsx:122-128 | the appended alert is the first active alert with that id, and with distinct ids it is the only one that leaves the active list, so no alert is lost or duplicated |
| UploadShelters.UpdateFields | client/src/admin/UploadShelters.jsx:52-61 | the update form sends its eight text fields under their names in append order, each with the form's value |
| UploadShelters.UpdateSendsRequiredFields | client/src/admin/UploadShelters.jsx:52-64 | the update request carries every form field update_shelter requires, and `image` only when a new file was chosen |
| UploadShelters.UploadSheltersPage.FetchUserShelters | client/src/admin/UploadShelters.jsx:32-48 | nothing without a client; success replaces the list, failure keeps it, `loading` ends false |
| UploadShelters.UploadSheltersPage.HandleDeleteShelter | client/src/admin/UploadShelters.jsx:94-107 | success removes every item with the id and keeps the rest in order; failure keeps the list; `deleting` ends false |
| UploadShelters.UploadSheltersPage.HandleUpdateShelter | client/src/admin/UploadShelters.jsx:50-80 | the request goes to the selected id with the fields and the image only if chosen; success closes the modal and refetches, failure keeps the modal; `updating` ends false |
| UploadFood.UpdateFields | client/src/admin/UploadFood.jsx:53-58 | the update form sends its five text fields under their names in append order, each with the form's value |
| UploadFood.UpdateSendsRequiredFields | client/src/admin/UploadFood.jsx:53-61 | the update request carries every form field update_food_region requires, and `image` only when a new file was chosen |
| UploadFood.UploadFoodPage.FetchFoodRegions | client/src/admin/UploadFood.jsx:32-48 | nothing without a client; success replaces the list, failure keeps it, `loading` ends false |
| UploadFood.UploadFoodPage.HandleDeleteFood | client/src/admin/UploadFood.jsx:91-102 | success removes every item with the id and keeps the rest in order; failure keeps the list; `deleting` ends false |
| UploadFood.UploadFoodPage.HandleUpdateFood | client/src/admin/UploadFood.jsx:50-77 | the image is sent only when chosen; success closes the modal and refetches; `updating` ends false |
| UploadedNews.UpdateFields | client/src/admin/UploadedNews.jsx:51-55 | the update form sends its four text fields under their names in append order, each with the form's value |
| UploadedNews.UpdateSendsRequiredFields | client/src/admin/UploadedNews.jsx:51-58 | the update request carries every form field update_news requires, and `image` only when a new file was chosen |
| UploadedNews.UploadedNewsPage.FetchUserNews | client/src/admin/UploadedNews.jsx:32-46 | nothing without a client; success replaces the list, failure keeps it, `loading` ends false |
| UploadedNews.UploadedNewsPage.HandleDeleteNews | client/src/admin/UploadedNews.jsx:88-99 | success removes every item with the id and keeps the rest in order; failure keeps the list; `deleting` ends false |
| UploadedNews.UploadedNewsPage.HandleUpdateNews | client/src/admin/UploadedNews.jsx:48-74 | the image is sent only when chosen; success closes the modal and refetches; `updating` ends false |
| AdminShelters.AddFields | client/src/admin/AdminShelters.jsx:112-119 | the add form sends name, address and pincode from the form, the chosen coordinates and the user's position, under those names in append order |
| AdminShelters.AddSendsRequiredFields | client/src/admin/AdminShelters.jsx:112-122 | the add request carries every form field add_shelter requires, and its required `image` only when a file was chosen, so without one the server answers 422 |
| AdminShelters.AdminSheltersPage.LocateOnce | client/src/admin/AdminShelters.jsx:59-78 | geolocation is requested only while the ref is unset, which it then is; a failure or missing support ends loading |
| AdminShelters.MountTwice | client/src/admin/AdminShelters.jsx:59-61 | of two mount-effect runs the second never requests the position |
| AdminShelters.AdminSheltersPage.FetchShelters | client/src/admin/AdminShelters.jsx:80-96 | the list is replaced only by an array response; `loading` ends false |
| AdminShelters.AdminSheltersPage.FetchEffect | client/src/admin/AdminShelters.jsx:50-57 | a fetch for the user's position and the selected radius runs exactly when the position is known; no other state changes |
| AdminShelters.AdminSheltersPage.HandleAddShelter | client/src/admin/AdminShelters.jsx:98-137 | a falsy chosen coordinate, an unknown user position or a missing client sends nothing and changes nothing; a successful post closes the modal, clears the form and image and refetches for the chosen coordinates |
| AdminFood.RegionsQuery | client/src/admin/AdminFood.jsx:81-84 | the radius is sent as `distance`, so the endpoint falls back to its 10 km default |
| AdminFood.AddFields | client/src/admin/AdminFood.jsx:107-114 | the add form sends address, pincode and description from the form, the chosen coordinates and the user's position, under those names in append order |
| AdminFood.AddSendsRequiredFields | client/src/admin/AdminFood.jsx:107-117 | the add request carries every form field addFood requires, and `image` only when a file was chosen |
| AdminFood.AdminFoodPage.Locate | client/src/admin/AdminFood.jsx:49-67 | a found position is stored; missing support or a failure ends loading |
| AdminFood.AdminFoodPage.FetchRegions | client/src/admin/AdminFood.jsx:79-91 | the request is sent for the given latitude and longitude with the radius as `distance`; success replaces the list, failure keeps it, `loading` ends false |
| AdminFood.AdminFoodPage.FetchEffect | client/src/admin/AdminFood.jsx:69-77 | a fetch runs exactly when the position is known and the radius is non-zero, for the user's position and that radius; no other state changes |
| AdminFood.AdminFoodPage.HandleAddRegion | client/src/admin/AdminFood.jsx:93-134 | the same guards as the shelters form; a successful post closes the modal, clears the form and image and refetches for the chosen coordinates |
| NewsPage.AddFields | client/src/admin/News.jsx:97-101 | the add form sends title and description from the form and the chosen coordinates, under those names in append order |
| NewsPage.AddSendsRequiredFields | client/src/admin/News.jsx:97-104 | the add request carries every form field add_news requires, and `image` only when a file was chosen |
| NewsPage.NewsAdminPage.Locate | client/src/admin/News.jsx:36-54 | a found position is stored; missing support or a failure ends loading |
| NewsPage.NewsAdminPage.FetchNews | client/src/admin/News.jsx:66-78 | the feed is asked for the given latitude and longitude and the selected radius; success replaces the list, failure keeps it, `loading` ends false |
| NewsPage.NewsAdminPage.FetchEffect | client/src/admin/News.jsx:56-64 | a fetch runs exactly when the position is known and the radius is non-zero, for the user's position and that radius; no other state changes |
| NewsPage.NewsAdminPage.HandleAddNews | client/src/admin/News.jsx:80-121 | a falsy chosen coordinate or a missing client sends nothing; form coordinates need no known position; success closes the modal, clears the form and image and refetches for the chosen coordinates |
| SosPage.ParseIntOrZero | client/src/Pages/sos.jsx:79 | input with no digit reads as 0 |
| SosPage.ParseShowNat | client/src/Pages/sos.jsx:79 | a count typed in decimal reads back as that count |
| SosPage.ParseShowNegative | client/src/Pages/sos.jsx:79 | a typed negative count reads as negative |
| SosPage.SosAlertPage.SetPersons | client/src/Pages/sos.jsx:79 | the count is the parsed input |
| SosPage.SosAlertPage.HandleSos | client/src/Pages/sos.jsx:16-59 | a count of at most 0 changes nothing and sends nothing; otherwise exactly a found position is stored and posted with the count, and `loading` ends false on every path |
| SosPage.SentCountIsStored | client/src/Pages/sos.jsx:37 | a count the page sends is stored unchanged by the server |
| AuthContext.Stored | client/src/context.jsx:13-16 | a stored value, or the empty string for an absent key |
| AuthContext.AuthProvider.Mount | client/src/context.jsx:12-17 | each field takes its stored value or the empty string |
| AuthContext.AuthProvider.SetTokens | client/src/context.jsx:20-25 | both token fields and both storage keys equal the arguments; nothing else changes |
| AuthContext.AuthProvider.SetUser | client/src/context.jsx:27-33 | name and id go to state and storage, the department to storage only |
| AuthContext.AuthProvider.ClearAuth | client/src/context.jsx:35-44 | the four fields are emptied and exactly the four auth keys removed |
| AuthContext.ClearedStorage | client/src/context.jsx:35-44 | after a logout a remount finds no session, while `department` and every other key survive |
| AuthContext.StoredRoundTrip | client/src/context.jsx:20-33 | what `setTokens` and `setUser` store is what a remount reads |
| AuthContext.UseAuth | client/src/context.jsx:65-71 | the hook returns the context inside a provider and throws outside one |

## Left out

- The haversine formula, on the server and the client: every distance is the parameter `d`. Floating-point arithmetic, NaN and infinite coordinates are not modelled; coordinates and distances are exact reals.
- Sos.Round2Close: `round(x, 2)` is modelled as exact rounding of a real to the nearest hundredth, ties to even; the rounding of binary floating-point values is not modelled.
- Database access: tables are maps from id to row, and the read queries are sequences in the order the database returns them. The order among rows with equal `createdAt` in the per-user listings is not fixed by the query; the model keeps table order there.
- Date parsing in the SOS listing: the dates arrive as day numbers, and a malformed date (a 500 in the code) is not modelled. The `order` parameter the admin page sends is ignored by the endpoint and is left out.
- S3 uploads and local image files: an upload is the URL it yields or nothing. Writing, replacing and deleting image files on disk, and the errors that can raise, are not modelled. The repeated `if image:` in the add endpoints can no longer be false at that point and has no separate branch.
- Form validation by the framework beyond missing fields: a value that does not parse as the declared type (for example `undefined` sent for a float field) is a 422 in the program and is not modelled; the model checks only which field names each request carries.
- Authentication: the JSON Web Token dependency is not part of this model; each endpoint receives the caller's id, and 401 responses are not modelled.
- Shelters.ShelterTable.Update: the update time is read twice from the clock in the code; the model uses one `now` for both.
- Response bodies and messages beyond the data the pages use, toasts, modals' rendering, routing and the pages that only fetch and render.
- Asynchrony: the order in which responses arrive, stale closures and a refetch that is started but not awaited are not modelled; each handler's network outcomes are parameters and take effect before it returns.
- The admin SOS page's own geolocation call (client/src/admin/AdminSOS.jsx:95-115) only stores the position; the model takes the admin coordinates as state.
- SosPage.ParseIntOrZero: hexadecimal `0x` prefixes and white space other than space, tab and line breaks are not modelled; a number input does not produce them.
- The SOS page's post passes a header object as the request body and does not check for a missing API client; request headers and the client's own authentication are not modelled.
