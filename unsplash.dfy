/** The image server actions: searching Unsplash, selecting a photo (which tracks the
    download and records the use), and the single-image action that chains the two and
    reads the record back. */
module Unsplash {
  import opened Wrappers
  import opened Auth

  // ---------------------------------------------------------------------------
  // Photos and the client's view of them
  // ---------------------------------------------------------------------------

  /** The fields of an Unsplash photo the actions read. */
  datatype Photo = Photo(
    id: string,
    regularUrl: string,
    fullUrl: string,
    description: Option<string>,
    altDescription: Option<string>,
    userName: string,
    userHtmlLink: string,
    width: int,
    height: int,
    downloadLocation: string)

  /** `UnsplashImage`: what the actions hand to the editor. */
  datatype UnsplashImage = UnsplashImage(
    id: string,
    url: string,
    downloadUrl: string,
    description: Option<string>,
    altDescription: Option<string>,
    photographer: string,
    photographerUrl: string,
    width: int,
    height: int)

  /** The record translation both actions apply (`?? undefined` keeps an absent
      description absent). */
  function ToImage(p: Photo): UnsplashImage
  {
    UnsplashImage(p.id, p.regularUrl, p.fullUrl, p.description, p.altDescription,
                  p.userName, p.userHtmlLink, p.width, p.height)
  }

  /** `UnsplashSearchResult`. */
  datatype SearchResult = SearchResult(
    success: bool,
    images: Option<seq<UnsplashImage>>,
    selectedImage: Option<UnsplashImage>,
    error: Option<string>)

  function Failure(message: string): SearchResult
  {
    SearchResult(false, None, None, Some(message))
  }

  /** Every result the actions return is one of two shapes: a failure that carries only
      an error message, or a success that carries no error. */
  predicate WellFormed(r: SearchResult)
  {
    if r.success then r.error.None?
    else r.error.Some? && r.images.None? && r.selectedImage.None?
  }

  // ---------------------------------------------------------------------------
  // The Unsplash API as the actions see it
  // ---------------------------------------------------------------------------

  /** A value caught by a `catch` block: an `Error` with its message, or anything else. */
  datatype Thrown = ErrorObject(message: string) | OtherValue

  /** `error instanceof Error ? error.message : fallback`. */
  function MessageOf(thrown: Thrown, fallback: string): string
  {
    match thrown
    case ErrorObject(message) => message
    case OtherValue => fallback
  }

  datatype SearchRequest = SearchRequest(query: string, page: int, perPage: int, orientation: string)

  /** The outcome of `search.getPhotos`: an error list, no response, the results, or a throw. */
  datatype SearchResponse =
    | SearchErrors
    | SearchNoResponse
    | SearchResults(results: seq<Photo>)
    | SearchThrows(thrown: Thrown)

  /** The outcome of `photos.get`. */
  datatype PhotoResponse =
    | PhotoErrors
    | PhotoNoResponse
    | PhotoFound(photo: Photo)
    | PhotoThrows(thrown: Thrown)

  /** The outcome of `photos.trackDownload`: the action ignores any answer, and only a
      throw changes its course. */
  datatype TrackResponse = TrackAnswered | TrackThrows(thrown: Thrown)

  datatype ApiCall =
    | SearchCall(request: SearchRequest)
    | PhotoCall(photoId: string)
    | TrackCall(downloadLocation: string)

  /** The API client: how the service answers each request, and the requests made so far. */
  class Client {
    const searchAnswer: SearchRequest -> SearchResponse
    const photoAnswer: string -> PhotoResponse
    const trackAnswer: string -> TrackResponse
    var calls: seq<ApiCall>

    constructor (searchAnswer: SearchRequest -> SearchResponse, photoAnswer: string -> PhotoResponse,
                 trackAnswer: string -> TrackResponse)
      ensures this.searchAnswer == searchAnswer && this.photoAnswer == photoAnswer
      ensures this.trackAnswer == trackAnswer && calls == []
    {
      this.searchAnswer := searchAnswer;
      this.photoAnswer := photoAnswer;
      this.trackAnswer := trackAnswer;
      calls := [];
    }

    method GetPhotos(request: SearchRequest) returns (response: SearchResponse)
      modifies this
      ensures response == searchAnswer(request) && calls == old(calls) + [SearchCall(request)]
    {
      response := searchAnswer(request);
      calls := calls + [SearchCall(request)];
    }

    method GetPhoto(photoId: string) returns (response: PhotoResponse)
      modifies this
      ensures response == photoAnswer(photoId) && calls == old(calls) + [PhotoCall(photoId)]
    {
      response := photoAnswer(photoId);
      calls := calls + [PhotoCall(photoId)];
    }

    method TrackDownload(downloadLocation: string) returns (response: TrackResponse)
      modifies this
      ensures response == trackAnswer(downloadLocation) && calls == old(calls) + [TrackCall(downloadLocation)]
    {
      response := trackAnswer(downloadLocation);
      calls := calls + [TrackCall(downloadLocation)];
    }
  }

  // ---------------------------------------------------------------------------
  // The usage table
  // ---------------------------------------------------------------------------

  /** An `ImageUsage` row. The store's generated id and creation time are numbers here. */
  datatype ImageUsage = ImageUsage(
    id: nat,
    imageUrl: string,
    unsplashId: string,
    searchTerm: string,
    photographer: string,
    userId: string,
    createdAt: nat)

  predicate Matches(row: ImageUsage, imageUrl: string, searchTerm: string)
  {
    row.imageUrl == imageUrl && row.searchTerm == searchTerm
  }

  /** Rows in creation order: ids and creation times strictly increase along the table. */
  predicate InCreationOrder(rows: seq<ImageUsage>)
  {
    forall i, j :: 0 <= i < j < |rows| ==> rows[i].id < rows[j].id && rows[i].createdAt < rows[j].createdAt
  }

  /** `db.imageUsage`: rows are only ever appended. */
  class ImageUsageTable {
    var rows: seq<ImageUsage>
    /** The id the next row gets. */
    var nextId: nat
    /** The store's clock: the creation time the next row gets. */
    var clock: nat

    ghost predicate Valid()
      reads this
    {
      && InCreationOrder(rows)
      && (forall i :: 0 <= i < |rows| ==> rows[i].id < nextId && rows[i].createdAt < clock)
    }

    constructor ()
      ensures Valid() && rows == []
    {
      rows := [];
      nextId := 0;
      clock := 0;
    }

    /** `db.imageUsage.create`: appends one row with a fresh id, stamped with the current time. */
    method Create(imageUrl: string, unsplashId: string, searchTerm: string, photographer: string, userId: string)
      returns (row: ImageUsage)
      requires Valid()
      modifies this
      ensures Valid()
      ensures row == ImageUsage(old(nextId), imageUrl, unsplashId, searchTerm, photographer, userId, old(clock))
      ensures rows == old(rows) + [row]
    {
      row := ImageUsage(nextId, imageUrl, unsplashId, searchTerm, photographer, userId, clock);
      rows := rows + [row];
      nextId := nextId + 1;
      clock := clock + 1;
    }

    /** `db.imageUsage.findFirst({ where: { imageUrl, searchTerm }, orderBy: { createdAt: "desc" } })`:
        the most recently created matching row, or none when no row matches. */
    method FindLatest(imageUrl: string, searchTerm: string) returns (found: Option<ImageUsage>)
      requires Valid()
      ensures found.None? <==> forall i :: 0 <= i < |rows| ==> !Matches(rows[i], imageUrl, searchTerm)
      ensures found.Some? ==> found.value in rows && Matches(found.value, imageUrl, searchTerm)
      ensures found.Some? ==> forall i :: 0 <= i < |rows| && Matches(rows[i], imageUrl, searchTerm) ==>
        rows[i].createdAt <= found.value.createdAt
    {
      found := None;
      for i := 0 to |rows|
        invariant found.None? <==> forall k :: 0 <= k < i ==> !Matches(rows[k], imageUrl, searchTerm)
        invariant found.Some? ==> found.value in rows && Matches(found.value, imageUrl, searchTerm)
        invariant found.Some? ==> forall k :: 0 <= k < i && Matches(rows[k], imageUrl, searchTerm) ==>
          rows[k].createdAt <= found.value.createdAt
      {
        if Matches(rows[i], imageUrl, searchTerm) && (found.None? || found.value.createdAt < rows[i].createdAt) {
          found := Some(rows[i]);
        }
      }
    }
  }

  /** In a table in creation order, the row just appended is the only latest match for
      its own url and search term: a read-back after the write finds exactly that row. */
  lemma {:induction false} AppendedRowIsLatest(rows: seq<ImageUsage>, row: ImageUsage, found: ImageUsage)
    requires InCreationOrder(rows + [row])
    requires found in rows + [row] && Matches(found, row.imageUrl, row.searchTerm)
    requires forall i :: 0 <= i < |rows + [row]| && Matches((rows + [row])[i], row.imageUrl, row.searchTerm) ==>
      (rows + [row])[i].createdAt <= found.createdAt
    ensures found == row
  {
    var all := rows + [row];
    assert all[|rows|] == row;
    assert row.createdAt <= found.createdAt;
    var k :| 0 <= k < |all| && all[k] == found;
    assert k == |rows|;
  }

  // ---------------------------------------------------------------------------
  // The actions
  // ---------------------------------------------------------------------------

  /** `searchUnsplashImages` once the session has a user: the decision on the API's answer. */
  function SearchOutcome(response: SearchResponse): (r: SearchResult)
    ensures WellFormed(r)
    ensures r.success <==> response.SearchResults?
    ensures response.SearchErrors? ==> r == Failure("Failed to search images. Please try again.")
    ensures response.SearchNoResponse? ==> r == Failure("No response from Unsplash API")
    ensures response.SearchThrows? ==> r == Failure(MessageOf(response.thrown, "Failed to search images"))
    ensures response.SearchResults? ==>
      && r.images.Some? && r.selectedImage.None?
      && |r.images.value| == |response.results|
      && forall i :: 0 <= i < |response.results| ==> r.images.value[i] == ToImage(response.results[i])
  {
    match response
    case SearchErrors => Failure("Failed to search images. Please try again.")
    case SearchNoResponse => Failure("No response from Unsplash API")
    case SearchResults(results) =>
      var images := seq(|results|, i requires 0 <= i < |results| => ToImage(results[i]));
      SearchResult(true, Some(images), None, None)
    case SearchThrows(thrown) => Failure(MessageOf(thrown, "Failed to search images"))
  }

  const LandscapeOrientation: string := "landscape"

  /** `searchUnsplashImages(query, page = 1, perPage = 12)`: without a signed-in user it
      fails before any request; otherwise it asks for one page of landscape photos and
      decides on the answer. */
  method SearchUnsplashImages(client: Client, session: Option<Session>, query: string, page: int := 1, perPage: int := 12)
    returns (r: SearchResult)
    modifies client
    ensures !HasUserId(session) ==>
      r == Failure("You must be logged in to search images") && client.calls == old(client.calls)
    ensures HasUserId(session) ==>
      var request := SearchRequest(query, page, perPage, LandscapeOrientation);
      r == SearchOutcome(client.searchAnswer(request)) && client.calls == old(client.calls) + [SearchCall(request)]
    ensures WellFormed(r)
  {
    if !HasUserId(session) {
      return Failure("You must be logged in to search images");
    }
    var response := client.GetPhotos(SearchRequest(query, page, perPage, LandscapeOrientation));
    r := SearchOutcome(response);
  }

  /** `selectUnsplashImage` once the session has a user: the decision on the API's answers,
      where `track` is how the download tracking would answer for a given location. */
  function SelectOutcome(response: PhotoResponse, track: string -> TrackResponse): (r: SearchResult)
    ensures WellFormed(r) && r.images.None?
    ensures r.success <==> response.PhotoFound? && track(response.photo.downloadLocation).TrackAnswered?
    ensures r.success ==> r.selectedImage == Some(ToImage(response.photo))
    ensures response.PhotoErrors? ==> r == Failure("Failed to get image details. Please try again.")
    ensures response.PhotoNoResponse? ==> r == Failure("No response from Unsplash API")
    ensures response.PhotoThrows? ==> r == Failure(MessageOf(response.thrown, "Failed to select image"))
    ensures response.PhotoFound? && track(response.photo.downloadLocation).TrackThrows? ==>
      r == Failure(MessageOf(track(response.photo.downloadLocation).thrown, "Failed to select image"))
  {
    match response
    case PhotoErrors => Failure("Failed to get image details. Please try again.")
    case PhotoNoResponse => Failure("No response from Unsplash API")
    case PhotoThrows(thrown) => Failure(MessageOf(thrown, "Failed to select image"))
    case PhotoFound(photo) =>
      match track(photo.downloadLocation)
      case TrackThrows(thrown) => Failure(MessageOf(thrown, "Failed to select image"))
      case TrackAnswered => SearchResult(true, None, Some(ToImage(photo)), None)
  }

  /** `selectUnsplashImage(imageId, query)`: without a signed-in user it fails before any
      request. Otherwise it fetches the photo; when the photo comes back it tracks the
      download and then records one row with the photo's own id, its regular url, the
      query, the photographer and the user. Every failure leaves the table as it was. */
  method SelectUnsplashImage(client: Client, table: ImageUsageTable, session: Option<Session>, imageId: string, query: string)
    returns (r: SearchResult)
    requires table.Valid()
    modifies client, table
    ensures table.Valid() && WellFormed(r)
    ensures !HasUserId(session) ==>
      && r == Failure("You must be logged in to select images")
      && client.calls == old(client.calls) && table.rows == old(table.rows)
    ensures HasUserId(session) ==> r == SelectOutcome(client.photoAnswer(imageId), client.trackAnswer)
    ensures HasUserId(session) && !client.photoAnswer(imageId).PhotoFound? ==>
      client.calls == old(client.calls) + [PhotoCall(imageId)]
    ensures HasUserId(session) && client.photoAnswer(imageId).PhotoFound? ==>
      client.calls == old(client.calls) + [PhotoCall(imageId), TrackCall(client.photoAnswer(imageId).photo.downloadLocation)]
    ensures !r.success ==> table.rows == old(table.rows)
    ensures r.success ==>
      var photo := client.photoAnswer(imageId).photo;
      table.rows == old(table.rows) + [ImageUsage(old(table.nextId), photo.regularUrl, photo.id, query,
                                                  photo.userName, session.value.userId.value, old(table.clock))]
  {
    if !HasUserId(session) {
      return Failure("You must be logged in to select images");
    }
    var response := client.GetPhoto(imageId);
    if !response.PhotoFound? {
      return SelectOutcome(response, client.trackAnswer);
    }
    var photo := response.photo;
    var tracked := client.TrackDownload(photo.downloadLocation);
    if tracked.TrackThrows? {
      return SelectOutcome(response, client.trackAnswer);
    }
    var selected := ToImage(photo);
    var usage := table.Create(selected.url, selected.id, query, selected.photographer, session.value.userId.value);
    r := SearchResult(true, None, Some(selected), None);
  }

  /** A reference to the stored image: its url and the usage row's id. */
  datatype ImageRef = ImageRef(url: string, id: nat)

  datatype ImageActionResult = ImageActionResult(success: bool, image: Option<ImageRef>, error: Option<string>)

  function ActionFailure(message: string): ImageActionResult
  {
    ImageActionResult(false, None, Some(message))
  }

  /** The request the single-image action sends: the first page with one landscape photo. */
  function FirstHitRequest(query: string): SearchRequest
  {
    SearchRequest(query, 1, 1, LandscapeOrientation)
  }

  /** The search of the single-image action returned at least one photo. */
  predicate HasFirstHit(client: Client, query: string)
    reads client
  {
    client.searchAnswer(FirstHitRequest(query)).SearchResults?
    && |client.searchAnswer(FirstHitRequest(query)).results| > 0
  }

  /** The id of the first photo the search returned. */
  function FirstHitId(client: Client, query: string): string
    reads client
    requires HasFirstHit(client, query)
  {
    client.searchAnswer(FirstHitRequest(query)).results[0].id
  }

  /** Whether the single-image action succeeds: a signed-in user at both `auth()` calls, a
      search that returns at least one photo, a photo lookup for the first one that
      returns it, and a download tracking that does not throw. */
  predicate ActionSucceeds(client: Client, searchSession: Option<Session>, selectSession: Option<Session>,
                           query: string)
    reads client
  {
    && HasUserId(searchSession)
    && HasFirstHit(client, query)
    && HasUserId(selectSession)
    && SelectOutcome(client.photoAnswer(FirstHitId(client, query)), client.trackAnswer).success
  }

  /** `getUnsplashImageAction(query)`: searches for one photo, selects the first hit, and
      reads the usage row back. Each of the two actions it calls asks `auth()` for the
      session itself: `searchSession` and `selectSession` are those two answers. It
      succeeds exactly when every step does, and then returns the url and id of the one
      row it added; on failure the table is unchanged and the error is the first failing
      step's. */
  method GetUnsplashImageAction(client: Client, table: ImageUsageTable, searchSession: Option<Session>,
                                selectSession: Option<Session>, query: string)
    returns (r: ImageActionResult)
    requires table.Valid()
    modifies client, table
    ensures table.Valid()
    ensures r.success <==> ActionSucceeds(client, searchSession, selectSession, query)
    ensures r.success ==>
      && |table.rows| == |old(table.rows)| + 1 && table.rows[..|old(table.rows)|] == old(table.rows)
      && var row := table.rows[|old(table.rows)|];
      && var photo := client.photoAnswer(FirstHitId(client, query)).photo;
      && row.searchTerm == query && row.unsplashId == photo.id && row.imageUrl == photo.regularUrl
      && row.photographer == photo.userName && row.userId == selectSession.value.userId.value
      && r == ImageActionResult(true, Some(ImageRef(row.imageUrl, row.id)), None)
    ensures !r.success ==> table.rows == old(table.rows) && r.image.None? && r.error.Some?
    ensures !HasUserId(searchSession) ==> r == ActionFailure("You must be logged in to search images")
    ensures !HasUserId(searchSession) ==> client.calls == old(client.calls)
    ensures HasUserId(searchSession) && !(HasFirstHit(client, query) && HasUserId(selectSession)) ==>
      client.calls == old(client.calls) + [SearchCall(FirstHitRequest(query))]
    ensures HasUserId(searchSession) && HasFirstHit(client, query) && HasUserId(selectSession) ==>
      var id := FirstHitId(client, query);
      client.calls == old(client.calls) + [SearchCall(FirstHitRequest(query)), PhotoCall(id)]
        + (if client.photoAnswer(id).PhotoFound? then [TrackCall(client.photoAnswer(id).photo.downloadLocation)] else [])
    ensures HasUserId(searchSession) && !client.searchAnswer(FirstHitRequest(query)).SearchResults? ==>
      r == ActionFailure(SearchOutcome(client.searchAnswer(FirstHitRequest(query))).error.value)
    ensures HasUserId(searchSession) && client.searchAnswer(FirstHitRequest(query)) == SearchResults([]) ==>
      r == ActionFailure("No images found for this query")
    ensures HasUserId(searchSession) && HasFirstHit(client, query) && !HasUserId(selectSession) ==>
      r == ActionFailure("You must be logged in to select images")
    ensures HasUserId(searchSession) && HasFirstHit(client, query) && HasUserId(selectSession) && !r.success ==>
      r == ActionFailure(SelectOutcome(client.photoAnswer(FirstHitId(client, query)), client.trackAnswer).error.value)
  {
    var searchResult := SearchUnsplashImages(client, searchSession, query, 1, 1);
    if !searchResult.success || searchResult.images.None? || |searchResult.images.value| == 0 {
      return ActionFailure(searchResult.error.GetOr("No images found for this query"));
    }
    var firstImage := searchResult.images.value[0];
    r := SelectAndReadBack(client, table, selectSession, firstImage.id, query);
  }

  /** The second half of `getUnsplashImageAction`: select the photo `photoId`, then read
      the usage row back. */
  method SelectAndReadBack(client: Client, table: ImageUsageTable, selectSession: Option<Session>,
                           photoId: string, query: string)
    returns (r: ImageActionResult)
    requires table.Valid()
    modifies client, table
    ensures table.Valid()
    ensures r.success <==>
      HasUserId(selectSession) && SelectOutcome(client.photoAnswer(photoId), client.trackAnswer).success
    ensures r.success ==>
      && |table.rows| == |old(table.rows)| + 1 && table.rows[..|old(table.rows)|] == old(table.rows)
      && var row := table.rows[|old(table.rows)|];
      && var photo := client.photoAnswer(photoId).photo;
      && row.searchTerm == query && row.unsplashId == photo.id && row.imageUrl == photo.regularUrl
      && row.photographer == photo.userName && row.userId == selectSession.value.userId.value
      && r == ImageActionResult(true, Some(ImageRef(row.imageUrl, row.id)), None)
    ensures !r.success ==> table.rows == old(table.rows) && r.image.None? && r.error.Some?
    ensures !HasUserId(selectSession) ==>
      r == ActionFailure("You must be logged in to select images") && client.calls == old(client.calls)
    ensures HasUserId(selectSession) && !r.success ==>
      r == ActionFailure(SelectOutcome(client.photoAnswer(photoId), client.trackAnswer).error.value)
    ensures HasUserId(selectSession) ==>
      client.calls == old(client.calls) + [PhotoCall(photoId)]
        + (if client.photoAnswer(photoId).PhotoFound? then [TrackCall(client.photoAnswer(photoId).photo.downloadLocation)] else [])
  {
    var selectionResult := SelectUnsplashImage(client, table, selectSession, photoId, query);
    if !selectionResult.success || selectionResult.selectedImage.None? {
      return ActionFailure(selectionResult.error.GetOr("Failed to select image"));
    }
    r := ReadBack(table, selectionResult.selectedImage.value.url, query);
  }

  /** The read-back after a successful selection: the row the selection has just appended
      matches its own url and search term, so the lookup finds exactly that row and the
      "Failed to store image in database" branch cannot be taken. */
  method ReadBack(table: ImageUsageTable, imageUrl: string, searchTerm: string) returns (r: ImageActionResult)
    requires table.Valid() && |table.rows| > 0 && Matches(table.rows[|table.rows| - 1], imageUrl, searchTerm)
    ensures var row := table.rows[|table.rows| - 1];
      r == ImageActionResult(true, Some(ImageRef(row.imageUrl, row.id)), None)
  {
    var imageUsage := table.FindLatest(imageUrl, searchTerm);
    if imageUsage.None? {
      assert false;
      return ActionFailure("Failed to store image in database");
    }
    var usage := imageUsage.value;
    var n := |table.rows| - 1;
    assert table.rows == table.rows[..n] + [table.rows[n]];
    AppendedRowIsLatest(table.rows[..n], table.rows[n], usage);
    r := ImageActionResult(true, Some(ImageRef(usage.imageUrl, usage.id)), None);
  }
}
