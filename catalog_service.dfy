/** `MusicKitService`: catalog search guards, the artwork cache and the
    authorization flag. MusicKit's catalog, its authorization prompt and
    URLSession are not modelled; their answers are parameters. */
module CatalogService {
  import opened Common

  /** `URL.absoluteString`, the artwork cache's key. */
  type Url = string

  /** `MusicAuthorization.Status`. */
  datatype AuthorizationStatus = NotDetermined | Denied | Restricted | Authorized

  /** MusicKit's `Artwork`: the URL it resolves for each pixel size it offers;
      `url(width:height:)` is nil for any other size. */
  datatype Artwork = Artwork(urls: map<(int, int), Url>)

  datatype Album = Album(id: string, title: string, artwork: Option<Artwork>)
  datatype Playlist = Playlist(id: string, name: string, artwork: Option<Artwork>)

  /** The item types a catalog search asks for. */
  datatype Kind = AlbumKind | PlaylistKind

  /** A `MusicCatalogSearchRequest` as configured before it is sent. */
  datatype SearchRequest = SearchRequest(term: string, types: set<Kind>, limit: int)
  datatype SearchResponse = SearchResponse(albums: seq<Album>, playlists: seq<Playlist>)

  /** The outcome of a Swift call that `throws`. */
  datatype Outcome<T> = Returned(value: T) | Threw

  /** A search call: the request it sent to the catalog, if any, and what it
      returned to its caller. */
  datatype Search<T> = Search(request: Option<SearchRequest>, result: Outcome<T>)

  /** `request.limit` for a search of one item type. */
  const SingleKindLimit := 25
  /** `request.limit` for the combined album and playlist search. */
  const CombinedLimit := 15
  /** The default `size` of both `fetchArtworkData` overloads, in points. */
  const ArtworkSide := 300

  /** The catalog's answer to a request, reduced to its albums. */
  function AlbumsOf(o: Outcome<SearchResponse>): Outcome<seq<Album>> {
    match o
    case Threw => Threw
    case Returned(r) => Returned(r.albums)
  }

  function PlaylistsOf(o: Outcome<SearchResponse>): Outcome<seq<Playlist>> {
    match o
    case Threw => Threw
    case Returned(r) => Returned(r.playlists)
  }

  /** `searchAlbums(query:)`; `respond` is the catalog. */
  function SearchAlbums(query: string, respond: SearchRequest -> Outcome<SearchResponse>): (s: Search<seq<Album>>)
    ensures s.request.None? <==> query == []
    ensures query == [] ==> s.result == Returned([])
    ensures s.request.Some? ==>
      s.request.value == SearchRequest(query, {AlbumKind}, SingleKindLimit) &&
      s.result == AlbumsOf(respond(s.request.value))
  {
    if query == [] then Search(None, Returned([]))
    else
      var request := SearchRequest(query, {AlbumKind}, SingleKindLimit);
      Search(Some(request), AlbumsOf(respond(request)))
  }

  /** `searchPlaylists(query:)`. */
  function SearchPlaylists(query: string, respond: SearchRequest -> Outcome<SearchResponse>): (s: Search<seq<Playlist>>)
    ensures s.request.None? <==> query == []
    ensures query == [] ==> s.result == Returned([])
    ensures s.request.Some? ==>
      s.request.value == SearchRequest(query, {PlaylistKind}, SingleKindLimit) &&
      s.result == PlaylistsOf(respond(s.request.value))
  {
    if query == [] then Search(None, Returned([]))
    else
      var request := SearchRequest(query, {PlaylistKind}, SingleKindLimit);
      Search(Some(request), PlaylistsOf(respond(request)))
  }

  /** `searchAll(query:)`: one request for both item types. */
  function SearchAll(query: string, respond: SearchRequest -> Outcome<SearchResponse>): (s: Search<(seq<Album>, seq<Playlist>)>)
    ensures s.request.None? <==> query == []
    ensures query == [] ==> s.result == Returned(([], []))
    ensures s.request.Some? ==>
      s.request.value == SearchRequest(query, {AlbumKind, PlaylistKind}, CombinedLimit) &&
      (s.result.Threw? <==> respond(s.request.value).Threw?) &&
      (s.result.Returned? ==>
        s.result.value == (respond(s.request.value).value.albums, respond(s.request.value).value.playlists))
  {
    if query == [] then Search(None, Returned(([], [])))
    else
      var request := SearchRequest(query, {AlbumKind, PlaylistKind}, CombinedLimit);
      match respond(request)
      case Threw => Search(Some(request), Threw)
      case Returned(r) => Search(Some(request), Returned((r.albums, r.playlists)))
  }

  /** All three searches agree on when the catalog is contacted at all: an
      empty query never reaches it, whatever it would answer. */
  lemma {:induction false} SearchGuardsAgree(query: string, respond: SearchRequest -> Outcome<SearchResponse>,
                                             other: SearchRequest -> Outcome<SearchResponse>)
    ensures SearchAll(query, respond).request.Some? <==> SearchAlbums(query, respond).request.Some?
    ensures SearchAll(query, respond).request.Some? <==> SearchPlaylists(query, respond).request.Some?
    ensures query == [] ==>
      SearchAlbums(query, respond) == SearchAlbums(query, other) &&
      SearchPlaylists(query, respond) == SearchPlaylists(query, other) &&
      SearchAll(query, respond) == SearchAll(query, other)
  {
  }

  /** `artwork.url(width:height:)` for the default size, or nil. */
  function ArtworkLocation(artwork: Option<Artwork>): (url: Option<Url>)
    ensures artwork.None? ==> url.None?
  {
    match artwork
    case None => None
    case Some(a) =>
      if (ArtworkSide, ArtworkSide) in a.urls then Some(a.urls[(ArtworkSide, ArtworkSide)]) else None
  }

  /** What `fetchArtworkData(for:)` returns, given the cache before the call
      and what the network would deliver (`None`: the request throws). */
  function CachedFetch(cache: map<Url, Bytes>, url: Option<Url>, network: Option<Bytes>): (data: Option<Bytes>)
    ensures url.None? ==> data.None?
    ensures url.Some? && url.value in cache ==> data == Some(cache[url.value])
    ensures url.Some? && url.value !in cache ==> data == network
  {
    match url
    case None => None
    case Some(u) => if u in cache then Some(cache[u]) else network
  }

  /** The cache after `fetchArtworkData(for:)`. */
  function CacheAfter(cache: map<Url, Bytes>, url: Option<Url>, network: Option<Bytes>): (after: map<Url, Bytes>)
    ensures forall k :: k in cache ==> k in after && after[k] == cache[k]
    ensures forall k :: k in after && k !in cache ==> url == Some(k) && network == Some(after[k])
    ensures network.None? ==> after == cache
  {
    match url
    case Some(u) =>
      if u !in cache && network.Some? then cache[u := network.value] else cache
    case None => cache
  }

  /** The downloads `fetchArtworkData(for:)` starts: one on a cache miss, none
      on a hit or for a nil URL. */
  function Downloads(cache: map<Url, Bytes>, url: Option<Url>): seq<Url> {
    match url
    case Some(u) => if u in cache then [] else [u]
    case None => []
  }

  /** After a fetch that produced bytes, a second fetch of the same address is
      a cache hit: it returns the same bytes, starts no download, and leaves
      the cache as it is, whatever the network would do. */
  lemma {:induction false} RepeatFetchIsHit(cache: map<Url, Bytes>, url: Url, first: Option<Bytes>, second: Option<Bytes>)
    requires CachedFetch(cache, Some(url), first).Some?
    ensures var after := CacheAfter(cache, Some(url), first);
      CachedFetch(after, Some(url), second) == CachedFetch(cache, Some(url), first) &&
      Downloads(after, Some(url)) == [] &&
      CacheAfter(after, Some(url), second) == after
  {
    if url !in cache {
      assert CacheAfter(cache, Some(url), first) == cache[url := first.value];
    }
  }

  /** Two fetches of one address start at most one download when the first
      one succeeds. */
  lemma {:induction false} TwoFetchesOneDownload(cache: map<Url, Bytes>, url: Url, first: Option<Bytes>)
    requires first.Some?
    ensures |Downloads(cache, Some(url)) + Downloads(CacheAfter(cache, Some(url), first), Some(url))| <= 1
  {
    RepeatFetchIsHit(cache, url, first, None);
  }

  /** The shared `MusicKitService` instance. */
  class MusicKitService {
    var authorizationStatus: AuthorizationStatus
    var isAuthorized: bool
    var artworkCache: map<Url, Bytes>
    /** The URLSession requests started so far, in order. */
    var downloads: seq<Url>

    /** `init()`; the authorization check it schedules is a separate
        `CheckAuthorization` step. */
    constructor ()
      ensures authorizationStatus == NotDetermined && !isAuthorized
      ensures artworkCache == map[] && downloads == []
    {
      authorizationStatus, isAuthorized := NotDetermined, false;
      artworkCache, downloads := map[], [];
    }

    /** `checkAuthorization()`; `status` is what `MusicAuthorization.request()` answers. */
    method CheckAuthorization(status: AuthorizationStatus)
      modifies this
      ensures authorizationStatus == status
      ensures isAuthorized <==> status == Authorized
      ensures artworkCache == old(artworkCache) && downloads == old(downloads)
    {
      authorizationStatus := status;
      isAuthorized := status == Authorized;
    }

    /** `requestAuthorization()`: as `checkAuthorization()`, and reports the flag. */
    method RequestAuthorization(status: AuthorizationStatus) returns (authorized: bool)
      modifies this
      ensures authorizationStatus == status
      ensures isAuthorized <==> status == Authorized
      ensures authorized == isAuthorized
      ensures artworkCache == old(artworkCache) && downloads == old(downloads)
    {
      authorizationStatus := status;
      isAuthorized := status == Authorized;
      authorized := isAuthorized;
    }

    /** `fetchArtworkData(for:)`: nil for a nil URL; the cached bytes on a hit;
        otherwise a download (`network`, `None` when it throws) whose bytes
        are cached and returned. A failed download is logged and yields nil. */
    method FetchArtworkDataFor(url: Option<Url>, network: Option<Bytes>) returns (data: Option<Bytes>)
      modifies this
      ensures data == CachedFetch(old(artworkCache), url, network)
      ensures artworkCache == CacheAfter(old(artworkCache), url, network)
      ensures downloads == old(downloads) + Downloads(old(artworkCache), url)
      ensures authorizationStatus == old(authorizationStatus) && isAuthorized == old(isAuthorized)
    {
      if url.None? {
        return None;
      }
      var key := url.value;
      if key in artworkCache {
        return Some(artworkCache[key]);
      }
      downloads := downloads + [key];
      if network.Some? {
        artworkCache := artworkCache[key := network.value];
        return network;
      }
      return None;  // logged
    }

    /** `fetchArtworkData(from:)`: nil for nil artwork; otherwise the fetch of
        the URL the artwork resolves for the default size. */
    method FetchArtworkDataFrom(artwork: Option<Artwork>, network: Option<Bytes>) returns (data: Option<Bytes>)
      modifies this
      ensures data == CachedFetch(old(artworkCache), ArtworkLocation(artwork), network)
      ensures artworkCache == CacheAfter(old(artworkCache), ArtworkLocation(artwork), network)
      ensures downloads == old(downloads) + Downloads(old(artworkCache), ArtworkLocation(artwork))
      ensures artwork.None? ==> data.None? && artworkCache == old(artworkCache) && downloads == old(downloads)
      ensures authorizationStatus == old(authorizationStatus) && isAuthorized == old(isAuthorized)
    {
      if artwork.None? {
        return None;
      }
      data := FetchArtworkDataFor(ArtworkLocation(artwork), network);
    }
  }
}
