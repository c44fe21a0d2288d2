# MukkiPlayer core, modelled in Dafny

MukkiPlayer is an iOS music player built around a grid of nine tiles. Each
tile can be bound to an Apple Music album or playlist. Tapping a bound tile
plays its item, resuming at the track where that tile last left off. This
project models the core behind that grid:

- **Persistence** (`persistence.dfy`): the CoreData store of `TileConfig`
  records. The view context's objects are a sequence of value records; a
  `Handle` (the insertion index) stands for an object's identity. The set of
  objects with unsaved changes is explicit, and so is the persistent store
  behind the context. The module covers:
  - seeding the nine slots on first start;
  - fetching a record by position or by id;
  - saving only when there are changes;
  - the preview store.
- **CatalogService** (`catalog_service.dfy`): `MusicKitService`. It covers
  the empty-query guards and request limits of the three searches, the
  in-memory artwork cache, and the authorization flag.
- **Engine** (`engine.dfy`): the part of `ApplicationMusicPlayer` that the
  manager relies on. That is a queue of entries, the current entry, the
  transport status, and a log of every command given to it. Whether a
  command throws is a parameter.
- **Playback** (`playback.dfy`): `MusicPlayerManager`. It starts a tile's
  item at its stored track, mirrors the engine's state for display, and
  writes the current entry back to the active tile's record.
- **Tiles** (`tiles.dfy`): `TileModel`. It loads, configures, clears and
  plays the record for its slot, and computes its colour and playing flag.

Calls into frameworks become parameters of the operation that makes them:
- `countOk`, `fetchOk` and `saveOk`: whether a CoreData call succeeds.
- `network`: the bytes a download delivers, `None` when it throws.
- `respond`: the catalog's answer to a search request.
- `reply`: the catalog lookup of an item together with its tracks.
- `playOk` and `skipFailsAt`: which engine command throws first.
- `decodes`: whether `UIImage(data:)` succeeds.
- `status`: what `MusicAuthorization.request()` answers.

The shared singletons (`PersistenceController.shared`,
`MusicPlayerManager.shared`, `MusicKitService.shared`) are passed in
explicitly. Combine notifications become explicit calls:
`UpdatePlaybackState` and `UpdateCurrentEntry`.

A record's `lastPlayedTrackIndex` is not kept at 0 while no item is bound.
Clearing the active tile does not stop playback, and the next entry change
writes the entry's index into the unbound record
(`Playback.RecordIgnoresBinding`).

One more behaviour of the code is easy to miss. `updatePlayingState`
compares two optionals, and two nils compare equal. So a model without a
record shows "playing" whenever no tile is active and the engine plays.
`Tiles.TileModel.UpdatePlayingState` states this.

## Model

| member | source | states |
|---|---|---|
| Persistence.SeededSlots | MukkiPlayer/Persistence.swift:56-62 | the nine seeded records sit at positions 0 to 8, carry pairwise distinct ids, and have no binding, no artwork and resume index 0 |
| Persistence.SeededLookup | MukkiPlayer/Persistence.swift:55-82 | on a freshly seeded store, the fetch for each slot's position and the fetch for the id seeded there both find that slot's own record |
| Persistence.PersistenceController.constructor | MukkiPlayer/Persistence.swift:34-48 | opening a store that already holds records (or whose count fails) leaves it as it is; an empty store gets the nine seeded records, which are durable when the save succeeds and pending when it fails |
| Persistence.PersistenceController.InitializeTilesIfNeeded | MukkiPlayer/Persistence.swift:50-68 | seeding happens only on a store with no record at all (a store with fewer than nine records is left alone); a failing count or save is swallowed; the id generator stays ahead of every id |
| Persistence.PersistenceController.InsertSeedTiles | MukkiPlayer/Persistence.swift:58-62 | the loop appends exactly the nine seeded records with fresh ids, marks exactly those as changed, and leaves the persistent store alone |
| Persistence.PersistenceController.GetTile | MukkiPlayer/Persistence.swift:70-82 | the result is the first record whose position equals the argument; it is nil exactly when the fetch fails or no record has that position |
| Persistence.PersistenceController.FetchTile | MukkiPlayer/Services/MusicPlayerManager.swift:190-196 | the result is the first record whose id equals the argument; it is nil exactly when the fetch fails or no record has that id |
| Persistence.PersistenceController.Update | MukkiPlayer/Models/TileModel.swift:71-75 | assigning attributes of a managed object changes that record only, marks it as changed, keeps its id and slot, and leaves the persistent store untouched |
| Persistence.PersistenceController.Save | MukkiPlayer/Persistence.swift:84-93 | without changes nothing is written; with changes a successful save makes the persistent store equal the context and clears the changes; a failed save is swallowed and changes nothing |
| Persistence.NothingToSave | MukkiPlayer/Persistence.swift:84-93 | a context without changes already agrees with its persistent store, so skipping the save loses nothing |
| Persistence.PersistenceController.PreviewAsWritten | MukkiPlayer/Persistence.swift:14-30 | the preview store holds the nine records its initializer seeds plus nine more from its own loop |
| Persistence.PreviewDuplicatesSlots | MukkiPlayer/Persistence.swift:14-22 | the preview store holds 18 records, the second nine repeat positions 0 to 8, and a fetch by position finds only the first of each pair |
| Persistence.PersistenceController.Preview | MukkiPlayer/Persistence.swift:14-30 | the preview store holds exactly the nine seeded records, all saved |
| CatalogService.SearchAlbums | MukkiPlayer/Services/MusicKitService.swift:46-54 | an empty query sends no request and returns no albums; any other query sends one album-only request with limit 25 and returns that response's albums or its error |
| CatalogService.SearchPlaylists | MukkiPlayer/Services/MusicKitService.swift:56-64 | an empty query sends no request and returns no playlists; any other query sends one playlist-only request with limit 25 and returns that response's playlists or its error |
| CatalogService.SearchAll | MukkiPlayer/Services/MusicKitService.swift:66-74 | an empty query sends no request and returns two empty lists; any other query sends one request for both types with limit 15 and returns both lists or the error |
| CatalogService.SearchGuardsAgree | MukkiPlayer/Services/MusicKitService.swift:46-74 | the three searches contact the catalog for exactly the same queries, and an empty query's result does not depend on the catalog |
| CatalogService.CachedFetch | MukkiPlayer/Services/MusicKitService.swift:94-110 | a nil URL gives nil, a cached key gives the cached bytes, and a miss gives what the download yields (nil when it throws) |
| CatalogService.CacheAfter | MukkiPlayer/Services/MusicKitService.swift:92-110 | the cache never loses or changes an entry; a new entry appears only under the requested key and only with bytes a successful download delivered |
| CatalogService.RepeatFetchIsHit | MukkiPlayer/Services/MusicKitService.swift:97-105 | after a fetch that produced bytes, fetching the same key again returns the same bytes with no download and no cache change, whatever the network does |
| CatalogService.TwoFetchesOneDownload | MukkiPlayer/Services/MusicKitService.swift:94-110 | two fetches of one key start at most one download when the first succeeds |
| CatalogService.MusicKitService.constructor | MukkiPlayer/Services/MusicKitService.swift:25-29 | a new service is not yet authorized and has an empty cache |
| CatalogService.MusicKitService.CheckAuthorization | MukkiPlayer/Services/MusicKitService.swift:31-35 | the status is stored, and the service is authorized exactly when the status is `authorized`; the cache is untouched |
| CatalogService.MusicKitService.RequestAuthorization | MukkiPlayer/Services/MusicKitService.swift:37-42 | as `CheckAuthorization`, and the returned flag equals the stored one |
| CatalogService.MusicKitService.FetchArtworkDataFor | MukkiPlayer/Services/MusicKitService.swift:94-110 | returns `CachedFetch`, leaves the cache as `CacheAfter`, and downloads only on a miss |
| CatalogService.MusicKitService.FetchArtworkDataFrom | MukkiPlayer/Services/MusicKitService.swift:112-116 | nil artwork yields nil with no download; otherwise the URL-based fetch of the 300 by 300 artwork address |
| Engine.QueueFor | MukkiPlayer/Services/MusicPlayerManager.swift:110 | the queue has one entry per track, in the tracks' order |
| Engine.QueueIdsDistinct | MukkiPlayer/Services/MusicPlayerManager.swift:110 | the entries of a freshly built queue have pairwise distinct ids |
| Playback.QueuedTracks | MukkiPlayer/Services/MusicPlayerManager.swift:90-130 | a play request queues tracks exactly when the tile has an item id and type, the type is "album" or "playlist", and the lookup returned a track list |
| Playback.ResumeIndex | MukkiPlayer/Services/MusicPlayerManager.swift:103-106 | the start index is the stored index when it names a track and 0 otherwise, so it is always a valid index into a non-empty list |
| Playback.SkipsCompleted | MukkiPlayer/Services/MusicPlayerManager.swift:114-116 | all skips complete when none throws; otherwise the run stops at the first throwing skip, issuing at most one more skip than it completes |
| Playback.SkipRunClosedForm | MukkiPlayer/Services/MusicPlayerManager.swift:114-116 | running the skip loop one iteration at a time, stopping at the first throwing skip, completes and issues exactly as many skips as the closed forms `SkipsCompleted` and `SkipsIssued` give; `Play` uses it to state its skip run as this step-by-step run |
| Playback.QueueIndexOf | MukkiPlayer/Services/MusicPlayerManager.swift:198 | the result is the first queue position whose entry id matches, or 0 when none does |
| Playback.QueueIndexOfQueued | MukkiPlayer/Services/MusicPlayerManager.swift:198 | in a queue built from a track list, each entry is found at its own position |
| Playback.ResumeThenRecord | MukkiPlayer/Services/MusicPlayerManager.swift:103-117 | recording the entry that playback started at writes back the start index, which is the stored index whenever that index named a track |
| Playback.RecordQueuedEntry | MukkiPlayer/Services/MusicPlayerManager.swift:196-203 | when the engine moves to entry k, the record receives index k and, for a song, that song's id; otherwise the old track id stays |
| Playback.RecordIgnoresBinding | MukkiPlayer/Services/MusicPlayerManager.swift:189-203 | a record without a bound item can still receive a non-zero index |
| Playback.QueuedEntryText | MukkiPlayer/Services/MusicPlayerManager.swift:64-79 | an entry built from a track shows that track's title and artist |
| Playback.WithLastPlayed | MukkiPlayer/Services/MusicPlayerManager.swift:196-203 | recording sets the index, replaces the track id only for a song entry, and touches no other attribute |
| Playback.MusicPlayerManager.constructor | MukkiPlayer/Services/MusicPlayerManager.swift:22-40 | a new manager is not playing, has no entry and no active tile, and shows empty text |
| Playback.MusicPlayerManager.UpdatePlaybackState | MukkiPlayer/Services/MusicPlayerManager.swift:60-62 | `isPlaying` becomes true exactly when the engine's status is playing; nothing else changes |
| Playback.MusicPlayerManager.UpdateCurrentEntry | MukkiPlayer/Services/MusicPlayerManager.swift:64-85 | the entry mirrors the engine's current entry; the text is empty without an entry, a song's title and artist for a song, and the entry's title and subtitle (or "") otherwise; the record is written only when there are both an active tile and an entry |
| Playback.MusicPlayerManager.Play | MukkiPlayer/Services/MusicPlayerManager.swift:89-144 | a tile without item id or type changes nothing; otherwise the tile becomes active, even when the lookup fails; with tracks, the engine gets their queue and `play`, then one skip per track to pass until a skip throws, matching the step-by-step `SkipRun`; with no failure, playback sits at the resume index |
| Playback.MusicPlayerManager.Pause | MukkiPlayer/Services/MusicPlayerManager.swift:146-148 | the engine is paused; the active tile is kept |
| Playback.MusicPlayerManager.Resume | MukkiPlayer/Services/MusicPlayerManager.swift:150-156 | the engine is asked to play; a failure is swallowed and leaves the status |
| Playback.MusicPlayerManager.TogglePlayPause | MukkiPlayer/Services/MusicPlayerManager.swift:158-164 | the engine pauses exactly when the mirrored flag says playing, and resumes otherwise |
| Playback.MusicPlayerManager.SkipToNext | MukkiPlayer/Services/MusicPlayerManager.swift:166-172 | the engine moves forward one entry when it can; a failure is swallowed |
| Playback.MusicPlayerManager.SkipToPrevious | MukkiPlayer/Services/MusicPlayerManager.swift:174-180 | the engine moves back one entry when it can; a failure is swallowed |
| Playback.MusicPlayerManager.Stop | MukkiPlayer/Services/MusicPlayerManager.swift:182-185 | the engine stops and no tile is active; the mirrored playing flag, entry, title and artist stay; no record is touched |
| Playback.MusicPlayerManager.SaveLastPlayedTrack | MukkiPlayer/Services/MusicPlayerManager.swift:189-209 | when the fetch finds the tile, only its record changes, as `WithLastPlayed` with the entry's queue position, and a save follows; a failed fetch or save is swallowed |
| Playback.MusicPlayerManager.CurrentTrackIndex | MukkiPlayer/Services/MusicPlayerManager.swift:211-214 | 0 without a current entry, otherwise the entry's first position in the queue |
| Tiles.PaletteIndex | MukkiPlayer/Models/TileModel.swift:44-46 | for any non-negative position the index lies within the nine colours, equals the position on the grid, and repeats every nine positions |
| Tiles.BackgroundColor | MukkiPlayer/Models/TileModel.swift:32-46 | a slot's colour is one of the nine palette colours, and on the grid it is the colour at the slot's own position |
| Tiles.GridColorsDistinct | MukkiPlayer/Models/TileModel.swift:32-46 | the nine slots of the grid get nine different colours |
| Tiles.Bind | MukkiPlayer/Models/TileModel.swift:71-75 | binding sets item id, type and name, resets the index to 0 and the track id to nil whatever they were, and keeps id, slot and artwork |
| Tiles.WithArtwork | MukkiPlayer/Models/TileModel.swift:78-83 | artwork is replaced only when the fetch yields bytes; otherwise the previous artwork stays |
| Tiles.Unbind | MukkiPlayer/Models/TileModel.swift:116-124 | a cleared record is unbound and equals the record seeded for its slot, whatever it was bound to |
| Tiles.ConfiguredTileStartsAtFirstTrack | MukkiPlayer/Models/TileModel.swift:71-75 | a freshly configured album or playlist tile is playable, queues its item's tracks, and starts at the first one |
| Tiles.TileModel.Id | MukkiPlayer/Models/TileModel.swift:27-29 | the id is the bound record's id, nil exactly when no record is bound |
| Tiles.TileModel.constructor | MukkiPlayer/Models/TileModel.swift:48-51 | a new model binds the first record at its slot and shows its name, configured flag and decodable artwork; without one it shows nothing |
| Tiles.TileModel.LoadFromCoreData | MukkiPlayer/Models/TileModel.swift:53-66 | with a record found, the model binds it, shows its name (or ""), is configured exactly when an item id is set, and replaces the artwork only with bytes that decode; with none found nothing changes |
| Tiles.TileModel.ConfigureWithAlbum | MukkiPlayer/Models/TileModel.swift:68-90 | without a record nothing changes; otherwise only the bound record changes, to the album binding plus any fetched artwork, the artwork cache and download log change as one artwork fetch does, the model shows the title and is configured, and a save follows; the authorization fields never change |
| Tiles.TileModel.ConfigureWithPlaylist | MukkiPlayer/Models/TileModel.swift:92-114 | without a record nothing changes; otherwise only the bound record changes, to the playlist binding plus any fetched artwork, the artwork cache and download log change as one artwork fetch does, the model shows the name and is configured, and a save follows; the authorization fields never change |
| Tiles.TileModel.ClearConfiguration | MukkiPlayer/Models/TileModel.swift:116-132 | without a record nothing changes; otherwise the record returns to its seeded state, the model shows nothing and is not configured, and a save follows; playback is not touched |
| Tiles.TileModel.Play | MukkiPlayer/Models/TileModel.swift:134-137 | without a record nothing is played; otherwise the manager plays the bound record |
| Tiles.TileModel.UpdatePlayingState | MukkiPlayer/Models/TileModel.swift:139-142 | the model shows playing exactly when its id equals the active id (two nils are equal) and the manager plays |

## Left out

- SwiftUI views, `objectWillChange` and the Combine observers. The
  observers' reactions are the explicit calls `UpdatePlaybackState` and
  `UpdateCurrentEntry`.
- Concurrency. Each async method is one atomic step, so the race between
  overlapping `play` calls over the active tile is not modelled. `Configure`
  writes the binding before the artwork fetch, as the code does, but nothing
  can run in between.
- MusicKit itself:
  - `ApplicationMusicPlayer` is reduced to the `Engine` module. In that
    module, skipping forward from the last entry throws and `stop` keeps the
    queue.
  - `fetchAlbum(id:)`, `fetchPlaylist(id:)` (MukkiPlayer/Services/MusicKitService.swift:78-88)
    and `with([.tracks])` are folded into the `CatalogReply` parameter of
    `Play`.
  - The authorization prompt is the `status` parameter. The check that
    `init()` schedules is the separate `CheckAuthorization` call.
- Engine.QueueFor: MusicKit does not document how `Queue(for:)` builds its
  entries. The model assumes that entry ids are the positions 0 to n - 1,
  that an entry's title is its track's title, and that its subtitle is the
  track's artist name. `QueueIdsDistinct`, `QueueIndexOfQueued`,
  `RecordQueuedEntry` and `ResumeThenRecord` rely on the ids being distinct.
  `QueuedEntryText` relies on the title and subtitle choice for music videos.
- CatalogService.SearchAll: no claim that a response holds at most `limit`
  items. The search returns whatever the catalog sends.
- URLSession is the `network` parameter. `Artwork.url(width:height:)` is a
  lookup in the sizes the artwork offers.
- `UIImage` decoding is the `decodes` parameter. An `Image` is represented
  by the bytes it was decoded from.
- CoreData's query order. Fetches have no sort descriptor; the model returns
  the earliest inserted match.
- Integer widths. The `Int16` position and the `Int32` index conversion in
  `saveLastPlayedTrack` are not modelled; the conversion would only trap for
  queues longer than 2^31 - 1 entries.
- `fatalError` on a store that fails to load, or on a failed preview save, and
  the `/dev/null` URL of the in-memory store.
- Playback.MusicPlayerManager.Play: requires a non-negative stored index. A
  negative one makes the range `0..<startingTrackIndex` trap, and no code
  path ever writes one.
- Tiles.TileModel.Play: states only the active tile, the queue and the start
  entry. The full engine command log is stated by
  `Playback.MusicPlayerManager.Play`.
- The palette colours are exact decimal components, not floating point.

## Findings

| source | as written | input that shows it | evidently intended | confidence | as-written member | corrected member |
|---|---|---|---|---|---|---|
| MukkiPlayer/Persistence.swift:14-30 | the preview store is built with `PersistenceController(inMemory: true)`, whose initializer already seeds nine records into the empty store, and then the preview loop inserts nine more | an empty in-memory store: it ends with 18 records, two per position, and a fetch by position only ever sees the first of each pair | the preview holds nine records, one per position | not executed | Persistence.PersistenceController.PreviewAsWritten | Persistence.PersistenceController.Preview |
