/** `TileModel`: the view-facing state of one grid slot, bound to the tile
    record at the same position, which it configures, clears and plays. */
module Tiles {
  import opened Common
  import opened Persistence
  import opened CatalogService
  import opened Engine
  import opened Playback

  /** A SwiftUI colour given by its red, green and blue components. */
  datatype Color = Color(red: real, green: real, blue: real)

  /** The nine slot colours, red through pink. */
  const RainbowColors: seq<Color> := [
    Color(1.0, 0.3, 0.3), Color(1.0, 0.6, 0.2), Color(1.0, 0.9, 0.3),
    Color(0.4, 0.9, 0.4), Color(0.3, 0.8, 0.8), Color(0.3, 0.5, 1.0),
    Color(0.5, 0.3, 0.9), Color(0.8, 0.4, 0.9), Color(1.0, 0.5, 0.7)]

  /** Index into the palette for a slot. Swift's `%` truncates, so a negative
      position would yield a negative index and trap; positions are never negative. */
  function PaletteIndex(position: int): (k: nat)
    requires position >= 0
    ensures k < |RainbowColors|
    ensures position < |RainbowColors| ==> k == position
    ensures (position - k) % |RainbowColors| == 0
  {
    position % |RainbowColors|
  }

  /** The colour of a slot: the nine slots of the grid get nine different
      colours, and the palette repeats every nine positions. */
  function BackgroundColor(position: int): (c: Color)
    requires position >= 0
    ensures c in RainbowColors
    ensures position < |RainbowColors| ==> c == RainbowColors[position]
  {
    RainbowColors[PaletteIndex(position)]
  }

  /** Distinct slots of the grid are painted differently. */
  lemma {:induction false} GridColorsDistinct(p: int, q: int)
    requires 0 <= p < q < TileCount
    ensures BackgroundColor(p) != BackgroundColor(q)
  {
    assert PaletteIndex(p) == p && PaletteIndex(q) == q;
  }

  /** A record bound to a catalog item: item id, type and name set, resume
      position reset to the first track; the cached artwork is kept. */
  function Bind(t: TileConfig, itemID: string, kind: string, name: string): (r: TileConfig)
    ensures r.id == t.id && r.position == t.position && r.artworkData == t.artworkData
    ensures r.musicItemID == Some(itemID) && r.musicItemType == Some(kind) && r.displayName == Some(name)
    ensures r.lastPlayedTrackIndex == 0 && r.lastPlayedTrackID.None?
  {
    t.(musicItemID := Some(itemID), musicItemType := Some(kind), displayName := Some(name),
       lastPlayedTrackIndex := 0, lastPlayedTrackID := None)
  }

  /** A record after fetched artwork bytes, if any, were stored on it. */
  function WithArtwork(t: TileConfig, data: Option<Bytes>): (r: TileConfig)
    ensures r.artworkData == (if data.Some? then data else t.artworkData)
    ensures r == t.(artworkData := r.artworkData)
  {
    if data.Some? then t.(artworkData := data) else t
  }

  /** A record with its binding removed: it is then exactly the record the
      store seeds for that slot. */
  function Unbind(t: TileConfig): (r: TileConfig)
    ensures Unbound(r) && r == NewTile(t.id, t.position)
  {
    t.(musicItemID := None, musicItemType := None, displayName := None,
       artworkData := None, lastPlayedTrackIndex := 0, lastPlayedTrackID := None)
  }

  /** A freshly configured album or playlist tile queues its item's tracks
      when played and starts at the first of them. */
  lemma {:induction false} ConfiguredTileStartsAtFirstTrack(t: TileConfig, itemID: string, kind: string,
                                                            name: string, data: Option<Bytes>, tracks: seq<Track>)
    requires kind == "album" || kind == "playlist"
    ensures var r := WithArtwork(Bind(t, itemID, kind, name), data);
      Playable(r) && QueuedTracks(r, Found(Some(tracks))) == Some(tracks) &&
      ResumeIndex(r.lastPlayedTrackIndex, |tracks|) == 0
  {
    var r := WithArtwork(Bind(t, itemID, kind, name), data);
    assert r.musicItemType == Some(kind) && r.lastPlayedTrackIndex == 0;
  }

  class TileModel {
    const position: int
    const store: PersistenceController
    /** The record bound to this slot, once one has been found. */
    var tileConfig: Option<Handle>
    var displayName: string
    /** The artwork shown, as the bytes it was decoded from. */
    var artworkImage: Option<Bytes>
    var isConfigured: bool
    var isPlaying: bool

    /** The bound record, if any, exists in the store and sits at this slot. */
    ghost predicate Valid()
      reads this, store
    {
      store.Valid() &&
      (tileConfig.Some? ==>
        tileConfig.value < |store.tiles| && store.tiles[tileConfig.value].position == position)
    }

    /** `id`: the bound record's id, nil without one. */
    function Id(): (id: Option<Uuid>)
      requires Valid()
      reads this, store
      ensures id.Some? <==> tileConfig.Some?
      ensures id.Some? ==> id.value == store.tiles[tileConfig.value].id
    {
      if tileConfig.Some? then Some(store.tiles[tileConfig.value].id) else None
    }

    /** `init(position:)`: then load the slot's record. `fetchOk` says whether
        the fetch succeeds, `decodes` whether the cached artwork decodes. */
    constructor (position: int, store: PersistenceController, fetchOk: bool, decodes: bool)
      requires store.Valid()
      ensures Valid() && this.position == position && this.store == store
      ensures tileConfig == (if fetchOk then FirstIndexOf(Positions(store.tiles), position) else None)
      ensures tileConfig.None? ==>
        displayName == "" && !isConfigured && artworkImage.None?
      ensures tileConfig.Some? ==>
        Mirrors(store.tiles[tileConfig.value]) &&
        artworkImage == (if decodes then store.tiles[tileConfig.value].artworkData else None)
      ensures !isPlaying
    {
      this.position, this.store := position, store;
      tileConfig, displayName, artworkImage, isConfigured, isPlaying := None, "", None, false, false;
      new;
      LoadFromCoreData(fetchOk, decodes);
    }

    /** The slot shows what the record says: its name (empty when absent) and
        whether an item is bound. */
    ghost predicate Mirrors(t: TileConfig)
      reads this
    {
      displayName == t.displayName.GetOr("") && isConfigured == t.musicItemID.Some?
    }

    /** `loadFromCoreData`: bind the first record at this slot and show it.
        Artwork replaces the shown image only when the record has bytes that
        decode; nothing changes when no record is found. */
    method LoadFromCoreData(fetchOk: bool, decodes: bool)
      requires store.Valid()
      requires tileConfig.Some? ==>
        tileConfig.value < |store.tiles| && store.tiles[tileConfig.value].position == position
      modifies this
      ensures Valid()
      ensures isPlaying == old(isPlaying)
      ensures var found := if fetchOk then FirstIndexOf(Positions(store.tiles), position) else None;
        found.None? ==>
          tileConfig == old(tileConfig) && displayName == old(displayName) &&
          isConfigured == old(isConfigured) && artworkImage == old(artworkImage)
      ensures var found := if fetchOk then FirstIndexOf(Positions(store.tiles), position) else None;
        found.Some? ==>
          tileConfig == found &&
          Mirrors(store.tiles[tileConfig.value]) &&
          artworkImage == (if decodes && store.tiles[tileConfig.value].artworkData.Some?
                           then store.tiles[tileConfig.value].artworkData else old(artworkImage))
    {
      var h := store.GetTile(position, fetchOk);
      if h.Some? {
        tileConfig := h;
        var t := store.tiles[h.value];
        displayName := t.displayName.GetOr("");
        isConfigured := t.musicItemID.Some?;
        if t.artworkData.Some? && decodes {
          artworkImage := t.artworkData;
        }
      }
    }

    /** The shared body of the two `configure(with:)` overloads: bind the
        record to the item and reset its resume position, fetch the item's
        artwork and store it on the record when the fetch yields bytes (a
        failed fetch keeps whatever artwork was cached before), show the new
        name, and save. Nothing happens without a bound record. */
    method Configure(itemID: string, kind: string, name: string, artwork: Option<Artwork>,
                     service: MusicKitService, network: Option<Bytes>, decodes: bool, saveOk: bool)
      requires Valid()
      modifies this, store, service
      ensures Valid() && tileConfig == old(tileConfig) && isPlaying == old(isPlaying)
      ensures store.nextId == old(store.nextId)
      ensures service.authorizationStatus == old(service.authorizationStatus)
      ensures service.isAuthorized == old(service.isAuthorized)
      ensures old(tileConfig).None? ==>
        store.tiles == old(store.tiles) && store.dirty == old(store.dirty) && store.durable == old(store.durable) &&
        service.artworkCache == old(service.artworkCache) && service.downloads == old(service.downloads) &&
        displayName == old(displayName) && isConfigured == old(isConfigured) && artworkImage == old(artworkImage)
      ensures old(tileConfig).Some? ==>
        var h := tileConfig.value;
        var data := CachedFetch(old(service.artworkCache), ArtworkLocation(artwork), network);
        store.tiles == old(store.tiles)[h := WithArtwork(Bind(old(store.tiles)[h], itemID, kind, name), data)] &&
        service.artworkCache == CacheAfter(old(service.artworkCache), ArtworkLocation(artwork), network) &&
        service.downloads == old(service.downloads) + Downloads(old(service.artworkCache), ArtworkLocation(artwork)) &&
        displayName == name && isConfigured &&
        artworkImage == (if data.Some? && decodes then data else old(artworkImage)) &&
        (saveOk ==> store.durable == store.tiles && !store.HasChanges()) &&
        (!saveOk ==> store.durable == old(store.durable) && store.dirty == old(store.dirty) + {h})
    {
      if tileConfig.None? {
        return;
      }
      var h := tileConfig.value;
      var data := StoreBinding(h, itemID, kind, name, artwork, service, network);
      assert h < |store.tiles| && store.tiles[h].position == position;
      if data.Some? && decodes {
        artworkImage := data;
      }
      displayName := name;
      isConfigured := true;
      assert h in store.dirty;
      store.Save(saveOk);
      assert Valid();
    }

    /** The record-side half of `Configure`: write the binding, fetch the
        artwork, and store the bytes on the record when there are any. */
    method StoreBinding(h: Handle, itemID: string, kind: string, name: string, artwork: Option<Artwork>,
                        service: MusicKitService, network: Option<Bytes>) returns (data: Option<Bytes>)
      requires store.Valid() && h < |store.tiles|
      modifies store, service
      ensures store.Valid() && store.nextId == old(store.nextId)
      ensures data == CachedFetch(old(service.artworkCache), ArtworkLocation(artwork), network)
      ensures store.tiles == old(store.tiles)[h := WithArtwork(Bind(old(store.tiles)[h], itemID, kind, name), data)]
      ensures store.dirty == old(store.dirty) + {h} && store.durable == old(store.durable)
      ensures service.artworkCache == CacheAfter(old(service.artworkCache), ArtworkLocation(artwork), network)
      ensures service.downloads == old(service.downloads) + Downloads(old(service.artworkCache), ArtworkLocation(artwork))
      ensures service.authorizationStatus == old(service.authorizationStatus)
      ensures service.isAuthorized == old(service.isAuthorized)
    {
      var bound := Bind(store.tiles[h], itemID, kind, name);
      store.Update(h, bound);
      data := service.FetchArtworkDataFrom(artwork, network);
      if data.Some? {
        store.Update(h, WithArtwork(bound, data));
      }
    }

    /** `configure(with:)` for an album. */
    method ConfigureWithAlbum(album: Album, service: MusicKitService, network: Option<Bytes>,
                              decodes: bool, saveOk: bool)
      requires Valid()
      modifies this, store, service
      ensures Valid() && tileConfig == old(tileConfig) && isPlaying == old(isPlaying)
      ensures store.nextId == old(store.nextId)
      ensures service.authorizationStatus == old(service.authorizationStatus)
      ensures service.isAuthorized == old(service.isAuthorized)
      ensures old(tileConfig).None? ==>
        store.tiles == old(store.tiles) && store.dirty == old(store.dirty) && store.durable == old(store.durable) &&
        service.artworkCache == old(service.artworkCache) && service.downloads == old(service.downloads) &&
        displayName == old(displayName) && isConfigured == old(isConfigured) && artworkImage == old(artworkImage)
      ensures old(tileConfig).Some? ==>
        var h := tileConfig.value;
        var data := CachedFetch(old(service.artworkCache), ArtworkLocation(album.artwork), network);
        store.tiles == old(store.tiles)[h := WithArtwork(Bind(old(store.tiles)[h], album.id, "album", album.title), data)] &&
        service.artworkCache == CacheAfter(old(service.artworkCache), ArtworkLocation(album.artwork), network) &&
        service.downloads == old(service.downloads) + Downloads(old(service.artworkCache), ArtworkLocation(album.artwork)) &&
        displayName == album.title && isConfigured &&
        artworkImage == (if data.Some? && decodes then data else old(artworkImage)) &&
        (saveOk ==> store.durable == store.tiles && !store.HasChanges()) &&
        (!saveOk ==> store.durable == old(store.durable) && store.dirty == old(store.dirty) + {h})
    {
      Configure(album.id, "album", album.title, album.artwork, service, network, decodes, saveOk);
    }

    /** `configure(with:)` for a playlist. */
    method ConfigureWithPlaylist(playlist: Playlist, service: MusicKitService, network: Option<Bytes>,
                                 decodes: bool, saveOk: bool)
      requires Valid()
      modifies this, store, service
      ensures Valid() && tileConfig == old(tileConfig) && isPlaying == old(isPlaying)
      ensures store.nextId == old(store.nextId)
      ensures service.authorizationStatus == old(service.authorizationStatus)
      ensures service.isAuthorized == old(service.isAuthorized)
      ensures old(tileConfig).None? ==>
        store.tiles == old(store.tiles) && store.dirty == old(store.dirty) && store.durable == old(store.durable) &&
        service.artworkCache == old(service.artworkCache) && service.downloads == old(service.downloads) &&
        displayName == old(displayName) && isConfigured == old(isConfigured) && artworkImage == old(artworkImage)
      ensures old(tileConfig).Some? ==>
        var h := tileConfig.value;
        var data := CachedFetch(old(service.artworkCache), ArtworkLocation(playlist.artwork), network);
        store.tiles == old(store.tiles)[h := WithArtwork(Bind(old(store.tiles)[h], playlist.id, "playlist", playlist.name), data)] &&
        service.artworkCache == CacheAfter(old(service.artworkCache), ArtworkLocation(playlist.artwork), network) &&
        service.downloads == old(service.downloads) + Downloads(old(service.artworkCache), ArtworkLocation(playlist.artwork)) &&
        displayName == playlist.name && isConfigured &&
        artworkImage == (if data.Some? && decodes then data else old(artworkImage)) &&
        (saveOk ==> store.durable == store.tiles && !store.HasChanges()) &&
        (!saveOk ==> store.durable == old(store.durable) && store.dirty == old(store.dirty) + {h})
    {
      Configure(playlist.id, "playlist", playlist.name, playlist.artwork, service, network, decodes, saveOk);
    }

    /** `clearConfiguration`: return the record to its seeded state, clear
        the slot's display, and save. Playback of the tile is not stopped. */
    method ClearConfiguration(saveOk: bool)
      requires Valid()
      modifies this, store
      ensures Valid() && tileConfig == old(tileConfig) && isPlaying == old(isPlaying)
      ensures store.nextId == old(store.nextId)
      ensures old(tileConfig).None? ==>
        store.tiles == old(store.tiles) && store.dirty == old(store.dirty) && store.durable == old(store.durable) &&
        displayName == old(displayName) && isConfigured == old(isConfigured) && artworkImage == old(artworkImage)
      ensures old(tileConfig).Some? ==>
        var h := tileConfig.value;
        store.tiles == old(store.tiles)[h := NewTile(old(store.tiles)[h].id, position)] &&
        displayName == "" && !isConfigured && artworkImage.None? &&
        (saveOk ==> store.durable == store.tiles && !store.HasChanges()) &&
        (!saveOk ==> store.durable == old(store.durable) && store.dirty == old(store.dirty) + {h})
    {
      if tileConfig.None? {
        return;
      }
      var h := tileConfig.value;
      store.Update(h, Unbind(store.tiles[h]));
      displayName := "";
      artworkImage := None;
      isConfigured := false;
      assert h in store.dirty;
      store.Save(saveOk);
    }

    /** `play`: hand the bound record to the playback manager. */
    method Play(manager: MusicPlayerManager, reply: CatalogReply, playOk: bool, skipFailsAt: Option<nat>)
      requires Valid()
      requires tileConfig.Some? ==> store.tiles[tileConfig.value].lastPlayedTrackIndex >= 0
      modifies manager, manager.player
      ensures tileConfig.None? ==>
        manager.activeTileID == old(manager.activeTileID) &&
        manager.player.queue == old(manager.player.queue) && manager.player.index == old(manager.player.index) &&
        manager.player.status == old(manager.player.status) && manager.player.commands == old(manager.player.commands)
      ensures tileConfig.Some? ==>
        var t := store.tiles[tileConfig.value];
        manager.activeTileID == (if Playable(t) then Some(t.id) else old(manager.activeTileID)) &&
        (QueuedTracks(t, reply).None? ==>
          manager.player.queue == old(manager.player.queue) && manager.player.index == old(manager.player.index) &&
          manager.player.commands == old(manager.player.commands)) &&
        (QueuedTracks(t, reply).Some? ==>
          manager.player.queue == QueueFor(QueuedTracks(t, reply).value))
      ensures tileConfig.Some? && playOk && skipFailsAt.None? ==>
        var t := store.tiles[tileConfig.value];
        QueuedTracks(t, reply).Some? && |QueuedTracks(t, reply).value| > 0 ==>
          manager.player.CurrentEntry() ==
            Some(manager.player.queue[ResumeIndex(t.lastPlayedTrackIndex, |QueuedTracks(t, reply).value|)])
    {
      if tileConfig.None? {
        return;
      }
      manager.Play(store.tiles[tileConfig.value], reply, playOk, skipFailsAt);
    }

    /** `updatePlayingState`: the slot shows playing exactly when its id
        equals the active one and the engine plays. Two absent ids compare
        equal, so a slot without a record shows playing whenever no tile is
        active and the engine plays. */
    method UpdatePlayingState(activeTileID: Option<Uuid>, manager: MusicPlayerManager)
      requires Valid()
      modifies this
      ensures Valid()
      ensures isPlaying <==> Id() == activeTileID && manager.isPlaying
      ensures tileConfig == old(tileConfig) && displayName == old(displayName)
      ensures isConfigured == old(isConfigured) && artworkImage == old(artworkImage)
    {
      isPlaying := Id() == activeTileID && manager.isPlaying;
    }
  }
}
