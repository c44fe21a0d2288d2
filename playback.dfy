/** `MusicPlayerManager`: starts a tile's album or playlist on the player
    engine, resuming at the tile's stored track, mirrors the engine's state
    for display, and writes the current track back to the tile's record. */
module Playback {
  import opened Common
  import opened Persistence
  import opened Engine

  /** What the catalog lookup of a tile's item yields once its tracks are
      requested: a thrown error (from the lookup or from the track request),
      no such item, or the item with its track list (which may be absent). */
  datatype CatalogReply = Failed | NotFound | Found(tracks: Option<seq<Track>>)

  /** A tile can be played only when both its item id and item type are set. */
  predicate Playable(t: TileConfig) {
    t.musicItemID.Some? && t.musicItemType.Some?
  }

  /** The tracks a play request queues, if any: only for an album or a
      playlist whose lookup returned a track list. */
  function QueuedTracks(t: TileConfig, reply: CatalogReply): (tracks: Option<seq<Track>>)
    ensures tracks.Some? <==>
      Playable(t) && t.musicItemType.value in {"album", "playlist"} && reply.Found? && reply.tracks.Some?
    ensures tracks.Some? ==> reply == Found(tracks)
  {
    if Playable(t) && t.musicItemType.value in {"album", "playlist"} && reply.Found? then
      reply.tracks
    else
      None
  }

  /** The entry playback starts at: the stored index when it names a track of
      the list, otherwise the first one. */
  function ResumeIndex(stored: int, count: nat): (start: nat)
    requires stored >= 0
    ensures count > 0 ==> start < count
    ensures stored < count ==> start == stored
    ensures stored >= count ==> start == 0
  {
    if stored >= count then 0 else stored
  }

  /** How many forward skips are issued when `start` are wanted and the skip
      numbered `failsAt` (counting from 0), if any, throws: a throw ends the run. */
  function SkipsIssued(start: nat, failsAt: Option<nat>): (n: nat)
    ensures n <= start
    ensures failsAt.None? ==> n == start
  {
    if failsAt.Some? && failsAt.value < start then failsAt.value + 1 else start
  }

  /** How many of those skips moved the engine forward. */
  function SkipsCompleted(start: nat, failsAt: Option<nat>): (n: nat)
    ensures n <= SkipsIssued(start, failsAt) <= n + 1
    ensures n == start || (failsAt == Some(n) && n < start)
  {
    if failsAt.Some? && failsAt.value < start then failsAt.value else start
  }

  /** The skip loop run one iteration at a time from `done` completed skips:
      the skips it completes and the skips it issues. */
  function SkipRun(done: nat, start: nat, failsAt: Option<nat>): (r: (nat, nat))
    requires done <= start
    ensures done <= r.0 <= start && r.0 <= r.1 <= r.0 + 1
    decreases start - done
  {
    if done == start then (done, done)
    else if failsAt == Some(done) then (done, done + 1)
    else SkipRun(done + 1, start, failsAt)
  }

  /** The closed forms agree with the loop run from the first skip. */
  lemma {:induction false} SkipRunClosedForm(done: nat, start: nat, failsAt: Option<nat>)
    requires done <= start
    requires failsAt.Some? ==> done <= failsAt.value
    ensures SkipRun(done, start, failsAt) == (SkipsCompleted(start, failsAt), SkipsIssued(start, failsAt))
    decreases start - done
  {
    if done < start && failsAt != Some(done) {
      SkipRunClosedForm(done + 1, start, failsAt);
    }
  }

  /** Position of `entry` in `queue` matched by entry id, or 0 when it is not
      there; the index written back to a tile. */
  function QueueIndexOf(queue: seq<Entry>, entry: Entry): (r: nat)
    ensures (exists i :: 0 <= i < |queue| && queue[i].id == entry.id) ==>
      r < |queue| && queue[r].id == entry.id &&
      forall j :: 0 <= j < r ==> queue[j].id != entry.id
    ensures (forall i :: 0 <= i < |queue| ==> queue[i].id != entry.id) ==> r == 0
  {
    var ids := EntryIds(queue);
    match FirstIndexOf(ids, entry.id)
    case Some(k) =>
      assert forall j :: 0 <= j < k ==> ids[..k][j] == ids[j];
      k
    case None => 0
  }

  /** In a queue built from a track list, every entry is found at its own position. */
  lemma {:induction false} QueueIndexOfQueued(tracks: seq<Track>, k: nat)
    requires k < |tracks|
    ensures QueueIndexOf(QueueFor(tracks), QueueFor(tracks)[k]) == k
  {
    var q := QueueFor(tracks);
    QueueIdsDistinct(tracks);
    FirstIndexOfDistinct(EntryIds(q), k);
  }

  /** Playing a tile and then recording the entry it started at writes back
      the stored index whenever that index named a track. */
  lemma {:induction false} ResumeThenRecord(tracks: seq<Track>, stored: int)
    requires stored >= 0 && |tracks| > 0
    ensures var start := ResumeIndex(stored, |tracks|);
      QueueIndexOf(QueueFor(tracks), QueueFor(tracks)[start]) == start
    ensures stored < |tracks| ==>
      QueueIndexOf(QueueFor(tracks), QueueFor(tracks)[ResumeIndex(stored, |tracks|)]) == stored
  {
    QueueIndexOfQueued(tracks, ResumeIndex(stored, |tracks|));
  }

  /** When the engine moves to entry `k` of a queue built from a track list,
      recording it writes `k` as the tile's index and, for a song, that
      song's id as its track id. */
  lemma {:induction false} RecordQueuedEntry(t: TileConfig, tracks: seq<Track>, k: nat)
    requires k < |tracks|
    ensures var e := QueueFor(tracks)[k];
      var r := WithLastPlayed(t, QueueIndexOf(QueueFor(tracks), e), e);
      r.lastPlayedTrackIndex == k &&
      r.lastPlayedTrackID == (if tracks[k].Song? then Some(tracks[k].id) else t.lastPlayedTrackID)
  {
    QueueIndexOfQueued(tracks, k);
  }

  /** Recording does not look at the record's binding: a record whose item
      was cleared while its tile stayed active receives a non-zero index. */
  lemma {:induction false} RecordIgnoresBinding(t: TileConfig, tracks: seq<Track>, k: nat)
    requires t.musicItemID.None? && k < |tracks|
    ensures var e := QueueFor(tracks)[k];
      var r := WithLastPlayed(t, QueueIndexOf(QueueFor(tracks), e), e);
      r.musicItemID.None? && r.lastPlayedTrackIndex == k
  {
    QueueIndexOfQueued(tracks, k);
  }

  /** The title and artist shown for the current entry: a song's own title
      and artist, otherwise the entry's title and subtitle; empty without an entry. */
  function NowPlayingText(entry: Option<Entry>): (text: (string, string))
  {
    match entry
    case None => ("", "")
    case Some(e) =>
      match e.item
      case Some(Song(_, title, artist)) => (title, artist)
      case _ => (e.title, e.subtitle.GetOr(""))
  }

  /** A queue entry built from a track displays that track's title and artist. */
  lemma {:induction false} QueuedEntryText(tracks: seq<Track>, k: nat)
    requires k < |tracks|
    ensures NowPlayingText(Some(QueueFor(tracks)[k])) == (tracks[k].title, tracks[k].artistName)
  {
    var e := QueueFor(tracks)[k];
    assert e == Entry(k, Some(tracks[k]), tracks[k].title, Some(tracks[k].artistName));
  }

  /** A tile record after the entry at `index` was recorded: the index always,
      the track id only when the entry is a song. */
  function WithLastPlayed(t: TileConfig, index: nat, entry: Entry): (r: TileConfig)
    ensures r.id == t.id && r.position == t.position
    ensures r.musicItemID == t.musicItemID && r.musicItemType == t.musicItemType
    ensures r.displayName == t.displayName && r.artworkData == t.artworkData
    ensures r.lastPlayedTrackIndex == index
    ensures entry.item.Some? && entry.item.value.Song? ==> r.lastPlayedTrackID == Some(entry.item.value.id)
    ensures !(entry.item.Some? && entry.item.value.Song?) ==> r.lastPlayedTrackID == t.lastPlayedTrackID
  {
    var trackID := match entry.item
      case Some(Song(id, _, _)) => Some(id)
      case _ => t.lastPlayedTrackID;
    t.(lastPlayedTrackIndex := index, lastPlayedTrackID := trackID)
  }

  class MusicPlayerManager {
    const player: ApplicationPlayer
    const store: PersistenceController
    var isPlaying: bool
    var currentEntry: Option<Entry>
    /** The tile whose item was last started, until playback is stopped. */
    var activeTileID: Option<Uuid>
    var currentTrackTitle: string
    var currentTrackArtist: string

    constructor (player: ApplicationPlayer, store: PersistenceController)
      ensures this.player == player && this.store == store
      ensures !isPlaying && currentEntry.None? && activeTileID.None?
      ensures currentTrackTitle == "" && currentTrackArtist == ""
    {
      this.player, this.store := player, store;
      isPlaying, currentEntry, activeTileID := false, None, None;
      currentTrackTitle, currentTrackArtist := "", "";
    }

    /** Reaction to a change of the engine's playback state. */
    method UpdatePlaybackState()
      modifies this
      ensures isPlaying == (player.status == Playing)
      ensures currentEntry == old(currentEntry) && activeTileID == old(activeTileID)
      ensures currentTrackTitle == old(currentTrackTitle) && currentTrackArtist == old(currentTrackArtist)
    {
      isPlaying := player.status == Playing;
    }

    /** Reaction to a change of the engine's queue: mirror the current entry,
        and record it on the active tile when there are both. */
    method UpdateCurrentEntry(fetchOk: bool, saveOk: bool)
      requires store.Valid()
      modifies this, store
      ensures store.Valid()
      ensures currentEntry == player.CurrentEntry()
      ensures (currentTrackTitle, currentTrackArtist) == NowPlayingText(currentEntry)
      ensures isPlaying == old(isPlaying) && activeTileID == old(activeTileID)
      ensures activeTileID.None? || currentEntry.None? ==>
        store.tiles == old(store.tiles) && store.dirty == old(store.dirty) && store.durable == old(store.durable)
      ensures activeTileID.Some? && currentEntry.Some? ==>
        Recorded(old(store.tiles), old(store.dirty), old(store.durable),
                 store.tiles, store.dirty, store.durable,
                 activeTileID.value, player.queue, currentEntry.value, fetchOk, saveOk)
      ensures store.nextId == old(store.nextId)
    {
      currentEntry := player.CurrentEntry();
      var text := NowPlayingText(currentEntry);
      currentTrackTitle, currentTrackArtist := text.0, text.1;
      if activeTileID.Some? && currentEntry.Some? {
        SaveLastPlayedTrack(activeTileID.value, currentEntry.value, fetchOk, saveOk);
      }
    }

    /** Start the tile's album or playlist at its stored track. The engine
        receives a new queue and `play`, then one forward skip per track to
        pass; the first command that throws ends the run. */
    method Play(tile: TileConfig, reply: CatalogReply, playOk: bool, skipFailsAt: Option<nat>)
      requires tile.lastPlayedTrackIndex >= 0
      modifies this, player
      ensures activeTileID == (if Playable(tile) then Some(tile.id) else old(activeTileID))
      ensures isPlaying == old(isPlaying) && currentEntry == old(currentEntry)
      ensures currentTrackTitle == old(currentTrackTitle) && currentTrackArtist == old(currentTrackArtist)
      ensures QueuedTracks(tile, reply).None? ==>
        player.queue == old(player.queue) && player.index == old(player.index) &&
        player.status == old(player.status) && player.commands == old(player.commands)
      ensures QueuedTracks(tile, reply).Some? ==>
        var tracks := QueuedTracks(tile, reply).value;
        var start := ResumeIndex(tile.lastPlayedTrackIndex, |tracks|);
        player.queue == QueueFor(tracks) &&
        player.status == (if playOk then Playing else old(player.status)) &&
        player.index == (if playOk then SkipsCompleted(start, skipFailsAt) else 0) &&
        player.commands == old(player.commands) + [Command.SetQueue(QueueFor(tracks)), Command.Play] +
          (if playOk then Repeat(SkipNext, SkipsIssued(start, skipFailsAt)) else [])
      ensures QueuedTracks(tile, reply).Some? && |QueuedTracks(tile, reply).value| > 0 && playOk && skipFailsAt.None? ==>
        player.CurrentEntry() ==
          Some(QueueFor(QueuedTracks(tile, reply).value)[ResumeIndex(tile.lastPlayedTrackIndex, |QueuedTracks(tile, reply).value|)])
      ensures QueuedTracks(tile, reply).Some? && playOk ==>
        var start := ResumeIndex(tile.lastPlayedTrackIndex, |QueuedTracks(tile, reply).value|);
        (player.index, |player.commands| - |old(player.commands)| - 2) == SkipRun(0, start, skipFailsAt)
    {
      if !Playable(tile) {
        return;
      }
      activeTileID := Some(tile.id);
      var tracks := QueuedTracks(tile, reply);
      if tracks.None? {
        return;
      }
      var start := ResumeIndex(tile.lastPlayedTrackIndex, |tracks.value|);
      var queue := QueueFor(tracks.value);
      player.SetQueue(queue);
      ghost var before := player.commands;
      var thrown := player.Play(playOk);
      if thrown {
        return;
      }
      var i := 0;
      var failed := false;
      while i < start && !failed
        modifies player
        invariant i <= start
        invariant player.queue == queue && player.status == Playing
        invariant player.index == i
        invariant !failed ==> skipFailsAt.None? || i <= skipFailsAt.value
        invariant !failed ==> player.commands == before + [Command.Play] + Repeat(SkipNext, i)
        invariant failed ==>
          skipFailsAt == Some(i) && i < start &&
          player.commands == before + [Command.Play] + Repeat(SkipNext, i + 1)
        decreases start - i, !failed
      {
        failed := player.SkipToNextEntry(skipFailsAt != Some(i));
        if !failed {
          i := i + 1;
        }
      }
      SkipRunClosedForm(0, start, skipFailsAt);
    }

    /** Pause the engine. */
    method Pause()
      modifies player
      ensures player.status == Paused && player.queue == old(player.queue) && player.index == old(player.index)
      ensures player.commands == old(player.commands) + [Command.Pause]
    {
      player.Pause();
    }

    /** Ask the engine to play; a failure is swallowed. */
    method Resume(ok: bool)
      modifies player
      ensures player.status == (if ok then Playing else old(player.status))
      ensures player.queue == old(player.queue) && player.index == old(player.index)
      ensures player.commands == old(player.commands) + [Command.Play]
    {
      var _ := player.Play(ok);
    }

    /** Pause when the mirrored state says playing, otherwise resume. */
    method TogglePlayPause(ok: bool)
      modifies player
      ensures player.status == (if isPlaying then Paused else if ok then Playing else old(player.status))
      ensures player.queue == old(player.queue) && player.index == old(player.index)
      ensures player.commands == old(player.commands) + [if isPlaying then Command.Pause else Command.Play]
    {
      if isPlaying {
        Pause();
      } else {
        Resume(ok);
      }
    }

    /** Skip forward; a failure (including at the last entry) is swallowed. */
    method SkipToNext(ok: bool)
      modifies player
      ensures player.index == (if ok && old(player.index) + 1 < |player.queue| then old(player.index) + 1 else old(player.index))
      ensures player.queue == old(player.queue) && player.status == old(player.status)
      ensures player.commands == old(player.commands) + [SkipNext]
    {
      var _ := player.SkipToNextEntry(ok);
    }

    /** Skip back; a failure is swallowed. */
    method SkipToPrevious(ok: bool)
      modifies player
      ensures player.index == (if ok && old(player.index) > 0 then old(player.index) - 1 else old(player.index))
      ensures player.queue == old(player.queue) && player.status == old(player.status)
      ensures player.commands == old(player.commands) + [SkipPrevious]
    {
      var _ := player.SkipToPreviousEntry(ok);
    }

    /** Stop the engine and forget the active tile; the queue stays loaded. */
    method Stop()
      modifies this, player
      ensures activeTileID.None? && player.status == Stopped
      ensures player.queue == old(player.queue) && player.index == old(player.index)
      ensures player.commands == old(player.commands) + [Command.Stop]
      ensures isPlaying == old(isPlaying) && currentEntry == old(currentEntry)
      ensures currentTrackTitle == old(currentTrackTitle) && currentTrackArtist == old(currentTrackArtist)
    {
      player.Stop();
      activeTileID := None;
    }

    /** Record `entry` on the tile with id `tileID`, if the fetch finds one. */
    method SaveLastPlayedTrack(tileID: Uuid, entry: Entry, fetchOk: bool, saveOk: bool)
      requires store.Valid()
      modifies store
      ensures store.Valid() && store.nextId == old(store.nextId)
      ensures Recorded(old(store.tiles), old(store.dirty), old(store.durable),
                       store.tiles, store.dirty, store.durable,
                       tileID, player.queue, entry, fetchOk, saveOk)
    {
      var h := store.FetchTile(tileID, fetchOk);
      if h.Some? {
        var index := QueueIndexOf(player.queue, entry);
        store.Update(h.value, WithLastPlayed(store.tiles[h.value], index, entry));
        assert h.value in store.dirty;
        store.Save(saveOk);
      }
    }

    /** Position of the current entry in the engine's queue, 0 without one. */
    function CurrentTrackIndex(): (r: nat)
      reads this, player
      ensures currentEntry.None? ==> r == 0
      ensures currentEntry.Some? ==> r == QueueIndexOf(player.queue, currentEntry.value)
    {
      match currentEntry
      case None => 0
      case Some(e) => QueueIndexOf(player.queue, e)
    }
  }

  /** The store's state before (`tiles`, `dirty`, `durable`) and after
      (`tiles'`, ...) recording `entry` of `queue` on the tile `tileID`: when
      the fetch finds the tile, its record gets the entry's index and a save
      is attempted; otherwise nothing changes. */
  ghost predicate Recorded(tiles: seq<TileConfig>, dirty: set<Handle>, durable: seq<TileConfig>,
                           tiles': seq<TileConfig>, dirty': set<Handle>, durable': seq<TileConfig>,
                           tileID: Uuid, queue: seq<Entry>, entry: Entry, fetchOk: bool, saveOk: bool)
  {
    var h := if fetchOk then FirstIndexOf(Ids(tiles), tileID) else None;
    if h.None? then
      tiles' == tiles && dirty' == dirty && durable' == durable
    else
      h.value < |tiles| &&
      tiles' == tiles[h.value := WithLastPlayed(tiles[h.value], QueueIndexOf(queue, entry), entry)] &&
      (saveOk ==> durable' == tiles' && dirty' == {}) &&
      (!saveOk ==> durable' == durable && dirty' == dirty + {h.value})
  }
}
