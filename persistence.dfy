/** The tile record store: the CoreData entity `TileConfig`, the view context
    that holds its managed objects, and the persistent store behind it. */
module Persistence {
  import opened Common

  /** A `UUID`. Fresh values come from the store's generator (`nextId`). */
  type Uuid = nat

  /** A managed object's identity inside the context: its insertion index.
      Objects are never deleted, so a handle stays valid once issued. */
  type Handle = nat

  /** Number of tile slots on the grid. */
  const TileCount := 9

  /** The attributes of one `TileConfig` object. */
  datatype TileConfig = TileConfig(
    id: Uuid,
    position: int,
    musicItemID: Option<string>,
    musicItemType: Option<string>,
    displayName: Option<string>,
    artworkData: Option<Bytes>,
    lastPlayedTrackIndex: int,
    lastPlayedTrackID: Option<string>)

  /** A record as CoreData inserts it: id and position set, every other
      attribute at its default. */
  function NewTile(id: Uuid, position: int): TileConfig {
    TileConfig(id, position, None, None, None, None, 0, None)
  }

  /** No media bound, no cached artwork, resume position 0. */
  predicate Unbound(r: TileConfig) {
    r.musicItemID.None? && r.musicItemType.None? && r.displayName.None? &&
    r.artworkData.None? && r.lastPlayedTrackIndex == 0 && r.lastPlayedTrackID.None?
  }

  /** The records a first-run loop inserts: positions 0 to n - 1, ids counted
      up from `firstId`. */
  function Seeded(firstId: Uuid, n: nat): (s: seq<TileConfig>)
    ensures |s| == n && forall i :: 0 <= i < n ==> s[i] == NewTile(firstId + i, i)
  {
    seq(n, i requires 0 <= i < n => NewTile(firstId + i, i))
  }

  /** The positions of `ts`, in order. */
  function Positions(ts: seq<TileConfig>): (s: seq<int>)
    ensures |s| == |ts| && forall i :: 0 <= i < |ts| ==> s[i] == ts[i].position
  {
    seq(|ts|, i requires 0 <= i < |ts| => ts[i].position)
  }

  /** The ids of `ts`, in order. */
  function Ids(ts: seq<TileConfig>): (s: seq<Uuid>)
    ensures |s| == |ts| && forall i :: 0 <= i < |ts| ==> s[i] == ts[i].id
  {
    seq(|ts|, i requires 0 <= i < |ts| => ts[i].id)
  }

  /** A number larger than every id in `ts`: where a fresh-id generator can
      start without colliding with the records already stored. */
  function IdBound(ts: seq<TileConfig>): (b: Uuid)
    ensures forall i :: 0 <= i < |ts| ==> ts[i].id < b
  {
    if ts == [] then 0
    else
      var rest := IdBound(ts[1..]);
      if ts[0].id < rest then rest else ts[0].id + 1
  }

  /** On an empty context, the first-run block is exactly one unbound tile per
      slot, positions 0 to 8, with pairwise distinct ids. */
  lemma {:induction false} SeededSlots(firstId: Uuid)
    ensures Positions(Seeded(firstId, TileCount)) == [0, 1, 2, 3, 4, 5, 6, 7, 8]
    ensures forall i :: 0 <= i < TileCount ==> Unbound(Seeded(firstId, TileCount)[i])
    ensures forall i, j :: 0 <= i < j < TileCount ==>
      Seeded(firstId, TileCount)[i].id != Seeded(firstId, TileCount)[j].id
  {
    var p := Positions(Seeded(firstId, TileCount));
    assert p[0] == 0 && p[1] == 1 && p[2] == 2 && p[3] == 3 && p[4] == 4;
    assert p[5] == 5 && p[6] == 6 && p[7] == 7 && p[8] == 8;
  }

  /** In a seeded block, the first record at position `p` is the one at handle `p`. */
  lemma {:induction false} SeededPositionLookup(firstId: Uuid, n: nat, p: nat)
    requires p < n
    ensures FirstIndexOf(Positions(Seeded(firstId, n)), p) == Some(p)
  {
    var ps := Positions(Seeded(firstId, n));
    assert forall i :: 0 <= i < n ==> ps[i] == i;
    FirstIndexOfDistinct(ps, p);
  }

  /** In a seeded block, the first record with the id seeded at `p` is the one at handle `p`. */
  lemma {:induction false} SeededIdLookup(firstId: Uuid, n: nat, p: nat)
    requires p < n
    ensures FirstIndexOf(Ids(Seeded(firstId, n)), firstId + p) == Some(p)
  {
    var ids := Ids(Seeded(firstId, n));
    assert forall i :: 0 <= i < n ==> ids[i] == firstId + i;
    FirstIndexOfDistinct(ids, p);
  }

  /** On a freshly seeded store, the fetch by position `p` and the fetch by
      the id seeded for `p` both find the record at handle `p`. */
  lemma {:induction false} SeededLookup(firstId: Uuid, p: nat)
    requires p < TileCount
    ensures FirstIndexOf(Positions(Seeded(firstId, TileCount)), p) == Some(p)
    ensures FirstIndexOf(Ids(Seeded(firstId, TileCount)), firstId + p) == Some(p)
  {
    SeededPositionLookup(firstId, TileCount, p);
    SeededIdLookup(firstId, TileCount, p);
  }

  /** `PersistenceController`: the view context (`tiles`, in insertion order,
      with `dirty` holding the handles of objects changed since the last save)
      over a persistent store (`durable`). */
  class PersistenceController {
    var tiles: seq<TileConfig>
    var dirty: set<Handle>
    var durable: seq<TileConfig>
    var nextId: Uuid

    /** Every object without unsaved changes holds exactly what the persistent
        store holds for it, and the id generator is ahead of every id in use. */
    ghost predicate Valid()
      reads this
    {
      |durable| <= |tiles| &&
      (forall h :: h in dirty ==> h < |tiles|) &&
      (forall h :: 0 <= h < |tiles| && h !in dirty ==> h < |durable| && durable[h] == tiles[h]) &&
      (forall h :: 0 <= h < |tiles| ==> tiles[h].id < nextId)
    }

    /** `context.hasChanges`. */
    predicate HasChanges()
      reads this
    {
      dirty != {}
    }

    /** `init(inMemory:)`: open a persistent store holding `persisted`
        (an in-memory store holds nothing), then `initializeTilesIfNeeded`.
        `countOk` and `saveOk` say whether the context's count and save succeed. */
    constructor (persisted: seq<TileConfig>, countOk: bool, saveOk: bool)
      ensures Valid()
      ensures persisted != [] || !countOk ==>
        tiles == persisted && durable == persisted && !HasChanges()
      ensures persisted == [] && countOk ==>
        tiles == Seeded(0, TileCount) &&
        (saveOk ==> durable == tiles && !HasChanges()) &&
        (!saveOk ==> durable == [] && HasChanges())
    {
      tiles, dirty, durable, nextId := persisted, {}, persisted, IdBound(persisted);
      new;
      InitializeTilesIfNeeded(countOk, saveOk);
    }

    /** `initializeTilesIfNeeded`: on a context without any tile, insert one
        unbound tile per slot with a fresh id and save. A store holding any
        tile at all is left alone; a failing count or save is logged and
        swallowed. */
    method InitializeTilesIfNeeded(countOk: bool, saveOk: bool)
      requires Valid()
      modifies this
      ensures Valid()
      ensures !countOk || old(tiles) != [] ==>
        tiles == old(tiles) && dirty == old(dirty) && durable == old(durable) && nextId == old(nextId)
      ensures countOk && old(tiles) == [] ==>
        tiles == Seeded(old(nextId), TileCount) && nextId == old(nextId) + TileCount &&
        (saveOk ==> durable == tiles && !HasChanges()) &&
        (!saveOk ==> durable == old(durable) && HasChanges())
    {
      if !countOk {
        return;  // the count threw: logged
      }
      if |tiles| == 0 {
        InsertSeedTiles();
        assert 0 in dirty;
        Save(saveOk);
      }
    }

    /** The loop of the first-run initialisation: insert one tile per slot,
        positions 0 to 8, each with a fresh id. */
    method InsertSeedTiles()
      requires Valid()
      modifies this
      ensures Valid()
      ensures tiles == old(tiles) + Seeded(old(nextId), TileCount)
      ensures forall h :: h in dirty <==> h in old(dirty) || |old(tiles)| <= h < |tiles|
      ensures durable == old(durable) && nextId == old(nextId) + TileCount
    {
      for i := 0 to TileCount
        invariant tiles == old(tiles) + Seeded(old(nextId), i)
        invariant nextId == old(nextId) + i
        invariant forall h :: h in dirty <==> h in old(dirty) || |old(tiles)| <= h < |tiles|
        invariant durable == old(durable)
        invariant Valid()
      {
        assert Seeded(old(nextId), i + 1) == Seeded(old(nextId), i) + [NewTile(nextId, i)];
        tiles := tiles + [NewTile(nextId, i)];
        dirty := dirty + {|tiles| - 1};
        nextId := nextId + 1;
      }
    }

    /** `getTile(at:)`: the earliest inserted object at `position`, or none
        when there is none or the fetch throws (`fetchOk` false). */
    method GetTile(position: int, fetchOk: bool) returns (h: Option<Handle>)
      ensures h == (if fetchOk then FirstIndexOf(Positions(tiles), position) else None)
      ensures h.Some? ==> h.value < |tiles| && tiles[h.value].position == position
      ensures h.None? <==> !fetchOk || forall i :: 0 <= i < |tiles| ==> tiles[i].position != position
    {
      h := None;
      if !fetchOk {
        return;  // logged
      }
      var i := 0;
      while i < |tiles|
        invariant 0 <= i <= |tiles|
        invariant position !in Positions(tiles)[..i]
      {
        if tiles[i].position == position {
          assert Positions(tiles)[..i + 1] == Positions(tiles)[..i] + [position];
          h := Some(i);
          return;
        }
        assert Positions(tiles)[..i + 1] == Positions(tiles)[..i] + [tiles[i].position];
        i := i + 1;
      }
      assert Positions(tiles)[..i] == Positions(tiles);
    }

    /** The fetch of `saveLastPlayedTrack`: the earliest inserted object with
        id `tileID`, or none when there is none or the fetch throws. */
    method FetchTile(tileID: Uuid, fetchOk: bool) returns (h: Option<Handle>)
      ensures h == (if fetchOk then FirstIndexOf(Ids(tiles), tileID) else None)
      ensures h.Some? ==> h.value < |tiles| && tiles[h.value].id == tileID
      ensures h.None? <==> !fetchOk || forall i :: 0 <= i < |tiles| ==> tiles[i].id != tileID
    {
      h := None;
      if !fetchOk {
        return;  // logged
      }
      var i := 0;
      while i < |tiles|
        invariant 0 <= i <= |tiles|
        invariant tileID !in Ids(tiles)[..i]
      {
        if tiles[i].id == tileID {
          assert Ids(tiles)[..i + 1] == Ids(tiles)[..i] + [tileID];
          h := Some(i);
          return;
        }
        assert Ids(tiles)[..i + 1] == Ids(tiles)[..i] + [tiles[i].id];
        i := i + 1;
      }
      assert Ids(tiles)[..i] == Ids(tiles);
    }

    /** Assigning attributes of the object `h` in place. The new value keeps
        the object's id and position, which are written once at insertion;
        CoreData's change tracking registers the object as updated. */
    method Update(h: Handle, t: TileConfig)
      requires Valid() && h < |tiles|
      requires t.id == tiles[h].id && t.position == tiles[h].position
      modifies this
      ensures Valid()
      ensures tiles == old(tiles)[h := t]
      ensures dirty == old(dirty) + {h}
      ensures durable == old(durable) && nextId == old(nextId)
    {
      tiles := tiles[h := t];
      dirty := dirty + {h};
    }

    /** `save()` (and `context.save()`): write the context to the persistent
        store only when it has changes; a failing save (`ok` false) is logged
        and the changes stay pending. The objects themselves never change. */
    method Save(ok: bool)
      requires Valid()
      modifies this
      ensures Valid()
      ensures tiles == old(tiles) && nextId == old(nextId)
      ensures !old(HasChanges()) ==> durable == old(durable) && dirty == old(dirty)
      ensures old(HasChanges()) && ok ==> durable == tiles && !HasChanges()
      ensures old(HasChanges()) && !ok ==> durable == old(durable) && dirty == old(dirty)
    {
      if HasChanges() {
        if ok {
          durable := tiles;
          dirty := {};
        }
      }
    }

    /** The preview store as `preview` builds it: the in-memory initialiser
        has already seeded nine tiles when the preview inserts nine more. */
    constructor PreviewAsWritten(countOk: bool)
      ensures Valid()
      ensures countOk ==> tiles == PreviewTilesAsWritten()
      ensures !countOk ==> tiles == Seeded(0, TileCount)
      ensures durable == tiles && !HasChanges()
    {
      tiles, dirty, durable, nextId := [], {}, [], 0;
      new;
      InitializeTilesIfNeeded(countOk, true);
      InsertSeedTiles();
      assert |tiles| - 1 in dirty;
      Save(true);
    }

    /** The preview store as intended: nine tiles at positions 0 to 8,
        inserted only when the initialiser has not already done so. */
    constructor Preview(countOk: bool)
      ensures Valid()
      ensures tiles == Seeded(0, TileCount)
      ensures durable == tiles && !HasChanges()
    {
      tiles, dirty, durable, nextId := [], {}, [], 0;
      new;
      InitializeTilesIfNeeded(countOk, true);
      if tiles == [] {
        InitializeTilesIfNeeded(true, true);
      }
    }
  }

  /** A context with nothing to save already agrees with its persistent store. */
  lemma {:induction false} NothingToSave(c: PersistenceController)
    requires c.Valid() && !c.HasChanges()
    ensures c.durable == c.tiles
  {
    if |c.tiles| > 0 {
      assert |c.tiles| - 1 !in c.dirty;
    }
  }

  /** The tiles of the preview store as `preview` builds it: two seeded blocks. */
  function PreviewTilesAsWritten(): seq<TileConfig> {
    Seeded(0, TileCount) + Seeded(TileCount, TileCount)
  }

  /** In the preview store as built, every slot is held by two tiles, and a
      fetch by position only ever finds the first of them. */
  lemma {:induction false} PreviewDuplicatesSlots()
    ensures |PreviewTilesAsWritten()| == 2 * TileCount
    ensures forall k :: TileCount <= k < 2 * TileCount ==>
      PreviewTilesAsWritten()[k].position == k - TileCount
    ensures forall p :: 0 <= p < TileCount ==>
      FirstIndexOf(Positions(PreviewTilesAsWritten()), p) == Some(p)
  {
    var s := PreviewTilesAsWritten();
    forall k | TileCount <= k < 2 * TileCount
      ensures s[k].position == k - TileCount
    {
      assert s[k] == Seeded(TileCount, TileCount)[k - TileCount];
    }
    forall p | 0 <= p < TileCount
      ensures FirstIndexOf(Positions(s), p) == Some(p)
    {
      assert Positions(s)[p] == p;
      assert forall j :: 0 <= j < p ==> Positions(s)[..p][j] == j;
    }
  }
}
