/** The external player engine (`ApplicationMusicPlayer`), reduced to what the
    playback manager relies on: a queue of entries, the current entry, the
    transport status, and a log of the commands it has been given. Which
    commands throw is decided by the caller's `ok` arguments. */
module Engine {
  import opened Common

  /** A catalog track: a song or a music video. */
  datatype Track =
    | Song(id: string, title: string, artistName: string)
    | MusicVideo(id: string, title: string, artistName: string)

  /** `ApplicationMusicPlayer.Queue.Entry`: an id unique within its queue, the
      item it plays (if any), and the entry's own display strings. */
  datatype Entry = Entry(id: nat, item: Option<Track>, title: string, subtitle: Option<string>)

  /** `MusicPlayer.PlaybackStatus`, the values the engine moves between here. */
  datatype Status = Stopped | Playing | Paused

  /** A command issued to the engine. */
  datatype Command = SetQueue(entries: seq<Entry>) | Play | Pause | Stop | SkipNext | SkipPrevious

  /** `ApplicationMusicPlayer.Queue(for: tracks)`: one entry per track, in order. */
  function QueueFor(tracks: seq<Track>): (q: seq<Entry>)
    ensures |q| == |tracks|
    ensures forall i :: 0 <= i < |q| ==> q[i].item == Some(tracks[i])
  {
    seq(|tracks|, i requires 0 <= i < |tracks| =>
      Entry(i, Some(tracks[i]), tracks[i].title, Some(tracks[i].artistName)))
  }

  /** The ids of a queue's entries, in order. */
  function EntryIds(q: seq<Entry>): (ids: seq<nat>)
    ensures |ids| == |q| && forall i :: 0 <= i < |q| ==> ids[i] == q[i].id
  {
    seq(|q|, i requires 0 <= i < |q| => q[i].id)
  }

  /** The entries of a freshly built queue carry pairwise distinct ids. */
  lemma {:induction false} QueueIdsDistinct(tracks: seq<Track>)
    ensures forall i, j :: 0 <= i < j < |tracks| ==> EntryIds(QueueFor(tracks))[i] != EntryIds(QueueFor(tracks))[j]
  {
    var q := QueueFor(tracks);
    assert forall i :: 0 <= i < |tracks| ==> q[i].id == i;
  }

  /** `n` copies of command `c`. */
  function Repeat(c: Command, n: nat): (s: seq<Command>)
    ensures |s| == n && forall i :: 0 <= i < n ==> s[i] == c
  {
    seq(n, _ => c)
  }

  class ApplicationPlayer {
    var queue: seq<Entry>
    /** Position of the current entry in `queue`. */
    var index: nat
    var status: Status
    /** Every command given to the engine, in order. */
    var commands: seq<Command>

    constructor ()
      ensures queue == [] && index == 0 && status == Stopped && commands == []
    {
      queue, index, status, commands := [], 0, Stopped, [];
    }

    /** `queue.currentEntry`. */
    function CurrentEntry(): (e: Option<Entry>)
      reads this
      ensures e.Some? <==> index < |queue|
      ensures e.Some? ==> e.value == queue[index]
    {
      if index < |queue| then Some(queue[index]) else None
    }

    /** `player.queue = ...`: the new queue starts at its first entry. */
    method SetQueue(entries: seq<Entry>)
      modifies this
      ensures queue == entries && index == 0 && status == old(status)
      ensures commands == old(commands) + [Command.SetQueue(entries)]
    {
      queue, index := entries, 0;
      commands := commands + [Command.SetQueue(entries)];
    }

    /** `play()`; throws when `ok` is false. */
    method Play(ok: bool) returns (thrown: bool)
      modifies this
      ensures thrown == !ok
      ensures status == (if ok then Playing else old(status))
      ensures queue == old(queue) && index == old(index)
      ensures commands == old(commands) + [Command.Play]
    {
      thrown := !ok;
      if ok {
        status := Playing;
      }
      commands := commands + [Command.Play];
    }

    /** `pause()`. */
    method Pause()
      modifies this
      ensures status == Paused && queue == old(queue) && index == old(index)
      ensures commands == old(commands) + [Command.Pause]
    {
      status := Paused;
      commands := commands + [Command.Pause];
    }

    /** `stop()`: the queue stays loaded. */
    method Stop()
      modifies this
      ensures status == Stopped && queue == old(queue) && index == old(index)
      ensures commands == old(commands) + [Command.Stop]
    {
      status := Stopped;
      commands := commands + [Command.Stop];
    }

    /** `skipToNextEntry()`: throws when `ok` is false or there is no next entry. */
    method SkipToNextEntry(ok: bool) returns (thrown: bool)
      modifies this
      ensures thrown == (!ok || old(index) + 1 >= |queue|)
      ensures index == (if thrown then old(index) else old(index) + 1)
      ensures queue == old(queue) && status == old(status)
      ensures commands == old(commands) + [Command.SkipNext]
    {
      thrown := !ok || index + 1 >= |queue|;
      if !thrown {
        index := index + 1;
      }
      commands := commands + [Command.SkipNext];
    }

    /** `skipToPreviousEntry()`: throws when `ok` is false; on the first entry
        it stays there. */
    method SkipToPreviousEntry(ok: bool) returns (thrown: bool)
      modifies this
      ensures thrown == !ok
      ensures index == (if ok && old(index) > 0 then old(index) - 1 else old(index))
      ensures queue == old(queue) && status == old(status)
      ensures commands == old(commands) + [Command.SkipPrevious]
    {
      thrown := !ok;
      if ok && index > 0 {
        index := index - 1;
      }
      commands := commands + [Command.SkipPrevious];
    }
  }
}
