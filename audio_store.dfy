/**
 * The playback snapshot store: a record of player fields, each with a setter
 * that overwrites that field and nothing else. Positions, durations and the
 * volume are only copied, so they are modelled as reals.
 *
 * The `status` field and `SetPlayerStatus` are not declared by the store as
 * written; the reconciler calls such a setter, and this model adds it (see
 * `PlayerSync`).
 */
module Audio {
  import opened Types

  datatype PlayerStatus = Playing | Paused | Stopped

  datatype Snapshot = Snapshot(
    isPlaying: bool,
    currentTrack: Option<string>,
    volume: real,
    duration: real,
    currentTime: real,
    status: PlayerStatus)

  /** The store's initial values; the added `status` starts as stopped. */
  const Initial: Snapshot := Snapshot(false, None, 1.0, 0.0, 0.0, Stopped)

  /** The setters the store declares, by name, as written. */
  const DeclaredSetters: seq<string> :=
    ["setIsPlaying", "setVolume", "setCurrentTrack", "setDuration", "setCurrentTime"]

  class AudioStore {
    var isPlaying: bool
    var currentTrack: Option<string>
    var volume: real
    var duration: real
    var currentTime: real
    var status: PlayerStatus

    function Current(): Snapshot
      reads this
    {
      Snapshot(isPlaying, currentTrack, volume, duration, currentTime, status)
    }

    constructor ()
      ensures Current() == Initial
    {
      isPlaying, currentTrack, volume, duration, currentTime, status := false, None, 1.0, 0.0, 0.0, Stopped;
    }

    method SetIsPlaying(b: bool)
      modifies this
      ensures Current() == old(Current()).(isPlaying := b)
    {
      isPlaying := b;
    }

    /** Stored verbatim: no clamping to [0, 1]. */
    method SetVolume(v: real)
      modifies this
      ensures Current() == old(Current()).(volume := v)
    {
      volume := v;
    }

    method SetCurrentTrack(t: Option<string>)
      modifies this
      ensures Current() == old(Current()).(currentTrack := t)
    {
      currentTrack := t;
    }

    method SetDuration(d: real)
      modifies this
      ensures Current() == old(Current()).(duration := d)
    {
      duration := d;
    }

    method SetCurrentTime(t: real)
      modifies this
      ensures Current() == old(Current()).(currentTime := t)
    {
      currentTime := t;
    }

    /** The setter the reconciler needs; `isPlaying` is not derived from it. */
    method SetPlayerStatus(st: PlayerStatus)
      modifies this
      ensures Current() == old(Current()).(status := st)
    {
      status := st;
    }
  }
}
