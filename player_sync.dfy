/**
 * The playback reconciler: three event handlers that copy payload fields
 * into the playback snapshot. `Reconcile` is the reducer they implement;
 * the handler methods are proved to perform exactly that transition.
 */
module PlayerSync {
  import opened Types
  import opened Audio

  datatype StatusPayload = StatusPayload(status: PlayerStatus, path: Option<string>, duration: Option<real>)

  datatype ProgressPayload = ProgressPayload(position: real, duration: real)

  datatype PlayerEvent =
    | StatusEvent(statusPayload: StatusPayload)
    | ProgressEvent(progressPayload: ProgressPayload)
    | ErrorEvent(message: string)

  /** The snapshot after one handled event. */
  function Reconcile(s: Snapshot, e: PlayerEvent): (r: Snapshot)
    ensures e.StatusEvent? ==> r.status == e.statusPayload.status
    ensures e.StatusEvent? ==> r.duration == (if e.statusPayload.duration.Some? then e.statusPayload.duration.value else s.duration)
    ensures e.StatusEvent? ==> r.currentTime == s.currentTime
    ensures e.ProgressEvent? ==> r.currentTime == e.progressPayload.position && r.duration == e.progressPayload.duration
    ensures e.ProgressEvent? ==> r.status == s.status
    ensures e.ErrorEvent? ==> r == s
    ensures r.isPlaying == s.isPlaying && r.currentTrack == s.currentTrack && r.volume == s.volume
  {
    match e
    case StatusEvent(p) =>
      var s1 := s.(status := p.status);
      if p.duration.Some? then s1.(duration := p.duration.value) else s1
    case ProgressEvent(p) => s.(currentTime := p.position).(duration := p.duration)
    case ErrorEvent(_) => s
  }

  /** The snapshot after handling `es` in order. */
  function ReconcileAll(s: Snapshot, es: seq<PlayerEvent>): Snapshot
    decreases |es|
  {
    if es == [] then s else Reconcile(ReconcileAll(s, es[..|es| - 1]), es[|es| - 1])
  }

  /** The position of the last progress event in `es`, if there is one. */
  function LastPosition(es: seq<PlayerEvent>): (p: Option<real>)
    ensures p.Some? <==> exists i :: 0 <= i < |es| && es[i].ProgressEvent?
    ensures p.Some? ==>
      exists i :: 0 <= i < |es| && es[i].ProgressEvent? && es[i].progressPayload.position == p.value && (forall j :: i < j < |es| ==> !es[j].ProgressEvent?)
    decreases |es|
  {
    if es == [] then None
    else if es[|es| - 1].ProgressEvent? then Some(es[|es| - 1].progressPayload.position)
    else
      var p := LastPosition(es[..|es| - 1]);
      assert forall i :: 0 <= i < |es| - 1 ==> es[..|es| - 1][i] == es[i];
      p
  }

  /**
   * Last write wins: after any sequence of events, `currentTime` is the position
   * of the last progress event, or unchanged when there was none.
   */
  lemma {:induction false} CurrentTimeIsLastPosition(s: Snapshot, es: seq<PlayerEvent>)
    ensures ReconcileAll(s, es).currentTime == (if LastPosition(es).Some? then LastPosition(es).value else s.currentTime)
    decreases |es|
  {
    if es != [] {
      CurrentTimeIsLastPosition(s, es[..|es| - 1]);
    }
  }

  /** Error events leave the snapshot as it was, however many arrive. */
  lemma {:induction false} ErrorsChangeNothing(s: Snapshot, es: seq<PlayerEvent>)
    requires forall i :: 0 <= i < |es| ==> es[i].ErrorEvent?
    ensures ReconcileAll(s, es) == s
    decreases |es|
  {
    if es != [] {
      ErrorsChangeNothing(s, es[..|es| - 1]);
    }
  }

  /** The status handler: set the status, then the duration when the payload has one. */
  method OnStatus(store: AudioStore, p: StatusPayload)
    modifies store
    ensures store.Current() == Reconcile(old(store.Current()), StatusEvent(p))
  {
    store.SetPlayerStatus(p.status);
    if p.duration.Some? {
      store.SetDuration(p.duration.value);
    }
  }

  /** The progress handler: overwrite the position, then the duration. */
  method OnProgress(store: AudioStore, p: ProgressPayload)
    modifies store
    ensures store.Current() == Reconcile(old(store.Current()), ProgressEvent(p))
  {
    store.SetCurrentTime(p.position);
    store.SetDuration(p.duration);
  }

  /** The error handler only logs and alerts; neither is part of the snapshot. */
  method OnError(store: AudioStore, message: string)
    ensures store.Current() == Reconcile(store.Current(), ErrorEvent(message))
  {
  }

  /**
   * The status handler as written: it looks up a setter the store does not
   * declare, so the call throws before any write. The result is the snapshot
   * left behind and the thrown error.
   */
  function OnStatusAsWritten(s: Snapshot, p: StatusPayload): (r: (Snapshot, Option<string>))
    ensures r.0 == s
    ensures r.1.Some?
  {
    if "setPlayerStatus" in DeclaredSetters then (Reconcile(s, StatusEvent(p)), None)
    else (s, Some("TypeError: setPlayerStatus is not a function"))
  }

  /**
   * A status event carrying a duration of 180 seconds, as written, leaves the
   * initial duration of 0; the intended reducer records 180.
   */
  lemma StatusEventLostAsWritten()
    ensures var p := StatusPayload(Playing, Some("/music/a.mp3"), Some(180.0));
      && OnStatusAsWritten(Initial, p).0.duration == 0.0
      && OnStatusAsWritten(Initial, p).1.Some?
      && Reconcile(Initial, StatusEvent(p)).duration == 180.0
      && Reconcile(Initial, StatusEvent(p)).status == Playing
  {
  }
}
