/**
 * The event-subscription hook. Effect setup calls `listen` once; the
 * registration resolves later with an unlisten function, which the effect's
 * cleanup calls if it has arrived by then. The two events "listen resolved"
 * and "cleanup" can come in either order.
 *
 * `Listener` is the hook as written; `SafeListener` also handles a
 * resolution that arrives after cleanup.
 */
module TauriEvents {
  import opened Types

  /** The three player channels and the event names the hooks bind them to. */
  datatype Channel = StatusChannel | ProgressChannel | ErrorChannel

  function EventName(ch: Channel): (name: string)
    ensures ChannelOf(name) == Some(ch)
    ensures |name| > 7 && name[..7] == "player-"
  {
    match ch
    case StatusChannel => "player-status"
    case ProgressChannel => "player-progress"
    case ErrorChannel => "player-error"
  }

  function ChannelOf(name: string): Option<Channel>
  {
    if name == "player-status" then Some(StatusChannel)
    else if name == "player-progress" then Some(ProgressChannel)
    else if name == "player-error" then Some(ErrorChannel)
    else None
  }

  /** Each channel has its own event name, and the name identifies the channel. */
  lemma EventNameRoundTrip(ch: Channel)
    ensures ChannelOf(EventName(ch)) == Some(ch)
  {
  }

  /** An unlisten function, known only by identity. */
  type Token = nat

  class Listener<T> {
    const event: string
    /** The `listen` registrations requested, by event name. */
    var listenCalls: seq<string>
    /** The unlisten function, once the `listen` promise has resolved. */
    var unlisten: Option<Token>
    /** The unlisten functions called, in order. */
    var unlistenCalls: seq<Token>
    /** Whether the backend still routes events to this listener. */
    var live: bool
    /** The payloads the handler has received, in order. */
    var handled: seq<T>
    var resolved: bool
    var cleaned: bool

    /** Effect setup: exactly one `listen` on the given event name. */
    constructor (event: string)
      ensures this.event == event
      ensures listenCalls == [event]
      ensures unlisten == None && unlistenCalls == [] && !live && handled == []
      ensures !resolved && !cleaned
    {
      this.event := event;
      listenCalls := [event];
      unlisten, unlistenCalls, live, handled := None, [], false, [];
      resolved, cleaned := false, false;
    }

    /** The `listen` promise resolves with `t`: the listener is registered and `t` stored. */
    method Resolve(t: Token)
      requires !resolved
      modifies this
      ensures resolved && unlisten == Some(t) && live
      ensures cleaned == old(cleaned) && unlistenCalls == old(unlistenCalls) && handled == old(handled)
      ensures listenCalls == old(listenCalls)
    {
      unlisten := Some(t);
      live := true;
      resolved := true;
    }

    /** The effect cleanup: calls the stored unlisten if there is one, and nothing otherwise. */
    method Cleanup()
      requires !cleaned
      modifies this
      ensures cleaned && resolved == old(resolved) && unlisten == old(unlisten)
      ensures unlistenCalls == old(unlistenCalls) + (if old(unlisten).Some? then [old(unlisten).value] else [])
      ensures live == (old(live) && old(unlisten).None?)
      ensures handled == old(handled) && listenCalls == old(listenCalls)
    {
      if unlisten.Some? {
        unlistenCalls := unlistenCalls + [unlisten.value];
        live := false;
      }
      cleaned := true;
    }

    /** An event on the channel: the handler receives exactly its payload while registered. */
    method Deliver(payload: T)
      modifies this
      ensures handled == old(handled) + (if old(live) then [payload] else [])
      ensures live == old(live) && unlisten == old(unlisten) && unlistenCalls == old(unlistenCalls)
      ensures resolved == old(resolved) && cleaned == old(cleaned) && listenCalls == old(listenCalls)
    {
      if live {
        handled := handled + [payload];
      }
    }
  }

  /** Registration resolving before cleanup: the stored unlisten is called and the listener is gone. */
  method NoLeakWhenResolvedFirst(t: Token) returns (live: bool, unlistened: seq<Token>)
    ensures !live && unlistened == [t]
  {
    var l := new Listener<string>("player-status");
    l.Resolve(t);
    l.Cleanup();
    live, unlistened := l.live, l.unlistenCalls;
  }

  /**
   * Cleanup before the registration resolves, as written: no unlisten is ever
   * called and the listener stays registered after its component is gone, so
   * it goes on handling events.
   */
  method LeakWhenCleanupFirst(t: Token) returns (live: bool, unlistened: seq<Token>, handled: seq<string>)
    ensures live && unlistened == [] && handled == ["late"]
  {
    var l := new Listener<string>("player-status");
    l.Cleanup();
    l.Resolve(t);
    l.Deliver("late");
    live, unlistened, handled := l.live, l.unlistenCalls, l.handled;
  }

  /** The same lifecycle, with a `disposed` flag so that a late resolution unlistens at once. */
  class SafeListener<T> {
    const event: string
    var listenCalls: seq<string>
    var unlisten: Option<Token>
    var unlistenCalls: seq<Token>
    var live: bool
    var handled: seq<T>
    var resolved: bool
    var disposed: bool

    /** Once both events have happened, the listener is gone and its unlisten was called once. */
    predicate Settled()
      reads this
    {
      resolved && disposed ==> !live && unlisten.Some? && unlistenCalls == [unlisten.value]
    }

    /** Before both events have happened, no unlisten has been called. */
    predicate Valid()
      reads this
    {
      && (live <==> resolved && !disposed)
      && (resolved <==> unlisten.Some?)
      && (!(resolved && disposed) ==> unlistenCalls == [])
      && Settled()
    }

    constructor (event: string)
      ensures Valid()
      ensures this.event == event && listenCalls == [event]
      ensures unlisten == None && unlistenCalls == [] && !live && handled == []
      ensures !resolved && !disposed
    {
      this.event := event;
      listenCalls := [event];
      unlisten, unlistenCalls, live, handled := None, [], false, [];
      resolved, disposed := false, false;
    }

    /** A resolution after disposal calls the new unlisten at once instead of keeping the listener. */
    method Resolve(t: Token)
      requires Valid() && !resolved
      modifies this
      ensures Valid() && resolved && unlisten == Some(t)
      ensures disposed == old(disposed) && handled == old(handled) && listenCalls == old(listenCalls)
      ensures live == !disposed
      ensures unlistenCalls == (if disposed then [t] else [])
    {
      unlisten := Some(t);
      resolved := true;
      if disposed {
        unlistenCalls := unlistenCalls + [t];
      } else {
        live := true;
      }
    }

    method Cleanup()
      requires Valid() && !disposed
      modifies this
      ensures Valid() && disposed && !live
      ensures resolved == old(resolved) && unlisten == old(unlisten)
      ensures unlistenCalls == (if resolved then [unlisten.value] else [])
      ensures handled == old(handled) && listenCalls == old(listenCalls)
    {
      if unlisten.Some? {
        unlistenCalls := unlistenCalls + [unlisten.value];
        live := false;
      }
      disposed := true;
    }

    method Deliver(payload: T)
      requires Valid()
      modifies this
      ensures Valid()
      ensures handled == old(handled) + (if old(live) then [payload] else [])
      ensures live == old(live) && unlisten == old(unlisten) && unlistenCalls == old(unlistenCalls)
      ensures resolved == old(resolved) && disposed == old(disposed) && listenCalls == old(listenCalls)
    {
      if live {
        handled := handled + [payload];
      }
    }
  }

  /** With the guard, either order of the two events ends unregistered, with the unlisten called once. */
  method NoLeakEitherOrder(t: Token, cleanupFirst: bool) returns (live: bool, unlistened: seq<Token>, handled: seq<string>)
    ensures !live && unlistened == [t] && handled == []
  {
    var l := new SafeListener<string>("player-status");
    if cleanupFirst {
      l.Cleanup();
      l.Resolve(t);
    } else {
      l.Resolve(t);
      l.Cleanup();
    }
    l.Deliver("late");
    live, unlistened, handled := l.live, l.unlistenCalls, l.handled;
  }
}
