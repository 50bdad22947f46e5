/**
 * The audio controller: each playback intent becomes exactly one backend
 * command, with its argument passed through unchanged.
 */
module AudioController {
  import opened Types
  import opened Boundary

  datatype Intent =
    | Play(path: string)
    | Pause
    | Resume
    | Stop
    | Seek(seconds: real)
    | SetVolume(volume: real)

  /** The command an intent is sent as. */
  function CommandFor(i: Intent): (c: Call)
    ensures IntentOf(c) == Some(i)
    ensures i.Pause? || i.Resume? || i.Stop? <==> c.args.NoArgs?
  {
    match i
    case Play(p) => Call("play", Fields([("path", Str(p))]))
    case Pause => Call("pause", NoArgs)
    case Resume => Call("resume", NoArgs)
    case Stop => Call("stop", NoArgs)
    case Seek(s) => Call("seek", Fields([("seconds", Num(s))]))
    case SetVolume(v) => Call("set_volume", Fields([("volume", Num(v))]))
  }

  /** The single argument of `c` when it is exactly one field named `name`. */
  function OnlyArg(c: Call, name: string): Option<Value>
  {
    if c.args.Fields? && |c.args.fields| == 1 && c.args.fields[0].0 == name then Some(c.args.fields[0].1) else None
  }

  /** Reads a logged command back as the intent that produced it, if any did. */
  function IntentOf(c: Call): Option<Intent>
  {
    if c.command == "play" && OnlyArg(c, "path").Some? && OnlyArg(c, "path").value.Str? then
      Some(Play(OnlyArg(c, "path").value.s))
    else if c.command == "pause" && c.args.NoArgs? then Some(Pause)
    else if c.command == "resume" && c.args.NoArgs? then Some(Resume)
    else if c.command == "stop" && c.args.NoArgs? then Some(Stop)
    else if c.command == "seek" && OnlyArg(c, "seconds").Some? && OnlyArg(c, "seconds").value.Num? then
      Some(Seek(OnlyArg(c, "seconds").value.n))
    else if c.command == "set_volume" && OnlyArg(c, "volume").Some? && OnlyArg(c, "volume").value.Num? then
      Some(SetVolume(OnlyArg(c, "volume").value.n))
    else None
  }

  /** The logged command determines the intent: nothing is lost, clamped or rounded. */
  lemma CommandRoundTrip(i: Intent)
    ensures IntentOf(CommandFor(i)) == Some(i)
  {
  }

  /** Every command that reads back as an intent is the one that intent sends. */
  lemma IntentRoundTrip(c: Call)
    ensures IntentOf(c).Some? ==> CommandFor(IntentOf(c).value) == c
  {
  }

  /** Distinct intents send distinct commands. */
  lemma CommandForInjective(i: Intent, j: Intent)
    ensures CommandFor(i) == CommandFor(j) ==> i == j
  {
    CommandRoundTrip(i);
    CommandRoundTrip(j);
  }

  /** Sending an intent logs exactly its command and hands back the backend's answer. */
  method Send(backend: Backend, i: Intent) returns (r: Response)
    modifies backend
    ensures backend.log == old(backend.log) + [CommandFor(i)]
    ensures r == old(backend.Peek(0))
    ensures backend.script == Rest(old(backend.script))
  {
    r := backend.Invoke(CommandFor(i));
  }
}
