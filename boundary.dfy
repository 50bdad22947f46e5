/**
 * The asynchronous command boundary (`invoke`), replaced by a scripted backend:
 * every call is appended to a log and answered by the next scripted response.
 */
module Boundary {
  import opened Types

  /** The JSON values the hooks pass as command arguments. */
  datatype Value =
    | Str(s: string)
    | Num(n: real)
    | Strs(ss: seq<string>)
    | Ints(ns: seq<int>)
    | Undefined

  /** `invoke(name)` carries no argument object; `invoke(name, {...})` carries named fields. */
  datatype Args = NoArgs | Fields(fields: seq<(string, Value)>)

  datatype Call = Call(command: string, args: Args)

  /** What a successful command resolves with. */
  datatype Reply =
    | Done
    | NewId(id: string)
    | Playlists(playlists: seq<Playlist>)
    | Tracks(tracks: seq<Track>)
    | Folders(folders: seq<LocalFolder>)

  /** A settled `invoke`: resolved with a reply, or rejected with the failure's string form. */
  datatype Response = Ok(reply: Reply) | Err(message: string)

  /** The answer of a backend whose script has run out. */
  const Unscripted: string := "no scripted response"

  /** An optional string argument: `undefined` when the caller omitted it. */
  function Optional(o: Option<string>): (v: Value)
    ensures o.None? <==> v == Undefined
    ensures o.Some? ==> v == Str(o.value)
  {
    match o
    case None => Undefined
    case Some(s) => Str(s)
  }

  /** The script after one response has been consumed. */
  function Rest(script: seq<Response>): (r: seq<Response>)
    ensures script != [] ==> script == [script[0]] + r
    ensures script == [] ==> r == []
  {
    if script == [] then [] else script[1..]
  }

  /** Shapes a fetch relies on: a success must carry the list the caller asked for. */
  predicate GivesPlaylists(r: Response) { r.Ok? ==> r.reply.Playlists? }
  predicate GivesTracks(r: Response) { r.Ok? ==> r.reply.Tracks? }
  predicate GivesFolders(r: Response) { r.Ok? ==> r.reply.Folders? }

  class Backend {
    /** Every command issued so far, oldest first. */
    var log: seq<Call>
    /** The responses still to be given, next first. */
    var script: seq<Response>

    constructor (script: seq<Response>)
      ensures log == [] && this.script == script
    {
      log := [];
      this.script := script;
    }

    /** The response the k-th next call will receive. */
    function Peek(k: nat): (r: Response)
      reads this
      ensures k < |script| ==> r == script[k]
      ensures |script| <= k ==> r == Err(Unscripted)
    {
      if k < |script| then script[k] else Err(Unscripted)
    }

    /** `invoke`: record the call and answer with the next scripted response. */
    method Invoke(c: Call) returns (r: Response)
      modifies this
      ensures log == old(log) + [c]
      ensures r == old(Peek(0))
      ensures script == Rest(old(script))
      ensures Peek(0) == old(Peek(1))
    {
      log := log + [c];
      if script == [] {
        r := Err(Unscripted);
      } else {
        r := script[0];
        script := script[1..];
      }
    }
  }
}
