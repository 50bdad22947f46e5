/**
 * Start-up seeding of the default playlists: `create_playlist` is called for
 * each default name and its error, a name already in use, is ignored, so a
 * second start leaves the table as it was.
 */
module Seeding {
  import opened Types
  import opened Db
  import opened Operations

  const DefaultNames: seq<string> := ["Recent", "Favorites", "Default"]

  /** Whether `create_playlist(id, name)` would violate a UNIQUE column of `ps`. */
  predicate Taken(ps: seq<Playlist>, id: string, name: string)
  {
    exists i :: 0 <= i < |ps| && (ps[i].name == name || ps[i].id == id)
  }

  predicate HasName(ps: seq<Playlist>, name: string)
  {
    exists i :: 0 <= i < |ps| && ps[i].name == name
  }

  /** The playlists after one `create_playlist` whose error is ignored. */
  function CreateOrIgnore(ps: seq<Playlist>, id: string, name: string, now: string): (r: seq<Playlist>)
    ensures |ps| <= |r| <= |ps| + 1 && r[..|ps|] == ps
    ensures r == ps <==> Taken(ps, id, name)
    ensures |r| == |ps| + 1 ==> r[|ps|] == Playlist(id, name, now)
  {
    if Taken(ps, id, name) then ps else ps + [Playlist(id, name, now)]
  }

  /** An ignored-or-applied create keeps playlist ids and names unique. */
  lemma CreateOrIgnoreKeepsUnique(ps: seq<Playlist>, id: string, name: string, now: string)
    requires forall i, j :: 0 <= i < j < |ps| ==> ps[i].id != ps[j].id && ps[i].name != ps[j].name
    ensures var r := CreateOrIgnore(ps, id, name, now);
      forall i, j :: 0 <= i < j < |r| ==> r[i].id != r[j].id && r[i].name != r[j].name
  {
  }

  /** The playlists after creating `names[k]` under `ids[k]`, in order, ignoring errors. */
  function SeedNames(ps: seq<Playlist>, ids: seq<string>, names: seq<string>, now: string): seq<Playlist>
    requires |ids| == |names|
    decreases |names|
  {
    if names == [] then ps
    else CreateOrIgnore(SeedNames(ps, ids[..|ids| - 1], names[..|names| - 1], now), ids[|ids| - 1], names[|names| - 1], now)
  }

  /** Seeding never removes or reorders a playlist. */
  lemma {:induction false} SeedExtends(ps: seq<Playlist>, ids: seq<string>, names: seq<string>, now: string)
    requires |ids| == |names|
    ensures |SeedNames(ps, ids, names, now)| >= |ps| && SeedNames(ps, ids, names, now)[..|ps|] == ps
    decreases |names|
  {
    if names != [] {
      SeedExtends(ps, ids[..|ids| - 1], names[..|names| - 1], now);
    }
  }

  /** When every name is already present, seeding changes nothing. */
  lemma {:induction false} SeedAgainChangesNothing(ps: seq<Playlist>, ids: seq<string>, names: seq<string>, now: string)
    requires |ids| == |names|
    requires forall k :: 0 <= k < |names| ==> HasName(ps, names[k])
    ensures SeedNames(ps, ids, names, now) == ps
    decreases |names|
  {
    if names != [] {
      var n := |names| - 1;
      SeedAgainChangesNothing(ps, ids[..n], names[..n], now);
      assert HasName(ps, names[n]);
    }
  }

  /** Seeding an empty table with three distinct ids creates the three defaults, in order. */
  lemma SeedFresh(ids: seq<string>, now: string)
    requires |ids| == 3 && ids[0] != ids[1] && ids[0] != ids[2] && ids[1] != ids[2]
    ensures SeedNames([], ids, DefaultNames, now) == [Playlist(ids[0], "Recent", now), Playlist(ids[1], "Favorites", now), Playlist(ids[2], "Default", now)]
  {
    var p0, p1 := Playlist(ids[0], "Recent", now), Playlist(ids[1], "Favorites", now);
    assert SeedNames([], ids[..1], DefaultNames[..1], now) == [p0] by {
      assert ids[..1][..0] == [] && DefaultNames[..1][..0] == [];
    }
    assert ids[..2][..1] == ids[..1] && DefaultNames[..2][..1] == DefaultNames[..1];
    assert !Taken([p0], ids[1], "Favorites");
    assert SeedNames([], ids[..2], DefaultNames[..2], now) == [p0, p1];
    assert !Taken([p0, p1], ids[2], "Default");
  }

  /** Seeding one more name is one more `CreateOrIgnore`. */
  lemma SeedStep(ps: seq<Playlist>, ids: seq<string>, names: seq<string>, k: nat, now: string)
    requires |ids| == |names| && k < |names|
    ensures SeedNames(ps, ids[..k + 1], names[..k + 1], now) == CreateOrIgnore(SeedNames(ps, ids[..k], names[..k], now), ids[k], names[k], now)
  {
    assert ids[..k + 1][..k] == ids[..k] && names[..k + 1][..k] == names[..k];
  }

  /** The seeding loop: every default name in turn, each error ignored. */
  method Seed(db: Database, ids: seq<string>, now: string)
    requires db.Valid() && |ids| == |DefaultNames|
    modifies db
    ensures db.Valid()
    ensures db.playlists == SeedNames(old(db.playlists), ids, DefaultNames, now)
    ensures db.tracks == old(db.tracks) && db.folders == old(db.folders) && db.members == old(db.members)
  {
    for k := 0 to |DefaultNames|
      invariant db.Valid()
      invariant db.playlists == SeedNames(old(db.playlists), ids[..k], DefaultNames[..k], now)
      invariant db.tracks == old(db.tracks) && db.folders == old(db.folders) && db.members == old(db.members)
    {
      var before := db.playlists;
      var r := db.CreatePlaylist(ids[k], DefaultNames[k], now);
      SeedStep(old(db.playlists), ids, DefaultNames, k, now);
      assert db.playlists == CreateOrIgnore(before, ids[k], DefaultNames[k], now);
    }
    assert ids[..|DefaultNames|] == ids && DefaultNames[..|DefaultNames|] == DefaultNames;
  }

  /** Two starts of the application leave exactly the three default playlists. */
  method StartTwice(first: seq<string>, second: seq<string>, now: string) returns (listed: seq<Playlist>)
    requires |first| == 3 && first[0] != first[1] && first[0] != first[2] && first[1] != first[2]
    requires |second| == 3
    ensures listed == [Playlist(first[0], "Recent", now), Playlist(first[1], "Favorites", now), Playlist(first[2], "Default", now)]
  {
    var db := new Database();
    Seed(db, first, now);
    SeedFresh(first, now);
    var seeded := db.playlists;
    assert seeded[0].name == "Recent" && seeded[1].name == "Favorites" && seeded[2].name == "Default";
    assert forall k :: 0 <= k < |DefaultNames| ==> HasName(seeded, DefaultNames[k]) by {
      assert HasName(seeded, DefaultNames[0]) && HasName(seeded, DefaultNames[1]) && HasName(seeded, DefaultNames[2]);
    }
    SeedAgainChangesNothing(seeded, second, DefaultNames, now);
    Seed(db, second, now);
    listed := db.playlists;
  }
}
