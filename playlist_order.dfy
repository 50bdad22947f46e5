/**
 * `ORDER BY name` over the playlists table. SQLite compares text with its
 * default BINARY collation, which for valid UTF-8 is the lexicographic order
 * of code points; `SortByName` is an insertion sort by that order.
 */
module PlaylistOrder {
  import opened Types

  /** Lexicographic order of code points, a prefix sorting first. */
  predicate LexLe(a: string, b: string)
    decreases |a|
  {
    a == [] || (b != [] && (a[0] < b[0] || (a[0] == b[0] && LexLe(a[1..], b[1..]))))
  }

  lemma {:induction false} LexLeTotal(a: string, b: string)
    ensures LexLe(a, b) || LexLe(b, a)
    decreases |a|
  {
    if a != [] && b != [] && a[0] == b[0] {
      LexLeTotal(a[1..], b[1..]);
    }
  }

  lemma {:induction false} LexLeTrans(a: string, b: string, c: string)
    requires LexLe(a, b) && LexLe(b, c)
    ensures LexLe(a, c)
    decreases |a|
  {
    if a != [] && a[0] == b[0] && b[0] == c[0] {
      LexLeTrans(a[1..], b[1..], c[1..]);
    }
  }

  lemma {:induction false} LexLeAntisym(a: string, b: string)
    requires LexLe(a, b) && LexLe(b, a)
    ensures a == b
    decreases |a|
  {
    if a != [] {
      LexLeAntisym(a[1..], b[1..]);
      assert a == [a[0]] + a[1..] && b == [b[0]] + b[1..];
    }
  }

  ghost predicate SortedByName(ps: seq<Playlist>)
  {
    forall i, j :: 0 <= i < j < |ps| ==> LexLe(ps[i].name, ps[j].name)
  }

  /** Inserts `p` before the first playlist whose name does not sort before it. */
  function Insert(p: Playlist, sorted: seq<Playlist>): (r: seq<Playlist>)
    ensures multiset(r) == multiset(sorted) + multiset{p}
    decreases |sorted|
  {
    if sorted == [] then [p]
    else if LexLe(p.name, sorted[0].name) then [p] + sorted
    else
      var rest := Insert(p, sorted[1..]);
      assert sorted == [sorted[0]] + sorted[1..];
      [sorted[0]] + rest
  }

  /** A sorted sequence stays sorted under a new head that sorts before all of it. */
  lemma ConsSorted(h: Playlist, t: seq<Playlist>)
    requires SortedByName(t)
    requires forall i :: 0 <= i < |t| ==> LexLe(h.name, t[i].name)
    ensures SortedByName([h] + t)
  {
    var r := [h] + t;
    forall i, j | 0 <= i < j < |r|
      ensures LexLe(r[i].name, r[j].name)
    {
      if i > 0 {
        assert r[i] == t[i - 1];
      }
      assert r[j] == t[j - 1];
    }
  }

  /** A lower bound of `p` and of every element of `sorted` bounds every element of the insertion. */
  lemma InsertBound(b: string, p: Playlist, sorted: seq<Playlist>)
    requires LexLe(b, p.name)
    requires forall i :: 0 <= i < |sorted| ==> LexLe(b, sorted[i].name)
    ensures forall i :: 0 <= i < |Insert(p, sorted)| ==> LexLe(b, Insert(p, sorted)[i].name)
  {
    var r := Insert(p, sorted);
    forall i | 0 <= i < |r|
      ensures LexLe(b, r[i].name)
    {
      assert r[i] in multiset(r);
      if r[i] != p {
        assert r[i] in multiset(sorted);
        var k :| 0 <= k < |sorted| && sorted[k] == r[i];
      }
    }
  }

  lemma {:induction false} InsertSorted(p: Playlist, sorted: seq<Playlist>)
    requires SortedByName(sorted)
    ensures SortedByName(Insert(p, sorted))
    decreases |sorted|
  {
    if sorted == [] {
    } else if LexLe(p.name, sorted[0].name) {
      forall i | 0 <= i < |sorted|
        ensures LexLe(p.name, sorted[i].name)
      {
        if i > 0 {
          LexLeTrans(p.name, sorted[0].name, sorted[i].name);
        }
      }
      ConsSorted(p, sorted);
    } else {
      var tail := sorted[1..];
      assert SortedByName(tail) by {
        assert forall i :: 0 <= i < |tail| ==> tail[i] == sorted[i + 1];
      }
      InsertSorted(p, tail);
      LexLeTotal(p.name, sorted[0].name);
      assert forall i :: 0 <= i < |tail| ==> LexLe(sorted[0].name, tail[i].name) by {
        assert forall i :: 0 <= i < |tail| ==> tail[i] == sorted[i + 1];
      }
      InsertBound(sorted[0].name, p, tail);
      ConsSorted(sorted[0], Insert(p, tail));
    }
  }

  /** The playlists ordered by name. */
  function SortByName(ps: seq<Playlist>): seq<Playlist>
    decreases |ps|
  {
    if ps == [] then [] else Insert(ps[0], SortByName(ps[1..]))
  }

  /** The result is ordered by name. */
  lemma {:induction false} SortByNameSorted(ps: seq<Playlist>)
    ensures SortedByName(SortByName(ps))
    decreases |ps|
  {
    if ps != [] {
      SortByNameSorted(ps[1..]);
      InsertSorted(ps[0], SortByName(ps[1..]));
    }
  }

  /** The result holds exactly the table's playlists. */
  lemma {:induction false} SortByNamePermutes(ps: seq<Playlist>)
    ensures multiset(SortByName(ps)) == multiset(ps)
    decreases |ps|
  {
    if ps != [] {
      SortByNamePermutes(ps[1..]);
      assert multiset(SortByName(ps)) == multiset(SortByName(ps[1..])) + multiset{ps[0]};
      assert ps == [ps[0]] + ps[1..];
    }
  }
}
