/**
 * Text helpers of the database layer: the `LIKE '%q%'` match used by the
 * filtered queries, and the `?` placeholder lists of the `IN (...)` deletes.
 */
module SqlText {

  /** ASCII lower-casing, the only case folding SQLite's `LIKE` applies. */
  function Lower(c: char): (d: char)
    ensures !('A' <= d <= 'Z')
    ensures d != c ==> 'A' <= c <= 'Z'
    ensures 'a' <= d <= 'z' <==> 'a' <= c <= 'z' || 'A' <= c <= 'Z'
  {
    if 'A' <= c <= 'Z' then (c as int + 32) as char else c
  }

  function LowerAll(s: string): (r: string)
    ensures |r| == |s| && forall i :: 0 <= i < |s| ==> r[i] == Lower(s[i])
  {
    seq(|s|, i requires 0 <= i < |s| => Lower(s[i]))
  }

  /** Whether `p` occurs in `s` starting at position 0. */
  predicate StartsWith(s: string, p: string)
  {
    |p| <= |s| && s[..|p|] == p
  }

  /** Whether `p` occurs somewhere in `s`, scanning from the left. */
  predicate Contains(s: string, p: string)
    decreases |s|
  {
    StartsWith(s, p) || (|s| > 0 && Contains(s[1..], p))
  }

  /** Whether `p` occurs in `s` at offset `i`. */
  predicate OccursAt(s: string, p: string, i: int)
  {
    0 <= i && i + |p| <= |s| && s[i..i + |p|] == p
  }

  /** `Contains` means an occurrence at some offset. */
  lemma {:induction false} ContainsAt(s: string, p: string)
    ensures Contains(s, p) <==> exists i :: OccursAt(s, p, i)
    decreases |s|
  {
    if StartsWith(s, p) {
      assert OccursAt(s, p, 0);
    }
    if |s| > 0 {
      ContainsAt(s[1..], p);
      if exists i :: OccursAt(s[1..], p, i) {
        var i :| OccursAt(s[1..], p, i);
        assert s[i + 1..i + 1 + |p|] == s[1..][i..i + |p|];
        assert OccursAt(s, p, i + 1);
      }
      if exists i :: OccursAt(s, p, i) {
        var i :| OccursAt(s, p, i);
        if i > 0 {
          assert s[1..][i - 1..i - 1 + |p|] == s[i..i + |p|];
          assert OccursAt(s[1..], p, i - 1);
        } else {
          assert StartsWith(s, p);
        }
      }
    } else {
      if exists i :: OccursAt(s, p, i) {
        var i :| OccursAt(s, p, i);
        assert i == 0 && p == [];
        assert StartsWith(s, p);
      }
    }
  }

  /**
   * `text LIKE '%q%'`: `q` occurs in `text` ignoring ASCII case. Wildcard
   * characters inside `q` are taken literally.
   */
  predicate LikeSubstring(text: string, q: string)
  {
    Contains(LowerAll(text), LowerAll(q))
  }

  /** The empty filter `'%%'` matches every text. */
  lemma EmptyFilterMatchesAll(text: string)
    ensures LikeSubstring(text, "")
  {
    assert StartsWith(LowerAll(text), LowerAll(""));
  }

  /** Joins `parts` with `sep` between consecutive parts. */
  function Join(parts: seq<string>, sep: string): string
    decreases |parts|
  {
    if parts == [] then ""
    else if |parts| == 1 then parts[0]
    else Join(parts[..|parts| - 1], sep) + sep + parts[|parts| - 1]
  }

  /** `n` question marks joined by commas. */
  function Placeholders(n: nat): string
  {
    Join(seq(n, _ => "?"), ",")
  }

  /** How many times `c` occurs in `s`. */
  function Count(s: string, c: char): nat
    decreases |s|
  {
    if s == [] then 0 else Count(s[..|s| - 1], c) + (if s[|s| - 1] == c then 1 else 0)
  }

  lemma {:induction false} CountAppend(a: string, b: string, c: char)
    ensures Count(a + b, c) == Count(a, c) + Count(b, c)
    decreases |b|
  {
    if b == [] {
      assert a + b == a;
    } else {
      assert (a + b)[..|a + b| - 1] == a + b[..|b| - 1];
      CountAppend(a, b[..|b| - 1], c);
    }
  }

  /** One more id adds `,?` to the end of the list. */
  lemma PlaceholdersStep(n: nat)
    requires n >= 2
    ensures Placeholders(n) == Placeholders(n - 1) + ",?"
  {
    var parts := seq(n, _ => "?");
    assert parts[..n - 1] == seq(n - 1, _ => "?");
  }

  /** For n >= 1 the placeholder list has length 2n - 1 and exactly n `?`. */
  lemma {:induction false} PlaceholdersCount(n: nat)
    requires n >= 1
    ensures |Placeholders(n)| == 2 * n - 1
    ensures Count(Placeholders(n), '?') == n
    decreases n
  {
    if n == 1 {
      assert Placeholders(1) == "?";
      assert "?"[..0] == "";
    } else {
      PlaceholdersCount(n - 1);
      PlaceholdersStep(n);
      CountAppend(Placeholders(n - 1), ",?", '?');
      assert Count(",?", '?') == 1 by {
        assert ",?"[..1] == ",";
        assert ","[..0] == "";
      }
    }
  }

  /** The placeholders alternate: `?` at every even position and `,` at every odd one. */
  lemma {:induction false} PlaceholdersAlternate(n: nat)
    requires n >= 1
    ensures |Placeholders(n)| == 2 * n - 1
    ensures forall k :: 0 <= k < n ==> Placeholders(n)[2 * k] == '?'
    ensures forall k :: 0 <= k < n - 1 ==> Placeholders(n)[2 * k + 1] == ','
    decreases n
  {
    PlaceholdersCount(n);
    if n == 1 {
      assert Placeholders(1) == "?";
    } else {
      PlaceholdersAlternate(n - 1);
      PlaceholdersStep(n);
      var prev := Placeholders(n - 1);
      var s := Placeholders(n);
      assert s == prev + ",?";
      assert forall i :: 0 <= i < |prev| ==> s[i] == prev[i];
    }
  }

  /** No ids means no placeholders: the deletes return before building a statement. */
  lemma PlaceholdersEmpty()
    ensures Placeholders(0) == ""
  {
  }
}
