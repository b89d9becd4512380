/** The display order: `[...episodes].sort((a, b) => b.episode - a.episode)`.
    The engine's sort is stable, so it is defined here by a stable insertion
    sort with the same comparator. */
module Ordering {

  import opened Episodes

  predicate SortedDesc(s: seq<Episode>) {
    forall i, j :: 0 <= i < j < |s| ==> s[i].episode >= s[j].episode
  }

  /** The episodes of `s` numbered `n`, in their order in `s`. */
  function WithNumber(s: seq<Episode>, n: int): seq<Episode> {
    if s == [] then []
    else (if s[0].episode == n then [s[0]] else []) + WithNumber(s[1..], n)
  }

  /** Places `x` before the first element whose number is not above its own. */
  function Insert(x: Episode, s: seq<Episode>): (r: seq<Episode>)
    ensures multiset(r) == multiset(s) + multiset{x}
    ensures |r| == |s| + 1 && (r[0] == x || (s != [] && r[0] == s[0]))
  {
    if s == [] || s[0].episode <= x.episode then [x] + s
    else
      assert s == [s[0]] + s[1..];
      [s[0]] + Insert(x, s[1..])
  }

  /** Inserting into a descending sequence keeps it descending. */
  lemma {:induction false} InsertSorted(x: Episode, s: seq<Episode>)
    requires SortedDesc(s)
    ensures SortedDesc(Insert(x, s))
  {
    if s != [] && s[0].episode > x.episode {
      var rest := Insert(x, s[1..]);
      InsertSorted(x, s[1..]);
      assert rest[0].episode <= s[0].episode;
      var r := [s[0]] + rest;
      forall i, j | 0 <= i < j < |r| ensures r[i].episode >= r[j].episode {
        if i == 0 {
          assert r[j] == rest[j - 1];
          assert rest[j - 1].episode <= rest[0].episode;
        } else {
          assert r[i] == rest[i - 1] && r[j] == rest[j - 1];
        }
      }
    }
  }

  /** The sorted copy: descending by number and a permutation of the input. */
  function SortByEpisodeDesc(s: seq<Episode>): (r: seq<Episode>)
    ensures SortedDesc(r)
    ensures multiset(r) == multiset(s) && |r| == |s|
  {
    if s == [] then []
    else
      assert s == [s[0]] + s[1..];
      InsertSorted(s[0], SortByEpisodeDesc(s[1..]));
      Insert(s[0], SortByEpisodeDesc(s[1..]))
  }

  lemma WithNumberCons(x: Episode, s: seq<Episode>, n: int)
    ensures WithNumber([x] + s, n) == (if x.episode == n then [x] else []) + WithNumber(s, n)
  {
    assert ([x] + s)[0] == x && ([x] + s)[1..] == s;
  }

  /** Inserting `x` puts it ahead of every element of `s` with its number. */
  lemma {:induction false} InsertStable(x: Episode, s: seq<Episode>, n: int)
    ensures WithNumber(Insert(x, s), n) == (if x.episode == n then [x] else []) + WithNumber(s, n)
  {
    if s == [] || s[0].episode <= x.episode {
      WithNumberCons(x, s, n);
    } else {
      var rest := Insert(x, s[1..]);
      assert s == [s[0]] + s[1..];
      WithNumberCons(s[0], rest, n);
      WithNumberCons(s[0], s[1..], n);
      InsertStable(x, s[1..], n);
    }
  }

  /** Stability: episodes sharing a number keep their input order. */
  lemma {:induction false} SortIsStable(s: seq<Episode>, n: int)
    ensures WithNumber(SortByEpisodeDesc(s), n) == WithNumber(s, n)
  {
    if s != [] {
      SortIsStable(s[1..], n);
      InsertStable(s[0], SortByEpisodeDesc(s[1..]), n);
    }
  }

  /** Episodes numbered 1, 3, 2 are shown as 3, 2, 1. */
  lemma SortExample(a: Episode, b: Episode, c: Episode)
    requires a.episode == 1 && b.episode == 3 && c.episode == 2
    ensures SortByEpisodeDesc([a, b, c]) == [b, c, a]
  {
    assert [a, b, c][1..] == [b, c] && [b, c][1..] == [c] && [c][1..] == [];
    assert SortByEpisodeDesc([c]) == [c];
    assert Insert(b, [c]) == [b, c];
    assert SortByEpisodeDesc([b, c]) == [b, c];
    assert Insert(a, [c]) == [c, a];
    assert Insert(a, [b, c]) == [b] + Insert(a, [c]);
  }
}
