/** The leaderboard view: score items ordered by `completed`, highest first,
    with equal scores left in document order (Python's `sorted` is stable,
    also under `reverse=True`). */
module Leaderboard {
  import opened Outcomes
  import opened ScoreBoard

  /** Every item has the `completed` counter the sort key reads. */
  predicate Ranked(s: Board)
  {
    forall i :: 0 <= i < |s| ==> Completed in s[i].counts
  }

  /** The sort key, `x[1]['completed']`; it is only consulted on ranked
      boards, where the counter is present. */
  function Score(e: ScoreEntry): int
  {
    if Completed in e.counts then e.counts[Completed] else 0
  }

  /** Non-increasing in the sort key. */
  predicate Descending(s: Board)
  {
    forall i, j :: 0 <= i < j < |s| ==> Score(s[i]) >= Score(s[j])
  }

  /** The items whose key is `k`, in the order they occur. */
  function WithScore(s: Board, k: int): (r: Board)
    ensures forall i :: 0 <= i < |r| ==> r[i] in s && Score(r[i]) == k
    decreases |s|
  {
    if s == [] then []
    else (if Score(s[0]) == k then [s[0]] else []) + WithScore(s[1..], k)
  }

  /** `r` is the stable descending sort of `s`: ordered by key, and for each key
      value the items carrying it appear in exactly their original order. */
  ghost predicate StablySorted(r: Board, s: Board)
  {
    && Descending(r)
    && forall k :: WithScore(r, k) == WithScore(s, k)
  }

  /** Places `e` in front of the first item whose key does not exceed its own. */
  function Insert(e: ScoreEntry, s: Board): (r: Board)
    ensures multiset(r) == multiset(s) + multiset{e}
    decreases |s|
  {
    if s == [] then [e]
    else if Score(s[0]) <= Score(e) then [e] + s
    else
      assert s == [s[0]] + s[1..];
      [s[0]] + Insert(e, s[1..])
  }

  /** Inserting into a descending board keeps it descending. */
  lemma {:induction false} InsertDescending(e: ScoreEntry, s: Board)
    requires Descending(s)
    ensures Descending(Insert(e, s))
    decreases |s|
  {
    if s != [] && Score(s[0]) > Score(e) {
      var rest := Insert(e, s[1..]);
      InsertDescending(e, s[1..]);
      forall i | 0 <= i < |rest|
        ensures Score(s[0]) >= Score(rest[i])
      {
        assert rest[i] in multiset(rest);
        assert rest[i] == e || rest[i] in multiset(s[1..]);
      }
    }
  }

  /** Insertion sort, taking items front to back: a descending permutation. */
  function Sort(s: Board): (r: Board)
    ensures multiset(r) == multiset(s)
    ensures Descending(r)
    decreases |s|
  {
    if s == [] then []
    else
      assert s == [s[0]] + s[1..];
      InsertDescending(s[0], Sort(s[1..]));
      Insert(s[0], Sort(s[1..]))
  }

  /** Filtering by key passes over a concatenation piecewise. */
  lemma {:induction false} WithScoreConcat(a: Board, b: Board, k: int)
    ensures WithScore(a + b, k) == WithScore(a, k) + WithScore(b, k)
    decreases |a|
  {
    if a == [] {
      assert a + b == b;
    } else {
      assert (a + b)[1..] == a[1..] + b;
      WithScoreConcat(a[1..], b, k);
    }
  }

  /** Inserting `e` puts it before every item of equal key: the key-`k`
      sub-sequence gains `e` at its front, or is untouched. */
  lemma {:induction false} InsertWithScore(e: ScoreEntry, s: Board, k: int)
    ensures WithScore(Insert(e, s), k) == (if Score(e) == k then [e] else []) + WithScore(s, k)
    decreases |s|
  {
    if s == [] {
    } else if Score(s[0]) <= Score(e) {
      WithScoreConcat([e], s, k);
    } else {
      InsertWithScore(e, s[1..], k);
      WithScoreConcat([s[0]], Insert(e, s[1..]), k);
    }
  }

  /** The sort is stable: each key's items keep their relative order. */
  lemma {:induction false} SortStable(s: Board, k: int)
    ensures WithScore(Sort(s), k) == WithScore(s, k)
    decreases |s|
  {
    if s != [] {
      SortStable(s[1..], k);
      InsertWithScore(s[0], Sort(s[1..]), k);
    }
  }

  /** Any item of `s` with key `k` shows up in the key-`k` sub-sequence. */
  lemma {:induction false} WithScoreHas(s: Board, i: nat)
    requires i < |s|
    ensures WithScore(s, Score(s[i])) != []
    decreases |s|
  {
    if i > 0 {
      WithScoreHas(s[1..], i - 1);
    }
  }

  /** The head of a descending board carries its largest key. */
  lemma HeadIsHighest(t: Board, x: ScoreEntry)
    requires Descending(t) && x in t
    ensures Score(t[0]) >= Score(x)
  {
  }

  /** Dropping the head removes it from its own key's sub-sequence only. */
  lemma WithScoreTail(t: Board, k: int)
    requires t != []
    ensures Score(t[0]) == k ==> WithScore(t, k) == [t[0]] + WithScore(t[1..], k)
    ensures Score(t[0]) != k ==> WithScore(t, k) == WithScore(t[1..], k)
  {
  }

  /** Two descending boards that agree on every key's sub-sequence are equal:
      the stable descending order is unique. */
  lemma {:induction false} DescendingDetermined(t: Board, u: Board)
    requires Descending(t) && Descending(u)
    requires forall k :: WithScore(t, k) == WithScore(u, k)
    ensures t == u
    decreases |t|
  {
    if t == [] || u == [] {
      if t != [] {
        WithScoreHas(t, 0);
      } else if u != [] {
        WithScoreHas(u, 0);
      }
    } else {
      var a, b := Score(t[0]), Score(u[0]);
      WithScoreHas(u, 0);
      HeadIsHighest(t, WithScore(t, b)[0]);
      WithScoreHas(t, 0);
      HeadIsHighest(u, WithScore(u, a)[0]);
      WithScoreTail(t, a);
      WithScoreTail(u, a);
      forall k
        ensures WithScore(t[1..], k) == WithScore(u[1..], k)
      {
        WithScoreTail(t, k);
        WithScoreTail(u, k);
        if k == a {
          assert WithScore(t[1..], k) == WithScore(t, k)[1..];
          assert WithScore(u[1..], k) == WithScore(u, k)[1..];
        }
      }
      DescendingDetermined(t[1..], u[1..]);
      assert t == [t[0]] + t[1..];
      assert u == [u[0]] + u[1..];
    }
  }

  /** `Sort(s)` is the stable descending sort of `s`, and the only one. */
  lemma SortIsTheStableSort(s: Board, r: Board)
    ensures StablySorted(Sort(s), s)
    ensures StablySorted(r, s) <==> r == Sort(s)
  {
    forall k
      ensures WithScore(Sort(s), k) == WithScore(s, k)
    {
      SortStable(s, k);
    }
    if StablySorted(r, s) {
      DescendingDetermined(r, Sort(s));
    }
  }

  /** `sorted(scores.items(), key=lambda x: x[1]['completed'], reverse=True)`:
      a permutation of the items, highest `completed` first, ties in document
      order; an item without a `completed` counter makes the key lookup raise. */
  function Standings(b: Board): (r: Result<Board>)
    ensures r.Ok? <==> Ranked(b)
    ensures r.Err? ==> r.error == KeyError(Completed)
    ensures r.Ok? ==> multiset(r.value) == multiset(b)
    ensures r.Ok? ==> StablySorted(r.value, b)
  {
    if Ranked(b) then
      SortIsTheStableSort(b, Sort(b));
      Ok(Sort(b))
    else Err(KeyError(Completed))
  }

  /** Players A (3 completed), B (5) and C (1) are listed B, A, C. */
  lemma StandingsExample()
    ensures
      var a := ScoreEntry("A", map[Completed := 3, Skipped := 0]);
      var b := ScoreEntry("B", map[Completed := 5, Skipped := 0]);
      var c := ScoreEntry("C", map[Completed := 1, Skipped := 0]);
      Standings([a, b, c]) == Ok([b, a, c])
  {
    var a := ScoreEntry("A", map[Completed := 3, Skipped := 0]);
    var b := ScoreEntry("B", map[Completed := 5, Skipped := 0]);
    var c := ScoreEntry("C", map[Completed := 1, Skipped := 0]);
    assert Score(a) == 3 && Score(b) == 5 && Score(c) == 1;
    assert Sort([c]) == [c] by {
      assert [c][1..] == [];
    }
    assert Sort([b, c]) == [b, c] by {
      assert [b, c][1..] == [c];
      assert Insert(b, [c]) == [b, c];
    }
    assert Insert(a, [b, c]) == [b, a, c] by {
      assert [b, c][1..] == [c];
      assert Insert(a, [c]) == [a, c];
    }
    assert [a, b, c][1..] == [b, c];
    assert Sort([a, b, c]) == [b, a, c];
  }
}
