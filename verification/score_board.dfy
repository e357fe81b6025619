/** The score document: each player's counters, kept in the order players
    first appeared (a Python `dict` iterates in insertion order). */
module ScoreBoard {
  import opened Outcomes

  /** A player's record, counter name to count. */
  type Counts = map<string, int>

  /** One `(player, record)` item of the document. */
  datatype ScoreEntry = ScoreEntry(player: string, counts: Counts)

  type Board = seq<ScoreEntry>

  const Completed := "completed"
  const Skipped := "skipped"

  /** The default `setdefault` installs for a player seen for the first time. */
  const FreshCounts: Counts := map[Completed := 0, Skipped := 0]

  /** Position of the player's item, the first one if several carry the name. */
  function Find(b: Board, player: string): (r: Option<nat>)
    ensures r.Some? ==> r.value < |b| && b[r.value].player == player
    ensures r.Some? ==> forall j :: 0 <= j < r.value ==> b[j].player != player
    ensures r.None? ==> forall j :: 0 <= j < |b| ==> b[j].player != player
    decreases |b|
  {
    if b == [] then None
    else if b[0].player == player then Some(0)
    else match Find(b[1..], player)
      case None => None
      case Some(i) => Some(i + 1)
  }

  /** `scores.get(player)`. */
  function Get(b: Board, player: string): Option<Counts>
  {
    match Find(b, player)
    case None => None
    case Some(i) => Some(b[i].counts)
  }

  /** The record `scores.setdefault(player, ...)` hands back. */
  function RecordOf(b: Board, player: string): Counts
  {
    match Get(b, player)
    case None => FreshCounts
    case Some(c) => c
  }

  /** What `Find` returns is the first position carrying the name. */
  lemma FindFirst(b: Board, player: string, i: nat)
    requires i < |b| && b[i].player == player
    requires forall j :: 0 <= j < i ==> b[j].player != player
    ensures Find(b, player) == Some(i)
  {
  }

  /** Two boards listing the same players in the same order locate everyone alike. */
  lemma FindSamePlayers(b: Board, b': Board, player: string)
    requires |b| == |b'|
    requires forall j :: 0 <= j < |b| ==> b[j].player == b'[j].player
    ensures Find(b, player) == Find(b', player)
  {
  }

  /** Appending someone else's item does not move anyone already present. */
  lemma FindAppendOther(b: Board, e: ScoreEntry, player: string)
    requires e.player != player
    ensures Find(b + [e], player) == Find(b, player)
  {
    match Find(b, player)
    case None =>
    case Some(i) => FindFirst(b + [e], player, i);
  }

  /** `scores.setdefault(player, {"completed": 0, "skipped": 0})` followed by
      `scores[player][result] += 1`: a new player is appended with both counters
      at zero, then exactly the named counter rises by one. A `result` that is
      not already a counter of the record is a `KeyError` and nothing is kept. */
  function Increment(b: Board, player: string, result: string): (r: Result<Board>)
    ensures r.Ok? <==> result in RecordOf(b, player)
    ensures r.Err? ==> r.error == KeyError(result)
    ensures r.Ok? ==> Get(r.value, player).Some?
    ensures r.Ok? ==> Get(r.value, player).value.Keys == RecordOf(b, player).Keys
    ensures r.Ok? ==> Get(r.value, player).value[result] == RecordOf(b, player)[result] + 1
    ensures r.Ok? ==> forall k :: k in RecordOf(b, player) && k != result ==>
                        Get(r.value, player).value[k] == RecordOf(b, player)[k]
    ensures r.Ok? ==> forall p :: p != player ==> Get(r.value, p) == Get(b, p)
    ensures r.Ok? ==> |r.value| == if Get(b, player).Some? then |b| else |b| + 1
    ensures r.Ok? ==> forall i :: 0 <= i < |b| && b[i].player != player ==> r.value[i] == b[i]
    ensures r.Ok? ==> forall i :: 0 <= i < |b| ==> r.value[i].player == b[i].player
    ensures r.Ok? && Get(b, player).None? ==> r.value[|b|].player == player
  {
    var found := Find(b, player);
    var b1 := if found.Some? then b else b + [ScoreEntry(player, FreshCounts)];
    var k := if found.Some? then found.value else |b|;
    var c := b1[k].counts;
    if result !in c then Err(KeyError(result))
    else
      var after := b1[k := ScoreEntry(player, c[result := c[result] + 1])];
      FindSamePlayers(b1, after, player);
      if found.None? then
        FindFirst(b1, player, |b|);
        assert after == b + [ScoreEntry(player, c[result := c[result] + 1])];
        forall p | p != player
          ensures Get(after, p) == Get(b, p)
        {
          FindAppendOther(b, ScoreEntry(player, c[result := c[result] + 1]), p);
        }
        Ok(after)
      else
        forall p | p != player
          ensures Get(after, p) == Get(b, p)
        {
          FindSamePlayers(b, after, p);
        }
        Ok(after)
  }

  /** A record as the game creates it: exactly the two counters, never negative. */
  predicate WellFormedCounts(c: Counts)
  {
    && c.Keys == {Completed, Skipped}
    && forall k :: k in c ==> c[k] >= 0
  }

  /** Every player listed once, every record well formed. */
  predicate WellFormed(b: Board)
  {
    && (forall i, j :: 0 <= i < j < |b| ==> b[i].player != b[j].player)
    && (forall i :: 0 <= i < |b| ==> WellFormedCounts(b[i].counts))
  }

  /** On a well-formed board the record of any player is well formed. */
  lemma RecordOfWellFormed(b: Board, player: string)
    requires WellFormed(b)
    ensures WellFormedCounts(RecordOf(b, player))
  {
  }

  /** On a well-formed board a submission succeeds exactly for the two
      counters the game knows; any other `result` raises. */
  lemma IncrementSucceedsIff(b: Board, player: string, result: string)
    requires WellFormed(b)
    ensures Increment(b, player, result).Ok? <==> result == Completed || result == Skipped
  {
  }

  /** A successful submission keeps the board well formed. */
  lemma IncrementPreservesWellFormed(b: Board, player: string, result: string)
    requires WellFormed(b)
    requires Increment(b, player, result).Ok?
    ensures WellFormed(Increment(b, player, result).value)
  {
  }

  /** A successful increment keeps every earlier item in place and lowers no count. */
  lemma IncrementExtends(b: Board, player: string, result: string)
    requires Increment(b, player, result).Ok?
    ensures var b' := Increment(b, player, result).value;
            && |b| <= |b'|
            && (forall i :: 0 <= i < |b| ==> b'[i].player == b[i].player)
            && (forall i :: 0 <= i < |b| ==> b'[i].counts.Keys == b[i].counts.Keys)
            && (forall i, k :: 0 <= i < |b| && k in b[i].counts ==> b'[i].counts[k] >= b[i].counts[k])
  {
  }
}
