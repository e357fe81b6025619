# Truth or Dare game state, modelled in Dafny

The application is a small web game. Players pick a category ("truth" or
"dare") and get a random prompt. They then record whether they completed or
skipped it, and they can view a leaderboard and an activity log. Every HTTP
handler loads one or more of three persisted documents, changes them and
saves them back:

- **questions**: category name to the ordered list of prompts
  (`QuestionSet.Questions`);
- **scores**: player name to a record of named counters, iterated in
  insertion order (`ScoreBoard.Board`, a sequence of `(player, counts)`
  items);
- **activity log**: an append-only sequence of
  `(timestamp, player, action, detail)` entries (`ActivityLog.Entry`).

The model drops the web and file layers. What remains is a pure state
machine (`Game.State`):

- Each handler is a function from a state to the next state, or to the
  `KeyError` it raises (`Outcomes.Result`).
- `Game.Step` puts the handlers behind one request type and shows what the
  server answers.
- `Game.Run` handles a sequence of requests and carries the invariants.
- The random draw of `random.choice` is a `pick` index. It must be in range
  whenever the list is non-empty.
- The clock reading of `datetime.now()` is an opaque `now` string.

Files: `outcomes.dfy` (Option/Result/Error), `activity_log.dfy`,
`question_set.dfy`, `score_board.dfy`, `leaderboard.dfy`, `game.dfy`.

Two behaviours of the code are easy to misread:

- `submit` does `scores[player][result] += 1` on a record that holds only
  `completed` and `skipped`. A `result` other than an existing counter raises
  `KeyError`, no counter is created and nothing is saved.
  `ScoreBoard.Increment` and `ScoreBoard.IncrementSucceedsIff` state this.
- `play` uses `questions.get(choice, [])`, so a missing category gives the
  same notice as an empty one.

## Model

| member | source | states |
|---|---|---|
| ActivityLog.LogActivity | code/app.py:55-63 | the log grows by exactly one entry, at the end, carrying the given timestamp, player, action and detail; every earlier entry is unchanged |
| ActivityLog.ShowLogs | code/app.py:109 | the logs page has the same length as the log, and position i shows the stored entry at position n-1-i |
| ActivityLog.ShowLogsInvolution | code/app.py:109 | reversing the logs view again gives back the stored log exactly |
| ActivityLog.ShowLogsConcat | code/app.py:109 | the view of older-then-newer entries is the view of the newer ones followed by the view of the older ones |
| ActivityLog.NewestFirst | code/app.py:55-63 | after log_activity, the logs page shows the new entry first, followed by the previous page unchanged |
| QuestionSet.AddPrompt | code/app.py:95 | appending succeeds exactly when the category exists; that list grows by one with the new prompt last; other categories and the key set are unchanged; an unknown category is KeyError(choice) |
| ScoreBoard.Find | code/app.py:82 | locates the first item carrying the player's name, or reports that no item carries it |
| ScoreBoard.Increment | code/app.py:82-83 | succeeds exactly when result names a counter of the player's record, which is a fresh {completed: 0, skipped: 0} for a new player; exactly that counter rises by 1; no counter is created; other players' records and all positions are unchanged; a new player is appended last; otherwise KeyError(result) |
| ScoreBoard.IncrementSucceedsIff | code/app.py:82-83 | on a well-formed board a submission succeeds if and only if result is "completed" or "skipped" |
| ScoreBoard.IncrementPreservesWellFormed | code/app.py:82-83 | a successful submission keeps every player listed once and every record exactly {completed, skipped} with non-negative counts |
| Leaderboard.Insert | code/app.py:103 | insertion adds exactly the one item: the result's multiset is the input's plus that item |
| Leaderboard.InsertDescending | code/app.py:103 | inserting into a board ordered by completed, highest first, keeps it so ordered |
| Leaderboard.Sort | code/app.py:103 | the sorted board is a permutation of the input and is non-increasing in completed |
| Leaderboard.InsertWithScore | code/app.py:103 | an inserted item lands before every item with an equal key, so its key's sub-sequence gains it at the front and other keys' sub-sequences are untouched |
| Leaderboard.SortStable | code/app.py:103 | for every completed value, the items with that value keep their relative input order (stability under reverse=True) |
| Leaderboard.DescendingDetermined | code/app.py:103 | two descending boards that agree on every key's sub-sequence are equal, so a stable descending sort has only one possible result |
| Leaderboard.SortIsTheStableSort | code/app.py:103 | Sort(s) is a stable descending sort of s, and any board that is one equals Sort(s) |
| Leaderboard.Standings | code/app.py:103 | the leaderboard succeeds exactly when every record has a completed counter; it is then a permutation of the items, non-increasing in completed, ties in document order; otherwise KeyError("completed") |
| Leaderboard.StandingsExample | code/app.py:103 | A with 3 completed, B with 5 and C with 1 are listed B, A, C |
| Game.Play | code/app.py:69-77 | a missing or empty category answers "No <choice> questions found. Please add some first." and leaves the state untouched; otherwise the drawn prompt is an element of the category's current list at the drawn index, questions and scores are unchanged, and exactly one "play" entry with detail "Selected <choice>: <prompt>" is appended |
| Game.Submit | code/app.py:79-86 | succeeds exactly when result is a counter of the player's (possibly fresh) record; scores change as Increment says; questions are unchanged; one "submit" entry "<result> a <choice> question" is appended; otherwise KeyError(result) |
| Game.AddQuestion | code/app.py:92-98 | succeeds exactly when the category exists; that list gains the prompt at its end; other categories and scores are unchanged; one "add_question" entry by "admin" is appended; otherwise KeyError(choice) |
| Game.AddedPromptIsPlayable | code/app.py:92-98 | a prompt just added can be drawn by the next play of that category |
| Game.FirstTwoCompletions | code/app.py:82-83 | a new player's first "completed" yields {completed: 1, skipped: 0} and a second one yields {completed: 2, skipped: 0} |
| ScoreBoard.IncrementExtends | code/app.py:82-83 | a successful submission keeps every earlier item in its place, with the same player and counter names, and lowers no count |
| Game.Step | code/app.py:69-109 | play answers the notice exactly when the category is missing or empty; submit, add_question and the leaderboard fail exactly when the key they read is missing, and a request that fails leaves every document unchanged; the two views change nothing; the logs view is the reversed log; no request removes or rewrites earlier data |
| Game.InitialInvariant | code/app.py:23-33 | the first-start documents (both categories, empty scores and log) satisfy the invariant |
| Game.StepPreservesInvariant | code/app.py:69-109 | every request keeps exactly the two categories and keeps the score board well formed |
| Game.RunPreservesInvariant | code/app.py:69-109 | any sequence of requests keeps the invariant |
| Game.RunExtends | code/app.py:69-109 | over any sequence of requests the log only grows at its end, prompts are never removed or reordered, no category is created, and score counters never decrease |
| Game.ReachableBehaviour | code/app.py:69-109 | in every state reachable from the first start, the leaderboard renders; a submission succeeds if and only if result is "completed" or "skipped"; adding a prompt succeeds if and only if the category is "truth" or "dare" |

## Left out

- HTTP routing, form parsing, HTML and redirect responses, status codes, the
  Jinja2 templates and the static mount are web plumbing. They are not
  modelled. `Game.Response` only names which page or redirect a request
  produces. The `/` and `GET /add_question` handlers only render a template
  and are not modelled.
- `load_json`, `save_json` and JSON formatting are file I/O. The documents
  are in-memory values. `ensure_data_files` is used only for its default
  contents (`Game.Initial`).
- `random.choice` and `datetime.now()` are replaced by the `pick` and `now`
  arguments. The model does not state that the draw is uniform.
- Concurrent requests that each load and save a document without locking can
  lose updates. The model handles one request at a time.
- `submit` saves the scores and then the log, and `add_question` saves the
  questions and then the log, each in two separate writes. The model applies
  both writes together, so it does not cover a crash between them.
- Counter values are integers. A stored document holding a non-numeric count
  would make `+= 1` raise `TypeError`; this is not modelled. A JSON document
  with duplicate keys is not modelled either.
- Leaderboard.Score: returns 0 for a record without `completed`. The sort is
  only reached after `Standings` has checked that every record has the
  counter, so this default is never observed.
