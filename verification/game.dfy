/** The game's request handlers as pure transitions over the three persisted
    documents. Each handler loads, changes and saves whole documents; here a
    state goes in and the next state comes out. The random pick and the clock
    are arguments. */
module Game {
  import opened Outcomes
  import opened ActivityLog
  import opened QuestionSet
  import opened ScoreBoard
  import opened Leaderboard

  datatype State = State(questions: Questions, scores: Board, logs: seq<Entry>)

  /** The documents created on first start. */
  const Initial := State(Defaults, [], [])

  const Admin := "admin"

  /** What `play` answers: the plain-text notice, or the prompt it drew. */
  datatype PlayOutcome = NoQuestions(message: string) | Drawn(question: string)

  datatype PlayResult = PlayResult(outcome: PlayOutcome, state: State)

  /** The draw `random.choice` would make is an index into the candidates. */
  predicate PickFits(st: State, choice: string, pick: nat)
  {
    Candidates(st.questions, choice) != [] ==> pick < |Candidates(st.questions, choice)|
  }

  /** Nothing in `before` is lost or rewritten in `after`: the log only grows
      at its end, categories are neither created nor removed and only grow at
      their ends, players keep their places and counters, and counts never drop. */
  ghost predicate Extends(before: State, after: State)
  {
    && before.logs <= after.logs
    && before.questions.Keys == after.questions.Keys
    && (forall c :: c in before.questions ==> before.questions[c] <= after.questions[c])
    && |before.scores| <= |after.scores|
    && (forall i :: 0 <= i < |before.scores| ==> after.scores[i].player == before.scores[i].player)
    && (forall i :: 0 <= i < |before.scores| ==> after.scores[i].counts.Keys == before.scores[i].counts.Keys)
    && (forall i, k :: 0 <= i < |before.scores| && k in before.scores[i].counts ==>
          after.scores[i].counts[k] >= before.scores[i].counts[k])
  }

  lemma ExtendsReflexive(st: State)
    ensures Extends(st, st)
  {
  }

  lemma ExtendsTransitive(a: State, b: State, c: State)
    requires Extends(a, b) && Extends(b, c)
    ensures Extends(a, c)
  {
  }

  /** `play`: a missing or empty category answers the notice and changes
      nothing; otherwise the drawn prompt comes from that category's current
      list, and the only change is one "play" entry at the end of the log. */
  function Play(st: State, player: string, choice: string, pick: nat, now: string): (r: PlayResult)
    requires PickFits(st, choice, pick)
    ensures r.outcome.NoQuestions? <==> (choice !in st.questions || st.questions[choice] == [])
    ensures r.outcome.NoQuestions? ==> r.state == st
    ensures r.outcome.NoQuestions? ==>
              r.outcome.message == "No " + choice + " questions found. Please add some first."
    ensures r.outcome.Drawn? ==> choice in st.questions && r.outcome.question in st.questions[choice]
    ensures r.outcome.Drawn? ==> r.outcome.question == st.questions[choice][pick]
    ensures r.outcome.Drawn? ==> r.state.questions == st.questions && r.state.scores == st.scores
    ensures r.outcome.Drawn? ==> |r.state.logs| == |st.logs| + 1 && r.state.logs[..|st.logs|] == st.logs
    ensures r.outcome.Drawn? ==>
              r.state.logs[|st.logs|] == Entry(now, player, "play", "Selected " + choice + ": " + r.outcome.question)
  {
    var list := Candidates(st.questions, choice);
    if list == [] then
      PlayResult(NoQuestions("No " + choice + " questions found. Please add some first."), st)
    else
      var question := list[pick];
      PlayResult(Drawn(question),
                 st.(logs := LogActivity(st.logs, now, player, "play", "Selected " + choice + ": " + question)))
  }

  /** `submit`: the player's counter named `result` rises by one (a new player
      first gets both counters at zero) and a "submit" entry is logged; a
      `result` that is not a counter of the record raises and nothing is saved. */
  function Submit(st: State, player: string, choice: string, result: string, now: string): (r: Result<State>)
    ensures r.Ok? <==> result in RecordOf(st.scores, player)
    ensures r.Err? ==> r.error == KeyError(result)
    ensures r.Ok? ==> r.value.questions == st.questions
    ensures r.Ok? ==> r.value.scores == Increment(st.scores, player, result).value
    ensures r.Ok? ==> |r.value.logs| == |st.logs| + 1 && r.value.logs[..|st.logs|] == st.logs
    ensures r.Ok? ==>
              r.value.logs[|st.logs|] == Entry(now, player, "submit", result + " a " + choice + " question")
  {
    match Increment(st.scores, player, result)
    case Err(e) => Err(e)
    case Ok(scores) =>
      Ok(State(st.questions, scores,
               LogActivity(st.logs, now, player, "submit", result + " a " + choice + " question")))
  }

  /** `add_question`: the prompt is appended to an existing category and an
      "add_question" entry is logged for the admin; an unknown category raises
      and nothing is saved. */
  function AddQuestion(st: State, choice: string, question: string, now: string): (r: Result<State>)
    ensures r.Ok? <==> choice in st.questions
    ensures r.Err? ==> r.error == KeyError(choice)
    ensures r.Ok? ==> r.value.scores == st.scores
    ensures r.Ok? ==> r.value.questions.Keys == st.questions.Keys
    ensures r.Ok? ==> r.value.questions[choice] == st.questions[choice] + [question]
    ensures r.Ok? ==> forall c :: c in st.questions && c != choice ==> r.value.questions[c] == st.questions[c]
    ensures r.Ok? ==> |r.value.logs| == |st.logs| + 1 && r.value.logs[..|st.logs|] == st.logs
    ensures r.Ok? ==>
              r.value.logs[|st.logs|] == Entry(now, Admin, "add_question", "Added to " + choice + ": " + question)
  {
    match AddPrompt(st.questions, choice, question)
    case Err(e) => Err(e)
    case Ok(questions) =>
      assert questions[choice] == st.questions[choice] + [question];
      Ok(State(questions, st.scores,
               LogActivity(st.logs, now, Admin, "add_question", "Added to " + choice + ": " + question)))
  }

  /** A prompt just added can be drawn by the next play of its category. */
  lemma AddedPromptIsPlayable(st: State, choice: string, question: string, now: string,
                              player: string, later: string)
    requires AddQuestion(st, choice, question, now).Ok?
    ensures var st' := AddQuestion(st, choice, question, now).value;
            var pick := |st.questions[choice]|;
            PickFits(st', choice, pick) &&
            Play(st', player, choice, pick, later).outcome == Drawn(question)
  {
  }

  /** A new player's first "completed" gives {completed: 1, skipped: 0}, and a
      second one {completed: 2, skipped: 0}. */
  lemma FirstTwoCompletions(st: State, player: string, choice: string, now: string, later: string)
    requires Get(st.scores, player).None?
    ensures Submit(st, player, choice, Completed, now).Ok?
    ensures var st1 := Submit(st, player, choice, Completed, now).value;
            && Get(st1.scores, player) == Some(map[Completed := 1, Skipped := 0])
            && Submit(st1, player, choice, Completed, later).Ok?
            && Get(Submit(st1, player, choice, Completed, later).value.scores, player)
               == Some(map[Completed := 2, Skipped := 0])
  {
    var st1 := Submit(st, player, choice, Completed, now).value;
    var c1 := Get(st1.scores, player).value;
    assert c1.Keys == {Completed, Skipped};
    assert c1 == map[Completed := 1, Skipped := 0];
    var c2 := Get(Submit(st1, player, choice, Completed, later).value.scores, player).value;
    assert c2.Keys == {Completed, Skipped};
    assert c2 == map[Completed := 2, Skipped := 0];
  }

  /** One request of the HTTP surface, with the random draw and the clock
      reading supplied. */
  datatype Request =
    | PlayRequest(player: string, choice: string, pick: nat, now: string)
    | SubmitRequest(player: string, choice: string, result: string, now: string)
    | AddQuestionRequest(choice: string, question: string, now: string)
    | LeaderboardRequest
    | LogsRequest

  /** What the server sends back; an unhandled `KeyError` is a server error. */
  datatype Response =
    | Notice(text: string)
    | PlayPage(player: string, question: string, choice: string)
    | Redirect(location: string)
    | LeaderboardPage(ranking: Board)
    | LogsPage(entries: seq<Entry>)
    | ServerError(error: Error)

  datatype Transition = Transition(state: State, response: Response)

  predicate Admissible(st: State, req: Request)
  {
    req.PlayRequest? ==> PickFits(st, req.choice, req.pick)
  }

  /** One request handled: a failed request leaves every document as it was,
      the two views change nothing, and no request loses earlier data. */
  function Step(st: State, req: Request): (t: Transition)
    requires Admissible(st, req)
    ensures t.response.ServerError? ==> t.state == st
    ensures req.LeaderboardRequest? || req.LogsRequest? ==> t.state == st
    ensures req.LogsRequest? ==> t.response == LogsPage(ShowLogs(st.logs))
    ensures req.PlayRequest? ==>
              (t.response.Notice? <==> Candidates(st.questions, req.choice) == [])
    ensures req.SubmitRequest? ==>
              (t.response.ServerError? <==> req.result !in RecordOf(st.scores, req.player))
    ensures req.AddQuestionRequest? ==> (t.response.ServerError? <==> req.choice !in st.questions)
    ensures req.LeaderboardRequest? ==> (t.response.ServerError? <==> !Ranked(st.scores))
    ensures Extends(st, t.state)
  {
    match req
    case PlayRequest(player, choice, pick, now) =>
      var r := Play(st, player, choice, pick, now);
      (match r.outcome
       case NoQuestions(message) => Transition(st, Notice(message))
       case Drawn(question) => Transition(r.state, PlayPage(player, question, choice)))
    case SubmitRequest(player, choice, result, now) =>
      (match Submit(st, player, choice, result, now)
       case Err(e) => Transition(st, ServerError(e))
       case Ok(st') =>
         IncrementExtends(st.scores, player, result);
         Transition(st', Redirect("/leaderboard")))
    case AddQuestionRequest(choice, question, now) =>
      (match AddQuestion(st, choice, question, now)
       case Err(e) => Transition(st, ServerError(e))
       case Ok(st') => Transition(st', Redirect("/")))
    case LeaderboardRequest =>
      (match Standings(st.scores)
       case Err(e) => Transition(st, ServerError(e))
       case Ok(ranking) => Transition(st, LeaderboardPage(ranking)))
    case LogsRequest =>
      Transition(st, LogsPage(ShowLogs(st.logs)))
  }

  /** Every request in the sequence gets an in-range draw at the state it meets. */
  predicate Feasible(st: State, reqs: seq<Request>)
    decreases |reqs|
  {
    reqs == [] || (Admissible(st, reqs[0]) && Feasible(Step(st, reqs[0]).state, reqs[1..]))
  }

  /** The state after handling the requests one after another. */
  function Run(st: State, reqs: seq<Request>): State
    requires Feasible(st, reqs)
    decreases |reqs|
  {
    if reqs == [] then st else Run(Step(st, reqs[0]).state, reqs[1..])
  }

  /** What every state reachable from the first start satisfies: the two
      categories exist, and the score board is well formed. */
  predicate Invariant(st: State)
  {
    && st.questions.Keys == {Truth, Dare}
    && WellFormed(st.scores)
  }

  lemma InitialInvariant()
    ensures Invariant(Initial)
  {
  }

  lemma StepPreservesInvariant(st: State, req: Request)
    requires Invariant(st) && Admissible(st, req)
    ensures Invariant(Step(st, req).state)
  {
  }

  /** Any run of requests keeps the invariant. */
  lemma {:induction false} RunPreservesInvariant(st: State, reqs: seq<Request>)
    requires Invariant(st) && Feasible(st, reqs)
    ensures Invariant(Run(st, reqs))
    decreases |reqs|
  {
    if reqs != [] {
      StepPreservesInvariant(st, reqs[0]);
      RunPreservesInvariant(Step(st, reqs[0]).state, reqs[1..]);
    }
  }

  /** Any run of requests only appends: the log is append-only, prompts are
      never removed or reordered, and score counters never decrease. */
  lemma {:induction false} RunExtends(st: State, reqs: seq<Request>)
    requires Feasible(st, reqs)
    ensures Extends(st, Run(st, reqs))
    decreases |reqs|
  {
    if reqs == [] {
      ExtendsReflexive(st);
    } else {
      var next := Step(st, reqs[0]).state;
      RunExtends(next, reqs[1..]);
      ExtendsTransitive(st, next, Run(next, reqs[1..]));
    }
  }

  /** In every reachable state the leaderboard renders, a submission succeeds
      exactly for "completed" and "skipped", and adding a prompt succeeds
      exactly for "truth" and "dare". */
  lemma ReachableBehaviour(reqs: seq<Request>, player: string, choice: string,
                           result: string, question: string, now: string)
    requires Feasible(Initial, reqs)
    ensures var st := Run(Initial, reqs);
            && Standings(st.scores).Ok?
            && (Submit(st, player, choice, result, now).Ok? <==> result == Completed || result == Skipped)
            && (AddQuestion(st, choice, question, now).Ok? <==> choice == Truth || choice == Dare)
  {
    InitialInvariant();
    RunPreservesInvariant(Initial, reqs);
    var st := Run(Initial, reqs);
    RecordOfWellFormed(st.scores, player);
  }
}
