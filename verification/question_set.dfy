/** The question document: prompts stored per category, in insertion order. */
module QuestionSet {
  import opened Outcomes

  type Questions = map<string, seq<string>>

  const Truth := "truth"
  const Dare := "dare"

  /** The document written on first start: both categories present and empty. */
  const Defaults: Questions := map[Truth := [], Dare := []]

  /** `questions.get(choice, [])`: a missing category reads as an empty list. */
  function Candidates(q: Questions, choice: string): (list: seq<string>)
    ensures choice in q ==> list == q[choice]
    ensures choice !in q ==> list == []
  {
    if choice in q then q[choice] else []
  }

  /** `data[choice].append(question)`: only an existing category grows, by exactly
      the new prompt at its end; an unknown category is a `KeyError`. */
  function AddPrompt(q: Questions, choice: string, question: string): (r: Result<Questions>)
    ensures r.Ok? <==> choice in q
    ensures r.Err? ==> r.error == KeyError(choice)
    ensures r.Ok? ==> r.value.Keys == q.Keys
    ensures r.Ok? ==> |r.value[choice]| == |q[choice]| + 1
    ensures r.Ok? ==> r.value[choice][..|q[choice]|] == q[choice]
    ensures r.Ok? ==> r.value[choice][|q[choice]|] == question
    ensures r.Ok? ==> forall c :: c in q && c != choice ==> r.value[c] == q[c]
  {
    if choice in q then Ok(q[choice := q[choice] + [question]]) else Err(KeyError(choice))
  }
}
