/** OGE: open-answer questions from the Russian school exam. The model
    generates a free-form answer after the question text, and the answer is
    scored by exact match once surrounding whitespace is removed from both the
    answer and the gold string. */
module RuOge {
  import opened PyStrings
  import opened Documents
  import opened Protocol

  /** `has_training_docs`, `has_validation_docs`, `has_test_docs`: the task
      offers training and validation documents, and no test documents. */
  function HasDocs(p: Partition): (r: bool)
    ensures r <==> p != Test
  {
    match p
    case Train => true
    case Validation => true
    case Test => false
  }

  /** The format string `'{text}\nОтвет:'`. */
  const PROMPT: Template := [Field("text"), Lit("\nОтвет:")]

  /** `doc_to_text`: the question text followed by an answer cue. A document
      without a `text` field raises KeyError rather than yielding an empty
      question. */
  function DocToText(doc: Doc): (r: Result<string>)
    ensures r.Ok? <==> "text" in doc
    ensures r.Err? ==> r.error == MissingField("text")
    ensures r.Ok? ==> r.value == Render(doc["text"]) + "\nОтвет:"
  {
    assert PROMPT[1..] == [Lit("\nОтвет:")] && PROMPT[1..][1..] == [];
    assert Format(PROMPT[1..][1..], doc) == Ok("");
    assert "\nОтвет:" + "" == "\nОтвет:";
    assert Format(PROMPT[1..], doc) == Ok("\nОтвет:");
    Format(PROMPT, doc)
  }

  /** `doc_to_target`: the gold answer after one space, the position at
      which the model continues the prompt. It strips to the same string as
      the answer itself. */
  function DocToTarget(doc: Doc): (r: Result<string>)
    ensures r.Ok? <==> "answer" in doc && doc["answer"].Str?
    ensures r.Err? ==> r.error == StrField(doc, "answer").error
    ensures r.Ok? ==> r.value == " " + doc["answer"].s
    ensures r.Ok? ==> Strip(r.value) == Strip(doc["answer"].s)
  {
    match StrField(doc, "answer")
    case Err(e) => Err(e)
    case Ok(answer) =>
      StripPadded(" ", answer, "");
      assert " " + answer + "" == " " + answer;
      Ok(" " + answer)
  }

  /** `doc_to_decontamination_query`: the raw `text` field, not the prompt. */
  function DecontaminationQuery(doc: Doc): (r: Result<Value>)
    ensures r.Ok? <==> "text" in doc
    ensures r.Err? ==> r.error == MissingField("text")
    ensures r.Ok? ==> r.value == doc["text"]
    ensures r.Ok? ==> DocToText(doc) == Ok(Render(r.value) + "\nОтвет:")
  {
    if "text" in doc then Ok(doc["text"]) else Err(MissingField("text"))
  }

  /** `construct_requests`: exactly one request, a greedy generation after
      the prompt that stops at the first newline. */
  function ConstructRequests(doc: Doc, ctx: string): (r: Request)
    ensures r.GreedyUntil? && r.context == ctx && r.until == ["\n"]
  {
    GreedyUntil(ctx, ["\n"])
  }

  /** `aggregation`: the one metric, `acc`, is averaged. */
  function Aggregation(): (r: map<string, Reducer>)
    ensures r.Keys == HigherIsBetter().Keys
    ensures forall k :: k in r ==> r[k] == Mean
  {
    map["acc" := Mean]
  }

  /** `higher_is_better`: a larger `acc` is better. */
  function HigherIsBetter(): (r: map<string, bool>)
    ensures r.Keys == {"acc"}
    ensures forall k :: k in r ==> r[k]
  {
    map["acc" := true]
  }

  /** `process_results`: only the first answer is read (IndexError when there
      is none); `acc` is whether it equals the gold answer once both are
      stripped of surrounding whitespace. The gold answer must be a str. The
      emitted keys are those the task aggregates. */
  function ProcessResults(doc: Doc, results: seq<string>): (r: Result<Metrics>)
    ensures results == [] ==> r == Err(IndexOutOfRange)
    ensures results != [] ==> (r.Ok? <==> "answer" in doc && doc["answer"].Str?)
    ensures results != [] && r.Err? ==> r.error == StrField(doc, "answer").error
    ensures r.Ok? ==> KeysAgree(r.value, Aggregation(), HigherIsBetter())
    ensures r.Ok? ==> (r.value["acc"] == Flag(true) <==> Strip(results[0]) == Strip(doc["answer"].s))
    ensures r.Ok? ==> r.value["acc"].Flag?
  {
    if results == [] then Err(IndexOutOfRange)
    else
      var pred := results[0];
      match StrField(doc, "answer")
      case Err(e) => Err(e)
      case Ok(gold) => Ok(map["acc" := Flag(Strip(pred) == Strip(gold))])
  }

  /** Whitespace around the model's answer never changes the score, and
      answers after the first are never read. */
  lemma AccIgnoresPaddingAndLaterResults(doc: Doc, answer: string, later: seq<string>, w1: string, w2: string)
    requires AllSpace(w1) && AllSpace(w2)
    ensures ProcessResults(doc, [w1 + answer + w2] + later) == ProcessResults(doc, [answer])
  {
    StripPadded(w1, answer, w2);
  }

  /** Answering with the task's own target always scores `acc == true`. */
  lemma TargetIsCorrect(doc: Doc)
    requires DocToTarget(doc).Ok?
    ensures ProcessResults(doc, [DocToTarget(doc).value]) == Ok(map["acc" := Flag(true)])
  {
    var m := ProcessResults(doc, [DocToTarget(doc).value]).value;
    assert m.Keys == {"acc"};
    assert m == map["acc" := Flag(true)];
  }

  /** The worked example: question "2+2=?", gold answer "4", model answer
      " 4 " is counted correct. */
  lemma ExactMatchExample()
    ensures DocToText(map["text" := Str("2+2=?"), "answer" := Str("4")]) == Ok("2+2=?\nОтвет:")
    ensures DocToTarget(map["text" := Str("2+2=?"), "answer" := Str("4")]) == Ok(" 4")
    ensures ProcessResults(map["text" := Str("2+2=?"), "answer" := Str("4")], [" 4 "]) == Ok(map["acc" := Flag(true)])
  {
    var doc := map["text" := Str("2+2=?"), "answer" := Str("4")];
    assert doc["text"] == Str("2+2=?") && doc["answer"] == Str("4");
    assert "2+2=?" + "\nОтвет:" == "2+2=?\nОтвет:";
    assert " " + "4" == " 4";
    assert " 4 " == " " + "4" + " ";
    AccIgnoresPaddingAndLaterResults(doc, "4", [], " ", " ");
    assert [" " + "4" + " "] + [] == [" 4 "];
    TargetIsCorrect(doc);
  }
}
