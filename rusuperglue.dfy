/** DaNetQA (Russian SuperGLUE): yes/no questions about a passage. The model
    scores each surface form of "yes" and "no" as the continuation of the
    prompt; the best-scoring form decides the predicted answer, which is
    compared with the document's label. */
module RuSuperGlue {
  import opened Documents
  import opened Protocol

  /** A label together with the surface forms that stand for it. */
  type AnswerGroup = (bool, seq<string>)

  /** `DaNetQA.ANSWERS`, in declaration order: " да"/" Да" mean true,
      " нет"/" Нет" mean false. */
  const ANSWERS: seq<AnswerGroup> := [(true, [" да", " Да"]), (false, [" нет", " Нет"])]

  /** The four candidates, in the order the requests are issued. */
  const CANDIDATES: seq<string> := [" да", " Да", " нет", " Нет"]

  /** Label `l` owns surface form `s` in `table`. */
  predicate Owns(table: seq<AnswerGroup>, l: bool, s: string)
  {
    exists i :: 0 <= i < |table| && table[i].0 == l && s in table[i].1
  }

  /** No surface form belongs to two groups. */
  predicate Disjoint(table: seq<AnswerGroup>)
  {
    forall i, j, s :: 0 <= i < j < |table| && s in table[i].1 ==> s !in table[j].1
  }

  /** `list(chain(*ANSWERS.values()))`: the variant lists of all groups, one
      after the other. A string is a candidate exactly when some group holds
      it. */
  function Flatten(table: seq<AnswerGroup>): (r: seq<string>)
    ensures forall s :: s in r <==> exists i :: 0 <= i < |table| && s in table[i].1
  {
    if table == [] then []
    else
      var rest := Flatten(table[1..]);
      assert forall i :: 1 <= i < |table| ==> table[1..][i - 1] == table[i];
      table[0].1 + rest
  }

  /** The label-resolution loop of `process_results`: the label of the first
      group, in declaration order, that holds `s`; None when none does. */
  function Resolve(table: seq<AnswerGroup>, s: string): (r: Option<bool>)
    ensures r.Some? <==> s in Flatten(table)
    ensures r.Some? ==> Owns(table, r.value, s)
  {
    if table == [] then None
    else if s in table[0].1 then Some(table[0].0)
    else
      var r := Resolve(table[1..], s);
      assert r.Some? ==> Owns(table, r.value, s) by {
        if r.Some? {
          var i :| 0 <= i < |table[1..]| && table[1..][i].0 == r.value && s in table[1..][i].1;
          assert table[i + 1] == table[1..][i];
        }
      }
      r
  }

  /** In a table with disjoint groups, the resolved label is the one label
      that owns the string. */
  lemma {:induction false} ResolveFindsOwner(table: seq<AnswerGroup>, l: bool, s: string)
    requires Disjoint(table) && Owns(table, l, s)
    ensures Resolve(table, s) == Some(l)
    decreases |table|
  {
    var i :| 0 <= i < |table| && table[i].0 == l && s in table[i].1;
    if s !in table[0].1 {
      assert i != 0;
      assert table[1..][i - 1] == table[i];
      assert Disjoint(table[1..]) by {
        forall a, b, t | 0 <= a < b < |table[1..]| && t in table[1..][a].1 ensures t !in table[1..][b].1 {
          assert table[1..][a] == table[a + 1] && table[1..][b] == table[b + 1];
        }
      }
      ResolveFindsOwner(table[1..], l, s);
    }
  }

  /** The candidate list is the four surface forms in declaration order; the
      groups are disjoint; the first two candidates mean true, the last two
      false. */
  lemma AnswersShape()
    ensures Flatten(ANSWERS) == CANDIDATES
    ensures Disjoint(ANSWERS)
    ensures forall k :: 0 <= k < |CANDIDATES| ==> Resolve(ANSWERS, CANDIDATES[k]) == Some(k < 2)
  {
    assert ANSWERS[1..] == [(false, [" нет", " Нет"])] && ANSWERS[1..][1..] == [];
    assert Flatten(ANSWERS[1..]) == [" нет", " Нет"];
    assert [" да", " Да"] + [" нет", " Нет"] == CANDIDATES;
    assert " да" != " нет" && " да" != " Нет" && " Да" != " нет" && " Да" != " Нет";
    forall k | 0 <= k < |CANDIDATES| ensures Resolve(ANSWERS, CANDIDATES[k]) == Some(k < 2) {
      assert k < 2 ==> CANDIDATES[k] in ANSWERS[0].1;
      assert k >= 2 ==> CANDIDATES[k] !in ANSWERS[0].1 && CANDIDATES[k] in ANSWERS[1].1;
    }
  }

  /** `has_training_docs`, `has_validation_docs`, `has_test_docs`: training
      and validation documents exist; test documents are declared absent. */
  function HasDocs(p: Partition): (r: bool)
    ensures r <==> p != Test
  {
    match p
    case Train => true
    case Validation => true
    case Test => false
  }

  /** The format string `'{passage}\nВопрос: {question}\nОтвет (да/нет):'`. */
  const PROMPT: Template := [Field("passage"), Lit("\nВопрос: "), Field("question"), Lit("\nОтвет (да/нет):")]

  /** `doc_to_text`: passage, question and answer cue. The first missing
      field, passage before question, raises KeyError. */
  function DocToText(doc: Doc): (r: Result<string>)
    ensures r.Ok? <==> "passage" in doc && "question" in doc
    ensures r.Err? ==> r.error == MissingField(if "passage" !in doc then "passage" else "question")
    ensures r.Ok? ==> r.value == Render(doc["passage"]) + "\nВопрос: " + Render(doc["question"]) + "\nОтвет (да/нет):"
  {
    var r := Format(PROMPT, doc);
    assert PROMPT[0] == Field("passage") && PROMPT[1] == Lit("\nВопрос: ");
    assert PROMPT[2] == Field("question") && PROMPT[3] == Lit("\nОтвет (да/нет):");
    assert r.Err? ==> r.error == MissingField(if "passage" !in doc then "passage" else "question") by {
      if r.Err? {
        var i :| 0 <= i < |PROMPT| && PROMPT[i].Field? && PROMPT[i].name !in doc
          && r.error == MissingField(PROMPT[i].name) && FieldsPresent(PROMPT[..i], doc);
        assert i == 0 || i == 2;
        if i == 2 { assert PROMPT[..i][0] == Field("passage"); }
      }
    }
    if r.Ok? then
      var p := Render(doc["passage"]);
      var q := Render(doc["question"]);
      var t := PROMPT[1..];
      assert t[1..] == PROMPT[2..] && t[1..][1..] == PROMPT[3..] && PROMPT[3..][1..] == [];
      assert Format(PROMPT[3..], doc) == Ok("\nОтвет (да/нет):" + "");
      assert Format(PROMPT[2..], doc) == Ok(q + ("\nОтвет (да/нет):" + ""));
      assert Format(t, doc) == Ok("\nВопрос: " + (q + ("\nОтвет (да/нет):" + "")));
      assert r.value == p + ("\nВопрос: " + (q + ("\nОтвет (да/нет):" + "")));
      assert "\nОтвет (да/нет):" + "" == "\nОтвет (да/нет):";
      r
    else r
  }

  /** `doc_to_target`: " да" for a true label, " нет" otherwise, by the
      label's Python truth value. The target is a candidate, and it resolves
      back to the label's truth value. */
  function DocToTarget(doc: Doc): (r: Result<string>)
    ensures r.Ok? <==> "label" in doc
    ensures r.Err? ==> r.error == MissingField("label")
    ensures r.Ok? ==> r.value == (if Truthy(doc["label"]) then " да" else " нет")
    ensures r.Ok? ==> r.value in CANDIDATES
    ensures r.Ok? ==> Resolve(ANSWERS, r.value) == Some(Truthy(doc["label"]))
  {
    AnswersShape();
    if "label" !in doc then Err(MissingField("label"))
    else
      var target := if Truthy(doc["label"]) then " да" else " нет";
      assert target == CANDIDATES[if Truthy(doc["label"]) then 0 else 2];
      Ok(target)
  }

  /** `doc_to_decontamination_query`: passage and question joined by a
      newline, taken from the raw fields; both must be str. Errors arise in
      evaluation order: a missing or non-str passage before anything about
      the question. */
  function DecontaminationQuery(doc: Doc): (r: Result<string>)
    ensures r.Ok? <==> "passage" in doc && doc["passage"].Str? && "question" in doc && doc["question"].Str?
    ensures r.Err? ==>
      r.error == (if "passage" !in doc then MissingField("passage")
                  else if !doc["passage"].Str? then WrongType("passage")
                  else if "question" !in doc then MissingField("question")
                  else WrongType("question"))
    ensures r.Ok? ==> r.value == doc["passage"].s + "\n" + doc["question"].s
  {
    match StrField(doc, "passage")
    case Err(e) => Err(e)
    case Ok(passage) =>
      match StrField(doc, "question")
      case Err(e) => Err(e)
      case Ok(question) => Ok(passage + "\n" + question)
  }

  /** When passage and question are strings, the prompt is the query with the
      question cue in place of the bare newline and the answer cue appended. */
  lemma PromptExtendsQuery(doc: Doc)
    requires DecontaminationQuery(doc).Ok?
    ensures DocToText(doc) ==
      Ok(doc["passage"].s + "\nВопрос: " + doc["question"].s + "\nОтвет (да/нет):")
    ensures DecontaminationQuery(doc) == Ok(doc["passage"].s + "\n" + doc["question"].s)
  {
  }

  /** `zip(self._chain, results)`: candidates paired with scores by position,
      as many pairs as the shorter list has elements. */
  function Zip(chain: seq<string>, results: seq<real>): (r: seq<(string, real)>)
    ensures |r| == if |chain| <= |results| then |chain| else |results|
    ensures forall i :: 0 <= i < |r| ==> r[i] == (chain[i], results[i])
  {
    if chain == [] || results == [] then []
    else [(chain[0], results[0])] + Zip(chain[1..], results[1..])
  }

  /** Where Python's `max(pairs, key=score)` stops: a pair with the largest
      score, the earliest such pair when several tie. */
  function FirstMaxIndex(pairs: seq<(string, real)>): (k: nat)
    requires pairs != []
    ensures k < |pairs|
    ensures forall j :: 0 <= j < |pairs| ==> pairs[j].1 <= pairs[k].1
    ensures forall j :: 0 <= j < k ==> pairs[j].1 < pairs[k].1
  {
    if |pairs| == 1 then 0
    else
      var prefix := pairs[..|pairs| - 1];
      var k := FirstMaxIndex(prefix);
      assert forall j :: 0 <= j < |prefix| ==> prefix[j] == pairs[j];
      if pairs[|pairs| - 1].1 > pairs[k].1 then |pairs| - 1 else k
  }

  /** Python's `max(pairs, key=lambda x: x[1])`: scans left to right and
      replaces the best pair only on a strictly larger score; ValueError on
      an empty sequence. */
  method MaxByScore(pairs: seq<(string, real)>) returns (r: Result<(string, real)>)
    ensures pairs == [] ==> r == Err(EmptySequence)
    ensures pairs != [] ==> r == Ok(pairs[FirstMaxIndex(pairs)])
  {
    if pairs == [] {
      return Err(EmptySequence);
    }
    var best := 0;
    for i := 1 to |pairs|
      invariant best == FirstMaxIndex(pairs[..i])
    {
      assert pairs[..i + 1][..i] == pairs[..i];
      if pairs[i].1 > pairs[best].1 {
        best := i;
      }
    }
    assert pairs[..|pairs|] == pairs;
    r := Ok(pairs[best]);
  }

  /** What `process_results` returns: `mcc` and `f1` carry the pair (gold
      label, predicted label) and `acc` whether they are equal in Python's
      sense. */
  function Emit(gold: Value, pred: bool): (r: Metrics)
    ensures KeysAgree(r, Aggregation(), HigherIsBetter())
    ensures r["mcc"] == r["f1"] == GoldPred(gold, pred)
    ensures r["acc"] == Flag(EqualsBool(gold, pred))
  {
    map["mcc" := GoldPred(gold, pred), "f1" := GoldPred(gold, pred), "acc" := Flag(EqualsBool(gold, pred))]
  }

  /** The outcome of `process_results` with candidate list `chain` (None when
      `construct_requests` has not yet run and `self._chain` is unset). Errors
      come in the order the Python raises them: the missing attribute, the
      empty `max`, the missing label, and finally the prediction left
      unassigned, which the debug print is the first to read. */
  function Contributions(chain: Option<seq<string>>, doc: Doc, results: seq<real>): Result<Metrics>
  {
    if chain.None? then Err(MissingAttribute("_chain"))
    else
      var pairs := Zip(chain.value, results);
      if pairs == [] then Err(EmptySequence)
      else
        var pred := Resolve(ANSWERS, pairs[FirstMaxIndex(pairs)].0);
        if "label" !in doc then Err(MissingField("label"))
        else if pred.None? then Err(UnboundPrediction)
        else Ok(Emit(doc["label"], pred.value))
  }

  /** Once the requests have been built, processing never fails to resolve a
      label: with at least one score and a label, the prediction is true
      exactly when the best candidate (largest score, earliest on ties) is
      " да" or " Да", and the emitted keys are the aggregated ones. */
  lemma ProcessAfterConstruct(doc: Doc, results: seq<real>)
    requires results != [] && "label" in doc
    ensures var pairs := Zip(CANDIDATES, results);
      && pairs != []
      && Contributions(Some(Flatten(ANSWERS)), doc, results)
         == Ok(Emit(doc["label"], FirstMaxIndex(pairs) < 2))
  {
    AnswersShape();
    var pairs := Zip(CANDIDATES, results);
    var k := FirstMaxIndex(pairs);
    assert pairs[k].0 == CANDIDATES[k];
  }

  /** Before the requests are built there is no candidate list to read, and
      with no scores there is no maximum: both are errors, never a default
      prediction. */
  lemma ProcessResultsErrors(doc: Doc, results: seq<real>)
    ensures Contributions(None, doc, results) == Err(MissingAttribute("_chain"))
    ensures Contributions(Some(Flatten(ANSWERS)), doc, []) == Err(EmptySequence)
    ensures results != [] && "label" !in doc ==>
      Contributions(Some(Flatten(ANSWERS)), doc, results) == Err(MissingField("label"))
  {
    AnswersShape();
  }

  /** If the model scores the document's own target strictly above every
      other candidate and the label is a bool, the prediction is correct. */
  lemma TargetWinsIsCorrect(doc: Doc, results: seq<real>, t: nat)
    requires DocToTarget(doc).Ok? && EqualsBool(doc["label"], Truthy(doc["label"]))
    requires |results| == |CANDIDATES| && t < |CANDIDATES| && CANDIDATES[t] == DocToTarget(doc).value
    requires forall j :: 0 <= j < |results| && j != t ==> results[j] < results[t]
    ensures Contributions(Some(Flatten(ANSWERS)), doc, results).Ok?
    ensures Contributions(Some(Flatten(ANSWERS)), doc, results).value["acc"] == Flag(true)
  {
    AnswersShape();
    ProcessAfterConstruct(doc, results);
    assert t == if Truthy(doc["label"]) then 0 else 2;
    var pairs := Zip(CANDIDATES, results);
    var k := FirstMaxIndex(pairs);
    assert pairs[t].1 == results[t] && pairs[k].1 == results[k];
    assert k == t;
  }

  /** Python's `pred == gold` against an integer label other than 0 and 1:
      the label 2 is truthy, so its target is " да", and a model that picks
      " да" predicts True; yet `True == 2` is false, so `acc` is false. */
  lemma IntLabelQuirk()
    ensures DocToTarget(map["label" := Int(2)]) == Ok(" да")
    ensures Contributions(Some(Flatten(ANSWERS)), map["label" := Int(2)], [0.0, -1.0, -1.0, -1.0])
      == Ok(map["mcc" := GoldPred(Int(2), true), "f1" := GoldPred(Int(2), true), "acc" := Flag(false)])
  {
    var doc := map["label" := Int(2)];
    var results := [0.0, -1.0, -1.0, -1.0];
    ProcessAfterConstruct(doc, results);
    var pairs := Zip(CANDIDATES, results);
    assert pairs[0].1 == 0.0 && pairs[1].1 == -1.0 && pairs[2].1 == -1.0 && pairs[3].1 == -1.0;
    assert FirstMaxIndex(pairs) == 0;
  }

  /** The worked example: scores -0.5, -3.0, -2.0, -4.0 pick " да", so the
      prediction is true; against the gold label False it is a miss. */
  lemma ClosedSetExample()
    ensures Contributions(Some(Flatten(ANSWERS)), map["label" := Bool(false)], [-0.5, -3.0, -2.0, -4.0])
      == Ok(map["mcc" := GoldPred(Bool(false), true), "f1" := GoldPred(Bool(false), true), "acc" := Flag(false)])
  {
    var doc := map["label" := Bool(false)];
    var results := [-0.5, -3.0, -2.0, -4.0];
    ProcessAfterConstruct(doc, results);
    var pairs := Zip(CANDIDATES, results);
    assert pairs[0].1 == -0.5 && pairs[1].1 == -3.0 && pairs[2].1 == -2.0 && pairs[3].1 == -4.0;
    assert FirstMaxIndex(pairs) == 0;
  }

  /** `aggregation`: MCC and F1 over the (gold, predicted) pairs, the mean of
      the `acc` flags. */
  function Aggregation(): (r: map<string, Reducer>)
    ensures r.Keys == HigherIsBetter().Keys
    ensures r["mcc"] == MatthewsCorrcoef && r["f1"] == F1Score && r["acc"] == Mean
  {
    map["mcc" := MatthewsCorrcoef, "f1" := F1Score, "acc" := Mean]
  }

  /** `higher_is_better`: every metric is better when larger. */
  function HigherIsBetter(): (r: map<string, bool>)
    ensures r.Keys == {"mcc", "f1", "acc"}
    ensures forall k :: k in r ==> r[k]
  {
    map["mcc" := true, "f1" := true, "acc" := true]
  }

  /** The DaNetQA task object. Its one piece of state is `self._chain`, the
      candidate list `construct_requests` stores for `process_results` to
      pair with the scores. */
  class DaNetQA {
    var chain: Option<seq<string>>

    constructor ()
      ensures chain == None
    {
      chain := None;
    }

    /** `construct_requests`: stores the flattened answer table as the
        candidate list and asks for the log-likelihood of each candidate
        after the same context, in candidate order. */
    method ConstructRequests(doc: Doc, ctx: string) returns (requests: seq<Request>)
      modifies this
      ensures chain == Some(CANDIDATES)
      ensures |requests| == |CANDIDATES|
      ensures forall i :: 0 <= i < |requests| ==> requests[i] == Loglikelihood(ctx, CANDIDATES[i])
    {
      AnswersShape();
      chain := Some(Flatten(ANSWERS));
      var candidates := chain.value;
      requests := [];
      for i := 0 to |candidates|
        invariant |requests| == i
        invariant forall j :: 0 <= j < i ==> requests[j] == Loglikelihood(ctx, candidates[j])
      {
        requests := requests + [Loglikelihood(ctx, candidates[i])];
      }
    }

    /** `process_results`: the best-scoring candidate (first on ties) is
        looked up group by group in the answer table; its label is the
        prediction. */
    method ProcessResults(doc: Doc, results: seq<real>) returns (r: Result<Metrics>)
      ensures r == Contributions(chain, doc, results)
    {
      if chain.None? {
        return Err(MissingAttribute("_chain"));
      }
      var maxToken := MaxByScore(Zip(chain.value, results));
      if maxToken.Err? {
        return Err(maxToken.error);
      }
      var winner := maxToken.value.0;
      var pred: Option<bool> := None;
      for i := 0 to |ANSWERS|
        invariant pred == None
        invariant Resolve(ANSWERS[i..], winner) == Resolve(ANSWERS, winner)
      {
        assert ANSWERS[i..][1..] == ANSWERS[i + 1..];
        if winner in ANSWERS[i].1 {
          pred := Some(ANSWERS[i].0);
          break;
        }
      }
      assert pred == Resolve(ANSWERS, winner);
      if "label" !in doc {
        return Err(MissingField("label"));
      }
      var gold := doc["label"];
      if pred.None? {
        return Err(UnboundPrediction);
      }
      r := Ok(Emit(gold, pred.value));
    }
  }
}
