# Russian exam benchmark tasks: DaNetQA and OGE

This project models, in Dafny, two benchmark task definitions of a language-model
evaluation harness. It also proves properties of the model. A task turns one
benchmark document into requests to the language model. It then turns the model's
answers into per-document contributions to the reported metrics.

- **DaNetQA** (`lm_eval/tasks/rusuperglue.py`) is a closed-set yes/no task.
  - Its answer table maps `True` to `" да"`, `" Да"` and `False` to `" нет"`, `" Нет"`.
  - `construct_requests` flattens the table into a candidate list and stores it in
    the attribute `self._chain`. It then asks for the log-likelihood of every
    candidate after the prompt.
  - `process_results` pairs the returned scores with `self._chain` by position. It
    takes the best pair, the first one on ties. It looks up which label owns the
    winning string and emits `mcc`, `f1` and `acc`.
  - The model has a class `RuSuperGlue.DaNetQA` whose field `chain` is
    `self._chain`. The field is `None` until `ConstructRequests` has run.
    `ProcessResults` reads it and is proved equal to the specification function
    `Contributions`.
  - Python's `max(..., key=...)` is the method `MaxByScore`. Its loop is proved
    against the recursive `FirstMaxIndex`.
  - The `for`/`break` label loop is proved against `Resolve`.
- **OGE** (`lm_eval/tasks/ru_oge.py`) is a free-form generation task.
  - Its prompt is the question text followed by `"\nОтвет:"`.
  - It sends one greedy request that stops at a newline.
  - It scores `acc` by exact match after `str.strip()` on both the answer and the
    gold string.
  - Every method of the Python class is a single expression, so the module
    `RuOge` is made of functions and lemmas.

Shared pieces:

- `PyStrings` models Python's `str.strip()`, using Python's own whitespace set. It
  also models `str()` of an integer.
- `Documents` has these parts:
  - Documents are maps from field name to a str, bool or int value.
  - The error cases are named after the Python exception each one stands for.
  - `Truthy` and `EqualsBool` give Python's truth value and `==` against a bool.
    In Python, `True == 1` and `False == 0`.
  - `Format` models `str.format(**doc)`. The first missing field raises KeyError.
- `Protocol` holds the request, contribution and reducer types.

Error paths are modelled as `Err` results, in the order the Python code raises
them. They are never excluded by preconditions. For DaNetQA that order is:

1. The unset attribute `_chain`.
2. `max` of an empty zip, which happens when there are no scores.
3. A missing `label`.
4. The unassigned `pred`. The debug print at `rusuperglue.py:55` is the first line to
   read it. `ProcessAfterConstruct` shows this case cannot happen once the
   requests have been built.

Behaviour of the code worth noting:

- The candidate list is rebuilt on every `construct_requests` call and kept in
  mutable task state. It is not built once and passed along explicitly. It has
  the same value every time.
- An unresolved label surfaces as `UnboundLocalError` at the debug print, after
  the label lookup. No dedicated error exists for it.
- `acc` for DaNetQA is Python's `pred == gold`. An integer label 1 or 0 therefore
  equals `True` or `False`. `doc_to_target` uses the label's truth value.
- The test partition is only declared unavailable (`has_test_docs` is false).
  Nothing in these files raises an error for it.

## Model

| member | source | states |
|---|---|---|
| PyStrings.SkipSpace | lm_eval/tasks/ru_oge.py:41 | the left scan of `str.strip()` stops at the first character that is not whitespace, having passed only whitespace, or at the end |
| PyStrings.SkipSpaceBack | lm_eval/tasks/ru_oge.py:41 | the right scan of `str.strip()` moves left over whitespace only, never past the left scan's stop, and stops after a character that is not whitespace or at that stop |
| PyStrings.Strip | lm_eval/tasks/ru_oge.py:41 | `str.strip()` returns the slice between the two scans' stops; everything it drops is whitespace, and what it keeps has no whitespace at either end |
| PyStrings.StripPadded | lm_eval/tasks/ru_oge.py:41 | adding whitespace at either end of a string never changes what `strip` returns |
| PyStrings.StripRemovesPadding | lm_eval/tasks/ru_oge.py:41 | a string with no whitespace at its ends, padded with whitespace, strips to itself; with Strip's contract this determines `strip` completely |
| PyStrings.StripIdempotent | lm_eval/tasks/ru_oge.py:41 | stripping twice is stripping once |
| PyStrings.NatToDecimal | lm_eval/tasks/rusuperglue.py:32 | `str(n)` of an integer field is a non-empty digit string without a leading zero whose decimal value is `n` |
| PyStrings.IntToDecimal | lm_eval/tasks/rusuperglue.py:32 | `str(i)` starts with a minus sign exactly for negative `i`, followed by the digits of its magnitude |
| Documents.Render | lm_eval/tasks/rusuperglue.py:32 | `str()` of a field: a string as is, a bool as `True`/`False`, an integer in decimal |
| Documents.StrField | lm_eval/tasks/rusuperglue.py:41 | `doc[name]` used as a str succeeds exactly when the field is present and a str; KeyError exactly when it is absent, otherwise a type error |
| Documents.Format | lm_eval/tasks/rusuperglue.py:32 | `str.format(**doc)` succeeds exactly when every replacement field is present; on failure it names a missing field all of whose predecessors are present (the first missing one) |
| Documents.FormatLit | lm_eval/tasks/rusuperglue.py:32 | literal text formats to itself |
| Documents.FormatField | lm_eval/tasks/rusuperglue.py:32 | a present replacement field formats to `str` of the field's value |
| Documents.FormatAppend | lm_eval/tasks/rusuperglue.py:32 | when all fields are present, formatting a concatenation of templates is the concatenation of their outputs; with FormatLit and FormatField this fixes the output of every successful `str.format` |
| Documents.FormatReadsOnlyNamedFields | lm_eval/tasks/ru_oge.py:24 | formatting depends only on the fields the template names |
| RuOge.HasDocs | lm_eval/tasks/ru_oge.py:8-15 | training and validation documents are available, test documents are not |
| RuOge.DocToText | lm_eval/tasks/ru_oge.py:23-24 | the prompt is `str(text) + "\nОтвет:"`; a document without `text` is a KeyError, never an empty prompt |
| RuOge.DocToTarget | lm_eval/tasks/ru_oge.py:26-27 | the target is `" " + answer` and strips to the same string as the answer; a missing or non-str answer is an error |
| RuOge.DecontaminationQuery | lm_eval/tasks/ru_oge.py:32-33 | the query is the raw `text` value itself, not `str` of it; a missing `text` is a KeyError; the prompt is that value followed by the answer cue |
| RuOge.ConstructRequests | lm_eval/tasks/ru_oge.py:35-36 | exactly one request: a greedy generation after the given context that stops at `"\n"` |
| RuOge.ProcessResults | lm_eval/tasks/ru_oge.py:38-41 | IndexError on no answer; otherwise OK exactly when `answer` is a str; `acc` is true iff the stripped first answer equals the stripped gold answer; emitted keys equal the aggregation and higher-is-better keys |
| RuOge.Aggregation | lm_eval/tasks/ru_oge.py:43-44 | every metric is averaged, and the keys are those of `higher_is_better` |
| RuOge.HigherIsBetter | lm_eval/tasks/ru_oge.py:46-47 | the only key is `acc`, and it is higher-is-better |
| RuOge.AccIgnoresPaddingAndLaterResults | lm_eval/tasks/ru_oge.py:38-41 | whitespace around the model's answer never changes the outcome, and answers after the first are never read |
| RuOge.TargetIsCorrect | lm_eval/tasks/ru_oge.py:26-41 | answering with the task's own target always gives `acc == true` |
| RuOge.ExactMatchExample | lm_eval/tasks/ru_oge.py:23-41 | question "2+2=?" gives the prompt "2+2=?\nОтвет:", the target " 4", and the answer " 4 " is scored correct |
| RuSuperGlue.Flatten | lm_eval/tasks/rusuperglue.py:44 | a string is in the flattened candidate list exactly when some answer group holds it |
| RuSuperGlue.Resolve | lm_eval/tasks/rusuperglue.py:49-52 | the label loop assigns a prediction exactly when the string is a candidate, and the assigned label owns the string |
| RuSuperGlue.ResolveFindsOwner | lm_eval/tasks/rusuperglue.py:49-52 | with disjoint groups, the resolved label is the unique owner of the string |
| RuSuperGlue.AnswersShape | lm_eval/tasks/rusuperglue.py:11-14 | the candidate list is `[" да", " Да", " нет", " Нет"]`, the groups are disjoint, and the first two candidates resolve to true, the last two to false |
| RuSuperGlue.HasDocs | lm_eval/tasks/rusuperglue.py:16-23 | training and validation documents are available, test documents are not |
| RuSuperGlue.DocToText | lm_eval/tasks/rusuperglue.py:31-32 | the prompt is passage, `"\nВопрос: "`, question, `"\nОтвет (да/нет):"`; a missing passage (checked first) or question is a KeyError naming it |
| RuSuperGlue.DocToTarget | lm_eval/tasks/rusuperglue.py:34-35 | the target is `" да"` when the label is truthy and `" нет"` otherwise; it is a candidate that resolves back to the label's truth value; a missing label is a KeyError |
| RuSuperGlue.DecontaminationQuery | lm_eval/tasks/rusuperglue.py:40-41 | the query is `passage + "\n" + question` from the raw fields; errors for a missing or non-str field come in evaluation order |
| RuSuperGlue.PromptExtendsQuery | lm_eval/tasks/rusuperglue.py:31-41 | for str fields, prompt and query are built from the same two raw fields, the query without the prompt's cues |
| RuSuperGlue.Zip | lm_eval/tasks/rusuperglue.py:48 | candidates and scores are paired by position, as many pairs as the shorter list has |
| RuSuperGlue.FirstMaxIndex | lm_eval/tasks/rusuperglue.py:48 | the chosen pair has a score at least every other score, and every earlier pair scores strictly less (first maximum wins) |
| RuSuperGlue.MaxByScore | lm_eval/tasks/rusuperglue.py:48 | `max` over the pairs is ValueError on no pairs, and otherwise returns the first pair with the largest score |
| RuSuperGlue.Emit | lm_eval/tasks/rusuperglue.py:54-56 | `mcc` and `f1` carry (gold, pred), `acc` is Python's `pred == gold`, and the keys equal the aggregation and higher-is-better keys |
| RuSuperGlue.ProcessAfterConstruct | lm_eval/tasks/rusuperglue.py:43-56 | after `construct_requests`, any non-empty scores and a present label give a result, never an unresolved prediction; the prediction is true iff the winning candidate is one of the first two |
| RuSuperGlue.ProcessResultsErrors | lm_eval/tasks/rusuperglue.py:44-54 | processing before `construct_requests` is an attribute error, no scores is the empty-`max` error, a missing label is a KeyError |
| RuSuperGlue.TargetWinsIsCorrect | lm_eval/tasks/rusuperglue.py:34-56 | if the candidate equal to the document's own target strictly outscores every other candidate, and the label compares equal to its own truth value (a bool, or the integer 0 or 1), `acc` is true |
| RuSuperGlue.IntLabelQuirk | lm_eval/tasks/rusuperglue.py:34-56 | an integer label 2 is truthy, so its target is `" да"`; when `" да"` wins, the prediction is True and yet `acc` is false, because `True == 2` is false |
| RuSuperGlue.ClosedSetExample | lm_eval/tasks/rusuperglue.py:43-56 | scores -0.5, -3.0, -2.0, -4.0 pick " да"; with gold False the contributions are (False, True) for `mcc`/`f1` and `acc` false |
| RuSuperGlue.Aggregation | lm_eval/tasks/rusuperglue.py:58-59 | `mcc`, `f1` and `acc` are reduced by MCC, F1 and mean, and the keys are those of `higher_is_better` |
| RuSuperGlue.HigherIsBetter | lm_eval/tasks/rusuperglue.py:61-62 | the keys are `mcc`, `f1`, `acc`, all higher-is-better |
| RuSuperGlue.DaNetQA.constructor | lm_eval/tasks/rusuperglue.py:7-14 | a fresh task has no candidate list yet |
| RuSuperGlue.DaNetQA.ConstructRequests | lm_eval/tasks/rusuperglue.py:43-45 | the stored candidate list becomes the flattened answer table, and one log-likelihood request is made per candidate, same context, same order |
| RuSuperGlue.DaNetQA.ProcessResults | lm_eval/tasks/rusuperglue.py:47-56 | the result is `Contributions` of the stored candidate list, the document and the scores: best pair by score (first on ties), label found by the group loop, errors in the Python's order |

## Left out

- Dataset loading (`training_docs`, `validation_docs`) comes from the base class and an external dataset library. Documents are given as values.
- The language model and the request factory `rf` are outside the model. Requests are a datatype, and the scores or generated strings come in as an input sequence. The greedy-continuation flag of a log-likelihood answer is dropped, just as `[0]` drops it.
- The debug `print` at `lm_eval/tasks/rusuperglue.py:55` is left out as I/O. Its read of `pred` is kept, because that read is where an unassigned prediction fails.
- The arithmetic of `mean`, `matthews_corrcoef` and `f1_score` is left out. That code is not part of this model. `aggregation` maps each key to a reducer name.
- Scores are reals, not floats. NaN is not modelled, and Python's `max` would behave differently with NaN scores.
- `str.format` receives its template already split into literal text and named fields. Parsing braces, conversions and format specs is not modelled.
- Field values are limited to str, bool and int. Other values a dataset could hold, such as floats, None or lists, are not modelled.
- `VERSION`, `DATASET_PATH`, `DATASET_NAME` and `should_decontaminate` are constants with no behaviour.
- Sharing one task object between documents evaluated concurrently is not modelled. Calls are sequential. Every `ConstructRequests` stores the same list, so interleaving could not change what `ProcessResults` reads.
