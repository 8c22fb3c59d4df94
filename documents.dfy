/** Benchmark documents as the dataset library hands them to a task: a mapping
    from field name to a string, boolean or integer value. Also the errors a
    task raises while reading one, and `str.format(**doc)`, with which both
    tasks build their prompts. */
module Documents {
  import opened PyStrings

  datatype Value = Str(s: string) | Bool(b: bool) | Int(i: int)

  type Doc = map<string, Value>

  /** What goes wrong while a document is turned into requests or its
      answers into metric contributions, named after the Python exception. */
  datatype Error =
    | MissingField(name: string)      // KeyError on `doc[name]`
    | WrongType(name: string)         // TypeError / AttributeError: field `name` is not a str
    | MissingAttribute(name: string)  // AttributeError on `self.name`
    | EmptySequence                   // ValueError: max() of an empty sequence
    | IndexOutOfRange                 // IndexError: results[0] of an empty list
    | UnboundPrediction               // UnboundLocalError: `pred` never assigned

  datatype Result<T> = Ok(value: T) | Err(error: Error)

  datatype Option<T> = None | Some(value: T)

  /** Python truth value of a field: empty strings, False and 0 are false. */
  predicate Truthy(v: Value)
  {
    match v
    case Str(s) => s != []
    case Bool(b) => b
    case Int(i) => i != 0
  }

  /** Python's `b == v` for a bool `b`. Since bool is a subclass of int,
      True equals 1 and False equals 0; no string equals a bool. */
  predicate EqualsBool(v: Value, b: bool)
  {
    match v
    case Str(_) => false
    case Bool(c) => c == b
    case Int(i) => i == (if b then 1 else 0)
  }

  /** `str(v)`, which `str.format` uses for a field with no format spec. */
  function Render(v: Value): (r: string)
    ensures v.Str? ==> r == v.s
    ensures v.Bool? ==> r == (if v.b then "True" else "False")
    ensures v.Int? ==> r == IntToDecimal(v.i)
  {
    match v
    case Str(s) => s
    case Bool(b) => if b then "True" else "False"
    case Int(i) => IntToDecimal(i)
  }

  /** `doc[name]` where the caller goes on to use the value as a str
      (concatenating it or calling `.strip()` on it). */
  function StrField(doc: Doc, name: string): (r: Result<string>)
    ensures r.Ok? <==> name in doc && doc[name].Str?
    ensures r.Ok? ==> r.value == doc[name].s
    ensures r == Err(MissingField(name)) <==> name !in doc
    ensures r.Err? ==> r.error in {MissingField(name), WrongType(name)}
  {
    if name !in doc then Err(MissingField(name))
    else if !doc[name].Str? then Err(WrongType(name))
    else Ok(doc[name].s)
  }

  /** A format string, already split into literal text and `{name}`
      replacement fields. */
  datatype Piece = Lit(text: string) | Field(name: string)

  type Template = seq<Piece>

  /** Every replacement field of `t` names a field of `doc`. */
  predicate FieldsPresent(t: Template, doc: Doc)
  {
    forall i :: 0 <= i < |t| && t[i].Field? ==> t[i].name in doc
  }

  /** `t.format(**doc)`: literal text is copied, each replacement field is
      replaced by `str` of the document's value, and the first field (left to
      right) that the document lacks raises KeyError. */
  function Format(t: Template, doc: Doc): (r: Result<string>)
    ensures r.Ok? <==> FieldsPresent(t, doc)
    ensures r.Err? ==>
      exists i :: 0 <= i < |t| && t[i].Field? && t[i].name !in doc && r.error == MissingField(t[i].name)
        && FieldsPresent(t[..i], doc)
  {
    if t == [] then Ok("")
    else if t[0].Field? && t[0].name !in doc then
      assert t[..0] == [];
      Err(MissingField(t[0].name))
    else
      var rest := Format(t[1..], doc);
      assert forall i :: 1 <= i < |t| ==> t[1..][i - 1] == t[i];
      if rest.Err? then
        ghost var i :| 0 <= i < |t[1..]| && t[1..][i].Field? && t[1..][i].name !in doc
          && rest.error == MissingField(t[1..][i].name) && FieldsPresent(t[1..][..i], doc);
        MissingFieldShifts(t, doc, i);
        Err(rest.error)
      else
        Ok(PieceText(t[0], doc) + rest.value)
  }

  /** What one piece contributes: literal text as is, a present field as
      `str` of its value. */
  function PieceText(p: Piece, doc: Doc): string
    requires p.Field? ==> p.name in doc
  {
    match p
    case Lit(s) => s
    case Field(f) => Render(doc[f])
  }

  /** One step of formatting a template whose fields are all present. */
  lemma {:induction false} FormatCons(t: Template, doc: Doc)
    requires t != [] && FieldsPresent(t, doc)
    ensures FieldsPresent(t[1..], doc) && (t[0].Field? ==> t[0].name in doc)
    ensures Format(t, doc) == Ok(PieceText(t[0], doc) + Format(t[1..], doc).value)
  {
    assert forall i :: 1 <= i < |t| ==> t[1..][i - 1] == t[i];
  }

  /** A missing field found in the tail of a template, after a head that
      raises nothing, is the first missing field of the whole template. */
  lemma {:induction false} MissingFieldShifts(t: Template, doc: Doc, i: nat)
    requires t != [] && (t[0].Field? ==> t[0].name in doc)
    requires i < |t[1..]| && FieldsPresent(t[1..][..i], doc)
    ensures t[i + 1] == t[1..][i] && FieldsPresent(t[..i + 1], doc)
  {
    assert t[..i + 1] == [t[0]] + t[1..][..i];
  }

  /** A template of literal text alone formats to that text. */
  lemma FormatLit(s: string, doc: Doc)
    ensures Format([Lit(s)], doc) == Ok(s)
  {
    assert [Lit(s)][1..] == [];
    assert s + "" == s;
  }

  /** A lone replacement field formats to `str` of the field's value. */
  lemma FormatField(f: string, doc: Doc)
    requires f in doc
    ensures Format([Field(f)], doc) == Ok(Render(doc[f]))
  {
    assert [Field(f)][1..] == [];
    assert Render(doc[f]) + "" == Render(doc[f]);
  }

  /** Formatting a concatenation of templates concatenates their outputs:
      `str.format` works piece by piece, left to right. */
  lemma {:induction false} FormatAppend(t1: Template, t2: Template, doc: Doc)
    requires FieldsPresent(t1, doc) && FieldsPresent(t2, doc)
    ensures Format(t1 + t2, doc) == Ok(Format(t1, doc).value + Format(t2, doc).value)
    decreases |t1|
  {
    if t1 == [] {
      assert t1 + t2 == t2;
      assert "" + Format(t2, doc).value == Format(t2, doc).value;
    } else {
      var t := t1 + t2;
      assert t[0] == t1[0] && t[1..] == t1[1..] + t2;
      FormatCons(t1, doc);
      FormatAppend(t1[1..], t2, doc);
      assert FieldsPresent(t, doc);
      FormatCons(t, doc);
      var head, a, b := PieceText(t1[0], doc), Format(t1[1..], doc).value, Format(t2, doc).value;
      assert head + (a + b) == (head + a) + b;
    }
  }

  /** Formatting reads nothing but the fields the template names: two
      documents that agree on those fields format alike. */
  lemma {:induction false} FormatReadsOnlyNamedFields(t: Template, d1: Doc, d2: Doc)
    requires forall i :: 0 <= i < |t| && t[i].Field? ==>
      (t[i].name in d1 <==> t[i].name in d2) && (t[i].name in d1 ==> d1[t[i].name] == d2[t[i].name])
    ensures Format(t, d1) == Format(t, d2)
    decreases |t|
  {
    if t != [] {
      assert forall i :: 1 <= i < |t| ==> t[1..][i - 1] == t[i];
      FormatReadsOnlyNamedFields(t[1..], d1, d2);
    }
  }
}
