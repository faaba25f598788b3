/** Checking the model's answer: strip a Markdown code fence, parse, then
    check the analysis schema field by field in a fixed order, reporting the
    first failure. */
module ResponseCheck {
  import opened PyText
  import opened JsonModel

  // ---------------------------------------------------------------------
  // Code fence

  const FenceOpen := "```json"
  const FenceClose := "```"

  /** Trim, drop a leading "```json" and then a trailing "```", trim again.
      Both the response check and the analyser do exactly this. */
  function StripCodeFence(text: string): (r: string)
    ensures IsStripped(r)
  {
    var t := Strip(text);
    var a := if StartsWith(t, FenceOpen) then t[|FenceOpen|..] else t;
    var b := if EndsWith(a, FenceClose) then a[..|a| - |FenceClose|] else a;
    Strip(b)
  }

  /** A body wrapped in a "```json" fence comes back exactly, trimmed. */
  lemma FencedBodyRecovered(body: string)
    ensures StripCodeFence(FenceOpen + body + FenceClose) == Strip(body)
  {
    var s := FenceOpen + body + FenceClose;
    assert s[0] == '`' && s[|s| - 1] == '`';
    StrippedIsFixedPoint(s);
    assert s[..|FenceOpen|] == FenceOpen;
    var a := s[|FenceOpen|..];
    assert a == body + FenceClose;
    assert a[|a| - |FenceClose|..] == FenceClose;
    assert a[..|a| - |FenceClose|] == body;
  }

  /** Text that neither starts with "```json" nor ends with "```" once
      trimmed is only trimmed: the markers are removed at the ends only. */
  lemma UnfencedTextOnlyTrimmed(text: string)
    requires !StartsWith(Strip(text), FenceOpen) && !EndsWith(Strip(text), FenceClose)
    ensures StripCodeFence(text) == Strip(text)
  {
    StrippedIsFixedPoint(Strip(text));
  }

  /** A fence opened with a bare "```" (no language tag) keeps its opening
      marker, so the text handed to the parser still starts with "```". */
  lemma BareFenceKept(body: string)
    requires IsStripped(body) && body != []
    ensures StartsWith(StripCodeFence("```\n" + body + "\n```"), "```")
  {
    var s := "```\n" + body + "\n```";
    assert s[0] == '`' && s[|s| - 1] == '`';
    StrippedIsFixedPoint(s);
    assert !StartsWith(s, FenceOpen) by { assert s[3] == '\n'; }
    assert s[|s| - 3..] == FenceClose;
    var a := s[..|s| - 3];
    assert a[..3] == "```";
    StripKeepsSolidPrefix(a, 3);
  }

  // ---------------------------------------------------------------------
  // Schema

  const RequiredKeys: seq<string> :=
    ["overallScore", "clarity", "structure", "keywords", "improvements", "strengths", "summary"]
  const ObjectSections: seq<string> := ["clarity", "structure"]
  const SectionKeys: seq<string> := ["score", "feedback", "suggestions"]
  const KeywordsKeys: seq<string> := ["score", "missing", "present", "suggestions"]

  /** A field is a top-level key or a `section.key` pair. */
  datatype Field = Top(key: string) | Nested(section: string, key: string)

  function FieldName(f: Field): string {
    match f
    case Top(k) => k
    case Nested(s, k) => s + "." + k
  }

  const ScoreFields: seq<Field> :=
    [Top("overallScore"), Nested("clarity", "score"), Nested("structure", "score"), Nested("keywords", "score")]
  const ArrayFields: seq<Field> :=
    [ Top("improvements"), Top("strengths"), Nested("clarity", "suggestions"), Nested("structure", "suggestions"),
      Nested("keywords", "suggestions"), Nested("keywords", "missing"), Nested("keywords", "present") ]

  /** The reasons the response is refused, each with its message. */
  datatype ResponseError =
    | MissingKey(key: string)
    | NotAnObject(section: string)
    | MissingSubKey(subKey: string, section: string)
    | BadScore(field: string)
    | NotAList(field: string)
    | InvalidJson(detail: string)
    | ValidationFailure(exception: PyException)

  function Message(e: ResponseError): string {
    match e
    case MissingKey(k) => "Chave obrigatória '" + k + "' não encontrada"
    case NotAnObject(s) => "Seção '" + s + "' deve ser um objeto"
    case MissingSubKey(k, s) => "Chave '" + k + "' não encontrada em '" + s + "'"
    case BadScore(f) => "Campo '" + f + "' deve ser um número entre 0 e 100"
    case NotAList(f) => "Campo '" + f + "' deve ser uma lista"
    case InvalidJson(d) => "Erro ao decodificar JSON: " + d
    case ValidationFailure(x) => "Erro na validação: " + ExceptionText(x)
  }

  datatype Validation = Valid(data: Json) | Invalid(error: ResponseError)

  /** How `key in data` can fail: the key is absent, or the test raised. */
  datatype KeyFailure = Absent(key: string) | TestRaised(exception: PyException)

  /** The first key of `keys` for which `key in data` is false or raises. */
  function FirstKeyFailure(data: Json, keys: seq<string>): Option<KeyFailure> {
    if keys == [] then None
    else
      match PyContains(data, keys[0])
      case Raised(m) => Some(TestRaised(m))
      case Ok(present) => if !present then Some(Absent(keys[0])) else FirstKeyFailure(data, keys[1..])
  }

  /** The first of `keys` missing from a dict's members. */
  function FirstMissingSubKey(ms: seq<Member>, keys: seq<string>, section: string): Option<ResponseError> {
    if keys == [] then None
    else if !HasKey(ms, keys[0]) then Some(MissingSubKey(keys[0], section))
    else FirstMissingSubKey(ms, keys[1..], section)
  }

  /** `data[section]` must be a dict holding every key of `subKeys`. */
  function CheckSection(data: Json, section: string, subKeys: seq<string>): Option<ResponseError> {
    match PyGetItem(data, section)
    case Raised(m) => Some(ValidationFailure(m))
    case Ok(v) =>
      if !v.JObject? then Some(NotAnObject(section))
      else FirstMissingSubKey(v.members, subKeys, section)
  }

  function CheckSections(data: Json, sections: seq<string>, subKeys: seq<string>): Option<ResponseError> {
    if sections == [] then None
    else
      var e := CheckSection(data, sections[0], subKeys);
      if e.Some? then e else CheckSections(data, sections[1..], subKeys)
  }

  /** `data[field]` or `data[section][key]`, raising as Python does. */
  function FieldValue(data: Json, f: Field): PyOutcome<Json> {
    match f
    case Top(k) => PyGetItem(data, k)
    case Nested(s, k) =>
      match PyGetItem(data, s)
      case Raised(m) => Raised(m)
      case Ok(v) => PyGetItem(v, k)
  }

  /** `isinstance(v, (int, float)) and 0 <= v <= 100`. */
  predicate InScoreRange(v: Json) {
    IsPyNumber(v) && 0.0 <= NumericValue(v) <= 100.0
  }

  function CheckScores(data: Json, fields: seq<Field>): Option<ResponseError> {
    if fields == [] then None
    else
      match FieldValue(data, fields[0])
      case Raised(m) => Some(ValidationFailure(m))
      case Ok(v) => if !InScoreRange(v) then Some(BadScore(FieldName(fields[0]))) else CheckScores(data, fields[1..])
  }

  function CheckArrays(data: Json, fields: seq<Field>): Option<ResponseError> {
    if fields == [] then None
    else
      match FieldValue(data, fields[0])
      case Raised(m) => Some(ValidationFailure(m))
      case Ok(v) => if !v.JArray? then Some(NotAList(FieldName(fields[0]))) else CheckArrays(data, fields[1..])
  }

  /** The top-level key test as the response check reports it. */
  function KeysError(data: Json): Option<ResponseError> {
    match FirstKeyFailure(data, RequiredKeys)
    case None => None
    case Some(Absent(k)) => Some(MissingKey(k))
    case Some(TestRaised(m)) => Some(ValidationFailure(m))
  }

  /** The first failing check, in the order `validate_analysis_response` runs them. */
  function FirstError(data: Json): Option<ResponseError> {
    var keys := KeysError(data);
    if keys.Some? then keys
    else
      var sections := CheckSections(data, ObjectSections, SectionKeys);
      if sections.Some? then sections
      else
        var keywords := CheckSection(data, "keywords", KeywordsKeys);
        if keywords.Some? then keywords
        else
          var scores := CheckScores(data, ScoreFields);
          if scores.Some? then scores else CheckArrays(data, ArrayFields)
  }

  /** The schema check on a parsed value. */
  function ValidateParsed(data: Json): (r: Validation)
    ensures r.Valid? ==> r.data == data
  {
    var e := FirstError(data);
    if e.Some? then Invalid(e.value) else Valid(data)
  }

  /** The whole check on the raw text, with the parser as a parameter. */
  function ValidateResponse(responseText: string, decode: string -> Decoded): Validation {
    match decode(StripCodeFence(responseText))
    case DecodeError(m) => Invalid(InvalidJson(m))
    case Parsed(data) => ValidateParsed(data)
  }

  /** The Python triple `(is_valid, parsed_data, error_message)`. */
  function AsTriple(v: Validation): (bool, Option<Json>, string) {
    match v
    case Valid(d) => (true, Some(d), "")
    case Invalid(e) => (false, None, Message(e))
  }

  // ---------------------------------------------------------------------
  // The schema stated declaratively

  /** `data[field]` when it exists without raising. */
  function Get(data: Json, f: Field): Option<Json> {
    match FieldValue(data, f)
    case Ok(v) => Some(v)
    case Raised(_) => None
  }

  predicate IsObjectWithKeys(v: Option<Json>, keys: seq<string>) {
    v.Some? && v.value.JObject? && forall k | k in keys :: HasKey(v.value.members, k)
  }

  /** The shape the analysis must have: a dict with the seven keys, three
      sections that are dicts with their keys, four numeric scores in
      [0, 100] and seven lists. */
  predicate WellFormed(data: Json) {
    && data.JObject?
    && (forall k | k in RequiredKeys :: HasKey(data.members, k))
    && (forall s | s in ObjectSections :: IsObjectWithKeys(Get(data, Top(s)), SectionKeys))
    && IsObjectWithKeys(Get(data, Top("keywords")), KeywordsKeys)
    && (forall f | f in ScoreFields :: Get(data, f).Some? && InScoreRange(Get(data, f).value))
    && (forall f | f in ArrayFields :: Get(data, f).Some? && Get(data, f).value.JArray?)
  }

  /** The check accepts exactly the well-formed values and then returns
      the parsed value itself. */
  lemma ValidateParsedCorrect(data: Json)
    ensures ValidateParsed(data).Valid? <==> WellFormed(data)
    ensures ValidateParsed(data).Valid? ==> ValidateParsed(data) == Valid(data)
  {
    if data.JObject? {
      KeysErrorIff(data);
      if KeysError(data).None? {
        SectionsIff(data, ObjectSections, SectionKeys);
        SectionIff(data, "keywords", KeywordsKeys);
        if CheckSections(data, ObjectSections, SectionKeys).None? && CheckSection(data, "keywords", KeywordsKeys).None? {
          ScoresIff(data, ScoreFields);
          ArraysIff(data, ArrayFields);
        }
      }
    } else {
      NonObjectRejected(data);
    }
  }

  /** A value that is not a dict never passes: either the key test fails
      or raises, or reading `data['clarity']` raises. */
  lemma NonObjectRejected(data: Json)
    requires !data.JObject?
    ensures FirstError(data).Some?
  {
    if KeysError(data).None? {
      assert PyGetItem(data, "clarity").Raised?;
    }
  }

  lemma KeysErrorIff(data: Json)
    requires data.JObject?
    ensures KeysError(data).None? <==> forall k | k in RequiredKeys :: HasKey(data.members, k)
  {
    KeysPresentIff(data, RequiredKeys);
  }

  lemma {:induction false} KeysPresentIff(data: Json, keys: seq<string>)
    requires data.JObject?
    ensures FirstKeyFailure(data, keys).None? <==> forall k | k in keys :: HasKey(data.members, k)
    decreases keys
  {
    if keys != [] {
      KeysPresentIff(data, keys[1..]);
      assert forall k | k in keys :: k == keys[0] || k in keys[1..];
    }
  }

  lemma {:induction false} SubKeysPresentIff(ms: seq<Member>, keys: seq<string>, section: string)
    ensures FirstMissingSubKey(ms, keys, section).None? <==> forall k | k in keys :: HasKey(ms, k)
    decreases keys
  {
    if keys != [] {
      SubKeysPresentIff(ms, keys[1..], section);
      assert forall k | k in keys :: k == keys[0] || k in keys[1..];
    }
  }

  lemma SectionIff(data: Json, section: string, keys: seq<string>)
    requires data.JObject?
    ensures CheckSection(data, section, keys).None? <==> IsObjectWithKeys(Get(data, Top(section)), keys)
  {
    var g := PyGetItem(data, section);
    if g.Ok? && g.value.JObject? {
      SubKeysPresentIff(g.value.members, keys, section);
    }
  }

  lemma {:induction false} SectionsIff(data: Json, sections: seq<string>, keys: seq<string>)
    requires data.JObject?
    ensures CheckSections(data, sections, keys).None? <==>
      forall s | s in sections :: IsObjectWithKeys(Get(data, Top(s)), keys)
    decreases sections
  {
    if sections != [] {
      SectionIff(data, sections[0], keys);
      SectionsIff(data, sections[1..], keys);
      assert forall s | s in sections :: s == sections[0] || s in sections[1..];
    }
  }

  lemma {:induction false} ScoresIff(data: Json, fields: seq<Field>)
    ensures CheckScores(data, fields).None? <==>
      forall f | f in fields :: Get(data, f).Some? && InScoreRange(Get(data, f).value)
    decreases fields
  {
    if fields != [] {
      ScoresIff(data, fields[1..]);
      var g := Get(data, fields[0]);
      assert CheckScores(data, fields).None? <==> g.Some? && InScoreRange(g.value) && CheckScores(data, fields[1..]).None?;
      assert forall f | f in fields :: f == fields[0] || f in fields[1..];
    }
  }

  lemma {:induction false} ArraysIff(data: Json, fields: seq<Field>)
    ensures CheckArrays(data, fields).None? <==>
      forall f | f in fields :: Get(data, f).Some? && Get(data, f).value.JArray?
    decreases fields
  {
    if fields != [] {
      ArraysIff(data, fields[1..]);
      var g := Get(data, fields[0]);
      assert CheckArrays(data, fields).None? <==> g.Some? && g.value.JArray? && CheckArrays(data, fields[1..]).None?;
      assert forall f | f in fields :: f == fields[0] || f in fields[1..];
    }
  }

  // ---------------------------------------------------------------------
  // First failure

  /** The key test fails on `k` exactly when `k` is the first key, in list
      order, whose test does not come out true, and its test comes out
      false rather than raising. */
  lemma {:induction false} FirstAbsentKeyIff(data: Json, keys: seq<string>, k: string)
    ensures FirstKeyFailure(data, keys) == Some(Absent(k)) <==>
      exists i | 0 <= i < |keys| ::
        && keys[i] == k && PyContains(data, k) == Ok(false)
        && forall j | 0 <= j < i :: PyContains(data, keys[j]) == Ok(true)
    decreases keys
  {
    if keys != [] {
      FirstAbsentKeyIff(data, keys[1..], k);
      var c := PyContains(data, keys[0]);
      if c == Ok(true) {
        if FirstKeyFailure(data, keys) == Some(Absent(k)) {
          var i :| 0 <= i < |keys[1..]| && keys[1..][i] == k && PyContains(data, k) == Ok(false)
            && forall j | 0 <= j < i :: PyContains(data, keys[1..][j]) == Ok(true);
          assert keys[i + 1] == k;
          assert forall j | 0 <= j < i + 1 :: PyContains(data, keys[j]) == Ok(true) by {
            forall j | 0 <= j < i + 1 ensures PyContains(data, keys[j]) == Ok(true) {
              if j > 0 { assert keys[j] == keys[1..][j - 1]; }
            }
          }
        }
        if exists i | 0 <= i < |keys| :: && keys[i] == k && PyContains(data, k) == Ok(false)
            && forall j | 0 <= j < i :: PyContains(data, keys[j]) == Ok(true) {
          var i :| 0 <= i < |keys| && keys[i] == k && PyContains(data, k) == Ok(false)
            && forall j | 0 <= j < i :: PyContains(data, keys[j]) == Ok(true);
          assert i != 0;
          assert keys[1..][i - 1] == k;
          assert forall j | 0 <= j < i - 1 :: PyContains(data, keys[1..][j]) == Ok(true) by {
            forall j | 0 <= j < i - 1 ensures PyContains(data, keys[1..][j]) == Ok(true) {
              assert keys[1..][j] == keys[j + 1];
            }
          }
        }
      } else {
        if exists i | 0 <= i < |keys| :: && keys[i] == k && PyContains(data, k) == Ok(false)
            && forall j | 0 <= j < i :: PyContains(data, keys[j]) == Ok(true) {
          var i :| 0 <= i < |keys| && keys[i] == k && PyContains(data, k) == Ok(false)
            && forall j | 0 <= j < i :: PyContains(data, keys[j]) == Ok(true);
          assert i == 0;
        }
      }
    }
  }

  /** The response is refused for a missing key `k` exactly when `k` is
      the first required key, in the fixed order, that `data` lacks. */
  lemma MissingKeyIsFirst(data: Json, k: string)
    requires data.JObject?
    ensures ValidateParsed(data) == Invalid(MissingKey(k)) <==>
      exists i | 0 <= i < |RequiredKeys| ::
        && RequiredKeys[i] == k && !HasKey(data.members, k)
        && forall j | 0 <= j < i :: HasKey(data.members, RequiredKeys[j])
  {
    FirstAbsentKeyIff(data, RequiredKeys, k);
    SectionsNoMissingKey(data, ObjectSections, SectionKeys);
    SectionNoMissingKey(data, "keywords", KeywordsKeys);
    ScoresNoMissingKey(data, ScoreFields);
    ArraysNoMissingKey(data, ArrayFields);
  }

  lemma {:induction false} MissingSubKeyShape(ms: seq<Member>, keys: seq<string>, section: string)
    ensures FirstMissingSubKey(ms, keys, section).Some? ==> FirstMissingSubKey(ms, keys, section).value.MissingSubKey?
    decreases keys
  {
    if keys != [] && HasKey(ms, keys[0]) {
      MissingSubKeyShape(ms, keys[1..], section);
    }
  }

  lemma SectionNoMissingKey(data: Json, section: string, keys: seq<string>)
    ensures CheckSection(data, section, keys).Some? ==> !CheckSection(data, section, keys).value.MissingKey?
  {
    var g := PyGetItem(data, section);
    if g.Ok? && g.value.JObject? {
      MissingSubKeyShape(g.value.members, keys, section);
    }
  }

  lemma {:induction false} SectionsNoMissingKey(data: Json, sections: seq<string>, keys: seq<string>)
    ensures CheckSections(data, sections, keys).Some? ==> !CheckSections(data, sections, keys).value.MissingKey?
    decreases sections
  {
    if sections != [] {
      SectionNoMissingKey(data, sections[0], keys);
      SectionsNoMissingKey(data, sections[1..], keys);
    }
  }

  lemma {:induction false} ScoresNoMissingKey(data: Json, fields: seq<Field>)
    ensures CheckScores(data, fields).Some? ==> !CheckScores(data, fields).value.MissingKey?
    decreases fields
  {
    if fields != [] {
      ScoresNoMissingKey(data, fields[1..]);
    }
  }

  lemma {:induction false} ArraysNoMissingKey(data: Json, fields: seq<Field>)
    ensures CheckArrays(data, fields).Some? ==> !CheckArrays(data, fields).value.MissingKey?
    decreases fields
  {
    if fields != [] {
      ArraysNoMissingKey(data, fields[1..]);
    }
  }

  // ---------------------------------------------------------------------
  // Particular answers

  /** A bare number is refused by the key test itself, which raises. */
  lemma ScalarDocumentRejected(n: int)
    ensures ValidateParsed(JInt(n)) == Invalid(ValidationFailure(TypeError("argument of type 'int' is not iterable")))
  {
    var x := TypeError("argument of type 'int' is not iterable");
    assert "argument of type '" + "int" + "' is not iterable" == x.message;
    assert PyContains(JInt(n), RequiredKeys[0]) == Raised(x);
    assert FirstKeyFailure(JInt(n), RequiredKeys) == Some(TestRaised(x));
  }

  /** A list of the seven key names passes the key test (list membership)
      and is refused when `data['clarity']` raises. */
  lemma KeyNameListRejected()
    ensures var data := JArray(seq(|RequiredKeys|, i requires 0 <= i < |RequiredKeys| => JString(RequiredKeys[i])));
      ValidateParsed(data) == Invalid(ValidationFailure(TypeError("list indices must be integers or slices, not str")))
  {
    var data := JArray(seq(|RequiredKeys|, i requires 0 <= i < |RequiredKeys| => JString(RequiredKeys[i])));
    forall k | k in RequiredKeys ensures JString(k) in data.items {
      var i :| 0 <= i < |RequiredKeys| && RequiredKeys[i] == k;
      assert data.items[i] == JString(k);
    }
    AllContainedPass(data, RequiredKeys);
  }

  lemma {:induction false} AllContainedPass(data: Json, keys: seq<string>)
    requires data.JArray?
    requires forall k | k in keys :: JString(k) in data.items
    ensures FirstKeyFailure(data, keys).None?
    decreases keys
  {
    if keys != [] {
      assert keys[0] in keys;
      AllContainedPass(data, keys[1..]);
    }
  }

  /** `True` and `False` pass the score test, as the numbers 1 and 0; a
      string never does, whatever it spells. */
  lemma BooleanScoreAccepted(b: bool, text: string)
    ensures InScoreRange(JBool(b))
    ensures !InScoreRange(JString(text))
  {
  }

  /** Once the structure checks pass, the response is refused for the
      first score field, in the fixed order, that is not a number in
      [0, 100], and under that field's dotted name. */
  lemma FirstBadScoreReported(data: Json, i: nat)
    requires KeysError(data).None? && CheckSections(data, ObjectSections, SectionKeys).None?
    requires CheckSection(data, "keywords", KeywordsKeys).None?
    requires i < |ScoreFields|
    requires forall j | 0 <= j < i :: Get(data, ScoreFields[j]).Some? && InScoreRange(Get(data, ScoreFields[j]).value)
    requires Get(data, ScoreFields[i]).Some? && !InScoreRange(Get(data, ScoreFields[i]).value)
    ensures ValidateParsed(data) == Invalid(BadScore(FieldName(ScoreFields[i])))
  {
    FirstFailingField(data, ScoreFields, i);
  }

  lemma {:induction false} FirstFailingField(data: Json, fields: seq<Field>, i: nat)
    requires i < |fields|
    requires forall j | 0 <= j < i :: Get(data, fields[j]).Some? && InScoreRange(Get(data, fields[j]).value)
    requires Get(data, fields[i]).Some? && !InScoreRange(Get(data, fields[i]).value)
    ensures CheckScores(data, fields) == Some(BadScore(FieldName(fields[i])))
    decreases i
  {
    if i > 0 {
      assert Get(data, fields[0]).Some?;
      assert forall j | 0 <= j < i - 1 :: fields[1..][j] == fields[j + 1];
      FirstFailingField(data, fields[1..], i - 1);
    }
  }

  /** The first sub-key, in list order, that a dict lacks is the one
      reported. */
  lemma {:induction false} FirstMissingSubKeyAt(ms: seq<Member>, keys: seq<string>, section: string, m: nat)
    requires m < |keys| && !HasKey(ms, keys[m])
    requires forall j | 0 <= j < m :: HasKey(ms, keys[j])
    ensures FirstMissingSubKey(ms, keys, section) == Some(MissingSubKey(keys[m], section))
    decreases m
  {
    if m > 0 {
      assert HasKey(ms, keys[0]);
      assert forall j | 0 <= j < m - 1 :: keys[1..][j] == keys[j + 1];
      FirstMissingSubKeyAt(ms, keys[1..], section, m - 1);
    }
  }

  /** Once the key test passes, the first of `clarity` and `structure`
      that is not a dict holding its sub-keys decides the answer. */
  lemma FirstBadSectionDecides(data: Json, i: nat)
    requires KeysError(data).None? && i < |ObjectSections|
    requires forall j | 0 <= j < i :: IsObjectWithKeys(Get(data, Top(ObjectSections[j])), SectionKeys)
    requires CheckSection(data, ObjectSections[i], SectionKeys).Some?
    ensures ValidateParsed(data) == Invalid(CheckSection(data, ObjectSections[i], SectionKeys).value)
  {
    var e := CheckSection(data, ObjectSections[i], SectionKeys);
    if i == 1 {
      assert IsObjectWithKeys(Get(data, Top(ObjectSections[0])), SectionKeys);
      SectionIff(data, ObjectSections[0], SectionKeys);
      assert ObjectSections[1..][0] == ObjectSections[1];
      assert CheckSections(data, ObjectSections[1..], SectionKeys) == e;
    }
    assert CheckSections(data, ObjectSections, SectionKeys) == e;
  }

  /** A section that is present but not a dict is reported by name. */
  lemma NonObjectSectionReported(data: Json, i: nat)
    requires KeysError(data).None? && i < |ObjectSections|
    requires forall j | 0 <= j < i :: IsObjectWithKeys(Get(data, Top(ObjectSections[j])), SectionKeys)
    requires Get(data, Top(ObjectSections[i])).Some? && !Get(data, Top(ObjectSections[i])).value.JObject?
    ensures ValidateParsed(data) == Invalid(NotAnObject(ObjectSections[i]))
  {
    FirstBadSectionDecides(data, i);
  }

  /** In the first deficient section, the first sub-key it lacks is
      reported, with the section's name. */
  lemma MissingSubKeyReported(data: Json, i: nat, m: nat)
    requires KeysError(data).None? && i < |ObjectSections| && m < |SectionKeys|
    requires forall j | 0 <= j < i :: IsObjectWithKeys(Get(data, Top(ObjectSections[j])), SectionKeys)
    requires Get(data, Top(ObjectSections[i])).Some? && Get(data, Top(ObjectSections[i])).value.JObject?
    requires !HasKey(Get(data, Top(ObjectSections[i])).value.members, SectionKeys[m])
    requires forall j | 0 <= j < m :: HasKey(Get(data, Top(ObjectSections[i])).value.members, SectionKeys[j])
    ensures ValidateParsed(data) == Invalid(MissingSubKey(SectionKeys[m], ObjectSections[i]))
  {
    FirstMissingSubKeyAt(Get(data, Top(ObjectSections[i])).value.members, SectionKeys, ObjectSections[i], m);
    FirstBadSectionDecides(data, i);
  }

  /** Once both sections pass, the first sub-key `keywords` lacks is
      reported. */
  lemma MissingKeywordsKeyReported(data: Json, m: nat)
    requires KeysError(data).None? && CheckSections(data, ObjectSections, SectionKeys).None?
    requires m < |KeywordsKeys|
    requires Get(data, Top("keywords")).Some? && Get(data, Top("keywords")).value.JObject?
    requires !HasKey(Get(data, Top("keywords")).value.members, KeywordsKeys[m])
    requires forall j | 0 <= j < m :: HasKey(Get(data, Top("keywords")).value.members, KeywordsKeys[j])
    ensures ValidateParsed(data) == Invalid(MissingSubKey(KeywordsKeys[m], "keywords"))
  {
    FirstMissingSubKeyAt(Get(data, Top("keywords")).value.members, KeywordsKeys, "keywords", m);
  }

  /** Once every earlier check passes, the first array field, in the fixed
      order, that is not a list is reported under its dotted name. */
  lemma FirstNonListReported(data: Json, i: nat)
    requires KeysError(data).None? && CheckSections(data, ObjectSections, SectionKeys).None?
    requires CheckSection(data, "keywords", KeywordsKeys).None? && CheckScores(data, ScoreFields).None?
    requires i < |ArrayFields|
    requires forall j | 0 <= j < i :: Get(data, ArrayFields[j]).Some? && Get(data, ArrayFields[j]).value.JArray?
    requires Get(data, ArrayFields[i]).Some? && !Get(data, ArrayFields[i]).value.JArray?
    ensures ValidateParsed(data) == Invalid(NotAList(FieldName(ArrayFields[i])))
  {
    FirstNonListField(data, ArrayFields, i);
  }

  lemma {:induction false} FirstNonListField(data: Json, fields: seq<Field>, i: nat)
    requires i < |fields|
    requires forall j | 0 <= j < i :: Get(data, fields[j]).Some? && Get(data, fields[j]).value.JArray?
    requires Get(data, fields[i]).Some? && !Get(data, fields[i]).value.JArray?
    ensures CheckArrays(data, fields) == Some(NotAList(FieldName(fields[i])))
    decreases i
  {
    if i > 0 {
      assert Get(data, fields[0]).Some?;
      assert forall j | 0 <= j < i - 1 :: fields[1..][j] == fields[j + 1];
      FirstNonListField(data, fields[1..], i - 1);
    }
  }

  // ---------------------------------------------------------------------
  // `validate_analysis_response` as it runs

  /** Strips the fence, parses, then runs the checks stage by stage,
      returning at the first failure; the parser is a parameter. */
  method ValidateAnalysisResponse(responseText: string, decode: string -> Decoded)
    returns (isValid: bool, parsedData: Option<Json>, errorMessage: string)
    ensures (isValid, parsedData, errorMessage) == AsTriple(ValidateResponse(responseText, decode))
    ensures isValid <==> parsedData.Some?
    ensures isValid ==> errorMessage == "" && WellFormed(parsedData.value)
  {
    var cleanText := CleanFence(responseText);
    var decoded := decode(cleanText);
    if decoded.DecodeError? {
      return false, None, Message(InvalidJson(decoded.message));
    }
    var data := decoded.value;
    assert ValidateResponse(responseText, decode) == ValidateParsed(data);
    var e := FirstErrorLoop(data);
    if e.Some? {
      assert ValidateParsed(data) == Invalid(e.value);
      return false, None, Message(e.value);
    }
    ValidateParsedCorrect(data);
    return true, Some(data), "";
  }

  /** The fence strip as `validate_analysis_response` writes it, reassigning the text. */
  method CleanFence(responseText: string) returns (cleanText: string)
    ensures cleanText == StripCodeFence(responseText)
  {
    cleanText := Strip(responseText);
    if StartsWith(cleanText, FenceOpen) {
      cleanText := cleanText[7..];
    }
    if EndsWith(cleanText, FenceClose) {
      cleanText := cleanText[..|cleanText| - 3];
    }
    cleanText := Strip(cleanText);
  }

  /** The schema checks on the parsed value, stage by stage. */
  method FirstErrorLoop(data: Json) returns (e: Option<ResponseError>)
    ensures e == FirstError(data)
  {
    e := CheckKeysLoop(data);
    if e.Some? {
      return;
    }
    for i := 0 to |ObjectSections|
      invariant CheckSections(data, ObjectSections, SectionKeys) == CheckSections(data, ObjectSections[i..], SectionKeys)
    {
      assert ObjectSections[i..][1..] == ObjectSections[i + 1..];
      e := CheckSectionLoop(data, ObjectSections[i], SectionKeys);
      if e.Some? {
        return;
      }
    }
    e := CheckSectionLoop(data, "keywords", KeywordsKeys);
    if e.Some? {
      return;
    }
    e := CheckScoresLoop(data);
    if e.Some? {
      return;
    }
    e := CheckArraysLoop(data);
  }

  /** `for key in required_keys: if key not in data: return …` */
  method CheckKeysLoop(data: Json) returns (e: Option<ResponseError>)
    ensures e == KeysError(data)
  {
    for i := 0 to |RequiredKeys|
      invariant FirstKeyFailure(data, RequiredKeys) == FirstKeyFailure(data, RequiredKeys[i..])
    {
      assert RequiredKeys[i..][1..] == RequiredKeys[i + 1..];
      var test := PyContains(data, RequiredKeys[i]);
      if test.Raised? {
        return Some(ValidationFailure(test.exception));
      }
      if !test.value {
        return Some(MissingKey(RequiredKeys[i]));
      }
    }
    return None;
  }

  /** One section: read it, require a dict, then test its keys in order. */
  method CheckSectionLoop(data: Json, section: string, subKeys: seq<string>) returns (e: Option<ResponseError>)
    ensures e == CheckSection(data, section, subKeys)
  {
    var value := PyGetItem(data, section);
    if value.Raised? {
      return Some(ValidationFailure(value.exception));
    }
    if !value.value.JObject? {
      return Some(NotAnObject(section));
    }
    var ms := value.value.members;
    for i := 0 to |subKeys|
      invariant FirstMissingSubKey(ms, subKeys, section) == FirstMissingSubKey(ms, subKeys[i..], section)
    {
      assert subKeys[i..][1..] == subKeys[i + 1..];
      if !HasKey(ms, subKeys[i]) {
        return Some(MissingSubKey(subKeys[i], section));
      }
    }
    return None;
  }

  /** The four scores, each a number in [0, 100]. */
  method CheckScoresLoop(data: Json) returns (e: Option<ResponseError>)
    ensures e == CheckScores(data, ScoreFields)
  {
    for i := 0 to |ScoreFields|
      invariant CheckScores(data, ScoreFields) == CheckScores(data, ScoreFields[i..])
    {
      assert ScoreFields[i..][1..] == ScoreFields[i + 1..];
      var field := ScoreFields[i];
      var value := FieldValue(data, field);
      if value.Raised? {
        return Some(ValidationFailure(value.exception));
      }
      if !IsPyNumber(value.value) || !(0.0 <= NumericValue(value.value) <= 100.0) {
        return Some(BadScore(FieldName(field)));
      }
    }
    return None;
  }

  /** The seven list fields. */
  method CheckArraysLoop(data: Json) returns (e: Option<ResponseError>)
    ensures e == CheckArrays(data, ArrayFields)
  {
    for i := 0 to |ArrayFields|
      invariant CheckArrays(data, ArrayFields) == CheckArrays(data, ArrayFields[i..])
    {
      assert ArrayFields[i..][1..] == ArrayFields[i + 1..];
      var field := ArrayFields[i];
      var value := FieldValue(data, field);
      if value.Raised? {
        return Some(ValidationFailure(value.exception));
      }
      if !value.value.JArray? {
        return Some(NotAList(FieldName(field)));
      }
    }
    return None;
  }
}
