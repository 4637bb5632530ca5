/**
 * The project summary (backend/src/models/ProjectSummary.ts): four independently
 * nullable fields, the empty value, the schema that validates a parsed JSON payload,
 * and the `YYYY-MM-DD` date check.
 */
module ProjectSummary {
  import opened Wrappers
  import opened Text

  /** Budget is a JavaScript number; the model keeps its integer values only. */
  datatype Summary = Summary(
    title: Option<string>,
    startDate: Option<string>,
    endDate: Option<string>,
    budget: Option<int>)

  /** The four fields, in the order the pipeline always lists them. */
  datatype Field = Title | StartDate | EndDate | Budget

  const AllFields: set<Field> := {Title, StartDate, EndDate, Budget}

  /** `createEmptyProjectSummary`: every field null. */
  function CreateEmptyProjectSummary(): (s: Summary)
    ensures s.title.None? && s.startDate.None? && s.endDate.None? && s.budget.None?
  {
    Summary(None, None, None, None)
  }

  /** The set of non-null fields of `s`. */
  function FilledFields(s: Summary): (fs: set<Field>)
    ensures fs <= AllFields
  {
    (if s.title.Some? then {Title} else {})
    + (if s.startDate.Some? then {StartDate} else {})
    + (if s.endDate.Some? then {EndDate} else {})
    + (if s.budget.Some? then {Budget} else {})
  }

  /** JavaScript truthiness of a nullable string: non-null and non-empty. */
  predicate TextPresent(o: Option<string>) {
    o.Some? && o.value != ""
  }

  /** JavaScript truthiness of a nullable number: non-null and non-zero. */
  predicate AmountPresent(o: Option<int>) {
    o.Some? && o.value != 0
  }

  /** Whether field `f` of `s` is truthy in JavaScript. */
  predicate Present(s: Summary, f: Field) {
    match f
    case Title => TextPresent(s.title)
    case StartDate => TextPresent(s.startDate)
    case EndDate => TextPresent(s.endDate)
    case Budget => AmountPresent(s.budget)
  }

  lemma AllFieldsCount()
    ensures |AllFields| == 4
  {
    assert AllFields == {Title} + {StartDate} + {EndDate} + {Budget};
  }

  /**
   * The JavaScript values `JSON.parse` can produce, restricted to integer numbers.
   * `JNaN` is the number NaN, which only the budget coercion can create.
   */
  datatype JValue =
    | JNull
    | JBool(b: bool)
    | JNum(n: int)
    | JNaN
    | JStr(s: string)
    | JArr(items: seq<JValue>)
    | JObj(fields: map<string, JValue>)

  /** `z.string().nullable()` applied to a property (an absent key is `undefined`). */
  function NullableString(fields: map<string, JValue>, key: string): (r: Option<Option<string>>)
    ensures r.Some? <==> key in fields && (fields[key].JNull? || fields[key].JStr?)
  {
    if key !in fields then None
    else match fields[key]
      case JNull => Some(None)
      case JStr(s) => Some(Some(s))
      case _ => None
  }

  /** `z.number().nullable()` applied to a property; NaN is refused. */
  function NullableNumber(fields: map<string, JValue>, key: string): (r: Option<Option<int>>)
    ensures r.Some? <==> key in fields && (fields[key].JNull? || fields[key].JNum?)
  {
    if key !in fields then None
    else match fields[key]
      case JNull => Some(None)
      case JNum(n) => Some(Some(n))
      case _ => None
  }

  /**
   * `ProjectSummarySchema.parse`: an object whose four properties are each null or of
   * the declared type; unknown properties are dropped; anything else is refused
   * (`None` stands for the thrown validation error).
   */
  function SchemaParse(v: JValue): (r: Option<Summary>)
    ensures r.Some? ==> v.JObj?
    ensures r.Some? ==> "budget" in v.fields && !v.fields["budget"].JStr? && !v.fields["budget"].JNaN?
  {
    match v
    case JObj(f) =>
      var title := NullableString(f, "title");
      var start := NullableString(f, "start_date");
      var end := NullableString(f, "end_date");
      var budget := NullableNumber(f, "budget");
      if title.Some? && start.Some? && end.Some? && budget.Some?
      then Some(Summary(title.value, start.value, end.value, budget.value))
      else None
    case _ => None
  }

  /** A property present and holding null or a string. */
  predicate TextProperty(fields: map<string, JValue>, key: string) {
    key in fields && (fields[key].JNull? || fields[key].JStr?)
  }

  /** The four properties present, each null or of the declared type; other keys may be anything. */
  predicate WellTypedSummary(fields: map<string, JValue>) {
    && TextProperty(fields, "title") && TextProperty(fields, "start_date") && TextProperty(fields, "end_date")
    && "budget" in fields && (fields["budget"].JNull? || fields["budget"].JNum?)
  }

  /** The nullable string a null or string value stands for. */
  function TextOf(v: JValue): Option<string> {
    if v.JStr? then Some(v.s) else None
  }

  /** The nullable number a null or number value stands for. */
  function NumberOf(v: JValue): Option<int> {
    if v.JNum? then Some(v.n) else None
  }

  /**
   * The schema accepts exactly the objects whose four properties are null or of the
   * declared type, and reads each field from its property.
   */
  lemma SchemaAcceptsExactlyWellTyped(v: JValue)
    ensures SchemaParse(v).Some? <==> v.JObj? && WellTypedSummary(v.fields)
    ensures SchemaParse(v).Some? ==>
      SchemaParse(v).value == Summary(TextOf(v.fields["title"]), TextOf(v.fields["start_date"]),
                                      TextOf(v.fields["end_date"]), NumberOf(v.fields["budget"]))
  {
  }

  /** A title or date that is present but neither null nor a string is refused. */
  lemma MistypedTextRefused(fields: map<string, JValue>, key: string)
    requires key == "title" || key == "start_date" || key == "end_date"
    requires key in fields && !fields[key].JNull? && !fields[key].JStr?
    ensures SchemaParse(JObj(fields)).None?
  {
    SchemaAcceptsExactlyWellTyped(JObj(fields));
  }

  /** A missing property is `undefined`, which `nullable()` refuses. */
  lemma MissingPropertyRefused(fields: map<string, JValue>, key: string)
    requires key == "title" || key == "start_date" || key == "end_date" || key == "budget"
    requires key !in fields
    ensures SchemaParse(JObj(fields)).None?
  {
    SchemaAcceptsExactlyWellTyped(JObj(fields));
  }

  /** Properties outside the schema are dropped: they never change the result. */
  lemma UnknownPropertiesIgnored(fields: map<string, JValue>, key: string, value: JValue)
    requires key != "title" && key != "start_date" && key != "end_date" && key != "budget"
    ensures SchemaParse(JObj(fields[key := value])) == SchemaParse(JObj(fields))
  {
    assert forall k :: k != key ==> (k in fields[key := value] <==> k in fields);
  }

  function StringToJson(o: Option<string>): JValue {
    if o.Some? then JStr(o.value) else JNull
  }

  /** The JSON object a summary is serialised to. */
  function ToJson(s: Summary): JValue {
    JObj(map[
      "title" := StringToJson(s.title),
      "start_date" := StringToJson(s.startDate),
      "end_date" := StringToJson(s.endDate),
      "budget" := if s.budget.Some? then JNum(s.budget.value) else JNull])
  }

  /** Every summary, the empty one included, passes the schema unchanged. */
  lemma SchemaAcceptsEverySummary(s: Summary)
    ensures SchemaParse(ToJson(s)) == Some(s)
  {
  }

  lemma EmptySummarySatisfiesSchema()
    ensures SchemaParse(ToJson(CreateEmptyProjectSummary())) == Some(CreateEmptyProjectSummary())
  {
    SchemaAcceptsEverySummary(CreateEmptyProjectSummary());
  }

  /** The regex `/^\d{4}-\d{2}-\d{2}$/`. */
  predicate IsDateShape(s: string) {
    |s| == 10 && AllDigits(s[..4]) && s[4] == '-' && AllDigits(s[5..7]) && s[7] == '-' && AllDigits(s[8..])
  }

  /**
   * `isValidDateFormat`: the shape test, then JavaScript's `Date` parsing, which is
   * outside this model and is passed in as `parsesAsDate`.
   */
  function IsValidDateFormat(s: string, parsesAsDate: string -> bool): (ok: bool)
    ensures ok ==> |s| == 10 && s[4] == '-' && s[7] == '-'
    ensures ok ==> forall i :: 0 <= i < 10 && i != 4 && i != 7 ==> IsDigit(s[i])
    ensures ok ==> parsesAsDate(s)
  {
    IsDateShape(s) && parsesAsDate(s)
  }
}
