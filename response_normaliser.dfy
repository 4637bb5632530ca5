/**
 * The part of `analyzeTranscript` (backend/src/services/analyzeTranscript.ts) that turns
 * the language model's raw reply into a validated summary: markdown fences are stripped,
 * the outermost brace span is kept, the text is parsed, a string budget is coerced to a
 * number, and the schema decides. Any failure on the way is `None`, which the caller
 * turns into the pattern-based fallback.
 */
module ResponseNormaliser {
  import opened Wrappers
  import opened Text
  import opened ProjectSummary

  /** Drops a leading "```json", or else a leading "```". */
  function StripOpeningFence(s: string): (r: string)
    ensures StartsWith(s, "```json") ==> s == "```json" + r
    ensures !StartsWith(s, "```json") && StartsWith(s, "```") ==> s == "```" + r
    ensures !StartsWith(s, "```") ==> r == s
  {
    if StartsWith(s, "```json") then s[7..]
    else if StartsWith(s, "```") then s[3..]
    else s
  }

  /** Drops a trailing "```". */
  function StripClosingFence(s: string): (r: string)
    ensures EndsWith(s, "```") ==> s == r + "```"
    ensures !EndsWith(s, "```") ==> r == s
  {
    if EndsWith(s, "```") then s[..|s| - 3] else s
  }

  /** The index of the first occurrence of `c`. */
  function FirstIndex(s: string, c: char): (r: Option<nat>)
    ensures r.None? <==> c !in s
    ensures r.Some? ==> r.value < |s| && s[r.value] == c && c !in s[..r.value]
  {
    if |s| == 0 then None
    else if s[0] == c then Some(0)
    else
      var rest := FirstIndex(s[1..], c);
      assert rest.Some? ==> s[..rest.value + 1] == [s[0]] + s[1..][..rest.value];
      if rest.Some? then Some(rest.value + 1) else None
  }

  /** The index of the last occurrence of `c`. */
  function LastIndex(s: string, c: char): (r: Option<nat>)
    ensures r.None? <==> c !in s
    ensures r.Some? ==> r.value < |s| && s[r.value] == c && c !in s[r.value + 1..]
  {
    if |s| == 0 then None
    else if s[|s| - 1] == c then Some(|s| - 1)
    else
      var rest := LastIndex(s[..|s| - 1], c);
      assert rest.Some? ==> s[rest.value + 1..] == s[..|s| - 1][rest.value + 1..] + [s[|s| - 1]];
      rest
  }

  /**
   * `s.match(/\{[\s\S]*\}/)`: the text from the first '{' to the last '}', when some '}'
   * comes after the first '{'. The regex is greedy and matches at its leftmost start.
   */
  function BraceSpan(s: string): (r: Option<string>)
    ensures r.Some? ==> |r.value| >= 2 && r.value[0] == '{' && r.value[|r.value| - 1] == '}'
    ensures r.Some? ==>
      exists i :: (0 <= i <= |s| - |r.value| && s[i..i + |r.value|] == r.value
                   && '{' !in s[..i] && '}' !in s[i + |r.value|..])
  {
    var open, close := FirstIndex(s, '{'), LastIndex(s, '}');
    if open.Some? && close.Some? && open.value < close.value then
      var span := s[open.value..close.value + 1];
      assert s[open.value..open.value + |span|] == span;
      Some(span)
    else None
  }

  /** There is a brace span exactly when some '{' comes before some '}'. */
  lemma BraceSpanExists(s: string)
    ensures BraceSpan(s).Some? <==> exists i, j :: 0 <= i < j < |s| && s[i] == '{' && s[j] == '}'
  {
    var open, close := FirstIndex(s, '{'), LastIndex(s, '}');
    if BraceSpan(s).Some? {
      assert s[open.value] == '{' && s[close.value] == '}';
    }
  }

  /** Keeps the brace span when there is one, and the whole text otherwise. */
  function KeepObject(s: string): string {
    var span := BraceSpan(s);
    if span.Some? then span.value else s
  }

  /** The cleaned reply: trimmed, fences stripped, trimmed again, reduced to its brace span. */
  function Cleaned(content: string): string {
    KeepObject(Trim(StripClosingFence(StripOpeningFence(Trim(content)))))
  }

  /** The cleaning steps of `analyzeTranscript`, reassigning one variable as the source does. */
  method CleanResponse(content: string) returns (cleaned: string)
    ensures cleaned == Cleaned(content)
  {
    cleaned := Trim(content);
    if StartsWith(cleaned, "```json") {
      cleaned := cleaned[7..];
    } else if StartsWith(cleaned, "```") {
      cleaned := cleaned[3..];
    }
    if EndsWith(cleaned, "```") {
      cleaned := cleaned[..|cleaned| - 3];
    }
    cleaned := Trim(cleaned);
    var jsonMatch := BraceSpan(cleaned);
    if jsonMatch.Some? {
      cleaned := jsonMatch.value;
    }
  }

  /**
   * The budget coercion: a non-empty string budget becomes `parseInt` of it without
   * whitespace, NaN when that fails. Reading `.budget` of `null` throws (`None`); any
   * other value is left as it is.
   */
  function CoerceBudget(v: JValue): Option<JValue> {
    match v
    case JNull => None
    case JObj(f) =>
      if "budget" in f && f["budget"].JStr? && f["budget"].s != "" then
        Some(JObj(f["budget" := BudgetNumber(f["budget"].s)]))
      else Some(v)
    case _ => Some(v)
  }

  /** `parseInt(budget.replace(/\s/g, ""), 10)`, NaN when there is no digit to read. */
  function BudgetNumber(amount: string): (r: JValue)
    ensures r.JNum? || r.JNaN?
  {
    var n := ParseInt(RemoveWhitespace(amount));
    if n.Some? then JNum(n.value) else JNaN
  }

  /** The coercion then the schema, applied to what `JSON.parse` returned (`None`: it threw). */
  function ValidateParsed(parsed: Option<JValue>): Option<Summary> {
    if parsed.None? then None
    else
      var coerced := CoerceBudget(parsed.value);
      if coerced.None? then None else SchemaParse(coerced.value)
  }

  /**
   * From the raw reply to a validated summary: an empty reply is refused, `parseJson`
   * (`JSON.parse`, outside this model) may refuse the cleaned text, and the schema may
   * refuse the coerced value.
   */
  function ValidateReply(content: string, parseJson: string -> Option<JValue>): Option<Summary> {
    if content == "" then None else ValidateParsed(parseJson(Cleaned(content)))
  }

  // ---------------------------------------------------------------------------
  // Properties of the normalisation
  // ---------------------------------------------------------------------------

  /** A text that starts and ends with a backquote is left alone by the first `trim`. */
  lemma CleanedFencedText(s: string)
    requires |s| > 0 && s[0] == '`' && s[|s| - 1] == '`'
    ensures Cleaned(s) == KeepObject(Trim(StripClosingFence(StripOpeningFence(s))))
  {
    assert TrimStart(s) == s;
  }

  lemma JsonFenceStripped(payload: string)
    ensures StripClosingFence(StripOpeningFence("```json" + payload + "```")) == payload
  {
    var s := "```json" + payload + "```";
    assert s[..7] == "```json";
    assert s[7..] == payload + "```";
    assert (payload + "```")[|payload|..] == "```";
    assert (payload + "```")[..|payload|] == payload;
  }

  lemma BareFenceStripped(payload: string)
    requires !StartsWith(payload, "json")
    ensures StripClosingFence(StripOpeningFence("```" + payload + "```")) == payload
  {
    var s := "```" + payload + "```";
    assert s[..3] == "```";
    NoJsonTagAfterBareFence(payload);
    assert s[3..] == payload + "```";
    assert (payload + "```")[|payload|..] == "```";
    assert (payload + "```")[..|payload|] == payload;
  }

  lemma NoJsonTagAfterBareFence(payload: string)
    requires !StartsWith(payload, "json")
    ensures !StartsWith("```" + payload + "```", "```json")
  {
    var s := "```" + payload + "```";
    if |payload| >= 4 {
      assert s[3..7] == payload[..4];
    } else {
      assert s[3 + |payload|] == '`';
    }
  }

  /** A payload wrapped in a "```json" fence is recovered, trimmed, before the brace span is taken. */
  lemma JsonFenceRemoved(payload: string)
    ensures Cleaned("```json" + payload + "```") == KeepObject(Trim(payload))
  {
    CleanedFencedText("```json" + payload + "```");
    JsonFenceStripped(payload);
  }

  /** The same for a bare "```" fence, unless the payload itself starts with "json". */
  lemma BareFenceRemoved(payload: string)
    requires !StartsWith(payload, "json")
    ensures Cleaned("```" + payload + "```") == KeepObject(Trim(payload))
  {
    CleanedFencedText("```" + payload + "```");
    BareFenceStripped(payload);
  }

  /** Prose around a single obj is cut away: only the braces and what they enclose remain. */
  lemma ProseAroundObjectRemoved(before: string, obj: string, after: string)
    requires '{' !in before && '}' !in after
    requires |obj| >= 2 && obj[0] == '{' && obj[|obj| - 1] == '}'
    ensures KeepObject(before + obj + after) == obj
  {
    var s := before + obj + after;
    var open, close := |before|, |before| + |obj| - 1;
    assert s[open] == '{' && s[close] == '}';
    assert s[..open] == before;
    assert s[close + 1..] == after;
    FirstIndexAt(s, '{', open);
    LastIndexAt(s, '}', close);
    assert s[open..close + 1] == obj;
  }

  lemma FirstIndexAt(s: string, c: char, k: nat)
    requires k < |s| && s[k] == c && c !in s[..k]
    ensures FirstIndex(s, c) == Some(k)
  {
  }

  lemma LastIndexAt(s: string, c: char, k: nat)
    requires k < |s| && s[k] == c && c !in s[k + 1..]
    ensures LastIndex(s, c) == Some(k)
  {
  }

  /** A string budget of digits and spaces becomes the number the digits spell. */
  lemma StringBudgetCoerced(f: map<string, JValue>, amount: string)
    requires "budget" in f && f["budget"] == JStr(amount)
    requires RemoveWhitespace(amount) != "" && AllDigits(RemoveWhitespace(amount))
    ensures CoerceBudget(JObj(f)) == Some(JObj(f["budget" := JNum(DigitsValue(RemoveWhitespace(amount)))]))
  {
    ParseIntOfDigits(RemoveWhitespace(amount));
  }

  lemma StringBudgetRefused(g: map<string, JValue>)
    requires "budget" in g && g["budget"].JStr?
    ensures SchemaParse(JObj(g)).None?
  {
  }

  lemma UnreadableBudgetIsNaN(f: map<string, JValue>, amount: string)
    requires "budget" in f && f["budget"] == JStr(amount) && amount != ""
    requires ParseInt(RemoveWhitespace(amount)).None?
    ensures CoerceBudget(JObj(f)) == Some(JObj(f["budget" := JNaN]))
  {
  }

  lemma NaNBudgetRefused(g: map<string, JValue>)
    requires "budget" in g && g["budget"].JNaN?
    ensures SchemaParse(JObj(g)).None?
  {
  }

  lemma RefusedAfterCoercion(v: JValue, w: JValue)
    requires CoerceBudget(v) == Some(w) && SchemaParse(w).None?
    ensures ValidateParsed(Some(v)).None?
  {
  }

  /** A string budget that is not a number makes the whole reply invalid. */
  lemma UnreadableBudgetRejected(content: string, parseJson: string -> Option<JValue>, f: map<string, JValue>, amount: string)
    requires content != "" && parseJson(Cleaned(content)) == Some(JObj(f))
    requires "budget" in f && f["budget"] == JStr(amount)
    requires ParseInt(RemoveWhitespace(amount)).None?
    ensures ValidateReply(content, parseJson).None?
  {
    UnreadableBudgetRefused(f, amount);
  }

  lemma UnreadableBudgetRefused(f: map<string, JValue>, amount: string)
    requires "budget" in f && f["budget"] == JStr(amount)
    requires ParseInt(RemoveWhitespace(amount)).None?
    ensures ValidateParsed(Some(JObj(f))).None?
  {
    if amount == "" {
      EmptyBudgetObjectRefused(f);
    } else {
      NaNBudgetObjectRefused(f, amount);
    }
  }

  lemma NaNBudgetObjectRefused(f: map<string, JValue>, amount: string)
    requires "budget" in f && f["budget"] == JStr(amount) && amount != ""
    requires ParseInt(RemoveWhitespace(amount)).None?
    ensures ValidateParsed(Some(JObj(f))).None?
  {
    var g := f["budget" := JNaN];
    UnreadableBudgetIsNaN(f, amount);
    NaNBudgetRefused(g);
    RefusedAfterCoercion(JObj(f), JObj(g));
  }

  /** An empty string budget is not coerced, and the schema refuses a string budget. */
  lemma EmptyBudgetObjectRefused(f: map<string, JValue>)
    requires "budget" in f && f["budget"] == JStr("")
    ensures ValidateParsed(Some(JObj(f))).None?
  {
    assert CoerceBudget(JObj(f)) == Some(JObj(f));
    StringBudgetRefused(f);
    RefusedAfterCoercion(JObj(f), JObj(f));
  }

  /** A reply whose cleaned text parses to the JSON of a summary is accepted as that summary. */
  lemma SummaryReplyAccepted(content: string, parseJson: string -> Option<JValue>, s: Summary)
    requires content != "" && parseJson(Cleaned(content)) == Some(ToJson(s))
    ensures ValidateReply(content, parseJson) == Some(s)
  {
    SummaryJsonAccepted(s);
  }

  lemma SummaryJsonAccepted(s: Summary)
    ensures ValidateParsed(Some(ToJson(s))) == Some(s)
  {
    var v := ToJson(s);
    assert v.fields["budget"] == if s.budget.Some? then JNum(s.budget.value) else JNull;
    assert CoerceBudget(v) == Some(v);
    SchemaAcceptsEverySummary(s);
  }

  /** An empty reply, or one `JSON.parse` refuses, is never accepted. */
  lemma UnusableReplyRejected(content: string, parseJson: string -> Option<JValue>)
    requires content == "" || parseJson(Cleaned(content)).None?
    ensures ValidateReply(content, parseJson).None?
  {
  }
}
