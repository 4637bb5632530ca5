/**
 * `analyzeTranscript` and `analyzeTranscriptMock` (backend/src/services/analyzeTranscript.ts):
 * read the user side of a conversation, ask the language model for a summary, and fall back
 * to the regex extractors whenever the model's answer cannot be used.
 */
module Analyzer {
  import opened Wrappers
  import opened Text
  import opened PatternCascade
  import opened ProjectSummary
  import opened TitleExtraction
  import opened DateExtraction
  import opened BudgetExtraction
  import opened ResponseNormaliser
  import opened AiMessage
  import opened MessageRepository

  /** What `callOllama` produced: the reply's content, or a failure (network error, non-2xx status). */
  datatype ModelReply = Reply(content: string) | Unavailable

  /**
   * Everything the analysis depends on besides the transcript: the regex patterns of the
   * extractors, the current year, `JSON.parse`, the locale formatters, and the language
   * model, which answers the prompt built around the transcript.
   */
  datatype Environment = Environment(
    titlePatterns: seq<Matcher>,
    datePatterns: DatePatterns,
    budgetPatterns: seq<Matcher>,
    currentYear: int,
    parseJson: string -> Option<JValue>,
    fmt: Formatters,
    model: string -> ModelReply)

  /** The `{ summary, aiMessage }` pair both analyses return. */
  datatype Analysis = Analysis(summary: Summary, aiMessage: string)

  // The accented literal is split after its ASCII head, as in AiMessage.
  const NothingYetMessage: string := "Je n'ai pas encore re" + "çu d'informations sur votre projet. Dites-moi en plus !"

  /** The four regex extractors applied to one transcript. */
  function ExtractedSummary(text: string, env: Environment): Summary {
    Summary(
      FirstSome(TitleCandidates(text, env.titlePatterns)),
      FirstSome(DateCandidates(text, Start, env.datePatterns, env.currentYear)),
      FirstSome(DateCandidates(text, End, env.datePatterns, env.currentYear)),
      FirstSome(BudgetCandidates(text, env.budgetPatterns)))
  }

  /** `analyzeTranscriptMock` on the transcript it reads. */
  function MockAnalysis(text: string, env: Environment): Analysis {
    var s := ExtractedSummary(text, env);
    Analysis(s, AckMessage(s, env.fmt))
  }

  /** The summary the model's answer yields, if it yields one. */
  function ModelSummary(text: string, env: Environment): Option<Summary> {
    match env.model(text)
    case Unavailable => None
    case Reply(content) => ValidateReply(content, env.parseJson)
  }

  /**
   * `analyzeTranscript` on the transcript it reads: the "nothing yet" answer for a blank
   * transcript, the model's validated summary when there is one, the mock otherwise.
   */
  function TranscriptAnalysis(text: string, env: Environment): Analysis {
    if Trim(text) == "" then Analysis(CreateEmptyProjectSummary(), NothingYetMessage)
    else
      var validated := ModelSummary(text, env);
      if validated.Some? then Analysis(validated.value, AckMessage(validated.value, env.fmt))
      else MockAnalysis(text, env)
  }

  /** `analyzeTranscriptMock`: the whole history, the four extractors, the acknowledgement. */
  method AnalyzeTranscriptMock(repo: InMemoryMessageRepository, conversationId: string, env: Environment)
    returns (analysis: Analysis)
    ensures analysis == MockAnalysis(History(repo.MessagesOf(conversationId), None), env)
  {
    var transcriptText := repo.GetConversationHistory(conversationId, None);
    var title := ExtractTitle(transcriptText, env.titlePatterns);
    var startDate := ExtractDate(transcriptText, Start, env.datePatterns, env.currentYear);
    var endDate := ExtractDate(transcriptText, End, env.datePatterns, env.currentYear);
    var budget := ExtractBudget(transcriptText, env.budgetPatterns);
    var summary := Summary(title, startDate, endDate, budget);
    var aiMessage := GenerateAiMessage(summary, env.fmt);
    analysis := Analysis(summary, aiMessage);
  }

  /**
   * `analyzeTranscript`: every failure inside the `try` (no reply, an empty one, a parse
   * error, a schema error) ends in the mock, which reads the history again.
   */
  method AnalyzeTranscript(repo: InMemoryMessageRepository, conversationId: string, env: Environment)
    returns (analysis: Analysis)
    ensures analysis == TranscriptAnalysis(History(repo.MessagesOf(conversationId), None), env)
  {
    var transcriptText := repo.GetConversationHistory(conversationId, None);
    if Trim(transcriptText) == "" {
      return Analysis(CreateEmptyProjectSummary(), NothingYetMessage);
    }
    var reply := env.model(transcriptText);
    if reply.Unavailable? || reply.content == "" {
      analysis := AnalyzeTranscriptMock(repo, conversationId, env);
      return;
    }
    var cleanedContent := CleanResponse(reply.content);
    var validatedSummary := ValidateParsed(env.parseJson(cleanedContent));
    if validatedSummary.None? {
      analysis := AnalyzeTranscriptMock(repo, conversationId, env);
      return;
    }
    var aiMessage := GenerateAiMessage(validatedSummary.value, env.fmt);
    analysis := Analysis(validatedSummary.value, aiMessage);
  }

  // ---------------------------------------------------------------------------
  // Properties of the analysis
  // ---------------------------------------------------------------------------

  /** A blank transcript gets the "nothing yet" answer and an empty summary, whatever the model says. */
  lemma BlankTranscriptIgnoresModel(text: string, env: Environment, other: Environment)
    requires AllWhitespace(text)
    ensures TranscriptAnalysis(text, env) == TranscriptAnalysis(text, other)
    ensures FilledFields(TranscriptAnalysis(text, env).summary) == {}
    ensures TranscriptAnalysis(text, env).aiMessage == NothingYetMessage
  {
    TrimBlankIff(text);
  }

  /** A transcript with some non-blank text never gets the "nothing yet" answer. */
  lemma NothingYetOnlyForBlank(text: string, env: Environment)
    requires !AllWhitespace(text)
    ensures TranscriptAnalysis(text, env).aiMessage != NothingYetMessage
  {
    MessageDescribesSummary(text, env);
    AckIsNotNothingYet(TranscriptAnalysis(text, env).summary, env.fmt);
  }

  /** No acknowledgement reads as the "nothing yet" answer. */
  lemma AckIsNotNothingYet(s: Summary, fmt: Formatters)
    ensures AckMessage(s, fmt) != NothingYetMessage
  {
    var m := AckMessage(s, fmt);
    assert NothingYetMessage[3] == 'n';
    if |Parts(s, fmt)| == 0 {
      assert m[3] == ListeningMessage[3] == 'v';
    } else {
      AckShape(s, fmt);
      var first := AckPrefix + Parts(s, fmt)[0];
      assert m[0] == m[..|first|][0] == first[0] == 'B';
    }
  }

  /** Whichever path is taken, the message acknowledges exactly the summary returned. */
  lemma MessageDescribesSummary(text: string, env: Environment)
    requires !AllWhitespace(text)
    ensures TranscriptAnalysis(text, env).aiMessage == AckMessage(TranscriptAnalysis(text, env).summary, env.fmt)
  {
    TrimBlankIff(text);
  }

  /** A reply that cleans and parses to the JSON of a summary is adopted as it is. */
  lemma ModelSummaryAdopted(text: string, env: Environment, s: Summary)
    requires !AllWhitespace(text)
    requires env.model(text).Reply? && env.model(text).content != ""
    requires env.parseJson(Cleaned(env.model(text).content)) == Some(ToJson(s))
    ensures TranscriptAnalysis(text, env) == Analysis(s, AckMessage(s, env.fmt))
  {
    TrimBlankIff(text);
    SummaryReplyAccepted(env.model(text).content, env.parseJson, s);
  }

  /** No reply, an empty reply, or one `JSON.parse` refuses: the mock's answer is returned. */
  lemma UnusableReplyFallsBack(text: string, env: Environment)
    requires !AllWhitespace(text)
    requires env.model(text).Unavailable? || env.model(text).content == ""
          || env.parseJson(Cleaned(env.model(text).content)).None?
    ensures TranscriptAnalysis(text, env) == MockAnalysis(text, env)
  {
    TrimBlankIff(text);
    if env.model(text).Reply? {
      UnusableReplyRejected(env.model(text).content, env.parseJson);
    }
  }

  /** Whenever the model's answer yields no summary, the mock's answer is returned. */
  lemma ModelFailureFallsBack(text: string, env: Environment)
    requires !AllWhitespace(text)
    requires ModelSummary(text, env).None?
    ensures TranscriptAnalysis(text, env) == MockAnalysis(text, env)
  {
    TrimBlankIff(text);
  }

  /** A string budget that `parseInt` cannot read (NaN) sends the analysis to the mock. */
  lemma UnreadableBudgetFallsBack(text: string, env: Environment, f: map<string, JValue>, amount: string)
    requires !AllWhitespace(text)
    requires env.model(text).Reply?
    requires env.parseJson(Cleaned(env.model(text).content)) == Some(JObj(f))
    requires "budget" in f && f["budget"] == JStr(amount)
    requires ParseInt(RemoveWhitespace(amount)).None?
    ensures TranscriptAnalysis(text, env) == MockAnalysis(text, env)
  {
    var content := env.model(text).content;
    assert ValidateReply(content, env.parseJson).None? by {
      if content != "" {
        assert ValidateReply(content, env.parseJson) == ValidateParsed(Some(JObj(f)));
        UnreadableBudgetRefused(f, amount);
      }
    }
    ModelFailureFallsBack(text, env);
  }

  /** The extractors' guarantees: an accepted title, a positive budget. */
  lemma MockSummaryWellFormed(text: string, env: Environment)
    ensures MockAnalysis(text, env).summary.title.Some? ==> AcceptableTitle(MockAnalysis(text, env).summary.title.value)
    ensures MockAnalysis(text, env).summary.budget.Some? ==> MockAnalysis(text, env).summary.budget.value > 0
  {
    var titles := TitleCandidates(text, env.titlePatterns);
    FirstSomeSpec(titles);
    if FirstSome(titles).Some? {
      var i :| 0 <= i < |titles| && titles[i] == FirstSome(titles) && forall j :: 0 <= j < i ==> titles[j].None?;
      TitleCandidateSound(env.titlePatterns[i](text));
    }
    var budgets := BudgetCandidates(text, env.budgetPatterns);
    FirstSomeSpec(budgets);
  }

  /** Every match of the date patterns captures a year the patterns allow. */
  predicate PatternCaptures(text: string, ps: seq<DatePattern>) {
    forall i :: 0 <= i < |ps| && ps[i].matcher(text).Some? ==>
      PatternYear(Capture(ps[i].matcher(text).value, 1), Capture(ps[i].matcher(text).value, 2),
                  Capture(ps[i].matcher(text).value, 3))
  }

  /** The mock's dates have the YYYY-MM-DD shape the summary schema expects. */
  lemma MockDatesWellShaped(text: string, env: Environment, kind: DateKind)
    requires 999 <= env.currentYear <= 9998
    requires PatternCaptures(text, PatternsFor(env.datePatterns, kind))
    ensures FirstSome(DateCandidates(text, kind, env.datePatterns, env.currentYear)).Some? ==>
      IsDateShape(FirstSome(DateCandidates(text, kind, env.datePatterns, env.currentYear)).value)
  {
    var cs := DateCandidates(text, kind, env.datePatterns, env.currentYear);
    var ps := PatternsFor(env.datePatterns, kind);
    FirstSomeSpec(cs);
    if FirstSome(cs).Some? {
      var i :| 0 <= i < |cs| && cs[i] == FirstSome(cs) && forall j :: 0 <= j < i ==> cs[j].None?;
      DateCandidateShape(ps[i], ps[i].matcher(text), kind, env.currentYear);
    }
  }

  /** Assistant and system messages are not part of the transcript, so they never change the analysis. */
  lemma OnlyUserMessagesMatter(messages: seq<Message>, m: Message, env: Environment)
    requires m.role != User
    ensures TranscriptAnalysis(History(messages + [m], None), env) == TranscriptAnalysis(History(messages, None), env)
  {
    HistoryIgnoresOtherRoles(messages, m);
  }
}
