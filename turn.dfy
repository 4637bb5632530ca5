/**
 * One conversation turn as `POST /api/messages` performs it (backend/src/routes/messages.ts):
 * store the user's text, analyse the whole transcript, merge the result onto the stored
 * summary, save it, and store the assistant's reply.
 */
module ConversationTurn {
  import opened Wrappers
  import opened ProjectSummary
  import opened SummaryMerge
  import opened MessageRepository
  import opened ProjectSummaryRepository
  import opened Analyzer

  /** The route's answer: a 400 for a body the request schema refuses, else the reply and the merged summary. */
  datatype TurnResponse = InvalidRequest | Answered(aiMessage: string, summary: Summary)

  /** The request schema: both strings must be non-empty. */
  predicate ValidRequest(conversationId: string, text: string) {
    |conversationId| >= 1 && |text| >= 1
  }

  /** The transcript the analysis reads once the user's message is stored. */
  function TranscriptAfter(previous: seq<Message>, user: Message): string {
    History(previous + [user], None)
  }

  /**
   * The route's steps 1 to 5 in order. The message ids and timestamps, generated by the
   * repository from the clock and a random suffix, are parameters here.
   */
  method PostMessage(
    messages: InMemoryMessageRepository, summaries: InMemoryProjectSummaryRepository, env: Environment,
    conversationId: string, text: string, userId: string, userTime: int, replyId: string, replyTime: int)
    returns (response: TurnResponse)
    modifies messages, summaries
    ensures !ValidRequest(conversationId, text) ==>
      response == InvalidRequest && messages.store == old(messages.store) && summaries.store == old(summaries.store)
    ensures ValidRequest(conversationId, text) ==>
      var user := Message(userId, conversationId, User, text, userTime);
      var analysis := TranscriptAnalysis(TranscriptAfter(old(messages.MessagesOf(conversationId)), user), env);
      var merged := MergeSummaries(old(summaries.Lookup(conversationId)), analysis.summary);
      var reply := Message(replyId, conversationId, Assistant, analysis.aiMessage, replyTime);
      && response == Answered(analysis.aiMessage, merged)
      && summaries.store == old(summaries.store)[conversationId := merged]
      && messages.store == old(messages.store)[conversationId := old(messages.MessagesOf(conversationId)) + [user, reply]]
  {
    if !ValidRequest(conversationId, text) {
      return InvalidRequest;
    }
    ghost var previous := messages.MessagesOf(conversationId);
    ghost var before := messages.store;
    var user, analysis := RecordAndAnalyse(messages, env, conversationId, text, userId, userTime);
    ghost var reply := Message(replyId, conversationId, Assistant, analysis.aiMessage, replyTime);
    var mergedSummary := CompleteTurn(messages, summaries, conversationId, analysis, replyId, replyTime);
    UpdateTwice(before, conversationId, previous, user, reply);
    response := Answered(analysis.aiMessage, mergedSummary);
  }

  /** Steps 1 and 2: store the user's message, then analyse the transcript that now includes it. */
  method RecordAndAnalyse(
    messages: InMemoryMessageRepository, env: Environment,
    conversationId: string, text: string, userId: string, userTime: int)
    returns (user: Message, analysis: Analysis)
    modifies messages
    ensures user == Message(userId, conversationId, User, text, userTime)
    ensures analysis == TranscriptAnalysis(TranscriptAfter(old(messages.MessagesOf(conversationId)), user), env)
    ensures messages.store == old(messages.store)[conversationId := old(messages.MessagesOf(conversationId)) + [user]]
  {
    user := messages.AddMessage(conversationId, User, text, userId, userTime);
    analysis := AnalyzeTranscript(messages, conversationId, env);
  }

  /**
   * Steps 3 to 5: merge the analysed summary onto the stored one, save the result, and
   * store the assistant's reply.
   */
  method CompleteTurn(
    messages: InMemoryMessageRepository, summaries: InMemoryProjectSummaryRepository,
    conversationId: string, analysis: Analysis, replyId: string, replyTime: int)
    returns (merged: Summary)
    modifies messages, summaries
    ensures merged == MergeSummaries(old(summaries.Lookup(conversationId)), analysis.summary)
    ensures summaries.store == old(summaries.store)[conversationId := merged]
    ensures messages.store == old(messages.store)[conversationId :=
      old(messages.MessagesOf(conversationId)) + [Message(replyId, conversationId, Assistant, analysis.aiMessage, replyTime)]]
  {
    var existingSummary := summaries.GetProjectSummary(conversationId);
    merged := MergeSummaries(existingSummary, analysis.summary);
    summaries.SaveProjectSummary(conversationId, merged);
    var reply := messages.AddMessage(conversationId, Assistant, analysis.aiMessage, replyId, replyTime);
  }

  lemma UpdateTwice<K, V>(m: map<K, seq<V>>, k: K, xs: seq<V>, a: V, b: V)
    ensures m[k := xs + [a]][k := xs + [a] + [b]] == m[k := xs + [a, b]]
  {
    assert xs + [a] + [b] == xs + [a, b];
  }

  /** The summary a turn saves keeps every field the stored summary had, and adds the analysed ones. */
  lemma TurnNeverLosesFields(stored: Option<Summary>, analysed: Summary)
    ensures stored.Some? ==>
      FilledFields(MergeSummaries(stored, analysed)) == FilledFields(stored.value) + FilledFields(analysed)
    ensures stored.None? ==> FilledFields(MergeSummaries(stored, analysed)) == FilledFields(analysed)
  {
    if stored.Some? {
      MergeFilledFields(stored.value, analysed);
    }
  }

  /**
   * The reply the turn stores is an assistant message, so the next turn's transcript is
   * this turn's transcript: replies never feed back into the analysis.
   */
  lemma ReplyNotInNextTranscript(previous: seq<Message>, user: Message, reply: Message)
    requires reply.role == Assistant
    ensures History(previous + [user] + [reply], None) == TranscriptAfter(previous, user)
  {
    HistoryIgnoresOtherRoles(previous + [user], reply);
  }
}
