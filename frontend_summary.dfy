/**
 * The frontend's copy of the summary helpers (frontend/src/types/ProjectSummary.ts).
 * The interface has the same four nullable fields as the backend's, so it shares the
 * `Summary` datatype.
 */
module FrontendSummary {
  import opened Wrappers
  import opened ProjectSummary

  /** `createEmptyProjectSummary` on the frontend. */
  function CreateEmptyProjectSummary(): (s: Summary)
    ensures FilledFields(s) == {}
  {
    Summary(None, None, None, None)
  }

  /** `hasSummaryData`: some field is non-null, that is, the summary is not the empty one. */
  function HasSummaryData(s: Summary): (r: bool)
    ensures r <==> s != CreateEmptyProjectSummary()
    ensures r <==> FilledFields(s) != {}
  {
    s.title.Some? || s.startDate.Some? || s.endDate.Some? || s.budget.Some?
  }

  lemma EmptyHasNoData()
    ensures !HasSummaryData(CreateEmptyProjectSummary())
  {
  }

  /** Filling any one field of the empty summary, with any value, makes it hold data. */
  lemma SingleFieldHasData(t: string, d: string, b: int)
    ensures HasSummaryData(CreateEmptyProjectSummary().(title := Some(t)))
    ensures HasSummaryData(CreateEmptyProjectSummary().(startDate := Some(d)))
    ensures HasSummaryData(CreateEmptyProjectSummary().(endDate := Some(d)))
    ensures HasSummaryData(CreateEmptyProjectSummary().(budget := Some(b)))
  {
  }
}
