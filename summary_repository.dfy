/**
 * The in-memory summary store (backend/src/repositories/projectSummaryRepository.ts):
 * one project summary per conversation, replaced wholesale on save.
 */
module ProjectSummaryRepository {
  import opened Wrappers
  import opened ProjectSummary

  /**
   * `InMemoryProjectSummaryRepository` over the process-wide `summaryStore` map. The
   * repository is a single exported instance, so the map is a field of it here.
   * Summaries are values, so the copies the source makes on save and get are implicit.
   */
  class InMemoryProjectSummaryRepository {
    var store: map<string, Summary>

    constructor ()
      ensures store == map[]
    {
      store := map[];
    }

    /** What `getProjectSummary` answers for `conversationId`. */
    function Lookup(conversationId: string): (r: Option<Summary>)
      reads this
      ensures r.Some? <==> conversationId in store
      ensures r.Some? ==> r.value == store[conversationId]
    {
      if conversationId in store then Some(store[conversationId]) else None
    }

    /** `saveProjectSummary`: replaces the stored summary; other keys are untouched. */
    method SaveProjectSummary(conversationId: string, summary: Summary)
      modifies this
      ensures store == old(store)[conversationId := summary]
      ensures Lookup(conversationId) == Some(summary)
      ensures forall c :: c != conversationId ==> Lookup(c) == old(Lookup(c))
    {
      store := store[conversationId := summary];
    }

    /** `getProjectSummary`: the stored summary, or null when there is none. */
    method GetProjectSummary(conversationId: string) returns (summary: Option<Summary>)
      ensures summary.Some? <==> conversationId in store
      ensures summary.Some? ==> summary.value == store[conversationId]
    {
      if conversationId in store {
        summary := Some(store[conversationId]);
      } else {
        summary := None;
      }
    }

    /** `deleteProjectSummary`: true exactly when there was a summary to delete. */
    method DeleteProjectSummary(conversationId: string) returns (deleted: bool)
      modifies this
      ensures deleted == (conversationId in old(store))
      ensures store == old(store) - {conversationId}
      ensures Lookup(conversationId).None?
    {
      deleted := conversationId in store;
      store := store - {conversationId};
    }

    /** `getAllSummaries`: a copy of the whole store. */
    method GetAllSummaries() returns (all: map<string, Summary>)
      ensures all.Keys == store.Keys
      ensures forall c :: c in all ==> all[c] == store[c]
    {
      all := store;
    }

    /** `clearAll`: forgets every summary. */
    method ClearAll()
      modifies this
      ensures store == map[]
      ensures forall c :: Lookup(c).None?
    {
      store := map[];
    }
  }

  /** A client: saving then reading returns the saved summary, deleting then reading returns null. */
  method SaveGetDelete(repo: InMemoryProjectSummaryRepository, id: string, other: string, s: Summary)
    returns (afterSave: Option<Summary>, deleted: bool, afterDelete: Option<Summary>)
    requires id != other
    modifies repo
    ensures afterSave == Some(s) && deleted && afterDelete.None?
    ensures repo.Lookup(other) == old(repo.Lookup(other))
  {
    repo.SaveProjectSummary(id, s);
    afterSave := repo.GetProjectSummary(id);
    deleted := repo.DeleteProjectSummary(id);
    afterDelete := repo.GetProjectSummary(id);
  }
}
