/**
 * The summary merge engine (backend/src/services/summaryMerge.ts): the per-field
 * "new non-null wins" merge, the content tests, and the human-readable diff.
 */
module SummaryMerge {
  import opened Wrappers
  import opened Text
  import opened ProjectSummary

  /**
   * `mergeSummaries`: with no existing summary, a copy of the latest one; otherwise each
   * field of the latest summary replaces the existing one unless it is null.
   */
  function MergeSummaries(existing: Option<Summary>, latest: Summary): (r: Summary)
    ensures existing.None? ==> r == latest
    ensures latest.title.Some? ==> r.title == latest.title
    ensures latest.startDate.Some? ==> r.startDate == latest.startDate
    ensures latest.endDate.Some? ==> r.endDate == latest.endDate
    ensures latest.budget.Some? ==> r.budget == latest.budget
    ensures existing.Some? && latest.title.None? ==> r.title == existing.value.title
    ensures existing.Some? && latest.startDate.None? ==> r.startDate == existing.value.startDate
    ensures existing.Some? && latest.endDate.None? ==> r.endDate == existing.value.endDate
    ensures existing.Some? && latest.budget.None? ==> r.budget == existing.value.budget
  {
    match existing
    case None => latest
    case Some(e) =>
      Summary(
        Coalesce(latest.title, e.title),
        Coalesce(latest.startDate, e.startDate),
        Coalesce(latest.endDate, e.endDate),
        Coalesce(latest.budget, e.budget))
  }

  /** Merging in the empty summary changes nothing. */
  lemma MergeWithEmptyIsIdentity(s: Summary)
    ensures MergeSummaries(Some(s), CreateEmptyProjectSummary()) == s
  {
  }

  /** Merging onto the empty summary is the same as having no summary. */
  lemma MergeOntoEmptyIsFresh(latest: Summary)
    ensures MergeSummaries(Some(CreateEmptyProjectSummary()), latest) == latest
  {
  }

  /** Merging the same latest summary twice is the same as merging it once. */
  lemma MergeIdempotent(existing: Option<Summary>, latest: Summary)
    ensures MergeSummaries(Some(MergeSummaries(existing, latest)), latest) == MergeSummaries(existing, latest)
  {
  }

  /** The non-null fields of a merge are those of either summary. */
  lemma MergeFilledFields(existing: Summary, latest: Summary)
    ensures FilledFields(MergeSummaries(Some(existing), latest)) == FilledFields(existing) + FilledFields(latest)
  {
    var r := MergeSummaries(Some(existing), latest);
    forall f: Field
      ensures f in FilledFields(r) <==> f in FilledFields(existing) + FilledFields(latest)
    {
      match f
      case Title =>
      case StartDate =>
      case EndDate =>
      case Budget =>
    }
  }

  /** No field that was known before a merge becomes null after it. */
  lemma MergeNeverRegresses(existing: Summary, latest: Summary)
    ensures FilledFields(existing) <= FilledFields(MergeSummaries(Some(existing), latest))
    ensures existing.title.Some? ==> MergeSummaries(Some(existing), latest).title.Some?
    ensures existing.startDate.Some? ==> MergeSummaries(Some(existing), latest).startDate.Some?
    ensures existing.endDate.Some? ==> MergeSummaries(Some(existing), latest).endDate.Some?
    ensures existing.budget.Some? ==> MergeSummaries(Some(existing), latest).budget.Some?
  {
    MergeFilledFields(existing, latest);
  }

  /** Merging turn by turn is the same as first merging the later turns together. */
  lemma MergeAssociative(a: Summary, b: Summary, c: Summary)
    ensures MergeSummaries(Some(MergeSummaries(Some(a), b)), c)
         == MergeSummaries(Some(a), MergeSummaries(Some(b), c))
  {
  }

  /** The summary persisted after a sequence of turns, each merged onto the previous. */
  function MergeAll(turns: seq<Summary>): Option<Summary> {
    if |turns| == 0 then None
    else Some(MergeSummaries(MergeAll(turns[..|turns| - 1]), turns[|turns| - 1]))
  }

  /** The last non-null value of a sequence, or null. */
  function LastNonNull<T>(xs: seq<Option<T>>): Option<T> {
    if |xs| == 0 then None
    else if xs[|xs| - 1].Some? then xs[|xs| - 1]
    else LastNonNull(xs[..|xs| - 1])
  }

  /** `LastNonNull` is null when every entry is, and otherwise the last non-null entry. */
  lemma LastNonNullSpec<T>(xs: seq<Option<T>>)
    ensures LastNonNull(xs).None? <==> forall i :: 0 <= i < |xs| ==> xs[i].None?
    ensures LastNonNull(xs).Some? ==>
      exists i :: 0 <= i < |xs| && xs[i] == LastNonNull(xs) && forall j :: i < j < |xs| ==> xs[j].None?
  {
    LastNonNullNone(xs);
    if LastNonNull(xs).Some? {
      LastNonNullWitness(xs);
    }
  }

  lemma {:induction false} LastNonNullNone<T>(xs: seq<Option<T>>)
    ensures LastNonNull(xs).None? <==> forall i :: 0 <= i < |xs| ==> xs[i].None?
  {
    var n := |xs|;
    if n > 0 && xs[n - 1].None? {
      var prefix := xs[..n - 1];
      LastNonNullNone(prefix);
      assert forall i :: 0 <= i < n - 1 ==> prefix[i] == xs[i];
    }
  }

  lemma {:induction false} LastNonNullWitness<T>(xs: seq<Option<T>>)
    requires LastNonNull(xs).Some?
    ensures exists i :: 0 <= i < |xs| && xs[i] == LastNonNull(xs) && forall j :: i < j < |xs| ==> xs[j].None?
  {
    var n := |xs|;
    if xs[n - 1].Some? {
      assert xs[n - 1] == LastNonNull(xs);
    } else {
      var prefix := xs[..n - 1];
      LastNonNullWitness(prefix);
      var i :| 0 <= i < n - 1 && prefix[i] == LastNonNull(prefix) && forall j :: i < j < n - 1 ==> prefix[j].None?;
      assert xs[i] == LastNonNull(xs);
      assert forall j :: i < j < n ==> xs[j].None? by {
        assert forall j :: i < j < n - 1 ==> xs[j] == prefix[j];
      }
    }
  }

  function Titles(turns: seq<Summary>): seq<Option<string>> {
    seq(|turns|, i requires 0 <= i < |turns| => turns[i].title)
  }

  function StartDates(turns: seq<Summary>): seq<Option<string>> {
    seq(|turns|, i requires 0 <= i < |turns| => turns[i].startDate)
  }

  function EndDates(turns: seq<Summary>): seq<Option<string>> {
    seq(|turns|, i requires 0 <= i < |turns| => turns[i].endDate)
  }

  function Budgets(turns: seq<Summary>): seq<Option<int>> {
    seq(|turns|, i requires 0 <= i < |turns| => turns[i].budget)
  }

  /**
   * After any non-empty sequence of turns, each persisted field is the most recent
   * non-null value extracted for it (null if it was never extracted).
   */
  lemma {:induction false} MergeAllKeepsLatest(turns: seq<Summary>)
    requires |turns| > 0
    ensures MergeAll(turns).Some?
    ensures MergeAll(turns).value.title == LastNonNull(Titles(turns))
    ensures MergeAll(turns).value.startDate == LastNonNull(StartDates(turns))
    ensures MergeAll(turns).value.endDate == LastNonNull(EndDates(turns))
    ensures MergeAll(turns).value.budget == LastNonNull(Budgets(turns))
  {
    var n := |turns|;
    var prefix := turns[..n - 1];
    assert Titles(turns)[..n - 1] == Titles(prefix);
    assert StartDates(turns)[..n - 1] == StartDates(prefix);
    assert EndDates(turns)[..n - 1] == EndDates(prefix);
    assert Budgets(turns)[..n - 1] == Budgets(prefix);
    if n > 1 {
      MergeAllKeepsLatest(prefix);
    }
  }

  /** `hasSummaryContent`: true exactly when the summary is not the empty one. */
  function HasSummaryContent(s: Summary): (r: bool)
    ensures r <==> s != CreateEmptyProjectSummary()
    ensures r <==> FilledFields(s) != {}
  {
    s.title.Some? || s.startDate.Some? || s.endDate.Some? || s.budget.Some?
  }

  /** `countFilledFields`: the number of non-null fields, between 0 and 4. */
  method CountFilledFields(s: Summary) returns (count: nat)
    ensures count == |FilledFields(s)|
    ensures count <= 4
    ensures count == 0 <==> !HasSummaryContent(s)
  {
    count := 0;
    if s.title.Some? {
      count := count + 1;
    }
    if s.startDate.Some? {
      count := count + 1;
    }
    if s.endDate.Some? {
      count := count + 1;
    }
    if s.budget.Some? {
      count := count + 1;
    }
    FilledFieldsCount(s);
    FilledFieldsAtMostFour(s);
  }

  lemma FilledFieldsCount(s: Summary)
    ensures |FilledFields(s)| == (if s.title.Some? then 1 else 0) + (if s.startDate.Some? then 1 else 0)
                                + (if s.endDate.Some? then 1 else 0) + (if s.budget.Some? then 1 else 0)
  {
    var a: set<Field> := if s.title.Some? then {Title} else {};
    var b: set<Field> := if s.startDate.Some? then {StartDate} else {};
    var c: set<Field> := if s.endDate.Some? then {EndDate} else {};
    var d: set<Field> := if s.budget.Some? then {Budget} else {};
    assert FilledFields(s) == a + b + c + d;
    assert |a + b| == |a| + |b|;
    assert |a + b + c| == |a + b| + |c|;
    assert |a + b + c + d| == |a + b + c| + |d|;
  }

  lemma FilledFieldsAtMostFour(s: Summary)
    ensures |FilledFields(s)| <= 4
  {
    AllFieldsCount();
    SubsetCardinality(FilledFields(s), AllFields);
  }

  lemma SubsetCardinality<T>(a: set<T>, b: set<T>)
    requires a <= b
    ensures |a| <= |b|
  {
    assert b == a + (b - a);
  }

  /** The position of each field in the summary's field order. */
  function FieldIndex(f: Field): nat {
    match f
    case Title => 0
    case StartDate => 1
    case EndDate => 2
    case Budget => 3
  }

  /**
   * How a change is reported: `Listed` when there was no previous summary, `Defined` when
   * the previous field was falsy, `Updated` otherwise.
   */
  datatype ChangeKind = Listed | Defined | Updated

  /** One line of `getChanges`, before it is rendered as text. */
  datatype Change = Change(field: Field, kind: ChangeKind, value: string)

  /** Whether field `f` holds the same value (`===`) in `a` and `b`. */
  predicate SameValue(a: Summary, b: Summary, f: Field) {
    match f
    case Title => a.title == b.title
    case StartDate => a.startDate == b.startDate
    case EndDate => a.endDate == b.endDate
    case Budget => a.budget == b.budget
  }

  /** The label of a change: listed without a previous summary, else updated or newly defined. */
  function KindOf(previous: Option<Summary>, f: Field): ChangeKind {
    if previous.None? then Listed else if Present(previous.value, f) then Updated else Defined
  }

  /** The text shown for a truthy field; the budget is printed in base 10. */
  function FieldText(s: Summary, f: Field): string
    requires Present(s, f)
  {
    match f
    case Title => s.title.value
    case StartDate => s.startDate.value
    case EndDate => s.endDate.value
    case Budget => IntToString(s.budget.value)
  }

  /** The change for one field: reported when the new value is truthy and differs. */
  function FieldChange(previous: Option<Summary>, latest: Summary, f: Field): (cs: seq<Change>)
    ensures |cs| <= 1
    ensures |cs| == 1 <==> Present(latest, f) && (previous.None? || !SameValue(latest, previous.value, f))
    ensures |cs| == 1 ==> cs[0].field == f
    ensures |cs| == 1 ==> (cs[0].kind == Listed <==> previous.None?)
    ensures |cs| == 1 ==> (cs[0].kind == Updated <==> previous.Some? && Present(previous.value, f))
  {
    if !Present(latest, f) then []
    else if previous.Some? && SameValue(latest, previous.value, f) then []
    else [Change(f, KindOf(previous, f), FieldText(latest, f))]
  }

  /** The rendered lines of one field's change: its one line, or none. */
  lemma RenderFieldChange(previous: Option<Summary>, latest: Summary, f: Field)
    ensures RenderAll(FieldChange(previous, latest, f))
         == if Present(latest, f) && (previous.None? || !SameValue(latest, previous.value, f))
            then [Render(Change(f, KindOf(previous, f), FieldText(latest, f)))]
            else []
  {
  }

  /** The changes between an previous and a new summary, in the order title, start, end, budget. */
  function Changes(previous: Option<Summary>, latest: Summary): seq<Change> {
    FieldChange(previous, latest, Title) + FieldChange(previous, latest, StartDate)
    + FieldChange(previous, latest, EndDate) + FieldChange(previous, latest, Budget)
  }

  /** The change list has at most four entries, in strictly increasing field order. */
  lemma ChangesOrdered(previous: Option<Summary>, latest: Summary)
    ensures |Changes(previous, latest)| <= 4
    ensures forall i, j :: 0 <= i < j < |Changes(previous, latest)| ==>
      FieldIndex(Changes(previous, latest)[i].field) < FieldIndex(Changes(previous, latest)[j].field)
  {
  }

  /**
   * A field is reported exactly when its new value is truthy and, if there is an previous
   * summary, differs from the previous value; the label says whether the previous one was falsy.
   */
  lemma ChangesReportField(previous: Option<Summary>, latest: Summary, f: Field)
    ensures (exists i :: 0 <= i < |Changes(previous, latest)| && Changes(previous, latest)[i].field == f)
        <==> Present(latest, f) && (previous.None? || !SameValue(latest, previous.value, f))
    ensures forall i :: 0 <= i < |Changes(previous, latest)| && Changes(previous, latest)[i].field == f ==>
      && (Changes(previous, latest)[i].kind == Listed <==> previous.None?)
      && (Changes(previous, latest)[i].kind == Updated <==> previous.Some? && Present(previous.value, f))
  {
    var cs := Changes(previous, latest);
    forall i | 0 <= i < |cs| && cs[i].field == f
      ensures |FieldChange(previous, latest, f)| == 1 && cs[i] == FieldChange(previous, latest, f)[0]
    {
      ChangeEntryOrigin(previous, latest, i);
    }
    var mine := FieldChange(previous, latest, f);
    if |mine| == 1 {
      ChangeEntryPresent(previous, latest, f);
    }
  }

  /** Every entry of the change list is the one change of its own field. */
  lemma ChangeEntryOrigin(previous: Option<Summary>, latest: Summary, i: nat)
    requires i < |Changes(previous, latest)|
    ensures |FieldChange(previous, latest, Changes(previous, latest)[i].field)| == 1
    ensures Changes(previous, latest)[i] == FieldChange(previous, latest, Changes(previous, latest)[i].field)[0]
  {
    var t, s, e, b := FieldChange(previous, latest, Title), FieldChange(previous, latest, StartDate),
                      FieldChange(previous, latest, EndDate), FieldChange(previous, latest, Budget);
    var cs := Changes(previous, latest);
    if i < |t| {
      assert cs[i] == t[0];
    } else if i < |t| + |s| {
      assert cs[i] == s[0];
    } else if i < |t| + |s| + |e| {
      assert cs[i] == e[0];
    } else {
      assert cs[i] == b[0];
    }
  }

  /** The change of a reported field appears in the change list. */
  lemma ChangeEntryPresent(previous: Option<Summary>, latest: Summary, f: Field)
    requires |FieldChange(previous, latest, f)| == 1
    ensures exists i :: 0 <= i < |Changes(previous, latest)| && Changes(previous, latest)[i] == FieldChange(previous, latest, f)[0]
  {
    var t, s, e, b := FieldChange(previous, latest, Title), FieldChange(previous, latest, StartDate),
                      FieldChange(previous, latest, EndDate), FieldChange(previous, latest, Budget);
    var cs := Changes(previous, latest);
    var i := match f
      case Title => 0
      case StartDate => |t|
      case EndDate => |t| + |s|
      case Budget => |t| + |s| + |e|;
    assert cs[i] == FieldChange(previous, latest, f)[0];
  }

  /** Diffing a summary against itself, or against a merge that absorbed it, reports nothing. */
  lemma NoChangesAfterMerge(existing: Option<Summary>, latest: Summary)
    ensures Changes(Some(latest), latest) == []
    ensures Changes(Some(MergeSummaries(existing, latest)), latest) == []
  {
  }

  /** The text `getChanges` pushes for a title change. */
  function TitleLine(kind: ChangeKind, title: string): string {
    if kind == Listed then "Titre défini: \"" + title + "\""
    else "Titre " + (if kind == Updated then "mis à jour" else "défini") + ": \"" + title + "\""
  }

  /** The text `getChanges` pushes for a start-date change. */
  function StartDateLine(kind: ChangeKind, date: string): string {
    if kind == Listed then "Date de début: " + date
    else "Date de début " + (if kind == Updated then "mise à jour" else "définie") + ": " + date
  }

  /** The text `getChanges` pushes for an end-date change. */
  function EndDateLine(kind: ChangeKind, date: string): string {
    if kind == Listed then "Date de fin: " + date
    else "Date de fin " + (if kind == Updated then "mise à jour" else "définie") + ": " + date
  }

  /** The text `getChanges` pushes for a budget change. */
  function BudgetLine(kind: ChangeKind, amount: string): string {
    if kind == Listed then "Budget: " + amount + "€"
    else "Budget " + (if kind == Updated then "mis à jour" else "défini") + ": " + amount + "€"
  }

  function Render(c: Change): string {
    match c.field
    case Title => TitleLine(c.kind, c.value)
    case StartDate => StartDateLine(c.kind, c.value)
    case EndDate => EndDateLine(c.kind, c.value)
    case Budget => BudgetLine(c.kind, c.value)
  }

  function RenderAll(cs: seq<Change>): (lines: seq<string>)
    ensures |lines| == |cs|
  {
    if |cs| == 0 then [] else [Render(cs[0])] + RenderAll(cs[1..])
  }

  lemma {:induction false} RenderAllAppend(a: seq<Change>, b: seq<Change>)
    ensures RenderAll(a + b) == RenderAll(a) + RenderAll(b)
  {
    if |a| > 0 {
      assert (a + b)[1..] == a[1..] + b;
      RenderAllAppend(a[1..], b);
    } else {
      assert a + b == b;
    }
  }

  /** `getChanges`: pushes one line per reported change, in field order. */
  method GetChanges(previous: Option<Summary>, latest: Summary) returns (changes: seq<string>)
    ensures changes == RenderAll(Changes(previous, latest))
  {
    if previous.None? {
      changes := ListedChanges(latest);
    } else {
      changes := ChangedFields(previous.value, latest);
    }
  }

  /** The first branch of `getChanges`: with no previous summary, every truthy field is listed. */
  method ListedChanges(latest: Summary) returns (changes: seq<string>)
    ensures changes == RenderAll(Changes(None, latest))
  {
    changes := [];
    if TextPresent(latest.title) {
      changes := changes + [TitleLine(Listed, latest.title.value)];
    }
    assert changes == RenderAll(FieldChange(None, latest, Title)) by {
      RenderFieldChange(None, latest, Title);
    }
    ghost var expected := changes;
    if TextPresent(latest.startDate) {
      changes := changes + [StartDateLine(Listed, latest.startDate.value)];
    }
    assert changes == expected + RenderAll(FieldChange(None, latest, StartDate)) by {
      RenderFieldChange(None, latest, StartDate);
    }
    expected := changes;
    if TextPresent(latest.endDate) {
      changes := changes + [EndDateLine(Listed, latest.endDate.value)];
    }
    assert changes == expected + RenderAll(FieldChange(None, latest, EndDate)) by {
      RenderFieldChange(None, latest, EndDate);
    }
    expected := changes;
    if AmountPresent(latest.budget) {
      changes := changes + [BudgetLine(Listed, IntToString(latest.budget.value))];
    }
    assert changes == expected + RenderAll(FieldChange(None, latest, Budget)) by {
      RenderFieldChange(None, latest, Budget);
    }
    RenderChanges(None, latest);
  }

  /** The second branch of `getChanges`: each truthy field that differs from the previous one. */
  method ChangedFields(o: Summary, latest: Summary) returns (changes: seq<string>)
    ensures changes == RenderAll(Changes(Some(o), latest))
  {
    changes := [];
    if TextPresent(latest.title) && latest.title != o.title {
      changes := changes + [TitleLine(if TextPresent(o.title) then Updated else Defined, latest.title.value)];
    }
    assert changes == RenderAll(FieldChange(Some(o), latest, Title)) by {
      ChangedTitleLines(o, latest);
    }
    ghost var expected := changes;
    if TextPresent(latest.startDate) && latest.startDate != o.startDate {
      changes := changes + [StartDateLine(if TextPresent(o.startDate) then Updated else Defined, latest.startDate.value)];
    }
    assert changes == expected + RenderAll(FieldChange(Some(o), latest, StartDate)) by {
      ChangedStartDateLines(o, latest);
    }
    expected := changes;
    if TextPresent(latest.endDate) && latest.endDate != o.endDate {
      changes := changes + [EndDateLine(if TextPresent(o.endDate) then Updated else Defined, latest.endDate.value)];
    }
    assert changes == expected + RenderAll(FieldChange(Some(o), latest, EndDate)) by {
      ChangedEndDateLines(o, latest);
    }
    expected := changes;
    if AmountPresent(latest.budget) && latest.budget != o.budget {
      changes := changes + [BudgetLine(if AmountPresent(o.budget) then Updated else Defined, IntToString(latest.budget.value))];
    }
    assert changes == expected + RenderAll(FieldChange(Some(o), latest, Budget)) by {
      ChangedBudgetLines(o, latest);
    }
    RenderChanges(Some(o), latest);
  }

  lemma ChangedTitleLines(o: Summary, latest: Summary)
    ensures RenderAll(FieldChange(Some(o), latest, Title))
         == if TextPresent(latest.title) && latest.title != o.title
            then [TitleLine(if TextPresent(o.title) then Updated else Defined, latest.title.value)] else []
  {
    RenderFieldChange(Some(o), latest, Title);
  }

  lemma ChangedStartDateLines(o: Summary, latest: Summary)
    ensures RenderAll(FieldChange(Some(o), latest, StartDate))
         == if TextPresent(latest.startDate) && latest.startDate != o.startDate
            then [StartDateLine(if TextPresent(o.startDate) then Updated else Defined, latest.startDate.value)] else []
  {
    RenderFieldChange(Some(o), latest, StartDate);
  }

  lemma ChangedEndDateLines(o: Summary, latest: Summary)
    ensures RenderAll(FieldChange(Some(o), latest, EndDate))
         == if TextPresent(latest.endDate) && latest.endDate != o.endDate
            then [EndDateLine(if TextPresent(o.endDate) then Updated else Defined, latest.endDate.value)] else []
  {
    RenderFieldChange(Some(o), latest, EndDate);
  }

  lemma ChangedBudgetLines(o: Summary, latest: Summary)
    ensures RenderAll(FieldChange(Some(o), latest, Budget))
         == if AmountPresent(latest.budget) && latest.budget != o.budget
            then [BudgetLine(if AmountPresent(o.budget) then Updated else Defined, IntToString(latest.budget.value))] else []
  {
    RenderFieldChange(Some(o), latest, Budget);
  }

  lemma RenderChanges(previous: Option<Summary>, latest: Summary)
    ensures RenderAll(Changes(previous, latest))
         == RenderAll(FieldChange(previous, latest, Title)) + RenderAll(FieldChange(previous, latest, StartDate))
          + RenderAll(FieldChange(previous, latest, EndDate)) + RenderAll(FieldChange(previous, latest, Budget))
  {
    var t, s, e, b := FieldChange(previous, latest, Title), FieldChange(previous, latest, StartDate),
                      FieldChange(previous, latest, EndDate), FieldChange(previous, latest, Budget);
    RenderAllAppend(t, s);
    RenderAllAppend(t + s, e);
    RenderAllAppend(t + s + e, b);
  }
}
