/**
 * `generateAiMessage` (backend/src/services/analyzeTranscript.ts): the acknowledgement
 * sent back after each analysis, one sentence part per truthy field of the summary.
 */
module AiMessage {
  import opened Wrappers
  import opened Text
  import opened ProjectSummary

  /**
   * `formatDate` (a `Date` printed with the fr-FR long format) and
   * `toLocaleString("fr-FR")`: locale formatting, outside this model.
   */
  datatype Formatters = Formatters(date: string -> string, amount: int -> string)

  // The literals holding accented letters are split after their ASCII head so that
  // the verifier can read their first characters.
  const ListeningMessage: string := "Je vous " + "écoute, continuez à me parler de votre projet."

  const AckPrefix: string := "Bien not" + "é ! "

  function TitlePart(title: string): string {
    "J'ai noté le nom du projet : \"" + title + "\""
  }

  function StartDatePart(date: string, fmt: Formatters): string {
    "Date de début : " + fmt.date(date)
  }

  function EndDatePart(date: string, fmt: Formatters): string {
    "Date de fin : " + fmt.date(date)
  }

  function BudgetPart(amount: int, fmt: Formatters): string {
    "Budget : " + fmt.amount(amount) + " €"
  }

  /** The part for one field, when the field is truthy. */
  function FieldPart(s: Summary, f: Field, fmt: Formatters): seq<string> {
    if !Present(s, f) then []
    else match f
      case Title => [TitlePart(s.title.value)]
      case StartDate => [StartDatePart(s.startDate.value, fmt)]
      case EndDate => [EndDatePart(s.endDate.value, fmt)]
      case Budget => [BudgetPart(s.budget.value, fmt)]
  }

  /** The parts in the order title, start date, end date, budget. */
  function Parts(s: Summary, fmt: Formatters): seq<string> {
    FieldPart(s, Title, fmt) + FieldPart(s, StartDate, fmt) + FieldPart(s, EndDate, fmt) + FieldPart(s, Budget, fmt)
  }

  /** The message: the listening prompt without parts, else the parts joined by ". ". */
  function AckMessage(s: Summary, fmt: Formatters): string {
    var parts := Parts(s, fmt);
    if |parts| == 0 then ListeningMessage else AckPrefix + Join(parts, ". ") + "."
  }

  /** The number of truthy fields. */
  function PresentCount(s: Summary): (n: nat)
    ensures n <= 4
  {
    (if Present(s, Title) then 1 else 0) + (if Present(s, StartDate) then 1 else 0)
    + (if Present(s, EndDate) then 1 else 0) + (if Present(s, Budget) then 1 else 0)
  }

  /** `generateAiMessage`: pushes the parts one field at a time, then joins them. */
  method GenerateAiMessage(s: Summary, fmt: Formatters) returns (message: string)
    ensures message == AckMessage(s, fmt)
  {
    var parts: seq<string> := [];
    if TextPresent(s.title) {
      parts := parts + [TitlePart(s.title.value)];
    }
    assert parts == FieldPart(s, Title, fmt);
    if TextPresent(s.startDate) {
      parts := parts + [StartDatePart(s.startDate.value, fmt)];
    }
    assert parts == FieldPart(s, Title, fmt) + FieldPart(s, StartDate, fmt);
    if TextPresent(s.endDate) {
      parts := parts + [EndDatePart(s.endDate.value, fmt)];
    }
    assert parts == FieldPart(s, Title, fmt) + FieldPart(s, StartDate, fmt) + FieldPart(s, EndDate, fmt);
    if AmountPresent(s.budget) {
      parts := parts + [BudgetPart(s.budget.value, fmt)];
    }
    assert parts == Parts(s, fmt);
    if |parts| == 0 {
      return ListeningMessage;
    }
    message := AckPrefix + Join(parts, ". ") + ".";
  }

  // ---------------------------------------------------------------------------
  // Properties of the message
  // ---------------------------------------------------------------------------

  /** There is one part per truthy field. */
  lemma PartsCount(s: Summary, fmt: Formatters)
    ensures |Parts(s, fmt)| == PresentCount(s)
  {
  }

  /** The listening prompt is sent exactly when no field is truthy. */
  lemma ListeningIffNothingPresent(s: Summary, fmt: Formatters)
    ensures AckMessage(s, fmt) == ListeningMessage
        <==> !Present(s, Title) && !Present(s, StartDate) && !Present(s, EndDate) && !Present(s, Budget)
  {
    PartsCount(s, fmt);
    var m := AckMessage(s, fmt);
    if |Parts(s, fmt)| > 0 {
      AckShape(s, fmt);
      var first := AckPrefix + Parts(s, fmt)[0];
      assert m[0] == m[..|first|][0] == first[0] == 'B';
      assert ListeningMessage[0] == 'J';
    }
  }

  /** The empty summary, and one whose fields are all falsy, are answered with the listening prompt. */
  lemma EmptySummaryListens(fmt: Formatters)
    ensures AckMessage(CreateEmptyProjectSummary(), fmt) == ListeningMessage
  {
  }

  /** Otherwise the message opens with the acknowledgement and the first part, and ends with a full stop. */
  lemma AckShape(s: Summary, fmt: Formatters)
    requires |Parts(s, fmt)| > 0
    ensures StartsWith(AckMessage(s, fmt), AckPrefix + Parts(s, fmt)[0])
    ensures EndsWith(AckMessage(s, fmt), ".")
  {
    var parts := Parts(s, fmt);
    var m := AckMessage(s, fmt);
    var first := AckPrefix + parts[0];
    if |parts| == 1 {
      assert m == first + ".";
    } else {
      assert m == first + (". " + Join(parts[1..], ". ") + ".");
    }
    assert m[..|first|] == first;
  }

  /** A truthy title always comes first. */
  lemma TitleComesFirst(s: Summary, fmt: Formatters)
    requires TextPresent(s.title)
    ensures Parts(s, fmt)[0] == TitlePart(s.title.value)
    ensures StartsWith(AckMessage(s, fmt), AckPrefix + TitlePart(s.title.value))
  {
    AckShape(s, fmt);
  }

  /** A truthy budget always comes last. */
  lemma BudgetComesLast(s: Summary, fmt: Formatters)
    requires AmountPresent(s.budget)
    ensures Parts(s, fmt)[|Parts(s, fmt)| - 1] == BudgetPart(s.budget.value, fmt)
  {
  }

  /** A zero budget, an empty title or an empty date is left out as if it were null. */
  lemma FalsyFieldsOmitted(s: Summary, fmt: Formatters)
    ensures AckMessage(s.(budget := if AmountPresent(s.budget) then s.budget else None), fmt) == AckMessage(s, fmt)
    ensures AckMessage(s.(title := if TextPresent(s.title) then s.title else None), fmt) == AckMessage(s, fmt)
    ensures AckMessage(s.(startDate := if TextPresent(s.startDate) then s.startDate else None), fmt) == AckMessage(s, fmt)
    ensures AckMessage(s.(endDate := if TextPresent(s.endDate) then s.endDate else None), fmt) == AckMessage(s, fmt)
  {
    assert Parts(s.(budget := if AmountPresent(s.budget) then s.budget else None), fmt) == Parts(s, fmt);
    assert Parts(s.(title := if TextPresent(s.title) then s.title else None), fmt) == Parts(s, fmt);
    assert Parts(s.(startDate := if TextPresent(s.startDate) then s.startDate else None), fmt) == Parts(s, fmt);
    assert Parts(s.(endDate := if TextPresent(s.endDate) then s.endDate else None), fmt) == Parts(s, fmt);
  }
}
