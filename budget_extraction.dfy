/**
 * `extractBudget` (backend/src/services/analyzeTranscript.ts): the first amount pattern
 * whose captured number, with its spaces removed and scaled by a thousand when the match
 * mentions "k", is a positive integer.
 */
module BudgetExtraction {
  import opened Wrappers
  import opened Text
  import opened PatternCascade

  /** `match[0].toLowerCase().includes("k")`. */
  predicate MentionsThousands(m: Match) {
    'k' in Lower(m.whole)
  }

  /** The lower-cased test is a test for either case of the letter k. */
  lemma MentionsThousandsIff(m: Match)
    ensures MentionsThousands(m) <==> exists i :: 0 <= i < |m.whole| && (m.whole[i] == 'k' || m.whole[i] == 'K')
  {
    var l := Lower(m.whole);
    if MentionsThousands(m) {
      var i :| 0 <= i < |l| && l[i] == 'k';
      assert LowerChar(m.whole[i]) == 'k';
    } else {
      forall i | 0 <= i < |m.whole|
        ensures m.whole[i] != 'k' && m.whole[i] != 'K'
      {
        assert l[i] != 'k';
      }
    }
  }

  /**
   * What one pattern's match contributes. `parseInt` failing is `None` (NaN), and NaN
   * scaled by a thousand stays NaN; only a positive number is kept.
   */
  function BudgetCandidate(m: Option<Match>): (r: Option<int>)
    ensures r.Some? ==> r.value > 0
  {
    if m.None? || Capture(m.value, 1) == "" then None
    else
      var num := ParseInt(RemoveWhitespace(Capture(m.value, 1)));
      var scaled := if MentionsThousands(m.value) && num.Some? then Some(num.value * 1000) else num;
      if scaled.Some? && scaled.value > 0 then scaled else None
  }

  /**
   * A capture made of digits and spaces is read as the number its digits spell, times a
   * thousand when the match mentions "k", and kept exactly when that is positive.
   */
  lemma BudgetFromDigits(m: Match)
    requires RemoveWhitespace(Capture(m, 1)) != "" && AllDigits(RemoveWhitespace(Capture(m, 1)))
    ensures var v := DigitsValue(RemoveWhitespace(Capture(m, 1))) * (if MentionsThousands(m) then 1000 else 1);
      BudgetCandidate(Some(m)) == if v > 0 then Some(v) else None
  {
    ParseIntOfDigits(RemoveWhitespace(Capture(m, 1)));
  }

  /** A capture without any digit run after optional whitespace and sign yields nothing. */
  lemma NoNumberNoBudget(m: Match)
    requires ParseInt(RemoveWhitespace(Capture(m, 1))).None?
    ensures BudgetCandidate(Some(m)).None?
  {
  }

  /** Example of `BudgetFromDigits`: "15k€" with the capture "15" is fifteen thousand. */
  lemma ThousandsExample()
    ensures BudgetCandidate(Some(Match("15k€", ["15"]))) == Some(15000)
  {
    var m := Match("15k€", ["15"]);
    RemoveWhitespaceKeepsWhitespaceFree("15");
    assert Lower("15k€")[2] == 'k';
    assert DigitsValue("15") == 15 by {
      assert "15"[..1] == "1";
    }
    BudgetFromDigits(m);
  }

  /** Example of `BudgetFromDigits`: "12 500 €" with the capture "12 500" is twelve thousand five hundred. */
  lemma SpacedDigitsExample()
    ensures BudgetCandidate(Some(Match("12 500 €", ["12 500"]))) == Some(12500)
  {
    var m := Match("12 500 €", ["12 500"]);
    SpacesRemovedExample();
    DigitsExample();
    NoThousandsExample();
    BudgetFromDigits(m);
  }

  // Steps of the examples above.
  lemma NoThousandsExample()
    ensures !MentionsThousands(Match("12 500 €", ["12 500"]))
  {
    MentionsThousandsIff(Match("12 500 €", ["12 500"]));
  }

  lemma SpacesRemovedExample()
    ensures RemoveWhitespace("12 500") == "12500"
  {
    RemoveWhitespaceKeepsWhitespaceFree("500");
    assert "12 500"[1..] == "2 500";
    assert "2 500"[1..] == " 500";
    assert " 500"[1..] == "500";
  }

  lemma DigitsExample()
    ensures AllDigits("12500") && DigitsValue("12500") == 12500
  {
    assert "12500"[..4] == "1250";
    assert "1250"[..3] == "125";
    assert "125"[..2] == "12";
    assert "12"[..1] == "1";
  }

  /** The body of `extractBudget`'s loop for one match. */
  method BudgetFromMatch(m: Option<Match>) returns (budget: Option<int>)
    ensures budget == BudgetCandidate(m)
  {
    budget := None;
    if m.Some? && Capture(m.value, 1) != "" {
      var value := RemoveWhitespace(Capture(m.value, 1));
      var num := ParseInt(value);
      if MentionsThousands(m.value) && num.Some? {
        num := Some(num.value * 1000);
      }
      if num.Some? && num.value > 0 {
        budget := num;
      }
    }
  }

  /** The candidates of the patterns, in order. */
  function BudgetCandidates(text: string, patterns: seq<Matcher>): (cs: seq<Option<int>>)
    ensures |cs| == |patterns|
    ensures forall i :: 0 <= i < |patterns| ==> cs[i] == BudgetCandidate(patterns[i](text))
  {
    seq(|patterns|, i requires 0 <= i < |patterns| => BudgetCandidate(patterns[i](text)))
  }

  /** `extractBudget`: the first positive amount the patterns yield, in order; null if none. */
  method ExtractBudget(text: string, patterns: seq<Matcher>) returns (budget: Option<int>)
    ensures budget == FirstSome(BudgetCandidates(text, patterns))
    ensures budget.None? <==> forall i :: 0 <= i < |patterns| ==> BudgetCandidate(patterns[i](text)).None?
    ensures budget.Some? ==> budget.value > 0
  {
    ghost var candidates := BudgetCandidates(text, patterns);
    var i := 0;
    while i < |patterns|
      invariant 0 <= i <= |patterns|
      invariant forall j :: 0 <= j < i ==> candidates[j].None?
    {
      budget := BudgetFromMatch(patterns[i](text));
      assert candidates[i] == budget;
      if budget.Some? {
        FirstSomeAt(candidates, i);
        return;
      }
      NoneSoFar(candidates, i);
      i := i + 1;
    }
    budget := None;
    FirstSomeSpec(candidates);
  }
}
