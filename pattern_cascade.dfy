/**
 * The ordered-pattern cascade shared by the fallback extractors of
 * backend/src/services/analyzeTranscript.ts. The regex engine is not modelled: each
 * pattern is a matcher from the text to an optional match, and each extractor turns a
 * match into an optional candidate; the first pattern whose candidate survives wins.
 */
module PatternCascade {
  import opened Wrappers

  /**
   * A successful `text.match(pattern)`: `match[0]` and the capture groups `match[1..]`.
   * A group that did not take part in the match is the empty string: every use of a
   * group in the extractors is a truthiness test, for which `undefined` and `""` agree.
   */
  datatype Match = Match(whole: string, groups: seq<string>)

  /** A regular expression, seen only through what `text.match` returns. */
  type Matcher = string -> Option<Match>

  /** `match[i]`. */
  function Capture(m: Match, i: nat): string {
    if i == 0 then m.whole else if i - 1 < |m.groups| then m.groups[i - 1] else ""
  }

  /** The first present candidate, scanning the patterns in order. */
  function FirstSome<T>(candidates: seq<Option<T>>): Option<T> {
    if |candidates| == 0 then None
    else if candidates[0].Some? then candidates[0]
    else FirstSome(candidates[1..])
  }

  /**
   * The cascade yields nothing exactly when no pattern yields a candidate, and otherwise
   * the candidate of the first pattern that yields one.
   */
  lemma {:induction false} FirstSomeSpec<T>(candidates: seq<Option<T>>)
    ensures FirstSome(candidates).None? <==> forall i :: 0 <= i < |candidates| ==> candidates[i].None?
    ensures FirstSome(candidates).Some? ==>
      exists i :: 0 <= i < |candidates| && candidates[i] == FirstSome(candidates)
        && forall j :: 0 <= j < i ==> candidates[j].None?
  {
    if |candidates| > 0 && candidates[0].None? {
      var rest := candidates[1..];
      FirstSomeSpec(rest);
      if FirstSome(rest).Some? {
        var i :| 0 <= i < |rest| && rest[i] == FirstSome(rest) && forall j :: 0 <= j < i ==> rest[j].None?;
        assert candidates[i + 1] == FirstSome(candidates);
      }
    }
  }

  /** One more pattern that yields nothing extends the prefix of empty candidates. */
  lemma NoneSoFar<T>(candidates: seq<Option<T>>, i: nat)
    requires i < |candidates| && candidates[i].None?
    requires forall j :: 0 <= j < i ==> candidates[j].None?
    ensures forall j :: 0 <= j < i + 1 ==> candidates[j].None?
  {
  }

  /** When the patterns before `i` yield nothing and pattern `i` yields a candidate, it wins. */
  lemma {:induction false} FirstSomeAt<T>(candidates: seq<Option<T>>, i: nat)
    requires i < |candidates| && candidates[i].Some?
    requires forall j :: 0 <= j < i ==> candidates[j].None?
    ensures FirstSome(candidates) == candidates[i]
  {
    if i > 0 {
      FirstSomeAt(candidates[1..], i - 1);
    }
  }
}
