/**
 * `extractTitle` (backend/src/services/analyzeTranscript.ts): the first naming pattern
 * whose capture, once trimmed and stripped of a trailing filler word, is a plausible
 * project name, capitalised word by word.
 */
module TitleExtraction {
  import opened Wrappers
  import opened Text
  import opened PatternCascade

  /**
   * The short words a title may not end with and may not consist of: the alternatives
   * of both the trailing-word regex and the invalid-title regex, which list the same
   * sixteen words.
   */
  const FillerWords: set<string> :=
    {"on", "le", "la", "les", "un", "une", "des", "du", "de", "et", "ou", "pour", "qui", "que", "ça", "ca"}

  /** The beginnings that mark a description rather than a name. */
  const DescriptionPrefixes: seq<string> := ["qui", "une", "faire", "créer", "développer", "construire"]

  /** Where the run of non-whitespace characters that ends at `k` begins. */
  function TokenStart(t: string, k: nat): (j: nat)
    requires k <= |t|
    ensures j <= k
    ensures j == 0 || IsWhitespace(t[j - 1])
    ensures forall i :: j <= i < k ==> !IsWhitespace(t[i])
  {
    if k == 0 || IsWhitespace(t[k - 1]) then k else TokenStart(t, k - 1)
  }

  /** Where the last word of `t` begins. */
  function LastWordStart(t: string): (j: nat)
    ensures j <= |t|
  {
    TokenStart(t, |t|)
  }

  /** `t` ends with whitespace followed by a filler word, in any case. */
  predicate EndsWithFiller(t: string) {
    var k := LastWordStart(t);
    k > 0 && Lower(t[k..]) in FillerWords
  }

  /**
   * `.replace(/\s+(on|le|…|ca)$/i, "")`: when the text ends with a filler word after
   * whitespace, the word and the whole whitespace run before it are removed; otherwise
   * the text is unchanged.
   */
  function StripTrailingFiller(t: string): (r: string)
    ensures !EndsWithFiller(t) ==> r == t
    ensures EndsWithFiller(t) ==>
      && |r| < LastWordStart(t) && r == t[..|r|]
      && AllWhitespace(t[|r|..LastWordStart(t)])
      && (r == [] || !IsWhitespace(r[|r| - 1]))
  {
    var k := LastWordStart(t);
    if k > 0 && Lower(t[k..]) in FillerWords then
      var r := TrimEnd(t[..k]);
      assert t[|r|..k] == t[..k][|r|..];
      r
    else t
  }

  /** Both alternatives of the invalid-title regex that span two words. */
  predicate IsWordPair(l: string, first: string, second: string) {
    && |l| > |first| + |second|
    && StartsWith(l, first) && EndsWith(l, second)
    && AllWhitespace(l[|first|..|l| - |second|])
  }

  /** The invalid-title regex: a lone filler word, "faire", "une plateforme" or "qui gère". */
  predicate IsInvalidTitle(t: string) {
    var l := Lower(t);
    l in FillerWords || l == "faire" || IsWordPair(l, "une", "plateforme") || IsWordPair(l, "qui", "gère")
  }

  /** The description regex: the title begins with one of the description prefixes. */
  predicate IsDescription(t: string) {
    exists i :: 0 <= i < |DescriptionPrefixes| && StartsWith(Lower(t), DescriptionPrefixes[i])
  }

  /** The three validation tests a cleaned title must pass. */
  predicate AcceptableTitle(t: string) {
    |t| > 1 && !IsInvalidTitle(t) && !IsDescription(t)
  }

  /** The capture after `trim`, the trailing-word removal and a second `trim`. */
  function CleanTitle(capture: string): string {
    Trim(StripTrailingFiller(Trim(capture)))
  }

  /** `word.charAt(0).toUpperCase() + word.slice(1)`. */
  function CapitalizeWord(w: string): string {
    if |w| == 0 then w else [UpperChar(w[0])] + w[1..]
  }

  function CapitalizeEach(words: seq<string>): (r: seq<string>)
    ensures |r| == |words|
  {
    if |words| == 0 then [] else [CapitalizeWord(words[0])] + CapitalizeEach(words[1..])
  }

  /** `title.split(" ").map(capitalise).join(" ")`. */
  function CapitalizeWords(t: string): string {
    Join(CapitalizeEach(Split(t)), " ")
  }

  /**
   * Character-wise reference for the capitalisation: each character that starts the
   * text (when `atStart`) or follows a space is upper-cased, every other is kept.
   */
  function UpperAfterSpace(s: string, atStart: bool): (r: string)
    ensures |r| == |s|
  {
    if |s| == 0 then ""
    else [if atStart then UpperChar(s[0]) else s[0]] + UpperAfterSpace(s[1..], s[0] == ' ')
  }

  lemma {:induction false} UpperAfterSpaceAt(s: string, atStart: bool, i: nat)
    requires i < |s|
    ensures UpperAfterSpace(s, atStart)[i]
         == if (i == 0 && atStart) || (i > 0 && s[i - 1] == ' ') then UpperChar(s[i]) else s[i]
  {
    if i > 0 {
      UpperAfterSpaceAt(s[1..], s[0] == ' ', i - 1);
    }
  }

  /** Prepending a character to the first piece prepends it to the joined text. */
  lemma JoinConsFirst(c: char, w: string, rest: seq<string>, sep: string)
    ensures Join([[c] + w] + rest, sep) == [c] + Join([w] + rest, sep)
  {
    if |rest| > 0 {
      assert ([[c] + w] + rest)[1..] == rest;
      assert ([w] + rest)[1..] == rest;
    }
  }

  /** Split-map-join agrees with the character-wise reference, first word included or not. */
  lemma {:induction false} CapitalizeSplitJoin(s: string, atStart: bool)
    ensures var words := Split(s);
      Join([if atStart then CapitalizeWord(words[0]) else words[0]] + CapitalizeEach(words[1..]), " ")
        == UpperAfterSpace(s, atStart)
  {
    if |s| > 0 {
      var rest := Split(s[1..]);
      if s[0] == ' ' {
        CapitalizeSplitJoin(s[1..], true);
        assert Split(s) == [""] + rest;
        var tail := CapitalizeEach(rest);
        assert tail == [CapitalizeWord(rest[0])] + CapitalizeEach(rest[1..]);
        assert Join([""] + tail, " ") == "" + " " + Join(tail, " ") by {
          assert ([""] + tail)[1..] == tail;
        }
      } else {
        CapitalizeSplitJoin(s[1..], false);
        assert Split(s) == [[s[0]] + rest[0]] + rest[1..];
        var c := if atStart then UpperChar(s[0]) else s[0];
        assert (if atStart then CapitalizeWord([s[0]] + rest[0]) else [s[0]] + rest[0]) == [c] + rest[0];
        JoinConsFirst(c, rest[0], CapitalizeEach(rest[1..]), " ");
      }
    }
  }

  /**
   * The capitalised title has the same length as the title, upper-cases the first
   * character and every character that follows a space, and keeps every other character.
   */
  lemma CapitalizeWordsAt(t: string, i: nat)
    requires i < |t|
    ensures |CapitalizeWords(t)| == |t|
    ensures CapitalizeWords(t)[i] == if i == 0 || t[i - 1] == ' ' then UpperChar(t[i]) else t[i]
  {
    var words := Split(t);
    assert CapitalizeEach(words) == [CapitalizeWord(words[0])] + CapitalizeEach(words[1..]);
    CapitalizeSplitJoin(t, true);
    UpperAfterSpaceAt(t, true, i);
  }

  lemma CapitalizeWordsLength(t: string)
    ensures |CapitalizeWords(t)| == |t|
  {
    var words := Split(t);
    assert CapitalizeEach(words) == [CapitalizeWord(words[0])] + CapitalizeEach(words[1..]);
    CapitalizeSplitJoin(t, true);
  }

  /** Capitalising changes no character's lower-case form. */
  lemma CapitalizeKeepsLower(t: string)
    ensures Lower(CapitalizeWords(t)) == Lower(t)
  {
    CapitalizeWordsLength(t);
    forall i | 0 <= i < |t|
      ensures Lower(CapitalizeWords(t))[i] == Lower(t)[i]
    {
      CapitalizeWordsAt(t, i);
      LowerOfUpper(t[i]);
    }
  }

  /** What one pattern's match contributes: a capitalised, validated title or nothing. */
  function TitleCandidate(m: Option<Match>): Option<string> {
    if m.None? || Capture(m.value, 1) == "" then None
    else
      var title := CleanTitle(Capture(m.value, 1));
      if AcceptableTitle(title) then Some(CapitalizeWords(title)) else None
  }

  /**
   * A returned title passes the validation tests itself, and differs from the cleaned
   * capture only in the case of word-initial characters.
   */
  lemma TitleCandidateSound(m: Option<Match>)
    ensures var r := TitleCandidate(m);
      r.Some? ==>
        && AcceptableTitle(r.value)
        && Lower(r.value) == Lower(CleanTitle(Capture(m.value, 1)))
        && |r.value| == |CleanTitle(Capture(m.value, 1))|
  {
    if TitleCandidate(m).Some? {
      var title := CleanTitle(Capture(m.value, 1));
      CapitalizeKeepsLower(title);
      CapitalizeWordsLength(title);
    }
  }

  /** A word with no whitespace is its own last word, so no filler is stripped from it. */
  lemma SingleWordIsLastWord(t: string)
    requires forall i :: 0 <= i < |t| ==> !IsWhitespace(t[i])
    ensures LastWordStart(t) == 0
    ensures StripTrailingFiller(t) == t
  {
  }

  /** A capture that is a filler word alone, with any surrounding whitespace, gives no title. */
  lemma FillerAloneRejected(m: Match)
    requires Lower(Trim(Capture(m, 1))) in FillerWords
    ensures TitleCandidate(Some(m)).None?
  {
    var t := Trim(Capture(m, 1));
    LowerFillerIsOneWord(t);
    SingleWordIsLastWord(t);
    TrimOfWordIsIdentity(t);
    assert CleanTitle(Capture(m, 1)) == t;
    InvalidTitleRejected(m);
  }

  /** A capture whose cleaned form fails the invalid-title test gives no title. */
  lemma InvalidTitleRejected(m: Match)
    requires IsInvalidTitle(CleanTitle(Capture(m, 1)))
    ensures TitleCandidate(Some(m)).None?
  {
  }

  lemma LowerFillerIsOneWord(t: string)
    requires Lower(t) in FillerWords
    ensures forall i :: 0 <= i < |t| ==> !IsWhitespace(t[i])
  {
    FillerWordsHaveNoWhitespace();
    forall i | 0 <= i < |t|
      ensures !IsWhitespace(t[i])
    {
      if IsWhitespace(t[i]) {
        WhitespaceHasNoCase(t[i]);
        assert false;
      }
    }
  }

  lemma WhitespaceHasNoCase(c: char)
    requires IsWhitespace(c)
    ensures LowerChar(c) == c
  {
  }

  lemma FillerWordsHaveNoWhitespace()
    ensures forall w, i :: w in FillerWords && 0 <= i < |w| ==> !IsWhitespace(w[i])
  {
  }

  lemma TrimOfWordIsIdentity(t: string)
    requires forall i :: 0 <= i < |t| ==> !IsWhitespace(t[i])
    ensures Trim(t) == t
  {
    if |t| > 0 {
      assert TrimStart(t) == t;
    }
  }

  /** Example of `TitleCandidateSound`: "helios pour", captured after "le nom c'est", becomes "Helios": the filler goes, the word is capitalised. */
  lemma TrailingFillerExample(m: Match)
    requires m == Match("le nom c'est helios pour", ["helios pour"])
    ensures TitleCandidate(Some(m)) == Some("Helios")
  {
    var c := Capture(m, 1);
    assert c == "helios pour";
    CleanExample(c);
    var t := CleanTitle(c);
    AcceptableExample(t);
    CapitalizeExample(t);
  }

  lemma CleanExample(c: string)
    requires c == "helios pour"
    ensures CleanTitle(c) == "helios"
  {
    assert c[0] == 'h' && c[|c| - 1] == 'r';
    TrimOfUntrimmable(c);
    StripExample(c);
    TrimmedExample();
    CleanOfStripped(c, "helios");
  }

  lemma TrimmedExample()
    ensures Trim("helios") == "helios"
  {
    TrimOfUntrimmable("helios");
  }

  /** A text without spaces is one word. */
  lemma {:induction false} SplitSpaceless(w: string)
    requires forall i :: 0 <= i < |w| ==> w[i] != ' '
    ensures Split(w) == [w]
  {
    if |w| > 0 {
      SplitSpaceless(w[1..]);
      assert [w[0]] + w[1..] == w;
    }
  }

  lemma CapitalizeExample(t: string)
    requires t == "helios"
    ensures CapitalizeWords(t) == "Helios"
  {
    SplitSpaceless(t);
    assert UpperChar('h') == 'H';
    assert CapitalizeWord(t) == "Helios";
    assert CapitalizeEach([t]) == ["Helios"];
  }

  lemma CleanOfStripped(c: string, r: string)
    requires Trim(c) == c && StripTrailingFiller(c) == r && Trim(r) == r
    ensures CleanTitle(c) == r
  {
  }

  lemma StripExample(c: string)
    requires c == "helios pour"
    ensures StripTrailingFiller(c) == "helios"
  {
    LastWordExample(c);
    FillerExample(c);
    TrimEndExample(c);
  }

  lemma LastWordExample(c: string)
    requires c == "helios pour"
    ensures LastWordStart(c) == 7
  {
    assert TokenStart(c, 7) == 7;
  }

  lemma FillerExample(c: string)
    requires c == "helios pour"
    ensures Lower(c[7..]) in FillerWords
  {
    assert Lower(c[7..]) == "pour";
  }

  lemma TrimEndExample(c: string)
    requires c == "helios pour"
    ensures TrimEnd(c[..7]) == "helios"
  {
    assert c[..7][..6] == "helios";
  }

  lemma AcceptableExample(t: string)
    requires t == "helios"
    ensures AcceptableTitle(t)
  {
    assert Lower(t) == "helios";
    assert !IsDescription(t);
  }

  /** The candidates of the patterns, in order. */
  function TitleCandidates(text: string, patterns: seq<Matcher>): (cs: seq<Option<string>>)
    ensures |cs| == |patterns|
    ensures forall i :: 0 <= i < |patterns| ==> cs[i] == TitleCandidate(patterns[i](text))
  {
    seq(|patterns|, i requires 0 <= i < |patterns| => TitleCandidate(patterns[i](text)))
  }

  /** The body of `extractTitle`'s loop for one match: clean, validate, capitalise. */
  method TitleFromMatch(m: Option<Match>) returns (title: Option<string>)
    ensures title == TitleCandidate(m)
    ensures title.Some? ==> AcceptableTitle(title.value)
  {
    TitleCandidateSound(m);
    title := None;
    if m.Some? && Capture(m.value, 1) != "" {
      var t := Trim(Capture(m.value, 1));
      t := Trim(StripTrailingFiller(t));
      assert t == CleanTitle(Capture(m.value, 1));
      if |t| > 1 && !IsInvalidTitle(t) && !IsDescription(t) {
        title := Some(CapitalizeWords(t));
      }
    }
  }

  /**
   * `extractTitle`: tries the patterns in order and returns the first validated title;
   * null when no pattern yields one.
   */
  method ExtractTitle(text: string, patterns: seq<Matcher>) returns (title: Option<string>)
    ensures title == FirstSome(TitleCandidates(text, patterns))
    ensures title.None? <==> forall i :: 0 <= i < |patterns| ==> TitleCandidate(patterns[i](text)).None?
    ensures title.Some? ==> AcceptableTitle(title.value)
  {
    ghost var candidates := TitleCandidates(text, patterns);
    var i := 0;
    while i < |patterns|
      invariant 0 <= i <= |patterns|
      invariant forall j :: 0 <= j < i ==> candidates[j].None?
    {
      title := TitleFromMatch(patterns[i](text));
      assert candidates[i] == title;
      if title.Some? {
        FirstSomeAt(candidates, i);
        return;
      }
      NoneSoFar(candidates, i);
      i := i + 1;
    }
    title := None;
    FirstSomeSpec(candidates);
  }
}
