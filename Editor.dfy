/**
 * The post editor's script: the live SEO score with its per-factor status
 * marks and grade colour, the character counters on the title and description
 * boxes, the focus-keyword highlighting, and the parsing of AI replies into
 * suggestion lists.
 */
module Editor {
  import opened Text

  // ---------------------------------------------------------------------------
  // SEO score

  /** The maximum lengths the page gives the two counted boxes. */
  const TitleMaxLength: nat := 65
  const DescriptionMaxLength: nat := 160

  /**
   * Points for a text whose length is judged by a band [lo, hi]: inside the
   * band is best, shorter but non-empty is next, longer than the band is
   * penalised more, and an empty text earns nothing.
   */
  function LengthFactor(len: nat, lo: nat, hi: nat): (f: nat)
    requires 0 < lo <= hi
    ensures f == 25 <==> lo <= len <= hi
    ensures f == 15 <==> 0 < len < lo
    ensures f == 10 <==> hi < len
    ensures f == 0 <==> len == 0
  {
    if lo <= len <= hi then 25 else if 0 < len < lo then 15 else if hi < len then 10 else 0
  }

  function TitleFactor(title: string): nat {
    LengthFactor(|title|, 30, 65)
  }

  function DescriptionFactor(description: string): nat {
    LengthFactor(|description|, 120, 160)
  }

  /** An Open Graph image counts as soon as its id field is non-empty. */
  function ImageFactor(ogImage: string): (f: nat)
    ensures f == 25 <==> ogImage != ""
    ensures f == 0 <==> ogImage == ""
  {
    if ogImage != "" then 25 else 0
  }

  /**
   * Points for the focus keyword: nothing without a keyword, full marks when
   * it appears (ignoring case) in both title and description, fewer when it
   * appears in one, fewest when it appears in neither.
   */
  function KeywordFactor(title: string, description: string, keyword: string): (f: nat)
    ensures f == 0 <==> keyword == ""
    ensures f == 25 <==> keyword != "" && ContainsIgnoringCase(title, keyword) && ContainsIgnoringCase(description, keyword)
    ensures f == 15 <==> keyword != "" && ContainsIgnoringCase(title, keyword) != ContainsIgnoringCase(description, keyword)
    ensures f == 10 <==> keyword != "" && !ContainsIgnoringCase(title, keyword) && !ContainsIgnoringCase(description, keyword)
  {
    if keyword == "" then 0
    else
      var inTitle := ContainsIgnoringCase(title, keyword);
      var inDescription := ContainsIgnoringCase(description, keyword);
      if inTitle && inDescription then 25 else if inTitle || inDescription then 15 else 10
  }

  /** The score: the sum of the four factors. */
  function Score(title: string, description: string, ogImage: string, keyword: string): nat {
    TitleFactor(title) + DescriptionFactor(description) + ImageFactor(ogImage)
      + KeywordFactor(title, description, keyword)
  }

  /** Every factor takes one of four values, so the score is a multiple of 5 between 0 and 100. */
  lemma ScoreRange(title: string, description: string, ogImage: string, keyword: string)
    ensures TitleFactor(title) in {0, 10, 15, 25}
    ensures DescriptionFactor(description) in {0, 10, 15, 25}
    ensures ImageFactor(ogImage) in {0, 25}
    ensures KeywordFactor(title, description, keyword) in {0, 10, 15, 25}
    ensures 0 <= Score(title, description, ogImage, keyword) <= 100
    ensures Score(title, description, ogImage, keyword) % 5 == 0
  {
  }

  /** Full marks are reached exactly when every factor is at its best. */
  lemma PerfectScore(title: string, description: string, ogImage: string, keyword: string)
    ensures Score(title, description, ogImage, keyword) == 100 <==>
      && 30 <= |title| <= 65
      && 120 <= |description| <= 160
      && ogImage != ""
      && keyword != ""
      && ContainsIgnoringCase(title, keyword)
      && ContainsIgnoringCase(description, keyword)
  {
  }

  /** The mark shown beside each factor: a tick, a warning sign or a cross. */
  datatype Status = Tick | Warning | Cross

  /** The grade class put on the score circle. */
  datatype Grade = Excellent | Good | Fair | Poor

  function GradeFor(score: int): (g: Grade)
    ensures g == Excellent <==> score >= 80
    ensures g == Good <==> 60 <= score < 80
    ensures g == Fair <==> 40 <= score < 60
    ensures g == Poor <==> score < 40
  {
    if score >= 80 then Excellent else if score >= 60 then Good else if score >= 40 then Fair else Poor
  }

  function GradeClass(g: Grade): string {
    match g
    case Excellent => "score-excellent"
    case Good => "score-good"
    case Fair => "score-fair"
    case Poor => "score-poor"
  }

  /** The four grade classes the analysis removes before adding one back. */
  const GradeClasses: set<string> := {"score-excellent", "score-good", "score-fair", "score-poor"}

  /** The marks shown for the title, description, image and keyword factors. */
  datatype Marks = Marks(title: Status, description: Status, image: Status, keyword: Status)

  /** The mark of a factor: a tick for full marks, a cross for none, a warning in between. */
  function StatusFor(points: nat): Status {
    if points == 25 then Tick else if points == 0 then Cross else Warning
  }

  /**
   * The score computation of the analysis, accumulated factor by factor as
   * the script does, together with the mark it shows for each factor.
   */
  method Analyse(title: string, description: string, ogImage: string, keyword: string)
    returns (score: nat, marks: Marks)
    ensures score == Score(title, description, ogImage, keyword)
    ensures 0 <= score <= 100
    ensures marks == Marks(StatusFor(TitleFactor(title)), StatusFor(DescriptionFactor(description)),
                           StatusFor(ImageFactor(ogImage)), StatusFor(KeywordFactor(title, description, keyword)))
  {
    score := 0;

    var titleStatus := Cross;
    var titleLength := |title|;
    if titleLength >= 30 && titleLength <= 65 {
      titleStatus := Tick;
      score := score + 25;
    } else if titleLength > 0 && titleLength < 30 {
      titleStatus := Warning;
      score := score + 15;
    } else if titleLength > 65 {
      titleStatus := Warning;
      score := score + 10;
    }

    var descriptionStatus := Cross;
    var descriptionLength := |description|;
    if descriptionLength >= 120 && descriptionLength <= 160 {
      descriptionStatus := Tick;
      score := score + 25;
    } else if descriptionLength > 0 && descriptionLength < 120 {
      descriptionStatus := Warning;
      score := score + 15;
    } else if descriptionLength > 160 {
      descriptionStatus := Warning;
      score := score + 10;
    }

    var imageStatus := Cross;
    if ogImage != "" {
      imageStatus := Tick;
      score := score + 25;
    }

    var keywordStatus := Cross;
    if keyword != "" {
      var inTitle := ContainsIgnoringCase(title, keyword);
      var inDescription := ContainsIgnoringCase(description, keyword);
      if inTitle && inDescription {
        keywordStatus := Tick;
        score := score + 25;
      } else if inTitle || inDescription {
        keywordStatus := Warning;
        score := score + 15;
      } else {
        keywordStatus := Warning;
        score := score + 10;
      }
    }

    marks := Marks(titleStatus, descriptionStatus, imageStatus, keywordStatus);
    ScoreRange(title, description, ogImage, keyword);
  }

  /** The score panel of the meta box: the score text and the classes of the score circle. */
  class ScorePanel {
    var score: nat
    var marks: Marks
    var circleClasses: set<string>

    constructor (classes: set<string>)
      ensures score == 0 && circleClasses == classes
    {
      score := 0;
      marks := Marks(Cross, Cross, Cross, Cross);
      circleClasses := classes;
    }

    /**
     * Recomputes the score from the four fields, shows it, and leaves exactly
     * one grade class on the circle; classes other than the grade classes stay.
     */
    method UpdateAnalysis(title: string, description: string, ogImage: string, keyword: string)
      modifies this
      ensures score == Score(title, description, ogImage, keyword)
      ensures marks == Marks(StatusFor(TitleFactor(title)), StatusFor(DescriptionFactor(description)),
                             StatusFor(ImageFactor(ogImage)), StatusFor(KeywordFactor(title, description, keyword)))
      ensures circleClasses == old(circleClasses) - GradeClasses + {GradeClass(GradeFor(score))}
      ensures forall g: Grade :: GradeClass(g) in circleClasses <==> g == GradeFor(score)
    {
      var s, m := Analyse(title, description, ogImage, keyword);
      score, marks := s, m;
      circleClasses := circleClasses - GradeClasses;
      circleClasses := circleClasses + {GradeClass(GradeFor(s))};
    }
  }

  // ---------------------------------------------------------------------------
  // Character counters

  /** The first `max` characters of `text`. */
  function Truncate(text: string, max: nat): (r: string)
    ensures |r| == if |text| <= max then |text| else max
    ensures StartsWith(text, r)
  {
    if |text| > max then text[..max] else text
  }

  /** Truncating twice to the same bound is the same as truncating once. */
  lemma TruncateIdempotent(text: string, max: nat)
    ensures Truncate(Truncate(text, max), max) == Truncate(text, max)
  {
  }

  /**
   * The counters cut the title box at `TitleMaxLength` and the description box
   * at `DescriptionMaxLength`, the upper ends of their scoring bands, so text
   * the counter has cut is never scored as too long.
   */
  lemma CountedTextNotTooLong(title: string, description: string)
    ensures TitleFactor(Truncate(title, TitleMaxLength)) != 10
    ensures DescriptionFactor(Truncate(description, DescriptionMaxLength)) != 10
  {
  }

  /** A text box with its character counter beside it. */
  class CountedBox {
    var value: string
    var counter: nat
    const maxLength: nat

    /** On page load the counter shows the length of the box's current value. */
    constructor (initial: string, maxLength: nat)
      ensures value == initial && counter == |initial| && this.maxLength == maxLength
    {
      value := initial;
      counter := |initial|;
      this.maxLength := maxLength;
    }

    /**
     * The input handler: the box now holds `typed`; a value longer than the
     * maximum is cut back to it, and the counter shows the kept length.
     */
    method OnInput(typed: string)
      modifies this
      ensures StartsWith(typed, value)
      ensures |value| == if |typed| <= maxLength then |typed| else maxLength
      ensures counter == |value|
    {
      value := typed;
      var count := |typed|;
      if count > maxLength {
        value := typed[..maxLength];
        count := maxLength;
      }
      counter := count;
    }
  }

  // ---------------------------------------------------------------------------
  // Focus keyword highlighting

  /**
   * Whether the title box and the description box get the `keyword-found`
   * class: both lose it when the keyword is empty.
   */
  function KeywordHighlights(keyword: string, title: string, description: string): (r: (bool, bool))
    ensures keyword == "" ==> r == (false, false)
    ensures keyword != "" ==> r.0 == ContainsIgnoringCase(title, keyword)
    ensures keyword != "" ==> r.1 == ContainsIgnoringCase(description, keyword)
  {
    if keyword != "" then (ContainsIgnoringCase(title, keyword), ContainsIgnoringCase(description, keyword))
    else (false, false)
  }

  /**
   * The highlighting and the keyword factor of the score agree: with a
   * keyword, the factor is 25 when both boxes are highlighted, 15 when one
   * is, 10 when neither is.
   */
  lemma HighlightsMatchKeywordFactor(keyword: string, title: string, description: string)
    requires keyword != ""
    ensures var (t, d) := KeywordHighlights(keyword, title, description);
      KeywordFactor(title, description, keyword) == (if t && d then 25 else if t || d then 15 else 10)
  {
  }

  /** Case is ignored: the keyword is found in a text exactly when it is found in the text lower-cased. */
  lemma KeywordCaseInsensitive(text: string, keyword: string)
    ensures ContainsIgnoringCase(text, keyword) == ContainsIgnoringCase(Lower(text), Lower(keyword))
  {
    LowerIdempotent(text);
    LowerIdempotent(keyword);
  }

  // ---------------------------------------------------------------------------
  // AI suggestion parsing

  /** The length of the run of digits at the start of `s`. */
  function DigitRun(s: string): (n: nat)
    ensures n <= |s|
    ensures forall i :: 0 <= i < n ==> IsDigit(s[i])
    ensures n < |s| ==> !IsDigit(s[n])
  {
    if |s| > 0 && IsDigit(s[0]) then 1 + DigitRun(s[1..]) else 0
  }

  /** `s` begins with the numbering `\d+\.`. */
  predicate Numbered(s: string) {
    var n := DigitRun(s);
    0 < n < |s| && s[n] == '.'
  }

  /** Removes a leading `\d+\.\s*`, as `replace(/^\d+\.\s*\/, '')`; other strings are unchanged. */
  function StripNumbering(s: string): (r: string)
    ensures !Numbered(s) ==> r == s
    ensures Numbered(s) ==>
      exists k :: (DigitRun(s) + 1 <= k <= |s| && r == s[k..]
                   && AllSpace(s[DigitRun(s) + 1..k]) && (k < |s| ==> !IsSpace(s[k])))
  {
    if Numbered(s) then
      var t := s[DigitRun(s) + 1..];
      TrimLeftSuffix(t);
      var r := TrimLeft(t);
      assert r == s[|s| - |r|..];
      assert t[..|t| - |r|] == s[DigitRun(s) + 1..|s| - |r|];
      r
    else s
  }

  /**
   * One suggestion line, cleaned: numbering removed, then trimmed. What is
   * left is a slice of the line with only whitespace after it, and before it
   * the numbering followed by whitespace, or whitespace alone on a line
   * without numbering.
   */
  function CleanSuggestion(line: string): (r: string)
    ensures Trimmed(r)
    ensures !Numbered(line) ==>
      exists i, j :: (0 <= i <= j <= |line| && r == line[i..j] && AllSpace(line[..i]) && AllSpace(line[j..]))
    ensures Numbered(line) ==>
      exists i, j :: (DigitRun(line) < i <= j <= |line| && r == line[i..j]
                      && AllSpace(line[DigitRun(line) + 1..i]) && AllSpace(line[j..]))
  {
    if Numbered(line) then StrippedSlice(line); Trim(StripNumbering(line))
    else Trim(line)
  }

  /** After the numbering of a numbered line is stripped, trimming keeps a slice that follows it and whitespace. */
  lemma StrippedSlice(line: string)
    requires Numbered(line)
    ensures exists i, j :: (DigitRun(line) < i <= j <= |line| && Trim(StripNumbering(line)) == line[i..j]
                            && AllSpace(line[DigitRun(line) + 1..i]) && AllSpace(line[j..]))
  {
    var n := DigitRun(line);
    var t := StripNumbering(line);
    var k :| n + 1 <= k <= |line| && t == line[k..] && AllSpace(line[n + 1..k]);
    var i, j :| 0 <= i <= j <= |t| && Trim(t) == t[i..j] && AllSpace(t[..i]) && AllSpace(t[j..]);
    SliceAfterSpace(line, n + 1, k, i, j);
    assert Trim(t) == line[k + i..k + j];
  }

  /** A slice of `line[k..]` between whitespace, after whitespace `line[a..k]`, is a slice of `line` after whitespace from `a`. */
  lemma SliceAfterSpace(line: string, a: nat, k: nat, i: nat, j: nat)
    requires a <= k <= |line| && AllSpace(line[a..k])
    requires i <= j <= |line| - k && AllSpace(line[k..][..i]) && AllSpace(line[k..][j..])
    ensures line[k..][i..j] == line[k + i..k + j]
    ensures AllSpace(line[a..k + i]) && AllSpace(line[k + j..])
  {
    assert line[k..][..i] == line[k..k + i];
    assert line[k..][j..] == line[k + j..];
    AllSpaceJoin(line, a, k, k + i);
  }

  /**
   * Title and description replies: split into lines, drop lines that are
   * blank, clean each remaining line, and keep the non-empty results.
   */
  function ParseSuggestions(content: string): (r: seq<string>)
    ensures |r| <= |Split(content, '\n')|
    ensures forall i :: 0 <= i < |r| ==> r[i] != "" && Trimmed(r[i])
  {
    KeepSuggestions(Split(content, '\n'))
  }

  /** The filter `line.trim()` is written as `!AllSpace(line)`, which `TrimEmptyIff` shows to be the same test. */
  function KeepSuggestions(lines: seq<string>): (r: seq<string>)
    ensures |r| <= |lines|
    ensures forall i :: 0 <= i < |r| ==> r[i] != "" && Trimmed(r[i])
    decreases |lines|
  {
    if |lines| == 0 then []
    else
      var rest := KeepSuggestions(lines[1..]);
      var clean := CleanSuggestion(lines[0]);
      if !AllSpace(lines[0]) && clean != "" then [clean] + rest else rest
  }

  /** A line that is already clean (non-empty, trimmed, not numbered) survives parsing unchanged. */
  lemma CleanLineKept(line: string)
    requires line != "" && Trimmed(line) && !Numbered(line)
    ensures Trim(line) != "" && CleanSuggestion(line) == line
  {
  }

  /** A numbered line loses its number: `"<digits>. <text>"` cleans to `<text>`. */
  lemma {:induction false} NumberingRemoved(digits: string, text: string)
    requires digits != [] && forall i :: 0 <= i < |digits| ==> IsDigit(digits[i])
    requires text != "" && Trimmed(text)
    ensures CleanSuggestion(digits + ". " + text) == text
  {
    var s := digits + ". " + text;
    var rest := ". " + text;
    assert s == digits + rest;
    DigitRunOf(digits, rest);
    assert Numbered(s);
    assert s[|digits| + 1..] == " " + text;
    assert (" " + text)[1..] == text;
    assert TrimLeft(" " + text) == TrimLeft(text) == text;
    assert StripNumbering(s) == text;
  }

  lemma {:induction false} DigitRunOf(digits: string, rest: string)
    requires forall i :: 0 <= i < |digits| ==> IsDigit(digits[i])
    requires rest != [] && !IsDigit(rest[0])
    ensures DigitRun(digits + rest) == |digits|
    decreases |digits|
  {
    if |digits| > 0 {
      assert (digits + rest)[1..] == digits[1..] + rest;
      DigitRunOf(digits[1..], rest);
    } else {
      assert digits + rest == rest;
    }
  }

  /**
   * Parsing a reply made of clean lines joined by newlines gives back exactly
   * those lines, in order.
   */
  lemma {:induction false} ParseSuggestionsOfCleanLines(lines: seq<string>)
    requires |lines| >= 1
    requires forall i :: 0 <= i < |lines| ==> lines[i] != "" && Trimmed(lines[i]) && !Numbered(lines[i]) && '\n' !in lines[i]
    ensures ParseSuggestions(Join(lines, '\n')) == lines
  {
    SplitJoin(lines, '\n');
    KeepCleanLines(lines);
  }

  lemma {:induction false} KeepCleanLines(lines: seq<string>)
    requires forall i :: 0 <= i < |lines| ==> lines[i] != "" && Trimmed(lines[i]) && !Numbered(lines[i]) && '\n' !in lines[i]
    ensures KeepSuggestions(lines) == lines
    decreases |lines|
  {
    if |lines| > 0 {
      CleanLineKept(lines[0]);
      KeepCleanLines(lines[1..]);
      assert [lines[0]] + lines[1..] == lines;
    }
  }

  /** A blank line is never numbered, so it cleans to nothing. */
  lemma BlankLineCleansToNothing(line: string)
    requires AllSpace(line)
    ensures CleanSuggestion(line) == ""
  {
    if |line| > 0 {
      assert IsSpace(line[0]);
    }
    TrimEmptyIff(line);
  }

  /** The suggestion filter works line by line: the suggestions of two blocks of lines are those of each block, in order. */
  lemma {:induction false} KeepSuggestionsAppend(a: seq<string>, b: seq<string>)
    ensures KeepSuggestions(a + b) == KeepSuggestions(a) + KeepSuggestions(b)
    decreases |a|
  {
    if |a| == 0 {
      assert a + b == b;
    } else {
      assert (a + b)[0] == a[0];
      assert (a + b)[1..] == a[1..] + b;
      KeepSuggestionsAppend(a[1..], b);
    }
  }

  /** One line gives its cleaned form when that is non-empty, and nothing otherwise. */
  lemma KeepSuggestionsOne(line: string)
    ensures KeepSuggestions([line]) == if CleanSuggestion(line) != "" then [CleanSuggestion(line)] else []
  {
    if AllSpace(line) {
      BlankLineCleansToNothing(line);
    }
  }

  /** A suggestion is kept exactly when it is the non-empty cleaned form of some line. */
  lemma {:induction false} KeptSuggestion(lines: seq<string>, x: string)
    ensures x in KeepSuggestions(lines) <==> x != "" && exists i :: 0 <= i < |lines| && CleanSuggestion(lines[i]) == x
    decreases |lines|
  {
    if |lines| > 0 {
      KeptSuggestion(lines[1..], x);
      if AllSpace(lines[0]) {
        BlankLineCleansToNothing(lines[0]);
      }
      if x != "" && exists i :: 0 <= i < |lines| && CleanSuggestion(lines[i]) == x {
        var i :| 0 <= i < |lines| && CleanSuggestion(lines[i]) == x;
        if i > 0 {
          assert CleanSuggestion(lines[1..][i - 1]) == x;
        }
      }
      if x in KeepSuggestions(lines[1..]) {
        var j :| 0 <= j < |lines[1..]| && CleanSuggestion(lines[1..][j]) == x;
        assert CleanSuggestion(lines[j + 1]) == x;
      }
    }
  }

  /** Blank lines between suggestions are dropped. */
  lemma BlankLineDropped(a: seq<string>, blank: string, b: seq<string>)
    requires AllSpace(blank)
    ensures KeepSuggestions(a + [blank] + b) == KeepSuggestions(a) + KeepSuggestions(b)
  {
    KeepSuggestionsAppend(a + [blank], b);
    KeepSuggestionsAppend(a, [blank]);
    KeepSuggestionsOne(blank);
    BlankLineCleansToNothing(blank);
  }

  /**
   * A reply of numbered lines `"<digits>. <text>"` joined by newlines parses
   * to the texts, in order.
   */
  lemma {:induction false} ParseSuggestionsOfNumberedLines(lines: seq<string>, ds: seq<string>, ts: seq<string>)
    requires |lines| >= 1 && |lines| == |ds| == |ts|
    requires forall i :: 0 <= i < |lines| ==> lines[i] == ds[i] + ". " + ts[i]
    requires forall i :: 0 <= i < |ds| ==> ds[i] != "" && forall k :: 0 <= k < |ds[i]| ==> IsDigit(ds[i][k])
    requires forall i :: 0 <= i < |ts| ==> ts[i] != "" && Trimmed(ts[i]) && '\n' !in ts[i]
    ensures ParseSuggestions(Join(lines, '\n')) == ts
  {
    forall i | 0 <= i < |lines| ensures '\n' !in lines[i] {
      forall k | 0 <= k < |ds[i]| ensures ds[i][k] != '\n' {
        assert IsDigit(ds[i][k]);
      }
      assert lines[i] == ds[i] + (". " + ts[i]);
    }
    SplitJoin(lines, '\n');
    KeepNumberedLines(lines, ds, ts);
  }

  lemma {:induction false} KeepNumberedLines(lines: seq<string>, ds: seq<string>, ts: seq<string>)
    requires |lines| == |ds| == |ts|
    requires forall i :: 0 <= i < |lines| ==> lines[i] == ds[i] + ". " + ts[i]
    requires forall i :: 0 <= i < |ds| ==> ds[i] != "" && forall k :: 0 <= k < |ds[i]| ==> IsDigit(ds[i][k])
    requires forall i :: 0 <= i < |ts| ==> ts[i] != "" && Trimmed(ts[i])
    ensures KeepSuggestions(lines) == ts
    decreases |lines|
  {
    if |lines| > 0 {
      NumberingRemoved(ds[0], ts[0]);
      assert !AllSpace(lines[0]) by {
        assert IsDigit(lines[0][0]);
      }
      KeepNumberedLines(lines[1..], ds[1..], ts[1..]);
      assert [ts[0]] + ts[1..] == ts;
    }
  }

  /** A numbered reply with a blank line between its suggestions: `"1. A\n\n2. B"` parses to `["A", "B"]`. */
  lemma NumberedReplyExample()
    ensures ParseSuggestions("1. A\n\n2. B") == ["A", "B"]
  {
    var lines := ["1. A", "", "2. B"];
    NumberedReplyLines();
    SplitJoin(lines, '\n');
    NumberedReplyKept();
  }

  lemma NumberedReplyLines()
    ensures Join(["1. A", "", "2. B"], '\n') == "1. A\n\n2. B"
  {
    assert Join(["2. B"], '\n') == "2. B";
    assert Join(["", "2. B"], '\n') == "\n2. B";
  }

  lemma NumberedReplyKept()
    ensures KeepSuggestions(["1. A", "", "2. B"]) == ["A", "B"]
  {
    assert "1" + ". " + "A" == "1. A";
    assert "2" + ". " + "B" == "2. B";
    NumberingRemoved("1", "A");
    NumberingRemoved("2", "B");
    KeepAroundBlank("1. A", "", "2. B", "A", "B");
  }

  lemma KeepAroundBlank(a: string, blank: string, b: string, x: string, y: string)
    requires AllSpace(blank)
    requires CleanSuggestion(a) == x && x != "" && CleanSuggestion(b) == y && y != ""
    ensures KeepSuggestions([a, blank, b]) == [x, y]
  {
    BlankLineDropped([a], blank, [b]);
    assert [a] + [blank] + [b] == [a, blank, b];
    KeepSuggestionsOne(a);
    KeepSuggestionsOne(b);
  }

  /** Keyword replies: split on commas, trim each piece, keep the non-empty ones. */
  function ParseKeywords(content: string): (r: seq<string>)
    ensures |r| <= |Split(content, ',')|
    ensures forall i :: 0 <= i < |r| ==> r[i] != "" && Trimmed(r[i]) && ',' !in r[i]
  {
    KeepKeywords(Split(content, ','))
  }

  function KeepKeywords(pieces: seq<string>): (r: seq<string>)
    requires forall i :: 0 <= i < |pieces| ==> ',' !in pieces[i]
    ensures |r| <= |pieces|
    ensures forall i :: 0 <= i < |r| ==> r[i] != "" && Trimmed(r[i]) && ',' !in r[i]
    decreases |pieces|
  {
    if |pieces| == 0 then []
    else
      var rest := KeepKeywords(pieces[1..]);
      var k := Trim(pieces[0]);
      TrimKeepsOut(pieces[0], ',');
      if k != "" then [k] + rest else rest
  }

  /**
   * Keyword parsing keeps the order of the reply: pieces around commas that
   * trim to the keywords `ks` (padding such as `", "` allowed) give back `ks`.
   */
  lemma {:induction false} ParseKeywordsOfList(pieces: seq<string>, ks: seq<string>)
    requires |pieces| >= 1 && |pieces| == |ks|
    requires forall i :: 0 <= i < |pieces| ==> ',' !in pieces[i] && Trim(pieces[i]) == ks[i] && ks[i] != ""
    ensures ParseKeywords(Join(pieces, ',')) == ks
  {
    SplitJoin(pieces, ',');
    KeepTrimmedPieces(pieces, ks);
  }

  lemma {:induction false} KeepTrimmedPieces(pieces: seq<string>, ks: seq<string>)
    requires |pieces| == |ks|
    requires forall i :: 0 <= i < |pieces| ==> ',' !in pieces[i] && Trim(pieces[i]) == ks[i] && ks[i] != ""
    ensures KeepKeywords(pieces) == ks
    decreases |pieces|
  {
    if |pieces| > 0 {
      KeepTrimmedPieces(pieces[1..], ks[1..]);
      assert [ks[0]] + ks[1..] == ks;
    }
  }
  /** The keyword filter works piece by piece: the keywords of two runs of pieces are those of each run, in order. */
  lemma {:induction false} KeepKeywordsAppend(a: seq<string>, b: seq<string>)
    requires forall i :: 0 <= i < |a| ==> ',' !in a[i]
    requires forall i :: 0 <= i < |b| ==> ',' !in b[i]
    ensures KeepKeywords(a + b) == KeepKeywords(a) + KeepKeywords(b)
    decreases |a|
  {
    if |a| == 0 {
      assert a + b == b;
    } else {
      assert (a + b)[0] == a[0];
      assert (a + b)[1..] == a[1..] + b;
      KeepKeywordsAppend(a[1..], b);
    }
  }

  /** A keyword is kept exactly when it is the non-empty trimmed form of some piece. */
  lemma {:induction false} KeptKeyword(pieces: seq<string>, x: string)
    requires forall i :: 0 <= i < |pieces| ==> ',' !in pieces[i]
    ensures x in KeepKeywords(pieces) <==> x != "" && exists i :: 0 <= i < |pieces| && Trim(pieces[i]) == x
    decreases |pieces|
  {
    if |pieces| > 0 {
      KeptKeyword(pieces[1..], x);
      if x != "" && exists i :: 0 <= i < |pieces| && Trim(pieces[i]) == x {
        var i :| 0 <= i < |pieces| && Trim(pieces[i]) == x;
        if i > 0 {
          assert Trim(pieces[1..][i - 1]) == x;
        }
      }
      if x in KeepKeywords(pieces[1..]) {
        var j :| 0 <= j < |pieces[1..]| && Trim(pieces[1..][j]) == x;
        assert Trim(pieces[j + 1]) == x;
      }
    }
  }

  /** A piece that trims to nothing, such as the one after a trailing comma, is dropped. */
  lemma EmptyPieceDropped(a: seq<string>, piece: string, b: seq<string>)
    requires forall i :: 0 <= i < |a| ==> ',' !in a[i]
    requires forall i :: 0 <= i < |b| ==> ',' !in b[i]
    requires ',' !in piece && AllSpace(piece)
    ensures KeepKeywords(a + [piece] + b) == KeepKeywords(a) + KeepKeywords(b)
  {
    KeepKeywordsAppend(a + [piece], b);
    KeepKeywordsAppend(a, [piece]);
    TrimEmptyIff(piece);
  }

  /** A keyword reply with a trailing comma: `"a, b,"` parses to `["a", "b"]`. */
  lemma TrailingCommaExample()
    ensures ParseKeywords("a, b,") == ["a", "b"]
  {
    var pieces := ["a", " b", ""];
    TrailingCommaPieces();
    SplitJoin(pieces, ',');
    TrailingCommaKept();
  }

  lemma TrailingCommaPieces()
    ensures Join(["a", " b", ""], ',') == "a, b,"
  {
    assert Join([""], ',') == "";
    assert Join([" b", ""], ',') == " b,";
  }

  lemma TrailingCommaKept()
    ensures KeepKeywords(["a", " b", ""]) == ["a", "b"]
  {
    assert Trim(" b") == "b";
    KeepBeforeEmpty("a", " b", "", "a", "b");
  }

  lemma KeepBeforeEmpty(a: string, b: string, e: string, x: string, y: string)
    requires ',' !in a && ',' !in b && ',' !in e && AllSpace(e)
    requires Trim(a) == x && x != "" && Trim(b) == y && y != ""
    ensures KeepKeywords([a, b, e]) == [x, y]
  {
    EmptyPieceDropped([a, b], e, []);
    assert [a, b] + [e] + [] == [a, b, e];
    KeepTrimmedPieces([a, b], [x, y]);
  }
}
