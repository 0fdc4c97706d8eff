/**
 * The slide content analyzer: scores a slide's text against the pattern
 * list of each content type, picks the type with the first strictly largest
 * score (or plain text when nothing matched), and extracts the key elements
 * an infographic of that type needs, with fixed defaults.
 *
 * Regular expressions that need a backtracking engine are an oracle: a
 * `Matcher` says whether pattern k of a type finds a match in a text, and
 * `Extractors` give the captures of the extraction patterns. Patterns made
 * only of literal alternatives are modelled exactly.
 */
module ContentAnalyzer {
  import opened Wrappers
  import opened Text

  datatype ContentType = Statistics | Process | Comparison | Timeline | CompanyIntro | Concept | TextOnly

  /** The content types in the insertion order of the pattern table. */
  const PatternTypes: seq<ContentType> := [Statistics, Process, Comparison, Timeline, CompanyIntro, Concept]

  /** Every content type, each once. */
  const AllTypes: seq<ContentType> := PatternTypes + [TextOnly]

  /** Number of patterns listed for each type. */
  function PatternCount(t: ContentType): nat {
    match t
    case Statistics => 6
    case TextOnly => 0
    case _ => 5
  }

  /**
   * Capture groups of pattern k of type t. A non-global `match` returns an
   * array of 1 + groups entries, so only patterns with groups earn a bonus.
   */
  function GroupCount(t: ContentType, k: nat): nat {
    match t
    case Statistics => if k == 0 then 2 else if k == 2 || k == 3 then 1 else 0
    case Process => if k == 1 then 1 else 0
    case _ => 0
  }

  function MatchArrayLength(t: ContentType, k: nat): nat {
    1 + GroupCount(t, k)
  }

  /** Display name of each type. */
  function TypeName(t: ContentType): string {
    match t
    case Statistics => "統計數據"
    case Process => "流程說明"
    case Comparison => "比較對照"
    case Timeline => "時間軸"
    case CompanyIntro => "公司介紹"
    case Concept => "概念說明"
    case TextOnly => "純文字"
  }

  const InfographicNeed := "infographic"
  const PhotoNeed := "photo"
  const NoVisualNeed := "none"

  /** The `visual` entry of each type. */
  function VisualOf(t: ContentType): string {
    if t == TextOnly then NoVisualNeed else InfographicNeed
  }

  /** The `infographicType` entry of each type; plain text has none. */
  function InfographicTypeOf(t: ContentType): Option<string> {
    match t
    case Statistics => Some("statistics")
    case Process => Some("process")
    case Comparison => Some("comparison")
    case Timeline => Some("timeline")
    case CompanyIntro => Some("company")
    case Concept => Some("concept")
    case TextOnly => None
  }

  /** Whether pattern k of type t finds a match in a text. */
  type Matcher = (ContentType, nat, string) -> bool

  /** The captures of the extraction patterns that need a backtracking engine. */
  datatype Extractors = Extractors(
    /** whole match of `(\d+(\.\d+)?)\s*%` */
    percent: string -> Option<string>,
    /** the global step-label matches, each with its `步驟 n：` label removed */
    labelledSteps: string -> seq<string>,
    /** the two groups of `(.{2,10})\s*(?:vs\.?|對比|比較)\s*(.{2,10})`, case-insensitive */
    versus: string -> Option<(string, string)>,
    /** number of global matches of `✓|✗|√|×|優點|缺點` */
    checkmarks: string -> nat,
    /** year and description of each global year match */
    yearEntries: string -> seq<(string, string)>)

  datatype Slide = Slide(title: Option<string>, content: Option<string>)

  datatype Event = Event(year: string, description: Option<string>)

  datatype KeyElements =
    | StatisticsElements(number: Option<string>, trend: Option<string>, subject: Option<string>)
    | ProcessElements(steps: seq<string>)
    | ComparisonElements(left: string, right: string, itemCount: nat)
    | TimelineElements(events: seq<Event>)
    | CompanyElements(keywords: seq<string>)
    | ConceptElements(concept: string, elements: seq<string>)
    | NoElements

  datatype Analysis = Analysis(
    slideIndex: Option<nat>, title: string, contentType: ContentType, contentTypeName: string,
    visualNeed: string, infographicType: Option<string>, photoCategory: Option<string>,
    matchScore: real, keyElements: KeyElements)

  // ---------------------------------------------------------------------
  // Scoring

  /** Points pattern k of type t earns on a text: 1, plus 0.5 when its match array has several entries. */
  function PatternPoints(text: string, t: ContentType, k: nat, m: Matcher): real {
    if m(t, k, text) then (if MatchArrayLength(t, k) > 1 then 1.5 else 1.0) else 0.0
  }

  /** Score of the first n patterns of type t. */
  function MatchScore(text: string, t: ContentType, m: Matcher, n: nat): real {
    if n == 0 then 0.0 else MatchScore(text, t, m, n - 1) + PatternPoints(text, t, n - 1, m)
  }

  predicate AnyMatch(text: string, t: ContentType, m: Matcher, n: nat) {
    exists k :: 0 <= k < n && m(t, k, text)
  }

  /** A score is 0 when no pattern matched and at least 1 otherwise, and never above 1.5 per pattern. */
  lemma {:induction false} MatchScoreBounds(text: string, t: ContentType, m: Matcher, n: nat)
    ensures 0.0 <= MatchScore(text, t, m, n) <= 1.5 * (n as real)
    ensures MatchScore(text, t, m, n) == 0.0 <==> !AnyMatch(text, t, m, n)
    ensures AnyMatch(text, t, m, n) ==> MatchScore(text, t, m, n) >= 1.0
  {
    if n > 0 {
      MatchScoreBounds(text, t, m, n - 1);
      if AnyMatch(text, t, m, n - 1) {
        var k :| 0 <= k < n - 1 && m(t, k, text);
        assert 0 <= k < n && m(t, k, text);
      }
      if m(t, n - 1, text) {
        assert 0 <= n - 1 < n && m(t, n - 1, text);
      }
      if AnyMatch(text, t, m, n) && !m(t, n - 1, text) {
        var k :| 0 <= k < n && m(t, k, text);
        assert k < n - 1;
      }
    }
  }

  /** `calculateMatchScore` over the pattern list of one type. */
  method CalculateMatchScore(text: string, t: ContentType, m: Matcher) returns (score: real)
    ensures score == MatchScore(text, t, m, PatternCount(t))
    ensures 0.0 <= score <= 1.5 * (PatternCount(t) as real)
  {
    score := 0.0;
    var k := 0;
    while k < PatternCount(t)
      invariant 0 <= k <= PatternCount(t)
      invariant score == MatchScore(text, t, m, k)
    {
      if m(t, k, text) {
        score := score + 1.0;
        if MatchArrayLength(t, k) > 1 {
          score := score + 0.5;
        }
      }
      k := k + 1;
    }
    MatchScoreBounds(text, t, m, PatternCount(t));
  }

  /** The score of every type of the pattern table, in table order. */
  function TypeScores(text: string, m: Matcher): (r: seq<real>)
    ensures |r| == |PatternTypes|
  {
    seq(|PatternTypes|, i requires 0 <= i < |PatternTypes| =>
      MatchScore(text, PatternTypes[i], m, PatternCount(PatternTypes[i])))
  }

  /** The running best of the selection loop: index -1 stands for "none yet". */
  datatype Pick = Pick(index: int, score: real)

  /** The selection loop over the first n scores: replace the best only on a strictly larger score. */
  function BestPick(scores: seq<real>, n: nat): Pick
    requires n <= |scores|
  {
    if n == 0 then Pick(-1, 0.0)
    else
      var p := BestPick(scores, n - 1);
      if scores[n - 1] > p.score then Pick(n - 1, scores[n - 1]) else p
  }

  /** The pick is the first position holding the largest score, or none when no score is positive. */
  lemma {:induction false} BestPickIsFirstMaximum(scores: seq<real>, n: nat)
    requires n <= |scores|
    ensures var p := BestPick(scores, n);
      p.score >= 0.0
      && (forall i :: 0 <= i < n ==> scores[i] <= p.score)
      && (p.index == -1 ==> p.score == 0.0)
      && (p.index != -1 ==>
            0 <= p.index < n && scores[p.index] == p.score
            && (forall j :: 0 <= j < p.index ==> scores[j] < p.score))
  {
    if n > 0 {
      BestPickIsFirstMaximum(scores, n - 1);
    }
  }

  // ---------------------------------------------------------------------
  // Literal patterns, modelled exactly

  /** The first word of `words` that `s` starts with. */
  function WordAt(s: string, words: seq<string>): (r: Option<string>)
    ensures r.Some? ==> r.value in words && r.value <= s
    ensures r.None? ==> forall w :: w in words ==> !(w <= s)
  {
    if words == [] then None
    else if words[0] <= s then Some(words[0])
    else
      var r := WordAt(s, words[1..]);
      assert forall w :: w in words ==> w == words[0] || w in words[1..];
      r
  }

  /** Leftmost match of an alternation of literal words, the earlier alternative winning at one position. */
  function FirstWord(s: string, words: seq<string>): (r: Option<string>)
    ensures r.Some? ==> r.value in words && Contains(s, r.value)
    ensures r.None? ==> forall w :: w in words ==> !Contains(s, w)
    decreases |s|
  {
    var here := WordAt(s, words);
    if here.Some? then here
    else if s == [] then None
    else FirstWord(s[1..], words)
  }

  /** `/w1|w2|…/.test(s)` for literal words. */
  predicate MentionsAny(s: string, words: seq<string>) {
    FirstWord(s, words).Some?
  }

  predicate IsAsciiLetterOrSpace(c: char) {
    ('A' <= c <= 'Z') || ('a' <= c <= 'z') || IsJsSpace(c)
  }

  /** The longest run of ASCII letters and whitespace at the start of `s`. */
  function RunAtStart(s: string): (r: string)
    ensures r <= s
    ensures forall i :: 0 <= i < |r| ==> IsAsciiLetterOrSpace(r[i])
  {
    if s != [] && IsAsciiLetterOrSpace(s[0]) then [s[0]] + RunAtStart(s[1..]) else []
  }

  /**
   * Leftmost match of `[A-Za-z\s]+(?:Health|Tech|Corp|Inc|Ltd)?`. The greedy
   * run already takes every letter, so the optional suffix never adds any.
   */
  function FirstLetterRun(s: string): (r: Option<string>)
    ensures r.Some? ==> r.value != [] && Contains(s, r.value)
    ensures r.None? <==> forall i :: 0 <= i < |s| ==> !IsAsciiLetterOrSpace(s[i])
    decreases |s|
  {
    if s == [] then None
    else if IsAsciiLetterOrSpace(s[0]) then
      var run := RunAtStart(s);
      assert OccursAt(s, run, 0) by { assert s[..|run|] == run; }
      ContainsAt(s, run, 0);
      Some(run)
    else
      var r := FirstLetterRun(s[1..]);
      if r.Some? then
        ContainsWitness(s[1..], r.value);
        var i :| OccursAt(s[1..], r.value, i);
        assert s[i + 1..i + 1 + |r.value|] == s[1..][i..i + |r.value|];
        ContainsAt(s, r.value, i + 1);
        r
      else
        assert forall i :: 1 <= i < |s| ==> s[i] == s[1..][i - 1];
        r
  }

  /** `text.split(/→|->/)`: pieces between separators, left to right. */
  function SplitArrows(s: string): (r: seq<string>)
    ensures |r| >= 1 && r[0] <= s
    ensures forall k :: 0 <= k < |r| ==> '→' !in r[k] && !Contains(r[k], "->")
  {
    if s == [] then [""]
    else if s[0] == '→' then [""] + SplitArrows(s[1..])
    else if |s| >= 2 && s[0] == '-' && s[1] == '>' then [""] + SplitArrows(s[2..])
    else
      var rest := SplitArrows(s[1..]);
      var head := [s[0]] + rest[0];
      assert head[1..] == rest[0];
      assert !("->" <= head) by {
        if |head| >= 2 && head[0] == '-' {
          assert head[1] == rest[0][0] == s[1];
        }
      }
      assert !Contains(head, "->");
      [head] + rest[1..]
  }

  // ---------------------------------------------------------------------
  // Key elements

  const DecreaseWords: seq<string> := ["減少", "降低", "下降"]
  const IncreaseWords: seq<string> := ["增加", "成長", "提升", "上升"]
  const SubjectWords: seq<string> := ["針扎", "傷害", "成本", "效率", "銷售", "營收", "用戶", "客戶"]
  const ConceptWords: seq<string> := ["策略", "模式", "理念", "價值", "願景", "商業模式", "競爭優勢"]
  const DefaultSteps: seq<string> := ["步驟 1", "步驟 2", "步驟 3"]
  const DefaultConcept := "核心概念"

  /** Trend of a statistics slide: decrease words are checked first. */
  function TrendOf(text: string): Option<string> {
    if MentionsAny(text, DecreaseWords) then Some("decrease")
    else if MentionsAny(text, IncreaseWords) then Some("increase")
    else None
  }

  /** Steps of a process slide before the placeholder default. */
  function FoundSteps(text: string, x: Extractors): seq<string> {
    var labelled := x.labelledSteps(text);
    if labelled == [] && '→' in text then ShortPieces(TrimmedPieces(SplitArrows(text))) else labelled
  }

  /** `Math.max(3, Math.ceil(marks / 2))`. */
  function ComparisonItemCount(marks: nat): nat {
    var half := (marks + 1) / 2;
    if half > 3 then half else 3
  }

  /** The event of one year match: none when the year is empty. */
  function EventOf(entry: (string, string)): seq<Event> {
    if entry.0 != "" then [Event(entry.0, Some(TrimJs(entry.1)))] else []
  }

  /** Events from the year matches, in match order; an entry with an empty year is skipped. */
  function EventsOf(entries: seq<(string, string)>): seq<Event> {
    if entries == [] then []
    else EventsOf(entries[..|entries| - 1]) + EventOf(entries[|entries| - 1])
  }

  const DefaultEvents: seq<Event> := [Event("2020", None), Event("2022", None), Event("2024", None)]

  /** Industry keywords, in the order they are tested. */
  function IndustryKeywords(text: string): seq<string> {
    var lower := AsciiLower(text);
    (if Contains(text, "醫療") || Contains(lower, "healthcare") then ["healthcare"] else [])
    + (if Contains(text, "科技") || Contains(lower, "technology") then ["technology"] else [])
    + (if Contains(text, "環保") || Contains(text, "環境") then ["environmental"] else [])
    + (if Contains(text, "金融") || Contains(lower, "finance") then ["finance"] else [])
  }

  function StatisticsOf(text: string, x: Extractors): KeyElements {
    StatisticsElements(x.percent(text), TrendOf(text), FirstWord(text, SubjectWords))
  }

  function ProcessOf(text: string, x: Extractors): KeyElements {
    var found := FoundSteps(text, x);
    ProcessElements(if found != [] then found else DefaultSteps)
  }

  function ComparisonOf(text: string, x: Extractors): KeyElements {
    var count := ComparisonItemCount(x.checkmarks(text));
    match x.versus(text)
    case Some((a, b)) => ComparisonElements(TrimJs(a), TrimJs(b), count)
    case None => ComparisonElements("傳統方案", "新方案", count)
  }

  function TimelineOf(events: seq<Event>): KeyElements {
    TimelineElements(if events != [] then events else DefaultEvents)
  }

  function CompanyOf(text: string): KeyElements {
    var name := match FirstLetterRun(text) case Some(run) => [TrimJs(run)] case None => [];
    CompanyElements(name + IndustryKeywords(text))
  }

  function ConceptOf(text: string): KeyElements {
    ConceptElements(FirstWord(text, ConceptWords).GetOr(DefaultConcept), [])
  }

  /** `extractKeyElements` as a value. */
  function KeyElementsOf(text: string, t: ContentType, x: Extractors): KeyElements {
    match t
    case Statistics => StatisticsOf(text, x)
    case Process => ProcessOf(text, x)
    case Comparison => ComparisonOf(text, x)
    case Timeline => TimelineOf(EventsOf(x.yearEntries(text)))
    case CompanyIntro => CompanyOf(text)
    case Concept => ConceptOf(text)
    case TextOnly => NoElements
  }

  /** The timeline loop of `extractKeyElements`: one event per match with a year. */
  method CollectEvents(entries: seq<(string, string)>) returns (events: seq<Event>)
    ensures events == EventsOf(entries)
  {
    events := [];
    var i := 0;
    while i < |entries|
      invariant 0 <= i <= |entries|
      invariant events == EventsOf(entries[..i])
    {
      assert entries[..i + 1][..i] == entries[..i];
      var (year, desc) := entries[i];
      if year != "" {
        events := events + [Event(year, Some(TrimJs(desc)))];
      }
      i := i + 1;
    }
    assert entries[..i] == entries;
  }

  /** `extractKeyElements`. */
  method ExtractKeyElements(text: string, t: ContentType, x: Extractors) returns (k: KeyElements)
    ensures k == KeyElementsOf(text, t, x)
  {
    if t == Timeline {
      var events := CollectEvents(x.yearEntries(text));
      k := TimelineOf(events);
    } else {
      k := KeyElementsOf(text, t, x);
    }
  }

  /** Trend: any decrease word gives "decrease", otherwise any increase word gives "increase". */
  lemma TrendPrecedence(text: string)
    ensures TrendOf(text) == Some("decrease") <==> exists w :: w in DecreaseWords && Contains(text, w)
    ensures TrendOf(text) == Some("increase") <==>
      (forall w :: w in DecreaseWords ==> !Contains(text, w)) && exists w :: w in IncreaseWords && Contains(text, w)
  {
  }

  /** Process steps are never empty; with nothing found they are the three placeholders. */
  lemma ProcessStepsDefault(text: string, x: Extractors)
    ensures ProcessOf(text, x).steps != []
    ensures ProcessOf(text, x).steps == DefaultSteps <==> FoundSteps(text, x) == [] || FoundSteps(text, x) == DefaultSteps
  {
  }

  /** The comparison item count is `max(3, ceil(marks / 2))`. */
  lemma ComparisonItemCountBounds(marks: nat)
    ensures ComparisonItemCount(marks) >= 3
    ensures 2 * ComparisonItemCount(marks) >= marks
    ensures ComparisonItemCount(marks) > 3 ==> 2 * ComparisonItemCount(marks) <= marks + 1
  {
  }

  /** Timelines are never empty; with no year match they are 2020, 2022 and 2024. */
  lemma TimelineDefault(events: seq<Event>)
    ensures TimelineOf(events).events != []
    ensures events == [] ==> TimelineOf(events).events == DefaultEvents
  {
  }

  /** The concept is the default exactly when no concept word occurs. */
  lemma ConceptDefault(text: string)
    ensures ConceptOf(text).concept == DefaultConcept <==> forall w :: w in ConceptWords ==> !Contains(text, w)
  {
    var c := ConceptOf(text).concept;
    if FirstWord(text, ConceptWords).Some? {
      assert c in ConceptWords;
    }
  }

  /** Each event keeps the year of its match, in order. */
  lemma {:induction false} EventsKeepYears(entries: seq<(string, string)>)
    ensures |EventsOf(entries)| <= |entries|
    ensures forall e :: e in EventsOf(entries) ==> e.year != "" && exists d :: (e.year, d) in entries
  {
    if entries != [] {
      var init, last := entries[..|entries| - 1], entries[|entries| - 1];
      EventsKeepYears(init);
      forall e | e in EventsOf(entries) ensures e.year != "" && exists d :: (e.year, d) in entries {
        if e in EventsOf(init) {
          var d :| (e.year, d) in init;
          assert (e.year, d) in entries;
        } else {
          assert e in EventOf(last);
          assert (e.year, last.1) in entries;
        }
      }
    }
  }

  // ---------------------------------------------------------------------
  // Analysis

  /** `${title} ${content}` with absent fields read as empty. */
  function FullText(slide: Slide): string {
    slide.title.GetOr("") + " " + slide.content.GetOr("")
  }

  /** The type chosen for a text: the first strict maximum, or plain text below 1 point. */
  function ChosenType(text: string, m: Matcher): ContentType {
    var p := BestPick(TypeScores(text, m), |PatternTypes|);
    BestPickIsFirstMaximum(TypeScores(text, m), |PatternTypes|);
    if p.score < 1.0 then TextOnly else PatternTypes[p.index]
  }

  /** `analyzeSlide` as a value. */
  function AnalysisOf(slide: Slide, index: Option<nat>, m: Matcher, x: Extractors): Analysis {
    var text := FullText(slide);
    var p := BestPick(TypeScores(text, m), |PatternTypes|);
    var t := ChosenType(text, m);
    Analysis(index, slide.title.GetOr(""), t, TypeName(t), VisualOf(t), InfographicTypeOf(t), None,
      p.score, KeyElementsOf(text, t, x))
  }

  /** `analyzeSlide`: scores every type, keeps the first strictly best one, extracts its elements. */
  method AnalyzeSlide(slide: Slide, index: Option<nat>, m: Matcher, x: Extractors) returns (a: Analysis)
    ensures a == AnalysisOf(slide, index, m, x)
  {
    var text := FullText(slide);
    var scores: seq<real> := [];
    var i := 0;
    while i < |PatternTypes|
      invariant 0 <= i <= |PatternTypes|
      invariant scores == TypeScores(text, m)[..i]
    {
      var s := CalculateMatchScore(text, PatternTypes[i], m);
      scores := scores + [s];
      i := i + 1;
    }
    assert scores == TypeScores(text, m);
    var bestIndex, bestScore := -1, 0.0;
    var j := 0;
    while j < |scores|
      invariant 0 <= j <= |scores|
      invariant Pick(bestIndex, bestScore) == BestPick(scores, j)
    {
      if scores[j] > bestScore {
        bestIndex, bestScore := j, scores[j];
      }
      j := j + 1;
    }
    BestPickIsFirstMaximum(scores, |scores|);
    var t := if bestScore < 1.0 then TextOnly else PatternTypes[bestIndex];
    var elements := ExtractKeyElements(text, t, x);
    a := Analysis(index, slide.title.GetOr(""), t, TypeName(t), VisualOf(t), InfographicTypeOf(t), None,
      bestScore, elements);
  }

  /** A slide is plain text exactly when no pattern of any type matches its text. */
  lemma TextOnlyIffNoMatch(slide: Slide, index: Option<nat>, m: Matcher, x: Extractors)
    ensures AnalysisOf(slide, index, m, x).contentType == TextOnly <==>
      forall i :: 0 <= i < |PatternTypes| ==>
        !AnyMatch(FullText(slide), PatternTypes[i], m, PatternCount(PatternTypes[i]))
  {
    var text := FullText(slide);
    var scores := TypeScores(text, m);
    BestPickIsFirstMaximum(scores, |scores|);
    forall i | 0 <= i < |PatternTypes|
      ensures scores[i] == MatchScore(text, PatternTypes[i], m, PatternCount(PatternTypes[i]))
    {
      MatchScoreBounds(text, PatternTypes[i], m, PatternCount(PatternTypes[i]));
    }
    var p := BestPick(scores, |scores|);
    if p.score >= 1.0 {
      var k := p.index;
      MatchScoreBounds(text, PatternTypes[k], m, PatternCount(PatternTypes[k]));
    } else {
      forall i | 0 <= i < |PatternTypes|
        ensures !AnyMatch(text, PatternTypes[i], m, PatternCount(PatternTypes[i]))
      {
        MatchScoreBounds(text, PatternTypes[i], m, PatternCount(PatternTypes[i]));
      }
    }
  }

  /**
   * A chosen type other than plain text holds the largest score, every
   * earlier type in the table scores strictly less, and that score is at least 1.
   */
  lemma ChosenIsFirstStrictMaximum(slide: Slide, index: Option<nat>, m: Matcher, x: Extractors)
    ensures var a := AnalysisOf(slide, index, m, x);
      var scores := TypeScores(FullText(slide), m);
      (forall i :: 0 <= i < |scores| ==> scores[i] <= a.matchScore)
      && (a.contentType != TextOnly ==>
            a.matchScore >= 1.0
            && exists i :: 0 <= i < |scores| && PatternTypes[i] == a.contentType && scores[i] == a.matchScore
                 && (forall j :: 0 <= j < i ==> scores[j] < a.matchScore))
  {
    var scores := TypeScores(FullText(slide), m);
    BestPickIsFirstMaximum(scores, |scores|);
    var p := BestPick(scores, |scores|);
    if p.score >= 1.0 {
      assert PatternTypes[p.index] == AnalysisOf(slide, index, m, x).contentType;
    }
  }

  /** The table fields of a result: every type but plain text needs an infographic, and none a photo. */
  lemma AnalysisFields(slide: Slide, index: Option<nat>, m: Matcher, x: Extractors)
    ensures var a := AnalysisOf(slide, index, m, x);
      (a.visualNeed == InfographicNeed <==> a.contentType != TextOnly)
      && (a.visualNeed == NoVisualNeed <==> a.contentType == TextOnly)
      && (a.infographicType.None? <==> a.contentType == TextOnly)
      && a.photoCategory.None?
      && a.slideIndex == index
      && a.contentTypeName != ""
  {
  }

  /** `analyzePresentation`: one analysis per slide, carrying its position. */
  function AnalyzePresentation(slides: seq<Slide>, m: Matcher, x: Extractors): (r: seq<Analysis>)
    ensures |r| == |slides|
    ensures forall i :: 0 <= i < |r| ==> r[i].slideIndex == Some(i) && r[i].title == slides[i].title.GetOr("")
  {
    seq(|slides|, i requires 0 <= i < |slides| => AnalysisOf(slides[i], Some(i), m, x))
  }

  // ---------------------------------------------------------------------
  // Summary

  datatype VisualSummary = VisualSummary(
    totalSlides: nat, infographicCount: nat, photoCount: nat, noVisualCount: nat,
    byType: map<ContentType, nat>, estimatedCostCents: nat)

  function CountNeed(analyses: seq<Analysis>, need: string): nat {
    if analyses == [] then 0
    else CountNeed(analyses[..|analyses| - 1], need) + (if analyses[|analyses| - 1].visualNeed == need then 1 else 0)
  }

  function CountType(analyses: seq<Analysis>, t: ContentType): nat {
    if analyses == [] then 0
    else CountType(analyses[..|analyses| - 1], t) + (if analyses[|analyses| - 1].contentType == t then 1 else 0)
  }

  /** Sum of the per-type counts of `m` over the listed types (an absent key counts 0). */
  function TotalOver(m: map<ContentType, nat>, ts: seq<ContentType>): nat {
    if ts == [] then 0 else (if ts[0] in m then m[ts[0]] else 0) + TotalOver(m, ts[1..])
  }

  function CountTypes(analyses: seq<Analysis>, ts: seq<ContentType>): nat {
    if ts == [] then 0 else CountType(analyses, ts[0]) + CountTypes(analyses, ts[1..])
  }

  function Occurrences(ts: seq<ContentType>, t: ContentType): nat {
    if ts == [] then 0 else (if ts[0] == t then 1 else 0) + Occurrences(ts[1..], t)
  }

  lemma {:induction false} OccurrencesOfDistinct(ts: seq<ContentType>, t: ContentType)
    requires forall i, j :: 0 <= i < j < |ts| ==> ts[i] != ts[j]
    ensures Occurrences(ts, t) == if t in ts then 1 else 0
  {
    if ts != [] {
      OccurrencesOfDistinct(ts[1..], t);
      if ts[0] == t {
        assert t !in ts[1..] by {
          forall k | 0 <= k < |ts| - 1 ensures ts[1..][k] != t { assert ts[k + 1] != ts[0]; }
        }
      }
      assert t in ts <==> t == ts[0] || t in ts[1..];
    }
  }

  lemma {:induction false} CountTypesStep(analyses: seq<Analysis>, ts: seq<ContentType>)
    requires analyses != []
    ensures CountTypes(analyses, ts) ==
      CountTypes(analyses[..|analyses| - 1], ts) + Occurrences(ts, analyses[|analyses| - 1].contentType)
  {
    if ts != [] {
      CountTypesStep(analyses, ts[1..]);
    }
  }

  lemma {:induction false} NoAnalysesNoCounts(ts: seq<ContentType>)
    ensures CountTypes([], ts) == 0
  {
    if ts != [] {
      NoAnalysesNoCounts(ts[1..]);
    }
  }

  /** Every analysis is counted under exactly one type, so the per-type counts add up to the total. */
  lemma {:induction false} TypeCountsPartition(analyses: seq<Analysis>)
    ensures CountTypes(analyses, AllTypes) == |analyses|
  {
    if analyses == [] {
      NoAnalysesNoCounts(AllTypes);
    } else {
      TypeCountsPartition(analyses[..|analyses| - 1]);
      CountTypesStep(analyses, AllTypes);
      var t := analyses[|analyses| - 1].contentType;
      assert t in AllTypes by {
        assert AllTypes == [Statistics, Process, Comparison, Timeline, CompanyIntro, Concept, TextOnly];
      }
      OccurrencesOfDistinct(AllTypes, t);
      assert Occurrences(AllTypes, t) == 1;
      assert CountTypes(analyses[..|analyses| - 1], AllTypes) == |analyses| - 1;
    }
  }

  lemma {:induction false} TotalOverCounts(m: map<ContentType, nat>, analyses: seq<Analysis>, ts: seq<ContentType>)
    requires forall t :: t in m <==> CountType(analyses, t) > 0
    requires forall t :: t in m ==> m[t] == CountType(analyses, t)
    ensures TotalOver(m, ts) == CountTypes(analyses, ts)
  {
    if ts != [] {
      TotalOverCounts(m, analyses, ts[1..]);
    }
  }

  /** `generateVisualSummary`: visual-need counts, per-type counts and the cost in cents. */
  method GenerateVisualSummary(analyses: seq<Analysis>) returns (s: VisualSummary)
    ensures s.totalSlides == |analyses|
    ensures s.infographicCount == CountNeed(analyses, InfographicNeed)
    ensures s.photoCount == CountNeed(analyses, PhotoNeed)
    ensures s.infographicCount + s.photoCount + s.noVisualCount == s.totalSlides
    ensures forall t :: t in s.byType <==> CountType(analyses, t) > 0
    ensures forall t :: t in s.byType ==> s.byType[t] == CountType(analyses, t)
    ensures TotalOver(s.byType, AllTypes) == s.totalSlides
    ensures s.estimatedCostCents == 5 * s.infographicCount
  {
    var info, photo, none := 0, 0, 0;
    var byType: map<ContentType, nat> := map[];
    var i := 0;
    while i < |analyses|
      invariant 0 <= i <= |analyses|
      invariant info == CountNeed(analyses[..i], InfographicNeed)
      invariant photo == CountNeed(analyses[..i], PhotoNeed)
      invariant info + photo + none == i
      invariant forall t :: t in byType <==> CountType(analyses[..i], t) > 0
      invariant forall t :: t in byType ==> byType[t] == CountType(analyses[..i], t)
    {
      assert analyses[..i + 1][..i] == analyses[..i];
      var a := analyses[i];
      if a.visualNeed == InfographicNeed {
        info := info + 1;
      } else if a.visualNeed == PhotoNeed {
        photo := photo + 1;
      } else {
        none := none + 1;
      }
      var t := a.contentType;
      byType := byType[t := (if t in byType then byType[t] else 0) + 1];
      i := i + 1;
    }
    assert analyses[..i] == analyses;
    TotalOverCounts(byType, analyses, AllTypes);
    TypeCountsPartition(analyses);
    s := VisualSummary(|analyses|, info, photo, none, byType, 5 * info);
  }
}
