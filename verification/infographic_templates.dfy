/**
 * The infographic prompt templates: one builder per infographic type,
 * chosen by name with a fallback, each starting with a shared style block
 * and filling in counts, hints and colours from the content data.
 * Only the lines that carry data are modelled; the fixed prose between them
 * is not.
 */
module InfographicTemplates {
  import opened Wrappers
  import opened Text
  import VisualDecider

  /** An object with an optional `title`. */
  datatype Labelled = Labelled(title: Option<string>)

  /**
   * The content data a builder receives, as a JavaScript object: each field
   * is either present with a value or absent. Arrays whose elements are
   * never read are kept as their length (`items`), and events as their years.
   */
  datatype PromptData = PromptData(
    number: Option<string>, trend: Option<string>, subject: Option<string>,
    steps: Option<seq<string>>, left: Option<Labelled>, right: Option<Labelled>,
    items: Option<nat>, events: Option<seq<string>>, concept: Option<string>,
    elements: Option<seq<string>>, levels: Option<int>, keywords: Option<seq<string>>)

  const BaseStyle: string :=
    "\nCreate a professional infographic illustration with:\n- Clean, modern design\n- Simple flat design style\n"
    + "- No text or labels (text will be added separately)\n- High contrast colors\n- White or light background\n"
    + "- Suitable for business presentations\n- 16:9 aspect ratio\n"

  /** A prompt: the style block, a blank line, then the lines that carry data. */
  function Prompt(lines: seq<string>): string {
    Framed(BaseStyle, lines)
  }

  /** A block of text, a blank line, then the lines one per line. */
  function Framed(style: string, lines: seq<string>): string {
    style + "\n\n" + Join(lines, "\n")
  }

  /** JavaScript `value || fallback` for an optional string. */
  function OrElse(value: Option<string>, fallback: string): string {
    if value.Some? && value.value != "" then value.value else fallback
  }

  /** The trend element of the statistics prompt; empty unless the trend is known. */
  function TrendElement(trend: Option<string>): string {
    if trend == Some("increase") then "upward trending arrow, growth indicator"
    else if trend == Some("decrease") then "downward trending arrow, reduction indicator"
    else ""
  }

  /** The trend line: the trend element, or the neutral display when it is empty. */
  function TrendLine(trend: Option<string>): string {
    var e := TrendElement(trend);
    if e != "" then e else "neutral metric display"
  }

  /** An increase and a decrease each get their own arrow; any other trend gets the neutral display. */
  lemma TrendLineCases(trend: Option<string>)
    ensures trend == Some("increase") ==> TrendLine(trend) == "upward trending arrow, growth indicator"
    ensures trend == Some("decrease") ==> TrendLine(trend) == "downward trending arrow, reduction indicator"
    ensures trend != Some("increase") && trend != Some("decrease") ==> TrendLine(trend) == "neutral metric display"
    ensures TrendLine(trend) != ""
  {
  }

  /** `array.length || 4`, with a missing array read as empty. */
  function CountOrFour(length: Option<nat>): (n: nat)
    ensures n >= 1
    ensures length.Some? && length.value > 0 ==> n == length.value
    ensures length.None? || length.value == 0 ==> n == 4
  {
    if length.Some? && length.value != 0 then length.value else 4
  }

  function LengthOf(s: Option<seq<string>>): Option<nat> {
    if s.Some? then Some(|s.value|) else None
  }

  /**
   * The company industry hint as written: the default, then overwritten by
   * each keyword test in turn.
   */
  function IndustryHint(keywords: seq<string>): string {
    var h0 := "corporate business";
    var h1 := if "healthcare" in keywords then "healthcare medical" else h0;
    var h2 := if "technology" in keywords then "technology innovation" else h1;
    if "environmental" in keywords then "sustainability green" else h2
  }

  /** The later tests win, so environmental beats technology, which beats healthcare. */
  lemma IndustryHintPrecedence(keywords: seq<string>)
    ensures IndustryHint(keywords) ==
      if "environmental" in keywords then "sustainability green"
      else if "technology" in keywords then "technology innovation"
      else if "healthcare" in keywords then "healthcare medical"
      else "corporate business"
  {
  }

  function StatisticsLines(data: PromptData, c: VisualDecider.Palette): seq<string> {
    ["- " + TrendLine(data.trend), "- Abstract icons representing " + OrElse(data.subject, "the concept"),
     "- Primary: " + c.primary, "- Secondary: " + c.secondary, "- Accent: " + c.accent]
  }

  function ProcessLines(data: PromptData, c: VisualDecider.Palette): seq<string> {
    ["- " + NatToString(CountOrFour(LengthOf(data.steps))) + " connected stages/steps arranged horizontally",
     "- Primary: " + c.primary, "- Secondary: " + c.secondary]
  }

  function ComparisonLines(data: PromptData, c: VisualDecider.Palette): seq<string> {
    ["- " + NatToString(CountOrFour(data.items)) + " rows of comparison points",
     "- Left side: " + c.primary + " tones", "- Right side: " + c.secondary + " tones"]
  }

  function TimelineLines(data: PromptData, c: VisualDecider.Palette): seq<string> {
    ["- " + NatToString(CountOrFour(LengthOf(data.events))) + " milestone markers along the timeline",
     "- Timeline line: " + c.primary, "- Milestone nodes: " + c.secondary]
  }

  function ConceptLines(data: PromptData, c: VisualDecider.Palette): seq<string> {
    ["- Central hub: " + c.primary, "- Radiating elements: " + c.secondary]
  }

  /** The pyramid depth: the given `levels`, 3 when absent. */
  function Levels(data: PromptData): int {
    data.levels.GetOr(3)
  }

  function HierarchyLines(data: PromptData, c: VisualDecider.Palette): seq<string> {
    ["- " + IntToString(Levels(data)) + "-level pyramid structure",
     "- Top level: " + c.accent, "- Middle levels: " + c.primary, "- Base level: " + c.secondary]
  }

  function CompanyLines(data: PromptData, c: VisualDecider.Palette): seq<string> {
    ["- Industry-specific icons for " + IndustryHint(data.keywords.GetOr([])),
     "- Primary: " + c.primary, "- Secondary: " + c.secondary, "- Accent highlights: " + c.accent]
  }

  datatype Builder = StatisticsBuilder | ProcessBuilder | ComparisonBuilder | TimelineBuilder
                   | ConceptBuilder | HierarchyBuilder | CompanyBuilder

  /** `getPromptBuilder`: lookup in the builder table, `concept` for any other name. */
  function GetPromptBuilder(t: string): (b: Builder)
    ensures t !in {"statistics", "process", "comparison", "timeline", "concept", "hierarchy", "company"} ==> b == ConceptBuilder
    ensures t == "statistics" <==> b == StatisticsBuilder
    ensures t == "process" <==> b == ProcessBuilder
    ensures t == "comparison" <==> b == ComparisonBuilder
    ensures t == "timeline" <==> b == TimelineBuilder
    ensures t == "concept" ==> b == ConceptBuilder
    ensures t == "hierarchy" <==> b == HierarchyBuilder
    ensures t == "company" <==> b == CompanyBuilder
  {
    if t == "statistics" then StatisticsBuilder
    else if t == "process" then ProcessBuilder
    else if t == "comparison" then ComparisonBuilder
    else if t == "timeline" then TimelineBuilder
    else if t == "hierarchy" then HierarchyBuilder
    else if t == "company" then CompanyBuilder
    else ConceptBuilder
  }

  /** The data-carrying lines of the builder's prompt. */
  function BuilderLines(b: Builder, data: PromptData, c: VisualDecider.Palette): seq<string> {
    match b
    case StatisticsBuilder => StatisticsLines(data, c)
    case ProcessBuilder => ProcessLines(data, c)
    case ComparisonBuilder => ComparisonLines(data, c)
    case TimelineBuilder => TimelineLines(data, c)
    case ConceptBuilder => ConceptLines(data, c)
    case HierarchyBuilder => HierarchyLines(data, c)
    case CompanyBuilder => CompanyLines(data, c)
  }

  /** Runs one of the seven builders. */
  function RunBuilder(b: Builder, data: PromptData, c: VisualDecider.Palette): string {
    Prompt(BuilderLines(b, data, c))
  }

  /** `{ ...defaultColors, ...colors }`: a field the caller sets wins, even when empty. */
  function MergeColors(colors: VisualDecider.ColorOptions): (p: VisualDecider.Palette)
    ensures colors.primary.Some? ==> p.primary == colors.primary.value
    ensures colors.primary.None? ==> p.primary == "#1E5128"
    ensures colors.secondary.Some? ==> p.secondary == colors.secondary.value
    ensures colors.secondary.None? ==> p.secondary == "#4E9F3D"
    ensures colors.accent.Some? ==> p.accent == colors.accent.value
    ensures colors.accent.None? ==> p.accent == "#FFFFFF"
    ensures colors.background.Some? ==> p.background == colors.background.value
    ensures colors.background.None? ==> p.background == "#FFFFFF"
  {
    VisualDecider.Palette(colors.primary.GetOr("#1E5128"), colors.secondary.GetOr("#4E9F3D"),
                          colors.accent.GetOr("#FFFFFF"), colors.background.GetOr("#FFFFFF"))
  }

  /** `buildPrompt`. */
  function BuildPrompt(t: string, data: PromptData, colors: VisualDecider.ColorOptions): string {
    RunBuilder(GetPromptBuilder(t), data, MergeColors(colors))
  }

  /** Every builder's prompt begins with the style block. */
  lemma PromptStartsWithBaseStyle(b: Builder, data: PromptData, c: VisualDecider.Palette)
    ensures BaseStyle <= RunBuilder(b, data, c)
  {
    FramedStartsWith(BaseStyle, BuilderLines(b, data, c));
  }

  lemma FramedStartsWith(style: string, lines: seq<string>)
    ensures style <= Framed(style, lines)
  {
    var rest := "\n\n" + Join(lines, "\n");
    assert Framed(style, lines) == style + rest;
  }

  /** A name outside the table builds the concept prompt. */
  lemma UnknownTypeBuildsConcept(t: string, data: PromptData, colors: VisualDecider.ColorOptions)
    requires t !in {"statistics", "process", "comparison", "timeline", "concept", "hierarchy", "company"}
    ensures BuildPrompt(t, data, colors) == Prompt(ConceptLines(data, MergeColors(colors)))
  {
  }

  /** Join puts every part after the previous ones: the k-th line follows the earlier lines. */
  lemma {:induction false} JoinHasPart(parts: seq<string>, sep: string, k: nat)
    requires k < |parts|
    ensures Contains(Join(parts, sep), parts[k])
    decreases k
  {
    if k == 0 {
      if |parts| > 1 {
        assert Join(parts, sep) == parts[0] + (sep + Join(parts[1..], sep));
      }
    } else {
      JoinHasPart(parts[1..], sep, k - 1);
      assert Join(parts, sep) == (parts[0] + sep) + Join(parts[1..], sep);
      ContainsAfterFront(parts[0] + sep, Join(parts[1..], sep), parts[k]);
    }
  }

  /** A name the table maps to `b` builds `b`'s lines under the style block. */
  lemma BuildPromptFrames(t: string, b: Builder, data: PromptData, colors: VisualDecider.ColorOptions)
    requires GetPromptBuilder(t) == b
    ensures BuildPrompt(t, data, colors) == Framed(BaseStyle, BuilderLines(b, data, MergeColors(colors)))
  {
  }

  /** The process prompt states the step count: the length of `steps`, 4 when missing or empty. */
  lemma ProcessPromptCountsSteps(data: PromptData, colors: VisualDecider.ColorOptions)
    ensures Contains(BuildPrompt("process", data, colors),
      "- " + NatToString(CountOrFour(LengthOf(data.steps))) + " connected stages/steps arranged horizontally")
  {
    BuildPromptFrames("process", ProcessBuilder, data, colors);
    FramedLineIn(BaseStyle, ProcessLines(data, MergeColors(colors)), 0);
  }

  /** The comparison prompt states the item count: the length of `items`, 4 when missing or empty. */
  lemma ComparisonPromptCountsItems(data: PromptData, colors: VisualDecider.ColorOptions)
    ensures Contains(BuildPrompt("comparison", data, colors),
      "- " + NatToString(CountOrFour(data.items)) + " rows of comparison points")
  {
    BuildPromptFrames("comparison", ComparisonBuilder, data, colors);
    FramedLineIn(BaseStyle, ComparisonLines(data, MergeColors(colors)), 0);
  }

  /** The timeline prompt states the event count: the length of `events`, 4 when missing or empty. */
  lemma TimelinePromptCountsEvents(data: PromptData, colors: VisualDecider.ColorOptions)
    ensures Contains(BuildPrompt("timeline", data, colors),
      "- " + NatToString(CountOrFour(LengthOf(data.events))) + " milestone markers along the timeline")
  {
    BuildPromptFrames("timeline", TimelineBuilder, data, colors);
    FramedLineIn(BaseStyle, TimelineLines(data, MergeColors(colors)), 0);
  }

  /** The hierarchy prompt states the pyramid depth: `levels`, 3 when missing. */
  lemma HierarchyPromptStatesLevels(data: PromptData, colors: VisualDecider.ColorOptions)
    ensures Contains(BuildPrompt("hierarchy", data, colors),
      "- " + IntToString(data.levels.GetOr(3)) + "-level pyramid structure")
  {
    BuildPromptFrames("hierarchy", HierarchyBuilder, data, colors);
    FramedLineIn(BaseStyle, HierarchyLines(data, MergeColors(colors)), 0);
  }

  /** The statistics prompt states the caller's primary colour, or the default one. */
  lemma StatisticsPromptStatesPrimary(data: PromptData, colors: VisualDecider.ColorOptions)
    ensures Contains(BuildPrompt("statistics", data, colors), "- Primary: " + colors.primary.GetOr("#1E5128"))
  {
    BuildPromptFrames("statistics", StatisticsBuilder, data, colors);
    FramedLineIn(BaseStyle, StatisticsLines(data, MergeColors(colors)), 2);
  }

  /** The company prompt states the industry hint derived from the keywords. */
  lemma CompanyPromptStatesIndustry(data: PromptData, colors: VisualDecider.ColorOptions)
    ensures Contains(BuildPrompt("company", data, colors),
      "- Industry-specific icons for " + IndustryHint(data.keywords.GetOr([])))
  {
    BuildPromptFrames("company", CompanyBuilder, data, colors);
    FramedLineIn(BaseStyle, CompanyLines(data, MergeColors(colors)), 0);
  }

  /** Every line of a prompt occurs in it, whatever the style block. */
  lemma FramedLineIn(style: string, lines: seq<string>, k: nat)
    requires k < |lines|
    ensures Contains(Framed(style, lines), lines[k])
  {
    JoinHasPart(lines, "\n", k);
    assert Framed(style, lines) == (style + "\n\n") + Join(lines, "\n");
    ContainsAfterFront(style + "\n\n", Join(lines, "\n"), lines[k]);
  }

}
