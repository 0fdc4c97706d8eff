/**
 * The infographic prompt of the image-generation client: one template per
 * infographic type, filled from the content data and a colour list, with
 * `concept` as the fallback. Only the interpolated values are modelled;
 * the fixed prose of each template is not.
 */
module KieAi {
  import opened Wrappers
  import opened Text
  import ContentAnalyzer
  import VisualDecider
  import opened InfographicTemplates

  /** The `colors` argument: an array of colour strings, or an object of named colours. */
  datatype JsColors = ColorArray(list: seq<string>) | ColorObject(palette: VisualDecider.Palette)

  /** The values each template interpolates. */
  datatype KiePrompt =
    | StatisticsKie(number: string, trend: string, arrowWord: string, subject: string, arrowSymbol: string, colors: string)
    | ProcessKie(stepCount: nat, stepConcepts: string, colors: string)
    | ComparisonKie(leftLabel: string, rightLabel: string, itemCount: nat, colors: string)
    | TimelineKie(eventCount: nat, from: string, to: string, colors: string)
    | ConceptKie(mainIdea: string, supporting: string, colors: string)

  /**
   * The failure of reading a field of a missing value. Node's message goes on
   * with the field's name, `(reading 'length')` and the like; the model keeps
   * the part that does not depend on which read failed.
   */
  const PropertyOfUndefined := "TypeError: Cannot read properties of undefined"
  /** Node's message for calling `join` on the colour object. */
  const JoinIsNotAFunction := "TypeError: colors.join is not a function"

  /** A template literal shows an absent value as `undefined`. */
  function Shown(v: Option<string>): string {
    v.GetOr("undefined")
  }

  function StatisticsTemplate(data: PromptData, colorStr: string): KiePrompt {
    var down := data.trend == Some("decrease");
    StatisticsKie(Shown(data.number), Shown(data.trend), if down then "downward" else "upward",
      Shown(data.subject), if down then "↓" else "↑", colorStr)
  }

  /** Reads `data.steps.length`, which fails when `steps` is absent. */
  function ProcessTemplate(data: PromptData, colorStr: string): Result<KiePrompt> {
    match data.steps
    case None => Err(PropertyOfUndefined)
    case Some(steps) => Ok(ProcessKie(|steps|, Join(steps, " → "), colorStr))
  }

  /** Reads `data.left.title`, `data.right.title` and `data.items.length`. */
  function ComparisonTemplate(data: PromptData, colorStr: string): Result<KiePrompt> {
    if data.left.None? || data.right.None? || data.items.None? then Err(PropertyOfUndefined)
    else Ok(ComparisonKie(Shown(data.left.value.title), Shown(data.right.value.title), data.items.value, colorStr))
  }

  /** Reads `data.events.length` and the years of the first and last events. */
  function TimelineTemplate(data: PromptData, colorStr: string): Result<KiePrompt> {
    match data.events
    case None => Err(PropertyOfUndefined)
    case Some(ev) =>
      Ok(TimelineKie(|ev|, if ev != [] then ev[0] else "undefined",
        if ev != [] then ev[|ev| - 1] else "undefined", colorStr))
  }

  /** `data.elements?.join(', ') || 'key points'`. */
  function Supporting(elements: Option<seq<string>>): string {
    if elements.Some? && Join(elements.value, ", ") != "" then Join(elements.value, ", ") else "key points"
  }

  function ConceptTemplate(data: PromptData, colorStr: string): KiePrompt {
    ConceptKie(Shown(data.concept), Supporting(data.elements), colorStr)
  }

  predicate KnownType(t: string) {
    t in {"statistics", "process", "comparison", "timeline", "concept"}
  }

  /**
   * `buildInfographicPrompt` as written: the colour array is joined, then all
   * five templates are built in one object literal before the type picks
   * one, so a field missing for any template fails the whole call.
   */
  function BuildInfographicPromptAsWritten(t: string, data: PromptData, colors: JsColors): (r: Result<KiePrompt>)
    ensures colors.ColorObject? ==> r == Err(JoinIsNotAFunction)
    ensures r.Ok? ==> data.steps.Some? && data.left.Some? && data.right.Some? && data.items.Some? && data.events.Some?
  {
    if colors.ColorObject? then Err(JoinIsNotAFunction)
    else
      var cs := Join(colors.list, ", ");
      var statistics := StatisticsTemplate(data, cs);
      var process := ProcessTemplate(data, cs);
      if process.Err? then Err(process.error)
      else
        var comparison := ComparisonTemplate(data, cs);
        if comparison.Err? then Err(comparison.error)
        else
          var timeline := TimelineTemplate(data, cs);
          if timeline.Err? then Err(timeline.error)
          else
            var concept := ConceptTemplate(data, cs);
            Ok(if t == "statistics" then statistics
               else if t == "process" then process.value
               else if t == "comparison" then comparison.value
               else if t == "timeline" then timeline.value
               else concept)
  }

  /**
   * `buildInfographicPrompt` with only the chosen template built. The colours
   * must be a sequence, which `colors.join` requires.
   */
  function BuildInfographicPrompt(t: string, data: PromptData, colors: seq<string>): (r: Result<KiePrompt>)
    ensures r.Err? <==>
      (t == "process" && data.steps.None?)
      || (t == "comparison" && (data.left.None? || data.right.None? || data.items.None?))
      || (t == "timeline" && data.events.None?)
    ensures r.Ok? ==> r.value.colors == Join(colors, ", ")
    ensures !KnownType(t) ==> r == Ok(ConceptTemplate(data, Join(colors, ", ")))
  {
    var cs := Join(colors, ", ");
    if t == "statistics" then Ok(StatisticsTemplate(data, cs))
    else if t == "process" then ProcessTemplate(data, cs)
    else if t == "comparison" then ComparisonTemplate(data, cs)
    else if t == "timeline" then TimelineTemplate(data, cs)
    else Ok(ConceptTemplate(data, cs))
  }

  /** Whenever the eager version succeeds, it agrees with the corrected one. */
  lemma AsWrittenAgreesWhenItSucceeds(t: string, data: PromptData, colors: seq<string>)
    requires BuildInfographicPromptAsWritten(t, data, ColorArray(colors)).Ok?
    ensures BuildInfographicPromptAsWritten(t, data, ColorArray(colors)) == BuildInfographicPrompt(t, data, colors)
  {
  }

  /** A decrease points the arrow down; every other trend, absent included, points it up. */
  lemma StatisticsArrow(data: PromptData, colors: seq<string>)
    ensures var p := BuildInfographicPrompt("statistics", data, colors);
      p.Ok? && p.value.StatisticsKie?
      && (data.trend == Some("decrease") ==> p.value.arrowWord == "downward" && p.value.arrowSymbol == "↓")
      && (data.trend != Some("decrease") ==> p.value.arrowWord == "upward" && p.value.arrowSymbol == "↑")
  {
  }

  /** A process prompt states the number of steps and lists them joined by arrows. */
  lemma ProcessStepsShown(data: PromptData, colors: seq<string>)
    requires data.steps.Some?
    ensures var p := BuildInfographicPrompt("process", data, colors);
      p.Ok? && p.value.ProcessKie? && p.value.stepCount == |data.steps.value|
      && p.value.stepConcepts == Join(data.steps.value, " → ")
  {
  }

  /** A timeline prompt spans from the first event's year to the last one's. */
  lemma TimelineSpan(data: PromptData, colors: seq<string>)
    requires data.events.Some? && data.events.value != []
    ensures var p := BuildInfographicPrompt("timeline", data, colors);
      var ev := data.events.value;
      p.Ok? && p.value.TimelineKie? && p.value.eventCount == |ev| && p.value.from == ev[0] && p.value.to == ev[|ev| - 1]
  {
  }

  /** Concept elements are listed, or `key points` when missing or empty. */
  lemma ConceptSupporting(t: string, data: PromptData, colors: seq<string>)
    requires !KnownType(t) || t == "concept"
    ensures var p := BuildInfographicPrompt(t, data, colors);
      p.Ok? && p.value.ConceptKie?
      && (data.elements.None? || data.elements.value == [] ==> p.value.supporting == "key points")
      && (data.elements.Some? && data.elements.value != [] && Join(data.elements.value, ", ") != "" ==>
            p.value.supporting == Join(data.elements.value, ", "))
  {
  }

  /** The key elements of an analysis, as the object the prompt builder receives. */
  function DataOf(e: ContentAnalyzer.KeyElements): PromptData {
    var none := PromptData(None, None, None, None, None, None, None, None, None, None, None, None);
    match e
    case StatisticsElements(n, tr, s) => none.(number := n, trend := tr, subject := s)
    case ProcessElements(steps) => none.(steps := Some(steps))
    case ComparisonElements(l, r, count) =>
      none.(left := Some(Labelled(Some(l))), right := Some(Labelled(Some(r))), items := Some(count))
    case TimelineElements(events) =>
      none.(events := Some(seq(|events|, i requires 0 <= i < |events| => events[i].year)))
    case CompanyElements(k) => none.(keywords := Some(k))
    case ConceptElements(c, el) => none.(concept := Some(c), elements := Some(el))
    case NoElements => none
  }

  /**
   * As written, the builder fails on the key elements of every analysis,
   * whatever the type and the colours: no analysis has both the `steps` of
   * a process and the `left`/`right`/`items` of a comparison.
   */
  lemma AsWrittenRejectsAnalyzerData(t: string, e: ContentAnalyzer.KeyElements, colors: JsColors)
    ensures BuildInfographicPromptAsWritten(t, DataOf(e), colors).Err?
  {
  }

  /** As written, a colour object (what the parameters of a decision hold) is rejected before any template. */
  lemma AsWrittenRejectsPalette(t: string, data: PromptData, p: VisualDecider.Palette)
    ensures BuildInfographicPromptAsWritten(t, data, ColorObject(p)) == Err(JoinIsNotAFunction)
  {
  }

  /** A statistics slide with a number, a trend and a subject: the eager builder fails, the corrected one does not. */
  lemma StatisticsCounterexample()
    ensures var data := DataOf(ContentAnalyzer.StatisticsElements(Some("30%"), Some("increase"), Some("營收")));
      BuildInfographicPromptAsWritten("statistics", data, ColorArray(["#1E5128", "#4E9F3D"])) == Err(PropertyOfUndefined)
      && BuildInfographicPrompt("statistics", data, ["#1E5128", "#4E9F3D"]).Ok?
  {
  }

  /** Corrected, the builder accepts the type and key elements of every analysis that asks for an infographic. */
  lemma CorrectedAcceptsAnalyses(slide: ContentAnalyzer.Slide, index: Option<nat>, m: ContentAnalyzer.Matcher,
                                 x: ContentAnalyzer.Extractors, colors: seq<string>)
    ensures var a := ContentAnalyzer.AnalysisOf(slide, index, m, x);
      a.infographicType.Some? ==> BuildInfographicPrompt(a.infographicType.value, DataOf(a.keyElements), colors).Ok?
  {
    var a := ContentAnalyzer.AnalysisOf(slide, index, m, x);
    var text := ContentAnalyzer.FullText(slide);
    var t := ContentAnalyzer.ChosenType(text, m);
    assert a.keyElements == ContentAnalyzer.KeyElementsOf(text, t, x);
    match t
    case Comparison =>
      assert a.keyElements.ComparisonElements?;
    case _ =>
  }
}
