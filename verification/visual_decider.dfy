/**
 * The visual decider: turns each slide analysis into a decision (an
 * AI-generated infographic or no visual), builds the infographic
 * parameters, caps the number of infographics of a presentation by
 * downgrading the lowest-scored ones in place, and validates a decision.
 */
module VisualDecider {
  import opened Wrappers
  import opened Text
  import opened ContentAnalyzer

  /** The two entries of the strategy table; only the first has a source. */
  datatype Strategy = KieAiStrategy | NoVisualStrategy {
    function Source(): Option<string> {
      if KieAiStrategy? then Some("kie-ai") else None
    }
  }

  /** Lookup in the strategy table by key. */
  function StrategyNamed(key: string): Option<Strategy> {
    if key == "infographic" then Some(KieAiStrategy)
    else if key == "none" then Some(NoVisualStrategy)
    else None
  }

  datatype InfographicStrategy = InfographicStrategy(style: string, elements: seq<string>, layout: string)

  /** Lookup in the infographic strategy table by type. */
  function InfographicStrategyFor(t: string): Option<InfographicStrategy> {
    if t == "statistics" then
      Some(InfographicStrategy("modern infographic", ["large numbers", "trend arrows", "progress bars"], "centered focal point"))
    else if t == "process" then
      Some(InfographicStrategy("flow diagram", ["numbered steps", "connecting arrows", "icons"], "horizontal or vertical flow"))
    else if t == "comparison" then
      Some(InfographicStrategy("comparison chart", ["two columns", "check marks", "icons"], "side by side"))
    else if t == "timeline" then
      Some(InfographicStrategy("timeline graphic", ["year markers", "milestone dots", "connecting line"], "horizontal timeline"))
    else if t == "concept" then
      Some(InfographicStrategy("concept diagram", ["central idea", "radiating elements", "icons"], "hub and spoke"))
    else if t == "company" then
      Some(InfographicStrategy("corporate illustration", ["building silhouette", "globe", "team icons", "growth chart"], "centered composition"))
    else None
  }

  /** Colours a caller may pass; an absent or empty one takes the default. */
  datatype ColorOptions = ColorOptions(primary: Option<string>, secondary: Option<string>, accent: Option<string>, background: Option<string>)

  datatype Palette = Palette(primary: string, secondary: string, accent: string, background: string)

  /** JavaScript `value || fallback` for an optional string. */
  function OrElse(value: Option<string>, fallback: string): string {
    if value.Some? && value.value != "" then value.value else fallback
  }

  datatype InfographicParams = InfographicParams(
    infographicType: string, style: string, elements: seq<string>, layout: string,
    data: KeyElements, colors: Palette, title: string, context: string)

  /** The infographic type a set of parameters is built for: the analysis's, or `concept`. */
  function ParamsType(a: Analysis): string {
    OrElse(a.infographicType, "concept")
  }

  /** The context parts pushed for an analysis, in order. */
  function ContextParts(a: Analysis): (parts: seq<string>)
    ensures a.title != "" <==> |parts| > 0 && parts[0] == "標題: " + a.title
    ensures a.contentTypeName != "" ==>
      var k := if a.title != "" then 1 else 0; |parts| > k && parts[k] == "類型: " + a.contentTypeName
    ensures |parts| <= 5
  {
    var e := a.keyElements;
    (if a.title != "" then ["標題: " + a.title] else [])
    + (if a.contentTypeName != "" then ["類型: " + a.contentTypeName] else [])
    + (if e.StatisticsElements? && e.number.Some? && e.number.value != "" then ["數據: " + e.number.value] else [])
    + (if e.StatisticsElements? && e.trend.Some? && e.trend.value != ""
       then ["趨勢: " + (if e.trend.value == "increase" then "上升" else "下降")] else [])
    + (if e.ProcessElements? && |e.steps| > 0 then ["步驟數: " + NatToString(|e.steps|)] else [])
    + (if e.TimelineElements? && |e.events| > 0 then ["時間點: " + NatToString(|e.events|) + "個"] else [])
  }

  /** `buildContextString`: the parts joined with `, `. */
  function BuildContextString(a: Analysis): string {
    Join(ContextParts(a), ", ")
  }

  /** A context starts with the title part when there is a title, and is empty only with no part at all. */
  lemma ContextStringShape(a: Analysis)
    ensures a.title != "" ==> "標題: " + a.title <= BuildContextString(a)
    ensures BuildContextString(a) == "" <==> a.title == "" && a.contentTypeName == "" && ContextParts(a) == []
  {
    var parts := ContextParts(a);
    if a.title != "" {
      assert parts[0] == "標題: " + a.title;
    }
    if parts != [] {
      assert parts[0] != "";
    }
  }

  /**
   * The data parts of a context: the number and the trend of statistics
   * (the trend reads 上升 exactly for `increase`), the step count of a
   * process and the event count of a timeline.
   */
  lemma ContextDataParts(a: Analysis)
    ensures var e := a.keyElements;
      e.StatisticsElements? && e.number.Some? && e.number.value != "" ==> "數據: " + e.number.value in ContextParts(a)
    ensures var e := a.keyElements;
      e.StatisticsElements? && e.trend.Some? && e.trend.value != "" ==>
        ("趨勢: 上升" in ContextParts(a) <==> e.trend.value == "increase")
        && ("趨勢: 下降" in ContextParts(a) <==> e.trend.value != "increase")
    ensures var e := a.keyElements;
      e.ProcessElements? && |e.steps| > 0 ==> "步驟數: " + NatToString(|e.steps|) in ContextParts(a)
    ensures var e := a.keyElements;
      e.TimelineElements? && |e.events| > 0 ==> "時間點: " + NatToString(|e.events|) + "個" in ContextParts(a)
  {
    var e := a.keyElements;
    if e.StatisticsElements? && e.trend.Some? && e.trend.value != "" {
      var before := (if a.title != "" then ["標題: " + a.title] else [])
        + (if a.contentTypeName != "" then ["類型: " + a.contentTypeName] else [])
        + (if e.number.Some? && e.number.value != "" then ["數據: " + e.number.value] else []);
      var trend := "趨勢: " + (if e.trend.value == "increase" then "上升" else "下降");
      var up, down := "趨勢: 上升", "趨勢: 下降";
      assert ContextParts(a) == before + [trend];
      assert forall x :: x in before ==> x != [] && x[0] != '趨';
      assert up[4] != down[4];
      assert trend == if e.trend.value == "increase" then up else down;
      OnlyPartWithHead(before, trend, up);
      OnlyPartWithHead(before, trend, down);
    }
  }

  /** Among parts whose heads differ from `y`'s, followed by one more, only that one can be `y`. */
  lemma OnlyPartWithHead(before: seq<string>, last: string, y: string)
    requires y != [] && forall x :: x in before ==> x != [] && x[0] != y[0]
    ensures y in before + [last] <==> y == last
  {
    assert forall x :: x in before ==> x != y;
  }

  /** `buildInfographicParams`; an infographic type with no strategy makes the lookup throw. */
  function BuildInfographicParams(a: Analysis, colors: ColorOptions): (r: Result<InfographicParams>)
    ensures r.Ok? <==> InfographicStrategyFor(ParamsType(a)).Some?
    ensures r.Ok? ==> (r.value.infographicType == ParamsType(a) && r.value.data == a.keyElements
      && r.value.title == a.title && r.value.context == BuildContextString(a))
    ensures r.Ok? ==> var s := InfographicStrategyFor(ParamsType(a)).value;
      r.value.style == s.style && r.value.elements == s.elements && r.value.layout == s.layout
  {
    var t := ParamsType(a);
    match InfographicStrategyFor(t)
    case None => Err("cannot read property 'style' of an unknown infographic type")
    case Some(s) =>
      Ok(InfographicParams(t, s.style, s.elements, s.layout, a.keyElements,
        Palette(OrElse(colors.primary, "#1E5128"), OrElse(colors.secondary, "#4E9F3D"),
                OrElse(colors.accent, "#FFFFFF"), OrElse(colors.background, "#FFFFFF")),
        a.title, BuildContextString(a)))
  }

  /** Each colour is the caller's when given and non-empty, and its fixed default otherwise. */
  lemma ColorDefaults(a: Analysis, colors: ColorOptions)
    requires BuildInfographicParams(a, colors).Ok?
    ensures var p := BuildInfographicParams(a, colors).value.colors;
      (colors.primary.Some? && colors.primary.value != "" ==> p.primary == colors.primary.value)
      && (colors.primary.None? || colors.primary.value == "" ==> p.primary == "#1E5128")
      && (colors.secondary.Some? && colors.secondary.value != "" ==> p.secondary == colors.secondary.value)
      && (colors.secondary.None? || colors.secondary.value == "" ==> p.secondary == "#4E9F3D")
      && (colors.accent.Some? && colors.accent.value != "" ==> p.accent == colors.accent.value)
      && (colors.accent.None? || colors.accent.value == "" ==> p.accent == "#FFFFFF")
      && (colors.background.Some? && colors.background.value != "" ==> p.background == colors.background.value)
      && (colors.background.None? || colors.background.value == "" ==> p.background == "#FFFFFF")
  {
  }

  /** Every analysis of a slide has a strategy for its infographic type, so the parameters always build. */
  lemma ParamsBuildForAnalyses(slide: Slide, index: Option<nat>, m: Matcher, x: Extractors, colors: ColorOptions)
    ensures BuildInfographicParams(AnalysisOf(slide, index, m, x), colors).Ok?
    ensures AnalysisOf(slide, index, m, x).contentType == TextOnly ==>
      BuildInfographicParams(AnalysisOf(slide, index, m, x), colors).value.infographicType == "concept"
  {
    var a := AnalysisOf(slide, index, m, x);
    assert a.infographicType == InfographicTypeOf(a.contentType);
    StrategyForEveryType(a.contentType);
  }

  /** Every content type names an infographic type the strategy table knows; plain text falls back to `concept`. */
  lemma StrategyForEveryType(t: ContentType)
    ensures InfographicStrategyFor(OrElse(InfographicTypeOf(t), "concept")).Some?
    ensures t == TextOnly ==> OrElse(InfographicTypeOf(t), "concept") == "concept"
  {
  }

  datatype Decision = Decision(
    slideIndex: Option<nat>, title: Option<string>, analysis: Analysis,
    strategy: Strategy, params: Option<InfographicParams>, budgetLimited: bool)

  /** `forceType` replaces the visual need only when it is a non-empty key of the strategy table. */
  function Forced(a: Analysis, forceType: Option<string>): Analysis {
    if forceType.Some? && forceType.value != "" && StrategyNamed(forceType.value).Some?
    then a.(visualNeed := forceType.value) else a
  }

  /** `decideVisual` as a value. */
  function DecisionOf(slide: Slide, index: Option<nat>, colors: ColorOptions, forceType: Option<string>,
                      m: Matcher, x: Extractors): Decision
  {
    var a := Forced(AnalysisOf(slide, index, m, x), forceType);
    ParamsBuildForAnalyses(slide, index, m, x, colors);
    if a.visualNeed == InfographicNeed
    then Decision(index, slide.title, a, KieAiStrategy, Some(BuildInfographicParams(a, colors).value), false)
    else Decision(index, slide.title, a, NoVisualStrategy, None, false)
  }

  /**
   * A decision uses the infographic strategy, with parameters, exactly when
   * the (possibly forced) visual need is `infographic`; otherwise it has no
   * visual and no parameters.
   */
  lemma DecisionShape(slide: Slide, index: Option<nat>, colors: ColorOptions, forceType: Option<string>,
                      m: Matcher, x: Extractors)
    ensures var d := DecisionOf(slide, index, colors, forceType, m, x);
      var need := AnalysisOf(slide, index, m, x).visualNeed;
      (d.strategy == KieAiStrategy <==> d.analysis.visualNeed == InfographicNeed)
      && (d.params.Some? <==> d.strategy == KieAiStrategy)
      && (forceType == Some("infographic") ==> d.strategy == KieAiStrategy)
      && (forceType == Some("none") ==> d.strategy == NoVisualStrategy)
      && (forceType.None? ==> (d.strategy == KieAiStrategy <==> need == InfographicNeed))
      && (forall f :: forceType == Some(f) && f != "infographic" && f != "none" ==>
            (d.strategy == KieAiStrategy <==> need == InfographicNeed))
      && !d.budgetLimited && d.slideIndex == index && d.title == slide.title
  {
  }

  /** `decideVisual`: analyses the slide, then decides. */
  method DecideVisual(slide: Slide, index: Option<nat>, colors: ColorOptions, forceType: Option<string>,
                      m: Matcher, x: Extractors) returns (d: Decision)
    ensures d == DecisionOf(slide, index, colors, forceType, m, x)
  {
    var analysis := AnalyzeSlide(slide, index, m, x);
    if forceType.Some? && forceType.value != "" && StrategyNamed(forceType.value).Some? {
      analysis := analysis.(visualNeed := forceType.value);
    }
    ParamsBuildForAnalyses(slide, index, m, x, colors);
    if analysis.visualNeed == InfographicNeed {
      var params := BuildInfographicParams(analysis, colors);
      d := Decision(index, slide.title, analysis, KieAiStrategy, Some(params.value), false);
    } else {
      d := Decision(index, slide.title, analysis, NoVisualStrategy, None, false);
    }
  }

  // ---------------------------------------------------------------------
  // Budget cap

  predicate IsKie(d: Decision) {
    d.strategy == KieAiStrategy
  }

  /** Positions of the infographic decisions, in order (the `filter`). */
  function KieIndices(s: seq<Decision>): (r: seq<nat>)
    ensures forall k :: 0 <= k < |r| ==> r[k] < |s| && IsKie(s[r[k]])
    ensures forall k, l :: 0 <= k < l < |r| ==> r[k] < r[l]
    ensures forall i :: 0 <= i < |s| && IsKie(s[i]) ==> i in r
  {
    if s == [] then []
    else
      var init := KieIndices(s[..|s| - 1]);
      if IsKie(s[|s| - 1]) then init + [|s| - 1] else init
  }

  /** Number of infographic decisions. */
  function CountKie(s: seq<Decision>): nat {
    |KieIndices(s)|
  }

  /** Number of decisions without a visual. */
  function CountNoVisual(s: seq<Decision>): nat {
    if s == [] then 0
    else CountNoVisual(s[..|s| - 1]) + (if s[|s| - 1].strategy == NoVisualStrategy then 1 else 0)
  }

  /** Every decision has one of the two strategies, so the two counts add up to the total. */
  lemma {:induction false} CountsPartitionDecisions(s: seq<Decision>)
    ensures CountKie(s) + CountNoVisual(s) == |s|
  {
    if s != [] {
      CountsPartitionDecisions(s[..|s| - 1]);
    }
  }

  /** Decision i ranks before decision j: higher score, or the same score and earlier (a stable sort). */
  predicate Outranks(s: seq<Decision>, i: nat, j: nat)
    requires i < |s| && j < |s|
  {
    s[i].analysis.matchScore > s[j].analysis.matchScore
    || (s[i].analysis.matchScore == s[j].analysis.matchScore && i < j)
  }

  predicate InRange(r: seq<nat>, n: nat) {
    forall k :: 0 <= k < |r| ==> r[k] < n
  }

  /** Every earlier position outranks every later one. */
  predicate Ranked(r: seq<nat>, s: seq<Decision>)
    requires InRange(r, |s|)
  {
    forall k, l :: 0 <= k < l < |r| ==> Outranks(s, r[k], r[l])
  }

  /** One insertion step of a stable sort by descending score. */
  function InsertRanked(x: nat, r: seq<nat>, s: seq<Decision>): (q: seq<nat>)
    requires x < |s| && InRange(r, |s|)
    ensures InRange(q, |s|) && multiset(q) == multiset(r) + multiset{x}
  {
    if r == [] then [x]
    else if Outranks(s, r[0], x) then
      var rest := InsertRanked(x, r[1..], s);
      assert r == [r[0]] + r[1..];
      [r[0]] + rest
    else [x] + r
  }

  /** The sort of the infographic decisions by descending score, ties kept in order. */
  function SortRanked(idx: seq<nat>, s: seq<Decision>): (q: seq<nat>)
    requires InRange(idx, |s|)
    ensures InRange(q, |s|) && multiset(q) == multiset(idx)
  {
    if idx == [] then []
    else
      assert idx == idx[..|idx| - 1] + [idx[|idx| - 1]];
      InsertRanked(idx[|idx| - 1], SortRanked(idx[..|idx| - 1], s), s)
  }

  lemma {:induction false} InsertKeepsRanked(x: nat, r: seq<nat>, s: seq<Decision>)
    requires x < |s| && InRange(r, |s|) && Ranked(r, s) && x !in r
    ensures Ranked(InsertRanked(x, r, s), s)
  {
    if r != [] && Outranks(s, r[0], x) {
      assert Ranked(r[1..], s) by {
        forall k, l | 0 <= k < l < |r[1..]| ensures Outranks(s, r[1..][k], r[1..][l]) {
          assert r[1..][k] == r[k + 1] && r[1..][l] == r[l + 1];
        }
      }
      InsertKeepsRanked(x, r[1..], s);
      var rest := InsertRanked(x, r[1..], s);
      var q := [r[0]] + rest;
      forall l | 0 < l < |q| ensures Outranks(s, q[0], q[l]) {
        assert q[l] in multiset(rest);
        assert q[l] in multiset(r[1..]) + multiset{x};
        if q[l] != x {
          assert q[l] in r[1..];
          var l' :| 0 <= l' < |r[1..]| && r[1..][l'] == q[l];
          assert Outranks(s, r[0], r[l' + 1]);
        }
      }
    } else if r != [] {
      forall l | 0 <= l < |r| ensures Outranks(s, x, r[l]) {
        assert Outranks(s, x, r[0]) by {
          assert x != r[0];
        }
        if l > 0 {
          assert Outranks(s, r[0], r[l]);
        }
      }
    }
  }

  lemma {:induction false} SortIsRanked(idx: seq<nat>, s: seq<Decision>)
    requires InRange(idx, |s|)
    requires forall k, l :: 0 <= k < l < |idx| ==> idx[k] != idx[l]
    ensures Ranked(SortRanked(idx, s), s)
  {
    if idx != [] {
      var init := idx[..|idx| - 1];
      var x := idx[|idx| - 1];
      SortIsRanked(init, s);
      var sorted := SortRanked(init, s);
      assert x !in sorted by {
        assert x !in init by {
          forall k | 0 <= k < |init| ensures init[k] != x { assert idx[k] != idx[|idx| - 1]; }
        }
        assert x !in multiset(init);
        assert x !in multiset(sorted);
      }
      InsertKeepsRanked(x, sorted, s);
    }
  }

  /** The infographic positions ranked by descending score, ties by position. */
  function Ranking(s: seq<Decision>): (r: seq<nat>)
    ensures InRange(r, |s|)
  {
    SortRanked(KieIndices(s), s)
  }

  /** The positions held by `r` from rank `lo` up to (not including) rank `hi`. */
  function RankedBetween(r: seq<nat>, lo: nat, hi: nat): set<nat>
    requires hi <= |r|
  {
    set k | lo <= k < hi :: r[k]
  }

  /** The positions ranked beyond the cap. */
  function Dropped(s: seq<Decision>, max: nat): set<nat> {
    var r := Ranking(s);
    if |r| <= max then {} else RankedBetween(r, max, |r|)
  }

  /** What the cap does to one decision. */
  function Downgrade(d: Decision): Decision {
    d.(strategy := NoVisualStrategy, params := None, budgetLimited := true)
  }

  /** The decisions with those at the positions of `drop` downgraded. */
  function DowngradeAt(s: seq<Decision>, drop: set<nat>): (r: seq<Decision>)
    ensures |r| == |s|
  {
    seq(|s|, i requires 0 <= i < |s| => if i in drop then Downgrade(s[i]) else s[i])
  }

  /** The decisions after the cap: the dropped ones downgraded, the rest unchanged. */
  function Optimized(s: seq<Decision>, max: nat): (r: seq<Decision>)
    ensures |r| == |s|
  {
    DowngradeAt(s, Dropped(s, max))
  }

  /** The filter and the sort of `optimizeForBudget`, which leave the decisions alone. */
  method RankInfographics(a: array<Decision>) returns (ranked: seq<nat>)
    ensures ranked == Ranking(a[..])
  {
    var idx: seq<nat> := [];
    var i := 0;
    while i < a.Length
      invariant 0 <= i <= a.Length
      invariant idx == KieIndices(a[..i])
    {
      assert a[..i + 1][..i] == a[..i];
      if a[i].strategy == KieAiStrategy {
        idx := idx + [i];
      }
      i := i + 1;
    }
    assert a[..i] == a[..];
    ranked := SortRanked(idx, a[..]);
  }

  lemma DowngradeOneMore(s: seq<Decision>, drop: set<nat>, j: nat)
    requires j < |s|
    ensures DowngradeAt(s, drop)[j := Downgrade(DowngradeAt(s, drop)[j])] == DowngradeAt(s, drop + {j})
  {
  }

  /** `optimizeForBudget`: downgrades, in place, the infographic decisions ranked beyond `max`. */
  method OptimizeForBudget(a: array<Decision>, max: nat)
    modifies a
    ensures a[..] == Optimized(old(a[..]), max)
  {
    ghost var s := a[..];
    var ranked := RankInfographics(a);
    if |ranked| > max {
      DowngradeRanked(a, ranked, max);
    } else {
      assert a[..] == DowngradeAt(s, {});
    }
  }

  /** The loop of `optimizeForBudget`: every position ranked from `max` on is downgraded. */
  method DowngradeRanked(a: array<Decision>, ranked: seq<nat>, max: nat)
    requires max <= |ranked| && InRange(ranked, a.Length)
    modifies a
    ensures a[..] == DowngradeAt(old(a[..]), RankedBetween(ranked, max, |ranked|))
  {
    ghost var s := a[..];
    var k := max;
    while k < |ranked|
      invariant max <= k <= |ranked|
      invariant a[..] == DowngradeAt(s, RankedBetween(ranked, max, k))
    {
      var j := ranked[k];
      ghost var before := a[..];
      DowngradeOneMore(s, RankedBetween(ranked, max, k), j);
      assert RankedBetween(ranked, max, k + 1) == RankedBetween(ranked, max, k) + {j};
      a[j] := Downgrade(a[j]);
      assert a[..] == before[j := Downgrade(before[j])];
      k := k + 1;
    }
  }

  /** The first n entries of a sequence without repeats are n distinct positions. */
  lemma {:induction false} DistinctCardinality(q: seq<nat>, n: nat)
    requires n <= |q|
    requires forall k, l :: 0 <= k < l < |q| ==> q[k] != q[l]
    ensures |RankedBetween(q, 0, n)| == n
  {
    if n > 0 {
      DistinctCardinality(q, n - 1);
      assert RankedBetween(q, 0, n) == RankedBetween(q, 0, n - 1) + {q[n - 1]};
      assert q[n - 1] !in RankedBetween(q, 0, n - 1);
    }
  }

  /** The positions of the infographic decisions. */
  function KieSet(s: seq<Decision>): set<nat> {
    set i | 0 <= i < |s| && IsKie(s[i])
  }

  /** The count is the number of infographic positions. */
  lemma CountKieIsCardinality(s: seq<Decision>)
    ensures CountKie(s) == |KieSet(s)|
  {
    var idx := KieIndices(s);
    DistinctCardinality(idx, |idx|);
    assert RankedBetween(idx, 0, |idx|) == KieSet(s);
  }

  /** The ranking holds each infographic position once, in ranked order. */
  lemma RankingFacts(s: seq<Decision>)
    ensures Ranked(Ranking(s), s)
    ensures |Ranking(s)| == CountKie(s)
    ensures forall i :: 0 <= i < |s| ==> (IsKie(s[i]) <==> i in Ranking(s))
  {
    var idx := KieIndices(s);
    var r := Ranking(s);
    SortIsRanked(idx, s);
    assert multiset(r) == multiset(idx);
    assert |r| == |multiset(r)| == |multiset(idx)| == |idx|;
    forall i | 0 <= i < |s| ensures IsKie(s[i]) <==> i in r {
      assert i in r <==> i in multiset(r);
      assert i in idx <==> i in multiset(idx);
    }
  }

  /** Ranked order is strict, so a ranking has no repeats. */
  lemma RankedDistinct(r: seq<nat>, s: seq<Decision>)
    requires InRange(r, |s|) && Ranked(r, s)
    ensures forall k, l :: 0 <= k < l < |r| ==> r[k] != r[l]
  {
    forall k, l | 0 <= k < l < |r| ensures r[k] != r[l] {
      assert Outranks(s, r[k], r[l]);
    }
  }

  /** What the cap leaves at one position. */
  lemma OptimizedAt(s: seq<Decision>, max: nat, i: nat)
    requires i < |s|
    ensures IsKie(Optimized(s, max)[i]) <==> IsKie(s[i]) && i !in Dropped(s, max)
  {
  }

  /** The number of ranks the cap keeps. */
  function KeptRanks(s: seq<Decision>, max: nat): nat {
    var n := |Ranking(s)|;
    if n < max then n else max
  }

  lemma {:induction false} KeptAreKie(s: seq<Decision>, max: nat, i: nat)
    requires i in RankedBetween(Ranking(s), 0, KeptRanks(s, max))
    ensures i < |s| && IsKie(Optimized(s, max)[i])
  {
    var r := Ranking(s);
    RankingFacts(s);
    RankedDistinct(r, s);
    var k :| 0 <= k < KeptRanks(s, max) && r[k] == i;
    assert forall l :: max <= l < |r| ==> r[l] != r[k];
    assert i !in Dropped(s, max);
    OptimizedAt(s, max, i);
  }

  lemma {:induction false} KieAreKept(s: seq<Decision>, max: nat, i: nat)
    requires i < |s| && IsKie(Optimized(s, max)[i])
    ensures i in RankedBetween(Ranking(s), 0, KeptRanks(s, max))
  {
    var r := Ranking(s);
    RankingFacts(s);
    OptimizedAt(s, max, i);
    assert i in r;
    var k :| 0 <= k < |r| && r[k] == i;
    assert forall l :: max <= l < |r| ==> r[l] in RankedBetween(r, max, |r|);
  }

  /** After the cap the infographic positions are the first min(count, max) of the ranking. */
  lemma KieSetAfterCap(s: seq<Decision>, max: nat)
    ensures KieSet(Optimized(s, max)) == RankedBetween(Ranking(s), 0, KeptRanks(s, max))
  {
    forall i | i in KieSet(Optimized(s, max)) ensures i in RankedBetween(Ranking(s), 0, KeptRanks(s, max)) {
      KieAreKept(s, max, i);
    }
    forall i | i in RankedBetween(Ranking(s), 0, KeptRanks(s, max)) ensures i in KieSet(Optimized(s, max)) {
      KeptAreKie(s, max, i);
    }
  }

  /**
   * After the cap exactly min(count, max) infographic decisions remain: at
   * most `max`, and none is dropped while the budget has room.
   */
  lemma CapRespected(s: seq<Decision>, max: nat)
    ensures CountKie(Optimized(s, max)) == if CountKie(s) < max then CountKie(s) else max
  {
    var r := Ranking(s);
    RankingFacts(s);
    RankedDistinct(r, s);
    KieSetAfterCap(s, max);
    CountKieIsCardinality(Optimized(s, max));
    DistinctCardinality(r, KeptRanks(s, max));
  }

  /** Every infographic decision that survives the cap outranks every one it drops. */
  lemma KeptOutrankDropped(s: seq<Decision>, max: nat, i: nat, j: nat)
    requires i < |s| && j < |s|
    requires IsKie(Optimized(s, max)[i]) && j in Dropped(s, max)
    ensures Outranks(s, i, j)
    ensures Optimized(s, max)[j] == Downgrade(s[j]) && IsKie(s[j])
  {
    var r := Ranking(s);
    RankingFacts(s);
    KieAreKept(s, max, i);
    var k :| 0 <= k < KeptRanks(s, max) && r[k] == i;
    var l :| max <= l < |r| && r[l] == j;
  }

  // ---------------------------------------------------------------------
  // Presentation

  /** The decisions before any budget cap: one per slide, at its position. */
  function PlannedDecisions(slides: seq<Slide>, colors: ColorOptions, m: Matcher, x: Extractors): (r: seq<Decision>)
    ensures |r| == |slides|
  {
    seq(|slides|, i requires 0 <= i < |slides| => DecisionOf(slides[i], Some(i), colors, None, m, x))
  }

  /** Cost in cents: 5 cents per infographic (`count * 0.05` dollars). */
  function EstimatedCostCents(s: seq<Decision>): (c: nat)
    ensures c == 5 * |KieIndices(s)|
    ensures c % 5 == 0 && c <= 5 * |s|
  {
    CountsPartitionDecisions(s);
    5 * CountKie(s)
  }

  datatype PresentationSummary = PresentationSummary(
    totalSlides: nat, infographicCount: nat, noVisualCount: nat, estimatedCostCents: nat)

  /**
   * `decidePresentationVisuals`: decides every slide, applies the cap when
   * `budget.maxInfographics` is truthy (given and non-zero), and summarises.
   */
  method DecidePresentationVisuals(slides: seq<Slide>, colors: ColorOptions, maxInfographics: Option<nat>,
                                   m: Matcher, x: Extractors)
    returns (decisions: seq<Decision>, summary: PresentationSummary)
    ensures var planned := PlannedDecisions(slides, colors, m, x);
      decisions == if maxInfographics.Some? && maxInfographics.value > 0
                   then Optimized(planned, maxInfographics.value) else planned
    ensures |decisions| == |slides|
    ensures summary.totalSlides == |slides|
    ensures summary.infographicCount == CountKie(decisions)
    ensures summary.infographicCount + summary.noVisualCount == summary.totalSlides
    ensures maxInfographics.Some? && maxInfographics.value > 0 ==> summary.infographicCount <= maxInfographics.value
    ensures summary.estimatedCostCents == 5 * summary.infographicCount
  {
    var planned: seq<Decision> := [];
    var i := 0;
    while i < |slides|
      invariant 0 <= i <= |slides|
      invariant planned == PlannedDecisions(slides, colors, m, x)[..i]
    {
      var d := DecideVisual(slides[i], Some(i), colors, None, m, x);
      planned := planned + [d];
      i := i + 1;
    }
    assert planned == PlannedDecisions(slides, colors, m, x);
    if maxInfographics.Some? && maxInfographics.value > 0 {
      var arr := new Decision[|planned|](k requires 0 <= k < |planned| => planned[k]);
      assert arr[..] == planned;
      OptimizeForBudget(arr, maxInfographics.value);
      decisions := arr[..];
      CapRespected(planned, maxInfographics.value);
    } else {
      decisions := planned;
    }
    CountsPartitionDecisions(decisions);
    summary := PresentationSummary(|decisions|, CountKie(decisions), CountNoVisual(decisions), EstimatedCostCents(decisions));
  }

  // ---------------------------------------------------------------------
  // Validation

  /** The low-score warning; it names the slide and its score. */
  datatype LowScoreWarning = LowScoreWarning(slideIndex: Option<nat>, score: real)

  datatype Validation = Validation(valid: bool, errors: seq<string>, warnings: seq<LowScoreWarning>)

  const MissingKeyError := "缺少 Kie.ai API 金鑰"

  /** `validateDecision`; `kieAiKey` is the `kieAi` entry of the key table, if any. */
  function ValidateDecision(d: Decision, kieAiKey: Option<string>): (v: Validation)
    ensures !v.valid <==> d.strategy == KieAiStrategy && (kieAiKey.None? || kieAiKey.value == "")
    ensures v.valid <==> v.errors == []
    ensures !v.valid ==> v.errors == [MissingKeyError]
    ensures v.warnings != [] <==> d.analysis.matchScore < 1.5 && d.strategy.Source().Some?
    ensures |v.warnings| <= 1
  {
    var missing := d.strategy.Source() == Some("kie-ai") && (kieAiKey.None? || kieAiKey.value == "");
    var errors := if missing then [MissingKeyError] else [];
    var warnings := if d.analysis.matchScore < 1.5 && d.strategy.Source() != None
                    then [LowScoreWarning(d.slideIndex, d.analysis.matchScore)] else [];
    Validation(!missing, errors, warnings)
  }
}
