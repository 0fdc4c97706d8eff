/**
 * The image integrator: picks an HTML slide template, fills its
 * `{{key}}` placeholders from defaults merged with caller data, formats
 * slide content as HTML with escaping, and names the per-slide pages.
 */
module ImageIntegrator {
  import opened Wrappers
  import opened Text
  import opened NodePath

  // ---------------------------------------------------------------------
  // Templates

  /** A template is literal markup interleaved with `{{key}}` placeholders. */
  datatype Segment = Lit(text: string) | Hole(key: string)

  function Placeholder(key: string): (p: string)
    ensures |p| == |key| + 4 && p[0] == '{'
  {
    "{{" + key + "}}"
  }

  function SegmentText(g: Segment): string {
    match g
    case Lit(t) => t
    case Hole(k) => Placeholder(k)
  }

  /** The template text. */
  function Render(segs: seq<Segment>): string {
    if segs == [] then "" else SegmentText(segs[0]) + Render(segs[1..])
  }

  predicate NoBrace(s: string) {
    '{' !in s && '}' !in s
  }

  /** Literal markup holds no `{`, and placeholder keys hold no brace. */
  predicate WellFormed(segs: seq<Segment>) {
    forall i :: 0 <= i < |segs| ==>
      (segs[i].Lit? ==> '{' !in segs[i].text) && (segs[i].Hole? ==> NoBrace(segs[i].key))
  }

  /** Markup without `{`. */
  type Markup = s: string | '{' !in s witness ""

  /** A placeholder key without braces. */
  type Key = s: string | NoBrace(s) witness ""

  const BackgroundColor: Key := "backgroundColor"
  const PrimaryColor: Key := "primaryColor"
  const TitleColor: Key := "titleColor"
  const TextColor: Key := "textColor"
  const TitleKey: Key := "title"
  const ContentKey: Key := "content"
  const ImagePath: Key := "imagePath"
  const AltText: Key := "altText"

  const BodyOpen: Markup := "<body style=\"background: "
  const ImageOpen: Markup := "\"><div class=\"image\"><img src=\""
  const AltOpen: Markup := "\" alt=\""
  const ImageClose: Markup := "\"></div>"
  const HeaderOpen: Markup := "\"><div class=\"header\" style=\"background: "
  const HeadingOpen: Markup := "\"><h1 style=\"color: "
  const TagEnd: Markup := "\">"
  const HeadingClose: Markup := "</h1>"
  const TextOpen: Markup := "<div class=\"text-content\" style=\"color: "
  const DivClose: Markup := "</div>"
  const BodyClose: Markup := "</body>"

  /** An image element with its source and alternative text. */
  function ImageSegments(): seq<Segment> {
    [Lit(ImageOpen), Hole(ImagePath), Lit(AltOpen), Hole(AltText), Lit(ImageClose)]
  }

  /**
   * The four templates, the markup around each placeholder condensed to the
   * element that holds it. Every placeholder of the full document is here,
   * each colour next to the element it styles; in the full documents of
   * `text-image` and `image-text` the colours all sit in the style sheet
   * before the body, so there the order differs. Filling goes key by key,
   * so which keys are filled does not depend on the order.
   */
  function TemplateOf(name: string): Option<seq<Segment>> {
    if name == "full-image" then
      Some([Lit(BodyOpen), Hole(BackgroundColor)] + ImageSegments() + [Lit(BodyClose)])
    else if name == "title-image" then
      Some([Lit(BodyOpen), Hole(BackgroundColor), Lit(HeaderOpen), Hole(PrimaryColor),
            Lit(HeadingOpen), Hole(TitleColor), Lit(TagEnd), Hole(TitleKey), Lit(HeadingClose), Lit(DivClose)]
           + ImageSegments() + [Lit(BodyClose)])
    else if name == "text-image" then
      Some([Lit(BodyOpen), Hole(BackgroundColor), Lit(HeadingOpen), Hole(PrimaryColor),
            Lit(TagEnd), Hole(TitleKey), Lit(HeadingClose), Lit(TextOpen), Hole(TextColor),
            Lit(TagEnd), Hole(ContentKey), Lit(DivClose)]
           + ImageSegments() + [Lit(BodyClose)])
    else if name == "image-text" then
      Some([Lit(BodyOpen), Hole(BackgroundColor)] + ImageSegments()
           + [Lit(HeaderOpen), Hole(PrimaryColor), Lit(HeadingOpen), Hole(TitleColor),
              Lit(TagEnd), Hole(TitleKey), Lit(HeadingClose), Lit(TextOpen), Hole(TextColor),
              Lit(TagEnd), Hole(ContentKey), Lit(DivClose), Lit(DivClose), Lit(BodyClose)])
    else None
  }

  const TemplateNames: seq<string> := ["full-image", "title-image", "text-image", "image-text"]

  /** A literal is markup and a placeholder uses one of the eight keys. */
  predicate TableSegment(g: Segment) {
    (g.Lit? ==> '{' !in g.text)
    && (g.Hole? ==> g.key in {BackgroundColor, PrimaryColor, TitleColor, TextColor, TitleKey, ContentKey, ImagePath, AltText})
  }

  predicate FromTable(segs: seq<Segment>) {
    forall i :: 0 <= i < |segs| ==> TableSegment(segs[i])
  }

  lemma FromTableConcat(a: seq<Segment>, b: seq<Segment>)
    requires FromTable(a) && FromTable(b)
    ensures FromTable(a + b)
  {
    forall i | 0 <= i < |a + b| ensures TableSegment((a + b)[i]) {
      if i < |a| { assert (a + b)[i] == a[i]; } else { assert (a + b)[i] == b[i - |a|]; }
    }
  }

  lemma FromTableWellFormed(segs: seq<Segment>)
    requires FromTable(segs)
    ensures WellFormed(segs)
  {
    forall i | 0 <= i < |segs| ensures segs[i].Hole? ==> NoBrace(segs[i].key) {
      assert TableSegment(segs[i]);
    }
  }

  /** The template table has exactly the four names, each built from markup and the eight keys. */
  lemma TemplateTableKeys(name: string)
    ensures TemplateOf(name).Some? <==> name in TemplateNames
    ensures TemplateOf(name).Some? ==> FromTable(TemplateOf(name).value) && WellFormed(TemplateOf(name).value)
  {
    var img := ImageSegments();
    assert FromTable(img);
    var close := [Lit(BodyClose)];
    assert FromTable(close);
    if name == "full-image" {
      var head := [Lit(BodyOpen), Hole(BackgroundColor)];
      assert FromTable(head);
      FromTableConcat(head, img);
      FromTableConcat(head + img, close);
    } else if name == "title-image" {
      var head := [Lit(BodyOpen), Hole(BackgroundColor), Lit(HeaderOpen), Hole(PrimaryColor),
            Lit(HeadingOpen), Hole(TitleColor), Lit(TagEnd), Hole(TitleKey), Lit(HeadingClose), Lit(DivClose)];
      assert FromTable(head);
      FromTableConcat(head, img);
      FromTableConcat(head + img, close);
    } else if name == "text-image" {
      var head := [Lit(BodyOpen), Hole(BackgroundColor), Lit(HeadingOpen), Hole(PrimaryColor),
            Lit(TagEnd), Hole(TitleKey), Lit(HeadingClose), Lit(TextOpen), Hole(TextColor),
            Lit(TagEnd), Hole(ContentKey), Lit(DivClose)];
      assert FromTable(head);
      FromTableConcat(head, img);
      FromTableConcat(head + img, close);
    } else if name == "image-text" {
      var head := [Lit(BodyOpen), Hole(BackgroundColor)];
      var tail := [Lit(HeaderOpen), Hole(PrimaryColor), Lit(HeadingOpen), Hole(TitleColor),
              Lit(TagEnd), Hole(TitleKey), Lit(HeadingClose), Lit(TextOpen), Hole(TextColor),
              Lit(TagEnd), Hole(ContentKey), Lit(DivClose), Lit(DivClose), Lit(BodyClose)];
      assert FromTable(head) && FromTable(tail);
      FromTableConcat(head, img);
      FromTableConcat(head + img, tail);
    }
    if TemplateOf(name).Some? {
      FromTableWellFormed(TemplateOf(name).value);
    }
  }

  // ---------------------------------------------------------------------
  // Template data: an object is a sequence of key/value entries in insertion order

  type Entries = seq<(string, string)>

  /** Property access: the value of the first entry with that key. */
  function Lookup(es: Entries, key: string): Option<string> {
    if es == [] then None
    else if es[0].0 == key then Some(es[0].1)
    else Lookup(es[1..], key)
  }

  /** The entries of `over` whose key `base` lacks, in order. */
  function NewEntries(over: Entries, base: Entries): (r: Entries)
    ensures forall k :: Lookup(base, k).None? ==> Lookup(r, k) == Lookup(over, k)
  {
    if over == [] then []
    else if Lookup(base, over[0].0).Some? then NewEntries(over[1..], base)
    else [over[0]] + NewEntries(over[1..], base)
  }

  /** Object spread `{ ...base, ...over }`: base keys keep their place, `over` values win. */
  function Merge(base: Entries, over: Entries): Entries {
    seq(|base|, i requires 0 <= i < |base| => (base[i].0, Lookup(over, base[i].0).GetOr(base[i].1)))
    + NewEntries(over, base)
  }

  lemma {:induction false} LookupOverridden(base: Entries, over: Entries, key: string)
    requires Lookup(base, key).Some?
    ensures Lookup(seq(|base|, i requires 0 <= i < |base| => (base[i].0, Lookup(over, base[i].0).GetOr(base[i].1))), key)
         == Some(Lookup(over, key).GetOr(Lookup(base, key).value))
  {
    var m := seq(|base|, i requires 0 <= i < |base| => (base[i].0, Lookup(over, base[i].0).GetOr(base[i].1)));
    if base[0].0 != key {
      LookupOverridden(base[1..], over, key);
      assert m[1..] == seq(|base[1..]|, i requires 0 <= i < |base[1..]| =>
        (base[1..][i].0, Lookup(over, base[1..][i].0).GetOr(base[1..][i].1)));
    }
  }

  lemma {:induction false} LookupPastAbsent(front: Entries, back: Entries, key: string)
    requires Lookup(front, key).None?
    ensures Lookup(front + back, key) == Lookup(back, key)
  {
    if front != [] {
      assert (front + back)[0] == front[0];
      assert (front + back)[1..] == front[1..] + back;
      LookupPastAbsent(front[1..], back, key);
    } else {
      assert front + back == back;
    }
  }

  lemma {:induction false} LookupFirstWins(front: Entries, back: Entries, key: string)
    requires Lookup(front, key).Some?
    ensures Lookup(front + back, key) == Lookup(front, key)
  {
    assert (front + back)[0] == front[0];
    if front[0].0 != key {
      assert (front + back)[1..] == front[1..] + back;
      LookupFirstWins(front[1..], back, key);
    }
  }

  lemma {:induction false} SameKeysSameAbsence(base: Entries, over: Entries, key: string)
    requires Lookup(base, key).None?
    ensures Lookup(seq(|base|, i requires 0 <= i < |base| => (base[i].0, Lookup(over, base[i].0).GetOr(base[i].1))), key).None?
  {
    var m := seq(|base|, i requires 0 <= i < |base| => (base[i].0, Lookup(over, base[i].0).GetOr(base[i].1)));
    if base != [] {
      SameKeysSameAbsence(base[1..], over, key);
      assert m[1..] == seq(|base[1..]|, i requires 0 <= i < |base[1..]| =>
        (base[1..][i].0, Lookup(over, base[1..][i].0).GetOr(base[1..][i].1)));
    }
  }

  /** Caller data overrides a default; a key the caller leaves out keeps its default. */
  lemma MergeLookup(base: Entries, over: Entries, key: string)
    ensures Lookup(Merge(base, over), key) == if Lookup(over, key).Some? then Lookup(over, key) else Lookup(base, key)
  {
    var m := seq(|base|, i requires 0 <= i < |base| => (base[i].0, Lookup(over, base[i].0).GetOr(base[i].1)));
    if Lookup(base, key).Some? {
      LookupOverridden(base, over, key);
      LookupFirstWins(m, NewEntries(over, base), key);
    } else {
      SameKeysSameAbsence(base, over, key);
      LookupPastAbsent(m, NewEntries(over, base), key);
    }
  }

  /** The defaults of `generateHTML`. */
  const Defaults: Entries := [
    (BackgroundColor, "#FFFFFF"), (PrimaryColor, "#1E5128"), (TitleColor, "#FFFFFF"),
    (TextColor, "#333333"), (TitleKey, ""), (ContentKey, ""), (ImagePath, ""), (AltText, "投影片圖片")]

  /** Every key a template uses has a default. */
  lemma DefaultsCoverTemplateKeys(key: string)
    requires key in {BackgroundColor, PrimaryColor, TitleColor, TextColor, TitleKey, ContentKey, ImagePath, AltText}
    ensures Lookup(Defaults, key).Some?
  {
    var i := if key == BackgroundColor then 0 else if key == PrimaryColor then 1
      else if key == TitleColor then 2 else if key == TextColor then 3
      else if key == TitleKey then 4 else if key == ContentKey then 5
      else if key == ImagePath then 6 else 7;
    KeyPresentAt(Defaults, i, key);
  }

  lemma {:induction false} KeyPresentAt(es: Entries, i: nat, key: string)
    requires i < |es| && es[i].0 == key
    ensures Lookup(es, key).Some?
  {
    if i > 0 && es[0].0 != key {
      KeyPresentAt(es[1..], i - 1, key);
    }
  }

  // ---------------------------------------------------------------------
  // Substitution

  /** `s.replace(/pat/g, val)` with a literal pattern and a literal replacement. */
  function ReplaceAll(s: string, pat: string, val: string): string
    requires pat != []
    decreases |s|
  {
    if s == [] then []
    else if pat <= s then val + ReplaceAll(s[|pat|..], pat, val)
    else [s[0]] + ReplaceAll(s[1..], pat, val)
  }

  /** The loop of `generateHTML`: one global replacement per entry, in entry order. */
  function ReplaceEach(s: string, es: Entries): string
    decreases |es|
  {
    if es == [] then s else ReplaceEach(ReplaceAll(s, Placeholder(es[0].0), es[0].1), es[1..])
  }

  /** `generateHTML`; an unknown template name is an error. */
  method GenerateHtml(name: string, data: Entries) returns (r: Result<string>)
    ensures TemplateOf(name).None? <==> r.Err?
    ensures r.Err? ==> r.error == "未知的模板: " + name
    ensures r.Ok? ==> r.value == ReplaceEach(Render(TemplateOf(name).value), Merge(Defaults, data))
  {
    var t := TemplateOf(name);
    if t.None? {
      return Err("未知的模板: " + name);
    }
    var template := Render(t.value);
    var finalData := Merge(Defaults, data);
    var i := 0;
    while i < |finalData|
      invariant 0 <= i <= |finalData|
      invariant ReplaceEach(template, finalData[i..]) == ReplaceEach(Render(t.value), finalData)
    {
      assert finalData[i..][1..] == finalData[i + 1..];
      template := ReplaceAll(template, Placeholder(finalData[i].0), finalData[i].1);
      i := i + 1;
    }
    r := Ok(template);
  }

  /** The placeholders of one key turned into literal text. */
  function SubstOne(segs: seq<Segment>, key: string, val: string): (r: seq<Segment>)
    ensures |r| == |segs|
  {
    seq(|segs|, i requires 0 <= i < |segs| => if segs[i] == Hole(key) then Lit(val) else segs[i])
  }

  /** Every placeholder whose key has an entry turned into that entry's value. */
  function Fill(segs: seq<Segment>, es: Entries): (r: seq<Segment>)
    ensures |r| == |segs|
  {
    seq(|segs|, i requires 0 <= i < |segs| =>
      if segs[i].Hole? && Lookup(es, segs[i].key).Some? then Lit(Lookup(es, segs[i].key).value) else segs[i])
  }

  /** A scan for a pattern starting with `{` passes over text without `{` unchanged. */
  lemma {:induction false} ReplaceSkips(a: string, b: string, pat: string, val: string)
    requires pat != [] && pat[0] == '{' && '{' !in a
    ensures ReplaceAll(a + b, pat, val) == a + ReplaceAll(b, pat, val)
  {
    if a != [] {
      assert (a + b)[0] == a[0];
      assert !(pat <= a + b);
      assert (a + b)[1..] == a[1..] + b;
      ReplaceSkips(a[1..], b, pat, val);
      assert a == [a[0]] + a[1..];
    } else {
      assert a + b == b;
    }
  }

  /** A placeholder is replaced exactly when its key is the one being replaced. */
  lemma ReplaceAtHole(h: string, b: string, key: string, val: string)
    requires NoBrace(h) && NoBrace(key)
    ensures ReplaceAll(Placeholder(h) + b, Placeholder(key), val)
         == (if h == key then val else Placeholder(h)) + ReplaceAll(b, Placeholder(key), val)
  {
    if h == key {
      var s := Placeholder(h) + b;
      assert Placeholder(key) <= s;
      assert s[|Placeholder(key)|..] == b;
    } else {
      ReplacePassesOtherHole(h, b, key, val);
    }
  }

  lemma ReplacePassesOtherHole(h: string, b: string, key: string, val: string)
    requires NoBrace(h) && NoBrace(key) && h != key
    ensures ReplaceAll(Placeholder(h) + b, Placeholder(key), val)
         == Placeholder(h) + ReplaceAll(b, Placeholder(key), val)
  {
    var s := Placeholder(h) + b;
    var p := Placeholder(key);
    OtherPlaceholderMismatch(h, b, key);
    var s1 := s[1..];
    assert s1 == "{" + h + "}}" + b;
    assert !(p <= s1) by {
      assert p[1] == '{';
      if h != [] { assert s1[1] == h[0]; } else { assert s1[1] == '}'; }
    }
    assert s1[1..] == h + "}}" + b;
    assert '{' !in h + "}}";
    ReplaceSkips(h + "}}", b, p, val);
    assert s[..1] + s1[..1] + h + "}}" == Placeholder(h);
  }

  /** The placeholder of one key does not start the placeholder of another. */
  lemma OtherPlaceholderMismatch(h: string, b: string, key: string)
    requires NoBrace(h) && NoBrace(key) && h != key
    ensures !(Placeholder(key) <= Placeholder(h) + b)
  {
    var s := Placeholder(h) + b;
    var p := Placeholder(key);
    if |key| < |h| {
      assert p[2 + |key|] == '}' && s[2 + |key|] == h[|key|];
    } else if |key| > |h| {
      assert p[2 + |h|] == key[|h|] && s[2 + |h|] == '}';
    } else {
      var j :| 0 <= j < |h| && h[j] != key[j];
      assert p[2 + j] == key[j] && s[2 + j] == h[j];
    }
  }

  lemma {:induction false} ReplaceInRender(segs: seq<Segment>, key: string, val: string)
    requires WellFormed(segs) && NoBrace(key) && '{' !in val
    ensures ReplaceAll(Render(segs), Placeholder(key), val) == Render(SubstOne(segs, key, val))
  {
    if segs != [] {
      var rest := segs[1..];
      assert WellFormed(rest) by {
        forall i | 0 <= i < |rest| ensures (rest[i].Lit? ==> '{' !in rest[i].text) && (rest[i].Hole? ==> NoBrace(rest[i].key)) {
          assert rest[i] == segs[i + 1];
        }
      }
      ReplaceInRender(rest, key, val);
      assert SubstOne(segs, key, val)[1..] == SubstOne(rest, key, val);
      match segs[0]
      case Lit(t) =>
        assert '{' !in t by { assert segs[0].Lit?; }
        ReplaceSkips(t, Render(rest), Placeholder(key), val);
      case Hole(h) =>
        assert NoBrace(h) by { assert segs[0].Hole?; }
        ReplaceAtHole(h, Render(rest), key, val);
    }
  }

  predicate BraceFreeEntries(es: Entries) {
    forall i :: 0 <= i < |es| ==> NoBrace(es[i].0) && '{' !in es[i].1
  }

  /**
   * The sequential replacement loop is the same as filling every placeholder
   * at once, when neither keys nor values hold a brace.
   */
  lemma {:induction false} ReplaceEachIsFill(segs: seq<Segment>, es: Entries)
    requires WellFormed(segs) && BraceFreeEntries(es)
    ensures ReplaceEach(Render(segs), es) == Render(Fill(segs, es))
    decreases |es|
  {
    if es != [] {
      var (k, v) := es[0];
      assert NoBrace(k) && '{' !in v by { assert es[0].0 == k && es[0].1 == v; }
      ReplaceInRender(segs, k, v);
      var segs1 := SubstOne(segs, k, v);
      assert WellFormed(segs1);
      assert BraceFreeEntries(es[1..]) by {
        forall i | 0 <= i < |es[1..]| ensures NoBrace(es[1..][i].0) && '{' !in es[1..][i].1 {
          assert es[1..][i] == es[i + 1];
        }
      }
      ReplaceEachIsFill(segs1, es[1..]);
      assert Fill(segs1, es[1..]) == Fill(segs, es);
    } else {
      assert Fill(segs, es) == segs;
    }
  }

  /** Merging brace-free entries gives brace-free entries. */
  lemma MergeBraceFree(base: Entries, over: Entries)
    requires BraceFreeEntries(base) && BraceFreeEntries(over)
    ensures BraceFreeEntries(Merge(base, over))
  {
    var m := Merge(base, over);
    forall i | 0 <= i < |m| ensures NoBrace(m[i].0) && '{' !in m[i].1 {
      if i < |base| {
        assert m[i].0 == base[i].0;
        if Lookup(over, base[i].0).Some? {
          LookupIsEntry(over, base[i].0);
        }
      } else {
        NewEntriesAreEntries(over, base, m[i]);
      }
    }
  }

  lemma DefaultsBraceFree()
    ensures BraceFreeEntries(Defaults)
  {
    assert '{' !in "#1E5128" && '{' !in "#FFFFFF" && '{' !in "#333333" && '{' !in "投影片圖片";
  }

  lemma {:induction false} LookupIsEntry(es: Entries, key: string)
    requires Lookup(es, key).Some?
    ensures exists i :: 0 <= i < |es| && es[i] == (key, Lookup(es, key).value)
  {
    if es[0].0 != key {
      LookupIsEntry(es[1..], key);
      var i :| 0 <= i < |es[1..]| && es[1..][i] == (key, Lookup(es, key).value);
      assert es[i + 1] == es[1..][i];
    } else {
      assert es[0] == (key, Lookup(es, key).value);
    }
  }

  lemma {:induction false} NewEntriesAreEntries(over: Entries, base: Entries, e: (string, string))
    requires e in NewEntries(over, base)
    ensures e in over
  {
    if over != [] {
      if e != over[0] || Lookup(base, over[0].0).Some? {
        NewEntriesAreEntries(over[1..], base, e);
      }
    }
  }

  /** Each placeholder of a template shows the caller's value for its key, or the default. */
  lemma TemplateHolesFilled(t: seq<Segment>, data: Entries)
    requires FromTable(t)
    ensures forall i :: 0 <= i < |t| && t[i].Hole? ==>
      Lookup(Defaults, t[i].key).Some?
      && Fill(t, Merge(Defaults, data))[i] == Lit(Lookup(data, t[i].key).GetOr(Lookup(Defaults, t[i].key).value))
  {
    forall i | 0 <= i < |t| && t[i].Hole?
      ensures Lookup(Defaults, t[i].key).Some?
        && Fill(t, Merge(Defaults, data))[i] == Lit(Lookup(data, t[i].key).GetOr(Lookup(Defaults, t[i].key).value))
    {
      DefaultsCoverTemplateKeys(t[i].key);
      MergeLookup(Defaults, data, t[i].key);
    }
  }

  lemma FilledTemplateBraceFree(t: seq<Segment>, data: Entries)
    requires FromTable(t) && BraceFreeEntries(data)
    ensures '{' !in Render(Fill(t, Merge(Defaults, data)))
  {
    var m := Merge(Defaults, data);
    DefaultsBraceFree();
    MergeBraceFree(Defaults, data);
    var f := Fill(t, m);
    forall i | 0 <= i < |f| ensures f[i].Lit? && '{' !in f[i].text {
      if t[i].Hole? {
        DefaultsCoverTemplateKeys(t[i].key);
        MergeLookup(Defaults, data, t[i].key);
        LookupIsEntry(m, t[i].key);
      }
    }
    RenderOfLiterals(f);
  }

  /**
   * With brace-free caller data, the generated page is the template with
   * every placeholder filled at once (each key has a default), so the
   * result holds no `{` at all.
   */
  lemma GeneratedPageIsFilled(name: string, data: Entries)
    requires TemplateOf(name).Some? && BraceFreeEntries(data)
    ensures var t := TemplateOf(name).value;
      var html := ReplaceEach(Render(t), Merge(Defaults, data));
      html == Render(Fill(t, Merge(Defaults, data))) && '{' !in html
  {
    var t := TemplateOf(name).value;
    TemplateTableKeys(name);
    DefaultsBraceFree();
    MergeBraceFree(Defaults, data);
    ReplaceEachIsFill(t, Merge(Defaults, data));
    FilledTemplateBraceFree(t, data);
  }

  lemma {:induction false} RenderOfLiterals(segs: seq<Segment>)
    requires forall i :: 0 <= i < |segs| ==> segs[i].Lit? && '{' !in segs[i].text
    ensures '{' !in Render(segs)
  {
    if segs != [] {
      RenderOfLiterals(segs[1..]);
    }
  }

  // ---------------------------------------------------------------------
  // Slides and content

  /** A JavaScript slide field: absent, a string, an array of strings, or another value. */
  datatype Content = Absent | Text(s: string) | Items(items: seq<string>) | OtherValue(truthy: bool) {
    predicate Truthy() {
      match this
      case Absent => false
      case Text(s) => s != ""
      case Items(_) => true
      case OtherValue(t) => t
    }
  }

  datatype SlideData = SlideData(title: Option<string>, content: Content, visualType: Option<string>, imagePath: Option<string>)

  predicate Truthy(v: Option<string>) {
    v.Some? && v.value != ""
  }

  /** `selectTemplate`: the first rule that applies decides. */
  function SelectTemplate(slide: SlideData): (name: string)
    ensures name in TemplateNames
    ensures slide.visualType == Some("infographic") && !slide.content.Truthy() ==> name == "title-image"
    ensures name == "text-image" <==> (Truthy(slide.title) && slide.content.Truthy())
    ensures name == "full-image" <==> (!Truthy(slide.title) && !(slide.visualType == Some("infographic") && !slide.content.Truthy()))
  {
    if slide.visualType == Some("infographic") && !slide.content.Truthy() then "title-image"
    else if Truthy(slide.title) && slide.content.Truthy() then "text-image"
    else if Truthy(slide.title) then "title-image"
    else "full-image"
  }

  /** The page of a selected template always generates. */
  lemma SelectedTemplateExists(slide: SlideData)
    ensures TemplateOf(SelectTemplate(slide)).Some?
    ensures SelectTemplate(slide) != "image-text"
  {
    TemplateTableKeys(SelectTemplate(slide));
  }

  function EscapeChar(c: char): string {
    if c == '&' then "&amp;"
    else if c == '<' then "&lt;"
    else if c == '>' then "&gt;"
    else if c == '"' then "&quot;"
    else if c == '\'' then "&#039;"
    else [c]
  }

  /** `escapeHtml`: the five special characters become entities, all others stay. */
  function EscapeHtml(s: string): (r: string)
    ensures '<' !in r && '>' !in r && '"' !in r && '\'' !in r
    ensures ('&' !in s && '<' !in s && '>' !in s && '"' !in s && '\'' !in s) ==> r == s
  {
    if s == [] then [] else EscapeCharSafe(s[0]); EscapeChar(s[0]) + EscapeHtml(s[1..])
  }

  /** An escaped character holds no special character other than the `&` of an entity. */
  lemma EscapeCharSafe(c: char)
    ensures '<' !in EscapeChar(c) && '>' !in EscapeChar(c) && '"' !in EscapeChar(c) && '\'' !in EscapeChar(c)
    ensures c != '&' && c != '<' && c != '>' && c != '"' && c != '\'' ==> EscapeChar(c) == [c]
  {
    var e := EscapeChar(c);
    assert forall i :: 0 <= i < |e| ==> e[i] != '<' && e[i] != '>' && e[i] != '"' && e[i] != '\'';
  }

  /** Decodes the five entities `EscapeHtml` produces. */
  function UnescapeHtml(s: string): string
    decreases |s|
  {
    if s == [] then []
    else if s[0] != '&' then [s[0]] + UnescapeHtml(s[1..])
    else if "&amp;" <= s then "&" + UnescapeHtml(s[5..])
    else if "&lt;" <= s then "<" + UnescapeHtml(s[4..])
    else if "&gt;" <= s then ">" + UnescapeHtml(s[4..])
    else if "&quot;" <= s then "\"" + UnescapeHtml(s[6..])
    else if "&#039;" <= s then "'" + UnescapeHtml(s[6..])
    else [s[0]] + UnescapeHtml(s[1..])
  }

  lemma UnescapeEscapedChar(c: char, rest: string)
    ensures UnescapeHtml(EscapeChar(c) + rest) == [c] + UnescapeHtml(rest)
  {
    var s := EscapeChar(c) + rest;
    if c == '&' {
      assert "&amp;" <= s && s[5..] == rest;
    } else if c == '<' {
      assert s[1] == 'l' && "&lt;" <= s && s[4..] == rest;
    } else if c == '>' {
      assert s[1] == 'g' && "&gt;" <= s && s[4..] == rest;
    } else if c == '"' {
      assert s[1] == 'q' && "&quot;" <= s && s[6..] == rest;
    } else if c == '\'' {
      assert s[1] == '#' && "&#039;" <= s && s[6..] == rest;
    } else {
      assert s[0] == c && s[1..] == rest;
    }
  }

  /** Escaping loses nothing: decoding the entities gives the text back. */
  lemma {:induction false} EscapeRoundTrip(s: string)
    ensures UnescapeHtml(EscapeHtml(s)) == s
  {
    if s != [] {
      EscapeRoundTrip(s[1..]);
      UnescapeEscapedChar(s[0], EscapeHtml(s[1..]));
      assert s == [s[0]] + s[1..];
    }
  }

  function ListItem(item: string): string {
    "<li>" + EscapeHtml(item) + "</li>"
  }

  /** `<ul>` with one escaped `<li>` per item, one per line. */
  function ListHtml(items: seq<string>): string {
    "<ul>\n" + Join(seq(|items|, i requires 0 <= i < |items| => ListItem(items[i])), "\n") + "\n</ul>"
  }

  /** The lines whose trimmed text is not empty, in order. */
  function NonBlankLines(lines: seq<string>): (r: seq<string>)
    ensures |r| <= |lines|
    ensures forall k :: 0 <= k < |r| ==> r[k] in lines && TrimJs(r[k]) != ""
  {
    if lines == [] then []
    else
      var rest := NonBlankLines(lines[1..]);
      if TrimJs(lines[0]) != "" then [lines[0]] + rest else rest
  }

  /** One bullet line: a leading `•` or `-` and the whitespace after it dropped, then trimmed. */
  function StripBullet(line: string): string {
    TrimJs(if line != [] && (line[0] == '•' || line[0] == '-') then TrimStart(line[1..], IsJsSpace) else line)
  }

  /** The items of bullet-formatted text. */
  function BulletItems(s: string): (r: seq<string>)
    ensures |r| <= CountChar(s, '\n') + 1
  {
    var lines := NonBlankLines(SplitOn(s, '\n'));
    seq(|lines|, k requires 0 <= k < |lines| => StripBullet(lines[k]))
  }

  /** Every bullet item is one trimmed line. */
  lemma BulletItemsAreTrimmedLines(s: string)
    ensures forall k :: 0 <= k < |BulletItems(s)| ==>
      '\n' !in BulletItems(s)[k]
      && (BulletItems(s)[k] == [] || (!IsJsSpace(BulletItems(s)[k][0]) && !IsJsSpace(BulletItems(s)[k][|BulletItems(s)[k]| - 1])))
  {
    var lines := NonBlankLines(SplitOn(s, '\n'));
    forall k | 0 <= k < |lines| ensures '\n' !in StripBullet(lines[k]) {
      var line := lines[k];
      assert '\n' !in line;
      var inner := if line != [] && (line[0] == '•' || line[0] == '-') then TrimStart(line[1..], IsJsSpace) else line;
      assert '\n' !in inner;
      TrimKeepsAbsentChars(inner, IsJsSpace, '\n');
    }
  }

  predicate HasBullets(s: string) {
    Contains(s, "\n•") || Contains(s, "\n-")
  }

  /** `formatContent`. */
  function FormatContent(c: Content): (r: string)
    ensures !c.Truthy() ==> r == ""
    ensures c.OtherValue? ==> r == ""
    ensures c.Items? ==> r == ListHtml(c.items)
    ensures c.Text? && c.Truthy() && HasBullets(c.s) ==> r == ListHtml(BulletItems(c.s))
    ensures c.Text? && c.Truthy() && !HasBullets(c.s) ==> r == "<p>" + EscapeHtml(c.s) + "</p>"
  {
    if !c.Truthy() then ""
    else match c
      case Items(items) => ListHtml(items)
      case Text(s) => if HasBullets(s) then ListHtml(BulletItems(s)) else "<p>" + EscapeHtml(s) + "</p>"
      case _ => ""
  }

  /** A paragraph holds the escaped text and nothing else: its inside decodes back to the text. */
  lemma ParagraphRoundTrip(s: string)
    requires s != "" && !HasBullets(s)
    ensures var r := FormatContent(Text(s));
      |r| >= 7 && UnescapeHtml(r[3..|r| - 4]) == s && '<' !in r[3..|r| - 4]
  {
    var r := FormatContent(Text(s));
    assert r[3..|r| - 4] == EscapeHtml(s);
    EscapeRoundTrip(s);
  }

  // ---------------------------------------------------------------------
  // Pages of a presentation

  /** The page file of slide i (from 0): the prefix, i + 1 on at least two digits, `.html`, joined as Node's `path.join` does. */
  function PagePath(outputDir: string, prefix: string, i: nat): string {
    JoinNode(outputDir, prefix + TwoDigits(i + 1) + ".html")
  }

  /** What `path.join` throws for an `outputDir` that is not given. */
  const MissingDirError: string := "The \"path\" argument must be of type string. Received undefined"

  /** The page written for slide `i`: none without an image path, else its page path. */
  function SlidePage(slide: SlideData, dir: string, prefix: string, i: nat): Option<string> {
    if Truthy(slide.imagePath) then Some(PagePath(dir, prefix, i)) else None
  }

  /** `f` applied to each element and its position, in order. */
  function MapIndexed<T, U>(s: seq<T>, f: (T, nat) -> U): seq<U> {
    if s == [] then [] else MapIndexed(s[..|s| - 1], f) + [f(s[|s| - 1], |s| - 1)]
  }

  lemma {:induction false} MapIndexedAt<T, U>(s: seq<T>, f: (T, nat) -> U)
    ensures |MapIndexed(s, f)| == |s|
    ensures forall i :: 0 <= i < |s| ==> MapIndexed(s, f)[i] == f(s[i], i)
  {
    if s != [] {
      var init := s[..|s| - 1];
      MapIndexedAt(init, f);
      assert forall i :: 0 <= i < |init| ==> s[i] == init[i];
    }
  }

  /**
   * `integrateMultipleImages`: one entry per slide, a page path only for
   * slides with an image. The prefix defaults to `slide`; without an output
   * directory the first slide with an image makes `path.join` throw.
   */
  method IntegrateMultipleImages(slides: seq<SlideData>, outputDir: Option<string>, filePrefix: Option<string>)
    returns (r: Result<seq<Option<string>>>)
    ensures r.Err? <==> outputDir.None? && exists i :: 0 <= i < |slides| && Truthy(slides[i].imagePath)
    ensures r.Err? ==> r.error == MissingDirError
    ensures r.Ok? ==> |r.value| == |slides| && forall i :: 0 <= i < |slides| ==>
      r.value[i] == SlidePage(slides[i], outputDir.GetOr(""), filePrefix.GetOr("slide"), i)
  {
    var dir, prefix := outputDir.GetOr(""), filePrefix.GetOr("slide");
    var page := (slide: SlideData, k: nat) => SlidePage(slide, dir, prefix, k);
    var results := [];
    var i := 0;
    while i < |slides|
      invariant 0 <= i <= |slides|
      invariant results == MapIndexed(slides[..i], page)
      invariant outputDir.None? ==> forall j :: 0 <= j < i ==> !Truthy(slides[j].imagePath)
    {
      if Truthy(slides[i].imagePath) {
        if outputDir.None? {
          return Err(MissingDirError);
        }
      }
      assert slides[..i + 1][..i] == slides[..i];
      results := results + [page(slides[i], i)];
      i := i + 1;
    }
    assert slides[..i] == slides;
    MapIndexedAt(slides, page);
    return Ok(results);
  }

  /** Different slides get different page files, and the number in the name is the slide's position + 1. */
  lemma PagePathsDistinct(outputDir: string, prefix: string, i: nat, j: nat)
    requires i != j
    ensures PagePath(outputDir, prefix, i) != PagePath(outputDir, prefix, j)
    ensures DigitsValue(TwoDigits(i + 1)) == i + 1
  {
    var a, b := PageName(i), PageName(j);
    PageNameIsPlain(i);
    PageNameIsPlain(j);
    assert a[..|a| - 5] == TwoDigits(i + 1) && b[..|b| - 5] == TwoDigits(j + 1);
    assert prefix + TwoDigits(i + 1) + ".html" == prefix + a;
    assert prefix + TwoDigits(j + 1) + ".html" == prefix + b;
    JoinNodeTailsDistinct(outputDir, prefix, a, b);
  }

  /** The part of a page file name after the prefix. */
  function PageName(i: nat): string {
    TwoDigits(i + 1) + ".html"
  }

  /** A page name is a plain file name: not empty, without `/`, not ending in `.`. */
  lemma PageNameIsPlain(i: nat)
    ensures PageName(i) != [] && '/' !in PageName(i) && PageName(i)[|PageName(i)| - 1] != '.'
  {
    var d := TwoDigits(i + 1);
    assert forall k :: 0 <= k < |d| ==> IsDigit(d[k]);
  }

  /**
   * The page path is normalised: a `./` in front of the directory, a
   * trailing `/` on it, or a `/` at the start of the prefix changes nothing.
   */
  lemma PagePathNormalised(dir: string, prefix: string, i: nat)
    ensures dir != [] && dir[0] != '/' ==> PagePath("./" + dir, prefix, i) == PagePath(dir, prefix, i)
    ensures dir != [] ==> PagePath(dir + "/", prefix, i) == PagePath(dir, prefix, i)
    ensures dir != [] ==> PagePath(dir, "/" + prefix, i) == PagePath(dir, prefix, i)
  {
    var tail := PageName(i);
    PageNameIsPlain(i);
    assert prefix + TwoDigits(i + 1) + ".html" == prefix + tail;
    assert "/" + prefix + TwoDigits(i + 1) + ".html" == ("/" + prefix) + tail;
    JoinNodeKeepsTail(dir, prefix, tail);
    JoinNodeKeepsTail("./" + dir, prefix, tail);
    JoinNodeKeepsTail(dir + "/", prefix, tail);
    JoinNodeKeepsTail(dir, "/" + prefix, tail);
    if dir != [] {
      StemIgnoresTrailingSlash(dir, prefix);
      StemIgnoresSlashPrefix(dir, prefix);
      if dir[0] != '/' {
        StemIgnoresDotDir(dir, prefix);
      }
    }
  }
}
