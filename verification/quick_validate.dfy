/**
 * The skill validator: an ordered chain of checks over the text of a
 * skill's SKILL.md, the first failing check deciding the message.
 */
module QuickValidate {
  import opened Wrappers
  import opened Text

  datatype Verdict = Verdict(valid: bool, message: string)

  const MissingFile := "找不到 SKILL.md"
  const NoFrontmatter := "找不到 YAML 前置資料"
  const BadFrontmatter := "前置資料格式無效"
  const MissingName := "前置資料中缺少 'name'"
  const MissingDescription := "前置資料中缺少 'description'"
  const AngleBrackets := "描述不能包含角括號（< 或 >）"
  const Passed := "Skill 驗證通過！"

  function BadNameFormat(name: string): string {
    "名稱 '" + name + "' 應為連字號分隔格式（僅限小寫字母、數字和連字號）"
  }

  function BadHyphens(name: string): string {
    "名稱 '" + name + "' 不能以連字號開頭/結尾或包含連續連字號"
  }

  /** The first index at or after `from` where `pat` occurs. */
  function FindFrom(s: string, pat: string, from: nat): (r: Option<nat>)
    ensures r.Some? ==> from <= r.value && OccursAt(s, pat, r.value)
    ensures r.Some? ==> forall j :: from <= j < r.value ==> !OccursAt(s, pat, j)
    ensures r.None? ==> forall j :: from <= j ==> !OccursAt(s, pat, j)
    decreases |s| - from
  {
    if from + |pat| > |s| then None
    else if s[from..from + |pat|] == pat then Some(from)
    else FindFrom(s, pat, from + 1)
  }

  /** The search finds an occurrence that nothing precedes. */
  lemma FindFromFirst(s: string, pat: string, p: nat)
    requires OccursAt(s, pat, p)
    requires forall j :: 0 <= j < p ==> !OccursAt(s, pat, j)
    ensures FindFrom(s, pat, 0) == Some(p)
  {
  }

  /**
   * `re.match(r'^---\n(.*?)\n---', content, re.DOTALL)`: the text opens
   * with `---` and a newline, and the group is the shortest stretch that is
   * followed by a newline and `---`.
   */
  function Frontmatter(content: string): (r: Option<string>)
    ensures r.Some? ==> "---\n" + r.value + "\n---" <= content
    ensures r.Some? ==> !Contains(r.value + "\n--", "\n---")
  {
    if !("---\n" <= content) then None
    else match FindFrom(content, "\n---", 4)
      case None => None
      case Some(i) =>
        var fm := content[4..i];
        assert content[..4] == "---\n" && content[i..i + 4] == "\n---";
        assert content[..i + 4] == "---\n" + fm + "\n---";
        NoEarlierEnd(content, fm, i);
        Some(fm)
  }

  lemma NoEarlierEnd(content: string, fm: string, i: nat)
    requires 4 <= i && i + 4 <= |content| && fm == content[4..i]
    requires forall j :: 4 <= j < i ==> !OccursAt(content, "\n---", j)
    requires content[i..i + 4] == "\n---"
    ensures !Contains(fm + "\n--", "\n---")
  {
    var t := fm + "\n--";
    assert content[i..i + 3] == "\n--" by {
      assert content[i] == '\n' && content[i + 1] == '-' && content[i + 2] == '-' by {
        assert content[i..i + 4][0] == content[i];
        assert content[i..i + 4][1] == content[i + 1];
        assert content[i..i + 4][2] == content[i + 2];
      }
    }
    assert t == content[4..i + 3] by {
      assert content[4..i + 3] == content[4..i] + content[i..i + 3];
    }
    forall k | 0 <= k <= |t| - 4 ensures !OccursAt(t, "\n---", k) {
      assert t[k..k + 4] == content[4..i + 3][k..k + 4] == content[4 + k..4 + k + 4];
      assert !OccursAt(content, "\n---", 4 + k);
    }
    NoOccurrence(t, "\n---");
  }

  /** The text up to its first newline (what `.+` takes). */
  function TakeLine(s: string): (r: string)
    ensures r <= s && '\n' !in r
    ensures |r| == |s| || s[|r|] == '\n'
  {
    if s == [] || s[0] == '\n' then [] else [s[0]] + TakeLine(s[1..])
  }

  /** Some character of `s` is not a newline. */
  predicate HasNonNewline(s: string) {
    exists j :: 0 <= j < |s| && s[j] != '\n'
  }

  /**
   * `re.search(key + r'\s*(.+)', text).group(1).strip()`. The search starts
   * at the first occurrence of `key`. The greedy `\s*` takes the whole
   * whitespace run after it, and `(.+)` takes the rest of that line. When the
   * run reaches the end of the text, `\s*` gives back its last non-newline
   * character to `.+`, which strips to empty. When the run holds only
   * newlines, there is no match at all.
   */
  function FieldValue(text: string, key: string): Option<string>
    requires key != []
  {
    match AfterKey(text, key)
    case None => None
    case Some(rest) => LineValue(rest)
  }

  /** The text after the first occurrence of `key`, where the search for the value starts. */
  function AfterKey(text: string, key: string): Option<string>
    requires key != []
  {
    match FindFrom(text, key, 0)
    case None => None
    case Some(p) => Some(text[p + |key|..])
  }

  /** `\s*(.+)` matched at the start of `rest`, the group stripped. */
  function LineValue(rest: string): Option<string> {
    var w := LeadingCount(rest, IsPySpace);
    if w < |rest| then Some(StripPy(TakeLine(rest[w..])))
    else if HasNonNewline(rest) then Some("")
    else None
  }

  predicate NameChar(c: char) {
    ('a' <= c <= 'z') || ('0' <= c <= '9') || c == '-'
  }

  /** `re.match(r'^[a-z0-9-]+$', name)` on a stripped name. */
  predicate HyphenCase(name: string) {
    name != [] && forall i :: 0 <= i < |name| ==> NameChar(name[i])
  }

  predicate HyphensWellPlaced(name: string) {
    !(name != [] && (name[0] == '-' || name[|name| - 1] == '-')) && !Contains(name, "--")
  }

  /** `validate_skill`, given the text of SKILL.md, or None when the file does not exist. */
  function ValidateSkill(skillMd: Option<string>): (v: Verdict)
    ensures skillMd.None? ==> v == Verdict(false, MissingFile)
    ensures skillMd.Some? && !("---" <= skillMd.value) ==> v == Verdict(false, NoFrontmatter)
    ensures skillMd.Some? && "---" <= skillMd.value && Frontmatter(skillMd.value).None? ==> v == Verdict(false, BadFrontmatter)
    ensures skillMd.Some? && "---" <= skillMd.value && Frontmatter(skillMd.value).Some? ==>
      var fm := Frontmatter(skillMd.value).value;
      var name := FieldValue(fm, "name:");
      var desc := FieldValue(fm, "description:");
      (!Contains(fm, "name:") ==> v == Verdict(false, MissingName))
      && (Contains(fm, "name:") && !Contains(fm, "description:") ==> v == Verdict(false, MissingDescription))
      && (Contains(fm, "name:") && Contains(fm, "description:") && name.Some? ==>
            (!HyphenCase(name.value) ==> v == Verdict(false, BadNameFormat(name.value)))
            && (HyphenCase(name.value) && !HyphensWellPlaced(name.value) ==> v == Verdict(false, BadHyphens(name.value))))
      && (Contains(fm, "name:") && Contains(fm, "description:") && desc.Some? && ('<' in desc.value || '>' in desc.value)
          && (name.Some? ==> HyphenCase(name.value) && HyphensWellPlaced(name.value))
          ==> v == Verdict(false, AngleBrackets))
    ensures v.valid <==> v.message == Passed
  {
    if skillMd.None? then Verdict(false, MissingFile)
    else
      var content := skillMd.value;
      if !("---" <= content) then Verdict(false, NoFrontmatter)
      else match Frontmatter(content)
        case None => Verdict(false, BadFrontmatter)
        case Some(fm) =>
          if !Contains(fm, "name:") then Verdict(false, MissingName)
          else if !Contains(fm, "description:") then Verdict(false, MissingDescription)
          else
            var name := FieldValue(fm, "name:");
            if name.Some? && !HyphenCase(name.value) then Verdict(false, BadNameFormat(name.value))
            else if name.Some? && !HyphensWellPlaced(name.value) then Verdict(false, BadHyphens(name.value))
            else
              var desc := FieldValue(fm, "description:");
              if desc.Some? && ('<' in desc.value || '>' in desc.value) then Verdict(false, AngleBrackets)
              else Verdict(true, Passed)
  }

  /** Every check, stated on its own. */
  predicate PassesAllChecks(content: string) {
    "---" <= content
    && Frontmatter(content).Some?
    && Contains(Frontmatter(content).value, "name:")
    && Contains(Frontmatter(content).value, "description:")
    && (FieldValue(Frontmatter(content).value, "name:").Some? ==>
          HyphenCase(FieldValue(Frontmatter(content).value, "name:").value)
          && HyphensWellPlaced(FieldValue(Frontmatter(content).value, "name:").value))
    && (FieldValue(Frontmatter(content).value, "description:").Some? ==>
          '<' !in FieldValue(Frontmatter(content).value, "description:").value
          && '>' !in FieldValue(Frontmatter(content).value, "description:").value)
  }

  /** A skill passes exactly when its SKILL.md exists and every check passes; otherwise the verdict is a failure. */
  lemma ValidIffAllChecksPass(skillMd: Option<string>)
    ensures ValidateSkill(skillMd).valid <==> skillMd.Some? && PassesAllChecks(skillMd.value)
  {
  }

  /** The checks run in order: the name check decides before the description check. */
  lemma NameCheckedBeforeDescription(content: string)
    requires "---" <= content && Frontmatter(content).Some?
    requires var fm := Frontmatter(content).value;
      Contains(fm, "name:") && Contains(fm, "description:")
      && FieldValue(fm, "name:").Some? && !HyphenCase(FieldValue(fm, "name:").value)
    ensures ValidateSkill(Some(content)) == Verdict(false, BadNameFormat(FieldValue(Frontmatter(content).value, "name:").value))
  {
  }

  /** Only the frontmatter is read: anything after its closing line leaves the verdict unchanged. */
  lemma BodyIsIgnored(fm: string, body: string, other: string)
    requires !Contains(fm + "\n--", "\n---")
    ensures Frontmatter("---\n" + fm + "\n---" + body) == Some(fm)
    ensures ValidateSkill(Some("---\n" + fm + "\n---" + body)) == ValidateSkill(Some("---\n" + fm + "\n---" + other))
  {
    FrontmatterOf(fm, body);
    FrontmatterOf(fm, other);
    var c := "---\n" + fm + "\n---" + body;
    assert c[..3] == "---";
    var d := "---\n" + fm + "\n---" + other;
    assert d[..3] == "---";
  }

  lemma FrontmatterOf(fm: string, body: string)
    requires !Contains(fm + "\n--", "\n---")
    ensures Frontmatter("---\n" + fm + "\n---" + body) == Some(fm)
  {
    var c := "---\n" + fm + "\n---" + body;
    var i := 4 + |fm|;
    assert c[..4] == "---\n";
    assert OccursAt(c, "\n---", i) by {
      assert c[i..i + 4] == "\n---";
    }
    forall j | 4 <= j < i ensures !OccursAt(c, "\n---", j) {
      if OccursAt(c, "\n---", j) {
        var t := fm + "\n--";
        assert c[4..i + 3] == t;
        assert t[j - 4..j] == c[j..j + 4];
        assert OccursAt(t, "\n---", j - 4);
        ContainsAt(t, "\n---", j - 4);
      }
    }
    var f := FindFrom(c, "\n---", 4);
    assert f == Some(i);
    assert c[4..i] == fm;
  }
}
