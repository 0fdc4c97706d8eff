/**
 * The skill initializer: the display title of a hyphenated skill name, the
 * frontmatter of the generated SKILL.md, and the creation of a new skill
 * directory, refused when the directory already exists.
 */
module InitSkill {
  import opened Wrappers
  import opened Text
  import opened QuickValidate

  /** Python `str.capitalize` on ASCII: the first character upper case, the rest lower case. */
  function Capitalize(w: string): (r: string)
    ensures |r| == |w|
    ensures w != [] ==> r[0] == UpperChar(w[0]) && r[1..] == AsciiLower(w[1..])
  {
    if w == [] then [] else [UpperChar(w[0])] + AsciiLower(w[1..])
  }

  function CapitalizeAll(words: seq<string>): (r: seq<string>)
    ensures |r| == |words|
    ensures forall k :: 0 <= k < |r| ==> r[k] == Capitalize(words[k])
  {
    if words == [] then [] else [Capitalize(words[0])] + CapitalizeAll(words[1..])
  }

  /** `title_case_skill_name`: split on `-`, capitalize every piece, join with single spaces. */
  function TitleCaseSkillName(name: string): string {
    Join(CapitalizeAll(SplitOn(name, '-')), " ")
  }

  /** Every `-` of `s` replaced by a space. */
  function HyphensToSpaces(s: string): (r: string)
    ensures |r| == |s|
    ensures forall i :: 0 <= i < |s| ==> r[i] == (if s[i] == '-' then ' ' else s[i])
  {
    if s == [] then [] else [if s[0] == '-' then ' ' else s[0]] + HyphensToSpaces(s[1..])
  }

  lemma {:induction false} JoinAvoids(parts: seq<string>, sep: string, c: char)
    requires c !in sep && forall k :: 0 <= k < |parts| ==> c !in parts[k]
    ensures c !in Join(parts, sep)
  {
    if |parts| > 1 {
      JoinAvoids(parts[1..], sep, c);
    }
  }

  lemma CapitalizeAvoidsHyphen(w: string)
    requires '-' !in w
    ensures '-' !in Capitalize(w)
  {
    var r := Capitalize(w);
    assert forall i :: 0 <= i < |r| ==> r[i] == UpperChar(w[i]) || r[i] == LowerChar(w[i]) by {
      forall i | 0 <= i < |r| ensures r[i] == UpperChar(w[i]) || r[i] == LowerChar(w[i]) {
        if i > 0 {
          assert r[i] == r[1..][i - 1];
        }
      }
    }
  }

  /**
   * The title has one word per hyphen-separated piece, one more than the
   * number of hyphens, and no hyphen is left in it.
   */
  lemma TitleCaseWords(name: string)
    ensures var words := CapitalizeAll(SplitOn(name, '-'));
      |words| == CountChar(name, '-') + 1
      && TitleCaseSkillName(name) == Join(words, " ")
      && '-' !in TitleCaseSkillName(name)
      && forall k :: 0 <= k < |words| ==> words[k] == [] || !('a' <= words[k][0] <= 'z')
  {
    var pieces := SplitOn(name, '-');
    var words := CapitalizeAll(pieces);
    assert '-' !in Join(words, " ") by {
      forall k | 0 <= k < |words| ensures '-' !in words[k] {
        CapitalizeAvoidsHyphen(pieces[k]);
      }
      JoinAvoids(words, " ", '-');
    }
    forall k | 0 <= k < |words| ensures words[k] == [] || !('a' <= words[k][0] <= 'z') {
      if words[k] != [] {
        assert words[k][0] == UpperChar(pieces[k][0]);
      }
    }
  }

  lemma {:induction false} JoinSplitOn(s: string)
    ensures Join(SplitOn(s, '-'), " ") == HyphensToSpaces(s)
  {
    if s != [] {
      JoinSplitOn(s[1..]);
      var rest := SplitOn(s[1..], '-');
      if s[0] == '-' {
        assert SplitOn(s, '-') == [""] + rest;
        assert ([""] + rest)[1..] == rest;
      } else {
        var first := [s[0]] + rest[0];
        assert SplitOn(s, '-') == [first] + rest[1..];
        if |rest| > 1 {
          assert ([first] + rest[1..])[1..] == rest[1..];
          assert Join(rest, " ") == rest[0] + " " + Join(rest[1..], " ");
        }
      }
    }
  }

  lemma {:induction false} LowerJoin(parts: seq<string>)
    ensures AsciiLower(Join(parts, " ")) == Join(seq(|parts|, k requires 0 <= k < |parts| => AsciiLower(parts[k])), " ")
  {
    var lowered := seq(|parts|, k requires 0 <= k < |parts| => AsciiLower(parts[k]));
    if |parts| > 1 {
      LowerJoin(parts[1..]);
      assert lowered[1..] == seq(|parts| - 1, k requires 0 <= k < |parts| - 1 => AsciiLower(parts[1..][k]));
      LowerConcat(parts[0] + " ", Join(parts[1..], " "));
      LowerConcat(parts[0], " ");
    }
  }

  lemma LowerConcat(a: string, b: string)
    ensures AsciiLower(a + b) == AsciiLower(a) + AsciiLower(b)
  {
    var l := AsciiLower(a + b);
    assert forall i :: 0 <= i < |a| ==> l[i] == LowerChar(a[i]);
    assert forall i :: 0 <= i < |b| ==> l[|a| + i] == LowerChar(b[i]);
  }

  lemma LowerCapitalize(w: string)
    ensures AsciiLower(Capitalize(w)) == AsciiLower(w)
  {
    var r := Capitalize(w);
    forall i | 0 <= i < |w| ensures LowerChar(r[i]) == LowerChar(w[i]) {
      if i > 0 {
        assert r[i] == r[1..][i - 1] == LowerChar(w[i]);
      }
    }
  }

  /**
   * For a hyphen-case name, folding the title back to lower case gives the
   * name with spaces for hyphens: capitalizing loses nothing else.
   */
  lemma TitleCaseLowersToName(name: string)
    requires HyphenCase(name)
    ensures AsciiLower(TitleCaseSkillName(name)) == HyphensToSpaces(name)
  {
    var pieces := SplitOn(name, '-');
    var words := CapitalizeAll(pieces);
    LowerJoin(words);
    LowerJoin(pieces);
    forall k | 0 <= k < |words| ensures AsciiLower(words[k]) == AsciiLower(pieces[k]) {
      LowerCapitalize(pieces[k]);
    }
    assert seq(|words|, k requires 0 <= k < |words| => AsciiLower(words[k]))
        == seq(|pieces|, k requires 0 <= k < |pieces| => AsciiLower(pieces[k]));
    JoinSplitOn(name);
    var spaced := Join(pieces, " ");
    assert spaced == HyphensToSpaces(name);
    assert AsciiLower(spaced) == spaced by {
      forall i | 0 <= i < |spaced| ensures LowerChar(spaced[i]) == spaced[i] {
        assert NameChar(name[i]);
      }
    }
  }

  /** A one-line frontmatter value that opens and closes with a bracket and holds no angle bracket. */
  type Note = s: string | |s| >= 2 && s[0] == '[' && s[|s| - 1] == ']' && '\n' !in s && '<' !in s && '>' !in s
    witness "[]"

  /** The description line of the template, a to-do note for the author. */
  const TodoDescription: Note :=
    (NoteOfParts("[待辦：完整且詳盡地說明此 skill ", "的功能及使用時機。包含何時使用", "此 skill——觸發它的特定情境、", "檔案類型或任務。]");
     "[待辦：完整且詳盡地說明此 skill " + "的功能及使用時機。包含何時使用" + "此 skill——觸發它的特定情境、" + "檔案類型或任務。]")

  /** No newline and no angle bracket. */
  predicate PlainLine(s: string) {
    forall i :: 0 <= i < |s| ==> s[i] != '\n' && s[i] != '<' && s[i] != '>'
  }

  /** Four plain pieces, bracketed at both ends, make a note. */
  lemma NoteOfParts(a: string, b: string, c: string, d: string)
    requires a != [] && a[0] == '[' && d != [] && d[|d| - 1] == ']'
    requires PlainLine(a) && PlainLine(b) && PlainLine(c) && PlainLine(d)
    ensures var s := a + b + c + d;
      |s| >= 2 && s[0] == '[' && s[|s| - 1] == ']' && '\n' !in s && '<' !in s && '>' !in s
  {
    var s := a + b + c + d;
    assert s[|s| - 1] == d[|d| - 1];
    assert PlainLine(s) by {
      forall i | 0 <= i < |s| ensures s[i] != '\n' && s[i] != '<' && s[i] != '>' {
        if i < |a| { assert s[i] == a[i]; }
        else if i < |a| + |b| { assert s[i] == b[i - |a|]; }
        else if i < |a| + |b| + |c| { assert s[i] == c[i - |a| - |b|]; }
        else { assert s[i] == d[i - |a| - |b| - |c|]; }
      }
    }
  }

  /** A frontmatter with a name line and a description line. */
  function FrontmatterWith(name: string, description: Note): string {
    "name: " + name + "\ndescription: " + description
  }

  /** The frontmatter of SKILL_TEMPLATE with the name filled in. */
  function TemplateFrontmatter(name: string): string {
    FrontmatterWith(name, TodoDescription)
  }

  /**
   * SKILL_TEMPLATE filled with a name and its title; `rest` is the template
   * text after the title, which holds no placeholder.
   */
  function SkillMd(name: string, rest: string): string {
    "---\n" + TemplateFrontmatter(name) + "\n---\n\n# " + TitleCaseSkillName(name) + rest
  }

  lemma TrimStartOneSpace(v: string, tail: string)
    requires v != [] && !IsPySpace(v[0])
    ensures TrimStart(" " + v + tail, IsPySpace) == v + tail
  {
    var line := " " + v + tail;
    assert line[1..] == v + tail;
    assert (v + tail)[0] == v[0];
    assert LeadingCount(line, IsPySpace) == 1 + LeadingCount(v + tail, IsPySpace) == 1;
  }

  lemma StripUnchanged(v: string)
    requires v != [] && !IsPySpace(v[0]) && !IsPySpace(v[|v| - 1])
    ensures StripPy(v) == v
  {
  }

  lemma {:induction false} TakeLineOf(v: string, tail: string)
    requires '\n' !in v && (tail == [] || tail[0] == '\n')
    ensures TakeLine(v + tail) == v
  {
    if v != [] {
      assert (v + tail)[1..] == v[1..] + tail;
      TakeLineOf(v[1..], tail);
    }
  }

  /** The field is read from the line after the first occurrence of its key. */
  lemma FieldValueOfLine(text: string, key: string, rest: string)
    requires key != [] && AfterKey(text, key) == Some(rest)
    ensures LineValue(rest).Some? ==> FieldValue(text, key).Some? && FieldValue(text, key).value == LineValue(rest).value
  {
  }

  lemma AfterKeyAt(text: string, key: string, p: nat)
    requires key != [] && FindFrom(text, key, 0) == Some(p)
    ensures p + |key| <= |text| && AfterKey(text, key) == Some(text[p + |key|..])
  {
    assert OccursAt(text, key, p);
  }

  lemma LineValueOf(rest: string, v: string, tail: string)
    requires v != [] && !IsPySpace(v[0]) && !IsPySpace(v[|v| - 1]) && '\n' !in v
    requires tail == [] || tail[0] == '\n'
    requires rest == " " + v + tail
    ensures LineValue(rest).Some? && LineValue(rest).value == v
  {
    TrimStartOneSpace(v, tail);
    var w := LeadingCount(rest, IsPySpace);
    assert w == 1 < |rest|;
    assert rest[w..] == v + tail;
    TakeLineOf(v, tail);
    StripUnchanged(v);
  }

  lemma FrontmatterEnds(name: string, d: Note)
    requires HyphenCase(name)
    ensures !Contains(FrontmatterWith(name, d) + "\n--", "\n---")
  {
    var t := FrontmatterWith(name, d) + "\n--";
    forall k | 0 <= k <= |t| - 4 ensures !OccursAt(t, "\n---", k) {
      NoFenceAt(name, d, k);
    }
    NoOccurrence(t, "\n---");
  }

  /** No position of the filled frontmatter starts a closing `---` line. */
  lemma NoFenceAt(name: string, d: Note, k: nat)
    requires HyphenCase(name) && k + 4 <= |FrontmatterWith(name, d)| + 3
    ensures !OccursAt(FrontmatterWith(name, d) + "\n--", "\n---", k)
  {
    var t := FrontmatterWith(name, d) + "\n--";
    var nl := 6 + |name|;
    assert t[k..k + 4][0] == t[k] && t[k..k + 4][1] == t[k + 1];
    if k < 6 {
      assert t[..6] == "name: ";
      assert t[k] == "name: "[k];
    } else if k < nl {
      assert t[k] == name[k - 6];
      assert NameChar(name[k - 6]);
    } else if k == nl {
      assert t[k + 1] == 'd';
    } else if k < nl + 14 {
      assert t[nl..nl + 14] == "\ndescription: ";
      assert t[k] == "\ndescription: "[k - nl];
    } else {
      assert t[k] == d[k - nl - 14];
    }
  }

  lemma DescriptionFound(name: string, d: Note)
    requires HyphenCase(name)
    ensures FindFrom(FrontmatterWith(name, d), "description:", 0) == Some(7 + |name|)
  {
    var head := "name: " + name + "\n";
    var tail := "description: " + d;
    var fm := FrontmatterWith(name, d);
    assert fm == head + tail;
    var p := |head|;
    assert fm[p..p + 12] == tail[..12] == "description:";
    forall j | 0 <= j < p ensures !OccursAt(fm, "description:", j) {
      NoDescriptionBefore(name, d, j);
    }
    FindFromFirst(fm, "description:", p);
  }

  /** Before the description line, no position has the `:` that would end `description:`. */
  lemma NoDescriptionBefore(name: string, d: Note, j: nat)
    requires HyphenCase(name) && j < 7 + |name|
    ensures !OccursAt(FrontmatterWith(name, d), "description:", j)
  {
    var fm := FrontmatterWith(name, d);
    var line := "\ndescription: ";
    assert fm == "name: " + name + line + d;
    if j + 12 <= |fm| {
      var k := j + 11;
      if k < 6 + |name| {
        assert fm[k] == name[k - 6] && NameChar(name[k - 6]);
      } else {
        assert fm[k] == line[k - 6 - |name|];
        assert forall m :: 0 <= m < 12 ==> line[m] != ':';
      }
      assert fm[j..j + 12][11] == fm[k];
    }
  }

  lemma NameFieldOf(name: string, d: Note)
    requires HyphenCase(name)
    ensures var fm := FrontmatterWith(name, d);
      Contains(fm, "name:") && FieldValue(fm, "name:").Some? && FieldValue(fm, "name:").value == name
  {
    var fm := FrontmatterWith(name, d);
    assert OccursAt(fm, "name:", 0);
    ContainsAt(fm, "name:", 0);
    assert FindFrom(fm, "name:", 0) == Some(0);
    AfterKeyAt(fm, "name:", 0);
    var rest := fm[5..];
    assert rest == " " + name + ("\ndescription: " + d);
    assert NameChar(name[0]) && NameChar(name[|name| - 1]);
    LineValueOf(rest, name, "\ndescription: " + d);
    FieldValueOfLine(fm, "name:", rest);
  }

  lemma DescriptionFieldOf(name: string, d: Note)
    requires HyphenCase(name)
    ensures var fm := FrontmatterWith(name, d);
      Contains(fm, "description:") && FieldValue(fm, "description:").Some? && FieldValue(fm, "description:").value == d
  {
    var fm := FrontmatterWith(name, d);
    var p := 7 + |name|;
    DescriptionFound(name, d);
    ContainsAt(fm, "description:", p);
    AfterKeyAt(fm, "description:", p);
    var rest := fm[p + 12..];
    assert rest == " " + d + "";
    LineValueOf(rest, d, "");
    FieldValueOfLine(fm, "description:", rest);
  }

  /** A skill generated for a valid name passes validation, whatever the rest of the template says. */
  lemma GeneratedSkillPasses(name: string, rest: string)
    requires HyphenCase(name) && HyphensWellPlaced(name)
    ensures ValidateSkill(Some(SkillMd(name, rest))) == Verdict(true, Passed)
  {
    var fm := TemplateFrontmatter(name);
    var body := "\n\n# " + TitleCaseSkillName(name) + rest;
    assert SkillMd(name, rest) == "---\n" + fm + "\n---" + body;
    FrontmatterEnds(name, TodoDescription);
    BodyIsIgnored(fm, body, body);
    NameFieldOf(name, TodoDescription);
    DescriptionFieldOf(name, TodoDescription);
    assert PassesAllChecks(SkillMd(name, rest));
    ValidIffAllChecksPass(Some(SkillMd(name, rest)));
  }

  /** A file written first is read back unchanged after three writes to other paths. */
  lemma WrittenFirstReadBack(m: map<string, string>, k: string, v: string,
                             k2: string, v2: string, k3: string, v3: string, k4: string, v4: string)
    requires k != k2 && k != k3 && k != k4
    ensures m[k := v][k2 := v2][k3 := v3][k4 := v4][k] == v
  {
  }

  /** Two different relative names give two different paths in the same directory. */
  lemma JoinPathDistinct(dir: string, a: string, b: string)
    requires a != b && a != [] && b != [] && a[0] != '/' && b[0] != '/'
    ensures JoinPath(dir, a) != JoinPath(dir, b)
  {
    var prefix := if dir == [] then "" else if dir[|dir| - 1] == '/' then dir else dir + "/";
    assert JoinPath(dir, a) == prefix + a && JoinPath(dir, b) == prefix + b;
    assert (prefix + a)[|prefix|..] == a && (prefix + b)[|prefix|..] == b;
  }

  /**
   * The file system as the initializer sees it: the directories that exist
   * and the files with their contents, by path.
   */
  class SkillTree {
    var dirs: set<string>
    var files: map<string, string>

    constructor(dirs0: set<string>, files0: map<string, string>)
      ensures dirs == dirs0 && files == files0
    {
      dirs := dirs0;
      files := files0;
    }

    /** `Path.exists`: a directory or a file is there. */
    predicate Exists(p: string)
      reads this
    {
      p in dirs || p in files
    }

    /**
     * `init_skill`: refuses an existing target and leaves everything as it
     * was; otherwise creates the skill directory, SKILL.md, and the scripts,
     * references and assets directories with one example file each. The
     * example texts and the template text after the title are parameters.
     */
    method InitSkill(skillName: string, path: string, rest: string,
                     scriptText: string, referenceText: string, assetText: string)
      returns (r: Option<string>)
      modifies this
      ensures old(Exists(JoinPath(path, skillName))) <==> r.None?
      ensures r.None? ==> dirs == old(dirs) && files == old(files)
      ensures r.Some? ==>
        var dir := JoinPath(path, skillName);
        r.value == dir
        && dirs == old(dirs) + {dir} + {JoinPath(dir, "scripts")} + {JoinPath(dir, "references")} + {JoinPath(dir, "assets")}
        && files == old(files)[JoinPath(dir, "SKILL.md") := SkillMd(skillName, rest)]
                              [JoinPath(dir, "scripts/example.py") := scriptText]
                              [JoinPath(dir, "references/api_reference.md") := referenceText]
                              [JoinPath(dir, "assets/example_asset.txt") := assetText]
        && files[JoinPath(dir, "SKILL.md")] == SkillMd(skillName, rest)
    {
      var dir := JoinPath(path, skillName);
      if Exists(dir) {
        return None;
      }
      dirs := dirs + {dir};
      files := files[JoinPath(dir, "SKILL.md") := SkillMd(skillName, rest)];
      dirs := dirs + {JoinPath(dir, "scripts")};
      files := files[JoinPath(dir, "scripts/example.py") := scriptText];
      dirs := dirs + {JoinPath(dir, "references")};
      files := files[JoinPath(dir, "references/api_reference.md") := referenceText];
      dirs := dirs + {JoinPath(dir, "assets")};
      files := files[JoinPath(dir, "assets/example_asset.txt") := assetText];
      JoinPathDistinct(dir, "SKILL.md", "scripts/example.py");
      JoinPathDistinct(dir, "SKILL.md", "references/api_reference.md");
      JoinPathDistinct(dir, "SKILL.md", "assets/example_asset.txt");
      WrittenFirstReadBack(old(files), JoinPath(dir, "SKILL.md"), SkillMd(skillName, rest),
        JoinPath(dir, "scripts/example.py"), scriptText,
        JoinPath(dir, "references/api_reference.md"), referenceText,
        JoinPath(dir, "assets/example_asset.txt"), assetText);
      r := Some(dir);
    }
  }
}
