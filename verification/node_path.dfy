/**
 * Node's POSIX `path.join` and `path.normalize`, which the image
 * integrator uses to name its pages. The non-empty arguments are joined
 * with `/`; normalising then drops empty and `.` segments, lets `..`
 * remove the segment before it, and keeps one leading and one trailing
 * `/` when the joined text had them.
 */
module NodePath {
  import opened Text

  /** How one segment changes the kept segments (the loop of Node's `normalizeString`). */
  function PushSegment(kept: seq<string>, seg: string, absolute: bool): seq<string> {
    if seg == "" || seg == "." then kept
    else if seg == ".." then
      if kept != [] && kept[|kept| - 1] != ".." then kept[..|kept| - 1]
      else if absolute then kept
      else kept + [".."]
    else kept + [seg]
  }

  /** The segments kept after reading `segs` from left to right. */
  function Normalized(segs: seq<string>, absolute: bool): seq<string> {
    if segs == [] then []
    else PushSegment(Normalized(segs[..|segs| - 1], absolute), segs[|segs| - 1], absolute)
  }

  /** `path.posix.normalize`. */
  function Normalize(p: string): string {
    if p == [] then "."
    else
      var absolute := p[0] == '/';
      var trailing := p[|p| - 1] == '/';
      var body := Join(Normalized(SplitOn(p, '/'), absolute), "/");
      if body == [] then (if absolute then "/" else if trailing then "./" else ".")
      else (if absolute then "/" else "") + body + (if trailing then "/" else "")
  }

  /** `path.posix.join(dir, name)`: the non-empty arguments joined with `/`, then normalised. */
  function JoinNode(dir: string, name: string): string {
    Normalize(if name == [] then dir else Joined(dir, name))
  }

  /**
   * A normalised path is clean: no empty or `.` segment is kept, and a `..`
   * is kept only in a relative path, and only after other `..` segments.
   */
  predicate Clean(kept: seq<string>, absolute: bool) {
    forall k :: 0 <= k < |kept| ==>
      kept[k] != "" && kept[k] != "." && (kept[k] == ".." ==> !absolute && forall m :: 0 <= m < k ==> kept[m] == "..")
  }

  lemma PushKeepsClean(kept: seq<string>, seg: string, absolute: bool)
    requires Clean(kept, absolute)
    ensures Clean(PushSegment(kept, seg, absolute), absolute)
  {
    var r := PushSegment(kept, seg, absolute);
    if seg != "" && seg != "." && seg == ".." && !(kept != [] && kept[|kept| - 1] != "..") && !absolute {
      forall k | 0 <= k < |r| && r[k] == ".."
        ensures forall m :: 0 <= m < k ==> r[m] == ".."
      {
        if k == |kept| {
          forall m | 0 <= m < k ensures r[m] == ".." {
            assert kept[|kept| - 1] == "..";
            assert r[m] == kept[m];
          }
        }
      }
    }
  }

  lemma {:induction false} NormalizedIsClean(segs: seq<string>, absolute: bool)
    ensures Clean(Normalized(segs, absolute), absolute)
  {
    if segs != [] {
      NormalizedIsClean(segs[..|segs| - 1], absolute);
      PushKeepsClean(Normalized(segs[..|segs| - 1], absolute), segs[|segs| - 1], absolute);
    }
  }

  // ---------------------------------------------------------------------
  // A name appended to a fixed directory and prefix

  /** What `path.join` joins before normalising, when the name is not empty. */
  function Joined(dir: string, name: string): string {
    if dir == [] then name else dir + "/" + name
  }

  /** The text that normalising `a + tail` puts before `tail`. */
  function StemOf(a: string): string {
    StemFrom(SplitOn(a, '/'), a != [] && a[0] == '/')
  }

  /** The kept segments before the last piece, then the last piece itself. */
  function StemFrom(s: seq<string>, absolute: bool): string
    requires s != []
  {
    var kept := Normalized(s[..|s| - 1], absolute);
    (if absolute then "/" else "") + (if kept == [] then "" else Join(kept, "/") + "/") + s[|s| - 1]
  }

  /** The text that `JoinNode(dir, prefix + tail)` puts before `tail`. */
  function Stem(dir: string, prefix: string): string {
    StemOf(Joined(dir, prefix))
  }

  /**
   * A tail without `/` that does not end in `.` stays verbatim at the end
   * of the joined path, after a stem fixed by the directory and the prefix.
   */
  lemma JoinNodeKeepsTail(dir: string, prefix: string, tail: string)
    requires tail != [] && '/' !in tail && tail[|tail| - 1] != '.'
    ensures JoinNode(dir, prefix + tail) == Stem(dir, prefix) + tail
  {
    var a := Joined(dir, prefix);
    assert Joined(dir, prefix + tail) == a + tail;
    NormalizeKeepsTail(a, tail);
  }

  lemma NormalizeKeepsTail(a: string, tail: string)
    requires tail != [] && '/' !in tail && tail[|tail| - 1] != '.'
    ensures Normalize(a + tail) == StemOf(a) + tail
  {
    var s := SplitOn(a, '/');
    var k := |s| - 1;
    var absolute := a != [] && a[0] == '/';
    SplitOnAppendFree(a, tail, '/');
    assert (a + tail)[0] == '/' <==> absolute by {
      if a == [] {
        assert (a + tail)[0] == tail[0] && tail[0] in tail;
      } else {
        assert (a + tail)[0] == a[0];
      }
    }
    assert (a + tail)[|a + tail| - 1] == tail[|tail| - 1];
    NormalizeRegularLast(a + tail, s[..k], s[k] + tail, absolute);
    StemPlusTail(s[..k], s[k], tail, absolute);
  }

  /** A path whose last segment is an ordinary name keeps that name as its last segment. */
  lemma NormalizeRegularLast(p: string, pre: seq<string>, last: string, absolute: bool)
    requires p != [] && p[|p| - 1] != '/' && (p[0] == '/' <==> absolute)
    requires SplitOn(p, '/') == pre + [last]
    requires last != [] && last[|last| - 1] != '.'
    ensures Normalize(p) == (if absolute then "/" else "") + Join(Normalized(pre, absolute) + [last], "/")
  {
    assert (pre + [last])[..|pre|] == pre;
    assert last != "" && last != "." && last != "..";
    var kept := Normalized(pre, absolute);
    assert Normalized(pre + [last], absolute) == kept + [last];
    JoinSnoc(kept, last, "/");
    assert Join(kept + [last], "/") != [];
  }

  /** The joined segments end with the last piece followed by the tail. */
  lemma StemPlusTail(pre: seq<string>, piece: string, tail: string, absolute: bool)
    ensures var kept := Normalized(pre, absolute);
      (if absolute then "/" else "") + Join(kept + [piece + tail], "/")
      == (if absolute then "/" else "") + (if kept == [] then "" else Join(kept, "/") + "/") + piece + tail
  {
    var kept := Normalized(pre, absolute);
    JoinSnoc(kept, piece + tail, "/");
  }

  /** Two tails that differ give two different paths under the same directory and prefix. */
  lemma JoinNodeTailsDistinct(dir: string, prefix: string, t1: string, t2: string)
    requires t1 != [] && '/' !in t1 && t1[|t1| - 1] != '.'
    requires t2 != [] && '/' !in t2 && t2[|t2| - 1] != '.'
    requires t1 != t2
    ensures JoinNode(dir, prefix + t1) != JoinNode(dir, prefix + t2)
  {
    JoinNodeKeepsTail(dir, prefix, t1);
    JoinNodeKeepsTail(dir, prefix, t2);
    var st := Stem(dir, prefix);
    assert (st + t1)[|st|..] == t1 && (st + t2)[|st|..] == t2;
  }

  /** An empty or `.` segment anywhere leaves the kept segments as they are. */
  lemma {:induction false} NormalizedSkips(x: seq<string>, e: string, y: seq<string>, absolute: bool)
    requires e == "" || e == "."
    ensures Normalized(x + [e] + y, absolute) == Normalized(x + y, absolute)
    decreases |y|
  {
    if y == [] {
      assert x + [e] + y == x + [e] && (x + [e])[..|x|] == x;
      assert x + y == x;
    } else {
      var init := y[..|y| - 1];
      var last := y[|y| - 1];
      NormalizedSkips(x, e, init, absolute);
      assert x + [e] + y == (x + [e] + init) + [last];
      assert (x + [e] + init + [last])[..|x + [e] + init|] == x + [e] + init;
      assert x + y == (x + init) + [last];
      assert (x + init + [last])[..|x + init|] == x + init;
    }
  }

  /** Stems whose splits differ only by an empty or `.` segment before the last piece are equal. */
  lemma StemFromSkips(x: seq<string>, e: string, y: seq<string>, absolute: bool)
    requires e == "" || e == "."
    requires y != []
    ensures StemFrom(x + [e] + y, absolute) == StemFrom(x + y, absolute)
  {
    var init := y[..|y| - 1];
    var s1, s2 := x + [e] + y, x + y;
    assert s1[..|s1| - 1] == x + [e] + init && s1[|s1| - 1] == y[|y| - 1];
    assert s2[..|s2| - 1] == x + init && s2[|s2| - 1] == y[|y| - 1];
    NormalizedSkips(x, e, init, absolute);
  }

  /** A `./` in front of a relative directory does not change where a name lands. */
  lemma StemIgnoresDotDir(d: string, prefix: string)
    requires d != [] && d[0] != '/'
    ensures Stem("./" + d, prefix) == Stem(d, prefix)
  {
    var a1, a2 := Joined("./" + d, prefix), Joined(d, prefix);
    assert a1 == "." + ['/'] + a2;
    SplitOnSeparator(".", a2, '/');
    SplitOnOneChar('.', '/');
    assert a2[0] == d[0] && a1[0] == '.';
    assert SplitOn(a1, '/') == [] + ["."] + SplitOn(a2, '/');
    assert Stem("./" + d, prefix) == StemFrom(SplitOn(a1, '/'), false);
    assert Stem(d, prefix) == StemFrom(SplitOn(a2, '/'), false);
    StemFromSkips([], ".", SplitOn(a2, '/'), false);
    assert [] + SplitOn(a2, '/') == SplitOn(a2, '/');
  }

  /** A `/` at the start of the prefix stays inside a given directory. */
  lemma StemIgnoresSlashPrefix(dir: string, p: string)
    requires dir != []
    ensures Stem(dir, "/" + p) == Stem(dir, p)
  {
    var a1, a2 := Joined(dir, "/" + p), Joined(dir, p);
    assert a1 == dir + ['/'] + ("" + ['/'] + p);
    assert a2 == dir + ['/'] + p;
    SplitOnSeparator(dir, "" + ['/'] + p, '/');
    SplitOnSeparator("", p, '/');
    SplitOnSeparator(dir, p, '/');
    assert SplitOn("", '/') == [""];
    assert a1[0] == dir[0] && a2[0] == dir[0];
    assert SplitOn(a1, '/') == SplitOn(dir, '/') + [""] + SplitOn(p, '/');
    assert Stem(dir, "/" + p) == StemFrom(SplitOn(a1, '/'), dir[0] == '/');
    assert Stem(dir, p) == StemFrom(SplitOn(a2, '/'), dir[0] == '/');
    StemFromSkips(SplitOn(dir, '/'), "", SplitOn(p, '/'), dir[0] == '/');
  }

  /** A trailing `/` on the directory does not change where a name lands. */
  lemma StemIgnoresTrailingSlash(dir: string, p: string)
    requires dir != []
    ensures Stem(dir + "/", p) == Stem(dir, p)
  {
    assert Joined(dir + "/", p) == Joined(dir, "/" + p);
    StemIgnoresSlashPrefix(dir, p);
  }

  // ---------------------------------------------------------------------
  // Splitting and joining

  lemma SplitOnOneChar(ch: char, c: char)
    requires ch != c
    ensures SplitOn([ch], c) == [[ch]]
  {
    assert [ch][1..] == [];
    assert SplitOn([], c) == [""];
    assert [ch] + "" == [ch];
  }

  /** Splitting a `c`-free text gives it back whole. */
  lemma {:induction false} SplitOnFree(t: string, c: char)
    requires c !in t
    ensures SplitOn(t, c) == [t]
  {
    if t != [] {
      assert t[1..] == t[1..] && c !in t[1..];
      SplitOnFree(t[1..], c);
      assert [t[0]] + t[1..] == t;
    }
  }

  /** A `c`-free tail extends the last piece of the split. */
  lemma {:induction false} SplitOnAppendFree(p: string, t: string, c: char)
    requires c !in t
    ensures var s := SplitOn(p, c);
      SplitOn(p + t, c) == s[..|s| - 1] + [s[|s| - 1] + t]
  {
    if p == [] {
      assert p + t == t;
      SplitOnFree(t, c);
    } else {
      assert (p + t)[0] == p[0] && (p + t)[1..] == p[1..] + t;
      SplitOnAppendFree(p[1..], t, c);
      if p[0] == c {
        SplitOnAppendSep(p, t, c);
      } else {
        SplitOnAppendOther(p, t, c);
      }
    }
  }

  lemma SplitOnAppendSep(p: string, t: string, c: char)
    requires p != [] && p[0] == c && (p + t)[1..] == p[1..] + t
    requires var s1 := SplitOn(p[1..], c);
      SplitOn(p[1..] + t, c) == s1[..|s1| - 1] + [s1[|s1| - 1] + t]
    ensures var s := SplitOn(p, c);
      SplitOn(p + t, c) == s[..|s| - 1] + [s[|s| - 1] + t]
  {
    var s1 := SplitOn(p[1..], c);
    var s := SplitOn(p, c);
    assert s == [""] + s1;
    assert SplitOn(p + t, c) == [""] + SplitOn(p[1..] + t, c);
    assert s[..|s| - 1] == [""] + s1[..|s1| - 1];
    assert s[|s| - 1] == s1[|s1| - 1];
  }

  lemma SplitOnAppendOther(p: string, t: string, c: char)
    requires p != [] && p[0] != c && (p + t)[1..] == p[1..] + t
    requires var s1 := SplitOn(p[1..], c);
      SplitOn(p[1..] + t, c) == s1[..|s1| - 1] + [s1[|s1| - 1] + t]
    ensures var s := SplitOn(p, c);
      SplitOn(p + t, c) == s[..|s| - 1] + [s[|s| - 1] + t]
  {
    var s1 := SplitOn(p[1..], c);
    var rest := SplitOn(p[1..] + t, c);
    var s := SplitOn(p, c);
    assert s == [[p[0]] + s1[0]] + s1[1..];
    assert SplitOn(p + t, c) == [[p[0]] + rest[0]] + rest[1..];
    if |s1| == 1 {
      assert rest == [s1[0] + t];
      assert s == [[p[0]] + s1[0]];
      assert [p[0]] + (s1[0] + t) == ([p[0]] + s1[0]) + t;
    } else {
      assert rest[0] == s1[0];
      assert rest[1..] == s1[1..|s1| - 1] + [s1[|s1| - 1] + t];
      assert s[..|s| - 1] == [[p[0]] + s1[0]] + s1[1..|s1| - 1];
      assert s[|s| - 1] == s1[|s1| - 1];
    }
  }

  /** Splitting at a separator splits the two sides apart. */
  lemma {:induction false} SplitOnSeparator(a: string, b: string, c: char)
    ensures SplitOn(a + [c] + b, c) == SplitOn(a, c) + SplitOn(b, c)
  {
    if a == [] {
      assert a + [c] + b == [c] + b;
      assert ([c] + b)[1..] == b;
    } else {
      assert (a + [c] + b)[0] == a[0] && (a + [c] + b)[1..] == a[1..] + [c] + b;
      SplitOnSeparator(a[1..], b, c);
    }
  }

  /** Joining one more part puts it after a separator. */
  lemma {:induction false} JoinSnoc(parts: seq<string>, last: string, sep: string)
    ensures Join(parts + [last], sep) == if parts == [] then last else Join(parts, sep) + sep + last
    decreases |parts|
  {
    if |parts| == 1 {
      assert parts + [last] == [parts[0], last];
      assert [parts[0], last][1..] == [last];
    } else if |parts| > 1 {
      assert (parts + [last])[1..] == parts[1..] + [last];
      JoinSnoc(parts[1..], last, sep);
    } else {
      assert parts + [last] == [last];
    }
  }
}
