/**
 * Request path construction: `createFullPath` (lib/WorkamajigResource.js:57-64)
 * is `path.join(base, resource, command).replace(/\\/g, '/')`. Node's POSIX
 * `path.join` is given here as functions: the non-empty arguments are joined
 * with '/', then normalised segment by segment ('' and '.' segments vanish,
 * '..' removes the segment before it), keeping a leading and a trailing '/'.
 */
module Paths {

  /** Splits on '/', keeping empty segments: "a//b/" gives ["a", "", "b", ""]. */
  function Split(p: string): (segs: seq<string>)
    ensures |segs| >= 1
    ensures forall i :: 0 <= i < |segs| ==> '/' !in segs[i]
    ensures '\\' !in p ==> forall i :: 0 <= i < |segs| ==> '\\' !in segs[i]
    decreases |p|
  {
    if |p| == 0 then [""]
    else
      var rest := Split(p[1..]);
      if p[0] == '/' then [""] + rest
      else [[p[0]] + rest[0]] + rest[1..]
  }

  /** Joins segments with '/'. */
  function Join(segs: seq<string>): string
    decreases |segs|
  {
    if |segs| == 0 then ""
    else if |segs| == 1 then segs[0]
    else segs[0] + "/" + Join(segs[1..])
  }

  /** One step of node's `normalizeString` on the segments produced so far. */
  function NormStep(out: seq<string>, seg: string, allowAboveRoot: bool): seq<string> {
    if seg == "" || seg == "." then out
    else if seg == ".." then
      if |out| > 0 && out[|out| - 1] != ".." then out[..|out| - 1]
      else if allowAboveRoot then out + [".."]
      else out
    else out + [seg]
  }

  /** node's `normalizeString`, as a left fold of NormStep over the segments. */
  function NormSegs(out: seq<string>, segs: seq<string>, allowAboveRoot: bool): seq<string>
    decreases |segs|
  {
    if |segs| == 0 then out
    else NormSegs(NormStep(out, segs[0], allowAboveRoot), segs[1..], allowAboveRoot)
  }

  /** node's `path.posix.normalize`. */
  function Normalize(p: string): (r: string)
    ensures |r| > 0
    ensures |p| > 0 && p[0] == '/' ==> r[0] == '/'
    ensures |p| > 0 && p[|p| - 1] == '/' ==> r[|r| - 1] == '/'
  {
    if |p| == 0 then "."
    else
      var absolute := p[0] == '/';
      var trailing := p[|p| - 1] == '/';
      var body := Join(NormSegs([], Split(p), !absolute));
      if |body| == 0 then (if absolute then "/" else if trailing then "./" else ".")
      else
        var withTrail := if trailing then body + "/" else body;
        if absolute then "/" + withTrail else withTrail
  }

  /** The non-empty arguments, in order. */
  function NonEmpty(args: seq<string>): (r: seq<string>)
    ensures forall i :: 0 <= i < |r| ==> r[i] != ""
    ensures forall x :: x in r <==> x in args && x != ""
    ensures |r| <= |args|
    ensures (forall i :: 0 <= i < |args| ==> args[i] != "") ==> r == args
    decreases |args|
  {
    if |args| == 0 then []
    else (if args[0] == "" then [] else [args[0]]) + NonEmpty(args[1..])
  }

  /** node's `path.posix.join`. */
  function PathJoin(args: seq<string>): (r: string)
    ensures |r| > 0
    ensures NonEmpty(args) == [] ==> r == "."
  {
    var parts := NonEmpty(args);
    if |parts| == 0 then "." else Normalize(Join(parts))
  }

  /** `s.replace(/\\/g, '/')` */
  function ReplaceBackslashes(s: string): (r: string)
    ensures |r| == |s| && '\\' !in r
    ensures forall i :: 0 <= i < |s| && s[i] != '\\' ==> r[i] == s[i]
    ensures forall i :: 0 <= i < |s| && s[i] == '\\' ==> r[i] == '/'
  {
    seq(|s|, i requires 0 <= i < |s| => if s[i] == '\\' then '/' else s[i])
  }

  /**
   * `createFullPath`, once the base path, the resource path and the command
   * path have been interpolated with the call's URL data.
   */
  function FullPath(base: string, resourcePath: string, command: string): (r: string)
    ensures '\\' !in r
  {
    ReplaceBackslashes(PathJoin([base, resourcePath, command]))
  }

  predicate NoDoubleSeparator(s: string) {
    forall i :: 0 <= i < |s| - 1 ==> !(s[i] == '/' && s[i + 1] == '/')
  }

  /** A segment as normalisation leaves it: non-empty, with no separator of either kind. */
  predicate CleanSegment(seg: string) {
    seg != "" && '/' !in seg && '\\' !in seg
  }

  // ---------------------------------------------------------------------
  // Splitting and joining are inverse
  // ---------------------------------------------------------------------

  lemma {:induction false} JoinSplit(p: string)
    ensures Join(Split(p)) == p
    decreases |p|
  {
    if |p| > 0 {
      var rest := Split(p[1..]);
      JoinSplit(p[1..]);
      if p[0] == '/' {
        assert Join([""] + rest) == "" + "/" + Join(rest);
      } else {
        JoinPrependChar(p[0], rest);
        assert p == [p[0]] + p[1..];
      }
    }
  }

  /** A character glued to the first segment comes first in the joined string. */
  lemma {:induction false} JoinPrependChar(c: char, segs: seq<string>)
    requires |segs| >= 1
    ensures Join([[c] + segs[0]] + segs[1..]) == [c] + Join(segs)
  {
    var glued := [[c] + segs[0]] + segs[1..];
    if |segs| == 1 {
      assert Join(glued) == glued[0];
    } else {
      var tail := Join(segs[1..]);
      assert glued[1..] == segs[1..];
      assert Join(glued) == ([c] + segs[0]) + "/" + tail;
      assert Join(segs) == segs[0] + "/" + tail;
      assert ([c] + segs[0]) + "/" + tail == [c] + (segs[0] + "/" + tail);
    }
  }

  lemma {:induction false} SplitJoin(segs: seq<string>)
    requires |segs| >= 1
    requires forall i :: 0 <= i < |segs| ==> '/' !in segs[i]
    ensures Split(Join(segs)) == segs
    decreases |segs|
  {
    if |segs| == 1 {
      SplitSlashFree(segs[0]);
    } else {
      var tail := Join(segs[1..]);
      SplitJoin(segs[1..]);
      SplitAppend(segs[0], tail);
      SplitSlashFree(segs[0]);
      assert Join(segs) == segs[0] + "/" + tail;
      assert Split(Join(segs)) == [segs[0]] + segs[1..];
      assert segs == [segs[0]] + segs[1..];
    }
  }

  lemma {:induction false} SplitSlashFree(s: string)
    requires '/' !in s
    ensures Split(s) == [s]
    decreases |s|
  {
    if |s| > 0 {
      SplitSlashFree(s[1..]);
      assert s == [s[0]] + s[1..];
    }
  }

  /** Splitting distributes over a '/'. */
  lemma {:induction false} SplitAppend(a: string, b: string)
    ensures Split(a + "/" + b) == Split(a) + Split(b)
    decreases |a|
  {
    var p := a + "/" + b;
    if |a| == 0 {
      assert p[1..] == b;
    } else {
      assert p[1..] == a[1..] + "/" + b;
      SplitAppend(a[1..], b);
    }
  }

  // ---------------------------------------------------------------------
  // Normalisation as a fold
  // ---------------------------------------------------------------------

  lemma {:induction false} NormSegsAppend(out: seq<string>, a: seq<string>, b: seq<string>, allow: bool)
    ensures NormSegs(out, a + b, allow) == NormSegs(NormSegs(out, a, allow), b, allow)
    decreases |a|
  {
    if |a| > 0 {
      assert (a + b)[0] == a[0];
      assert (a + b)[1..] == a[1..] + b;
      NormSegsAppend(NormStep(out, a[0], allow), a[1..], b, allow);
    } else {
      assert a + b == b;
    }
  }

  /** Normalisation keeps only clean segments when the input has no backslash. */
  lemma {:induction false} NormSegsClean(out: seq<string>, segs: seq<string>, allow: bool)
    requires forall i :: 0 <= i < |out| ==> CleanSegment(out[i])
    requires forall i :: 0 <= i < |segs| ==> '/' !in segs[i] && '\\' !in segs[i]
    ensures forall i :: 0 <= i < |NormSegs(out, segs, allow)| ==> CleanSegment(NormSegs(out, segs, allow)[i])
    decreases |segs|
  {
    if |segs| > 0 {
      var next := NormStep(out, segs[0], allow);
      assert forall i :: 0 <= i < |next| ==> CleanSegment(next[i]);
      NormSegsClean(next, segs[1..], allow);
    }
  }

  lemma ConcatNoDouble(a: string, b: string)
    requires NoDoubleSeparator(a) && NoDoubleSeparator(b)
    requires |a| > 0 && |b| > 0 ==> !(a[|a| - 1] == '/' && b[0] == '/')
    ensures NoDoubleSeparator(a + b)
  {
    var s := a + b;
    forall i | 0 <= i < |s| - 1
      ensures !(s[i] == '/' && s[i + 1] == '/')
    {
      if i + 1 < |a| {
        assert s[i] == a[i] && s[i + 1] == a[i + 1];
      } else if i >= |a| {
        assert s[i] == b[i - |a|] && s[i + 1] == b[i + 1 - |a|];
      }
    }
  }

  /** Joining clean segments gives a string with no backslash, no "//" and no '/' at either end. */
  lemma {:induction false} JoinClean(segs: seq<string>)
    requires forall i :: 0 <= i < |segs| ==> CleanSegment(segs[i])
    ensures '\\' !in Join(segs) && NoDoubleSeparator(Join(segs))
    ensures |segs| > 0 ==> |Join(segs)| > 0 && Join(segs)[0] != '/' && Join(segs)[|Join(segs)| - 1] != '/'
    ensures |segs| == 0 ==> Join(segs) == ""
    decreases |segs|
  {
    if |segs| == 1 {
      assert segs[0][0] in segs[0];
      assert segs[0][|segs[0]| - 1] in segs[0];
    } else if |segs| > 1 {
      var s0 := segs[0];
      JoinClean(segs[1..]);
      var rest := Join(segs[1..]);
      assert s0[0] in s0 && s0[|s0| - 1] in s0;
      ConcatNoDouble(s0, "/");
      ConcatNoDouble(s0 + "/", rest);
      assert Join(segs) == s0 + "/" + rest;
    }
  }

  lemma {:induction false} JoinNoBackslash(segs: seq<string>)
    requires forall i :: 0 <= i < |segs| ==> '\\' !in segs[i]
    ensures '\\' !in Join(segs)
    decreases |segs|
  {
    if |segs| > 1 {
      JoinNoBackslash(segs[1..]);
    }
  }

  lemma {:induction false} NonEmptyNoBackslash(args: seq<string>)
    requires forall i :: 0 <= i < |args| ==> '\\' !in args[i]
    ensures forall i :: 0 <= i < |NonEmpty(args)| ==> '\\' !in NonEmpty(args)[i]
    decreases |args|
  {
    if |args| > 0 {
      NonEmptyNoBackslash(args[1..]);
    }
  }

  /** A normalised path has no "//" and no backslash when its input has no backslash. */
  lemma NormalizeClean(p: string)
    requires '\\' !in p
    ensures NoDoubleSeparator(Normalize(p)) && '\\' !in Normalize(p)
  {
    if |p| > 0 {
      var segs := NormSegs([], Split(p), p[0] != '/');
      NormSegsClean([], Split(p), p[0] != '/');
      JoinClean(segs);
      var body := Join(segs);
      if |body| > 0 {
        var withTrail := if p[|p| - 1] == '/' then body + "/" else body;
        ConcatNoDouble(body, "/");
        ConcatNoDouble("/", withTrail);
      }
    }
  }

  /**
   * Separators are collapsed: when none of the three parts contains a
   * backslash, the full path has no "//" (and, as for every full path, no
   * backslash).
   */
  lemma FullPathCollapsesSeparators(base: string, resourcePath: string, command: string)
    requires '\\' !in base && '\\' !in resourcePath && '\\' !in command
    ensures NoDoubleSeparator(FullPath(base, resourcePath, command))
  {
    var args := [base, resourcePath, command];
    var parts := NonEmpty(args);
    var joined := PathJoin(args);
    if |parts| > 0 {
      NonEmptyNoBackslash(args);
      JoinNoBackslash(parts);
      NormalizeClean(Join(parts));
    }
    assert '\\' !in joined;
    assert ReplaceBackslashes(joined) == joined;
  }

  // ---------------------------------------------------------------------
  // '/{id}' and '{id}' address the same resource
  // ---------------------------------------------------------------------

  lemma {:induction false} NonEmptyAppend(a: seq<string>, b: seq<string>)
    ensures NonEmpty(a + b) == NonEmpty(a) + NonEmpty(b)
    decreases |a|
  {
    if |a| > 0 {
      var head := if a[0] == "" then [] else [a[0]];
      assert (a + b)[0] == a[0] && (a + b)[1..] == a[1..] + b;
      assert NonEmpty(a + b) == head + NonEmpty(a[1..] + b);
      assert NonEmpty(a) == head + NonEmpty(a[1..]);
      NonEmptyAppend(a[1..], b);
      assert head + (NonEmpty(a[1..]) + NonEmpty(b)) == (head + NonEmpty(a[1..])) + NonEmpty(b);
    } else {
      assert a + b == b;
    }
  }

  /** `path.join` keeps every non-empty argument as often as it is given, and no empty one. */
  lemma {:induction false} NonEmptyCounts(args: seq<string>)
    ensures forall x :: x != "" ==> multiset(NonEmpty(args))[x] == multiset(args)[x]
    ensures multiset(NonEmpty(args))[""] == 0
    decreases |args|
  {
    if |args| > 0 {
      NonEmptyCounts(args[1..]);
      assert args == [args[0]] + args[1..];
      assert multiset(args) == multiset([args[0]]) + multiset(args[1..]);
      var head := if args[0] == "" then [] else [args[0]];
      assert multiset(NonEmpty(args)) == multiset(head) + multiset(NonEmpty(args[1..]));
    }
  }

  /**
   * `path.join` keeps its non-empty arguments in their order: the non-empty
   * argument at index `i` is at the index that counts the non-empty arguments
   * before it.
   */
  lemma NonEmptyKeepsOrder(args: seq<string>, i: nat)
    requires i < |args| && args[i] != ""
    ensures |NonEmpty(args[..i])| < |NonEmpty(args)|
    ensures NonEmpty(args)[|NonEmpty(args[..i])|] == args[i]
  {
    assert args == args[..i] + args[i..];
    NonEmptyAppend(args[..i], args[i..]);
    var tail := args[i..];
    assert tail[0] == args[i];
    assert NonEmpty(tail) == [args[i]] + NonEmpty(tail[1..]);
  }

  lemma {:induction false} JoinSnoc(segs: seq<string>, last: string)
    requires |segs| > 0
    ensures Join(segs + [last]) == Join(segs) + "/" + last
    decreases |segs|
  {
    if |segs| > 1 {
      assert (segs + [last])[1..] == segs[1..] + [last];
      JoinSnoc(segs[1..], last);
    }
  }

  lemma {:induction false} JoinNonEmpty(segs: seq<string>)
    requires |segs| > 0 && segs[0] != ""
    ensures |Join(segs)| > 0 && Join(segs)[0] == segs[0][0]
  {
  }

  /** Joining gives a non-empty string as soon as any one segment is non-empty. */
  lemma {:induction false} JoinSomeNonEmpty(segs: seq<string>, i: nat)
    requires i < |segs| && segs[i] != ""
    ensures |Join(segs)| >= |segs[i]| > 0
    decreases |segs|
  {
    if |segs| > 1 && i > 0 {
      JoinSomeNonEmpty(segs[1..], i - 1);
    }
  }

  /** Normalisation drops the empty segment that a doubled '/' produces. */
  lemma NormalizeAbsorbsDoubleSlash(x: string, id: string)
    requires x != "" && id != ""
    ensures Normalize(x + "/" + ("/" + id)) == Normalize(x + "/" + id)
  {
    var j1 := x + "/" + ("/" + id);
    var j2 := x + "/" + id;
    assert j1[0] == x[0] == j2[0];
    assert j1[|j1| - 1] == id[|id| - 1] == j2[|j2| - 1];
    SplitAppend(x, "/" + id);
    SplitAppend(x, id);
    SplitAppend("", id);
    assert "" + "/" + id == "/" + id;
    var allow := x[0] != '/';
    var done := NormSegs([], Split(x), allow);
    calc {
      NormSegs([], Split(j1), allow);
      { NormSegsAppend([], Split(x), [""] + Split(id), allow); }
      NormSegs(done, [""] + Split(id), allow);
      { assert ([""] + Split(id))[1..] == Split(id); }
      NormSegs(done, Split(id), allow);
      { NormSegsAppend([], Split(x), Split(id), allow); }
      NormSegs([], Split(j2), allow);
    }
  }

  /** The non-empty parts of [base, resourcePath, last] with base or resourcePath non-empty. */
  lemma JoinedParts(base: string, resourcePath: string, last: string)
    requires base != "" || resourcePath != ""
    requires last != ""
    ensures |NonEmpty([base, resourcePath])| > 0
    ensures Join(NonEmpty([base, resourcePath, last])) == Join(NonEmpty([base, resourcePath])) + "/" + last
    ensures Join(NonEmpty([base, resourcePath])) != ""
  {
    var prefix := NonEmpty([base, resourcePath]);
    NonEmptyAppend([base, resourcePath], [last]);
    assert [base, resourcePath] + [last] == [base, resourcePath, last];
    assert NonEmpty([last]) == [last];
    assert |prefix| > 0 by {
      if base == "" {
        assert [base, resourcePath][1..] == [resourcePath];
        assert NonEmpty([resourcePath]) == [resourcePath];
      }
    }
    JoinNonEmpty(prefix);
    JoinSnoc(prefix, last);
  }

  /**
   * The command path of `retrieve` ('/{id}') and that of `update` and `del`
   * ('{id}') give the same full path once the id is substituted, provided the
   * base path or the resource path is non-empty and the id is non-empty.
   */
  lemma LeadingSlashInCommandIsAbsorbed(base: string, resourcePath: string, id: string)
    requires base != "" || resourcePath != ""
    requires id != ""
    ensures FullPath(base, resourcePath, "/" + id) == FullPath(base, resourcePath, id)
  {
    JoinedParts(base, resourcePath, "/" + id);
    JoinedParts(base, resourcePath, id);
    NormalizeAbsorbsDoubleSlash(Join(NonEmpty([base, resourcePath])), id);
  }
  /**
   * The absorption stops at an empty id: the command '/' leaves a separator
   * at the end of the joined path, which normalisation keeps, so the full
   * path ends with '/' where the command '' adds nothing.
   */
  lemma EmptyIdKeepsTrailingSlash(base: string, resourcePath: string)
    requires base != "" || resourcePath != ""
    ensures var r := FullPath(base, resourcePath, "/"); |r| > 0 && r[|r| - 1] == '/'
    ensures FullPath(base, resourcePath, "") == ReplaceBackslashes(PathJoin([base, resourcePath]))
  {
    JoinedParts(base, resourcePath, "/");
    var joined := Join(NonEmpty([base, resourcePath, "/"]));
    assert joined[|joined| - 1] == '/';
    var n := Normalize(joined);
    assert n[|n| - 1] == '/';
    assert NonEmpty([base, resourcePath, ""]) == NonEmpty([base, resourcePath]) by {
      assert [base, resourcePath, ""] == [base, resourcePath] + [""];
      NonEmptyAppend([base, resourcePath], [""]);
      assert NonEmpty([""]) == [] by {
        assert [""][1..] == [];
      }
    }
  }

  /**
   * The backslash replacement runs after the POSIX join, so a backslash
   * in a part is not collapsed with the separator before it: the
   * base path '/api/' with the command '\\x' gives '/api//x', where a
   * Windows join would give '/api/x'.
   */
  lemma BackslashIsReplacedAfterJoining()
    ensures FullPath("/api/", "", "\\x") == "/api//x"
    ensures !NoDoubleSeparator(FullPath("/api/", "", "\\x"))
  {
    assert NonEmpty(["/api/", "", "\\x"]) == ["/api/", "\\x"];
    assert Join(["/api/", "\\x"]) == "/api//\\x";
    NormalizeApiBackslash("/api//\\x");
    ReplaceApiBackslash();
    var r := FullPath("/api/", "", "\\x");
    assert r[4] == '/' && r[5] == '/';
  }

  /** The segments of a rooted path with one doubled separator. */
  lemma SplitRootedDouble(a: string, c: string)
    requires '/' !in a && '/' !in c
    ensures Split("/" + a + "//" + c) == ["", a, "", c]
  {
    var empty: string := [];
    SplitSlashFree(empty);
    SplitSlashFree(a);
    SplitSlashFree(c);
    var tail := empty + "/" + c;
    SplitAppend(empty, c);
    assert Split(tail) == [empty, c];
    var mid := a + "/" + tail;
    SplitAppend(a, tail);
    assert Split(mid) == [a, empty, c];
    var whole := empty + "/" + mid;
    SplitAppend(empty, mid);
    assert Split(whole) == [empty, a, empty, c];
    assert whole == "/" + a + "//" + c;
  }

  lemma SplitApiBackslash(p: string)
    requires p == "/api//\\x"
    ensures Split(p) == ["", "api", "", "\\x"]
  {
    SplitRootedDouble("api", "\\x");
    assert p == "/" + "api" + "//" + "\\x";
  }

  lemma NormSegsApiBackslash()
    ensures NormSegs([], ["", "api", "", "\\x"], false) == ["api", "\\x"]
  {
    var segs := ["", "api", "", "\\x"];
    assert segs[1..] == ["api", "", "\\x"];
    assert ["api", "", "\\x"][1..] == ["", "\\x"];
    assert ["", "\\x"][1..] == ["\\x"];
    assert NormSegs(["api"], ["\\x"], false) == ["api", "\\x"];
  }

  lemma NormalizeApiBackslash(p: string)
    requires p == "/api//\\x"
    ensures Normalize(p) == "/api/\\x"
  {
    SplitApiBackslash(p);
    NormSegsApiBackslash();
    assert p[0] == '/' && p[|p| - 1] != '/';
    var body := Join(NormSegs([], Split(p), false));
    assert body == Join(["api", "\\x"]);
    assert Join(["api", "\\x"]) == "api" + "/" + "\\x";
  }

  lemma ReplaceApiBackslash()
    ensures ReplaceBackslashes("/api/\\x") == "/api//x"
  {
    var r := ReplaceBackslashes("/api/\\x");
    assert |r| == 7;
    assert r[5] == '/';
    assert forall i :: 0 <= i < 7 && i != 5 ==> r[i] == "/api/\\x"[i];
  }
}
