/**
 The path patterns of interceptors (framework/web/interceptor.go:107-188).

 `Matches` says what a pattern means: the segments of the path split into consecutive pieces, one per part of
 the pattern. The matcher of the source tries the ends of a `**` piece one after the other.
 */
module PathMatcher {

  const DOUBLE_STAR := "**"

  predicate HasPrefix(s: string, prefix: string) {
    |prefix| <= |s| && s[..|prefix|] == prefix
  }

  predicate HasSuffix(s: string, suffix: string) {
    |suffix| <= |s| && s[|s| - |suffix|..] == suffix
  }

  /** What one pattern part other than `**` accepts: anything for a wildcard or a variable, else itself. */
  predicate Accepts(part: string, segment: string) {
    part == "*" || (HasPrefix(part, "{") && HasSuffix(part, "}")) || HasPrefix(part, ":") || part == segment
  }

  /** What one part takes: `**` any run of segments, every other part one segment that it accepts. */
  predicate Takes(part: string, piece: seq<string>) {
    part == DOUBLE_STAR || (|piece| == 1 && Accepts(part, piece[0]))
  }

  function Flatten(pieces: seq<seq<string>>): seq<string> {
    if pieces == [] then [] else pieces[0] + Flatten(pieces[1..])
  }

  predicate Fits(parts: seq<string>, segments: seq<string>, pieces: seq<seq<string>>) {
    |pieces| == |parts| && Flatten(pieces) == segments && forall i | 0 <= i < |parts| :: Takes(parts[i], pieces[i])
  }

  ghost predicate Matches(parts: seq<string>, segments: seq<string>) {
    exists pieces :: Fits(parts, segments, pieces)
  }

  lemma MatchesEmpty(segments: seq<string>)
    ensures Matches([], segments) <==> segments == []
  {
    if segments == [] {
      assert Fits([], segments, []);
    }
  }

  /** The first piece taken off. */
  lemma TakeFirst(parts: seq<string>, segments: seq<string>, pieces: seq<seq<string>>)
    requires parts != [] && Fits(parts, segments, pieces)
    ensures |pieces[0]| <= |segments| && segments[..|pieces[0]|] == pieces[0]
      && Matches(parts[1..], segments[|pieces[0]|..])
  {
    assert segments[|pieces[0]|..] == Flatten(pieces[1..]);
    assert Fits(parts[1..], segments[|pieces[0]|..], pieces[1..]);
  }

  /** A first piece put in front. */
  lemma PutFirst(parts: seq<string>, segments: seq<string>, n: nat)
    requires parts != [] && n <= |segments| && Takes(parts[0], segments[..n]) && Matches(parts[1..], segments[n..])
    ensures Matches(parts, segments)
  {
    var rest :| Fits(parts[1..], segments[n..], rest);
    var pieces := [segments[..n]] + rest;
    assert pieces[1..] == rest && segments == segments[..n] + segments[n..];
    forall i | 0 <= i < |parts| ensures Takes(parts[i], pieces[i]) {
      if i > 0 {
        assert Takes(parts[1..][i - 1], rest[i - 1]);
      }
    }
    assert Fits(parts, segments, pieces);
  }

  lemma MatchesSegment(parts: seq<string>, segments: seq<string>)
    requires parts != [] && parts[0] != DOUBLE_STAR
    ensures Matches(parts, segments) <==>
      segments != [] && Accepts(parts[0], segments[0]) && Matches(parts[1..], segments[1..])
  {
    if Matches(parts, segments) {
      var pieces :| Fits(parts, segments, pieces);
      assert Takes(parts[0], pieces[0]);
      TakeFirst(parts, segments, pieces);
    }
    if segments != [] && Accepts(parts[0], segments[0]) && Matches(parts[1..], segments[1..]) {
      PutFirst(parts, segments, 1);
    }
  }

  lemma MatchesDoubleStar(parts: seq<string>, segments: seq<string>)
    requires parts != [] && parts[0] == DOUBLE_STAR
    ensures Matches(parts, segments) <==> exists n | 0 <= n <= |segments| :: Matches(parts[1..], segments[n..])
  {
    if Matches(parts, segments) {
      var pieces :| Fits(parts, segments, pieces);
      TakeFirst(parts, segments, pieces);
    }
    if n: nat :| n <= |segments| && Matches(parts[1..], segments[n..]) {
      PutFirst(parts, segments, n);
    }
  }

  method MatchSingleSegment(patternPart: string, pathPart: string) returns (r: bool)
    ensures r <==> Accepts(patternPart, pathPart)
    ensures r <==>
      || patternPart == "*" || patternPart == pathPart
      || (patternPart != "" && patternPart[0] == ':')
      || (patternPart != "" && patternPart[0] == '{' && patternPart[|patternPart| - 1] == '}')
  {
    if patternPart == "*" {
      return true;
    }
    if HasPrefix(patternPart, "{") && HasSuffix(patternPart, "}") {
      return true;
    }
    if HasPrefix(patternPart, ":") {
      return true;
    }
    r := patternPart == pathPart;
  }

  method MatchParts(patternParts: seq<string>, pathParts: seq<string>) returns (r: bool)
    ensures r <==> Matches(patternParts, pathParts)
    decreases |patternParts|, 1
  {
    if |patternParts| == 0 && |pathParts| == 0 {
      MatchesEmpty([]);
      return true;
    }
    if |patternParts| == 0 {
      MatchesEmpty(pathParts);
      return false;
    }
    var head := patternParts[0];
    if head == DOUBLE_STAR {
      r := MatchDoubleStar(patternParts, pathParts);
      return;
    }
    MatchesSegment(patternParts, pathParts);
    if |pathParts| == 0 {
      return false;
    }
    var ok := MatchSingleSegment(head, pathParts[0]);
    if !ok {
      return false;
    }
    r := MatchParts(patternParts[1..], pathParts[1..]);
  }

  method MatchDoubleStar(patternParts: seq<string>, pathParts: seq<string>) returns (r: bool)
    requires patternParts != [] && patternParts[0] == DOUBLE_STAR
    ensures r <==> Matches(patternParts, pathParts)
    decreases |patternParts|, 0
  {
    MatchesDoubleStar(patternParts, pathParts);
    if |patternParts| == 1 {
      assert patternParts[1..] == [] && pathParts[|pathParts|..] == [];
      MatchesEmpty([]);
      return true;
    }
    for i := 0 to |pathParts| + 1
      invariant forall n | 0 <= n < i :: !Matches(patternParts[1..], pathParts[n..])
    {
      var found := MatchParts(patternParts[1..], pathParts[i..]);
      if found {
        return true;
      }
    }
    r := false;
  }

  // ---------------------------------------------------------------------------------------------
  // Whole paths.

  function TrimLeft(s: string): (r: string)
    ensures r != "" ==> r[0] != '/'
  {
    if s != "" && s[0] == '/' then TrimLeft(s[1..]) else s
  }

  function TrimRight(s: string): (r: string)
    ensures |r| <= |s| && r == s[..|r|]
    ensures r != "" ==> r[|r| - 1] != '/'
  {
    if s != "" && s[|s| - 1] == '/' then TrimRight(s[..|s| - 1]) else s
  }

  /** Go's `strings.Trim(s, "/")`. */
  function TrimSlashes(s: string): (r: string)
    ensures r != "" ==> r[0] != '/' && r[|r| - 1] != '/'
  {
    TrimRight(TrimLeft(s))
  }

  lemma {:induction false} TrimLeftParts(s: string)
    ensures var n := |TrimLeft(s)|;
      n <= |s| && TrimLeft(s) == s[|s| - n..] && forall i | 0 <= i < |s| - n :: s[i] == '/'
    ensures TrimLeft(s) != "" ==> TrimLeft(s)[0] != '/'
  {
    if s != "" && TrimLeft(s) != s {
      TrimLeftParts(s[1..]);
      forall i | 0 <= i < |s| - |TrimLeft(s)| ensures s[i] == '/' {
        assert i > 0 ==> s[i] == s[1..][i - 1];
      }
    }
  }

  lemma {:induction false} TrimRightParts(s: string)
    ensures var n := |TrimRight(s)|;
      n <= |s| && TrimRight(s) == s[..n] && forall i | n <= i < |s| :: s[i] == '/'
    ensures TrimRight(s) != "" ==> TrimRight(s)[|TrimRight(s)| - 1] != '/'
  {
    if s != "" && TrimRight(s) != s {
      TrimRightParts(s[..|s| - 1]);
      forall i | |TrimRight(s)| <= i < |s| ensures s[i] == '/' {
        assert i < |s| - 1 ==> s[i] == s[..|s| - 1][i];
      }
    }
  }

  /** What is left of a text lies between slashes only, and neither begins nor ends with one. */
  lemma TrimmedSlashes(s: string) returns (i: nat, j: nat)
    ensures i <= j <= |s| && TrimSlashes(s) == s[i..j]
    ensures forall k | 0 <= k < i || j <= k < |s| :: s[k] == '/'
    ensures i < j ==> s[i] != '/' && s[j - 1] != '/'
  {
    var left := TrimLeft(s);
    TrimLeftParts(s);
    TrimRightParts(left);
    i := |s| - |left|;
    j := i + |TrimRight(left)|;
    forall k | j <= k < |s| ensures s[k] == '/' {
      assert s[k] == left[k - i];
    }
  }

  /** Go's `strings.Split(s, "/")`. */
  function Split(s: string): (parts: seq<string>)
    ensures parts != []
  {
    if s == "" then [""]
    else
      var rest := Split(s[1..]);
      if s[0] == '/' then [""] + rest else [[s[0]] + rest[0]] + rest[1..]
  }

  function Join(parts: seq<string>): string {
    if parts == [] then ""
    else if |parts| == 1 then parts[0]
    else parts[0] + "/" + Join(parts[1..])
  }

  lemma {:induction false} SplitPlain(s: string)
    ensures forall i | 0 <= i < |Split(s)| :: '/' !in Split(s)[i]
  {
    if s != "" {
      SplitPlain(s[1..]);
    }
  }

  lemma JoinMore(c: char, first: string, rest: seq<string>)
    ensures Join([[c] + first] + rest) == [c] + Join([first] + rest)
  {
    assert ([[c] + first] + rest)[1..] == rest && ([first] + rest)[1..] == rest;
    if rest != [] {
      assert [c] + first + "/" + Join(rest) == [c] + (first + "/" + Join(rest));
    }
  }

  /** Splitting is undone by joining, and leaves no slash in any part. */
  lemma {:induction false} SplitJoins(s: string)
    ensures Join(Split(s)) == s
    ensures forall i | 0 <= i < |Split(s)| :: '/' !in Split(s)[i]
  {
    SplitPlain(s);
    if s != "" {
      SplitJoins(s[1..]);
      var rest := Split(s[1..]);
      assert rest == [rest[0]] + rest[1..] && s == [s[0]] + s[1..];
      if s[0] == '/' {
        assert Split(s)[1..] == rest && "" + "/" + Join(rest) == "/" + Join(rest);
      } else {
        JoinMore(s[0], rest[0], rest[1..]);
      }
    }
  }

  /** The segments of a trimmed pattern or path; none if nothing is left. */
  function Segments(s: string): seq<string> {
    if s == "" then [] else Split(s)
  }

  /** What a pattern would mean for a path if nothing were special. */
  ghost predicate PathMatches(pattern: string, path: string) {
    Matches(Segments(TrimSlashes(pattern)), Segments(TrimSlashes(path)))
  }

  /** The one case where the source decides otherwise: an empty path against several `**`. */
  predicate StarsOnly(pattern: string, path: string) {
    var parts := Segments(TrimSlashes(pattern));
    TrimSlashes(path) == "" && |parts| > 1 && AllStars(parts)
  }

  predicate AllStars(parts: seq<string>) {
    forall i | 0 <= i < |parts| :: parts[i] == DOUBLE_STAR
  }

  lemma {:induction false} MatchesNothing(parts: seq<string>)
    ensures Matches(parts, []) <==> AllStars(parts)
  {
    hide Matches;
    if parts == [] {
      MatchesEmpty([]);
    } else if parts[0] == DOUBLE_STAR {
      MatchesDoubleStar(parts, []);
      MatchesNothing(parts[1..]);
      var none: seq<string> := [];
      assert none[0..] == none;
      assert parts == [parts[0]] + parts[1..];
    } else {
      MatchesSegment(parts, []);
    }
  }

  /** `MatchPath` is what the pattern means, but for an empty path and several `**`, where it says no. */
  method MatchPath(pattern: string, path: string) returns (r: bool)
    ensures r <==> Decides(pattern, path)
  {
    var p, t := TrimSlashes(pattern), TrimSlashes(path);
    if p == "" && t == "" {
      MatchesEmpty([]);
      return true;
    }
    if p == "" || t == "" {
      if p == "" {
        MatchesEmpty(Segments(t));
      } else {
        MatchesNothing(Segments(p));
        OneDoubleStar(p);
      }
      return p == DOUBLE_STAR;
    }
    r := MatchParts(Split(p), Split(t));
  }

  lemma SplitOne(c: char, s: string, first: string, rest: seq<string>)
    requires c != '/' && Split(s) == [first] + rest
    ensures Split([c] + s) == [[c] + first] + rest
  {
    assert ([c] + s)[1..] == s && ([first] + rest)[1..] == rest;
  }

  lemma DoubleStarWhole()
    ensures Split("*") == ["*"] && Split("**") == ["**"]
  {
    SplitOne('*', "", "", []);
    assert ['*'] + "" == "*";
    assert Split("*") == ["*"] + [];
    SplitOne('*', "*", "*", []);
    assert ['*'] + "*" == "**";
  }

  lemma OneDoubleStar(p: string)
    ensures p == DOUBLE_STAR <==> Split(p) == [DOUBLE_STAR]
  {
    SplitJoins(p);
    DoubleStarWhole();
  }

  /** A lone double star matches every path, the empty one included. */
  lemma LoneDoubleStar(path: string)
    ensures Decides("**", path)
  {
    assert TrimLeft("**") == "**" && TrimRight("**") == "**";
    DoubleStarWhole();
    var parts, segments := ["**"], Segments(TrimSlashes(path));
    MatchesEmpty([]);
    assert parts[1..] == [] && segments[|segments|..] == [];
    MatchesDoubleStar(parts, segments);
  }

  /** The special case is real. */
  lemma TwoDoubleStars()
    ensures PathMatches("**/**", "/") && StarsOnly("**/**", "/")
  {
    var p := "**/**";
    DoubleStarWhole();
    assert "/**"[1..] == "**";
    assert Split("/**") == [""] + ["**"];
    SplitOne('*', "/**", "", ["**"]);
    assert ['*'] + "/**" == "*/**" && ['*'] + "" == "*";
    SplitOne('*', "*/**", "*", ["**"]);
    assert ['*'] + "*/**" == p && ['*'] + "*" == "**";
    assert Split(p) == ["**", "**"];
    assert TrimLeft(p) == p && TrimRight(p) == p;
    assert "/"[1..] == "" && TrimLeft("/") == "";
    MatchesNothing(["**", "**"]);
  }

  /** The patterns of one interceptor. */
  class InterceptorRegistration {
    var includes: seq<string>
    var excludes: seq<string>

    constructor ()
      ensures includes == [] && excludes == []
    {
      includes, excludes := [], [];
    }

    method AddPathPatterns(patterns: seq<string>)
      modifies this`includes
      ensures includes == old(includes) + patterns
    {
      includes := includes + patterns;
    }

    method ExcludePathPatterns(patterns: seq<string>)
      modifies this`excludes
      ensures excludes == old(excludes) + patterns
    {
      excludes := excludes + patterns;
    }

    /** `match`: no exclude pattern matches, and some include pattern does, if there are any. */
    method Match(path: string) returns (r: bool)
      ensures r <==>
        && (forall i | 0 <= i < |excludes| :: !Decides(excludes[i], path))
        && (includes == [] || exists i | 0 <= i < |includes| :: Decides(includes[i], path))
    {
      hide Decides;
      for i := 0 to |excludes|
        invariant forall j | 0 <= j < i :: !Decides(excludes[j], path)
      {
        var hit := MatchPath(excludes[i], path);
        if hit {
          return false;
        }
      }
      if |includes| == 0 {
        return true;
      }
      for i := 0 to |includes|
        invariant forall j | 0 <= j < i :: !Decides(includes[j], path)
      {
        var hit := MatchPath(includes[i], path);
        if hit {
          return true;
        }
      }
      r := false;
    }
  }

  /** What `MatchPath` answers. */
  ghost predicate Decides(pattern: string, path: string) {
    PathMatches(pattern, path) && !StarsOnly(pattern, path)
  }
}
