/** The slash-separated path operations of Go's standard library that the
    FTP layer relies on: `strings.Split`, `strings.Join` and
    `strings.TrimPrefix` with "/" as separator, and the purely lexical
    `filepath.Clean`, `filepath.Dir`, `filepath.Base` and two-element
    `filepath.Join` of a Unix build. */
module GoPath {
  import opened TextUtil

  /** Index of the first `c` in `s`, or `|s|` when there is none. */
  function FirstIndex(s: string, c: char): (r: nat)
    ensures r <= |s|
    ensures forall i :: 0 <= i < r ==> s[i] != c
    ensures r < |s| ==> s[r] == c
  {
    if s == [] then 0 else if s[0] == c then 0 else 1 + FirstIndex(s[1..], c)
  }

  /** Index of the last `c` in `s`, or -1 when there is none. */
  function LastIndex(s: string, c: char): (r: int)
    ensures -1 <= r < |s|
    ensures forall i :: r < i < |s| ==> s[i] != c
    ensures r >= 0 ==> s[r] == c
  {
    if s == [] then -1 else if s[|s| - 1] == c then |s| - 1 else LastIndex(s[..|s| - 1], c)
  }

  /** `strings.Join(segs, "/")`. */
  function JoinSlash(segs: seq<string>): string
  {
    if segs == [] then ""
    else if |segs| == 1 then segs[0]
    else segs[0] + "/" + JoinSlash(segs[1..])
  }

  /** `strings.Split(s, "/")`: the pieces between separators; joining them
      with "/" gives `s` back, and no piece holds a separator. */
  function Split(s: string): (r: seq<string>)
    ensures |r| >= 1
    ensures forall k :: 0 <= k < |r| ==> '/' !in r[k]
    ensures JoinSlash(r) == s
    decreases |s|
  {
    var i := FirstIndex(s, '/');
    if i == |s| then [s] else [s[..i]] + Split(s[i + 1..])
  }

  /** Splitting a join of separator-free pieces gives the pieces back. */
  lemma {:induction false} SplitJoin(segs: seq<string>)
    requires |segs| >= 1
    requires forall k :: 0 <= k < |segs| ==> '/' !in segs[k]
    ensures Split(JoinSlash(segs)) == segs
  {
    var s := JoinSlash(segs);
    if |segs| == 1 {
      assert FirstIndex(s, '/') == |s|;
    } else {
      assert s == segs[0] + "/" + JoinSlash(segs[1..]);
      assert FirstIndex(s, '/') == |segs[0]| by {
        assert s[|segs[0]|] == '/';
        forall i | 0 <= i < |segs[0]| ensures s[i] != '/' {
          assert s[i] == segs[0][i];
        }
      }
      assert s[..|segs[0]|] == segs[0];
      assert s[|segs[0]| + 1..] == JoinSlash(segs[1..]);
      SplitJoin(segs[1..]);
    }
  }

  lemma {:induction false} JoinSnoc(segs: seq<string>, x: string)
    requires |segs| >= 1
    ensures JoinSlash(segs + [x]) == JoinSlash(segs) + "/" + x
  {
    if |segs| == 1 {
      assert (segs + [x])[1..] == [x];
    } else {
      assert (segs + [x])[1..] == segs[1..] + [x];
      JoinSnoc(segs[1..], x);
    }
  }

  /** `strings.TrimPrefix(s, p)`. */
  function TrimPrefix(s: string, p: string): string
  {
    if IsPrefix(p, s) then s[|p|..] else s
  }

  /** Trimming removes the prefix when it is there and nothing otherwise. */
  lemma TrimPrefixSpec(s: string, p: string)
    ensures IsPrefix(p, s) ==> p + TrimPrefix(s, p) == s
    ensures !IsPrefix(p, s) ==> TrimPrefix(s, p) == s
  {
  }

  /** One step of Go's lexical cleaning: empty and "." elements vanish,
      ".." removes the preceding real element if there is one, is dropped
      at the root of a rooted path, and is kept otherwise. */
  function CleanStep(stack: seq<string>, part: string, rooted: bool): seq<string>
  {
    if part == "" || part == "." then stack
    else if part == ".." then
      if |stack| > 0 && stack[|stack| - 1] != ".." then stack[..|stack| - 1]
      else if rooted then stack
      else stack + [".."]
    else stack + [part]
  }

  function CleanSegs(parts: seq<string>, rooted: bool, stack: seq<string>): seq<string>
  {
    if parts == [] then stack else CleanSegs(parts[1..], rooted, CleanStep(stack, parts[0], rooted))
  }

  /** `filepath.Clean(p)` on a Unix build. */
  function Clean(p: string): (r: string)
    ensures r != ""
  {
    if p == "" then "."
    else
      var rooted := p[0] == '/';
      var body := JoinSlash(CleanSegs(Split(p), rooted, []));
      if rooted then "/" + body else if body == "" then "." else body
  }

  /** A path element that cleaning keeps as it is. */
  predicate PlainSegment(s: string)
  {
    s != "" && s != "." && s != ".." && '/' !in s
  }

  lemma {:induction false} CleanSegsPlain(parts: seq<string>, stack: seq<string>)
    requires forall k :: 0 <= k < |parts| ==> PlainSegment(parts[k])
    ensures CleanSegs(parts, false, stack) == stack + parts
  {
    if parts != [] {
      CleanSegsPlain(parts[1..], stack + [parts[0]]);
      assert stack + [parts[0]] + parts[1..] == stack + parts;
    }
  }

  /** A relative path made of plain elements is already clean. */
  lemma CleanPlainRelative(segs: seq<string>)
    requires |segs| >= 1
    requires forall k :: 0 <= k < |segs| ==> PlainSegment(segs[k])
    ensures Clean(JoinSlash(segs)) == JoinSlash(segs)
  {
    var p := JoinSlash(segs);
    SplitJoin(segs);
    CleanSegsPlain(segs, []);
    assert [] + segs == segs;
  }

  /** `filepath.Dir(p)`: everything up to the last separator, cleaned. */
  function Dir(p: string): string
  {
    Clean(p[..LastIndex(p, '/') + 1])
  }

  /** `filepath.Base(p)`: the last element after trailing separators are
      dropped; "." for the empty path and "/" for a path of separators. */
  function Base(p: string): (r: string)
    ensures r != ""
  {
    if p == "" then "."
    else
      var t := TrimTrailingSlashes(p);
      var e := t[LastIndex(t, '/') + 1..];
      if e == "" then "/" else e
  }

  function TrimTrailingSlashes(p: string): (r: string)
    ensures IsPrefix(r, p)
    ensures r != [] ==> r[|r| - 1] != '/'
  {
    if p != [] && p[|p| - 1] == '/' then TrimTrailingSlashes(p[..|p| - 1]) else p
  }

  /** `filepath.Join(a, b)`: the non-empty arguments joined by the
      separator, then cleaned; "" when both are empty. */
  function Join2(a: string, b: string): string
  {
    if a != "" then Clean(a + "/" + b)
    else if b != "" then Clean(b)
    else ""
  }
}
