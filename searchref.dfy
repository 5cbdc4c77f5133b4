/** The reference-manual search script: a markdown document is cut into
    sections at its header lines, each section holding the stripped header
    as its title and the stripped text up to the next header as its
    content, and sections are filtered by a case-insensitive substring test
    on their titles. */
module SearchRef {
  import opened TextUtil
  import GoPath

  datatype Section = Section(title: string, content: string)

  // ---------------------------------------------------------------------
  // Reading the document as lines
  // ---------------------------------------------------------------------

  /** Concatenation of a list of strings (`"".join(parts)`). */
  function Joined(parts: seq<string>): string
  {
    if parts == [] then "" else Joined(parts[..|parts| - 1]) + parts[|parts| - 1]
  }

  lemma {:induction false} JoinedCons(x: string, xs: seq<string>)
    ensures Joined([x] + xs) == x + Joined(xs)
  {
    if xs != [] {
      assert ([x] + xs)[..|xs|] == [x] + xs[..|xs| - 1];
      JoinedCons(x, xs[..|xs| - 1]);
    } else {
      assert ([x] + xs)[..0] == [];
    }
  }

  /** The lines that iterating over a text file yields: each line keeps its
      terminating newline, and only the last one may lack it. */
  function SplitLines(s: string): (r: seq<string>)
    ensures forall k :: 0 <= k < |r| ==> r[k] != ""
    ensures forall k :: 0 <= k < |r| - 1 ==> r[k][|r[k]| - 1] == '\n'
    ensures forall k, j :: 0 <= k < |r| && 0 <= j < |r[k]| - 1 ==> r[k][j] != '\n'
    decreases |s|
  {
    if s == [] then []
    else
      var i := GoPath.FirstIndex(s, '\n');
      if i == |s| then [s] else [s[..i + 1]] + SplitLines(s[i + 1..])
  }

  /** Concatenating the lines gives the file's text back. */
  lemma {:induction false} SplitLinesJoin(s: string)
    ensures Joined(SplitLines(s)) == s
    decreases |s|
  {
    if s != [] {
      var i := GoPath.FirstIndex(s, '\n');
      if i == |s| {
        assert Joined([s]) == Joined([]) + s;
      } else {
        var line, more := s[..i + 1], s[i + 1..];
        assert SplitLines(s) == [line] + SplitLines(more);
        SplitLinesJoin(more);
        JoinedCons(line, SplitLines(more));
        assert line + more == s;
      }
    }
  }

  // ---------------------------------------------------------------------
  // Cutting the lines into sections
  // ---------------------------------------------------------------------

  /** A header line: stripped of surrounding whitespace it starts with `#`. */
  predicate IsHeader(line: string)
  {
    IsPrefix("#", Strip(line))
  }

  predicate NoHeader(lines: seq<string>)
  {
    forall k :: 0 <= k < |lines| ==> !IsHeader(lines[k])
  }

  /** The parser's variables between two lines: the sections closed so far,
      the title of the open section if any, and the lines buffered for it. */
  datatype ParseState = ParseState(sections: seq<Section>, title: Option<string>, buffer: seq<string>)

  const Start := ParseState([], None, [])

  /** The section list once the open section, if any, is closed. */
  function Close(st: ParseState): seq<Section>
  {
    if st.title.Some? then st.sections + [Section(st.title.value, Strip(Joined(st.buffer)))] else st.sections
  }

  /** What one line does: a header closes the open section and opens a new
      one; any other line is buffered when a section is open and is
      dropped otherwise. */
  function Step(st: ParseState, line: string): ParseState
  {
    if IsHeader(line) then ParseState(Close(st), Some(Strip(line)), [])
    else if st.title.Some? then st.(buffer := st.buffer + [line])
    else st
  }

  function FoldFrom(st: ParseState, lines: seq<string>): ParseState
  {
    if lines == [] then st else Step(FoldFrom(st, lines[..|lines| - 1]), lines[|lines| - 1])
  }

  /** `parse_markdown_sections` on the lines of a file that exists. */
  function Sections(lines: seq<string>): seq<Section>
  {
    Close(FoldFrom(Start, lines))
  }

  /** The line loop of `parse_markdown_sections`, with its three variables. */
  method ParseLines(lines: seq<string>) returns (sections: seq<Section>)
    ensures sections == Sections(lines)
  {
    sections := [];
    var currentTitle: Option<string> := None;
    var contentBuffer: seq<string> := [];
    var n := 0;
    while n < |lines|
      invariant 0 <= n <= |lines|
      invariant ParseState(sections, currentTitle, contentBuffer) == FoldFrom(Start, lines[..n])
    {
      var line := lines[n];
      assert lines[..n + 1][..n] == lines[..n];
      if IsPrefix("#", Strip(line)) {
        if currentTitle.Some? {
          sections := sections + [Section(currentTitle.value, Strip(Joined(contentBuffer)))];
        }
        currentTitle := Some(Strip(line));
        contentBuffer := [];
      } else if currentTitle.Some? {
        contentBuffer := contentBuffer + [line];
      }
      n := n + 1;
    }
    assert lines[..n] == lines;
    if currentTitle.Some? {
      sections := sections + [Section(currentTitle.value, Strip(Joined(contentBuffer)))];
    }
  }

  /** `parse_markdown_sections(file_path)`: `file` is the file's text, or
      `None` when it does not exist, in which case the error is reported on
      standard error and no section is returned. */
  method ParseFile(path: string, file: Option<string>) returns (sections: seq<Section>, stderr: seq<string>)
    ensures file.None? ==> sections == [] && stderr == ["Error: File not found at " + path]
    ensures file.Some? ==> sections == Sections(SplitLines(file.value)) && stderr == []
  {
    if file.None? {
      sections := [];
      stderr := ["Error: File not found at " + path];
    } else {
      sections := ParseLines(SplitLines(file.value));
      stderr := [];
    }
  }

  // Properties of the section parser

  lemma {:induction false} FoldAppend(st: ParseState, a: seq<string>, b: seq<string>)
    ensures FoldFrom(st, a + b) == FoldFrom(FoldFrom(st, a), b)
  {
    if b == [] {
      assert a + b == a;
    } else {
      assert (a + b)[..|a + b| - 1] == a + b[..|b| - 1];
      FoldAppend(st, a, b[..|b| - 1]);
    }
  }

  /** Lines without a header leave the parser where it started. */
  lemma {:induction false} SkipsPreamble(lines: seq<string>)
    requires NoHeader(lines)
    ensures FoldFrom(Start, lines) == Start
  {
    if lines != [] {
      SkipsPreamble(lines[..|lines| - 1]);
    }
  }

  /** A document without a header line has no section. */
  lemma NoHeaderNoSections(lines: seq<string>)
    requires NoHeader(lines)
    ensures Sections(lines) == []
  {
    SkipsPreamble(lines);
  }

  /** Lines before the first header belong to no section. */
  lemma PreambleIgnored(preamble: seq<string>, rest: seq<string>)
    requires NoHeader(preamble)
    ensures Sections(preamble + rest) == Sections(rest)
  {
    FoldAppend(Start, preamble, rest);
    SkipsPreamble(preamble);
  }

  lemma {:induction false} BufferBody(st: ParseState, body: seq<string>)
    requires st.title.Some? && NoHeader(body)
    ensures FoldFrom(st, body) == st.(buffer := st.buffer + body)
  {
    if body == [] {
      assert st.buffer + body == st.buffer;
    } else {
      BufferBody(st, body[..|body| - 1]);
      assert st.buffer + body[..|body| - 1] + [body[|body| - 1]] == st.buffer + body;
    }
  }

  /** A header followed by non-header lines adds one section after those of
      the lines before it: its title is the stripped header and its content
      the stripped concatenation of those lines. */
  lemma SectionOfHeader(before: seq<string>, header: string, body: seq<string>)
    requires IsHeader(header) && NoHeader(body)
    ensures Sections(before + [header] + body)
         == Sections(before) + [Section(Strip(header), Strip(Joined(body)))]
  {
    FoldAppend(Start, before + [header], body);
    assert (before + [header])[..|before|] == before;
    var open := FoldFrom(Start, before + [header]);
    assert open == ParseState(Sections(before), Some(Strip(header)), []);
    BufferBody(open, body);
    assert [] + body == body;
  }

  /** The stripped header lines in document order. */
  function HeaderTitles(lines: seq<string>): seq<string>
  {
    if lines == [] then []
    else
      var last := lines[|lines| - 1];
      HeaderTitles(lines[..|lines| - 1]) + (if IsHeader(last) then [Strip(last)] else [])
  }

  function Titles(sections: seq<Section>): (r: seq<string>)
    ensures |r| == |sections|
  {
    seq(|sections|, k requires 0 <= k < |sections| => sections[k].title)
  }

  function OpenTitle(st: ParseState): seq<string>
  {
    if st.title.Some? then [st.title.value] else []
  }

  lemma TitlesSnoc(sections: seq<Section>, x: Section)
    ensures Titles(sections + [x]) == Titles(sections) + [x.title]
  {
  }

  /** One line adds its stripped text to the titles seen so far exactly
      when it is a header. */
  lemma StepTitles(st: ParseState, line: string)
    ensures Titles(Step(st, line).sections) + OpenTitle(Step(st, line))
         == Titles(st.sections) + OpenTitle(st) + (if IsHeader(line) then [Strip(line)] else [])
  {
    if IsHeader(line) && st.title.Some? {
      TitlesSnoc(st.sections, Section(st.title.value, Strip(Joined(st.buffer))));
    }
  }

  lemma {:induction false} FoldTitles(lines: seq<string>)
    ensures var st := FoldFrom(Start, lines); Titles(st.sections) + OpenTitle(st) == HeaderTitles(lines)
  {
    if lines != [] {
      var init := lines[..|lines| - 1];
      FoldTitles(init);
      StepTitles(FoldFrom(Start, init), lines[|lines| - 1]);
    }
  }

  /** There is one section per header line, in document order, titled by
      the header with its surrounding whitespace stripped. */
  lemma SectionTitles(lines: seq<string>)
    ensures Titles(Sections(lines)) == HeaderTitles(lines)
  {
    FoldTitles(lines);
    var st := FoldFrom(Start, lines);
    if st.title.Some? {
      TitlesSnoc(st.sections, Section(st.title.value, Strip(Joined(st.buffer))));
    }
  }

  // ---------------------------------------------------------------------
  // Searching the sections by title

  /** The lower-cased term occurs in the lower-cased title once its leading
      `#` characters and then its surrounding whitespace are removed. */
  predicate Matches(section: Section, term: string)
  {
    IsSubstring(Lower(term), TitleKey(section.title))
  }

  /** The part of a title that the search looks at. */
  function TitleKey(title: string): string
  {
    Strip(LStripChar(Lower(title), '#'))
  }

  /** A list comprehension with a condition: the sections that satisfy
      `keep`, in their order. */
  function Filter(sections: seq<Section>, keep: Section -> bool): seq<Section>
  {
    if sections == [] then []
    else (if keep(sections[0]) then [sections[0]] else []) + Filter(sections[1..], keep)
  }

  /** `search_sections(sections, term)`. */
  function Search(sections: seq<Section>, term: string): seq<Section>
  {
    Filter(sections, s => Matches(s, term))
  }

  lemma MemberConcat<T>(x: T, a: seq<T>, b: seq<T>)
    ensures x in a + b <==> x in a || x in b
  {
  }

  lemma {:induction false} FilterMembers(sections: seq<Section>, keep: Section -> bool, x: Section)
    ensures x in Filter(sections, keep) <==> x in sections && keep(x)
  {
    if sections != [] {
      var y, tail := sections[0], sections[1..];
      FilterMembers(tail, keep, x);
      MemberConcat(x, if keep(y) then [y] else [], Filter(tail, keep));
      MemberConcat(x, [y], tail);
      assert sections == [y] + tail;
    }
  }

  /** A section is found exactly when it is one of the sections searched
      and its title matches. */
  lemma SearchMembers(sections: seq<Section>, term: string, x: Section)
    ensures x in Search(sections, term) <==> x in sections && Matches(x, term)
  {
    FilterMembers(sections, s => Matches(s, term), x);
  }

  /** `a` is `b` with some elements left out, in the same order. */
  predicate Subsequence<T(==)>(a: seq<T>, b: seq<T>)
    decreases |b|
  {
    if a == [] then true
    else if b == [] then false
    else (a[0] == b[0] && Subsequence(a[1..], b[1..])) || Subsequence(a, b[1..])
  }

  lemma {:induction false} FilterSubsequence(sections: seq<Section>, keep: Section -> bool)
    ensures Subsequence(Filter(sections, keep), sections)
  {
    if sections != [] {
      FilterSubsequence(sections[1..], keep);
      var r := Filter(sections, keep);
      if keep(sections[0]) {
        assert r[0] == sections[0] && r[1..] == Filter(sections[1..], keep);
      } else {
        assert r == Filter(sections[1..], keep);
      }
    }
  }

  /** The result keeps the order of the input and adds nothing. */
  lemma SearchSubsequence(sections: seq<Section>, term: string)
    ensures Subsequence(Search(sections, term), sections)
  {
    FilterSubsequence(sections, s => Matches(s, term));
  }

  lemma {:induction false} FilterIdempotent(sections: seq<Section>, keep: Section -> bool)
    ensures Filter(Filter(sections, keep), keep) == Filter(sections, keep)
  {
    if sections != [] {
      FilterIdempotent(sections[1..], keep);
      var rest := Filter(sections[1..], keep);
      if keep(sections[0]) {
        var once := [sections[0]] + rest;
        assert once[0] == sections[0] && once[1..] == rest;
      } else {
        assert Filter(sections, keep) == rest;
      }
    }
  }

  /** Searching the result of a search again with the same term keeps it. */
  lemma SearchIdempotent(sections: seq<Section>, term: string)
    ensures Search(Search(sections, term), term) == Search(sections, term)
  {
    FilterIdempotent(sections, s => Matches(s, term));
  }

  /** Filters that agree on the sections select the same ones. */
  lemma {:induction false} FilterAgree(sections: seq<Section>, keep: Section -> bool, keep': Section -> bool)
    requires forall k :: 0 <= k < |sections| ==> keep(sections[k]) == keep'(sections[k])
    ensures Filter(sections, keep) == Filter(sections, keep')
  {
    if sections != [] {
      assert keep(sections[0]) == keep'(sections[0]);
      forall k | 0 <= k < |sections[1..]| ensures keep(sections[1..][k]) == keep'(sections[1..][k]) {
        assert sections[1..][k] == sections[k + 1];
      }
      FilterAgree(sections[1..], keep, keep');
    }
  }

  lemma {:induction false} FilterAll(sections: seq<Section>, keep: Section -> bool)
    requires forall k :: 0 <= k < |sections| ==> keep(sections[k])
    ensures Filter(sections, keep) == sections
  {
    if sections != [] {
      assert keep(sections[0]);
      forall k | 0 <= k < |sections[1..]| ensures keep(sections[1..][k]) {
        assert sections[1..][k] == sections[k + 1];
      }
      FilterAll(sections[1..], keep);
      assert [sections[0]] + sections[1..] == sections;
    }
  }

  lemma EmptyTermMatches(section: Section, term: string)
    requires term == ""
    ensures Matches(section, term)
  {
    EmptyIsSubstring(TitleKey(section.title));
  }

  /** The empty term selects every section. */
  lemma EmptyTermMatchesAll(sections: seq<Section>, term: string)
    requires term == ""
    ensures Search(sections, term) == sections
  {
    forall k | 0 <= k < |sections| ensures Matches(sections[k], term) {
      EmptyTermMatches(sections[k], term);
    }
    FilterAll(sections, s => Matches(s, term));
  }

  /** The case of the term does not matter. */
  lemma SearchIgnoresCase(sections: seq<Section>, term: string)
    ensures Search(sections, Lower(term)) == Search(sections, term)
  {
    LowerIdempotent(term);
    FilterAgree(sections, s => Matches(s, Lower(term)), s => Matches(s, term));
  }

  /** Two titles that differ only in ASCII case match the same terms. */
  lemma TitleCaseIgnored(x: Section, y: Section, term: string)
    requires Lower(x.title) == Lower(y.title)
    ensures Matches(x, term) <==> Matches(y, term)
  {
  }

  /** Section lists that agree up to the case of their titles. */
  ghost predicate SameUpToCase(a: seq<Section>, b: seq<Section>)
  {
    && |a| == |b|
    && forall i :: 0 <= i < |a| ==> Lower(a[i].title) == Lower(b[i].title) && a[i].content == b[i].content
  }

  /** Changing the case of titles changes neither which sections are
      found nor their order. */
  lemma SearchIgnoresTitleCase(a: seq<Section>, b: seq<Section>, term: string)
    requires SameUpToCase(a, b)
    ensures SameUpToCase(Search(a, term), Search(b, term))
  {
    forall i | 0 <= i < |a| ensures Matches(a[i], term) <==> Matches(b[i], term) {
      TitleCaseIgnored(a[i], b[i], term);
    }
    FilterPointwise(a, b, s => Matches(s, term), s => Matches(s, term));
  }

  /** Filters that agree position by position keep lists that agree up to
      title case in agreement. */
  lemma {:induction false} FilterPointwise(a: seq<Section>, b: seq<Section>, ka: Section -> bool, kb: Section -> bool)
    requires SameUpToCase(a, b)
    requires forall i :: 0 <= i < |a| ==> (ka(a[i]) <==> kb(b[i]))
    ensures SameUpToCase(Filter(a, ka), Filter(b, kb))
  {
    if a != [] {
      FilterPointwise(a[1..], b[1..], ka, kb);
      var ha := if ka(a[0]) then [a[0]] else [];
      var hb := if kb(b[0]) then [b[0]] else [];
      SameUpToCaseConcat(ha, hb, Filter(a[1..], ka), Filter(b[1..], kb));
    }
  }

  lemma SameUpToCaseConcat(ha: seq<Section>, hb: seq<Section>, ra: seq<Section>, rb: seq<Section>)
    requires SameUpToCase(ha, hb) && SameUpToCase(ra, rb)
    ensures SameUpToCase(ha + ra, hb + rb)
  {
    forall i | 0 <= i < |ha + ra|
      ensures Lower((ha + ra)[i].title) == Lower((hb + rb)[i].title) && (ha + ra)[i].content == (hb + rb)[i].content
    {
      if i >= |ha| {
        assert (ha + ra)[i] == ra[i - |ha|] && (hb + rb)[i] == rb[i - |ha|];
      }
    }
  }
}
