/** The line-based Markdown-to-HTML renderer `renderMarkdown`, present
    identically in the workout and meal suggesters. The text is split at
    '\n'; each line becomes an HTML fragment, threading one flag `listOpen`;
    the fragments are joined with no separator and a list still open at the
    end is closed.

    The renderer is specified on a sequence of fragments (`Fragment`) whose
    HTML is their concatenation; `RenderMarkdown` is the source's loop,
    proved to build exactly that HTML. */
module Markdown {
  import opened Common

  // ---------------------------------------------------------------------
  // `text.split('\n')` and its inverse `lines.join('\n')`
  // ---------------------------------------------------------------------

  /** `s.split('\n')`: always at least one piece, none containing '\n'. */
  function SplitLines(s: string): (lines: seq<string>)
    ensures |lines| >= 1
    ensures forall i :: 0 <= i < |lines| ==> '\n' !in lines[i]
    decreases |s|
  {
    if s == [] then [[]]
    else
      var rest := SplitLines(s[1..]);
      if s[0] == '\n' then [[]] + rest
      else [[s[0]] + rest[0]] + rest[1..]
  }

  /** `lines.join('\n')` */
  function JoinLines(lines: seq<string>): string
    requires |lines| >= 1
    decreases |lines|
  {
    if |lines| == 1 then lines[0] else lines[0] + "\n" + JoinLines(lines[1..])
  }

  /** Joining the pieces of a split gives the text back. */
  lemma {:induction false} JoinSplitLines(s: string)
    ensures JoinLines(SplitLines(s)) == s
    decreases |s|
  {
    if s != [] {
      var rest := SplitLines(s[1..]);
      JoinSplitLines(s[1..]);
      if s[0] == '\n' {
        assert SplitLines(s) == [[]] + rest;
        assert ([[]] + rest)[1..] == rest;
      } else {
        assert SplitLines(s) == [[s[0]] + rest[0]] + rest[1..];
        JoinExtendsFirst(s[0], rest);
        assert s == [s[0]] + s[1..];
      }
    }
  }

  /** Putting a character in front of the first line puts it in front of
      the join. */
  lemma {:induction false} JoinExtendsFirst(c: char, lines: seq<string>)
    requires |lines| >= 1
    ensures JoinLines([[c] + lines[0]] + lines[1..]) == [c] + JoinLines(lines)
  {
    var first := [c] + lines[0];
    var longer := [first] + lines[1..];
    if |lines| == 1 {
      assert longer == [first];
    } else {
      var tail := JoinLines(lines[1..]);
      assert longer[0] == first && longer[1..] == lines[1..];
      assert JoinLines(longer) == first + "\n" + tail;
      assert JoinLines(lines) == lines[0] + "\n" + tail;
      assert first + "\n" + tail == [c] + (lines[0] + "\n" + tail);
    }
  }

  /** Splitting `a + t` where `a` has no '\n' extends the first piece of `t`. */
  lemma {:induction false} SplitLinesPrefix(a: string, t: string)
    requires '\n' !in a
    ensures SplitLines(a + t) == [a + SplitLines(t)[0]] + SplitLines(t)[1..]
    decreases |a|
  {
    var x := SplitLines(t);
    if a == [] {
      assert a + t == t;
      assert a + x[0] == x[0];
      assert [x[0]] + x[1..] == x;
    } else {
      SplitLinesPrefix(a[1..], t);
      assert (a + t)[1..] == a[1..] + t;
      assert (a + t)[0] == a[0];
      assert [a[0]] + (a[1..] + x[0]) == a + x[0];
    }
  }

  /** Splitting a join of '\n'-free lines gives the lines back. */
  lemma {:induction false} SplitJoinLines(lines: seq<string>)
    requires |lines| >= 1
    requires forall i :: 0 <= i < |lines| ==> '\n' !in lines[i]
    ensures SplitLines(JoinLines(lines)) == lines
    decreases |lines|
  {
    if |lines| == 1 {
      SplitLinesPrefix(lines[0], []);
      assert lines[0] + [] == lines[0];
      assert SplitLines([]) == [[]];
    } else {
      var tail := JoinLines(lines[1..]);
      SplitJoinLines(lines[1..]);
      SplitLinesPrefix(lines[0], "\n" + tail);
      assert lines[0] + "\n" + tail == lines[0] + ("\n" + tail);
      assert ("\n" + tail)[1..] == tail;
      var S := SplitLines("\n" + tail);
      assert S == [[]] + SplitLines(tail);
      assert S[0] == [] && S[1..] == lines[1..];
      assert lines[0] + S[0] == lines[0];
      assert JoinLines(lines) == lines[0] + "\n" + tail;
      assert lines == [lines[0]] + lines[1..];
    }
  }

  // ---------------------------------------------------------------------
  // `line.replace(/\*\*(.*?)\*\*/g, '<strong>$1</strong>')`
  // ---------------------------------------------------------------------

  /** The characters the regular expression `.` does not match. */
  predicate IsLineTerminator(c: char) {
    c == '\n' || c == '\r' || c == '\U{2028}' || c == '\U{2029}'
  }

  predicate StarPairAt(s: string, j: int) {
    0 <= j && j + 1 < |s| && s[j] == '*' && s[j + 1] == '*'
  }

  /** A closing `**` at `j` for a bold run whose text starts at `k`:
      `.*?` can reach `j` only across non-terminator characters. */
  predicate ClosesAt(s: string, k: int, j: int) {
    0 <= k <= j && StarPairAt(s, j) && forall m :: k <= m < j ==> !IsLineTerminator(s[m])
  }

  /** The lazy `(.*?)\*\*` search: the first position where the bold run
      opened before `k` can close, if any. */
  function FindClose(s: string, k: nat): (r: Option<nat>)
    requires k <= |s|
    ensures r.Some? ==> ClosesAt(s, k, r.value)
    ensures r.Some? ==> forall j :: k <= j < r.value ==> !ClosesAt(s, k, j)
    ensures r.None? ==> forall j :: !ClosesAt(s, k, j)
    decreases |s| - k
  {
    if k + 1 >= |s| then None
    else if s[k] == '*' && s[k + 1] == '*' then Some(k)
    else if IsLineTerminator(s[k]) then None
    else
      var r := FindClose(s, k + 1);
      assert forall j :: ClosesAt(s, k, j) && j != k ==> ClosesAt(s, k + 1, j);
      r
  }

  /** The global, left-to-right, non-overlapping bold replacement. */
  function ReplaceBold(s: string): string
    decreases |s|
  {
    if |s| < 2 then s
    else if s[0] == '*' && s[1] == '*' then
      match FindClose(s, 2)
      case Some(j) => "<strong>" + s[2..j] + "</strong>" + ReplaceBold(s[j + 2..])
      case None => [s[0]] + ReplaceBold(s[1..])
    else [s[0]] + ReplaceBold(s[1..])
  }

  /** Text without '*' is copied unchanged, and so is a '*'-free prefix. */
  lemma {:induction false} BoldCopiesStarFreePrefix(a: string, b: string)
    requires '*' !in a
    ensures ReplaceBold(a + b) == a + ReplaceBold(b)
    decreases |a|
  {
    if a != [] {
      var s := a + b;
      assert s[0] == a[0] && s[1..] == a[1..] + b;
      BoldCopiesStarFreePrefix(a[1..], b);
      calc {
        ReplaceBold(s);
        [s[0]] + ReplaceBold(s[1..]);
        [a[0]] + (a[1..] + ReplaceBold(b));
        { assert a == [a[0]] + a[1..]; }
        a + ReplaceBold(b);
      }
    } else {
      assert a + b == b;
    }
  }

  /** A `**text**` pair is replaced by `<strong>text</strong>`, and the
      rest is processed on, whenever the text holds no `**`, does not end in
      '*' and has no line terminator: then the first closing pair the lazy
      match can reach is the one after the text. */
  lemma BoldPairReplaced(t: string, rest: string)
    requires forall m :: 0 <= m < |t| - 1 ==> !(t[m] == '*' && t[m + 1] == '*')
    requires t == [] || t[|t| - 1] != '*'
    requires forall m :: 0 <= m < |t| ==> !IsLineTerminator(t[m])
    ensures ReplaceBold("**" + t + "**" + rest)
         == "<strong>" + t + "</strong>" + ReplaceBold(rest)
  {
    var s := "**" + t + "**" + rest;
    var j := 2 + |t|;
    assert forall m :: 2 <= m < j ==> s[m] == t[m - 2];
    assert s[j] == '*' && s[j + 1] == '*';
    assert s[2..j] == t;
    assert ClosesAt(s, 2, j);
    forall m | 2 <= m < j
      ensures !StarPairAt(s, m)
    {
      if m + 1 < j {
        assert s[m + 1] == t[m - 1];
      }
    }
    assert FindClose(s, 2) == Some(j);
    assert s[j + 2..] == rest;
  }

  /** Only the empty line is empty after replacement. */
  lemma {:induction false} BoldEmptyIff(s: string)
    ensures ReplaceBold(s) == [] <==> s == []
  {
    if |s| >= 2 && s[0] == '*' && s[1] == '*' && FindClose(s, 2).Some? {
      assert ReplaceBold(s)[0] == '<';
    } else if |s| >= 2 {
      assert ReplaceBold(s)[0] == s[0];
    }
  }

  // ---------------------------------------------------------------------
  // Fragments and their HTML
  // ---------------------------------------------------------------------

  datatype HeadingLevel = H3 | H4 | H5

  /** What one step of the renderer emits. */
  datatype Fragment =
    | Heading(level: HeadingLevel, text: string)
    | OpenList
    | Item(text: string)
    | CloseList
    | Paragraph(text: string)

  function FragmentHtml(f: Fragment): string {
    match f
    case Heading(H3, t) => "<h3>" + t + "</h3>"
    case Heading(H4, t) => "<h4>" + t + "</h4>"
    case Heading(H5, t) => "<h5>" + t + "</h5>"
    case OpenList => "<ul>"
    case Item(t) => "<li>" + t + "</li>"
    case CloseList => "</ul>"
    case Paragraph(t) => "<p>" + t + "</p>"
  }

  /** The fragments' HTML concatenated with no separator. */
  function Html(fs: seq<Fragment>): string
    decreases |fs|
  {
    if fs == [] then "" else FragmentHtml(fs[0]) + Html(fs[1..])
  }

  lemma {:induction false} HtmlAppend(a: seq<Fragment>, b: seq<Fragment>)
    ensures Html(a + b) == Html(a) + Html(b)
    decreases |a|
  {
    if a != [] {
      assert (a + b)[0] == a[0] && (a + b)[1..] == a[1..] + b;
      HtmlAppend(a[1..], b);
    } else {
      assert a + b == b;
    }
  }

  lemma HtmlPair(a: Fragment, b: Option<Fragment>)
    ensures Html([a]) == FragmentHtml(a)
    ensures b.Some? ==> Html([a, b.value]) == FragmentHtml(a) + FragmentHtml(b.value)
  {
    assert Html([a]) == FragmentHtml(a) + Html([]);
    if b.Some? {
      assert [a, b.value][1..] == [b.value];
      assert Html([b.value]) == FragmentHtml(b.value) + Html([]);
    }
  }

  /** "### ", "## " and "# " exclude one another. */
  lemma MarkersExclusive(line: string)
    ensures StartsWith(line, "### ") ==> !StartsWith(line, "## ") && !StartsWith(line, "# ")
    ensures StartsWith(line, "## ") ==> !StartsWith(line, "# ")
  {
    if StartsWith(line, "### ") {
      assert line[..4][1] == line[1] && line[..4][2] == line[2];
    }
    if StartsWith(line, "## ") {
      assert line[..3][1] == line[1];
    }
  }

  // ---------------------------------------------------------------------
  // The renderer as a fold over lines
  // ---------------------------------------------------------------------

  datatype LineResult = LineResult(fragments: seq<Fragment>, listOpen: bool)

  /** One line, given whether a list is open: headings first (longest
      marker first, no bold processing, list left as it is), then bold
      replacement, then list items, then paragraphs. */
  function RenderLine(line: string, listOpen: bool): LineResult {
    if StartsWith(line, "### ") then LineResult([Heading(H5, line[4..])], listOpen)
    else if StartsWith(line, "## ") then LineResult([Heading(H4, line[3..])], listOpen)
    else if StartsWith(line, "# ") then LineResult([Heading(H3, line[2..])], listOpen)
    else
      var b := ReplaceBold(line);
      if StartsWith(b, "* ") || StartsWith(b, "- ") then
        LineResult((if listOpen then [] else [OpenList]) + [Item(b[2..])], true)
      else
        LineResult((if listOpen then [CloseList] else []) + (if b != "" then [Paragraph(b)] else []), false)
  }

  /** The lines rendered in order from the given list state, with a list
      still open after the last line closed. */
  function RenderLines(lines: seq<string>, listOpen: bool): seq<Fragment>
    decreases |lines|
  {
    if lines == [] then (if listOpen then [CloseList] else [])
    else
      var r := RenderLine(lines[0], listOpen);
      r.fragments + RenderLines(lines[1..], r.listOpen)
  }

  function Render(text: string): seq<Fragment> {
    RenderLines(SplitLines(text), false)
  }

  /** The callback mapped over the lines: the HTML for one line, and the
      new value of the captured `listOpen` flag. */
  method RenderLineHtml(line: string, listOpen: bool) returns (fragment: string, listOpenAfter: bool)
    ensures fragment == Html(RenderLine(line, listOpen).fragments)
    ensures listOpenAfter == RenderLine(line, listOpen).listOpen
  {
    listOpenAfter := listOpen;
    MarkersExclusive(line);
    if StartsWith(line, "### ") {
      HtmlPair(Heading(H5, line[4..]), None);
      return "<h5>" + line[4..] + "</h5>", listOpenAfter;
    }
    if StartsWith(line, "## ") {
      HtmlPair(Heading(H4, line[3..]), None);
      return "<h4>" + line[3..] + "</h4>", listOpenAfter;
    }
    if StartsWith(line, "# ") {
      HtmlPair(Heading(H3, line[2..]), None);
      return "<h3>" + line[2..] + "</h3>", listOpenAfter;
    }

    var bold := ReplaceBold(line);

    if StartsWith(bold, "* ") || StartsWith(bold, "- ") {
      var listItem := "<li>" + bold[2..] + "</li>";
      HtmlPair(Item(bold[2..]), None);
      if !listOpenAfter {
        listItem := "<ul>" + listItem;
        listOpenAfter := true;
        HtmlPair(OpenList, Some(Item(bold[2..])));
      }
      return listItem, listOpenAfter;
    }

    var closingTag := "";
    if listOpenAfter {
      closingTag := "</ul>";
      listOpenAfter := false;
    }
    var paragraph := if bold != "" then "<p>" + bold + "</p>" else "";
    HtmlPair(CloseList, Some(Paragraph(bold)));
    HtmlPair(Paragraph(bold), None);
    HtmlPair(CloseList, None);
    fragment := closingTag + paragraph;
  }

  /** The fragments of the first `n` lines and the list flag after them:
      the state of the source's `map` callback after `n` calls. */
  function Prefix(lines: seq<string>, n: nat): (r: LineResult)
    requires n <= |lines|
    decreases n
  {
    if n == 0 then LineResult([], false)
    else
      var before := Prefix(lines, n - 1);
      var step := RenderLine(lines[n - 1], before.listOpen);
      LineResult(before.fragments + step.fragments, step.listOpen)
  }

  /** The rendering of all lines is the rendering of the first `n`
      followed by that of the rest, started from the flag they leave. */
  lemma {:induction false} PrefixThenRest(lines: seq<string>, n: nat)
    requires n <= |lines|
    ensures RenderLines(lines, false)
         == Prefix(lines, n).fragments + RenderLines(lines[n..], Prefix(lines, n).listOpen)
    decreases n
  {
    if n == 0 {
      assert lines[0..] == lines;
    } else {
      PrefixThenRest(lines, n - 1);
      var before := Prefix(lines, n - 1);
      var step := RenderLine(lines[n - 1], before.listOpen);
      assert lines[n - 1..][0] == lines[n - 1] && lines[n - 1..][1..] == lines[n..];
      assert RenderLines(lines[n - 1..], before.listOpen) == step.fragments + RenderLines(lines[n..], step.listOpen);
      assert before.fragments + (step.fragments + RenderLines(lines[n..], step.listOpen))
          == (before.fragments + step.fragments) + RenderLines(lines[n..], step.listOpen);
    }
  }

  /** One call of the callback extends the prefix by one line: its HTML
      grows by the line's fragment and the flag becomes the callback's. */
  lemma PrefixStep(lines: seq<string>, i: nat, html: string, open: bool, fragment: string, openAfter: bool)
    requires i < |lines|
    requires html == Html(Prefix(lines, i).fragments) && open == Prefix(lines, i).listOpen
    requires fragment == Html(RenderLine(lines[i], open).fragments)
    requires openAfter == RenderLine(lines[i], open).listOpen
    ensures html + fragment == Html(Prefix(lines, i + 1).fragments)
    ensures openAfter == Prefix(lines, i + 1).listOpen
  {
    HtmlAppend(Prefix(lines, i).fragments, RenderLine(lines[i], open).fragments);
  }

  /** After every line, closing a list still open completes the page. */
  lemma PrefixFinish(text: string, html: string, open: bool)
    requires var lines := SplitLines(text);
             html == Html(Prefix(lines, |lines|).fragments) && open == Prefix(lines, |lines|).listOpen
    ensures (if open then html + "</ul>" else html) == Html(Render(text))
  {
    var lines := SplitLines(text);
    PrefixThenRest(lines, |lines|);
    assert lines[|lines|..] == [];
    var closing: seq<Fragment> := if open then [CloseList] else [];
    HtmlAppend(Prefix(lines, |lines|).fragments, closing);
    if open {
      assert Html(closing) == FragmentHtml(CloseList) + Html([]);
    } else {
      assert Prefix(lines, |lines|).fragments + closing == Prefix(lines, |lines|).fragments;
    }
  }

  /** One call of the callback on line `i`, appended to the HTML so far. */
  method RenderNextLine(lines: seq<string>, i: nat, html: string, listOpen: bool)
    returns (html': string, listOpen': bool)
    requires i < |lines|
    requires html == Html(Prefix(lines, i).fragments) && listOpen == Prefix(lines, i).listOpen
    ensures html' == Html(Prefix(lines, i + 1).fragments) && listOpen' == Prefix(lines, i + 1).listOpen
  {
    var fragment;
    fragment, listOpen' := RenderLineHtml(lines[i], listOpen);
    PrefixStep(lines, i, html, listOpen, fragment, listOpen');
    html' := html + fragment;
  }

  /** `renderMarkdown(text)`: the HTML string handed to the page. */
  method RenderMarkdown(text: string) returns (html: string)
    ensures html == Html(Render(text))
  {
    var lines := SplitLines(text);
    var listOpen := false;
    html := "";
    var i := 0;
    while i < |lines|
      invariant 0 <= i <= |lines|
      invariant html == Html(Prefix(lines, i).fragments) && listOpen == Prefix(lines, i).listOpen
    {
      html, listOpen := RenderNextLine(lines, i, html, listOpen);
      i := i + 1;
    }
    PrefixFinish(text, html, listOpen);
    if listOpen {
      html := html + "</ul>";
    }
  }

  // ---------------------------------------------------------------------
  // Tag discipline
  // ---------------------------------------------------------------------

  /** Reads the fragments from the list state `open`: a list is opened
      only when none is open (no nesting), closed only when one is open,
      items appear only inside a list and paragraphs only outside one.
      The list state afterwards, or None if the discipline is broken. */
  function ListState(fs: seq<Fragment>, open: bool): Option<bool>
    decreases |fs|
  {
    if fs == [] then Some(open)
    else
      var next: Option<bool> :=
        match fs[0]
        case OpenList => if open then None else Some(true)
        case CloseList => if open then Some(false) else None
        case Item(_) => if open then Some(true) else None
        case Paragraph(_) => if open then None else Some(false)
        case Heading(_, _) => Some(open);
      if next.None? then None else ListState(fs[1..], next.value)
  }

  lemma {:induction false} ListStateAppend(a: seq<Fragment>, b: seq<Fragment>, open: bool)
    requires ListState(a, open).Some?
    ensures ListState(a + b, open) == ListState(b, ListState(a, open).value)
    decreases |a|
  {
    if a == [] {
      assert a + b == b;
    } else {
      assert (a + b)[0] == a[0] && (a + b)[1..] == a[1..] + b;
      var next := match a[0]
        case OpenList => !open
        case CloseList => false
        case Item(_) => true
        case Paragraph(_) => false
        case Heading(_, _) => open;
      ListStateAppend(a[1..], b, next);
    }
  }

  lemma RenderLineState(line: string, open: bool)
    ensures ListState(RenderLine(line, open).fragments, open) == Some(RenderLine(line, open).listOpen)
  {
    var r := RenderLine(line, open);
    if StartsWith(line, "### ") || StartsWith(line, "## ") || StartsWith(line, "# ") {
      assert |r.fragments| == 1 && r.fragments[0].Heading? && r.listOpen == open;
      assert r.fragments[1..] == [];
    } else {
      var b := ReplaceBold(line);
      if StartsWith(b, "* ") || StartsWith(b, "- ") {
        var item := Item(b[2..]);
        assert ListState([item], true) == ListState([], true);
        if !open {
          assert r.fragments == [OpenList, item];
          assert r.fragments[1..] == [item];
        } else {
          assert r.fragments == [item];
        }
      } else {
        var para := Paragraph(b);
        assert ListState([para], false) == ListState([], false);
        if open && b != "" {
          assert r.fragments == [CloseList, para];
          assert r.fragments[1..] == [para];
        } else if open {
          assert r.fragments == [CloseList];
          assert ListState([CloseList], true) == ListState([], false);
        } else if b != "" {
          assert r.fragments == [para];
        } else {
          assert r.fragments == [];
        }
      }
    }
  }

  /** Whatever the lines, the rendered fragments keep the list discipline
      and leave no list open. */
  lemma {:induction false} RenderLinesDiscipline(lines: seq<string>, open: bool)
    ensures ListState(RenderLines(lines, open), open) == Some(false)
    decreases |lines|
  {
    if lines == [] {
      if open {
        assert ListState([CloseList], true) == ListState([], false);
      }
    } else {
      var r := RenderLine(lines[0], open);
      RenderLineState(lines[0], open);
      ListStateAppend(r.fragments, RenderLines(lines[1..], r.listOpen), open);
      RenderLinesDiscipline(lines[1..], r.listOpen);
    }
  }

  function CountOf(fs: seq<Fragment>, f: Fragment): nat
    decreases |fs|
  {
    if fs == [] then 0 else (if fs[0] == f then 1 else 0) + CountOf(fs[1..], f)
  }

  /** Opening and closing tags balance along any run that keeps the
      discipline, accounting for the list open at each end. */
  lemma {:induction false} ListStateCounts(fs: seq<Fragment>, open: bool)
    requires ListState(fs, open).Some?
    ensures CountOf(fs, OpenList) + (if open then 1 else 0)
         == CountOf(fs, CloseList) + (if ListState(fs, open).value then 1 else 0)
    decreases |fs|
  {
    if fs != [] {
      var next := match fs[0]
        case OpenList => !open
        case CloseList => false
        case Item(_) => true
        case Paragraph(_) => false
        case Heading(_, _) => open;
      ListStateCounts(fs[1..], next);
    }
  }

  /** The renderer emits exactly as many `<ul>` as `</ul>`, never nests
      lists, puts every item inside a list and leaves no list open. */
  lemma RenderBalanced(text: string)
    ensures ListState(Render(text), false) == Some(false)
    ensures CountOf(Render(text), OpenList) == CountOf(Render(text), CloseList)
  {
    RenderLinesDiscipline(SplitLines(text), false);
    ListStateCounts(Render(text), false);
  }

  // ---------------------------------------------------------------------
  // Per-line behaviour
  // ---------------------------------------------------------------------

  /** A heading line yields one heading with its marker removed, and
      leaves the list state as it was: a heading after list items does not
      close the list. */
  lemma HeadingLine(line: string, open: bool)
    requires StartsWith(line, "# ") || StartsWith(line, "## ") || StartsWith(line, "### ")
    ensures RenderLine(line, open).listOpen == open
    ensures |RenderLine(line, open).fragments| == 1
    ensures StartsWith(line, "### ") ==> RenderLine(line, open).fragments == [Heading(H5, line[4..])]
    ensures StartsWith(line, "## ") ==> RenderLine(line, open).fragments == [Heading(H4, line[3..])]
    ensures StartsWith(line, "# ") ==> RenderLine(line, open).fragments == [Heading(H3, line[2..])]
  {
    MarkersExclusive(line);
  }

  /** A list line opens a list only if none is open; afterwards one is. */
  lemma ListItemLine(line: string, open: bool)
    requires !StartsWith(line, "# ") && !StartsWith(line, "## ") && !StartsWith(line, "### ")
    requires StartsWith(ReplaceBold(line), "* ") || StartsWith(ReplaceBold(line), "- ")
    ensures RenderLine(line, open).listOpen
    ensures RenderLine(line, open).fragments
         == (if open then [] else [OpenList]) + [Item(ReplaceBold(line)[2..])]
  {
  }

  /** Any other line closes an open list, and the empty line emits
      nothing else. */
  lemma OtherLine(line: string, open: bool)
    requires !StartsWith(line, "# ") && !StartsWith(line, "## ") && !StartsWith(line, "### ")
    requires !StartsWith(ReplaceBold(line), "* ") && !StartsWith(ReplaceBold(line), "- ")
    ensures !RenderLine(line, open).listOpen
    ensures line == "" ==> RenderLine(line, open).fragments == (if open then [CloseList] else [])
    ensures line != "" ==>
      RenderLine(line, open).fragments == (if open then [CloseList] else []) + [Paragraph(ReplaceBold(line))]
  {
    BoldEmptyIff(line);
  }

  /** A non-empty line with no '*' and no marker becomes a paragraph
      holding the line as it is: text is copied unescaped. */
  lemma PlainLineParagraph(line: string)
    requires line != [] && '*' !in line
    requires line[0] != '#' && line[0] != '-'
    ensures RenderLine(line, false) == LineResult([Paragraph(line)], false)
    ensures Html(RenderLine(line, false).fragments) == "<p>" + line + "</p>"
  {
    BoldCopiesStarFreePrefix(line, []);
    assert line + [] == line;
    assert ReplaceBold([]) == [];
  }
}
