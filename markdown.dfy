/** `renderMarkdown` of the Firefox popup on plain text: the heading
    rewrites, the newline passes, the paragraph wrap and the final clean-up.

    The HTML under construction is a sequence of tokens: a character of the
    input, or a whole tag whose text (with its style attribute) is a
    constant. On plain text (`PlainMarkdown`) the input holds no `<` or `>`,
    so a regular expression that matches a tag can only match a whole tag
    token, and each pass below is the corresponding `replace` on tokens. */
module Markdown {
  import opened JsString
  import opened Seqs

  datatype Block = H1 | H2 | H3 | P

  datatype Tok =
    | Chr(c: char)            // a character of the text
    | StyledOpen(b: Block)    // `<h3 style="…">`, `<p style="…">`
    | PlainOpen(b: Block)     // `<p>`, `<h3>`
    | Close(b: Block)         // `</p>`, `</h3>`

  const H1Open: string := "<h1 style=\"margin: 0.5em 0 0.25em;\">"
  const H2Open: string := "<h2 style=\"margin: 0.5em 0 0.25em;\">"
  const H3Open: string := "<h3 style=\"margin: 0.5em 0 0.25em;\">"
  const POpen: string := "<p style=\"margin:0.25em 0;line-height:1.3;\">"

  function BlockName(b: Block): string
  {
    match b
    case H1 => "h1"
    case H2 => "h2"
    case H3 => "h3"
    case P => "p"
  }

  function StyledOpenText(b: Block): string
  {
    match b
    case H1 => H1Open
    case H2 => H2Open
    case H3 => H3Open
    case P => POpen
  }

  // One lemma per constant keeps each membership check a small proof.
  lemma H1OpenHasNoNewline() ensures '\n' !in H1Open {}
  lemma H2OpenHasNoNewline() ensures '\n' !in H2Open {}
  lemma H3OpenHasNoNewline() ensures '\n' !in H3Open {}
  lemma POpenHasNoNewline() ensures '\n' !in POpen {}

  lemma StyledOpenHasNoNewline(b: Block)
    ensures '\n' !in StyledOpenText(b)
  {
    match b
    case H1 => H1OpenHasNoNewline();
    case H2 => H2OpenHasNoNewline();
    case H3 => H3OpenHasNoNewline();
    case P => POpenHasNoNewline();
  }

  function TokText(tok: Tok): (s: string)
    ensures '\n' !in s || tok == Chr('\n')
  {
    match tok
    case Chr(c) => [c]
    case StyledOpen(b) => StyledOpenHasNoNewline(b); StyledOpenText(b)
    case PlainOpen(b) => "<" + BlockName(b) + ">"
    case Close(b) => "</" + BlockName(b) + ">"
  }

  /** The HTML text of a token sequence. */
  function Render(t: seq<Tok>): (s: string)
    ensures (forall i :: 0 <= i < |t| ==> t[i] != Chr('\n')) ==> '\n' !in s
  {
    if t == [] then [] else TokText(t[0]) + Render(t[1..])
  }

  function Chars(s: string): (t: seq<Tok>)
    ensures |t| == |s|
    ensures forall i :: 0 <= i < |s| ==> t[i] == Chr(s[i])
  {
    seq(|s|, i requires 0 <= i < |s| => Chr(s[i]))
  }

  lemma {:induction false} RenderChars(s: string)
    ensures Render(Chars(s)) == s
  {
    if s != [] {
      assert Chars(s)[1..] == Chars(s[1..]);
      RenderChars(s[1..]);
    }
  }

  lemma {:induction false} RenderAppend(a: seq<Tok>, b: seq<Tok>)
    ensures Render(a + b) == Render(a) + Render(b)
  {
    if a != [] {
      ConsAppend(a, b);
      RenderAppend(a[1..], b);
      AppendAssoc(TokText(a[0]), Render(a[1..]), Render(b));
    } else {
      EmptyAppend(b);
    }
  }

  // ---------------------------------------------------------------------
  // the plain-text inputs
  // ---------------------------------------------------------------------

  /** The first character of `line` that is not whitespace, if any. */
  predicate FirstVisibleIs(line: string, ok: char -> bool)
  {
    var k := LeadingWhitespace(line);
    k < |line| && ok(line[k])
  }

  /** Text on which the inline, code, quote, list and link rewrites do not
      fire and whose only line terminator is LF. */
  predicate PlainMarkdown(md: string)
  {
    && (forall i :: 0 <= i < |md| ==>
          md[i] !in {'*', '_', '`', '[', '<', '>', '\r', '\U{2028}', '\U{2029}'})
    && (forall line :: line in Split(md) ==>
          !StartsWith(line, "    ") &&
          !FirstVisibleIs(line, c => c == '-' || IsDigit(c)))
  }

  // ---------------------------------------------------------------------
  // lines 396-398: the heading rewrites
  // ---------------------------------------------------------------------

  /** One line after `^### (.*$)`, `^## (.*$)` and `^# (.*$)`, in that order. */
  function HeadingLine(line: string): seq<Tok>
  {
    if StartsWith(line, "### ") then [StyledOpen(H3)] + Chars(line[4..]) + [Close(H3)]
    else if StartsWith(line, "## ") then [StyledOpen(H2)] + Chars(line[3..]) + [Close(H2)]
    else if StartsWith(line, "# ") then [StyledOpen(H1)] + Chars(line[2..]) + [Close(H1)]
    else Chars(line)
  }

  function HeadingLines(lines: seq<string>): seq<Tok>
    requires |lines| >= 1
  {
    HeadingLine(lines[0]) + if |lines| == 1 then [] else [Chr('\n')] + HeadingLines(lines[1..])
  }

  function Headings(md: string): seq<Tok>
  {
    HeadingLines(Split(md))
  }

  /** A `### ` line becomes an h3 heading. */
  lemma ThreeHashesMakeH3(x: string)
    ensures HeadingLine("### " + x) == [StyledOpen(H3)] + Chars(x) + [Close(H3)]
  {
    assert ("### " + x)[4..] == x;
  }

  /** A line yields an h1 heading exactly when it starts with `# `, so a
      `### ` or `## ` line never does. */
  lemma H1OnlyFromOneHash(line: string)
    ensures StyledOpen(H1) in HeadingLine(line) <==> StartsWith(line, "# ")
  {
    if StartsWith(line, "### ") || StartsWith(line, "## ") {
      assert line[1] == '#';
      var t := HeadingLine(line);
      forall i | 0 <= i < |t| ensures t[i] != StyledOpen(H1) {
      }
    } else if StartsWith(line, "# ") {
      assert HeadingLine(line)[0] == StyledOpen(H1);
    } else {
      assert HeadingLine(line) == Chars(line);
    }
  }

  // ---------------------------------------------------------------------
  // lines 416-417: `\n{3,}` to `\n\n`, then `\n\n` to `</p><p>`
  // ---------------------------------------------------------------------

  function NewlineRun(t: seq<Tok>): (n: nat)
    ensures n <= |t|
    ensures forall i :: 0 <= i < n ==> t[i] == Chr('\n')
    ensures n < |t| ==> t[n] != Chr('\n')
  {
    if t == [] || t[0] != Chr('\n') then 0 else 1 + NewlineRun(t[1..])
  }

  predicate NoNewline(t: seq<Tok>)
  {
    forall i :: 0 <= i < |t| ==> t[i] != Chr('\n')
  }

  /** A single line feed stays; a run of two or more becomes one paragraph break. */
  function Breaks(t: seq<Tok>): (r: seq<Tok>)
    ensures t != [] && t[0] != Chr('\n') ==> r != [] && r[0] == t[0]
    ensures t != [] && t[0] == Chr('\n') ==> r != [] && (r[0] == Chr('\n') || r[0] == Close(P))
    ensures NoPlainHeadingOpen(t) ==> NoPlainHeadingOpen(r)
    decreases |t|
  {
    if t == [] then []
    else
      var n := NewlineRun(t);
      if n == 0 then [t[0]] + Breaks(t[1..])
      else if n == 1 then [Chr('\n')] + Breaks(t[1..])
      else [Close(P), PlainOpen(P)] + Breaks(t[n..])
  }

  /** `n` line-feed tokens. */
  function Newlines(n: nat): (t: seq<Tok>)
    ensures |t| == n && forall i :: 0 <= i < n ==> t[i] == Chr('\n')
  {
    seq(n, _ => Chr('\n'))
  }

  /** Text without a line feed in front of the rest passes unchanged. */
  lemma {:induction false} BreaksAppend(a: seq<Tok>, rest: seq<Tok>)
    requires NoNewline(a)
    ensures Breaks(a + rest) == a + Breaks(rest)
    decreases |a|
  {
    if a != [] {
      var t := a + rest;
      ConsAppend(a, rest);
      assert t[0] != Chr('\n');
      assert Breaks(t) == [a[0]] + Breaks(a[1..] + rest);
      BreaksAppend(a[1..], rest);
      AppendAssoc([a[0]], a[1..], Breaks(rest));
      HeadTail(a);
    } else {
      EmptyAppend(rest);
      EmptyAppend(Breaks(rest));
    }
  }

  /** The run at the front of `n` line feeds and then no line feed is `n` long. */
  lemma NewlineRunOf(n: nat, b: seq<Tok>)
    requires b == [] || b[0] != Chr('\n')
    ensures NewlineRun(Newlines(n) + b) == n
  {
    var rest := Newlines(n) + b;
    assert forall i :: 0 <= i < n ==> rest[i] == Chr('\n');
    assert n < |rest| ==> rest[n] == b[0];
  }

  /** A line feed between two pieces of text is kept as it is. */
  lemma BreaksSingleNewline(a: seq<Tok>, b: seq<Tok>)
    requires NoNewline(a)
    requires b == [] || b[0] != Chr('\n')
    ensures Breaks(a + [Chr('\n')] + b) == a + [Chr('\n')] + Breaks(b)
  {
    var rest := [Chr('\n')] + b;
    AppendAssoc(a, [Chr('\n')], b);
    BreaksAppend(a, rest);
    assert Breaks(rest) == [Chr('\n')] + Breaks(b) by {
      NewlineRunOf(1, b);
      assert Newlines(1) == [Chr('\n')];
      ConsAppend([Chr('\n')], b);
      EmptyAppend(b);
    }
    AppendAssoc(a, [Chr('\n')], Breaks(b));
  }

  /** A run of two or more line feeds becomes a paragraph break: `</p><p>`. */
  lemma BreaksNewlineRun(a: seq<Tok>, n: nat, b: seq<Tok>)
    requires NoNewline(a) && n >= 2
    requires b == [] || b[0] != Chr('\n')
    ensures Breaks(a + Newlines(n) + b) == a + [Close(P), PlainOpen(P)] + Breaks(b)
  {
    var rest := Newlines(n) + b;
    AppendAssoc(a, Newlines(n), b);
    BreaksAppend(a, rest);
    assert Breaks(rest) == [Close(P), PlainOpen(P)] + Breaks(b) by {
      NewlineRunOf(n, b);
      AppendDrop(Newlines(n), b);
    }
    AppendAssoc(a, [Close(P), PlainOpen(P)], Breaks(b));
  }

  lemma {:induction false} BreaksIdentity(t: seq<Tok>)
    requires NoNewline(t)
    ensures Breaks(t) == t
  {
    if t != [] {
      BreaksIdentity(t[1..]);
    }
  }

  // ---------------------------------------------------------------------
  // line 418: `(</h[1-3]>|</ul>|</ol>|</blockquote>|</pre>)\s*` to `$1\n\n`
  // ---------------------------------------------------------------------

  function WhitespaceRun(t: seq<Tok>): (n: nat)
    ensures n <= |t|
    ensures forall i :: 0 <= i < n ==> t[i].Chr? && IsWhitespace(t[i].c)
    ensures n < |t| ==> !(t[n].Chr? && IsWhitespace(t[n].c))
  {
    if t == [] || !(t[0].Chr? && IsWhitespace(t[0].c)) then 0 else 1 + WhitespaceRun(t[1..])
  }

  predicate IsHeadingClose(tok: Tok)
  {
    tok.Close? && tok.b != P
  }

  /** After each heading close tag, the whitespace that follows is replaced
      by two line feeds. */
  function Closers(t: seq<Tok>): (r: seq<Tok>)
    ensures t != [] ==> r != [] && r[0] == t[0]
    ensures NoPlainHeadingOpen(t) ==> NoPlainHeadingOpen(r)
    decreases |t|
  {
    if t == [] then []
    else if IsHeadingClose(t[0]) then
      [t[0], Chr('\n'), Chr('\n')] + Closers(t[1 + WhitespaceRun(t[1..])..])
    else [t[0]] + Closers(t[1..])
  }

  /** A closing tag with nothing after it gains the two line feeds. */
  lemma {:induction false} ClosersLast(a: seq<Tok>, b: Block)
    requires b != P
    requires forall i :: 0 <= i < |a| ==> !IsHeadingClose(a[i])
    ensures Closers(a + [Close(b)]) == a + [Close(b), Chr('\n'), Chr('\n')]
  {
    if a == [] {
      assert Closers([Close(b)]) == [Close(b), Chr('\n'), Chr('\n')] + Closers([]);
    } else {
      assert (a + [Close(b)])[1..] == a[1..] + [Close(b)];
      ClosersLast(a[1..], b);
    }
  }

  lemma {:induction false} ClosersIdentity(t: seq<Tok>)
    requires forall i :: 0 <= i < |t| ==> !IsHeadingClose(t[i])
    ensures Closers(t) == t
  {
    if t != [] {
      ClosersIdentity(t[1..]);
    }
  }

  // ---------------------------------------------------------------------
  // line 419: `\s*(<h[1-3]>|<ul>|<ol>|<blockquote>|<pre>)` to `\n\n$1`
  // ---------------------------------------------------------------------

  predicate IsPlainHeadingOpen(tok: Tok)
  {
    tok.PlainOpen? && tok.b != P
  }

  predicate NoPlainHeadingOpen(t: seq<Tok>)
  {
    forall i :: 0 <= i < |t| ==> !IsPlainHeadingOpen(t[i])
  }

  /** Whitespace before an unstyled heading open tag becomes two line feeds. */
  function Openers(t: seq<Tok>): seq<Tok>
    decreases |t|
  {
    if t == [] then []
    else
      var w := WhitespaceRun(t);
      if w < |t| && IsPlainHeadingOpen(t[w]) then [Chr('\n'), Chr('\n'), t[w]] + Openers(t[w + 1..])
      else [t[0]] + Openers(t[1..])
  }

  /** The headings carry a style attribute, so the unstyled open tags of
      line 419 never occur and the pass changes nothing. */
  lemma {:induction false} OpenersIdentity(t: seq<Tok>)
    requires NoPlainHeadingOpen(t)
    ensures Openers(t) == t
  {
    if t != [] {
      OpenersIdentity(t[1..]);
    }
  }

  // ---------------------------------------------------------------------
  // line 420: `\n` to a space
  // ---------------------------------------------------------------------

  function Flatten(t: seq<Tok>): (r: seq<Tok>)
    ensures |r| == |t|
    ensures forall i :: 0 <= i < |t| ==> r[i] == if t[i] == Chr('\n') then Chr(' ') else t[i]
  {
    seq(|t|, i requires 0 <= i < |t| => if t[i] == Chr('\n') then Chr(' ') else t[i])
  }

  // ---------------------------------------------------------------------
  // lines 426-428: the paragraph wrap
  // ---------------------------------------------------------------------

  /** `^<(h[1-3]|ul|ol|blockquote|pre)`: the text starts with a heading open tag. */
  predicate StartsWithBlock(t: seq<Tok>)
  {
    t != [] && (t[0].StyledOpen? || t[0].PlainOpen?) && t[0].b != P
  }

  function Wrap(t: seq<Tok>): seq<Tok>
  {
    if StartsWithBlock(t) then t else [StyledOpen(P)] + t + [Close(P)]
  }

  // ---------------------------------------------------------------------
  // line 430: `</p><p></p>` to `</p>`, then `<p>\s*</p>` removed
  // ---------------------------------------------------------------------

  predicate EmptyBreakAt(t: seq<Tok>)
  {
    |t| >= 3 && t[0] == Close(P) && t[1] == PlainOpen(P) && t[2] == Close(P)
  }

  function CollapseEmptyBreaks(t: seq<Tok>): (r: seq<Tok>)
    ensures t != [] && t[0].StyledOpen? ==> r != [] && r[0] == t[0]
    ensures NoNewline(t) ==> NoNewline(r)
    decreases |t|
  {
    if t == [] then []
    else if EmptyBreakAt(t) then [Close(P)] + CollapseEmptyBreaks(t[3..])
    else [t[0]] + CollapseEmptyBreaks(t[1..])
  }

  /** The length of a `<p>\s*</p>` match at the start of `t`, or 0. */
  function EmptyParagraphAt(t: seq<Tok>): (n: nat)
    ensures n <= |t|
    ensures n > 0 ==> n >= 2 && t[0] == PlainOpen(P) && t[n - 1] == Close(P)
    ensures n > 0 ==> forall i :: 1 <= i < n - 1 ==> t[i].Chr? && IsWhitespace(t[i].c)
  {
    if t == [] || t[0] != PlainOpen(P) then 0
    else
      var w := WhitespaceRun(t[1..]);
      if 1 + w < |t| && t[1 + w] == Close(P) then w + 2 else 0
  }

  /** `<p>`, whitespace, `</p>` is always found, whatever follows it. */
  lemma EmptyParagraphFound(mid: string, rest: seq<Tok>)
    requires AllWhitespace(mid)
    ensures EmptyParagraphAt([PlainOpen(P)] + Chars(mid) + [Close(P)] + rest) == |mid| + 2
  {
    var t := [PlainOpen(P)] + Chars(mid) + [Close(P)] + rest;
    var u := t[1..];
    assert forall i :: 0 <= i < |mid| ==> u[i] == Chr(mid[i]);
    assert u[|mid|] == Close(P);
    assert WhitespaceRun(u) == |mid|;
  }

  function DropEmptyParagraphs(t: seq<Tok>): (r: seq<Tok>)
    ensures t != [] && t[0].StyledOpen? ==> r != [] && r[0] == t[0]
    ensures NoNewline(t) ==> NoNewline(r)
    decreases |t|
  {
    if t == [] then []
    else
      var n := EmptyParagraphAt(t);
      if n > 0 then DropEmptyParagraphs(t[n..]) else [t[0]] + DropEmptyParagraphs(t[1..])
  }

  lemma {:induction false} CollapseEmptyBreaksIdentity(t: seq<Tok>)
    requires forall i :: 0 <= i < |t| ==> t[i] != PlainOpen(P)
    ensures CollapseEmptyBreaks(t) == t
  {
    if t != [] {
      CollapseEmptyBreaksIdentity(t[1..]);
    }
  }

  lemma {:induction false} DropEmptyParagraphsIdentity(t: seq<Tok>)
    requires forall i :: 0 <= i < |t| ==> t[i] != PlainOpen(P)
    ensures DropEmptyParagraphs(t) == t
  {
    if t != [] {
      DropEmptyParagraphsIdentity(t[1..]);
    }
  }

  // ---------------------------------------------------------------------
  // the whole chain
  // ---------------------------------------------------------------------

  /** The token sequence after line 420, before the wrap. */
  function Flattened(md: string): seq<Tok>
  {
    Flatten(Openers(Closers(Breaks(Headings(md)))))
  }

  /** `renderMarkdown`: the empty string gives the empty string, and no line
      feed survives. */
  function RenderMarkdown(md: string): (r: string)
    requires PlainMarkdown(md)
    ensures md == [] ==> r == []
    ensures '\n' !in r
  {
    if md == [] then [] else RenderTokensHaveNoNewline(md); Render(RenderTokens(md))
  }

  /** The tokens after the clean-up of line 430. */
  function RenderTokens(md: string): seq<Tok>
  {
    DropEmptyParagraphs(CollapseEmptyBreaks(Wrap(Flattened(md))))
  }

  lemma WrapKeepsNoNewline(t: seq<Tok>)
    requires NoNewline(t)
    ensures NoNewline(Wrap(t))
  {
    if !StartsWithBlock(t) {
      var w := [StyledOpen(P)] + t + [Close(P)];
      forall i | 0 <= i < |w| ensures w[i] != Chr('\n') {
        if 0 < i <= |t| {
          assert w[i] == t[i - 1];
        }
      }
    }
  }

  lemma RenderTokensHaveNoNewline(md: string)
    ensures NoNewline(RenderTokens(md))
  {
    WrapKeepsNoNewline(Flattened(md));
  }

  /** The headings pass produces no unstyled heading open tag. */
  lemma {:induction false} HeadingLinesNoPlainOpen(lines: seq<string>)
    requires |lines| >= 1
    ensures NoPlainHeadingOpen(HeadingLines(lines))
  {
    var head := HeadingLine(lines[0]);
    HeadingLineNoPlainOpen(lines[0]);
    if |lines| > 1 {
      HeadingLinesNoPlainOpen(lines[1..]);
      var tail := [Chr('\n')] + HeadingLines(lines[1..]);
      NoPlainOpenAppend([Chr('\n')], HeadingLines(lines[1..]));
      NoPlainOpenAppend(head, tail);
    } else {
      AppendEmpty(head);
    }
  }

  lemma HeadingLineNoPlainOpen(line: string)
    ensures NoPlainHeadingOpen(HeadingLine(line))
  {
    var t := HeadingLine(line);
    forall i | 0 <= i < |t| ensures !IsPlainHeadingOpen(t[i]) {
      assert t[i].Chr? || t[i].StyledOpen? || t[i].Close?;
    }
  }

  lemma NoPlainOpenAppend(a: seq<Tok>, b: seq<Tok>)
    requires NoPlainHeadingOpen(a) && NoPlainHeadingOpen(b)
    ensures NoPlainHeadingOpen(a + b)
  {
    forall i | 0 <= i < |a + b| ensures !IsPlainHeadingOpen((a + b)[i]) {
      if i < |a| {
        assert (a + b)[i] == a[i];
      } else {
        assert (a + b)[i] == b[i - |a|];
      }
    }
  }

  /** The first token of the output is the styled paragraph open tag
      exactly when the first line is not a heading line. */
  lemma WrappedTokens(md: string)
    ensures var first := Split(md)[0];
            var isHeading := StartsWith(first, "# ") || StartsWith(first, "## ") || StartsWith(first, "### ");
            var out := RenderTokens(md);
            md != [] ==> out != [] && out[0].StyledOpen? && (out[0].b == P <==> !isHeading)
  {
    var lines := Split(md);
    var first := lines[0];
    var h := Headings(md);
    HeadingLinesNoPlainOpen(lines);
    var c := Closers(Breaks(h));
    OpenersIdentity(c);
    var f := Flattened(md);
    assert f == Flatten(c);
    if md != [] {
      SplitPieces(md);
      assert Join(lines) == md;
      assert h != [] by {
        if HeadingLine(first) == [] {
          assert first == [];
          assert |lines| > 1;
        }
      }
      if StartsWith(first, "# ") || StartsWith(first, "## ") || StartsWith(first, "### ") {
        assert h[0].StyledOpen? && h[0].b != P;
        assert StartsWithBlock(f);
      } else {
        assert h[0].Chr?;
        assert f[0].Chr? || f[0] == Close(P);
      }
    }
  }

  /** The output starts with the styled paragraph open tag exactly when
      the first line of the input is not a heading line. */
  lemma RenderWrapped(md: string)
    requires md != [] && PlainMarkdown(md)
    ensures var first := Split(md)[0];
            var isHeading := StartsWith(first, "# ") || StartsWith(first, "## ") || StartsWith(first, "### ");
            StartsWith(RenderMarkdown(md), POpen) <==> !isHeading
  {
    var out := RenderTokens(md);
    WrappedTokens(md);
    assert out == [out[0]] + out[1..];
    RenderAppend([out[0]], out[1..]);
    assert Render([out[0]]) == StyledOpenText(out[0].b);
    StyledOpenPrefix(out[0].b, Render(out[1..]));
  }

  /** Of the styled open tags only the paragraph's begins the output with
      the paragraph's open tag. */
  lemma StyledOpenPrefix(b: Block, rest: string)
    ensures StartsWith(StyledOpenText(b) + rest, POpen) <==> b == P
  {
    var s := StyledOpenText(b) + rest;
    if b == P {
      assert s[..|POpen|] == POpen;
    } else {
      HeadingOpenSecondChar(b);
      assert s[1] == 'h';
      assert POpen[1] == 'p';
    }
  }

  lemma HeadingOpenSecondChar(b: Block)
    requires b != P
    ensures |StyledOpenText(b)| > 1 && StyledOpenText(b)[1] == 'h'
  {
  }

  /** The tokens of a `### ` line on its own. */
  lemma H3LineTokens(x: string)
    requires '\n' !in x
    ensures RenderTokens("### " + x) == [StyledOpen(H3)] + Chars(x) + [Close(H3), Chr(' '), Chr(' ')]
  {
    var f := [StyledOpen(H3)] + Chars(x) + [Close(H3), Chr(' '), Chr(' ')];
    H3LineFlattened(x);
    assert f[0] == StyledOpen(H3);
    assert Wrap(f) == f;
    forall i | 0 <= i < |f| ensures f[i] != PlainOpen(P) {
      if 0 < i <= |x| {
        assert f[i] == Chr(x[i - 1]);
      }
    }
    CollapseEmptyBreaksIdentity(f);
    DropEmptyParagraphsIdentity(f);
  }

  lemma H3LineFlattened(x: string)
    requires '\n' !in x
    ensures Flattened("### " + x) == [StyledOpen(H3)] + Chars(x) + [Close(H3), Chr(' '), Chr(' ')]
  {
    var c := [StyledOpen(H3)] + Chars(x) + [Close(H3), Chr('\n'), Chr('\n')];
    H3LineClosed(x);
    H3ClosedNoPlainOpen(x);
    OpenersIdentity(c);
    H3ClosedFlat(x);
  }

  lemma H3ClosedNoPlainOpen(x: string)
    ensures NoPlainHeadingOpen([StyledOpen(H3)] + Chars(x) + [Close(H3), Chr('\n'), Chr('\n')])
  {
    var body := [StyledOpen(H3)] + Chars(x);
    CharsNoPlainOpen(x);
    NoPlainOpenAppend([StyledOpen(H3)], Chars(x));
    NoPlainOpenAppend(body, [Close(H3), Chr('\n'), Chr('\n')]);
  }

  lemma H3ClosedFlat(x: string)
    requires '\n' !in x
    ensures Flatten([StyledOpen(H3)] + Chars(x) + [Close(H3), Chr('\n'), Chr('\n')])
         == [StyledOpen(H3)] + Chars(x) + [Close(H3), Chr(' '), Chr(' ')]
  {
    var body := [StyledOpen(H3)] + Chars(x);
    FlattenAppend(body, [Close(H3), Chr('\n'), Chr('\n')]);
    FlattenAppend([StyledOpen(H3)], Chars(x));
    CharsFlat(x);
    assert Flatten([StyledOpen(H3)]) == [StyledOpen(H3)];
    assert Flatten([Close(H3), Chr('\n'), Chr('\n')]) == [Close(H3), Chr(' '), Chr(' ')];
  }

  lemma CharsNoPlainOpen(x: string)
    ensures NoPlainHeadingOpen(Chars(x))
  {
  }

  /** Text without a line feed is left alone by the flattening. */
  lemma CharsFlat(x: string)
    requires '\n' !in x
    ensures Flatten(Chars(x)) == Chars(x)
  {
    var t := Chars(x);
    forall i | 0 <= i < |t| ensures Flatten(t)[i] == t[i] {
      assert t[i] == Chr(x[i]) && x[i] != '\n';
    }
  }

  lemma FlattenAppend(a: seq<Tok>, b: seq<Tok>)
    ensures Flatten(a + b) == Flatten(a) + Flatten(b)
  {
    var l, r := Flatten(a + b), Flatten(a) + Flatten(b);
    forall i | 0 <= i < |l| ensures l[i] == r[i] {
      if i < |a| {
        assert (a + b)[i] == a[i];
      } else {
        assert (a + b)[i] == b[i - |a|];
      }
    }
  }

  lemma H3LineClosed(x: string)
    requires '\n' !in x
    ensures Closers(Breaks(Headings("### " + x))) == [StyledOpen(H3)] + Chars(x) + [Close(H3), Chr('\n'), Chr('\n')]
  {
    var body := [StyledOpen(H3)] + Chars(x);
    var h := body + [Close(H3)];
    H3LineHeadings(x);
    BreaksIdentity(h);
    ClosersLast(body, H3);
  }

  lemma H3LineHeadings(x: string)
    requires '\n' !in x
    ensures Headings("### " + x) == [StyledOpen(H3)] + Chars(x) + [Close(H3)]
  {
    SplitNoNewline("### " + x);
    ThreeHashesMakeH3(x);
  }

  /** A `### ` line on its own renders as an h3 heading followed by the two
      spaces left of the line feeds added after its close tag. */
  lemma RenderH3Line(x: string)
    requires '\n' !in x && PlainMarkdown("### " + x)
    ensures RenderMarkdown("### " + x) == H3Open + x + "</h3>  "
  {
    H3LineTokens(x);
    RenderH3Tokens(x);
  }

  lemma RenderH3Tokens(x: string)
    ensures Render([StyledOpen(H3)] + Chars(x) + [Close(H3), Chr(' '), Chr(' ')]) == H3Open + x + "</h3>  "
  {
    var body := [StyledOpen(H3)] + Chars(x);
    var tail := [Close(H3)] + Chars("  ");
    assert tail == [Close(H3), Chr(' '), Chr(' ')];
    RenderAppend(body, tail);
    RenderAppend([StyledOpen(H3)], Chars(x));
    RenderAppend([Close(H3)], Chars("  "));
    RenderChars(x);
    RenderChars("  ");
    assert Render([StyledOpen(H3)]) == H3Open;
    assert Render([Close(H3)]) == "</h3>";
  }

  /** A single line that is not a heading line is wrapped as one paragraph. */
  lemma ParagraphTokens(x: string)
    requires x != [] && '\n' !in x
    requires !StartsWith(x, "# ") && !StartsWith(x, "## ") && !StartsWith(x, "### ")
    ensures RenderTokens(x) == [StyledOpen(P)] + Chars(x) + [Close(P)]
  {
    SplitNoNewline(x);
    var h := Chars(x);
    assert Headings(x) == h;
    BreaksIdentity(h);
    ClosersIdentity(h);
    OpenersIdentity(h);
    assert Flatten(h) == h;
    var w := [StyledOpen(P)] + h + [Close(P)];
    assert Wrap(h) == w;
    CollapseEmptyBreaksIdentity(w);
    DropEmptyParagraphsIdentity(w);
  }

  /** A single plain line that is not a heading renders as one styled
      paragraph. */
  lemma RenderParagraph(x: string)
    requires x != [] && '\n' !in x && PlainMarkdown(x)
    requires !StartsWith(x, "# ") && !StartsWith(x, "## ") && !StartsWith(x, "### ")
    ensures RenderMarkdown(x) == POpen + x + "</p>"
  {
    ParagraphTokens(x);
    var h := Chars(x);
    RenderAppend([StyledOpen(P)] + h, [Close(P)]);
    RenderAppend([StyledOpen(P)], h);
    RenderChars(x);
  }
}
