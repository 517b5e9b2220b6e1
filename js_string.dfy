/** The pieces of JavaScript string behaviour the extension relies on:
    the `\s` character class (which is also what `String.prototype.trim`
    strips), `trim`, `replace(/\s+/g, ' ')`, `split('\n')`, the UTF-16
    `length`, ASCII lower-casing and the decimal rendering of a number in a
    template string. */
module JsString {
  import Seqs
  import Runs

  /** The `\s` class of ECMAScript regular expressions: WhiteSpace and
      LineTerminator code points. */
  predicate IsWhitespace(c: char)
  {
    c == '\t' || c == '\n' || c == '\U{B}' || c == '\U{C}' || c == '\r' || c == ' ' ||
    c == '\U{A0}' || c == '\U{1680}' || ('\U{2000}' <= c <= '\U{200A}') ||
    c == '\U{2028}' || c == '\U{2029}' || c == '\U{202F}' || c == '\U{205F}' ||
    c == '\U{3000}' || c == '\U{FEFF}'
  }

  /** Line terminators: where `^` and `$` match under the `m` flag and what `.` refuses. */
  predicate IsLineTerminator(c: char)
  {
    c == '\n' || c == '\r' || c == '\U{2028}' || c == '\U{2029}'
  }

  predicate AllWhitespace(s: string)
  {
    forall i :: 0 <= i < |s| ==> IsWhitespace(s[i])
  }

  /** No whitespace at either end. */
  predicate NoEdgeWhitespace(s: string)
  {
    s == [] || (!IsWhitespace(s[0]) && !IsWhitespace(s[|s| - 1]))
  }

  /** No two whitespace characters next to each other. */
  predicate NoWhitespaceRun(s: string)
  {
    forall i :: 0 <= i < |s| - 1 ==> !(IsWhitespace(s[i]) && IsWhitespace(s[i + 1]))
  }

  predicate StartsWith(s: string, prefix: string)
  {
    |prefix| <= |s| && s[..|prefix|] == prefix
  }

  /** Number of whitespace characters at the front of `s`. */
  function LeadingWhitespace(s: string): (n: nat)
    ensures n <= |s|
    ensures forall i :: 0 <= i < n ==> IsWhitespace(s[i])
    ensures n < |s| ==> !IsWhitespace(s[n])
  {
    if s == [] || !IsWhitespace(s[0]) then 0 else 1 + LeadingWhitespace(s[1..])
  }

  function TrimStart(s: string): (r: string)
    ensures r == s[LeadingWhitespace(s)..]
    ensures r == [] || !IsWhitespace(r[0])
  {
    s[LeadingWhitespace(s)..]
  }

  function TrimEnd(s: string): (r: string)
    ensures |r| <= |s| && r == s[..|r|]
    ensures AllWhitespace(s[|r|..])
    ensures r == [] || !IsWhitespace(r[|r| - 1])
  {
    if s == [] || !IsWhitespace(s[|s| - 1]) then s
    else
      var r := TrimEnd(s[..|s| - 1]);
      assert s[..|s| - 1][..|r|] == s[..|r|];
      assert s[|r|..] == s[..|s| - 1][|r|..] + [s[|s| - 1]];
      r
  }

  /** `String.prototype.trim`: the part of `s` between its leading and its
      trailing whitespace. */
  function Trim(s: string): (r: string)
    ensures NoEdgeWhitespace(r)
    ensures AllWhitespace(s) <==> r == []
    ensures var k := LeadingWhitespace(s);
            k + |r| <= |s| && r == s[k..k + |r|] &&
            AllWhitespace(s[..k]) && AllWhitespace(s[k + |r|..])
  {
    var t := TrimStart(s);
    var k := LeadingWhitespace(s);
    var r := TrimEnd(t);
    assert s[k + |r|..] == t[|r|..];
    r
  }

  /** A piece cut out of a string without whitespace runs has none either. */
  lemma {:induction false} InfixNoWhitespaceRun(c: string, k: nat, r: string)
    requires NoWhitespaceRun(c)
    requires k + |r| <= |c| && r == c[k..k + |r|]
    ensures NoWhitespaceRun(r)
  {
    forall i | 0 <= i < |r| - 1
      ensures !(IsWhitespace(r[i]) && IsWhitespace(r[i + 1]))
    {
      assert r[i] == c[k + i] && r[i + 1] == c[k + i + 1];
    }
  }

  /** The whitespace at the front of `s` is the separator run `Runs` counts. */
  lemma {:induction false} LeadingIsSepRun(s: string)
    ensures LeadingWhitespace(s) == Runs.SepRun(s, IsWhitespace)
  {
    if s != [] && IsWhitespace(s[0]) {
      LeadingIsSepRun(s[1..]);
    }
  }

  /** `s.replace(/\s+/g, ' ')`: every maximal run of whitespace becomes one space. */
  function CollapseRuns(s: string): (r: string)
    ensures NoWhitespaceRun(r)
    ensures forall i :: 0 <= i < |r| && IsWhitespace(r[i]) ==> r[i] == ' '
    ensures s == [] <==> r == []
    ensures s != [] ==> (IsWhitespace(s[0]) <==> IsWhitespace(r[0]))
    decreases |s|
  {
    if s == [] then []
    else if IsWhitespace(s[0]) then
      var n := LeadingWhitespace(s);
      var rest := CollapseRuns(s[n..]);
      assert rest != [] ==> !IsWhitespace(rest[0]);
      [' '] + rest
    else
      [s[0]] + CollapseRuns(s[1..])
  }

  /** The replacement is the run collapse of `Runs`: a space for a leading
      run, the words joined by single spaces, and a space for a trailing run. */
  lemma {:induction false} CollapseRunsIsCollapsed(s: string)
    ensures CollapseRuns(s) == Runs.Collapsed(s, IsWhitespace, ' ')
    decreases |s|
  {
    if s == [] {
      Runs.CollapsedEmpty(IsWhitespace, ' ');
    } else if IsWhitespace(s[0]) {
      LeadingIsSepRun(s);
      CollapseRunsIsCollapsed(s[LeadingWhitespace(s)..]);
      Runs.CollapsedSepHead(s, IsWhitespace, ' ');
    } else {
      CollapseRunsIsCollapsed(s[1..]);
      Runs.CollapsedWordHead(s, IsWhitespace, ' ');
    }
  }

  lemma InfixOnlySpaces(c: string, k: nat, r: string)
    requires forall i :: 0 <= i < |c| && IsWhitespace(c[i]) ==> c[i] == ' '
    requires k + |r| <= |c| && r == c[k..k + |r|]
    ensures forall i :: 0 <= i < |r| && IsWhitespace(r[i]) ==> r[i] == ' '
  {
    forall i | 0 <= i < |r| && IsWhitespace(r[i]) ensures r[i] == ' ' {
      assert r[i] == c[k + i];
    }
  }

  /** Trimming removes exactly the whitespace around a piece with no
      whitespace at its ends. */
  lemma TrimAround(a: string, x: string, b: string)
    requires AllWhitespace(a) && AllWhitespace(b) && NoEdgeWhitespace(x)
    ensures Trim(a + x + b) == x
  {
    var s := a + x + b;
    assert forall i :: 0 <= i < |a| ==> s[i] == a[i];
    assert forall i :: 0 <= i < |x| ==> s[|a| + i] == x[i];
    assert forall i :: 0 <= i < |b| ==> s[|a| + |x| + i] == b[i];
    if x != [] {
      var k := LeadingWhitespace(s);
      var r := Trim(s);
      assert !IsWhitespace(s[|a|]);
      assert k == |a|;
      assert |r| == |x| by {
        var e := k + |r|;
        assert r != [] && !IsWhitespace(s[e - 1]);
        assert !IsWhitespace(s[|a| + |x| - 1]);
      }
      assert s[|a|..|a| + |x|] == x;
    } else {
      assert AllWhitespace(s);
    }
  }

  /** `s.replace(/\s+/g, ' ').trim()`, the final cleaning of extracted page text. */
  function CollapseWhitespace(s: string): (r: string)
    ensures NoWhitespaceRun(r) && NoEdgeWhitespace(r)
    ensures forall i :: 0 <= i < |r| && IsWhitespace(r[i]) ==> r[i] == ' '
  {
    var c := CollapseRuns(s);
    var r := Trim(c);
    var k := LeadingWhitespace(c);
    InfixNoWhitespaceRun(c, k, r);
    InfixOnlySpaces(c, k, r);
    r
  }

  /** The cleaned text is the words of `s` (its maximal non-whitespace runs),
      in order, separated by single spaces. */
  lemma CollapseWhitespaceJoinsWords(s: string)
    ensures CollapseWhitespace(s) == Runs.JoinWith(Runs.Words(s, IsWhitespace), ' ')
  {
    var ws := Runs.Words(s, IsWhitespace);
    var j := Runs.JoinWith(ws, ' ');
    CollapseRunsIsCollapsed(s);
    Runs.WordsAreWords(s, IsWhitespace);
    if ws != [] {
      Runs.JoinWithEnds(ws, IsWhitespace, ' ');
    }
    TrimAround(Runs.Lead(s, IsWhitespace, ' '), j, Runs.Trail(s, IsWhitespace, ' '));
  }

  /** The cleaning keeps every word of the text, in order, and adds none. */
  lemma CollapseKeepsWords(s: string)
    ensures Runs.Words(CollapseWhitespace(s), IsWhitespace) == Runs.Words(s, IsWhitespace)
  {
    var ws := Runs.Words(s, IsWhitespace);
    CollapseWhitespaceJoinsWords(s);
    Runs.WordsAreWords(s, IsWhitespace);
    Seqs.AppendEmpty(Runs.JoinWith(ws, ' '));
    Runs.WordsOfJoin(ws, IsWhitespace, ' ', []);
  }

  /** The UTF-16 `length` JavaScript reports: code points outside the Basic
      Multilingual Plane take two code units. */
  function Utf16Length(s: string): (n: nat)
    ensures |s| <= n <= 2 * |s|
    ensures (forall i :: 0 <= i < |s| ==> s[i] as int <= 0xFFFF) <==> n == |s|
  {
    if s == [] then 0
    else
      var n := Utf16Length(s[..|s| - 1]);
      assert forall i :: 0 <= i < |s| - 1 ==> s[..|s| - 1][i] == s[i];
      (if s[|s| - 1] as int > 0xFFFF then 2 else 1) + n
  }

  /** One character is one code unit, or two above U+FFFF. */
  lemma Utf16LengthChar(c: char)
    ensures Utf16Length([c]) == if c as int > 0xFFFF then 2 else 1
  {
    assert [c][..0] == [];
  }

  /** The length of a concatenation is the sum of the lengths. */
  lemma {:induction false} Utf16LengthAppend(a: string, b: string)
    ensures Utf16Length(a + b) == Utf16Length(a) + Utf16Length(b)
    decreases |b|
  {
    if b == [] {
      assert a + b == a;
    } else {
      var b' := b[..|b| - 1];
      assert (a + b)[..|a + b| - 1] == a + b';
      Utf16LengthAppend(a, b');
    }
  }

  /** `s.substring(0, n)`, counted in characters. */
  function Prefix(s: string, n: nat): (r: string)
    ensures |r| == (if |s| <= n then |s| else n) && r == s[..|r|]
  {
    if |s| <= n then s else s[..n]
  }

  /** `s.split('\n')`: the pieces between line feeds, always at least one. */
  function Split(s: string): (pieces: seq<string>)
    ensures |pieces| >= 1
  {
    if s == [] then [[]]
    else
      var rest := Split(s[1..]);
      if s[0] == '\n' then [[]] + rest
      else [[s[0]] + rest[0]] + rest[1..]
  }

  /** The pieces of a split hold no line feed and join back to the text. */
  lemma {:induction false} SplitPieces(s: string)
    ensures forall i :: 0 <= i < |Split(s)| ==> '\n' !in Split(s)[i]
    ensures Join(Split(s)) == s
  {
    if s != [] {
      var rest := Split(s[1..]);
      SplitPieces(s[1..]);
      if s[0] == '\n' {
        assert Join([[]] + rest) == [] + "\n" + Join(rest);
      } else {
        JoinConsHead(s[0], rest);
        var p := Split(s);
        forall i | 0 <= i < |p| ensures '\n' !in p[i] {
          if i > 0 { assert p[i] == rest[i]; }
        }
      }
    }
  }

  /** `pieces.join('\n')`. */
  function Join(pieces: seq<string>): string
  {
    if pieces == [] then []
    else if |pieces| == 1 then pieces[0]
    else pieces[0] + "\n" + Join(pieces[1..])
  }

  lemma {:induction false} JoinConsHead(c: char, pieces: seq<string>)
    requires |pieces| >= 1
    ensures Join([[c] + pieces[0]] + pieces[1..]) == [c] + Join(pieces)
  {
    var head := [c] + pieces[0];
    var p := [head] + pieces[1..];
    if |pieces| > 1 {
      var tail := Join(pieces[1..]);
      assert Join(p) == head + "\n" + tail by {
        assert p[0] == head && p[1..] == pieces[1..] && |p| > 1;
      }
      assert head + "\n" + tail == [c] + (pieces[0] + "\n" + tail);
    }
  }

  /** Joining on both sides of a split point. */
  lemma {:induction false} JoinAppend(a: seq<string>, b: seq<string>)
    requires |a| >= 1 && |b| >= 1
    ensures Join(a + b) == Join(a) + "\n" + Join(b)
  {
    if |a| == 1 {
      assert (a + b)[1..] == b;
    } else {
      assert (a + b)[1..] == a[1..] + b;
      JoinAppend(a[1..], b);
    }
  }

  /** The pieces of a split contain no line feed and join back to the text,
      so they are the only such pieces: `Split` inverts `Join`. */
  lemma {:induction false} SplitJoin(pieces: seq<string>)
    requires |pieces| >= 1
    requires forall i :: 0 <= i < |pieces| ==> '\n' !in pieces[i]
    ensures Split(Join(pieces)) == pieces
  {
    if |pieces| == 1 {
      SplitNoNewline(pieces[0]);
    } else {
      var rest := pieces[1..];
      SplitJoin(rest);
      SplitLineThen(pieces[0], Join(rest));
      assert Join(pieces) == pieces[0] + "\n" + Join(rest);
    }
  }

  lemma {:induction false} SplitNoNewline(s: string)
    requires '\n' !in s
    ensures Split(s) == [s]
  {
    if s != [] {
      SplitNoNewline(s[1..]);
      assert [s[0]] + s[1..] == s;
    }
  }

  lemma {:induction false} SplitLineThen(line: string, rest: string)
    requires '\n' !in line
    ensures Split(line + "\n" + rest) == [line] + Split(rest)
  {
    if line == [] {
      assert line + "\n" + rest == "\n" + rest;
      assert ("\n" + rest)[1..] == rest;
    } else {
      assert (line + "\n" + rest)[1..] == line[1..] + "\n" + rest;
      SplitLineThen(line[1..], rest);
      assert [line[0]] + line[1..] == line;
    }
  }

  /** Splitting is incremental: splitting `x + y` keeps every complete piece
      of `x` and re-splits only the unterminated last piece with `y`. */
  lemma {:induction false} SplitAppend(x: string, y: string)
    ensures var px := Split(x);
            Split(x + y) == px[..|px| - 1] + Split(px[|px| - 1] + y)
  {
    var px := Split(x);
    SplitPieces(x);
    var prefix := px[..|px| - 1];
    var last := px[|px| - 1];
    assert px == prefix + [last];
    if |prefix| == 0 {
      assert Join(px) == last;
    } else {
      JoinAppend(prefix, [last]);
      assert x == Join(prefix) + "\n" + last;
      assert x + y == Join(prefix) + "\n" + (last + y);
      SplitAfterPieces(prefix, last + y);
    }
  }

  /** Text after complete pieces splits into those pieces, then its own pieces. */
  lemma SplitAfterPieces(prefix: seq<string>, rest: string)
    requires |prefix| >= 1
    requires forall i :: 0 <= i < |prefix| ==> '\n' !in prefix[i]
    ensures Split(Join(prefix) + "\n" + rest) == prefix + Split(rest)
  {
    var py := Split(rest);
    SplitPieces(rest);
    forall i | 0 <= i < |prefix + py| ensures '\n' !in (prefix + py)[i] {
      if i < |prefix| { assert (prefix + py)[i] == prefix[i]; }
      else { assert (prefix + py)[i] == py[i - |prefix|]; }
    }
    JoinAppend(prefix, py);
    SplitJoin(prefix + py);
  }

  /** ASCII lower-casing. For the two-character key prefixes compared against
      "tv", "bs" and "yd" it decides the same as `toLowerCase`, because no other
      character lower-cases to one of those letters. */
  function LowerAscii(s: string): (r: string)
    ensures |r| == |s|
    ensures forall i :: 0 <= i < |s| ==>
              r[i] == (if 'A' <= s[i] <= 'Z' then (s[i] as int + 32) as char else s[i])
  {
    if s == [] then []
    else LowerAscii(s[..|s| - 1]) + [if 'A' <= s[|s| - 1] <= 'Z' then (s[|s| - 1] as int + 32) as char else s[|s| - 1]]
  }

  predicate IsDigit(c: char)
  {
    '0' <= c <= '9'
  }

  function DigitChar(d: nat): char
    requires d < 10
  {
    ('0' as int + d) as char
  }

  /** How a number prints inside a template string: decimal, no leading zeros. */
  function NatToDecimal(n: nat): (s: string)
    ensures |s| >= 1
    ensures forall i :: 0 <= i < |s| ==> IsDigit(s[i])
    ensures |s| > 1 ==> s[0] != '0'
  {
    if n < 10 then [DigitChar(n)] else NatToDecimal(n / 10) + [DigitChar(n % 10)]
  }

  /** The value of a string of decimal digits. */
  function DecimalValue(s: string): nat
    requires forall i :: 0 <= i < |s| ==> IsDigit(s[i])
  {
    if s == [] then 0
    else
      assert IsDigit(s[|s| - 1]);
      10 * DecimalValue(s[..|s| - 1]) + (s[|s| - 1] as int - '0' as int)
  }

  /** Reading a printed number back gives the number. */
  lemma {:induction false} DecimalRoundTrip(n: nat)
    ensures DecimalValue(NatToDecimal(n)) == n
  {
    if n >= 10 {
      var s := NatToDecimal(n);
      assert s[..|s| - 1] == NatToDecimal(n / 10);
      DecimalRoundTrip(n / 10);
    }
  }

  /** The digits at the front of `s`. */
  function LeadingDigits(s: string): (r: string)
    ensures |r| <= |s| && r == s[..|r|]
    ensures forall i :: 0 <= i < |r| ==> IsDigit(s[i])
    ensures |r| < |s| ==> !IsDigit(s[|r|])
  {
    if s == [] || !IsDigit(s[0]) then []
    else
      var rest := LeadingDigits(s[1..]);
      [s[0]] + rest
  }

  /** A printed number followed by a non-digit reads back as that number. */
  lemma {:induction false} NumberPrefixReadsBack(n: nat, tail: string)
    requires tail != [] && !IsDigit(tail[0])
    ensures var d := LeadingDigits(NatToDecimal(n) + tail);
            d == NatToDecimal(n) && DecimalValue(d) == n
  {
    var s := NatToDecimal(n);
    LeadingDigitsOf(s, tail);
    DecimalRoundTrip(n);
  }

  lemma {:induction false} LeadingDigitsOf(s: string, tail: string)
    requires forall i :: 0 <= i < |s| ==> IsDigit(s[i])
    requires tail != [] && !IsDigit(tail[0])
    ensures LeadingDigits(s + tail) == s
  {
    if s != [] {
      assert (s + tail)[1..] == s[1..] + tail;
      LeadingDigitsOf(s[1..], tail);
    } else {
      assert s + tail == tail;
    }
  }

  /** Concatenation of a sequence of strings. */
  function Concat(parts: seq<string>): string
  {
    if parts == [] then [] else Concat(parts[..|parts| - 1]) + parts[|parts| - 1]
  }

  lemma {:induction false} ConcatAppend(a: seq<string>, b: seq<string>)
    ensures Concat(a + b) == Concat(a) + Concat(b)
  {
    if b == [] {
      assert a + b == a;
    } else {
      assert (a + b)[..|a + b| - 1] == a + b[..|b| - 1];
      ConcatAppend(a, b[..|b| - 1]);
    }
  }

  lemma ConcatSnoc(parts: seq<string>, i: nat)
    requires i < |parts|
    ensures Concat(parts[..i + 1]) == Concat(parts[..i]) + parts[i]
  {
    assert parts[..i + 1][..i] == parts[..i];
  }
}
