/** Collapsing runs of separators, for any element type. A sequence is cut
    into its words, the maximal runs of elements that are not separators;
    collapsing keeps the words in order, puts one separator `c` in each gap
    between two of them, and keeps one `c` at either end where the input
    had separators there. `replace(/\s+/g, ' ')` is this collapse with the
    `\s` class as separators, and `replace(/\n{2,}/g, '\n')` is it with the
    line feed. */
module Runs {
  import opened Seqs

  /** The length of the run of separators at the front of `s`. */
  function SepRun<T>(s: seq<T>, sep: T -> bool): (n: nat)
    ensures n <= |s|
    ensures forall i :: 0 <= i < n ==> sep(s[i])
    ensures n < |s| ==> !sep(s[n])
  {
    if s == [] || !sep(s[0]) then 0 else 1 + SepRun(s[1..], sep)
  }

  /** The length of the run of non-separators at the front of `s`. */
  function WordRun<T>(s: seq<T>, sep: T -> bool): (n: nat)
    ensures n <= |s|
    ensures forall i :: 0 <= i < n ==> !sep(s[i])
    ensures n < |s| ==> sep(s[n])
  {
    if s == [] || sep(s[0]) then 0 else 1 + WordRun(s[1..], sep)
  }

  predicate IsWord<T>(w: seq<T>, sep: T -> bool)
  {
    w != [] && forall i :: 0 <= i < |w| ==> !sep(w[i])
  }

  predicate AllSep<T>(s: seq<T>, sep: T -> bool)
  {
    forall i :: 0 <= i < |s| ==> sep(s[i])
  }

  /** The words of `s`, in order. */
  function Words<T>(s: seq<T>, sep: T -> bool): seq<seq<T>>
    decreases |s|
  {
    var k := SepRun(s, sep);
    if k == |s| then []
    else
      var w := WordRun(s[k..], sep);
      [s[k..k + w]] + Words(s[k + w..], sep)
  }

  /** The word at the front of a sequence that starts with a non-separator. */
  lemma FirstWordIsWord<T>(u: seq<T>, sep: T -> bool)
    requires u != [] && !sep(u[0])
    ensures WordRun(u, sep) >= 1 && IsWord(u[..WordRun(u, sep)], sep)
  {
    var w := WordRun(u, sep);
    forall i | 0 <= i < w ensures !sep(u[..w][i]) {
      assert u[..w][i] == u[i];
    }
  }

  /** Every word is non-empty and free of separators, and there are none
      exactly when the sequence is all separators. */
  lemma {:induction false} WordsAreWords<T>(s: seq<T>, sep: T -> bool)
    ensures forall i :: 0 <= i < |Words(s, sep)| ==> IsWord(Words(s, sep)[i], sep)
    ensures Words(s, sep) == [] <==> AllSep(s, sep)
    decreases |s|
  {
    var k := SepRun(s, sep);
    if k == |s| {
      assert AllSep(s, sep);
    } else {
      var u := s[k..];
      var w := WordRun(u, sep);
      var word := s[k..k + w];
      assert IsWord(word, sep) by {
        assert u[0] == s[k];
        FirstWordIsWord(u, sep);
        assert word == u[..w];
      }
      assert !AllSep(s, sep) by {
        assert !sep(s[k]);
      }
      var r := Words(s[k + w..], sep);
      WordsAreWords(s[k + w..], sep);
      var ws := Words(s, sep);
      assert ws == [word] + r;
      forall i | 0 <= i < |ws| ensures IsWord(ws[i], sep) {
        if i > 0 {
          assert ws[i] == r[i - 1];
        }
      }
    }
  }

  /** The words joined with one `c` between each two. */
  function JoinWith<T>(ws: seq<seq<T>>, c: T): seq<T>
  {
    if ws == [] then [] else if |ws| == 1 then ws[0] else ws[0] + [c] + JoinWith(ws[1..], c)
  }

  /** `s` with every run of separators replaced by the one element `c`. */
  function Collapsed<T>(s: seq<T>, sep: T -> bool, c: T): seq<T>
  {
    Lead(s, sep, c) + JoinWith(Words(s, sep), c) + Trail(s, sep, c)
  }

  /** The `c` a leading run of separators leaves. */
  function Lead<T>(s: seq<T>, sep: T -> bool, c: T): seq<T>
  {
    if s != [] && sep(s[0]) then [c] else []
  }

  /** The `c` a trailing run of separators after the last word leaves. */
  function Trail<T>(s: seq<T>, sep: T -> bool, c: T): seq<T>
  {
    if s != [] && Words(s, sep) != [] && sep(s[|s| - 1]) then [c] else []
  }

  // ---------------------------------------------------------------------
  // the runs at the front of a sequence
  // ---------------------------------------------------------------------

  lemma {:induction false} SepRunOf<T>(a: seq<T>, rest: seq<T>, sep: T -> bool)
    requires AllSep(a, sep)
    requires rest == [] || !sep(rest[0])
    ensures SepRun(a + rest, sep) == |a|
  {
    if a == [] {
      assert a + rest == rest;
    } else {
      assert (a + rest)[1..] == a[1..] + rest;
      SepRunOf(a[1..], rest, sep);
    }
  }

  lemma {:induction false} WordRunOf<T>(w: seq<T>, rest: seq<T>, sep: T -> bool)
    requires forall i :: 0 <= i < |w| ==> !sep(w[i])
    requires rest == [] || sep(rest[0])
    ensures WordRun(w + rest, sep) == |w|
  {
    if w == [] {
      assert w + rest == rest;
    } else {
      assert (w + rest)[1..] == w[1..] + rest;
      WordRunOf(w[1..], rest, sep);
    }
  }

  /** Separators in front change nothing about the words. */
  lemma WordsAfterSeps<T>(s: seq<T>, sep: T -> bool)
    ensures Words(s, sep) == Words(s[SepRun(s, sep)..], sep)
  {
    var k := SepRun(s, sep);
    var u := s[k..];
    if k < |s| {
      assert SepRun(u, sep) == 0;
      assert u[0..] == u;
      var w := WordRun(u, sep);
      assert u[0..w] == s[k..k + w];
      assert u[w..] == s[k + w..];
      assert Words(u, sep) == [u[0..w]] + Words(u[w..], sep);
      assert Words(s, sep) == [s[k..k + w]] + Words(s[k + w..], sep);
    } else {
      assert Words(s, sep) == [];
    }
  }

  /** A sequence that starts with a word splits into that word and the words after it. */
  lemma WordsAtWord<T>(s: seq<T>, sep: T -> bool)
    requires s != [] && !sep(s[0])
    ensures WordRun(s, sep) >= 1
    ensures Words(s, sep) == [s[..WordRun(s, sep)]] + Words(s[WordRun(s, sep)..], sep)
  {
    assert s[0..] == s;
  }

  lemma JoinWithCons<T>(w: seq<T>, ws: seq<seq<T>>, c: T)
    requires ws != []
    ensures JoinWith([w] + ws, c) == w + [c] + JoinWith(ws, c)
  {
    assert ([w] + ws)[1..] == ws;
  }

  /** An element put in front of the first word comes first in the join. */
  lemma JoinWithHead<T>(x: T, a: seq<T>, rest: seq<seq<T>>, c: T)
    ensures JoinWith([[x] + a] + rest, c) == [x] + JoinWith([a] + rest, c)
  {
    if rest == [] {
      AppendEmpty([[x] + a]);
      AppendEmpty([a]);
    } else {
      JoinWithCons([x] + a, rest, c);
      JoinWithCons(a, rest, c);
      AppendAssoc([x], a, [c]);
      AppendAssoc([x], a + [c], JoinWith(rest, c));
    }
  }

  /** A join of words starts with the first word's first element and ends
      with the last word's last element. */
  lemma {:induction false} JoinWithEnds<T>(ws: seq<seq<T>>, sep: T -> bool, c: T)
    requires ws != [] && forall i :: 0 <= i < |ws| ==> IsWord(ws[i], sep)
    ensures var j := JoinWith(ws, c);
            var last := ws[|ws| - 1];
            ws[0] != [] && last != [] && j != [] && j[0] == ws[0][0] && j[|j| - 1] == last[|last| - 1]
  {
    assert IsWord(ws[0], sep) && IsWord(ws[|ws| - 1], sep);
    if |ws| > 1 {
      var head := ws[0] + [c];
      var rest := JoinWith(ws[1..], c);
      assert JoinWith(ws, c) == head + rest;
      assert ws[1..][|ws| - 2] == ws[|ws| - 1];
      JoinWithEnds(ws[1..], sep, c);
      ConsAppend(ws[0], [c]);
      ConsAppend(head, rest);
      AppendDropLast(head, rest);
    }
  }

  // ---------------------------------------------------------------------
  // the collapse, one step at a time
  // ---------------------------------------------------------------------

  lemma CollapsedEmpty<T>(sep: T -> bool, c: T)
    ensures Collapsed([], sep, c) == []
  {
  }

  lemma TrailingAgrees<T>(s: seq<T>, u: seq<T>, sep: T -> bool, c: T)
    requires (Words(s, sep) == []) == (Words(u, sep) == [])
    requires u != [] ==> s != [] && s[|s| - 1] == u[|u| - 1]
    ensures Trail(s, sep, c) == Trail(u, sep, c)
  {
    if Words(u, sep) != [] {
      assert u != [];
    }
  }

  /** A run of separators at the front collapses to one `c`. */
  lemma CollapsedSepHead<T>(s: seq<T>, sep: T -> bool, c: T)
    requires s != [] && sep(s[0])
    ensures Collapsed(s, sep, c) == [c] + Collapsed(s[SepRun(s, sep)..], sep, c)
  {
    var u := s[SepRun(s, sep)..];
    var j := JoinWith(Words(s, sep), c);
    var t := Trail(s, sep, c);
    assert Collapsed(u, sep, c) == j + t by {
      WordsAfterSeps(s, sep);
      TrailingAgrees(s, u, sep, c);
      assert Lead(u, sep, c) == [];
      EmptyAppend(j);
    }
    assert Collapsed(s, sep, c) == [c] + j + t;
    AppendAssoc([c], j, t);
  }

  /** A non-separator at the front is kept. */
  lemma CollapsedWordHead<T>(s: seq<T>, sep: T -> bool, c: T)
    requires s != [] && !sep(s[0])
    ensures Collapsed(s, sep, c) == [s[0]] + Collapsed(s[1..], sep, c)
  {
    WordsAtWord(s, sep);
    if WordRun(s, sep) == 1 {
      CollapsedShortWord(s, sep, c);
    } else {
      CollapsedLongWord(s, sep, c);
    }
  }

  /** The word at the front is one element long. */
  lemma CollapsedShortWord<T>(s: seq<T>, sep: T -> bool, c: T)
    requires s != [] && !sep(s[0]) && WordRun(s, sep) == 1
    requires Words(s, sep) == [s[..1]] + Words(s[1..], sep)
    ensures Collapsed(s, sep, c) == [s[0]] + Collapsed(s[1..], sep, c)
  {
    var t := s[1..];
    var rest := Words(t, sep);
    assert Lead(s, sep, c) == [];
    if t == [] {
      assert Collapsed(s, sep, c) == [] + [s[0]] + [] by {
        assert s[..1] == [s[0]];
        AppendEmpty([s[..1]]);
      }
    } else if rest == [] {
      assert Collapsed(t, sep, c) == [c] by {
        assert sep(t[0]);
      }
      assert Collapsed(s, sep, c) == [] + [s[0]] + [c] by {
        assert s[..1] == [s[0]];
        AppendEmpty([s[..1]]);
        WordsAreWords(t, sep);
        assert s[|s| - 1] == t[|t| - 1];
      }
    } else {
      var j := JoinWith(rest, c);
      var tr := Trail(t, sep, c);
      assert Collapsed(t, sep, c) == [c] + j + tr by {
        assert sep(t[0]);
      }
      assert Collapsed(s, sep, c) == [] + ([s[0]] + [c] + j) + tr by {
        assert s[..1] == [s[0]];
        JoinWithCons([s[0]], rest, c);
        TrailingAgrees(s, t, sep, c);
      }
      EmptyAppend([s[0]] + [c] + j);
      AppendAssoc([s[0]], [c], j);
      AppendAssoc([s[0]], [c] + j, tr);
    }
  }

  /** The word at the front is longer than one element. */
  lemma CollapsedLongWord<T>(s: seq<T>, sep: T -> bool, c: T)
    requires s != [] && !sep(s[0]) && WordRun(s, sep) >= 2
    requires Words(s, sep) == [s[..WordRun(s, sep)]] + Words(s[WordRun(s, sep)..], sep)
    ensures Collapsed(s, sep, c) == [s[0]] + Collapsed(s[1..], sep, c)
  {
    var t := s[1..];
    var j := JoinWith(Words(t, sep), c);
    var tr := Trail(t, sep, c);
    assert JoinWith(Words(s, sep), c) == [s[0]] + j by {
      var w := WordRun(s, sep);
      var a := t[..w - 1];
      var rest := Words(s[w..], sep);
      assert Words(s, sep) == [[s[0]] + a] + rest by {
        assert s[..w] == [s[0]] + a;
      }
      assert Words(t, sep) == [a] + rest by {
        LongWordTail(s, sep);
      }
      JoinWithHead(s[0], a, rest, c);
    }
    assert !sep(t[0]);
    assert Collapsed(t, sep, c) == j + tr by {
      assert Lead(t, sep, c) == [];
      EmptyAppend(j);
    }
    assert Trail(s, sep, c) == tr by {
      WordsAtWord(t, sep);
      TrailingAgrees(s, t, sep, c);
    }
    assert Collapsed(s, sep, c) == [] + ([s[0]] + j) + tr by {
      assert Lead(s, sep, c) == [];
    }
    EmptyAppend([s[0]] + j);
    AppendAssoc([s[0]], j, tr);
  }

  /** Dropping the first element of a word longer than one leaves the rest of the word first. */
  lemma LongWordTail<T>(s: seq<T>, sep: T -> bool)
    requires s != [] && !sep(s[0]) && WordRun(s, sep) >= 2
    ensures Words(s[1..], sep) == [s[1..][..WordRun(s, sep) - 1]] + Words(s[WordRun(s, sep)..], sep)
  {
    var t := s[1..];
    var w := WordRun(s, sep);
    assert !sep(t[0]) && WordRun(t, sep) == w - 1;
    WordsAtWord(t, sep);
    assert t[w - 1..] == s[w..];
  }

  // ---------------------------------------------------------------------
  // the words survive
  // ---------------------------------------------------------------------

  /** Joining words with a separator (and any separators after them) gives
      back exactly those words. */
  lemma {:induction false} WordsOfJoin<T>(ws: seq<seq<T>>, sep: T -> bool, c: T, tail: seq<T>)
    requires sep(c) && AllSep(tail, sep)
    requires forall i :: 0 <= i < |ws| ==> IsWord(ws[i], sep)
    ensures Words(JoinWith(ws, c) + tail, sep) == ws
    decreases |ws|
  {
    WordsAreWords(tail, sep);
    if ws == [] {
      EmptyAppend(tail);
    } else {
      var w := ws[0];
      var after: seq<T> := if |ws| == 1 then tail else [c] + (JoinWith(ws[1..], c) + tail);
      assert JoinWith(ws, c) + tail == w + after by {
        if |ws| > 1 {
          AppendAssoc(w + [c], JoinWith(ws[1..], c), tail);
          AppendAssoc(w, [c], JoinWith(ws[1..], c) + tail);
        }
      }
      assert Words(w + after, sep) == [w] + Words(after, sep) by {
        assert after == [] || sep(after[0]);
        WordRunOf(w, after, sep);
        WordsAtWord(w + after, sep);
        assert (w + after)[..|w|] == w && (w + after)[|w|..] == after;
      }
      assert Words(after, sep) == ws[1..] by {
        if |ws| > 1 {
          var rest := JoinWith(ws[1..], c) + tail;
          JoinWithEnds(ws[1..], sep, c);
          assert rest != [] && !sep(rest[0]);
          SepRunOf([c], rest, sep);
          WordsAfterSeps(after, sep);
          assert after[1..] == rest;
          WordsOfJoin(ws[1..], sep, c, tail);
        }
      }
      assert ws == [w] + ws[1..];
    }
  }

  /** The collapse keeps the words of its input, in order. */
  lemma WordsOfCollapsed<T>(s: seq<T>, sep: T -> bool, c: T)
    requires sep(c)
    ensures Words(Collapsed(s, sep, c), sep) == Words(s, sep)
  {
    var ws := Words(s, sep);
    var lead := Lead(s, sep, c);
    var tail := Trail(s, sep, c);
    var body := JoinWith(ws, c) + tail;
    WordsAreWords(s, sep);
    assert Words(body, sep) == ws by {
      assert AllSep(tail, sep);
      WordsOfJoin(ws, sep, c, tail);
    }
    assert Collapsed(s, sep, c) == lead + body by {
      AppendAssoc(lead, JoinWith(ws, c), tail);
    }
    if lead == [] {
      EmptyAppend(body);
    } else {
      assert body == [] || !sep(body[0]) by {
        if ws != [] {
          JoinWithEnds(ws, sep, c);
          assert body[0] == JoinWith(ws, c)[0];
        }
      }
      SepRunOf(lead, body, sep);
      WordsAfterSeps(lead + body, sep);
      assert (lead + body)[1..] == body;
    }
  }
}
