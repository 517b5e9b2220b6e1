/** `performWebSearch`: the search provider is chosen by the first two
    characters of the search key, and the provider's JSON answer is turned
    into a plain-text context for the language model. Every failure ends in
    an empty context, never in an error. */
module WebSearch {
  import opened Wrappers
  import opened JsString
  import opened Seqs

  // ---------------------------------------------------------------------
  // choosing the provider
  // ---------------------------------------------------------------------

  datatype Provider = Tavily | Brave | YouCom | Unsupported

  /** `searchKey.substring(0, 2).toLowerCase()`. */
  function KeyPrefix(key: string): (p: string)
    ensures |p| == if |key| < 2 then |key| else 2
    ensures forall i :: 0 <= i < |p| ==>
              p[i] == (if 'A' <= key[i] <= 'Z' then (key[i] as int + 32) as char else key[i])
  {
    LowerAscii(Prefix(key, 2))
  }

  /** The key prefix `tv` selects Tavily, `bs` Brave and `yd` You.com, in
      either case; anything else, a key shorter than two characters
      included, is unsupported. */
  function ProviderFor(key: string): (p: Provider)
    ensures p == Tavily <==> |key| >= 2 && key[0] in "tT" && key[1] in "vV"
    ensures p == Brave <==> |key| >= 2 && key[0] in "bB" && key[1] in "sS"
    ensures p == YouCom <==> |key| >= 2 && key[0] in "yY" && key[1] in "dD"
  {
    var kp := KeyPrefix(key);
    if kp == "tv" then Tavily
    else if kp == "bs" then Brave
    else if kp == "yd" then YouCom
    else Unsupported
  }

  // ---------------------------------------------------------------------
  // the answers of the three providers
  // ---------------------------------------------------------------------

  datatype TavilyResult = TavilyResult(title: Option<string>, url: Option<string>, content: Option<string>)
  datatype TavilyData = TavilyData(answer: Option<string>, results: Option<seq<TavilyResult>>)

  datatype BraveResult = BraveResult(
    title: Option<string>,
    url: Option<string>,
    description: Option<string>,
    extraSnippets: Option<seq<string>>)
  datatype BraveWeb = BraveWeb(results: Option<seq<BraveResult>>)
  datatype BraveSummarizer = BraveSummarizer(key: Option<string>)
  datatype BraveData = BraveData(web: Option<BraveWeb>, summarizer: Option<BraveSummarizer>)

  datatype YouResult = YouResult(title: Option<string>, url: Option<string>, description: Option<string>)
  datatype YouResults = YouResults(web: Option<seq<YouResult>>, news: Option<seq<YouResult>>)
  datatype YouData = YouData(results: Option<YouResults>)

  /** What each provider's request yields: `None` when `fetch` rejects, the
      status is not OK or the body is not JSON, all of which are caught. */
  datatype SearchAnswers = SearchAnswers(tavily: Option<TavilyData>, brave: Option<BraveData>, you: Option<YouData>)

  // ---------------------------------------------------------------------
  // pieces of the context
  // ---------------------------------------------------------------------

  /** Results kept from each list (`slice(0, 10)`). */
  const MaxSources: nat := 10
  /** Characters kept from each snippet (`substring(0, 200)`). */
  const SnippetLength: nat := 200

  /** A field interpolated into a template string: a missing one prints as `undefined`. */
  function Text(o: Option<string>): string
  {
    if o.Some? then o.value else "undefined"
  }

  /** A string field in a condition: missing and empty are both false. */
  predicate Truthy(o: Option<string>)
  {
    o.Some? && o.value != []
  }

  function Shown<T>(rs: seq<T>): (r: seq<T>)
    ensures |r| == if |rs| <= MaxSources then |rs| else MaxSources
    ensures r == rs[..|r|]
  {
    if |rs| <= MaxSources then rs else rs[..MaxSources]
  }

  /** `text?.substring(0, 200)` inside the template. */
  function Snippet(text: Option<string>): (s: string)
    ensures text.None? ==> s == "undefined"
    ensures text.Some? ==> |s| <= SnippetLength && s <= text.value
    ensures text.Some? ==> |s| == if |text.value| <= SnippetLength then |text.value| else SnippetLength
  {
    if text.None? then "undefined" else Prefix(text.value, SnippetLength)
  }

  /** What follows the number in a numbered source line. */
  function EntryTail(title: Option<string>, url: Option<string>, text: Option<string>): string
  {
    ". " + Text(title) + ": " + Text(url) + " - " + Snippet(text) + "...\n"
  }

  /** One numbered source line, as Tavily and You.com results are listed. */
  function NumberedLine(n: nat, title: Option<string>, url: Option<string>, text: Option<string>): string
  {
    NatToDecimal(n) + EntryTail(title, url, text)
  }

  /** The number a line starts with. */
  function LineNumber(line: string): nat
  {
    DecimalValue(LeadingDigits(line))
  }

  /** A numbered line reads back as its number. */
  lemma NumberedLineNumber(n: nat, title: Option<string>, url: Option<string>, text: Option<string>)
    ensures LineNumber(NumberedLine(n, title, url, text)) == n
  {
    var tail := EntryTail(title, url, text);
    assert tail[0] == '.';
    NumberPrefixReadsBack(n, tail);
  }

  // ---------------------------------------------------------------------
  // Tavily
  // ---------------------------------------------------------------------

  function AnswerLine(answer: string): string
  {
    "Web Search Answer: " + answer + "\n\n"
  }

  const TavilyHeader: string := "Relevant Sources:\n"

  function TavilyLines(rs: seq<TavilyResult>): (lines: seq<string>)
    ensures |lines| == |rs|
  {
    seq(|rs|, i requires 0 <= i < |rs| => NumberedLine(i + 1, rs[i].title, rs[i].url, rs[i].content))
  }

  /** The Tavily context: the answer line first when there is an answer,
      then the numbered sources whenever the results list is present. */
  function TavilyContext(d: TavilyData): (r: string)
    ensures r == [] <==> !Truthy(d.answer) && (d.results.None? || |d.results.value| == 0)
    ensures Truthy(d.answer) ==> StartsWith(r, AnswerLine(d.answer.value))
    ensures var a := if Truthy(d.answer) then AnswerLine(d.answer.value) else "";
            r != [] ==>
              StartsWith(r, a) &&
              r[|a|..] == if d.results.Some? then TavilyHeader + Concat(TavilyLines(Shown(d.results.value))) + "\n" else ""
  {
    if !Truthy(d.answer) && (d.results.None? || |d.results.value| == 0) then ""
    else
      var answer := if Truthy(d.answer) then AnswerLine(d.answer.value) else "";
      var sources := if d.results.Some? then TavilyHeader + Concat(TavilyLines(Shown(d.results.value))) + "\n" else "";
      assert d.results.Some? ==> |sources| > 0;
      answer + sources
  }

  /** The sources are numbered 1, 2, … and at most ten are listed. */
  lemma TavilyNumbering(rs: seq<TavilyResult>)
    ensures |TavilyLines(Shown(rs))| <= MaxSources
    ensures |TavilyLines(Shown(rs))| == |rs| || |TavilyLines(Shown(rs))| == MaxSources
    ensures forall i :: 0 <= i < |TavilyLines(Shown(rs))| ==> LineNumber(TavilyLines(Shown(rs))[i]) == i + 1
  {
    var shown := Shown(rs);
    var lines := TavilyLines(shown);
    forall i | 0 <= i < |lines|
      ensures LineNumber(lines[i]) == i + 1
    {
      NumberedLineNumber(i + 1, shown[i].title, shown[i].url, shown[i].content);
    }
  }

  /** Results past the tenth change nothing. */
  lemma TavilyCapped(d: TavilyData)
    requires d.results.Some? && |d.results.value| > MaxSources
    ensures TavilyContext(d) == TavilyContext(d.(results := Some(d.results.value[..MaxSources])))
  {
    var rs := d.results.value;
    assert Shown(rs) == Shown(rs[..MaxSources]);
  }

  /** The Tavily branch as written: the context is built by appending. */
  method FormatTavily(d: TavilyData) returns (context: string)
    ensures context == TavilyContext(d)
  {
    if !Truthy(d.answer) && (d.results.None? || |d.results.value| == 0) {
      return "";
    }
    var answer := "";
    if Truthy(d.answer) {
      answer := AnswerLine(d.answer.value);
    }
    var sources := "";
    if d.results.Some? {
      var list := ListTavily(Shown(d.results.value));
      sources := TavilyHeader + list + "\n";
    }
    context := answer + sources;
  }

  /** The `forEach` over the kept Tavily results, numbering from 1. */
  method ListTavily(shown: seq<TavilyResult>) returns (list: string)
    ensures list == Concat(TavilyLines(shown))
  {
    ghost var lines := TavilyLines(shown);
    list := "";
    var i := 0;
    while i < |shown|
      invariant 0 <= i <= |shown|
      invariant list == Concat(lines[..i])
    {
      var line := NumberedLine(i + 1, shown[i].title, shown[i].url, shown[i].content);
      ConcatSnoc(lines, i);
      list := list + line;
      i := i + 1;
    }
    assert lines[..|shown|] == lines;
  }

  // ---------------------------------------------------------------------
  // Brave
  // ---------------------------------------------------------------------

  /** `description || ''`, then the extra snippets on lines of their own. */
  function BraveSnippet(r: BraveResult): string
  {
    (if Truthy(r.description) then r.description.value else "") +
    (if r.extraSnippets.Some? then "\n" + Join(r.extraSnippets.value) else "")
  }

  function BraveEntry(r: BraveResult): (e: string)
    ensures StartsWith(e, "\n- Title: ")
  {
    "\n- Title: " + Text(r.title) + "\nURL: " + Text(r.url) + "\nSnippet: " + BraveSnippet(r)
  }

  function BraveEntries(rs: seq<BraveResult>): (es: seq<string>)
    ensures |es| == |rs|
  {
    seq(|rs|, i requires 0 <= i < |rs| => BraveEntry(rs[i]))
  }

  predicate HasBraveResults(d: BraveData)
  {
    d.web.Some? && d.web.value.results.Some? && |d.web.value.results.value| > 0
  }

  /** The summarizer key (when there is a summarizer) followed by every web
      result; the list is not capped. */
  function BraveContext(d: BraveData): (r: string)
    ensures r == [] <==> !HasBraveResults(d)
    ensures var key := if d.summarizer.Some? then Text(d.summarizer.value.key) else "";
            HasBraveResults(d) ==>
              StartsWith(r, key) && r[|key|..] == Concat(BraveEntries(d.web.value.results.value))
  {
    if !HasBraveResults(d) then ""
    else
      var rs := d.web.value.results.value;
      var es := BraveEntries(rs);
      assert Concat(es) == Concat(es[..|es| - 1]) + BraveEntry(rs[|rs| - 1]);
      (if d.summarizer.Some? then Text(d.summarizer.value.key) else "") + Concat(es)
  }

  /** One more web result adds its entry at the end: Brave results are
      never dropped. */
  lemma BraveUncapped(d: BraveData, more: BraveResult)
    requires HasBraveResults(d)
    ensures var rs := d.web.value.results.value;
            BraveContext(d.(web := Some(BraveWeb(Some(rs + [more]))))) == BraveContext(d) + BraveEntry(more)
  {
    var rs := d.web.value.results.value;
    var key := if d.summarizer.Some? then Text(d.summarizer.value.key) else "";
    var es := BraveEntries(rs);
    var es' := BraveEntries(rs + [more]);
    assert Concat(es') == Concat(es) + BraveEntry(more) by {
      assert es'[..|es'| - 1] == es;
    }
    AppendAssoc(key, Concat(es), BraveEntry(more));
  }

  // ---------------------------------------------------------------------
  // You.com
  // ---------------------------------------------------------------------

  const WebHeader: string := "Relevant Web Sources:\n"
  const NewsHeader: string := "Relevant News Sources:\n"
  /** The first number of the news list. */
  const NewsStart: nat := 11

  function YouLines(rs: seq<YouResult>, start: nat): (lines: seq<string>)
    ensures |lines| == |rs|
  {
    seq(|rs|, i requires 0 <= i < |rs| => NumberedLine(i + start, rs[i].title, rs[i].url, rs[i].description))
  }

  /** A headed section, present only for a non-empty list. */
  function YouSection(header: string, rs: Option<seq<YouResult>>, start: nat): (r: string)
    ensures header != [] ==> (r == [] <==> rs.None? || |rs.value| == 0)
  {
    if rs.None? || |rs.value| == 0 then ""
    else header + Concat(YouLines(Shown(rs.value), start)) + "\n"
  }

  /** Web sources, then news sources. */
  function YouContext(d: YouData): (r: string)
    ensures r == [] <==>
              d.results.None? ||
              ((d.results.value.web.None? || |d.results.value.web.value| == 0) &&
               (d.results.value.news.None? || |d.results.value.news.value| == 0))
  {
    if d.results.None? || (d.results.value.web.None? && d.results.value.news.None?) then ""
    else YouSection(WebHeader, d.results.value.web, 1) + YouSection(NewsHeader, d.results.value.news, NewsStart)
  }

  /** Web sources are numbered 1, 2, … and news sources 11, 12, …, at most
      ten of each, so no number is used twice. */
  lemma YouNumbering(web: seq<YouResult>, news: seq<YouResult>)
    ensures |YouLines(Shown(web), 1)| <= MaxSources && |YouLines(Shown(news), NewsStart)| <= MaxSources
    ensures forall i :: 0 <= i < |YouLines(Shown(web), 1)| ==>
              LineNumber(YouLines(Shown(web), 1)[i]) == i + 1
    ensures forall j :: 0 <= j < |YouLines(Shown(news), NewsStart)| ==>
              LineNumber(YouLines(Shown(news), NewsStart)[j]) == j + NewsStart
    ensures forall i, j :: 0 <= i < |YouLines(Shown(web), 1)| && 0 <= j < |YouLines(Shown(news), NewsStart)| ==>
              LineNumber(YouLines(Shown(web), 1)[i]) != LineNumber(YouLines(Shown(news), NewsStart)[j])
  {
    var w := Shown(web);
    var n := Shown(news);
    forall i | 0 <= i < |w|
      ensures LineNumber(YouLines(w, 1)[i]) == i + 1
    {
      NumberedLineNumber(i + 1, w[i].title, w[i].url, w[i].description);
    }
    forall j | 0 <= j < |n|
      ensures LineNumber(YouLines(n, NewsStart)[j]) == j + NewsStart
    {
      NumberedLineNumber(j + NewsStart, n[j].title, n[j].url, n[j].description);
    }
  }

  /** One You.com section as written: header, numbered lines, blank line. */
  method FormatYouSection(header: string, rs: Option<seq<YouResult>>, start: nat) returns (section: string)
    ensures section == YouSection(header, rs, start)
  {
    if rs.None? || |rs.value| == 0 {
      return "";
    }
    var list := ListYou(Shown(rs.value), start);
    section := header + list + "\n";
  }

  /** The `forEach` over the kept You.com results, numbering from `start`. */
  method ListYou(shown: seq<YouResult>, start: nat) returns (list: string)
    ensures list == Concat(YouLines(shown, start))
  {
    ghost var lines := YouLines(shown, start);
    list := "";
    var i := 0;
    while i < |shown|
      invariant 0 <= i <= |shown|
      invariant list == Concat(lines[..i])
    {
      var line := NumberedLine(i + start, shown[i].title, shown[i].url, shown[i].description);
      ConcatSnoc(lines, i);
      list := list + line;
      i := i + 1;
    }
    assert lines[..|shown|] == lines;
  }

  method FormatYou(d: YouData) returns (context: string)
    ensures context == YouContext(d)
  {
    if d.results.None? || (d.results.value.web.None? && d.results.value.news.None?) {
      return "";
    }
    var web := FormatYouSection(WebHeader, d.results.value.web, 1);
    var news := FormatYouSection(NewsHeader, d.results.value.news, NewsStart);
    context := web + news;
  }

  // ---------------------------------------------------------------------
  // performWebSearch
  // ---------------------------------------------------------------------

  /** The context `performWebSearch` resolves to. */
  function SearchContext(query: string, key: string, answers: SearchAnswers): (r: string)
    ensures query == [] || key == [] ==> r == []
    ensures ProviderFor(key) == Unsupported ==> r == []
    ensures ProviderFor(key) == Tavily && answers.tavily.None? ==> r == []
    ensures ProviderFor(key) == Brave && answers.brave.None? ==> r == []
    ensures ProviderFor(key) == YouCom && answers.you.None? ==> r == []
    ensures query != [] && key != [] && ProviderFor(key) == Tavily && answers.tavily.Some? ==>
              r == TavilyContext(answers.tavily.value)
    ensures query != [] && key != [] && ProviderFor(key) == Brave && answers.brave.Some? ==>
              r == BraveContext(answers.brave.value)
    ensures query != [] && key != [] && ProviderFor(key) == YouCom && answers.you.Some? ==>
              r == YouContext(answers.you.value)
  {
    if query == [] || key == [] then ""
    else
      match ProviderFor(key)
      case Tavily => if answers.tavily.None? then "" else TavilyContext(answers.tavily.value)
      case Brave => if answers.brave.None? then "" else BraveContext(answers.brave.value)
      case YouCom => if answers.you.None? then "" else YouContext(answers.you.value)
      case Unsupported => ""
  }

  method PerformWebSearch(query: string, key: string, answers: SearchAnswers) returns (context: string)
    ensures context == SearchContext(query, key, answers)
  {
    if query == [] || key == [] {
      return "";
    }
    var provider := ProviderFor(key);
    match provider {
      case Tavily =>
        if answers.tavily.None? {
          return "";
        }
        context := FormatTavily(answers.tavily.value);
      case Brave =>
        if answers.brave.None? {
          return "";
        }
        context := BraveContext(answers.brave.value);
      case YouCom =>
        if answers.you.None? {
          return "";
        }
        context := FormatYou(answers.you.value);
      case Unsupported =>
        context := "";
    }
  }
}
