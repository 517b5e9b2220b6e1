/** The streaming response consumer of the Firefox popup: `callGemini` and
    `callOpenRouter` read decoded chunks, keep an LF-split line buffer, take
    the `data: ` lines apart and append every non-empty delta to the content,
    which is finally cleaned (`\n{2,}` to `\n`, then trimmed). */
module Streaming {
  import opened Wrappers
  import opened JsString
  import opened Seqs
  import Runs

  const DataPrefix: string := "data: "
  const DoneLine: string := "data: [DONE]"

  // ---------------------------------------------------------------------
  // clean: fullContent.replace(/\n{2,}/g, '\n').trim()
  // ---------------------------------------------------------------------

  predicate NoDoubleNewline(s: string)
  {
    forall i :: 0 <= i < |s| - 1 ==> !(s[i] == '\n' && s[i + 1] == '\n')
  }

  /** `s` with every LF removed. */
  function WithoutNewlines(s: string): string
  {
    if s == [] then [] else (if s[0] == '\n' then [] else [s[0]]) + WithoutNewlines(s[1..])
  }

  /** `replace(/\n{2,}/g, '\n')`: a run of line feeds shrinks to one. */
  function SqueezeNewlines(s: string): (r: string)
    ensures NoDoubleNewline(r)
    ensures |r| <= |s|
    ensures s != [] ==> r != [] && r[0] == s[0]
  {
    if |s| < 2 then s
    else if s[0] == '\n' && s[1] == '\n' then SqueezeNewlines(s[1..])
    else [s[0]] + SqueezeNewlines(s[1..])
  }

  /** The rewrite only ever drops line feeds, and keeps one wherever there was one. */
  lemma {:induction false} SqueezeKeepsText(s: string)
    ensures WithoutNewlines(SqueezeNewlines(s)) == WithoutNewlines(s)
    ensures '\n' in SqueezeNewlines(s) <==> '\n' in s
  {
    if |s| >= 2 {
      SqueezeKeepsText(s[1..]);
      if !(s[0] == '\n' && s[1] == '\n') {
        var r := SqueezeNewlines(s[1..]);
        assert ([s[0]] + r)[1..] == r;
      }
    } else if |s| == 1 {
      assert s[1..] == [];
    }
  }

  predicate IsLineFeed(c: char)
  {
    c == '\n'
  }

  /** The rewrite is the run collapse of `Runs` with the line feed as
      separator: the text's lines that are not empty, in order, one line
      feed between each two, and one line feed for a run at either end. */
  lemma {:induction false} SqueezeIsCollapsed(s: string)
    ensures SqueezeNewlines(s) == Runs.Collapsed(s, IsLineFeed, '\n')
    decreases |s|
  {
    if s == [] {
      Runs.CollapsedEmpty(IsLineFeed, '\n');
    } else if !IsLineFeed(s[0]) {
      SqueezeIsCollapsed(s[1..]);
      Runs.CollapsedWordHead(s, IsLineFeed, '\n');
    } else if |s| == 1 || s[1] != '\n' {
      SqueezeIsCollapsed(s[1..]);
      Runs.CollapsedSepHead(s, IsLineFeed, '\n');
      assert Runs.SepRun(s, IsLineFeed) == 1;
    } else {
      SqueezeIsCollapsed(s[1..]);
      Runs.CollapsedSepHead(s, IsLineFeed, '\n');
      Runs.CollapsedSepHead(s[1..], IsLineFeed, '\n');
      assert s[1..][Runs.SepRun(s[1..], IsLineFeed)..] == s[Runs.SepRun(s, IsLineFeed)..];
    }
  }

  /** The non-empty lines of the text survive the rewrite unchanged and in order. */
  lemma SqueezeKeepsLines(s: string)
    ensures Runs.Words(SqueezeNewlines(s), IsLineFeed) == Runs.Words(s, IsLineFeed)
  {
    SqueezeIsCollapsed(s);
    Runs.WordsOfCollapsed(s, IsLineFeed, '\n');
  }

  /** A string without a double line feed is left alone. */
  lemma {:induction false} SqueezeIdentity(s: string)
    requires NoDoubleNewline(s)
    ensures SqueezeNewlines(s) == s
  {
    if |s| >= 2 {
      SqueezeIdentity(s[1..]);
      assert [s[0]] + s[1..] == s;
    }
  }

  lemma {:induction false} InfixNoDoubleNewline(c: string, k: nat, r: string)
    requires NoDoubleNewline(c)
    requires k + |r| <= |c| && r == c[k..k + |r|]
    ensures NoDoubleNewline(r)
  {
    forall i | 0 <= i < |r| - 1
      ensures !(r[i] == '\n' && r[i + 1] == '\n')
    {
      assert r[i] == c[k + i] && r[i + 1] == c[k + i + 1];
    }
  }

  /** The clean applied to the content while streaming and at the end. */
  function Clean(s: string): (r: string)
    ensures NoDoubleNewline(r) && NoEdgeWhitespace(r)
  {
    var c := SqueezeNewlines(s);
    var r := Trim(c);
    InfixNoDoubleNewline(c, LeadingWhitespace(c), r);
    r
  }

  lemma TrimIdentity(s: string)
    requires NoEdgeWhitespace(s)
    ensures Trim(s) == s
  {
    if s != [] {
      assert LeadingWhitespace(s) == 0;
      assert TrimStart(s) == s;
      assert TrimEnd(s) == s;
    }
  }

  /** Cleaning clean content changes nothing. */
  lemma CleanIdempotent(s: string)
    ensures Clean(Clean(s)) == Clean(s)
  {
    var c := Clean(s);
    SqueezeIdentity(c);
    TrimIdentity(c);
  }

  // ---------------------------------------------------------------------
  // the line buffer
  // ---------------------------------------------------------------------

  /** `buffer += chunk; lines = buffer.split('\n'); buffer = lines.pop() || ''`:
      the complete lines and the new buffer. */
  function SplitBuffer(buffer: string, chunk: string): (r: (seq<string>, string))
    ensures '\n' !in r.1
    ensures forall i :: 0 <= i < |r.0| ==> '\n' !in r.0[i]
    ensures Join(r.0 + [r.1]) == buffer + chunk
  {
    var pieces := Split(buffer + chunk);
    SplitPieces(buffer + chunk);
    assert pieces[..|pieces| - 1] + [pieces[|pieces| - 1]] == pieces;
    (pieces[..|pieces| - 1], pieces[|pieces| - 1])
  }

  /** The lines of `s` that end in a line feed. */
  function CompleteLines(s: string): seq<string>
  {
    var pieces := Split(s);
    pieces[..|pieces| - 1]
  }

  /** What is left in the buffer after `s`: the text after its last line feed. */
  function Pending(s: string): string
  {
    var pieces := Split(s);
    pieces[|pieces| - 1]
  }

  /** Reading `y` after `x` yields the lines of `x`, then the lines of
      `x`'s leftover followed by `y`. */
  lemma CompleteLinesAppend(x: string, y: string)
    ensures CompleteLines(x + y) == CompleteLines(x) + CompleteLines(Pending(x) + y)
  {
    var pxy, py := Split(x + y), Split(Pending(x) + y);
    assert pxy == CompleteLines(x) + py by {
      SplitAppend(x, y);
    }
    LastOfAppend(pxy, CompleteLines(x), py);
  }

  /** The buffer left after `x + y` is the one left after `x`'s leftover and `y`. */
  lemma PendingAppend(x: string, y: string)
    ensures Pending(x + y) == Pending(Pending(x) + y)
  {
    var pxy, py := Split(x + y), Split(Pending(x) + y);
    assert pxy == CompleteLines(x) + py by {
      SplitAppend(x, y);
    }
    LastOfAppend(pxy, CompleteLines(x), py);
  }

  // ---------------------------------------------------------------------
  // lines to deltas
  // ---------------------------------------------------------------------

  /** `line.startsWith('data: ') && line !== 'data: [DONE]'`. */
  predicate IsDataLine(line: string)
  {
    StartsWith(line, DataPrefix) && line != DoneLine
  }

  /** What one line adds to the content. `extract` stands for `JSON.parse`
      of `line.slice(6)` followed by the provider's field path: None when the
      parse throws or the field is missing. An empty delta adds nothing. */
  function LineDelta(line: string, extract: string -> Option<string>): (d: string)
    ensures d != [] ==> IsDataLine(line) && extract(line[|DataPrefix|..]) == Some(d)
    ensures IsDataLine(line) && extract(line[|DataPrefix|..]).Some? ==> d == extract(line[|DataPrefix|..]).value
  {
    if IsDataLine(line) then
      match extract(line[|DataPrefix|..])
      case Some(delta) => delta
      case None => []
    else []
  }

  /** The content appended, in order, by a sequence of lines. */
  function Deltas(lines: seq<string>, extract: string -> Option<string>): string
  {
    if lines == [] then [] else Deltas(lines[..|lines| - 1], extract) + LineDelta(lines[|lines| - 1], extract)
  }

  lemma DeltasSnoc(lines: seq<string>, extract: string -> Option<string>)
    requires lines != []
    ensures Deltas(lines, extract) == Deltas(lines[..|lines| - 1], extract) + LineDelta(lines[|lines| - 1], extract)
  {
  }

  lemma {:induction false} DeltasAppend(a: seq<string>, b: seq<string>, extract: string -> Option<string>)
    ensures Deltas(a + b, extract) == Deltas(a, extract) + Deltas(b, extract)
  {
    if b == [] {
      AppendEmpty(a);
      AppendEmpty(Deltas(a, extract));
    } else {
      AppendDropLast(a, b);
      DeltasAppend(a, b[..|b| - 1], extract);
      DeltasSnoc(a + b, extract);
      DeltasSnoc(b, extract);
      AppendAssoc(Deltas(a, extract), Deltas(b[..|b| - 1], extract), LineDelta(b[|b| - 1], extract));
    }
  }

  /** A line that is not a data line, is the `[DONE]` marker, or fails to
      parse is skipped: removing it changes nothing. */
  lemma SkippedLineAddsNothing(lines: seq<string>, k: nat, extract: string -> Option<string>)
    requires k < |lines|
    requires !IsDataLine(lines[k]) || extract(lines[k][|DataPrefix|..]).None?
    ensures Deltas(lines, extract) == Deltas(lines[..k] + lines[k + 1..], extract)
  {
    var a, x, b := lines[..k], lines[k], lines[k + 1..];
    var ax := lines[..k + 1];
    assert LineDelta(x, extract) == [];
    CutAt(lines, k);
    TakeSnoc(lines, k);
    DeltasSnoc(ax, extract);
    DeltasAppend(ax, b, extract);
    DeltasAppend(a, b, extract);
  }

  // ---------------------------------------------------------------------
  // the read loop
  // ---------------------------------------------------------------------

  /** One `reader.read()` (its value already decoded), or a read or decode
      that throws with the given message. */
  datatype ReadStep = Chunk(text: string) | ReadFailure(message: string)

  /** The number of reads that succeed before the first failing one. */
  function ReadsBeforeFailure(steps: seq<ReadStep>): (n: nat)
    ensures n <= |steps|
    ensures forall k :: 0 <= k < n ==> steps[k].Chunk?
    ensures n < |steps| ==> steps[n].ReadFailure?
  {
    if steps == [] || steps[0].ReadFailure? then 0 else 1 + ReadsBeforeFailure(steps[1..])
  }

  function Texts(steps: seq<ReadStep>): seq<string>
  {
    if steps == [] then []
    else Texts(steps[..|steps| - 1]) + [if steps[|steps| - 1].Chunk? then steps[|steps| - 1].text else []]
  }

  /** `fullContent` once the chunks `texts` have been read: the deltas of
      every line terminated so far, whatever the chunking. */
  function StreamedContent(texts: seq<string>, extract: string -> Option<string>): string
  {
    Deltas(CompleteLines(Concat(texts)), extract)
  }

  /** What the streaming loop returns, or the `Stream error: …` it throws. */
  function StreamOutcome(steps: seq<ReadStep>, extract: string -> Option<string>): Result<string, string>
  {
    var n := ReadsBeforeFailure(steps);
    if n < |steps| then Err("Stream error: " + steps[n].message)
    else Ok(Clean(StreamedContent(Texts(steps), extract)))
  }

  lemma TextsSnoc(steps: seq<ReadStep>, i: nat)
    requires i < |steps| && steps[i].Chunk?
    ensures Texts(steps[..i + 1]) == Texts(steps[..i]) + [steps[i].text]
  {
    TakeSnoc(steps, i);
  }

  /** A read failing after `i` good ones ends the call with a stream error. */
  lemma FailedOutcome(steps: seq<ReadStep>, i: nat, extract: string -> Option<string>)
    requires i < |steps| && steps[i].ReadFailure? && i <= ReadsBeforeFailure(steps)
    ensures StreamOutcome(steps, extract) == Err("Stream error: " + steps[i].message)
  {
    assert ReadsBeforeFailure(steps) == i;
  }

  /** One pass of the read loop on a successful read: the loop state for
      the first `i` reads becomes the state for the first `i + 1`. */
  method ReadChunk(steps: seq<ReadStep>, i: nat, extract: string -> Option<string>,
                   buffer: string, content: string, started: bool)
    returns (bufferAfter: string, contentAfter: string, startedAfter: bool)
    requires i < |steps| && steps[i].Chunk? && i <= ReadsBeforeFailure(steps)
    requires buffer == Pending(Concat(Texts(steps[..i])))
    requires content == StreamedContent(Texts(steps[..i]), extract)
    requires started <==> content != []
    ensures i + 1 <= ReadsBeforeFailure(steps)
    ensures bufferAfter == Pending(Concat(Texts(steps[..i + 1])))
    ensures contentAfter == StreamedContent(Texts(steps[..i + 1]), extract)
    ensures startedAfter <==> contentAfter != []
  {
    ChunkStep(steps, i, extract);
    bufferAfter, contentAfter, startedAfter := FeedChunk(buffer, steps[i].text, extract, content, started);
  }

  /** Reading one more chunk `t`. */
  lemma StreamStep(texts: seq<string>, t: string)
    ensures var x := Concat(texts);
            var split := SplitBuffer(Pending(x), t);
            CompleteLines(Concat(texts + [t])) == CompleteLines(x) + split.0 &&
            Pending(Concat(texts + [t])) == split.1
  {
    AppendTake(texts, [t]);
    CompleteLinesAppend(Concat(texts), t);
    PendingAppend(Concat(texts), t);
  }

  /** The loop state after read `i + 1` in terms of the state after read `i`. */
  lemma ChunkStep(steps: seq<ReadStep>, i: nat, extract: string -> Option<string>)
    requires i < |steps| && steps[i].Chunk?
    ensures var split := SplitBuffer(Pending(Concat(Texts(steps[..i]))), steps[i].text);
            Pending(Concat(Texts(steps[..i + 1]))) == split.1 &&
            StreamedContent(Texts(steps[..i + 1]), extract)
              == StreamedContent(Texts(steps[..i]), extract) + Deltas(split.0, extract)
  {
    var texts := Texts(steps[..i]);
    TextsSnoc(steps, i);
    StreamStep(texts, steps[i].text);
    DeltasAppend(CompleteLines(Concat(texts)), SplitBuffer(Pending(Concat(texts)), steps[i].text).0, extract);
  }

  /** `fullContent` is append-only: more chunks only extend it. */
  lemma StreamedContentGrows(texts: seq<string>, more: seq<string>, extract: string -> Option<string>)
    ensures StreamedContent(texts, extract) <= StreamedContent(texts + more, extract)
  {
    var x, y := Concat(texts), Concat(more);
    ConcatAppend(texts, more);
    CompleteLinesAppend(x, y);
    DeltasAppend(CompleteLines(x), CompleteLines(Pending(x) + y), extract);
  }

  /** A last chunk without a line feed is never processed: it leaves the
      content as it was. */
  lemma UnterminatedTailIgnored(texts: seq<string>, t: string, extract: string -> Option<string>)
    requires '\n' !in t
    ensures StreamedContent(texts + [t], extract) == StreamedContent(texts, extract)
  {
    var x := Concat(texts);
    StreamStep(texts, t);
    var p := Pending(x);
    SplitPieces(x);
    assert '\n' !in p + t;
    SplitNoNewline(p + t);
    assert CompleteLines(x) + [] == CompleteLines(x);
  }

  /** The inner `for (const line of lines)` loop: appends each line's delta. */
  method ProcessLines(lines: seq<string>, extract: string -> Option<string>, content: string, started: bool)
    returns (contentAfter: string, startedAfter: bool)
    requires started <==> content != []
    ensures contentAfter == content + Deltas(lines, extract)
    ensures startedAfter <==> contentAfter != []
  {
    contentAfter, startedAfter := content, started;
    var j := 0;
    while j < |lines|
      invariant 0 <= j <= |lines|
      invariant contentAfter == content + Deltas(lines[..j], extract)
      invariant startedAfter <==> contentAfter != []
    {
      TakeSnoc(lines, j);
      DeltasSnoc(lines[..j + 1], extract);
      AppendAssoc(content, Deltas(lines[..j], extract), LineDelta(lines[j], extract));
      contentAfter, startedAfter := ProcessLine(lines[j], extract, contentAfter, startedAfter);
      j := j + 1;
    }
    TakeAll(lines);
  }

  /** The body of that loop for one line. */
  method ProcessLine(line: string, extract: string -> Option<string>, content: string, started: bool)
    returns (contentAfter: string, startedAfter: bool)
    requires started <==> content != []
    ensures contentAfter == content + LineDelta(line, extract)
    ensures startedAfter <==> contentAfter != []
  {
    contentAfter, startedAfter := content, started;
    if StartsWith(line, DataPrefix) && line != DoneLine {
      match extract(line[|DataPrefix|..]) {
        case Some(delta) =>
          if delta != [] {
            contentAfter := contentAfter + delta;
            if !startedAfter {
              startedAfter := true;
            }
          }
        case None =>
      }
    }
    AppendEmpty(content);
  }

  /** One successful read: split the buffer, then run the line loop. */
  method FeedChunk(buffer: string, chunk: string, extract: string -> Option<string>, content: string, started: bool)
    returns (bufferAfter: string, contentAfter: string, startedAfter: bool)
    requires started <==> content != []
    ensures bufferAfter == SplitBuffer(buffer, chunk).1
    ensures contentAfter == content + Deltas(SplitBuffer(buffer, chunk).0, extract)
    ensures startedAfter <==> contentAfter != []
  {
    var lines;
    lines, bufferAfter := SplitBuffer(buffer, chunk).0, SplitBuffer(buffer, chunk).1;
    contentAfter, startedAfter := ProcessLines(lines, extract, content, started);
  }

  /** The `while (true)` read loop with its final clean. `started` is the
      one-shot flag that clears the status on the first delta. */
  method ConsumeStream(steps: seq<ReadStep>, extract: string -> Option<string>)
    returns (r: Result<string, string>, started: bool)
    ensures r == StreamOutcome(steps, extract)
    ensures r.Ok? ==> (started <==> StreamedContent(Texts(steps), extract) != [])
  {
    var fullContent := "";
    var buffer := "";
    started := false;
    var i := 0;
    while i < |steps|
      invariant 0 <= i <= |steps| && i <= ReadsBeforeFailure(steps)
      invariant buffer == Pending(Concat(Texts(steps[..i])))
      invariant fullContent == StreamedContent(Texts(steps[..i]), extract)
      invariant started <==> fullContent != []
    {
      match steps[i] {
        case ReadFailure(message) =>
          FailedOutcome(steps, i, extract);
          return Err("Stream error: " + message), started;
        case Chunk(t) =>
          buffer, fullContent, started := ReadChunk(steps, i, extract, buffer, fullContent, started);
      }
      i := i + 1;
    }
    TakeAll(steps);
    r := Ok(Clean(fullContent));
  }

  // ---------------------------------------------------------------------
  // the two chunk shapes
  // ---------------------------------------------------------------------

  /** Gemini's `candidates[0].content.parts[0].text`. */
  datatype GeminiPart = GeminiPart(text: Option<string>)
  datatype GeminiContent = GeminiContent(parts: Option<seq<GeminiPart>>)
  datatype GeminiCandidate = GeminiCandidate(content: Option<GeminiContent>)
  datatype GeminiChunk = GeminiChunk(candidates: Option<seq<GeminiCandidate>>)

  /** OpenRouter's `choices[0].delta.content`. */
  datatype ChoiceDelta = ChoiceDelta(content: Option<string>)
  datatype StreamChoice = StreamChoice(delta: Option<ChoiceDelta>)
  datatype ChoicesChunk = ChoicesChunk(choices: Option<seq<StreamChoice>>)

  /** The guard `candidate && candidate.content && candidate.content.parts &&
      candidate.content.parts[0]` and the text under it. */
  function GeminiDelta(c: GeminiChunk): (d: Option<string>)
    ensures d.Some? <==> c.candidates.Some? && |c.candidates.value| > 0 &&
                         c.candidates.value[0].content.Some? &&
                         c.candidates.value[0].content.value.parts.Some? &&
                         |c.candidates.value[0].content.value.parts.value| > 0 &&
                         c.candidates.value[0].content.value.parts.value[0].text.Some?
  {
    if c.candidates.None? || |c.candidates.value| == 0 then None
    else
      var candidate := c.candidates.value[0];
      if candidate.content.None? || candidate.content.value.parts.None? ||
         |candidate.content.value.parts.value| == 0
      then None
      else candidate.content.value.parts.value[0].text
  }

  /** `parsed.choices?.[0]?.delta?.content`. */
  function ChoicesDelta(c: ChoicesChunk): (d: Option<string>)
    ensures d.Some? <==> c.choices.Some? && |c.choices.value| > 0 &&
                         c.choices.value[0].delta.Some? &&
                         c.choices.value[0].delta.value.content.Some?
  {
    if c.choices.None? || |c.choices.value| == 0 || c.choices.value[0].delta.None? then None
    else c.choices.value[0].delta.value.content
  }

  /** `parse` stands for `JSON.parse` of the payload into the Gemini shape
      (None when it throws). */
  function GeminiExtract(parse: string -> Option<GeminiChunk>): string -> Option<string>
  {
    payload => match parse(payload) case None => None case Some(c) => GeminiDelta(c)
  }

  function ChoicesExtract(parse: string -> Option<ChoicesChunk>): string -> Option<string>
  {
    payload => match parse(payload) case None => None case Some(c) => ChoicesDelta(c)
  }

  // ---------------------------------------------------------------------
  // the two streaming calls, from the response on
  // ---------------------------------------------------------------------

  /** What `fetch` answered: the status and the reads of its body. */
  datatype StreamResponse = StreamResponse(ok: bool, status: nat, statusText: string, body: seq<ReadStep>)

  /** Firefox `callGemini` after the request. */
  method CallGeminiStream(response: StreamResponse, parse: string -> Option<GeminiChunk>)
    returns (r: Result<string, string>)
    ensures !response.ok ==> r == Err("API error: " + NatToDecimal(response.status) + " - " + response.statusText)
    ensures response.ok ==> r == StreamOutcome(response.body, GeminiExtract(parse))
  {
    if !response.ok {
      return Err("API error: " + NatToDecimal(response.status) + " - " + response.statusText);
    }
    var started;
    r, started := ConsumeStream(response.body, GeminiExtract(parse));
  }

  /** Firefox `callOpenRouter`: the key and model are checked before any
      request is made. */
  method CallOpenRouterStream(apiKey: string, model: string, response: StreamResponse,
                              parse: string -> Option<ChoicesChunk>)
    returns (r: Result<string, string>)
    ensures apiKey == [] || model == [] ==> r == Err("Missing OpenRouter API key or model.")
    ensures apiKey != [] && model != [] && !response.ok ==>
              r == Err("OpenRouter API error: " + NatToDecimal(response.status) + " - " + response.statusText)
    ensures apiKey != [] && model != [] && response.ok ==>
              r == StreamOutcome(response.body, ChoicesExtract(parse))
  {
    if apiKey == [] || model == [] {
      return Err("Missing OpenRouter API key or model.");
    }
    if !response.ok {
      return Err("OpenRouter API error: " + NatToDecimal(response.status) + " - " + response.statusText);
    }
    var started;
    r, started := ConsumeStream(response.body, ChoicesExtract(parse));
  }
}
