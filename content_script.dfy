/** The content script's `getText` handler: hand back the user's selection
    if there is one, otherwise walk the main content element of the page
    depth-first and collect its readable text.

    The page is a map from node ids to elements. CSS selector matching is not
    modelled: each element records whether it matches the deny-list selector
    group (`matchesSkip`) and the main-content selector group
    (`matchesMain`). The key-tag test is on the upper-case tag name, which is
    what `matches('P, H1, ...')` decides for HTML elements. */
module ContentScript {
  import opened Wrappers
  import opened JsString

  type NodeId = nat

  /** A child node: text, an element (by id), or anything else (a comment,
      say), which the walker ignores. */
  datatype ChildNode = TextNode(data: string) | ElementNode(id: NodeId) | OtherNode

  datatype Element = Element(
    tagName: string,
    matchesSkip: bool,
    matchesMain: bool,
    parent: Option<NodeId>,
    childNodes: seq<ChildNode>)

  /** `treeOrder` lists the elements in document order. */
  datatype Document = Document(
    elements: map<NodeId, Element>,
    treeOrder: seq<NodeId>,
    body: Option<NodeId>)

  datatype ExtractionResult = ExtractionResult(text: string, isSelection: bool)

  const MaxDepth: nat := 20
  const MinFragmentLength: nat := 3
  const KeyTags: set<string> :=
    {"P", "H1", "H2", "H3", "H4", "H5", "H6", "LI", "TD", "TH", "FIGCAPTION", "CAPTION"}

  predicate IsKeyTag(el: Element)
  {
    el.tagName in KeyTags
  }

  /** `closest(skipSelectors) != null`, following parent links; the fuel
      bounds the number of links followed. */
  function Closest(doc: Document, e: Option<NodeId>, fuel: nat): bool
    decreases fuel
  {
    if fuel == 0 || e.None? || e.value !in doc.elements then false
    else doc.elements[e.value].matchesSkip || Closest(doc, doc.elements[e.value].parent, fuel - 1)
  }

  /** The `k`-th ancestor of `e` (the element itself for `k == 0`). */
  function AncestorAt(doc: Document, e: Option<NodeId>, k: nat): Option<NodeId>
    decreases k
  {
    if k == 0 || e.None? || e.value !in doc.elements then (if k == 0 then e else None)
    else AncestorAt(doc, doc.elements[e.value].parent, k - 1)
  }

  predicate DeniedAncestor(doc: Document, e: Option<NodeId>, k: nat)
  {
    var a := AncestorAt(doc, e, k);
    a.Some? && a.value in doc.elements && doc.elements[a.value].matchesSkip
  }

  /** A deny-listed ancestor within reach makes `closest` succeed. */
  lemma {:induction false} DeniedAncestorMeansClosest(doc: Document, e: Option<NodeId>, fuel: nat, k: nat)
    requires k < fuel && DeniedAncestor(doc, e, k)
    ensures Closest(doc, e, fuel)
    decreases k
  {
    if k > 0 {
      assert e.Some? && e.value in doc.elements;
      DeniedAncestorMeansClosest(doc, doc.elements[e.value].parent, fuel - 1, k - 1);
    }
  }

  /** And `closest` succeeds only because of such an ancestor: the lemma
      returns how many parent links up it is. */
  lemma {:induction false} ClosestFindsDeniedAncestor(doc: Document, e: Option<NodeId>, fuel: nat) returns (k: nat)
    requires Closest(doc, e, fuel)
    ensures k < fuel && DeniedAncestor(doc, e, k)
    decreases fuel
  {
    if doc.elements[e.value].matchesSkip {
      k := 0;
    } else {
      var p := doc.elements[e.value].parent;
      var j := ClosestFindsDeniedAncestor(doc, p, fuel - 1);
      k := j + 1;
      assert AncestorAt(doc, e, k) == AncestorAt(doc, p, j);
    }
  }

  /** The deny-list test of `content.js`: `matches(...) || closest(...)`. In a
      document with acyclic parent links every ancestor lies within
      `|elements|` links. */
  predicate Skipped(doc: Document, id: NodeId)
    requires id in doc.elements
  {
    doc.elements[id].matchesSkip || Closest(doc, Some(id), |doc.elements|)
  }

  /** What a text child adds: its trimmed text and a space when the trimmed
      text is longer than three UTF-16 code units, otherwise nothing. */
  function TextContribution(data: string): (r: string)
    ensures r != [] <==> Utf16Length(Trim(data)) > MinFragmentLength
    ensures r != [] ==> r == Trim(data) + " "
  {
    var t := Trim(data);
    if Utf16Length(t) > MinFragmentLength then t + " " else ""
  }

  /** One element that passed the visited check, and the depth it was reached at. */
  datatype Visit = Visit(id: NodeId, depth: nat)

  /** The outcome of a walk: the collected text, the visited set afterwards,
      and (for the proofs) the elements processed, in order. */
  datatype Walk = Walk(text: string, visited: set<NodeId>, processed: seq<Visit>)

  /** `extractTextFromElement(element, depth, visited)` as a function. */
  function WalkElement(doc: Document, e: Option<NodeId>, depth: nat, visited: set<NodeId>): Walk
    decreases MaxDepth + 1 - depth, 1
  {
    if depth > MaxDepth || e.None? || e.value !in doc.elements || e.value in visited then
      Walk("", visited, [])
    else
      var id := e.value;
      var v := visited + {id};
      if Skipped(doc, id) then Walk("", v, [Visit(id, depth)])
      else
        var el := doc.elements[id];
        var kids := WalkChildren(doc, el.childNodes, depth, v);
        var again := if IsKeyTag(el) then WalkElement(doc, e, depth + 1, kids.visited)
                     else Walk("", kids.visited, []);
        Walk(Trim(kids.text + again.text), again.visited, [Visit(id, depth)] + kids.processed + again.processed)
  }

  /** The `for` loop over the child nodes of an element at `depth`, as a fold
      over the first `|kids|` children. */
  function WalkChildren(doc: Document, kids: seq<ChildNode>, depth: nat, visited: set<NodeId>): Walk
    requires depth <= MaxDepth
    decreases MaxDepth + 1 - depth, 0, |kids|
  {
    if kids == [] then Walk("", visited, [])
    else ChildStep(doc, WalkChildren(doc, kids[..|kids| - 1], depth, visited), kids[|kids| - 1], depth)
  }

  /** One iteration of that loop: a text child adds its contribution, an
      element child is walked one level deeper. */
  function ChildStep(doc: Document, before: Walk, child: ChildNode, depth: nat): Walk
    requires depth <= MaxDepth
    decreases MaxDepth + 1 - depth, 0, 0
  {
    match child
    case TextNode(data) => Walk(before.text + TextContribution(data), before.visited, before.processed)
    case ElementNode(id) =>
      var w := WalkElement(doc, Some(id), depth + 1, before.visited);
      Walk(before.text + w.text, w.visited, before.processed + w.processed)
    case OtherNode => before
  }

  function Ids(log: seq<Visit>): set<NodeId>
  {
    set i | 0 <= i < |log| :: log[i].id
  }

  /** What a walk from `visited` at depths `lo..MaxDepth` may do: process
      elements not yet visited, each at most once, at a depth within the cap,
      and add exactly those to the visited set. */
  predicate WalkedOnce(w: Walk, visited: set<NodeId>, lo: nat)
  {
    && w.visited == visited + Ids(w.processed)
    && (forall i :: 0 <= i < |w.processed| ==> w.processed[i].id !in visited)
    && (forall i, j :: 0 <= i < j < |w.processed| ==> w.processed[i].id != w.processed[j].id)
    && (forall i :: 0 <= i < |w.processed| ==> lo <= w.processed[i].depth <= MaxDepth)
  }

  lemma IdsAppend(a: seq<Visit>, b: seq<Visit>)
    ensures Ids(a + b) == Ids(a) + Ids(b)
  {
    var log := a + b;
    forall x | x in Ids(log) ensures x in Ids(a) + Ids(b) {
      var i :| 0 <= i < |log| && log[i].id == x;
      if i >= |a| { assert b[i - |a|].id == x; }
    }
    forall x | x in Ids(a) ensures x in Ids(log) {
      var i :| 0 <= i < |a| && a[i].id == x;
      assert log[i].id == x;
    }
    forall x | x in Ids(b) ensures x in Ids(log) {
      var i :| 0 <= i < |b| && b[i].id == x;
      assert log[|a| + i].id == x;
    }
  }

  lemma WalkedOnceAppend(a: Walk, b: Walk, visited: set<NodeId>, lo: nat)
    requires WalkedOnce(a, visited, lo) && WalkedOnce(b, a.visited, lo)
    ensures WalkedOnce(Walk(b.text, b.visited, a.processed + b.processed), visited, lo)
  {
    var log := a.processed + b.processed;
    IdsAppend(a.processed, b.processed);
    forall i, j | 0 <= i < j < |log| ensures log[i].id != log[j].id {
      if j >= |a.processed| && i < |a.processed| {
        assert log[i].id in Ids(a.processed);
      }
    }
  }

  lemma SingleVisitIds(id: NodeId, depth: nat)
    ensures Ids([Visit(id, depth)]) == {id}
  {
    assert [Visit(id, depth)][0].id == id;
  }

  /** Every element is processed at most once per extraction, never one that
      was visited before, and never deeper than the depth cap. */
  lemma {:induction false} WalkElementOnce(doc: Document, e: Option<NodeId>, depth: nat, visited: set<NodeId>)
    ensures WalkedOnce(WalkElement(doc, e, depth, visited), visited, depth)
    decreases MaxDepth + 1 - depth, 1
  {
    if depth > MaxDepth || e.None? || e.value !in doc.elements || e.value in visited {
    } else {
      var id := e.value;
      var v := visited + {id};
      if !Skipped(doc, id) {
        var el := doc.elements[id];
        var kids := WalkChildren(doc, el.childNodes, depth, v);
        WalkChildrenOnce(doc, el.childNodes, depth, v);
        var again := if IsKeyTag(el) then WalkElement(doc, e, depth + 1, kids.visited)
                     else Walk("", kids.visited, []);
        assert again == Walk("", kids.visited, []);
        var head := Walk("", v, [Visit(id, depth)]);
        SingleVisitIds(id, depth);
        WalkedOnceAppend(head, kids, visited, depth);
        assert [Visit(id, depth)] + kids.processed + again.processed == [Visit(id, depth)] + kids.processed;
      } else {
        SingleVisitIds(id, depth);
      }
    }
  }

  lemma {:induction false} WalkChildrenOnce(doc: Document, kids: seq<ChildNode>, depth: nat, visited: set<NodeId>)
    requires depth <= MaxDepth
    ensures WalkedOnce(WalkChildren(doc, kids, depth, visited), visited, depth + 1)
    decreases MaxDepth + 1 - depth, 0, |kids|
  {
    if kids != [] {
      var before := WalkChildren(doc, kids[..|kids| - 1], depth, visited);
      WalkChildrenOnce(doc, kids[..|kids| - 1], depth, visited);
      assert WalkChildren(doc, kids, depth, visited) == ChildStep(doc, before, kids[|kids| - 1], depth);
      match kids[|kids| - 1]
      case TextNode(data) =>
      case ElementNode(child) =>
        WalkElementOnce(doc, Some(child), depth + 1, before.visited);
        WalkedOnceAppend(before, WalkElement(doc, Some(child), depth + 1, before.visited), visited, depth + 1);
      case OtherNode =>
    }
  }

  /** The key-tag second recursion never adds text: by the time it runs the
      element is already in `visited`, so the element's text is exactly the
      trimmed text of its children. */
  lemma KeyTagPassAddsNothing(doc: Document, id: NodeId, depth: nat, visited: set<NodeId>)
    requires id in doc.elements && id !in visited && depth <= MaxDepth && !Skipped(doc, id)
    ensures var kids := WalkChildren(doc, doc.elements[id].childNodes, depth, visited + {id});
            var w := WalkElement(doc, Some(id), depth, visited);
            w.text == Trim(kids.text) && w.visited == kids.visited
  {
    var kids := WalkChildren(doc, doc.elements[id].childNodes, depth, visited + {id});
    WalkChildrenOnce(doc, doc.elements[id].childNodes, depth, visited + {id});
    assert id in kids.visited;
    var again := WalkElement(doc, Some(id), depth + 1, kids.visited);
    assert again == Walk("", kids.visited, []);
    assert kids.text + again.text == kids.text;
  }

  /** An element that matches the deny-list, or has an ancestor that does,
      contributes nothing. */
  lemma SkippedContributesNothing(doc: Document, id: NodeId, k: nat, depth: nat, visited: set<NodeId>)
    requires id in doc.elements
    requires k < |doc.elements|
    requires DeniedAncestor(doc, Some(id), k)
    ensures WalkElement(doc, Some(id), depth, visited).text == ""
  {
    DeniedAncestorMeansClosest(doc, Some(id), |doc.elements|, k);
  }

  /** `extractTextFromElement`: the visited set is threaded through the
      recursion (the source shares one mutable set). */
  method ExtractTextFromElement(doc: Document, element: Option<NodeId>, depth: nat, visited: set<NodeId>)
    returns (text: string, visitedAfter: set<NodeId>)
    ensures text == WalkElement(doc, element, depth, visited).text
    ensures visitedAfter == WalkElement(doc, element, depth, visited).visited
    ensures NoEdgeWhitespace(text)
    decreases MaxDepth + 1 - depth, 3
  {
    if depth > MaxDepth || element.None? || element.value !in doc.elements || element.value in visited {
      return "", visited;
    }
    text, visitedAfter := ExtractFromElement(doc, element.value, depth, visited);
  }

  /** The body of `extractTextFromElement` past its guard: the element is
      marked visited, then skipped or walked. */
  method ExtractFromElement(doc: Document, id: NodeId, depth: nat, visited: set<NodeId>)
    returns (text: string, visitedAfter: set<NodeId>)
    requires id in doc.elements && id !in visited && depth <= MaxDepth
    ensures text == WalkElement(doc, Some(id), depth, visited).text
    ensures visitedAfter == WalkElement(doc, Some(id), depth, visited).visited
    ensures NoEdgeWhitespace(text)
    decreases MaxDepth + 1 - depth, 2
  {
    visitedAfter := visited + {id};
    if Skipped(doc, id) {
      return "", visitedAfter;
    }
    var el := doc.elements[id];
    text, visitedAfter := ExtractFromChildren(doc, el.childNodes, depth, visitedAfter);
    ChildrenKeepVisited(doc, el.childNodes, depth, visited + {id});
    if IsKeyTag(el) {
      Revisit(doc, Some(id), depth + 1, visitedAfter);
      var t, v := ExtractTextFromElement(doc, Some(id), depth + 1, visitedAfter);
      assert t == [];
      text, visitedAfter := text + t, v;
    }
    text := Trim(text);
    KeyTagPassAddsNothing(doc, id, depth, visited);
  }

  /** The children's walk only ever adds to the visited set. */
  lemma ChildrenKeepVisited(doc: Document, kids: seq<ChildNode>, depth: nat, visited: set<NodeId>)
    requires depth <= MaxDepth
    ensures visited <= WalkChildren(doc, kids, depth, visited).visited
  {
    WalkChildrenOnce(doc, kids, depth, visited);
  }

  /** Walking an element already visited yields nothing and marks nothing. */
  lemma Revisit(doc: Document, e: Option<NodeId>, depth: nat, visited: set<NodeId>)
    requires e.Some? && e.value in visited
    ensures WalkElement(doc, e, depth, visited) == Walk("", visited, [])
  {
  }

  /** The `for (let child of element.childNodes)` loop of an element at `depth`. */
  method ExtractFromChildren(doc: Document, kids: seq<ChildNode>, depth: nat, visited: set<NodeId>)
    returns (text: string, visitedAfter: set<NodeId>)
    requires depth <= MaxDepth
    ensures text == WalkChildren(doc, kids, depth, visited).text
    ensures visitedAfter == WalkChildren(doc, kids, depth, visited).visited
    decreases MaxDepth + 1 - depth, 1
  {
    text, visitedAfter := "", visited;
    var i := 0;
    while i < |kids|
      invariant 0 <= i <= |kids|
      invariant text == WalkChildren(doc, kids[..i], depth, visited).text
      invariant visitedAfter == WalkChildren(doc, kids[..i], depth, visited).visited
    {
      ghost var before := WalkChildren(doc, kids[..i], depth, visited);
      WalkChildrenSnoc(doc, kids, i, depth, visited);
      text, visitedAfter := ExtractFromChild(doc, kids[i], depth, text, visitedAfter, before);
      i := i + 1;
    }
    assert kids[..i] == kids;
  }

  /** One iteration of that loop, on the text and visited set collected so far. */
  method ExtractFromChild(doc: Document, child: ChildNode, depth: nat, text: string, visited: set<NodeId>,
                          ghost before: Walk)
    returns (textAfter: string, visitedAfter: set<NodeId>)
    requires depth <= MaxDepth
    requires text == before.text && visited == before.visited
    ensures textAfter == ChildStep(doc, before, child, depth).text
    ensures visitedAfter == ChildStep(doc, before, child, depth).visited
    decreases MaxDepth + 1 - depth, 0
  {
    match child {
      case TextNode(data) =>
        textAfter, visitedAfter := text, visited;
        var childText := Trim(data);
        if Utf16Length(childText) > MinFragmentLength {
          textAfter := textAfter + childText + " ";
        }
      case ElementNode(id) =>
        var t, v := ExtractTextFromElement(doc, Some(id), depth + 1, visited);
        textAfter, visitedAfter := text + t, v;
      case OtherNode =>
        textAfter, visitedAfter := text, visited;
    }
  }

  /** The fold over the first `i + 1` children is one more step over the first `i`. */
  lemma WalkChildrenSnoc(doc: Document, kids: seq<ChildNode>, i: nat, depth: nat, visited: set<NodeId>)
    requires depth <= MaxDepth && i < |kids|
    ensures WalkChildren(doc, kids[..i + 1], depth, visited)
         == ChildStep(doc, WalkChildren(doc, kids[..i], depth, visited), kids[i], depth)
  {
    assert kids[..i + 1][..i] == kids[..i];
  }

  predicate MainAt(doc: Document, k: nat)
    requires k < |doc.treeOrder|
  {
    doc.treeOrder[k] in doc.elements && doc.elements[doc.treeOrder[k]].matchesMain
  }

  /** The position of the first element in document order, from `from` on,
      that matches the main-content selector group. */
  function FirstMain(doc: Document, from: nat): (r: Option<nat>)
    requires from <= |doc.treeOrder|
    ensures r.Some? ==> from <= r.value < |doc.treeOrder| && MainAt(doc, r.value) &&
                        forall j :: from <= j < r.value ==> !MainAt(doc, j)
    ensures r.None? <==> forall j :: from <= j < |doc.treeOrder| ==> !MainAt(doc, j)
    decreases |doc.treeOrder| - from
  {
    if from == |doc.treeOrder| then None
    else if MainAt(doc, from) then Some(from)
    else FirstMain(doc, from + 1)
  }

  /** `document.querySelector(candidates) || document.body`: the first
      matching element in document order, whichever candidate it matches;
      the body when none does. */
  function SelectRoot(doc: Document): (root: Option<NodeId>)
    ensures (exists k :: 0 <= k < |doc.treeOrder| && MainAt(doc, k)) ==>
              root.Some? && root.value in doc.elements && doc.elements[root.value].matchesMain
    ensures (forall k :: 0 <= k < |doc.treeOrder| ==> !MainAt(doc, k)) ==> root == doc.body
    ensures forall k :: 0 <= k < |doc.treeOrder| && MainAt(doc, k) && (forall j :: 0 <= j < k ==> !MainAt(doc, j)) ==>
              root == Some(doc.treeOrder[k])
  {
    match FirstMain(doc, 0)
    case Some(k) => Some(doc.treeOrder[k])
    case None => doc.body
  }

  /** The handler for `{action: 'getText'}`. `selection` is the selection's
      text; `None` means no response is ever sent. */
  method GetText(selection: string, doc: Document) returns (response: Option<ExtractionResult>)
    ensures Trim(selection) != "" ==> response == Some(ExtractionResult(Trim(selection), true))
    ensures Trim(selection) == "" && SelectRoot(doc).Some? ==>
              response == Some(ExtractionResult(CollapseWhitespace(WalkElement(doc, SelectRoot(doc), 0, {}).text), false))
    ensures Trim(selection) == "" && SelectRoot(doc).None? ==> response == None
    ensures response.Some? && !response.value.isSelection ==>
              NoWhitespaceRun(response.value.text) && NoEdgeWhitespace(response.value.text)
  {
    var selectedText := Trim(selection);
    if selectedText != "" {
      return Some(ExtractionResult(selectedText, true));
    }
    var mainElement := SelectRoot(doc);
    if mainElement.None? {
      // Reading `className` of the null root throws; the catch block then
      // reads `document.body.innerText`, and the body is null as well, so it
      // throws too and no response is sent.
      return None;
    }
    var fullText, _ := ExtractTextFromElement(doc, mainElement, 0, {});
    fullText := CollapseWhitespace(fullText);
    response := Some(ExtractionResult(fullText, false));
  }
}
