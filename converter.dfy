/** The deferred pass that swaps token grids for token tables. The element with id
    `semantic` is a container whose children are a sequence of sibling nodes; every `h3`
    among them whose trimmed text is a section title has the first later sibling carrying
    class `token-grid` replaced by that section's table. */
module Converter {
  import opened Text
  import opened Tokens
  import opened Render
  import opened CatalogueText

  const TokenGridClass := "token-grid"

  /** A child element of the container: an `h3` with its text content and classes, any
      other element with its classes, or a token table put in place by this pass (the
      `<table class="token-table">` element parsed from `markup`). */
  datatype Node =
    | Heading(text: string, classes: set<string>)
    | Element(classes: set<string>)
    | TokenTable(markup: string)

  /** `node.classList.contains(c)`. */
  predicate HasClass(n: Node, c: string) {
    match n
    case Heading(_, cs) => c in cs
    case Element(cs) => c in cs
    case TokenTable(_) => c == "token-table"
  }

  /** `sections.find(s => s.title === title)`, as the index of the first section with
      that title. */
  function FindByTitle(sections: seq<Section>, title: string): (r: Option<nat>)
    ensures r.Some? ==> r.value < |sections| && sections[r.value].title == title
    ensures r.Some? ==> forall i :: 0 <= i < r.value ==> sections[i].title != title
    ensures r.None? ==> forall i :: 0 <= i < |sections| ==> sections[i].title != title
  {
    if sections == [] then None
    else if sections[0].title == title then Some(0)
    else match FindByTitle(sections[1..], title)
      case None => None
      case Some(i) => Some(i + 1)
  }

  /** When no two sections share a title, looking up a section's own title finds that
      section. */
  lemma FindByTitleDistinct(sections: seq<Section>, i: nat)
    requires i < |sections|
    requires forall a, b :: 0 <= a < b < |sections| ==> sections[a].title != sections[b].title
    ensures FindByTitle(sections, sections[i].title) == Some(i)
  {
    var r := FindByTitle(sections, sections[i].title);
    assert r.Some?;
    assert !(r.value < i) && !(i < r.value);
  }

  /** Every catalogue section is found by its own title. */
  lemma FindsEverySection(i: nat)
    requires i < |SemanticSections|
    ensures FindByTitle(SemanticSections, SemanticSections[i].title) == Some(i)
  {
    TitlesDistinct();
    FindByTitleDistinct(SemanticSections, i);
  }

  /** The first index at or after `from` whose node carries class `token-grid`. */
  function FirstGridFrom(nodes: seq<Node>, from: nat): (r: Option<nat>)
    decreases |nodes| - from
    ensures r.Some? ==> from <= r.value < |nodes| && HasClass(nodes[r.value], TokenGridClass)
    ensures r.Some? ==> forall m :: from <= m < r.value ==> !HasClass(nodes[m], TokenGridClass)
    ensures r.None? ==> forall m :: from <= m < |nodes| ==> !HasClass(nodes[m], TokenGridClass)
  {
    if from >= |nodes| then None
    else if HasClass(nodes[from], TokenGridClass) then Some(from)
    else FirstGridFrom(nodes, from + 1)
  }

  /** The walk along `nextElementSibling` from the heading at `p` to the first sibling
      carrying class `token-grid`, if there is one. */
  method NextGrid(siblings: seq<Node>, p: nat) returns (next: Option<nat>)
    ensures next.Some? ==> p < next.value < |siblings| && HasClass(siblings[next.value], TokenGridClass)
    ensures next.Some? ==> forall m :: p < m < next.value ==> !HasClass(siblings[m], TokenGridClass)
    ensures next.None? ==> forall m :: p < m < |siblings| ==> !HasClass(siblings[m], TokenGridClass)
    ensures next == FirstGridFrom(siblings, p + 1)
  {
    var k := p + 1;
    while k < |siblings| && !HasClass(siblings[k], TokenGridClass)
      invariant p + 1 <= k
      invariant forall m :: p < m < k && m < |siblings| ==> !HasClass(siblings[m], TokenGridClass)
      decreases |siblings| - k
    {
      k := k + 1;
    }
    if k < |siblings| && HasClass(siblings[k], TokenGridClass) {
      next := Some(k);
    } else {
      next := None;
    }
  }

  /** The positions of the `h3` children, in document order (`querySelectorAll('h3')`,
      taken once before anything is replaced). */
  function HeadingsFrom(nodes: seq<Node>, from: nat): (r: seq<nat>)
    decreases |nodes| - from
    ensures forall k :: 0 <= k < |r| ==> from <= r[k] < |nodes| && nodes[r[k]].Heading?
    ensures forall k, l :: 0 <= k < l < |r| ==> r[k] < r[l]
    ensures forall p :: from <= p < |nodes| && nodes[p].Heading? ==> p in r
  {
    if from >= |nodes| then []
    else if nodes[from].Heading? then [from] + HeadingsFrom(nodes, from + 1)
    else HeadingsFrom(nodes, from + 1)
  }

  /** The markup of the node that replaces a grid, built from the matched section and
      the heading's trimmed text. */
  type Renderer = (Section, string) -> string

  /** The renderer of the callback: `createTokenTable(section)` with its first
      `<h3>title</h3>` cut out, because the page's own heading stays in place. */
  function InsertedMarkup(s: Section, title: string): string {
    RemoveFirst(CreateTokenTable(s), TitleMarkup(title))
  }

  /** The `forEach` body for the heading found at position `p`. A heading already
      replaced by an earlier step is detached and has no next sibling, so it changes
      nothing. */
  function ProcessHeading(render: Renderer, sections: seq<Section>, nodes: seq<Node>, p: nat): seq<Node> {
    if p < |nodes| && nodes[p].Heading? then
      var title := Trim(nodes[p].text);
      match FindByTitle(sections, title)
      case None => nodes
      case Some(i) =>
        match FirstGridFrom(nodes, p + 1)
        case None => nodes
        case Some(j) => nodes[j := TokenTable(render(sections[i], title))]
    else nodes
  }

  /** The steps for the headings `ps`, taken in order. */
  function ProcessAll(render: Renderer, sections: seq<Section>, nodes: seq<Node>, ps: seq<nat>): seq<Node> {
    if ps == [] then nodes
    else ProcessHeading(render, sections, ProcessAll(render, sections, nodes, ps[..|ps| - 1]), ps[|ps| - 1])
  }

  /** The children of the container once the pass has run over them (the callback uses
      `InsertedMarkup` and `SemanticSections`). */
  function Converted(render: Renderer, sections: seq<Section>, nodes: seq<Node>): seq<Node> {
    ProcessAll(render, sections, nodes, HeadingsFrom(nodes, 0))
  }

  /** The container element found by `getElementById('semantic')`, owning the sibling
      list that the pass rewrites. */
  class Container {
    var children: seq<Node>

    constructor (children: seq<Node>)
      ensures this.children == children
    {
      this.children := children;
    }

    /** `parentNode.replaceChild(newChild, oldChild)`, with the old child given by position. */
    method ReplaceChild(newChild: Node, index: nat)
      requires index < |children|
      modifies this
      ensures children == old(children)[index := newChild]
    {
      children := children[index := newChild];
    }
  }

  /** The `forEach` body for the `h3` at position `p` of the container's children,
      looking titles up in `sections`. */
  method ProcessH3(semantic: Container, sections: seq<Section>, p: nat)
    modifies semantic
    ensures semantic.children == ProcessHeading(InsertedMarkup, sections, old(semantic.children), p)
  {
    if p < |semantic.children| && semantic.children[p].Heading? {
      var title := Trim(semantic.children[p].text);
      var matchingSection := FindByTitle(sections, title);
      if matchingSection.Some? {
        var nextElement := NextGrid(semantic.children, p);
        if nextElement.Some? {
          var table := RemoveFirst(CreateTokenTable(sections[matchingSection.value]), TitleMarkup(title));
          semantic.ReplaceChild(TokenTable(table), nextElement.value);
        }
      }
    }
  }

  /** The `forEach` over the headings listed once, up front, each processed in document
      order against the live sibling list. */
  method ProcessHeadings(semantic: Container, sections: seq<Section>)
    modifies semantic
    ensures semantic.children == Converted(InsertedMarkup, sections, old(semantic.children))
  {
    ghost var original := semantic.children;
    var h3Elements := HeadingsFrom(semantic.children, 0);
    var n := 0;
    while n < |h3Elements|
      invariant 0 <= n <= |h3Elements|
      invariant semantic.children == ProcessAll(InsertedMarkup, sections, original, h3Elements[..n])
    {
      var p := h3Elements[n];
      assert h3Elements[..n + 1][..n] == h3Elements[..n];
      ProcessH3(semantic, sections, p);
      n := n + 1;
    }
    assert h3Elements[..|h3Elements|] == h3Elements;
  }

  /** The deferred callback: with no container nothing happens; otherwise its headings
      are processed against the catalogue. */
  method ConvertSemantic(semantic: Container?)
    modifies semantic
    ensures semantic != null ==> semantic.children == Converted(InsertedMarkup, SemanticSections, old(semantic.children))
  {
    if semantic != null {
      ProcessHeadings(semantic, SemanticSections);
    }
  }

  // ---------------------------------------------------------------------------
  // What the pass does, for any renderer and catalogue.

  /** The index of the catalogue section a node's heading text names, if it is a heading
      and names one. */
  function MatchedSection(sections: seq<Section>, n: Node): Option<nat> {
    if n.Heading? then FindByTitle(sections, Trim(n.text)) else None
  }

  /** A heading naming a section, with a grid after it, gets exactly the first such grid
      replaced by that section's table; every other node stays where it is. */
  lemma ProcessHeadingReplacesFirstGrid(render: Renderer, sections: seq<Section>, nodes: seq<Node>, p: nat, j: nat)
    requires p < j < |nodes| && MatchedSection(sections, nodes[p]).Some?
    requires HasClass(nodes[j], TokenGridClass)
    requires forall m :: p < m < j ==> !HasClass(nodes[m], TokenGridClass)
    ensures var s := sections[MatchedSection(sections, nodes[p]).value];
      ProcessHeading(render, sections, nodes, p) == nodes[j := TokenTable(render(s, s.title))]
  {
    FirstGridIs(nodes, p + 1, j);
  }

  lemma FirstGridIs(nodes: seq<Node>, from: nat, j: nat)
    requires from <= j < |nodes| && HasClass(nodes[j], TokenGridClass)
    requires forall m :: from <= m < j ==> !HasClass(nodes[m], TokenGridClass)
    ensures FirstGridFrom(nodes, from) == Some(j)
  {
    var r := FirstGridFrom(nodes, from);
    assert r.Some?;
    assert !(r.value < j);
  }

  /** A heading that names no section, a node that is no heading, or a heading with no
      grid after it changes nothing. */
  lemma ProcessHeadingNoOp(render: Renderer, sections: seq<Section>, nodes: seq<Node>, p: nat)
    requires p >= |nodes| || MatchedSection(sections, nodes[p]).None?
      || forall m :: p < m < |nodes| ==> !HasClass(nodes[m], TokenGridClass)
    ensures ProcessHeading(render, sections, nodes, p) == nodes
  {
    if p < |nodes| && MatchedSection(sections, nodes[p]).Some? {
      assert FirstGridFrom(nodes, p + 1).None?;
    }
  }

  /** Node `j` of the original children, a grid, now holds the table rendered for a
      section named by some heading before it. */
  ghost predicate ReplacedGrid(render: Renderer, sections: seq<Section>, original: seq<Node>, j: nat, n: Node)
    requires j < |original|
  {
    HasClass(original[j], TokenGridClass)
    && (exists i ::
          0 <= i < j && MatchedSection(sections, original[i]).Some?
          && n == TokenTable(render(sections[MatchedSection(sections, original[i]).value], Trim(original[i].text))))
  }

  /** `current` is what the pass can have made of `original`: the same number of
      children, each either untouched or a grid replaced by a table. */
  ghost predicate Rewrites(render: Renderer, sections: seq<Section>, original: seq<Node>, current: seq<Node>) {
    |current| == |original|
    && forall j :: 0 <= j < |original| ==> current[j] == original[j] || ReplacedGrid(render, sections, original, j, current[j])
  }

  lemma ProcessHeadingRewrites(render: Renderer, sections: seq<Section>, original: seq<Node>, current: seq<Node>, p: nat)
    requires Rewrites(render, sections, original, current)
    ensures Rewrites(render, sections, original, ProcessHeading(render, sections, current, p))
  {
    if p < |current| && MatchedSection(sections, current[p]).Some? {
      var g := FirstGridFrom(current, p + 1);
      if g.Some? {
        var j := g.value;
        assert current[p] == original[p];
        assert current[j] == original[j];
        ProcessHeadingReplacesFirstGrid(render, sections, current, p, j);
        var next := ProcessHeading(render, sections, current, p);
        assert ReplacedGrid(render, sections, original, j, next[j]);
        forall k | 0 <= k < |original|
          ensures next[k] == original[k] || ReplacedGrid(render, sections, original, k, next[k])
        {
          if k != j {
            assert next[k] == current[k];
          }
        }
      } else {
        ProcessHeadingNoOp(render, sections, current, p);
      }
    } else {
      ProcessHeadingNoOp(render, sections, current, p);
    }
  }

  lemma {:induction false} ProcessAllRewrites(render: Renderer, sections: seq<Section>, original: seq<Node>, ps: seq<nat>)
    ensures Rewrites(render, sections, original, ProcessAll(render, sections, original, ps))
  {
    if ps != [] {
      var before := ProcessAll(render, sections, original, ps[..|ps| - 1]);
      ProcessAllRewrites(render, sections, original, ps[..|ps| - 1]);
      ProcessHeadingRewrites(render, sections, original, before, ps[|ps| - 1]);
    }
  }

  /** The pass keeps the number and order of the children; the only children it changes
      are grids, each replaced by the table rendered for the section whose title is the
      trimmed text of some earlier heading. Headings and every other non-grid child stay
      in place. */
  lemma ConvertedRewritesOnlyGrids(render: Renderer, sections: seq<Section>, nodes: seq<Node>)
    ensures |Converted(render, sections, nodes)| == |nodes|
    ensures forall j :: 0 <= j < |nodes| && Converted(render, sections, nodes)[j] != nodes[j] ==>
      HasClass(nodes[j], TokenGridClass) && ReplacedGrid(render, sections, nodes, j, Converted(render, sections, nodes)[j])
  {
    ProcessAllRewrites(render, sections, nodes, HeadingsFrom(nodes, 0));
  }

  /** Without a heading that names a section, the children are left exactly as they were. */
  lemma ConvertedWithoutMatchingHeading(render: Renderer, sections: seq<Section>, nodes: seq<Node>)
    requires forall i :: 0 <= i < |nodes| ==> MatchedSection(sections, nodes[i]).None?
    ensures Converted(render, sections, nodes) == nodes
  {
    ConvertedRewritesOnlyGrids(render, sections, nodes);
  }

  /** A grid with no heading naming a section anywhere before it is left alone. */
  lemma GridWithoutMatchingHeadingKept(render: Renderer, sections: seq<Section>, nodes: seq<Node>, j: nat)
    requires j < |nodes|
    requires forall i :: 0 <= i < j ==> MatchedSection(sections, nodes[i]).None?
    ensures |Converted(render, sections, nodes)| == |nodes| && Converted(render, sections, nodes)[j] == nodes[j]
  {
    ConvertedRewritesOnlyGrids(render, sections, nodes);
  }

  /** Without a grid, the children are left exactly as they were. */
  lemma ConvertedWithoutGrid(render: Renderer, sections: seq<Section>, nodes: seq<Node>)
    requires forall j :: 0 <= j < |nodes| ==> !HasClass(nodes[j], TokenGridClass)
    ensures Converted(render, sections, nodes) == nodes
  {
    ConvertedRewritesOnlyGrids(render, sections, nodes);
  }

  // ---------------------------------------------------------------------------
  // Which grids the whole pass does replace.

  /** A step keeps the number of children and leaves every child that is not a grid as
      it was. */
  lemma ProcessHeadingKeepsNonGrid(render: Renderer, sections: seq<Section>, nodes: seq<Node>, p: nat, k: nat)
    requires k < |nodes| && !HasClass(nodes[k], TokenGridClass)
    ensures |ProcessHeading(render, sections, nodes, p)| == |nodes|
    ensures ProcessHeading(render, sections, nodes, p)[k] == nodes[k]
  {
    if p < |nodes| && MatchedSection(sections, nodes[p]).Some? {
      var g := FirstGridFrom(nodes, p + 1);
      if g.Some? {
        assert g.value != k;
      }
    }
  }

  /** Once a child is no grid, no later step changes it. */
  lemma {:induction false} PrefixKeeps(render: Renderer, sections: seq<Section>, nodes: seq<Node>, ps: seq<nat>,
                                       m: nat, n: nat, k: nat)
    requires m <= n <= |ps| && k < |ProcessAll(render, sections, nodes, ps[..m])|
    requires !HasClass(ProcessAll(render, sections, nodes, ps[..m])[k], TokenGridClass)
    ensures |ProcessAll(render, sections, nodes, ps[..n])| == |ProcessAll(render, sections, nodes, ps[..m])|
    ensures ProcessAll(render, sections, nodes, ps[..n])[k] == ProcessAll(render, sections, nodes, ps[..m])[k]
    decreases n - m
  {
    if m < n {
      var cur := ProcessAll(render, sections, nodes, ps[..m]);
      assert ps[..m + 1][..m] == ps[..m];
      ProcessHeadingKeepsNonGrid(render, sections, cur, ps[m], k);
      PrefixKeeps(render, sections, nodes, ps, m + 1, n, k);
    }
  }

  /** Steps for headings that name no section change nothing. */
  lemma {:induction false} PrefixNoOps(render: Renderer, sections: seq<Section>, nodes: seq<Node>, ps: seq<nat>, n: nat)
    requires n <= |ps|
    requires forall k :: 0 <= k < n ==> ps[k] >= |nodes| || MatchedSection(sections, nodes[ps[k]]).None?
    ensures ProcessAll(render, sections, nodes, ps[..n]) == nodes
  {
    if n > 0 {
      assert ps[..n][..n - 1] == ps[..n - 1];
      PrefixNoOps(render, sections, nodes, ps, n - 1);
      ProcessHeadingNoOp(render, sections, nodes, ps[n - 1]);
    }
  }

  /** The first heading that names a section gets its first later grid replaced by that
      section's table, whatever the rest of the children are. */
  lemma FirstMatchGetsGrid(render: Renderer, sections: seq<Section>, nodes: seq<Node>, p: nat, j: nat)
    requires p < |nodes| && MatchedSection(sections, nodes[p]).Some?
    requires forall q :: 0 <= q < p ==> MatchedSection(sections, nodes[q]).None?
    requires FirstGridFrom(nodes, p + 1) == Some(j)
    ensures var s := sections[MatchedSection(sections, nodes[p]).value];
      |Converted(render, sections, nodes)| == |nodes|
      && Converted(render, sections, nodes)[j] == TokenTable(render(s, s.title))
  {
    var ps := HeadingsFrom(nodes, 0);
    assert p in ps;
    var idx :| 0 <= idx < |ps| && ps[idx] == p;
    PrefixNoOps(render, sections, nodes, ps, idx);
    MatchStepSticks(render, sections, nodes, ps, idx, j);
  }

  /** A matching heading whose step sees the children from its own position on as they
      were gets its first grid replaced, and no later step undoes that. */
  lemma MatchStepSticks(render: Renderer, sections: seq<Section>, nodes: seq<Node>, ps: seq<nat>, idx: nat, g: nat)
    requires idx < |ps| && ps[idx] < |nodes| && MatchedSection(sections, nodes[ps[idx]]).Some?
    requires FirstGridFrom(nodes, ps[idx] + 1) == Some(g)
    requires |ProcessAll(render, sections, nodes, ps[..idx])| == |nodes|
    requires forall k :: ps[idx] <= k < |nodes| ==> ProcessAll(render, sections, nodes, ps[..idx])[k] == nodes[k]
    ensures var s := sections[MatchedSection(sections, nodes[ps[idx]]).value];
      |ProcessAll(render, sections, nodes, ps)| == |nodes|
      && ProcessAll(render, sections, nodes, ps)[g] == TokenTable(render(s, s.title))
  {
    MatchStep(render, sections, nodes, ProcessAll(render, sections, nodes, ps[..idx]), ps[idx], g);
    assert ps[..idx + 1][..idx] == ps[..idx];
    PrefixKeeps(render, sections, nodes, ps, idx + 1, |ps|, g);
    assert ps[..|ps|] == ps;
  }

  /** One step at a matching heading whose children from its position on are untouched
      replaces its first later grid. */
  lemma MatchStep(render: Renderer, sections: seq<Section>, nodes: seq<Node>, cur: seq<Node>, q: nat, g: nat)
    requires |cur| == |nodes| && q < |nodes| && MatchedSection(sections, nodes[q]).Some?
    requires FirstGridFrom(nodes, q + 1) == Some(g)
    requires forall k :: q <= k < |nodes| ==> cur[k] == nodes[k]
    ensures var s := sections[MatchedSection(sections, nodes[q]).value];
      |ProcessHeading(render, sections, cur, q)| == |nodes|
      && ProcessHeading(render, sections, cur, q)[g] == TokenTable(render(s, s.title))
  {
    FirstGridIs(cur, q + 1, g);
    ProcessHeadingReplacesFirstGrid(render, sections, cur, q, g);
  }

  /** Between any two headings that name sections there is a grid: the page lays out a
      heading, then its grid, then the next heading. */
  ghost predicate GridBetweenMatches(sections: seq<Section>, nodes: seq<Node>) {
    forall q, r ::
      (0 <= q < r < |nodes| && MatchedSection(sections, nodes[q]).Some? && MatchedSection(sections, nodes[r]).Some?)
      ==> exists g :: q < g < r && HasClass(nodes[g], TokenGridClass)
  }

  /** After the first `n` headings, every changed child is a table lying before every
      heading still to come that names a section. */
  ghost predicate ChangesBefore(sections: seq<Section>, nodes: seq<Node>, cur: seq<Node>, ps: seq<nat>, n: nat) {
    |cur| == |nodes|
    && forall k :: 0 <= k < |nodes| && cur[k] != nodes[k] ==>
      cur[k].TokenTable?
      && forall m :: n <= m < |ps| && ps[m] < |nodes| && MatchedSection(sections, nodes[ps[m]]).Some? ==> k < ps[m]
  }

  /** One more heading keeps every change a table lying before the headings still to come. */
  lemma StepKeepsChangesBefore(render: Renderer, sections: seq<Section>, nodes: seq<Node>, cur: seq<Node>, n: nat)
    requires GridBetweenMatches(sections, nodes)
    requires n < |HeadingsFrom(nodes, 0)|
    requires ChangesBefore(sections, nodes, cur, HeadingsFrom(nodes, 0), n)
    ensures ChangesBefore(sections, nodes, ProcessHeading(render, sections, cur, HeadingsFrom(nodes, 0)[n]),
                          HeadingsFrom(nodes, 0), n + 1)
  {
    var ps := HeadingsFrom(nodes, 0);
    var h := ps[n];
    if MatchedSection(sections, nodes[h]).Some? {
      assert forall k :: h <= k < |nodes| ==> cur[k] == nodes[k];
      var g := FirstGridFrom(nodes, h + 1);
      if g.Some? {
        FirstGridIs(cur, h + 1, g.value);
        ProcessHeadingReplacesFirstGrid(render, sections, cur, h, g.value);
        forall m | n + 1 <= m < |ps| && ps[m] < |nodes| && MatchedSection(sections, nodes[ps[m]]).Some?
          ensures g.value < ps[m]
        {
          assert h < ps[m];
          var g' :| h < g' < ps[m] && HasClass(nodes[g'], TokenGridClass);
        }
      } else {
        ProcessHeadingNoOp(render, sections, cur, h);
      }
    } else {
      ProcessHeadingNoOp(render, sections, cur, h);
    }
  }

  /** However many headings have been processed, the changes lie before the rest. */
  lemma {:induction false} ChangesStayBefore(render: Renderer, sections: seq<Section>, nodes: seq<Node>, n: nat)
    requires GridBetweenMatches(sections, nodes)
    requires n <= |HeadingsFrom(nodes, 0)|
    ensures ChangesBefore(sections, nodes, ProcessAll(render, sections, nodes, HeadingsFrom(nodes, 0)[..n]),
                          HeadingsFrom(nodes, 0), n)
  {
    var ps := HeadingsFrom(nodes, 0);
    if n > 0 {
      ChangesStayBefore(render, sections, nodes, n - 1);
      assert ps[..n][..n - 1] == ps[..n - 1];
      StepKeepsChangesBefore(render, sections, nodes, ProcessAll(render, sections, nodes, ps[..n - 1]), n - 1);
    }
  }

  /** On a page where a grid lies between any two headings that name sections, every
      such heading gets its first later grid replaced by its section's table. */
  lemma EveryMatchGetsItsGrid(render: Renderer, sections: seq<Section>, nodes: seq<Node>, q: nat, g: nat)
    requires GridBetweenMatches(sections, nodes)
    requires q < |nodes| && MatchedSection(sections, nodes[q]).Some?
    requires FirstGridFrom(nodes, q + 1) == Some(g)
    ensures var s := sections[MatchedSection(sections, nodes[q]).value];
      |Converted(render, sections, nodes)| == |nodes|
      && Converted(render, sections, nodes)[g] == TokenTable(render(s, s.title))
  {
    var ps := HeadingsFrom(nodes, 0);
    assert q in ps;
    var idx :| 0 <= idx < |ps| && ps[idx] == q;
    ChangesStayBefore(render, sections, nodes, idx);
    MatchStepSticks(render, sections, nodes, ps, idx, g);
  }

  lemma OneHeadingFold(render: Renderer, sections: seq<Section>, nodes: seq<Node>)
    requires |nodes| == 2 && nodes[0].Heading? && !nodes[1].Heading?
    ensures Converted(render, sections, nodes) == ProcessHeading(render, sections, nodes, 0)
  {
    assert HeadingsFrom(nodes, 0) == [0] by {
      assert HeadingsFrom(nodes, 2) == [];
      assert HeadingsFrom(nodes, 1) == [];
    }
    ProcessAllOne(render, sections, nodes, 0);
  }

  lemma ProcessAllOne(render: Renderer, sections: seq<Section>, nodes: seq<Node>, p: nat)
    ensures ProcessAll(render, sections, nodes, [p]) == ProcessHeading(render, sections, nodes, p)
  {
    assert [p][..0] == [];
  }

  /** A heading naming section `i`, followed by a grid: the grid gives way to that
      section's table and the heading stays. */
  lemma HeadingThenGrid(render: Renderer, sections: seq<Section>, heading: Node, classes: set<string>, i: nat)
    requires MatchedSection(sections, heading) == Some(i) && TokenGridClass in classes
    ensures Converted(render, sections, [heading, Element(classes)])
      == [heading, TokenTable(render(sections[i], sections[i].title))]
  {
    var nodes := [heading, Element(classes)];
    OneHeadingFold(render, sections, nodes);
    ProcessHeadingReplacesFirstGrid(render, sections, nodes, 0, 1);
    assert nodes[1 := TokenTable(render(sections[i], sections[i].title))]
      == [heading, TokenTable(render(sections[i], sections[i].title))];
  }

  /** The sibling walk does not stop at the next heading: a heading naming section `i`,
      then a heading naming no section, then a grid, and the grid after the second
      heading gives way to the first heading's table. */
  lemma GridTakenPastNextHeading(render: Renderer, sections: seq<Section>, first: Node, second: Node,
                                 classes: set<string>, i: nat)
    requires MatchedSection(sections, first) == Some(i)
    requires second.Heading? && MatchedSection(sections, second).None? && !HasClass(second, TokenGridClass)
    requires TokenGridClass in classes
    ensures Converted(render, sections, [first, second, Element(classes)])
      == [first, second, TokenTable(render(sections[i], sections[i].title))]
  {
    var nodes := [first, second, Element(classes)];
    var table := TokenTable(render(sections[i], sections[i].title));
    assert HeadingsFrom(nodes, 0) == [0, 1] by {
      assert HeadingsFrom(nodes, 3) == [];
      assert HeadingsFrom(nodes, 2) == [];
      assert HeadingsFrom(nodes, 1) == [1];
    }
    assert [0, 1][..1] == [0];
    ProcessAllOne(render, sections, nodes, 0);
    ProcessHeadingReplacesFirstGrid(render, sections, nodes, 0, 2);
    var middle := nodes[2 := table];
    assert middle == [first, second, table];
    ProcessHeadingNoOp(render, sections, middle, 1);
  }

  // ---------------------------------------------------------------------------
  // The callback's own renderer and catalogue.

  /** The table element rendered for section `s`, without a heading. */
  function TableFor(s: Section): Node {
    TokenTable(TableMarkup(SectionTable(s)))
  }

  /** The node inserted for a matched heading is the section's table element alone: the
      heading the template writes in front of it has been cut out. */
  lemma InsertedIsTable(s: Section)
    ensures TokenTable(InsertedMarkup(s, s.title)) == TableFor(s)
  {
    StripTitle(s);
  }

  /** With the callback's renderer, the pass changes only grids, each into the table of
      the section named by some earlier heading. */
  lemma CallbackInsertsSectionTables(sections: seq<Section>, nodes: seq<Node>)
    ensures |Converted(InsertedMarkup, sections, nodes)| == |nodes|
    ensures forall j :: 0 <= j < |nodes| && Converted(InsertedMarkup, sections, nodes)[j] != nodes[j] ==>
      HasClass(nodes[j], TokenGridClass)
      && (exists i ::
            0 <= i < j && MatchedSection(sections, nodes[i]).Some?
            && Converted(InsertedMarkup, sections, nodes)[j] == TableFor(sections[MatchedSection(sections, nodes[i]).value]))
  {
    forall s: Section ensures TokenTable(InsertedMarkup(s, s.title)) == TableFor(s) {
      InsertedIsTable(s);
    }
    ConvertedRendersTables(InsertedMarkup, TableFor, sections, nodes);
  }

  /** The pass's changes, for a renderer that yields `table(s)` for each section `s`. */
  lemma ConvertedRendersTables(render: Renderer, table: Section -> Node, sections: seq<Section>, nodes: seq<Node>)
    requires forall s: Section :: TokenTable(render(s, s.title)) == table(s)
    ensures |Converted(render, sections, nodes)| == |nodes|
    ensures forall j :: 0 <= j < |nodes| && Converted(render, sections, nodes)[j] != nodes[j] ==>
      HasClass(nodes[j], TokenGridClass)
      && (exists i ::
            0 <= i < j && MatchedSection(sections, nodes[i]).Some?
            && Converted(render, sections, nodes)[j] == table(sections[MatchedSection(sections, nodes[i]).value]))
  {
    var result := Converted(render, sections, nodes);
    ConvertedRewritesOnlyGrids(render, sections, nodes);
    forall j | 0 <= j < |nodes| && result[j] != nodes[j]
      ensures exists i ::
                0 <= i < j && MatchedSection(sections, nodes[i]).Some?
                && result[j] == table(sections[MatchedSection(sections, nodes[i]).value])
    {
      var i :| 0 <= i < j && MatchedSection(sections, nodes[i]).Some?
        && result[j] == TokenTable(render(sections[MatchedSection(sections, nodes[i]).value], Trim(nodes[i].text)));
    }
  }

  /** A "Surface Colors" heading, whatever whitespace surrounds its text, followed by a
      grid: the grid gives way to the Surface Colors table and the heading stays. */
  lemma SurfaceColorsReplaced(pre: string, post: string, classes: set<string>)
    requires AllTrimmable(pre) && AllTrimmable(post) && TokenGridClass in classes
    ensures var nodes := [Heading(pre + "Surface Colors" + post, {}), Element(classes)];
      Converted(InsertedMarkup, SemanticSections, nodes) == [nodes[0], TableFor(SurfaceColors)]
  {
    var heading := Heading(pre + "Surface Colors" + post, {});
    assert MatchedSection(SemanticSections, heading) == Some(0) by {
      TrimPadded(pre, "Surface Colors", post);
      assert SemanticSections[0].title == "Surface Colors";
    }
    HeadingThenGrid(InsertedMarkup, SemanticSections, heading, classes, 0);
    InsertedIsTable(SurfaceColors);
  }

  /** For every catalogue section, the markup the callback puts in the grid's place reads
      back as that section's table, with one row per token. */
  lemma CatalogueTablesReadBack(i: nat)
    requires i < |SemanticSections|
    ensures var s := SemanticSections[i];
      ParseTable(InsertedMarkup(s, s.title)) == Some(SectionTable(s))
      && |SectionTable(s).rows| == |s.tokens|
  {
    var s := SemanticSections[i];
    CataloguePlain();
    InsertedTableReadsBack(s);
    SectionTableRows(s);
  }

  /** The table put in place of the Surface Colors grid reads back with eight rows. */
  lemma SurfaceColorsTableHasEightRows()
    ensures ParseTable(InsertedMarkup(SurfaceColors, SurfaceColors.title)) == Some(SectionTable(SurfaceColors))
    ensures |SectionTable(SurfaceColors).rows| == 8
  {
    CatalogueTablesReadBack(0);
    CatalogueShape();
  }

  /** The page's own example of that walk: a "Surface Colors" heading, then a heading
      naming no catalogue section, then a grid. The grid becomes the Surface Colors
      table. */
  lemma SurfaceColorsTakesLaterGrid(second: Node, classes: set<string>)
    requires second.Heading? && MatchedSection(SemanticSections, second).None? && !HasClass(second, TokenGridClass)
    requires TokenGridClass in classes
    ensures var nodes := [Heading("Surface Colors", {}), second, Element(classes)];
      Converted(InsertedMarkup, SemanticSections, nodes) == [nodes[0], second, TableFor(SurfaceColors)]
  {
    var first := Heading("Surface Colors", {});
    assert MatchedSection(SemanticSections, first) == Some(0) by {
      TrimPadded([], "Surface Colors", []);
      assert [] + "Surface Colors" + [] == "Surface Colors";
      assert SemanticSections[0].title == "Surface Colors";
    }
    GridTakenPastNextHeading(InsertedMarkup, SemanticSections, first, second, classes, 0);
    InsertedIsTable(SurfaceColors);
  }

  /** On a page laid out heading, grid, heading, grid, ..., every heading that names a
      catalogue section has its first later grid replaced by that section's table. */
  lemma CatalogueLayoutConverted(nodes: seq<Node>, q: nat, g: nat)
    requires GridBetweenMatches(SemanticSections, nodes)
    requires q < |nodes| && MatchedSection(SemanticSections, nodes[q]).Some?
    requires FirstGridFrom(nodes, q + 1) == Some(g)
    ensures |Converted(InsertedMarkup, SemanticSections, nodes)| == |nodes|
    ensures Converted(InsertedMarkup, SemanticSections, nodes)[g]
         == TableFor(SemanticSections[MatchedSection(SemanticSections, nodes[q]).value])
  {
    EveryMatchGetsItsGrid(InsertedMarkup, SemanticSections, nodes, q, g);
    InsertedIsTable(SemanticSections[MatchedSection(SemanticSections, nodes[q]).value]);
  }

  /** In any list of children, a "Surface Colors" heading (padded with whitespace or not)
      that is the first heading naming a section gets its first later grid replaced by
      the Surface Colors table. */
  lemma SurfaceColorsFirstHeading(nodes: seq<Node>, p: nat, j: nat)
    requires p < |nodes| && nodes[p].Heading? && Trim(nodes[p].text) == "Surface Colors"
    requires forall q :: 0 <= q < p ==> MatchedSection(SemanticSections, nodes[q]).None?
    requires FirstGridFrom(nodes, p + 1) == Some(j)
    ensures |Converted(InsertedMarkup, SemanticSections, nodes)| == |nodes|
    ensures Converted(InsertedMarkup, SemanticSections, nodes)[j] == TableFor(SurfaceColors)
  {
    assert SemanticSections[0].title == "Surface Colors";
    assert MatchedSection(SemanticSections, nodes[p]) == Some(0);
    FirstMatchGetsGrid(InsertedMarkup, SemanticSections, nodes, p, j);
    InsertedIsTable(SurfaceColors);
  }
}
