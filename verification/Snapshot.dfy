/** The page as indented lines with refs (packages/browser/src/snapshot.js). */
module Snapshot {
  import opened Wrappers
  import opened Decimal
  import opened AxTree

  const ACTIONABLE_ROLES: set<string> := {
    "button", "link", "checkbox", "radio", "menuitem", "menuitemcheckbox", "menuitemradio", "tab",
    "textbox", "searchbox", "combobox", "listbox", "option", "switch", "slider", "spinbutton"}

  const OMIT_ROLES: set<string> := {"none", "presentation", "RootWebArea"}

  const STRUCTURAL_ROLES: set<string> := {
    "generic", "group", "section", "paragraph", "LineBreak", "StaticText", "InlineTextBox"}

  datatype Options = Options(interactive: bool, compact: bool, maxDepth: Option<real>)

  /** One line of the text: whose it is, how far in it stands, the node it acts on and the ref it shows. */
  datatype Line = Line(id: string, indent: nat, target: Option<nat>, ref: Option<string>)

  predicate Actionable(n: AxNode) { n.role in ACTIONABLE_ROLES && n.backendDOMNodeId.Some? }

  /** Whether a node met with `depth` lines above it gets a line of its own. */
  predicate Emits(o: Options, n: AxNode, depth: nat) {
    && !n.ignored && n.role != "" && n.role !in OMIT_ROLES
    && (o.maxDepth.None? || depth as real <= o.maxDepth.value)
    && (o.interactive ==> Actionable(n))
    && (o.compact && n.name == "" && n.role in STRUCTURAL_ROLES ==> Actionable(n))
  }

  /** The nodes of a child list that exist. */
  function Found(byId: map<string, AxNode>, ids: seq<string>): seq<AxNode> {
    if ids == [] then [] else (if ids[0] in byId then [byId[ids[0]]] else []) + Found(byId, ids[1..])
  }

  lemma FoundFirst(byId: map<string, AxNode>, ids: seq<string>, i: nat)
    requires i < |ids|
    ensures ids[i] in byId ==> Found(byId, ids[i..]) != [] && Found(byId, ids[i..])[0] == byId[ids[i]]
    ensures ids[i] in byId ==> Found(byId, ids[i..])[1..] == Found(byId, ids[i + 1..])
    ensures ids[i] !in byId ==> Found(byId, ids[i..]) == Found(byId, ids[i + 1..])
  {
    assert ids[i..][1..] == ids[i + 1..];
  }

  lemma FoundNone(byId: map<string, AxNode>, ids: seq<string>)
    requires ids == []
    ensures Found(byId, ids) == []
  {
  }

  /** Following child lists from these nodes unfolds into a finite forest: what the walk needs to end. */
  predicate Unfolds(byId: map<string, AxNode>, nodes: seq<AxNode>, f: Forest)
    decreases f
  {
    match f
    case Nil => nodes == []
    case Node(id, kids, rest) =>
      && nodes != [] && nodes[0].nodeId == id
      && Unfolds(byId, Found(byId, nodes[0].childIds), kids)
      && Unfolds(byId, nodes[1..], rest)
  }

  /** Where the walk starts. */
  function StartNodes(nodes: seq<AxNode>): seq<AxNode> {
    if RootsOf(nodes) == [] && nodes != [] then [nodes[0]] else RootsOf(nodes)
  }

  // ----- what is shown ---------------------------------------------------------------------

  function Head(o: Options, n: AxNode, depth: nat): seq<Line> {
    if Emits(o, n, depth)
    then [Line(n.nodeId, depth, if Actionable(n) then n.backendDOMNodeId else None, None)]
    else []
  }

  /** The lines of a forest, before refs are given out. */
  function Shown(byId: map<string, AxNode>, o: Options, nodes: seq<AxNode>, f: Forest, depth: nat): seq<Line>
    requires Unfolds(byId, nodes, f)
    decreases f
  {
    match f
    case Nil => []
    case Node(_, kids, rest) =>
      var head := Head(o, nodes[0], depth);
      head + Shown(byId, o, Found(byId, nodes[0].childIds), kids, depth + |head|)
        + Shown(byId, o, nodes[1..], rest, depth)
  }

  /** The lines of a first node's tree. */
  function ShownFirst(byId: map<string, AxNode>, o: Options, n: AxNode, kids: Forest, depth: nat): seq<Line>
    requires Unfolds(byId, Found(byId, n.childIds), kids)
  {
    Head(o, n, depth) + Shown(byId, o, Found(byId, n.childIds), kids, depth + |Head(o, n, depth)|)
  }

  lemma UnfoldFirst(byId: map<string, AxNode>, o: Options, nodes: seq<AxNode>, f: Forest, depth: nat)
    requires Unfolds(byId, nodes, f) && (nodes != [] || f.Node?)
    ensures nodes != [] && f.Node? && f.id == nodes[0].nodeId
    ensures Unfolds(byId, Found(byId, nodes[0].childIds), f.kids) && Unfolds(byId, nodes[1..], f.rest)
    ensures Shown(byId, o, nodes, f, depth) ==
      ShownFirst(byId, o, nodes[0], f.kids, depth) + Shown(byId, o, nodes[1..], f.rest, depth)
    ensures Ids(f) == [f.id] + Ids(f.kids) + Ids(f.rest)
  {
    hide Emits, Actionable, Found, Head;
  }

  lemma UnfoldNone(byId: map<string, AxNode>, o: Options, f: Forest, depth: nat)
    requires Unfolds(byId, [], f)
    ensures f == Nil && Ids(f) == [] && Shown(byId, o, [], f, depth) == []
  {
  }

  /** The elements that lines act on, in order. */
  function Targets(lines: seq<Line>): seq<nat> {
    if lines == [] then []
    else (if lines[0].target.Some? then [lines[0].target.value] else []) + Targets(lines[1..])
  }

  function RefName(n: nat): string { "e" + Digits(n) }

  /** Refs numbered on from `n`, one to each line that acts on something. */
  function Numbered(lines: seq<Line>, n: nat): (r: seq<Line>)
    ensures |r| == |lines|
  {
    if lines == [] then []
    else if lines[0].target.Some? then [lines[0].(ref := Some(RefName(n + 1)))] + Numbered(lines[1..], n + 1)
    else [lines[0]] + Numbered(lines[1..], n)
  }

  /** Ref to element, for elements numbered on from `offset`. */
  function RefMap(targets: seq<nat>, offset: nat): map<string, nat> {
    if targets == [] then map[]
    else RefMap(targets[..|targets| - 1], offset)[RefName(offset + |targets|) := targets[|targets| - 1]]
  }

  lemma RefMapMore(targets: seq<nat>, target: nat, offset: nat)
    ensures RefMap(targets + [target], offset) == RefMap(targets, offset)[RefName(offset + |targets| + 1) := target]
  {
    assert (targets + [target])[..|targets|] == targets;
  }

  lemma TargetsFirst(l: Line, rest: seq<Line>)
    ensures Targets([l] + rest) == (if l.target.Some? then [l.target.value] else []) + Targets(rest)
  {
    assert ([l] + rest)[1..] == rest;
  }

  lemma {:induction false} TargetsAppend(a: seq<Line>, b: seq<Line>)
    ensures Targets(a + b) == Targets(a) + Targets(b)
  {
    if a == [] {
      assert a + b == b;
    } else {
      hide Targets;
      var first, rest := a[0], a[1..];
      assert a == [first] + rest && a + b == [first] + (rest + b);
      TargetsFirst(first, rest);
      TargetsFirst(first, rest + b);
      TargetsAppend(rest, b);
    }
  }

  /** The first line with its ref, and the number that the refs of the others go on from. */
  function First(l: Line, n: nat): (Line, nat) {
    if l.target.Some? then (l.(ref := Some(RefName(n + 1))), n + 1) else (l, n)
  }

  lemma NumberedFirst(l: Line, rest: seq<Line>, n: nat)
    ensures Numbered([l] + rest, n) == [First(l, n).0] + Numbered(rest, First(l, n).1)
    ensures n + |Targets([l] + rest)| == First(l, n).1 + |Targets(rest)|
  {
    assert ([l] + rest)[1..] == rest;
    TargetsFirst(l, rest);
    hide Targets;
  }

  lemma {:induction false} NumberedAppend(a: seq<Line>, b: seq<Line>, n: nat)
    ensures Numbered(a + b, n) == Numbered(a, n) + Numbered(b, n + |Targets(a)|)
  {
    if a == [] {
      assert a + b == b;
    } else {
      hide Numbered, Targets, First;
      var first, rest := a[0], a[1..];
      assert a == [first] + rest && a + b == [first] + (rest + b);
      NumberedFirst(first, rest, n);
      NumberedFirst(first, rest + b, n);
      NumberedAppend(rest, b, First(first, n).1);
    }
  }

  lemma {:induction false} NumberedTargets(a: seq<Line>, n: nat)
    ensures Targets(Numbered(a, n)) == Targets(a)
  {
    if a != [] { NumberedTargets(a[1..], if a[0].target.Some? then n + 1 else n); }
  }

  // ----- the renderer ----------------------------------------------------------------------

  class Renderer {
    const byId: map<string, AxNode>
    const options: Options
    const refOffset: nat
    var lines: seq<Line>
    var refs: map<string, nat>
    var refCounter: nat
    /** Every node that `walk` was called on, in order. */
    ghost var visited: seq<string>

    ghost predicate Valid()
      reads this
    {
      refCounter == |Targets(lines)| && refs == RefMap(Targets(lines), refOffset)
    }

    constructor (nodes: seq<AxNode>, options: Options, refOffset: nat)
      ensures Valid() && lines == [] && visited == []
      ensures this.byId == ById(nodes) && this.options == options && this.refOffset == refOffset
    {
      var table: map<string, AxNode> := map[];
      var i := 0;
      while i < |nodes|
        invariant i <= |nodes| && table == ById(nodes[..i])
      {
        assert nodes[..i + 1][..i] == nodes[..i];
        table := table[nodes[i].nodeId := nodes[i]];
        i := i + 1;
      }
      assert nodes[..i] == nodes;
      this.byId, this.options, this.refOffset := table, options, refOffset;
      lines, refs, refCounter, visited := [], map[], 0, [];
    }

    /** A line for a node whose role is shown, unless the options drop it; an actionable one takes the next ref. */
    method Format(node: AxNode, depth: nat) returns (line: Option<Line>)
      modifies this`refs, this`refCounter
      ensures line.None? <==>
        (options.interactive && !Actionable(node))
        || (options.compact && !Actionable(node) && node.name == "" && node.role in STRUCTURAL_ROLES)
      ensures line.None? || !Actionable(node) ==> refs == old(refs) && refCounter == old(refCounter)
      ensures line.Some? && !Actionable(node) ==> line.value == Line(node.nodeId, depth, None, None)
      ensures line.Some? && Actionable(node) ==>
        && refCounter == old(refCounter) + 1
        && refs == old(refs)[RefName(refOffset + refCounter) := node.backendDOMNodeId.value]
        && line.value == Line(node.nodeId, depth, node.backendDOMNodeId, Some(RefName(refOffset + refCounter)))
    {
      var actionable := node.role in ACTIONABLE_ROLES && node.backendDOMNodeId.Some?;
      if options.interactive && !actionable { return None; }
      if options.compact && !actionable && node.name == "" && node.role in STRUCTURAL_ROLES { return None; }
      if actionable {
        refCounter := refCounter + 1;
        var ref := RefName(refOffset + refCounter);
        refs := refs[ref := node.backendDOMNodeId.value];
        return Some(Line(node.nodeId, depth, node.backendDOMNodeId, Some(ref)));
      }
      return Some(Line(node.nodeId, depth, None, None));
    }

    /** The node's own line, if it gets one. */
    method Emit(node: AxNode, depth: nat) returns (emitted: bool)
      requires Valid()
      modifies this`lines, this`refs, this`refCounter
      ensures Valid()
      ensures emitted == Emits(options, node, depth)
      ensures lines == old(lines) + Numbered(Head(options, node, depth), refOffset + old(refCounter))
    {
      emitted := false;
      if !node.ignored && node.role != "" && node.role !in OMIT_ROLES
         && (options.maxDepth.None? || depth as real <= options.maxDepth.value) {
        var line := Format(node, depth);
        if line.Some? {
          TargetsAppend(lines, [line.value]);
          if Actionable(node) {
            RefMapMore(Targets(lines), node.backendDOMNodeId.value, refOffset);
            assert Targets([line.value]) == [node.backendDOMNodeId.value];
          } else {
            assert Targets(lines) + [] == Targets(lines);
          }
          lines := lines + [line.value];
          emitted := true;
        }
      }
      assert Numbered([], refOffset + old(refCounter)) == [];
    }

    method Walk(node: AxNode, depth: nat, ghost kids: Forest)
      requires Valid() && Unfolds(byId, Found(byId, node.childIds), kids)
      modifies this
      ensures Valid()
      ensures visited == old(visited) + [node.nodeId] + Ids(kids)
      ensures lines == old(lines) + Numbered(ShownFirst(byId, options, node, kids, depth), refOffset + old(refCounter))
      decreases kids, 1
    {
      hide Emits, Actionable, Numbered, Targets, RefMap, Found, Unfolds;
      ghost var at := refOffset + refCounter;
      ghost var head := Head(options, node, depth);
      var emitted := Emit(node, depth);
      visited := visited + [node.nodeId];
      EmitCounts(old(lines), head, at);
      WalkChildren(node.childIds, if emitted then depth + 1 else depth, kids);
      NumberedAppend(head, Shown(byId, options, Found(byId, node.childIds), kids, depth + |head|), at);
    }

    method WalkChildren(childIds: seq<string>, depth: nat, ghost kids: Forest)
      requires Valid() && Unfolds(byId, Found(byId, childIds), kids)
      modifies this
      ensures Valid()
      ensures visited == old(visited) + Ids(kids)
      ensures lines == old(lines) + Numbered(Shown(byId, options, Found(byId, childIds), kids, depth),
        refOffset + old(refCounter))
      decreases kids, 0
    {
      hide Emits, Actionable, Head, Targets, RefMap, Shown, Unfolds, ShownFirst, Ids, Numbered, Found;
      ghost var left := kids;
      ghost var done: seq<Line> := [];
      ghost var all := Shown(byId, options, Found(byId, childIds), kids, depth);
      ghost var seen: seq<string> := [];
      var i := 0;
      while i < |childIds|
        invariant i <= |childIds| && Valid()
        invariant Unfolds(byId, Found(byId, childIds[i..]), left)
        invariant left == kids || left < kids
        invariant visited == old(visited) + seen && seen + Ids(left) == Ids(kids)
        invariant lines == old(lines) + Numbered(done, refOffset + old(refCounter))
        invariant done + Shown(byId, options, Found(byId, childIds[i..]), left, depth) == all
      {
        FoundFirst(byId, childIds, i);
        if childIds[i] in byId {
          var child := byId[childIds[i]];
          ghost var rest := Found(byId, childIds[i + 1..]);
          UnfoldFirst(byId, options, Found(byId, childIds[i..]), left, depth);
          ghost var more := ShownFirst(byId, options, child, left.kids, depth);
          assert done + (more + Shown(byId, options, rest, left.rest, depth)) == all;
          EmitCounts(old(lines), done, refOffset + old(refCounter));
          Walk(child, depth, left.kids);
          NumberedAppend(done, more, refOffset + old(refCounter));
          assert seen + [left.id] + Ids(left.kids) + Ids(left.rest) == seen + Ids(left);
          done, seen, left := done + more, seen + [left.id] + Ids(left.kids), left.rest;
        }
        i := i + 1;
      }
      FoundNone(byId, childIds[i..]);
      UnfoldNone(byId, options, left, depth);
      assert done == all;
    }

    /** How far the counter has come after more lines. */
    lemma EmitCounts(before: seq<Line>, more: seq<Line>, at: nat)
      requires Valid() && lines == before + Numbered(more, at)
      ensures refCounter == |Targets(before)| + |Targets(more)|
    {
      TargetsAppend(before, Numbered(more, at));
      NumberedTargets(more, at);
    }
  }

  method RenderAxTree(nodes: seq<AxNode>, options: Options, refOffset: nat, ghost f: Forest)
    returns (lines: seq<Line>, refs: map<string, nat>, ghost visited: seq<string>)
    requires Unfolds(ById(nodes), StartNodes(nodes), f)
    ensures lines == Numbered(Shown(ById(nodes), options, StartNodes(nodes), f, 0), refOffset)
    ensures refs == RefMap(Targets(lines), refOffset)
    ensures visited == Ids(f)
  {
    hide Emits, Actionable, Head, RefMap, StartNodes, ById, RootsOf, Found, Shown, ShownFirst, Unfolds, Ids, Numbered;
    var renderer := new Renderer(nodes, options, refOffset);
    var roots := StartNodes(nodes);
    ghost var left := f;
    ghost var done: seq<Line> := [];
    ghost var all := Shown(ById(nodes), options, roots, f, 0);
    var i := 0;
    while i < |roots|
      invariant i <= |roots| && renderer.Valid() && fresh(renderer)
      invariant Unfolds(ById(nodes), roots[i..], left)
      invariant renderer.visited + Ids(left) == Ids(f)
      invariant renderer.lines == Numbered(done, refOffset)
      invariant done + Shown(ById(nodes), options, roots[i..], left, 0) == all
    {
      assert roots[i..][1..] == roots[i + 1..];
      UnfoldFirst(ById(nodes), options, roots[i..], left, 0);
      ghost var more := ShownFirst(ById(nodes), options, roots[i], left.kids, 0);
      ghost var was := renderer.visited;
      assert done + (more + Shown(ById(nodes), options, roots[i + 1..], left.rest, 0)) == all;
      assert renderer.lines == [] + Numbered(done, refOffset);
      renderer.EmitCounts([], done, refOffset);
      renderer.Walk(roots[i], 0, left.kids);
      NumberedAppend(done, more, refOffset);
      assert was + [left.id] + Ids(left.kids) + Ids(left.rest) == was + Ids(left);
      done, left := done + more, left.rest;
      i := i + 1;
    }
    assert roots[i..] == [];
    UnfoldNone(ById(nodes), options, left, 0);
    assert done == all;
    lines, refs, visited := renderer.lines, renderer.refs, renderer.visited;
  }
}
