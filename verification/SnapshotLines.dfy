/** Where the lines of a snapshot stand, and what their refs mean (packages/browser/src/snapshot.js). */
module SnapshotLines {
  import opened Wrappers
  import opened Decimal
  import opened AxTree
  import opened Snapshot

  // ----- the walk ends ---------------------------------------------------------------------

  ghost predicate Agree(byId: map<string, AxNode>, nodes: seq<AxNode>) {
    forall i :: 0 <= i < |nodes| ==> nodes[i].nodeId in byId && byId[nodes[i].nodeId] == nodes[i]
  }

  lemma {:induction false} FoundAll(byId: map<string, AxNode>, ids: seq<string>)
    requires forall id :: id in ids ==> id in byId && byId[id].nodeId == id
    ensures IdsOf(Found(byId, ids)) == ids && Agree(byId, Found(byId, ids))
  {
    if ids != [] { FoundAll(byId, ids[1..]); }
  }

  lemma RootsAreFound(byId: map<string, AxNode>, parent: Option<string>, f: Forest)
    requires Linked(byId, parent, f)
    ensures IdsOf(Found(byId, RootIds(f))) == RootIds(f) && Agree(byId, Found(byId, RootIds(f)))
  {
    RootIdsAreIds(f);
    forall id | id in RootIds(f) ensures id in byId && byId[id].nodeId == id { LinkedParents(byId, parent, f, id); }
    FoundAll(byId, RootIds(f));
  }

  lemma {:induction false} LinkedUnfolds(
    byId: map<string, AxNode>, parent: Option<string>, nodes: seq<AxNode>, f: Forest)
    requires Linked(byId, parent, f) && IdsOf(nodes) == RootIds(f) && Agree(byId, nodes)
    ensures Unfolds(byId, nodes, f)
    decreases f
  {
    match f
    case Nil =>
    case Node(id, kids, rest) =>
      assert IdsOf(nodes)[0] == nodes[0].nodeId == id;
      RootsAreFound(byId, Some(id), kids);
      LinkedUnfolds(byId, Some(id), Found(byId, RootIds(kids)), kids);
      assert IdsOf(nodes[1..]) == IdsOf(nodes)[1..] == RootIds(rest);
      LinkedUnfolds(byId, parent, nodes[1..], rest);
  }

  lemma {:induction false} RootsAgree(nodes: seq<AxNode>, roots: seq<AxNode>)
    requires roots == RootsOf(nodes)
    ensures forall r :: r in roots ==> r in nodes
  {
    if nodes != [] { RootsAgree(nodes[..|nodes| - 1], RootsOf(nodes[..|nodes| - 1])); }
  }

  lemma StartsAgree(nodes: seq<AxNode>, f: Forest)
    requires Lists(nodes, f)
    ensures StartNodes(nodes) == RootsOf(nodes) && Agree(ById(nodes), StartNodes(nodes))
  {
    var roots := RootsOf(nodes);
    if roots == [] && nodes != [] {
      assert f == Nil;
      assert IdsOf(nodes)[0] in Ids(f);
    }
    RootsAgree(nodes, roots);
    forall i | 0 <= i < |roots| ensures roots[i].nodeId in ById(nodes) && ById(nodes)[roots[i].nodeId] == roots[i] {
      assert roots[i] in nodes;
      var k :| 0 <= k < |nodes| && nodes[k] == roots[i];
      ByIdFinds(nodes, k);
    }
  }

  lemma {:induction false} RootsExactly(nodes: seq<AxNode>, n: AxNode)
    ensures n in RootsOf(nodes) <==> n in nodes && (n.parentId == None || n.parentId == Some(""))
  {
    if nodes != [] {
      RootsExactly(nodes[..|nodes| - 1], n);
      assert nodes == nodes[..|nodes| - 1] + [nodes[|nodes| - 1]];
    }
  }

  /** The walk starts from the nodes without a parent, and from the first node where there is none such. */
  lemma StartsWhere(nodes: seq<AxNode>, n: AxNode)
    ensures n in StartNodes(nodes) <==>
      if exists m :: m in nodes && (m.parentId == None || m.parentId == Some(""))
      then n in nodes && (n.parentId == None || n.parentId == Some(""))
      else nodes != [] && n == nodes[0]
  {
    RootsExactly(nodes, n);
    if m :| m in nodes && (m.parentId == None || m.parentId == Some("")) { RootsExactly(nodes, m); }
    if RootsOf(nodes) != [] { RootsExactly(nodes, RootsOf(nodes)[0]); }
  }

  /** Where two nodes have one id, the later is the one that is found. */
  lemma {:induction false} LastWins(nodes: seq<AxNode>, i: nat)
    requires i < |nodes| && forall j :: i < j < |nodes| ==> nodes[j].nodeId != nodes[i].nodeId
    ensures nodes[i].nodeId in ById(nodes) && ById(nodes)[nodes[i].nodeId] == nodes[i]
  {
    if i < |nodes| - 1 { LastWins(nodes[..|nodes| - 1], i); }
  }

  /** On a well-formed list the walk ends, and calls on every node exactly once, parents first. */
  lemma WalkEnds(nodes: seq<AxNode>, f: Forest)
    requires Lists(nodes, f)
    ensures Unfolds(ById(nodes), StartNodes(nodes), f)
    ensures NoDuplicates(Ids(f)) && forall id :: id in Ids(f) <==> id in IdsOf(nodes)
  {
    StartsAgree(nodes, f);
    LinkedUnfolds(ById(nodes), None, StartNodes(nodes), f);
    DistinctLists(f);
  }

  // ----- which nodes have lines, and where they stand ------------------------------------------

  /** The ancestors of a node by its `parentId`s, the outermost first. */
  predicate Ancestors(byId: map<string, AxNode>, id: string, above: seq<string>)
    decreases |above|
  {
    && id in byId
    && if above == [] then byId[id].parentId == None
       else byId[id].parentId == Some(above[|above| - 1]) && Ancestors(byId, above[|above| - 1], above[..|above| - 1])
  }

  lemma {:induction false} AncestorsUnique(byId: map<string, AxNode>, id: string, a: seq<string>, b: seq<string>)
    requires Ancestors(byId, id, a) && Ancestors(byId, id, b)
    ensures a == b
    decreases |a|
  {
    if a != [] {
      AncestorsUnique(byId, a[|a| - 1], a[..|a| - 1], b[..|b| - 1]);
      assert a == a[..|a| - 1] + [a[|a| - 1]] && b == b[..|b| - 1] + [b[|b| - 1]];
    }
  }

  function LineIds(lines: seq<Line>): (r: seq<string>)
    ensures |r| == |lines|
  {
    seq(|lines|, i requires 0 <= i < |lines| => lines[i].id)
  }

  /** How many of these ids are among the shown ones. */
  function CountShown(ids: seq<string>, shown: seq<string>): nat {
    if ids == [] then 0
    else CountShown(ids[..|ids| - 1], shown) + (if ids[|ids| - 1] in shown then 1 else 0)
  }

  /** These ids without those that are not shown. */
  function OnlyShown(ids: seq<string>, shown: seq<string>): seq<string> {
    if ids == [] then [] else (if ids[0] in shown then [ids[0]] else []) + OnlyShown(ids[1..], shown)
  }

  lemma {:induction false} OnlyShownAppend(a: seq<string>, b: seq<string>, shown: seq<string>)
    ensures OnlyShown(a + b, shown) == OnlyShown(a, shown) + OnlyShown(b, shown)
  {
    if a == [] {
      assert a + b == b;
    } else {
      assert (a + b)[0] == a[0] && (a + b)[1..] == a[1..] + b;
      var first := if a[0] in shown then [a[0]] else [];
      assert OnlyShown(a, shown) == first + OnlyShown(a[1..], shown);
      assert OnlyShown(a + b, shown) == first + OnlyShown(a[1..] + b, shown);
      hide OnlyShown;
      OnlyShownAppend(a[1..], b, shown);
    }
  }

  /** The line stands in by as many steps as it has ancestors with lines, and acts on its own node. */
  ghost predicate Indented(byId: map<string, AxNode>, shown: seq<string>, l: Line) {
    && (exists above :: Ancestors(byId, l.id, above) && l.indent == CountShown(above, shown))
    && l.target == if Actionable(byId[l.id]) then byId[l.id].backendDOMNodeId else None
  }

  /** A node has a line exactly when the options show it below that many lines. */
  ghost predicate Placed(byId: map<string, AxNode>, o: Options, shown: seq<string>, id: string) {
    exists above :: Ancestors(byId, id, above) && (id in shown <==> Emits(o, byId[id], CountShown(above, shown)))
  }

  /** `above` is the way down to `parent`, itself included. */
  predicate Below(byId: map<string, AxNode>, parent: Option<string>, above: seq<string>) {
    if parent.None? then above == []
    else above != [] && above[|above| - 1] == parent.value && Ancestors(byId, parent.value, above[..|above| - 1])
  }

  lemma {:induction false} ShownIds(byId: map<string, AxNode>, o: Options, nodes: seq<AxNode>, f: Forest, depth: nat)
    requires Unfolds(byId, nodes, f)
    ensures forall id :: id in LineIds(Shown(byId, o, nodes, f, depth)) ==> id in Ids(f)
    decreases f
  {
    match f
    case Nil =>
    case Node(id, kids, rest) =>
      hide Unfolds, Shown, Head, ShownFirst, LineIds, Emits, Found;
      UnfoldFirst(byId, o, nodes, f, depth);
      LineIdsStep(byId, o, nodes, f, depth);
      ShownIds(byId, o, Found(byId, nodes[0].childIds), kids, depth + |Head(o, nodes[0], depth)|);
      ShownIds(byId, o, nodes[1..], rest, depth);
  }

  lemma LineIdsStep(byId: map<string, AxNode>, o: Options, nodes: seq<AxNode>, f: Forest, depth: nat)
    requires Unfolds(byId, nodes, f) && f.Node?
    ensures LineIds(Shown(byId, o, nodes, f, depth)) ==
      (if Emits(o, nodes[0], depth) then [f.id] else [])
      + LineIds(Shown(byId, o, Found(byId, nodes[0].childIds), f.kids, depth + |Head(o, nodes[0], depth)|))
      + LineIds(Shown(byId, o, nodes[1..], f.rest, depth))
  {
    hide Emits, Actionable, Shown, Found, Unfolds;
    UnfoldFirst(byId, o, nodes, f, depth);
    var head, kids := Head(o, nodes[0], depth), Found(byId, nodes[0].childIds);
    LineIdsAppend(head + Shown(byId, o, kids, f.kids, depth + |head|), Shown(byId, o, nodes[1..], f.rest, depth));
    LineIdsAppend(head, Shown(byId, o, kids, f.kids, depth + |head|));
  }

  lemma LineIdsAppend(a: seq<Line>, b: seq<Line>)
    ensures LineIds(a + b) == LineIds(a) + LineIds(b)
  {
  }

  /** `shown` tells of every id of the forest whether it has a line. */
  ghost predicate Tells(
    byId: map<string, AxNode>, o: Options, nodes: seq<AxNode>, f: Forest, depth: nat, shown: seq<string>)
    requires Unfolds(byId, nodes, f)
  {
    forall x :: x in Ids(f) ==> (x in shown <==> x in LineIds(Shown(byId, o, nodes, f, depth)))
  }

  lemma TellsParts(byId: map<string, AxNode>, o: Options, nodes: seq<AxNode>, f: Forest, depth: nat, shown: seq<string>)
    requires Unfolds(byId, nodes, f) && f.Node? && Distinct(f) && Tells(byId, o, nodes, f, depth, shown)
    ensures Unfolds(byId, Found(byId, nodes[0].childIds), f.kids) && Unfolds(byId, nodes[1..], f.rest)
    ensures Distinct(f.kids) && Distinct(f.rest)
    ensures f.id in shown <==> Emits(o, nodes[0], depth)
    ensures Tells(byId, o, Found(byId, nodes[0].childIds), f.kids, depth + |Head(o, nodes[0], depth)|, shown)
    ensures Tells(byId, o, nodes[1..], f.rest, depth, shown)
  {
    hide Emits, Head, Shown, Found, LineIds, Linked, Unfolds, Ids, ShownFirst;
    assert Disjoint(f.kids, f.rest) && f.id !in Ids(f.kids) && f.id !in Ids(f.rest);
    UnfoldFirst(byId, o, nodes, f, depth);
    hide Distinct;
    LineIdsStep(byId, o, nodes, f, depth);
    ShownIds(byId, o, Found(byId, nodes[0].childIds), f.kids, depth + |Head(o, nodes[0], depth)|);
    ShownIds(byId, o, nodes[1..], f.rest, depth);
    InParts(
      f.id, Ids(f.kids), Ids(f.rest), Emits(o, nodes[0], depth),
      LineIds(Shown(byId, o, Found(byId, nodes[0].childIds), f.kids, depth + |Head(o, nodes[0], depth)|)),
      LineIds(Shown(byId, o, nodes[1..], f.rest, depth)), shown);
  }

  lemma InParts(
    id: string, a: seq<string>, b: seq<string>, first: bool, inA: seq<string>, inB: seq<string>, shown: seq<string>)
    requires forall x :: x in a ==> x !in b
    requires id !in a && id !in b
    requires (forall x :: x in inA ==> x in a) && (forall x :: x in inB ==> x in b)
    requires forall x :: x in [id] + a + b ==> (x in shown <==> x in (if first then [id] else []) + inA + inB)
    ensures id in shown <==> first
    ensures forall x :: x in a ==> (x in shown <==> x in inA)
    ensures forall x :: x in b ==> (x in shown <==> x in inB)
  {
    assert id in [id] + a + b;
    assert forall x :: x in a || x in b ==> x in [id] + a + b;
  }

  /** Lines come in the order of the tree. */
  lemma {:induction false} LinesInOrder(
    byId: map<string, AxNode>, o: Options, nodes: seq<AxNode>, f: Forest, depth: nat, shown: seq<string>)
    requires Unfolds(byId, nodes, f) && Distinct(f) && Tells(byId, o, nodes, f, depth, shown)
    ensures LineIds(Shown(byId, o, nodes, f, depth)) == OnlyShown(Ids(f), shown)
    decreases f
  {
    match f
    case Nil =>
    case Node(id, kids, rest) =>
      hide Emits, Head, Shown, Tells, Unfolds, Distinct, Found;
      assert nodes != [] by { UnfoldFirst(byId, o, nodes, f, depth); }
      TellsParts(byId, o, nodes, f, depth, shown);
      LineIdsStep(byId, o, nodes, f, depth);
      LinesInOrder(byId, o, Found(byId, nodes[0].childIds), kids, depth + |Head(o, nodes[0], depth)|, shown);
      LinesInOrder(byId, o, nodes[1..], rest, depth, shown);
      OnlyShownAppend([id] + Ids(kids), Ids(rest), shown);
      OnlyShownAppend([id], Ids(kids), shown);
  }

  lemma CountMore(above: seq<string>, id: string, shown: seq<string>)
    ensures CountShown(above + [id], shown) == CountShown(above, shown) + (if id in shown then 1 else 0)
  {
    assert (above + [id])[..|above|] == above;
  }

  ghost predicate AllPlaced(byId: map<string, AxNode>, o: Options, lines: seq<Line>, f: Forest, shown: seq<string>) {
    && (forall l :: l in lines ==> Indented(byId, shown, l))
    && (forall id :: id in Ids(f) ==> Placed(byId, o, shown, id))
  }

  /** The first node of a forest is where it should be. */
  lemma FirstPlaced(
    byId: map<string, AxNode>, o: Options, n: AxNode, depth: nat, parent: Option<string>, above: seq<string>,
      shown: seq<string>)
    requires n.nodeId in byId && byId[n.nodeId] == n && n.parentId == parent && Below(byId, parent, above)
    requires depth == CountShown(above, shown) && (n.nodeId in shown <==> Emits(o, n, depth))
    ensures Placed(byId, o, shown, n.nodeId)
    ensures forall l :: l in Head(o, n, depth) ==> Indented(byId, shown, l)
    ensures Below(byId, Some(n.nodeId), above + [n.nodeId])
    ensures depth + |Head(o, n, depth)| == CountShown(above + [n.nodeId], shown)
  {
    hide Emits, Actionable;
    assert Ancestors(byId, n.nodeId, above);
    assert (above + [n.nodeId])[..|above|] == above;
    CountMore(above, n.nodeId, shown);
  }

  lemma PlacedParts(
    byId: map<string, AxNode>, o: Options, n: AxNode, others: seq<AxNode>, f: Forest, depth: nat, shown: seq<string>)
    requires Unfolds(byId, [n] + others, f) && f.Node? && Unfolds(byId, Found(byId, n.childIds), f.kids)
      && Unfolds(byId, others, f.rest)
    requires f.id == n.nodeId && Placed(byId, o, shown, f.id)
    requires forall l :: l in Head(o, n, depth) ==> Indented(byId, shown, l)
    requires AllPlaced(byId, o, Shown(byId, o, Found(byId, n.childIds), f.kids, depth + |Head(o, n, depth)|), f.kids,
      shown)
    requires AllPlaced(byId, o, Shown(byId, o, others, f.rest, depth), f.rest, shown)
    ensures AllPlaced(byId, o, Shown(byId, o, [n] + others, f, depth), f, shown)
  {
    hide Emits, Head, Placed, Indented, Unfolds, Found, Shown;
    UnfoldFirst(byId, o, [n] + others, f, depth);
    assert ([n] + others)[1..] == others;
  }

  /** The forest hangs below `above`, of which `depth` have lines. */
  ghost predicate Hangs(
    byId: map<string, AxNode>, o: Options, nodes: seq<AxNode>, f: Forest, depth: nat,
    parent: Option<string>, above: seq<string>, shown: seq<string>)
  {
    && Linked(byId, parent, f) && IdsOf(nodes) == RootIds(f) && Agree(byId, nodes)
    && Unfolds(byId, nodes, f) && Distinct(f) && Tells(byId, o, nodes, f, depth, shown)
    && Below(byId, parent, above) && depth == CountShown(above, shown)
  }

  lemma HangsLinks(byId: map<string, AxNode>, parent: Option<string>, nodes: seq<AxNode>, f: Forest)
    requires Linked(byId, parent, f) && IdsOf(nodes) == RootIds(f) && Agree(byId, nodes) && f.Node?
    ensures nodes != [] && nodes[0].nodeId == f.id && f.id in byId && byId[f.id] == nodes[0]
    ensures nodes[0].parentId == parent && nodes[0].childIds == RootIds(f.kids)
    ensures Linked(byId, Some(f.id), f.kids) && Linked(byId, parent, f.rest)
    ensures IdsOf(nodes[1..]) == RootIds(f.rest) && Agree(byId, nodes[1..])
  {
    assert IdsOf(nodes)[0] == nodes[0].nodeId;
    assert IdsOf(nodes[1..]) == IdsOf(nodes)[1..];
  }

  lemma HangsFirst(
    byId: map<string, AxNode>, o: Options, nodes: seq<AxNode>, f: Forest, depth: nat,
    parent: Option<string>, above: seq<string>, shown: seq<string>)
    requires f.Node? && Hangs(byId, o, nodes, f, depth, parent, above, shown)
    ensures nodes != [] && nodes[0].nodeId == f.id && Placed(byId, o, shown, f.id)
    ensures forall l :: l in Head(o, nodes[0], depth) ==> Indented(byId, shown, l)
    ensures Hangs(byId, o, Found(byId, nodes[0].childIds), f.kids, depth + |Head(o, nodes[0], depth)|, Some(f.id),
      above + [f.id], shown)
    ensures Hangs(byId, o, nodes[1..], f.rest, depth, parent, above, shown)
  {
    hide Emits, Head, Tells, Placed, Indented, Below, Ancestors, CountShown, Unfolds, Distinct, Found, Linked, Agree,
      IdsOf, RootIds;
    HangsLinks(byId, parent, nodes, f);
    TellsParts(byId, o, nodes, f, depth, shown);
    FirstPlaced(byId, o, nodes[0], depth, parent, above, shown);
    RootsAreFound(byId, Some(f.id), f.kids);
  }

  lemma NonePlaced(
    byId: map<string, AxNode>, o: Options, nodes: seq<AxNode>, depth: nat, parent: Option<string>,
      above: seq<string>, shown: seq<string>)
    requires Hangs(byId, o, nodes, Nil, depth, parent, above, shown)
    ensures AllPlaced(byId, o, Shown(byId, o, nodes, Nil, depth), Nil, shown)
  {
  }

  lemma {:induction false} EachPlaced(
    byId: map<string, AxNode>, o: Options, nodes: seq<AxNode>, f: Forest, depth: nat,
    parent: Option<string>, above: seq<string>, shown: seq<string>)
    requires Hangs(byId, o, nodes, f, depth, parent, above, shown)
    ensures AllPlaced(byId, o, Shown(byId, o, nodes, f, depth), f, shown)
    decreases f
  {
    hide *;
    match f
    case Nil => NonePlaced(byId, o, nodes, depth, parent, above, shown);
    case Node(id, kids, rest) =>
      HangsFirst(byId, o, nodes, f, depth, parent, above, shown);
      EachPlaced(byId, o, Found(byId, nodes[0].childIds), kids, depth + |Head(o, nodes[0], depth)|, Some(id),
        above + [id], shown);
      EachPlaced(byId, o, nodes[1..], rest, depth, parent, above, shown);
      assert [nodes[0]] + nodes[1..] == nodes;
      HangsUnfolds(byId, o, nodes, f, depth, parent, above, shown);
      PlacedParts(byId, o, nodes[0], nodes[1..], f, depth, shown);
  }

  lemma HangsUnfolds(
    byId: map<string, AxNode>, o: Options, nodes: seq<AxNode>, f: Forest, depth: nat,
    parent: Option<string>, above: seq<string>, shown: seq<string>)
    requires f.Node? && Hangs(byId, o, nodes, f, depth, parent, above, shown)
    ensures nodes != [] && Unfolds(byId, nodes, f)
    ensures Unfolds(byId, Found(byId, nodes[0].childIds), f.kids) && Unfolds(byId, nodes[1..], f.rest)
  {
    UnfoldFirst(byId, o, nodes, f, depth);
  }

  /**
   * Every snapshot of a well-formed list: its lines are those of the nodes the options show, in the
   * order of the tree, each indented by its number of ancestors with lines.
   */
  lemma LinesPlaced(nodes: seq<AxNode>, f: Forest, o: Options)
    requires Lists(nodes, f)
    ensures Unfolds(ById(nodes), StartNodes(nodes), f)
    ensures var lines := Shown(ById(nodes), o, StartNodes(nodes), f, 0);
      && LineIds(lines) == OnlyShown(Ids(f), LineIds(lines))
      && AllPlaced(ById(nodes), o, lines, f, LineIds(lines))
  {
    hide Emits, Shown, Placed, Indented;
    WalkEnds(nodes, f);
    StartsAgree(nodes, f);
    var lines := Shown(ById(nodes), o, StartNodes(nodes), f, 0);
    LinesInOrder(ById(nodes), o, StartNodes(nodes), f, 0, LineIds(lines));
    EachPlaced(ById(nodes), o, StartNodes(nodes), f, 0, None, [], LineIds(lines));
  }

  /** What a click or a fill can be aimed at: a page element in one of sixteen roles. */
  predicate CanBeActedOn(n: AxNode) {
    && n.backendDOMNodeId.Some?
    && (n.role == "button" || n.role == "link" || n.role == "checkbox" || n.role == "radio" || n.role == "menuitem"
        || n.role == "menuitemcheckbox" || n.role == "menuitemradio" || n.role == "tab" || n.role == "textbox"
        || n.role == "searchbox" || n.role == "combobox" || n.role == "listbox" || n.role == "option"
        || n.role == "switch" || n.role == "slider" || n.role == "spinbutton")
  }

  /** Wrapper noise: a nameless node in a role that says nothing by itself. */
  predicate IsNoise(n: AxNode) {
    && n.name == "" && !CanBeActedOn(n)
    && (n.role == "generic" || n.role == "group" || n.role == "section" || n.role == "paragraph"
        || n.role == "LineBreak" || n.role == "StaticText" || n.role == "InlineTextBox")
  }

  predicate NeverShown(n: AxNode) {
    n.ignored || n.role == "" || n.role == "none" || n.role == "presentation" || n.role == "RootWebArea"
  }

  lemma ActionableMeans(n: AxNode)
    ensures Actionable(n) <==> CanBeActedOn(n)
  {
  }

  lemma EmitsMeans(o: Options, n: AxNode, depth: nat)
    ensures Emits(o, n, depth) <==>
      && !NeverShown(n)
      && (o.interactive ==> CanBeActedOn(n))
      && (o.compact ==> !IsNoise(n))
      && (o.maxDepth.Some? ==> depth as real <= o.maxDepth.value)
  {
    ActionableMeans(n);
    hide Actionable, CanBeActedOn;
  }

  /** In every snapshot of a well-formed list a node has a line if and only if it is neither ignored nor in a role
      that is never shown, can be acted on when only such nodes are asked for, is no noise when noise is dropped,
      and has no more ancestors with lines than the depth allows; the line acts on the node exactly if it can be. */
  lemma WhoIsShown(nodes: seq<AxNode>, f: Forest, o: Options, id: string)
    requires Lists(nodes, f) && id in Ids(f)
    ensures Unfolds(ById(nodes), StartNodes(nodes), f) && id in ById(nodes)
    ensures var lines := Shown(ById(nodes), o, StartNodes(nodes), f, 0);
      var n := ById(nodes)[id];
      exists above :: Ancestors(ById(nodes), id, above) && (id in LineIds(lines) <==>
        && !NeverShown(n) && (o.interactive ==> CanBeActedOn(n)) && (o.compact ==> !IsNoise(n))
        && (o.maxDepth.Some? ==> CountShown(above, LineIds(lines)) as real <= o.maxDepth.value))
    ensures var lines := Shown(ById(nodes), o, StartNodes(nodes), f, 0);
      var n := ById(nodes)[id];
      forall l :: l in lines && l.id == id ==> l.target == if CanBeActedOn(n) then n.backendDOMNodeId else None
  {
    hide Shown, StartNodes, Unfolds, ById, Emits, Actionable, CanBeActedOn, IsNoise, NeverShown, CountShown,
      Ancestors, LineIds;
    LinesPlaced(nodes, f, o);
    var lines := Shown(ById(nodes), o, StartNodes(nodes), f, 0);
    LinkedParents(ById(nodes), None, f, id);
    var n := ById(nodes)[id];
    assert Placed(ById(nodes), o, LineIds(lines), id);
    var above :| Ancestors(ById(nodes), id, above)
      && (id in LineIds(lines) <==> Emits(o, n, CountShown(above, LineIds(lines))));
    EmitsMeans(o, n, CountShown(above, LineIds(lines)));
    ActionableMeans(n);
  }

  // ----- refs ------------------------------------------------------------------------------

  /** A ref reads `e` and the number in decimal. */
  lemma RefReads(n: nat)
    ensures RefName(n) != [] && RefName(n)[0] == 'e' && Value(RefName(n)[1..]) == n
    ensures forall i :: 1 <= i < |RefName(n)| ==> '0' <= RefName(n)[i] <= '9'
  {
    assert RefName(n)[1..] == Digits(n);
    ValueOfDigits(n);
    forall i | 1 <= i < |RefName(n)| ensures '0' <= RefName(n)[i] <= '9' {
      OnlyDigits(n, i - 1);
      assert RefName(n)[i] == Digits(n)[i - 1];
    }
  }

  lemma RefNameUnique(a: nat, b: nat)
    requires RefName(a) == RefName(b)
    ensures a == b
  {
    assert RefName(a)[1..] == Digits(a) && RefName(b)[1..] == Digits(b);
    ValueOfDigits(a);
    ValueOfDigits(b);
  }

  lemma {:induction false} RefMapNames(targets: seq<nat>, offset: nat, name: string) returns (n: nat)
    requires name in RefMap(targets, offset)
    ensures offset < n <= offset + |targets| && name == RefName(n)
  {
    hide RefName;
    n := offset + |targets|;
    if name != RefName(n) { n := RefMapNames(targets[..|targets| - 1], offset, name); }
  }

  lemma RefMapFresh(targets: seq<nat>, offset: nat, n: nat)
    requires n > offset + |targets|
    ensures RefName(n) !in RefMap(targets, offset)
  {
    if RefName(n) in RefMap(targets, offset) {
      var k := RefMapNames(targets, offset, RefName(n));
      RefNameUnique(n, k);
    }
  }

  /** Each name numbered on from the offset stands for its own element. */
  lemma {:induction false} RefMapAt(targets: seq<nat>, offset: nat, n: nat)
    requires offset < n <= offset + |targets|
    ensures RefName(n) in RefMap(targets, offset) && RefMap(targets, offset)[RefName(n)] == targets[n - offset - 1]
  {
    var last := |targets| - 1;
    if n < offset + |targets| {
      RefMapAt(targets[..last], offset, n);
      RefMapFresh(targets[..last], offset, offset + |targets|);
    }
  }

  lemma {:induction false} RefMapSize(targets: seq<nat>, offset: nat)
    ensures |RefMap(targets, offset)| == |targets|
  {
    if targets != [] {
      RefMapSize(targets[..|targets| - 1], offset);
      RefMapFresh(targets[..|targets| - 1], offset, offset + |targets|);
    }
  }

  lemma {:induction false} NumberedAt(lines: seq<Line>, n: nat, i: nat)
    requires i < |lines|
    ensures Numbered(lines, n)[i].(ref := None) == lines[i].(ref := None)
    ensures lines[i].target.None? ==> Numbered(lines, n)[i] == lines[i]
    ensures lines[i].target.Some? ==>
      Numbered(lines, n)[i].ref == Some(RefName(n + |Targets(lines[..i + 1])|)) && |Targets(lines[..i + 1])| >= 1
  {
    assert lines[..i + 1][1..] == lines[1..][..i];
    if i > 0 {
      NumberedAt(lines[1..], if lines[0].target.Some? then n + 1 else n, i - 1);
      assert lines[1..][..i - 1 + 1] == lines[1..][..i];
    }
  }

  lemma TargetAt(lines: seq<Line>, i: nat)
    requires i < |lines| && lines[i].target.Some?
    ensures 1 <= |Targets(lines[..i + 1])| <= |Targets(lines)|
    ensures Targets(lines)[|Targets(lines[..i + 1])| - 1] == lines[i].target.value
  {
    assert lines[..i + 1] == lines[..i] + [lines[i]];
    TargetsAppend(lines[..i], [lines[i]]);
    assert lines == lines[..i + 1] + lines[i + 1..];
    TargetsAppend(lines[..i + 1], lines[i + 1..]);
  }

  /** A line that acts on something shows a ref, and the table takes that ref to the same element. */
  lemma RefsOfLines(lines: seq<Line>, offset: nat, i: nat)
    requires i < |lines| && lines[i].target.Some?
    ensures var l, refs := Numbered(lines, offset)[i], RefMap(Targets(lines), offset);
      l.ref.Some? && l.ref.value in refs && refs[l.ref.value] == lines[i].target.value
  {
    NumberedAt(lines, offset, i);
    TargetAt(lines, i);
    RefMapAt(Targets(lines), offset, offset + |Targets(lines[..i + 1])|);
  }

  /** Two lines never show the same ref. */
  lemma RefsDiffer(lines: seq<Line>, offset: nat, i: nat, j: nat)
    requires i < j < |lines| && lines[i].target.Some? && lines[j].target.Some?
    ensures Numbered(lines, offset)[i].ref != Numbered(lines, offset)[j].ref
  {
    NumberedAt(lines, offset, i);
    NumberedAt(lines, offset, j);
    assert lines[..j + 1] == lines[..i + 1] + (lines[i + 1..j] + [lines[j]]);
    TargetsAppend(lines[..i + 1], lines[i + 1..j] + [lines[j]]);
    TargetsAppend(lines[i + 1..j], [lines[j]]);
    if Numbered(lines, offset)[i].ref == Numbered(lines, offset)[j].ref {
      RefNameUnique(offset + |Targets(lines[..i + 1])|, offset + |Targets(lines[..j + 1])|);
    }
  }
}
