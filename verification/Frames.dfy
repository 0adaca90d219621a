/** Frame trees spliced into the main tree (packages/browser/src/handlers.js, `axTreeWithFrames`). */
module Frames {
  import opened Wrappers
  import opened Decimal
  import opened AxTree

  function LowerChar(c: char): char { if 'A' <= c <= 'Z' then c - 'A' + 'a' else c }

  function Lower(s: string): string { seq(|s|, i requires 0 <= i < |s| => LowerChar(s[i])) }

  function Prefix(backend: nat): string { "f" + Digits(backend) + ":" }

  /** What the page answers for one node's frame: nothing when it refuses, has none or throws. */
  type Answer = Option<seq<AxNode>>

  /** The node is an iframe whose content can be had. */
  predicate Expands(n: AxNode, answer: Answer) {
    Lower(n.role) == "iframe" && n.backendDOMNodeId.Some? && answer.Some? && answer.value != []
  }

  /** A frame's node renamed; a parentless one is put below the iframe. */
  function Rooted(n: AxNode, prefix: string, host: string): AxNode {
    n.(nodeId := prefix + n.nodeId,
       parentId := if n.parentId.Some? && prefix + n.parentId.value != "" then Some(prefix + n.parentId.value)
         else Some(host),
       childIds := Prefixed(prefix, n.childIds))
  }

  function Prefixed(prefix: string, ids: seq<string>): (r: seq<string>)
    ensures |r| == |ids|
  {
    seq(|ids|, i requires 0 <= i < |ids| => prefix + ids[i])
  }

  function RootedAll(frame: seq<AxNode>, prefix: string, host: string): (r: seq<AxNode>)
    ensures |r| == |frame|
  {
    seq(|frame|, i requires 0 <= i < |frame| => Rooted(frame[i], prefix, host))
  }

  /** The ids of the nodes whose parent is `host`. */
  function ChildrenOf(nodes: seq<AxNode>, host: string): seq<string> {
    if nodes == [] then []
    else
      ChildrenOf(nodes[..|nodes| - 1], host)
      + (if nodes[|nodes| - 1].parentId == Some(host) then [nodes[|nodes| - 1].nodeId] else [])
  }

  function SpliceOne(nodes: seq<AxNode>, i: nat, backend: nat, frame: seq<AxNode>): (r: seq<AxNode>)
    requires i < |nodes|
    ensures |r| == |nodes| + |frame|
  {
    var rooted := RootedAll(frame, Prefix(backend), nodes[i].nodeId);
    nodes[i := nodes[i].(childIds := nodes[i].childIds + ChildrenOf(rooted, nodes[i].nodeId))] + rooted
  }

  /** The list after the first `k` nodes of the main tree have been looked at. */
  function Spliced(main: seq<AxNode>, frames: seq<Answer>, k: nat): (r: seq<AxNode>)
    requires |frames| == |main| && k <= |main|
    ensures |main| <= |r|
  {
    if k == 0 then main
    else
      var before := Spliced(main, frames, k - 1);
      if Expands(main[k - 1], frames[k - 1])
      then SpliceOne(before, k - 1, main[k - 1].backendDOMNodeId.value, frames[k - 1].value)
      else before
  }

  method AxTreeWithFrames(main: seq<AxNode>, frames: seq<Answer>, expand: bool) returns (nodes: seq<AxNode>)
    requires |frames| == |main|
    ensures nodes == if expand then Spliced(main, frames, |main|) else main
  {
    nodes := main;
    if !expand { return; }
    var i := 0;
    while i < |main|
      invariant i <= |main|
      invariant nodes == Spliced(main, frames, i)
    {
      if Lower(main[i].role) == "iframe" && main[i].backendDOMNodeId.Some? && frames[i].Some?
        && |frames[i].value| != 0 {
        var frame := frames[i].value;
        var prefix := Prefix(main[i].backendDOMNodeId.value);
        var host := nodes[i].nodeId;
        var rooted: seq<AxNode> := [];
        var children: seq<string> := [];
        var j := 0;
        while j < |frame|
          invariant j <= |frame|
          invariant rooted == RootedAll(frame[..j], prefix, host)
          invariant children == ChildrenOf(rooted, host)
        {
          var node := Rooted(frame[j], prefix, host);
          RootedMore(frame, prefix, host, j);
          assert (rooted + [node])[..|rooted|] == rooted;
          rooted := rooted + [node];
          if node.parentId == Some(host) { children := children + [node.nodeId]; }
          j := j + 1;
        }
        assert frame[..j] == frame;
        nodes := nodes[i := nodes[i].(childIds := nodes[i].childIds + children)] + rooted;
      }
      i := i + 1;
    }
  }

  lemma RootedMore(frame: seq<AxNode>, prefix: string, host: string, j: nat)
    requires j < |frame|
    ensures RootedAll(frame[..j + 1], prefix, host) ==
      RootedAll(frame[..j], prefix, host) + [Rooted(frame[j], prefix, host)]
  {
  }

  // ----- one frame -------------------------------------------------------------------------

  function Renamed(f: Forest, prefix: string): Forest {
    match f case Nil => Nil case Node(id, kids, rest) => Node(prefix + id, Renamed(kids, prefix), Renamed(rest, prefix))
  }

  predicate StartsWith(s: string, prefix: string) { |prefix| <= |s| && s[..|prefix|] == prefix }

  lemma PrefixedStarts(prefix: string, x: string)
    ensures StartsWith(prefix + x, prefix) && (prefix + x)[|prefix|..] == x
  {
  }

  lemma {:induction false} RenamedRootIds(f: Forest, prefix: string)
    ensures RootIds(Renamed(f, prefix)) == Prefixed(prefix, RootIds(f))
  {
    match f
    case Nil =>
    case Node(id, kids, rest) =>
      RenamedRootIds(rest, prefix);
      assert Prefixed(prefix, [id] + RootIds(rest)) == [prefix + id] + Prefixed(prefix, RootIds(rest));
  }

  lemma {:induction false} RenamedIds(f: Forest, prefix: string)
    ensures Ids(Renamed(f, prefix)) == Prefixed(prefix, Ids(f))
  {
    match f
    case Nil =>
    case Node(id, kids, rest) =>
      RenamedIds(kids, prefix);
      RenamedIds(rest, prefix);
      assert Prefixed(prefix, [id] + Ids(kids) + Ids(rest)) ==
        [prefix + id] + Prefixed(prefix, Ids(kids)) + Prefixed(prefix, Ids(rest));
  }

  lemma PrefixedIn(prefix: string, ids: seq<string>, y: string)
    ensures y in Prefixed(prefix, ids) <==> StartsWith(y, prefix) && y[|prefix|..] in ids
  {
    if y in Prefixed(prefix, ids) {
      var i :| 0 <= i < |ids| && Prefixed(prefix, ids)[i] == y;
      PrefixedStarts(prefix, ids[i]);
    }
    if StartsWith(y, prefix) && y[|prefix|..] in ids {
      var i :| 0 <= i < |ids| && ids[i] == y[|prefix|..];
      assert y == prefix + ids[i];
      assert Prefixed(prefix, ids)[i] == y;
    }
  }

  lemma RenamedIn(f: Forest, prefix: string, y: string)
    ensures y in Ids(Renamed(f, prefix)) <==> StartsWith(y, prefix) && y[|prefix|..] in Ids(f)
  {
    RenamedIds(f, prefix);
    PrefixedIn(prefix, Ids(f), y);
  }

  lemma {:induction false} RenamedDistinct(f: Forest, prefix: string)
    requires Distinct(f)
    ensures Distinct(Renamed(f, prefix))
  {
    match f
    case Nil =>
    case Node(id, kids, rest) =>
      RenamedDistinct(kids, prefix);
      RenamedDistinct(rest, prefix);
      PrefixedStarts(prefix, id);
      forall y ensures y in Ids(Renamed(kids, prefix)) <==>
        StartsWith(y, prefix) && y[|prefix|..] in Ids(kids) { RenamedIn(kids, prefix, y); }
      forall y ensures y in Ids(Renamed(rest, prefix)) <==>
        StartsWith(y, prefix) && y[|prefix|..] in Ids(rest) { RenamedIn(rest, prefix, y); }
  }

  /** The parent a renamed node is given. */
  function RenamedParent(parent: Option<string>, prefix: string, host: string): Option<string> {
    if parent.None? then Some(host) else Some(prefix + parent.value)
  }

  lemma {:induction false} LinkedRenamed(
    m: map<string, AxNode>, m': map<string, AxNode>, parent: Option<string>, g: Forest, prefix: string, host: string)
    requires Linked(m, parent, g) && prefix != ""
    requires forall x :: x in Ids(g) && x in m ==> prefix + x in m' && m'[prefix + x] == Rooted(m[x], prefix, host)
    ensures Linked(m', RenamedParent(parent, prefix, host), Renamed(g, prefix))
    decreases g
  {
    match g
    case Nil =>
    case Node(id, kids, rest) =>
      assert forall x :: x in Ids(kids) || x in Ids(rest) || x == id ==> x in Ids(g);
      LinkedRenamed(m, m', Some(id), kids, prefix, host);
      LinkedRenamed(m, m', parent, rest, prefix, host);
      RenamedRootIds(kids, prefix);
  }

  /** The children the iframe gains are the renamed roots of its frame. */
  lemma {:induction false} ChildrenAreRoots(frame: seq<AxNode>, prefix: string, host: string)
    requires prefix != "" && !StartsWith(host, prefix)
    requires forall n :: n in frame ==> n.parentId != Some("")
    ensures ChildrenOf(RootedAll(frame, prefix, host), host) == Prefixed(prefix, IdsOf(RootsOf(frame)))
  {
    if frame != [] {
      var k := |frame| - 1;
      var last := frame[k];
      ChildrenAreRoots(frame[..k], prefix, host);
      var rooted := RootedAll(frame, prefix, host);
      assert rooted[..k] == RootedAll(frame[..k], prefix, host);
      assert last in frame;
      var roots := RootsOf(frame[..k]);
      if IsRoot(last) {
        assert Prefixed(prefix, IdsOf(roots + [last])) == Prefixed(prefix, IdsOf(roots)) + [prefix + last.nodeId];
      } else {
        PrefixedStarts(prefix, last.parentId.value);
        assert roots + [] == roots;
      }
    }
  }

  lemma {:induction false} RootsOfAppend(a: seq<AxNode>, b: seq<AxNode>)
    requires forall n :: n in b ==> !IsRoot(n)
    ensures RootsOf(a + b) == RootsOf(a)
  {
    if b == [] {
      assert a + b == a;
    } else {
      var k := |b| - 1;
      assert (a + b)[..|a + b| - 1] == a + b[..k];
      RootsOfAppend(a, b[..k]);
      assert b[k] in b;
    }
  }

  /** New children change neither which nodes are roots nor their ids. */
  lemma {:induction false} RootsOfUpdate(a: seq<AxNode>, i: nat, childIds: seq<string>)
    requires i < |a|
    ensures IdsOf(RootsOf(a[i := a[i].(childIds := childIds)])) == IdsOf(RootsOf(a))
  {
    var k := |a| - 1;
    var a' := a[i := a[i].(childIds := childIds)];
    if i < k {
      assert a'[..k] == a[..k][i := a[i].(childIds := childIds)];
      RootsOfUpdate(a[..k], i, childIds);
      assert a'[k] == a[k];
      IdsOfAppend(RootsOf(a[..k]), if IsRoot(a[k]) then [a[k]] else []);
      IdsOfAppend(RootsOf(a'[..k]), if IsRoot(a[k]) then [a[k]] else []);
    } else {
      assert a'[..k] == a[..k];
    }
  }

  lemma IdsOfAppend(a: seq<AxNode>, b: seq<AxNode>)
    ensures IdsOf(a + b) == IdsOf(a) + IdsOf(b)
  {
  }

  lemma NoDuplicatesAppend(a: seq<string>, b: seq<string>)
    requires NoDuplicates(a) && NoDuplicates(b) && forall x :: x in a ==> x !in b
    ensures NoDuplicates(a + b)
  {
    var s := a + b;
    forall i, j | 0 <= i < j < |s| ensures s[i] != s[j] {
      if i < |a| <= j { assert s[i] in a && s[j] in b; }
    }
  }

  lemma PrefixedNoDuplicates(prefix: string, a: seq<string>)
    requires NoDuplicates(a)
    ensures NoDuplicates(Prefixed(prefix, a))
  {
    forall i, j | 0 <= i < j < |a| ensures Prefixed(prefix, a)[i] != Prefixed(prefix, a)[j] {
      PrefixedStarts(prefix, a[i]);
      PrefixedStarts(prefix, a[j]);
    }
  }

  /** Where one frame goes, and what may go wrong there: nothing may already be called as its nodes will be. */
  ghost predicate Fits(nodes: seq<AxNode>, i: nat, backend: nat, f: Forest, frame: seq<AxNode>, g: Forest) {
    && i < |nodes| && Lists(nodes, f) && Lists(frame, g)
    && (forall id :: id in Ids(f) ==> !StartsWith(id, Prefix(backend)))
  }

  function Grown(f: Forest, host: string, backend: nat, g: Forest): Forest {
    Attach(f, host, Renamed(g, Prefix(backend)))
  }

  lemma SpliceIds(nodes: seq<AxNode>, i: nat, backend: nat, frame: seq<AxNode>)
    requires i < |nodes|
    ensures IdsOf(SpliceOne(nodes, i, backend, frame)) == IdsOf(nodes) + Prefixed(Prefix(backend), IdsOf(frame))
  {
  }

  lemma SpliceNoDuplicates(nodes: seq<AxNode>, i: nat, backend: nat, f: Forest, frame: seq<AxNode>, g: Forest)
    requires Fits(nodes, i, backend, f, frame, g)
    ensures NoDuplicates(IdsOf(SpliceOne(nodes, i, backend, frame)))
  {
    var p := Prefix(backend);
    SpliceIds(nodes, i, backend, frame);
    PrefixedNoDuplicates(p, IdsOf(frame));
    forall x | x in IdsOf(nodes) ensures x !in Prefixed(p, IdsOf(frame)) { PrefixedIn(p, IdsOf(frame), x); }
    NoDuplicatesAppend(IdsOf(nodes), Prefixed(p, IdsOf(frame)));
  }

  lemma FrameParents(frame: seq<AxNode>, g: Forest)
    requires Lists(frame, g)
    ensures forall n :: n in frame ==> n.parentId != Some("")
  {
    forall n | n in frame ensures n.parentId != Some("") {
      var k :| 0 <= k < |frame| && frame[k] == n;
      assert IdsOf(frame)[k] == n.nodeId;
      ByIdFinds(frame, k);
      LinkedParents(ById(frame), None, g, n.nodeId);
    }
  }

  lemma SpliceRoots(nodes: seq<AxNode>, i: nat, backend: nat, f: Forest, frame: seq<AxNode>, g: Forest)
    requires Fits(nodes, i, backend, f, frame, g)
    ensures IdsOf(RootsOf(SpliceOne(nodes, i, backend, frame))) == RootIds(f)
    ensures ChildrenOf(RootedAll(frame, Prefix(backend), nodes[i].nodeId), nodes[i].nodeId) ==
      RootIds(Renamed(g, Prefix(backend)))
  {
    var p, host := Prefix(backend), nodes[i].nodeId;
    var rooted := RootedAll(frame, p, host);
    assert IdsOf(nodes)[i] == host;
    FrameParents(frame, g);
    ChildrenAreRoots(frame, p, host);
    RenamedRootIds(g, p);
    var kids := ChildrenOf(rooted, host);
    RootsOfUpdate(nodes, i, nodes[i].childIds + kids);
    RootsOfAppend(nodes[i := nodes[i].(childIds := nodes[i].childIds + kids)], rooted);
  }

  /** A node of the main tree in the table of the spliced list. */
  lemma TableMain(nodes: seq<AxNode>, i: nat, backend: nat, f: Forest, frame: seq<AxNode>, g: Forest, k: nat)
    requires Fits(nodes, i, backend, f, frame, g) && k < |nodes|
    ensures var x, m, m' := nodes[k].nodeId, ById(nodes), ById(SpliceOne(nodes, i, backend, frame));
      && x in m && x in m'
      && m'[x] == if k == i then m[x].(childIds := m[x].childIds + RootIds(Renamed(g, Prefix(backend)))) else m[x]
  {
    hide ById, Ids, RootIds, Linked, Distinct;
    SpliceNoDuplicates(nodes, i, backend, f, frame, g);
    SpliceRoots(nodes, i, backend, f, frame, g);
    ByIdFinds(nodes, k);
    ByIdFinds(SpliceOne(nodes, i, backend, frame), k);
  }

  /** A node of the frame in the table of the spliced list. */
  lemma TableFrame(nodes: seq<AxNode>, i: nat, backend: nat, f: Forest, frame: seq<AxNode>, g: Forest, k: nat)
    requires Fits(nodes, i, backend, f, frame, g) && k < |frame|
    ensures var p, x, m, m' := Prefix(backend), frame[k].nodeId, ById(frame), ById(SpliceOne(nodes, i, backend, frame));
      x in m && p + x in m' && m'[p + x] == Rooted(m[x], p, nodes[i].nodeId)
  {
    hide ById, Ids, RootIds, Linked, Distinct, Prefix;
    SpliceNoDuplicates(nodes, i, backend, f, frame, g);
    ByIdFinds(frame, k);
    ByIdFinds(SpliceOne(nodes, i, backend, frame), |nodes| + k);
  }

  /** What the table of the spliced list holds. */
  lemma SpliceTable(nodes: seq<AxNode>, i: nat, backend: nat, f: Forest, frame: seq<AxNode>, g: Forest)
    requires Fits(nodes, i, backend, f, frame, g)
    ensures var p, host, m, m' := Prefix(backend), nodes[i].nodeId, ById(nodes),
      ById(SpliceOne(nodes, i, backend, frame));
      && host in m && host in m' && m'[host] == m[host].(childIds := m[host].childIds + RootIds(Renamed(g, p)))
      && (forall x :: x in Ids(f) && x in m && x != host ==> x in m' && m'[x] == m[x])
      && (forall x :: x in Ids(g) && x in ById(frame) ==> p + x in m' && m'[p + x] == Rooted(ById(frame)[x], p, host))
  {
    hide ById, Ids, RootIds, Linked, Distinct, Prefix, SpliceOne, Rooted;
    var p, host, m, m' := Prefix(backend), nodes[i].nodeId, ById(nodes), ById(SpliceOne(nodes, i, backend, frame));
    TableMain(nodes, i, backend, f, frame, g, i);
    forall x | x in Ids(f) && x != host ensures x in m && x in m' && m'[x] == m[x] {
      var k :| 0 <= k < |nodes| && IdsOf(nodes)[k] == x;
      TableMain(nodes, i, backend, f, frame, g, k);
    }
    forall x | x in Ids(g) ensures x in ById(frame) && p + x in m' && m'[p + x] == Rooted(ById(frame)[x], p, host) {
      var k :| 0 <= k < |frame| && IdsOf(frame)[k] == x;
      TableFrame(nodes, i, backend, f, frame, g, k);
    }
  }

  lemma SpliceMembers(nodes: seq<AxNode>, i: nat, backend: nat, f: Forest, frame: seq<AxNode>, g: Forest)
    requires Fits(nodes, i, backend, f, frame, g)
    ensures forall id :: id in IdsOf(SpliceOne(nodes, i, backend, frame)) <==>
      id in Ids(Grown(f, nodes[i].nodeId, backend, g))
    ensures forall id :: id in Ids(Grown(f, nodes[i].nodeId, backend, g)) <==>
      id in Ids(f) || (StartsWith(id, Prefix(backend)) && id[|Prefix(backend)|..] in Ids(g))
  {
    var p := Prefix(backend);
    SpliceIds(nodes, i, backend, frame);
    assert IdsOf(nodes)[i] == nodes[i].nodeId;
    AttachIds(f, nodes[i].nodeId, Renamed(g, p));
    forall y ensures y in Ids(Renamed(g, p)) <==> StartsWith(y, p) && y[|p|..] in Ids(g) { RenamedIn(g, p, y); }
    forall y ensures y in Prefixed(p, IdsOf(frame)) <==>
      StartsWith(y, p) && y[|p|..] in IdsOf(frame) { PrefixedIn(p, IdsOf(frame), y); }
  }

  /** One frame spliced in: a well-formed list again, with the same roots, and the frame's tree below its iframe. */
  lemma SpliceOneLists(nodes: seq<AxNode>, i: nat, backend: nat, f: Forest, frame: seq<AxNode>, g: Forest)
    requires Fits(nodes, i, backend, f, frame, g)
    ensures Lists(SpliceOne(nodes, i, backend, frame), Grown(f, nodes[i].nodeId, backend, g))
    ensures RootIds(Grown(f, nodes[i].nodeId, backend, g)) == RootIds(f)
  {
    var p, host, m, m' := Prefix(backend), nodes[i].nodeId, ById(nodes), ById(SpliceOne(nodes, i, backend, frame));
    SpliceNoDuplicates(nodes, i, backend, f, frame, g);
    SpliceRoots(nodes, i, backend, f, frame, g);
    SpliceTable(nodes, i, backend, f, frame, g);
    SpliceMembers(nodes, i, backend, f, frame, g);
    RenamedDistinct(g, p);
    forall y | y in Ids(f) ensures y !in Ids(Renamed(g, p)) { RenamedIn(g, p, y); }
    AttachDistinct(f, host, Renamed(g, p));
    AttachIds(f, host, Renamed(g, p));
    LinkedRenamed(ById(frame), m', None, g, p, host);
    LinkedAttach(m, m', None, f, host, Renamed(g, p));
  }

  // ----- all frames ------------------------------------------------------------------------

  /** What the page promises: trees that are trees, no main id that looks like a frame's, no two iframes of one
      element. */
  ghost predicate WellFormed(main: seq<AxNode>, frames: seq<Answer>, f: Forest, trees: seq<Forest>) {
    && |frames| == |main| == |trees|
    && Lists(main, f)
    && (forall i :: 0 <= i < |main| && Expands(main[i], frames[i]) ==> Lists(frames[i].value, trees[i]))
    && (forall id, b: nat :: id in Ids(f) ==> !StartsWith(id, Prefix(b)))
    && (forall i, j ::
      0 <= i < j < |main| && Expands(main[i], frames[i]) && Expands(main[j], frames[j]) ==>
      main[i].backendDOMNodeId != main[j].backendDOMNodeId)
  }

  /** The forest of the page with the first `k` nodes' frames in place. */
  function SplicedForest(main: seq<AxNode>, frames: seq<Answer>, f: Forest, trees: seq<Forest>, k: nat): Forest
    requires |frames| == |main| == |trees| && k <= |main|
  {
    if k == 0 then f
    else
      var before := SplicedForest(main, frames, f, trees, k - 1);
      if Expands(main[k - 1], frames[k - 1])
      then Grown(before, main[k - 1].nodeId, main[k - 1].backendDOMNodeId.value, trees[k - 1])
      else before
  }

  /** Id of a node of the j-th iframe's content. */
  predicate FromFrame(main: seq<AxNode>, frames: seq<Answer>, trees: seq<Forest>, j: nat, id: string)
    requires |frames| == |main| == |trees| && j < |main|
  {
    && Expands(main[j], frames[j])
    && var p := Prefix(main[j].backendDOMNodeId.value);
    && StartsWith(id, p) && id[|p|..] in Ids(trees[j])
  }

  /** The first nodes stay those of the main tree, but for the children they gain. */
  lemma {:induction false} SplicedKeeps(main: seq<AxNode>, frames: seq<Answer>, k: nat, i: nat)
    requires |frames| == |main| && k <= |main| && i < |main|
    ensures Spliced(main, frames, k)[i] == main[i].(childIds := Spliced(main, frames, k)[i].childIds)
    ensures k <= i ==> Spliced(main, frames, k)[i] == main[i]
  {
    if k > 0 { SplicedKeeps(main, frames, k - 1, i); }
  }

  lemma PrefixesDiffer(a: nat, b: nat, id: string)
    requires StartsWith(id, Prefix(a)) && StartsWith(id, Prefix(b))
    ensures a == b
  {
    var x, y := id[|Prefix(a)|..], id[|Prefix(b)|..];
    assert id == Prefix(a) + x == Prefix(b) + y;
    assert id[1..] == Digits(a) + ":" + x;
    assert id[1..] == Digits(b) + ":" + y;
    DigitsThenColon(a, b, x, y);
  }

  ghost predicate SplicedWell(main: seq<AxNode>, frames: seq<Answer>, f: Forest, trees: seq<Forest>, k: nat)
    requires |frames| == |main| == |trees| && k <= |main|
  {
    && Lists(Spliced(main, frames, k), SplicedForest(main, frames, f, trees, k))
    && RootIds(SplicedForest(main, frames, f, trees, k)) == RootIds(f)
    && (forall id :: id in Ids(SplicedForest(main, frames, f, trees, k)) <==>
        id in Ids(f) || exists j :: 0 <= j < k && FromFrame(main, frames, trees, j, id))
  }

  lemma NextFits(main: seq<AxNode>, frames: seq<Answer>, f: Forest, trees: seq<Forest>, k: nat)
    requires WellFormed(main, frames, f, trees) && k < |main|
    requires SplicedWell(main, frames, f, trees, k) && Expands(main[k], frames[k])
    ensures Fits(Spliced(main, frames, k), k, main[k].backendDOMNodeId.value,
      SplicedForest(main, frames, f, trees, k), frames[k].value, trees[k])
  {
    var b := main[k].backendDOMNodeId.value;
    forall id | id in Ids(SplicedForest(main, frames, f, trees, k)) ensures !StartsWith(id, Prefix(b)) {
      if StartsWith(id, Prefix(b)) {
        assert id !in Ids(f);
        var j :| 0 <= j < k && FromFrame(main, frames, trees, j, id);
        PrefixesDiffer(main[j].backendDOMNodeId.value, b, id);
      }
    }
  }

  lemma Sizes(main: seq<AxNode>, frames: seq<Answer>, f: Forest, trees: seq<Forest>)
    requires WellFormed(main, frames, f, trees)
    ensures |frames| == |main| == |trees|
  {
  }

  lemma SplicedNone(main: seq<AxNode>, frames: seq<Answer>, f: Forest, trees: seq<Forest>)
    requires WellFormed(main, frames, f, trees)
    ensures SplicedWell(main, frames, f, trees, 0)
  {
    hide Lists, Ids, RootIds;
  }

  lemma SplicedSame(main: seq<AxNode>, frames: seq<Answer>, f: Forest, trees: seq<Forest>, k: nat)
    requires |frames| == |main| == |trees| && k < |main|
    requires SplicedWell(main, frames, f, trees, k) && !Expands(main[k], frames[k])
    ensures SplicedWell(main, frames, f, trees, k + 1)
  {
    hide Lists, Expands, Grown, RootIds, Ids;
    assert forall id :: !FromFrame(main, frames, trees, k, id);
  }

  lemma SplicedMore(main: seq<AxNode>, frames: seq<Answer>, f: Forest, trees: seq<Forest>, k: nat)
    requires |frames| == |main| == |trees| && k < |main|
    requires SplicedWell(main, frames, f, trees, k) && Expands(main[k], frames[k])
    requires Fits(Spliced(main, frames, k), k, main[k].backendDOMNodeId.value,
      SplicedForest(main, frames, f, trees, k), frames[k].value, trees[k])
    ensures SplicedWell(main, frames, f, trees, k + 1)
  {
    hide Lists, Grown, SpliceOne, Fits, Prefix, RootIds, Ids;
    var before, tree := Spliced(main, frames, k), SplicedForest(main, frames, f, trees, k);
    var b := main[k].backendDOMNodeId.value;
    SplicedKeeps(main, frames, k, k);
    SpliceOneLists(before, k, b, tree, frames[k].value, trees[k]);
    SpliceMembers(before, k, b, tree, frames[k].value, trees[k]);
    var after := SplicedForest(main, frames, f, trees, k + 1);
    assert after == Grown(tree, main[k].nodeId, b, trees[k]);
    hide Spliced, SplicedForest, Expands;
    forall id ensures id in Ids(after) <==>
      id in Ids(f) || exists j :: 0 <= j < k + 1 && FromFrame(main, frames, trees, j, id) {
      assert id in Ids(after) <==> id in Ids(tree) || FromFrame(main, frames, trees, k, id);
    }
  }

  lemma {:induction false} SplicedLists(main: seq<AxNode>, frames: seq<Answer>, f: Forest, trees: seq<Forest>, k: nat)
    requires WellFormed(main, frames, f, trees) && k <= |main|
    ensures SplicedWell(main, frames, f, trees, k)
  {
    hide *;
    Sizes(main, frames, f, trees);
    if k == 0 {
      SplicedNone(main, frames, f, trees);
    } else {
      SplicedLists(main, frames, f, trees, k - 1);
      if Expands(main[k - 1], frames[k - 1]) {
        NextFits(main, frames, f, trees, k - 1);
        SplicedMore(main, frames, f, trees, k - 1);
      } else {
        SplicedSame(main, frames, f, trees, k - 1);
      }
    }
  }

  /** The whole splice: a well-formed list of the page's forest, unique ids, the main tree's roots, every frame's
      nodes. */
  lemma SplicedIsForest(main: seq<AxNode>, frames: seq<Answer>, f: Forest, trees: seq<Forest>)
    requires WellFormed(main, frames, f, trees)
    ensures var r, g := Spliced(main, frames, |main|), SplicedForest(main, frames, f, trees, |main|);
      && Lists(r, g) && RootIds(g) == RootIds(f) && NoDuplicates(Ids(g))
      && forall id :: id in IdsOf(r) <==>
        id in IdsOf(main) || exists j :: 0 <= j < |main| && FromFrame(main, frames, trees, j, id)
  {
    SplicedLists(main, frames, f, trees, |main|);
    DistinctLists(SplicedForest(main, frames, f, trees, |main|));
  }

  // ----- what the frames' nodes keep -------------------------------------------------------

  /** The same thing to see and to act on, whatever its id and its links. */
  predicate SameElement(a: AxNode, b: AxNode) {
    a.role == b.role && a.name == b.name && a.backendDOMNodeId == b.backendDOMNodeId && a.ignored == b.ignored
  }

  /** Some node of this id shows the same element. */
  ghost predicate Holds(nodes: seq<AxNode>, id: string, n: AxNode) {
    exists p :: 0 <= p < |nodes| && nodes[p].nodeId == id && SameElement(nodes[p], n)
  }

  lemma SpliceHolds(nodes: seq<AxNode>, i: nat, backend: nat, frame: seq<AxNode>, id: string, n: AxNode)
    requires i < |nodes| && Holds(nodes, id, n)
    ensures Holds(SpliceOne(nodes, i, backend, frame), id, n)
  {
    var p :| 0 <= p < |nodes| && nodes[p].nodeId == id && SameElement(nodes[p], n);
    var r := SpliceOne(nodes, i, backend, frame);
    assert r[p].nodeId == id && SameElement(r[p], n);
  }

  lemma SpliceBrings(nodes: seq<AxNode>, i: nat, backend: nat, frame: seq<AxNode>, k: nat)
    requires i < |nodes| && k < |frame|
    ensures Holds(SpliceOne(nodes, i, backend, frame), "f" + Digits(backend) + ":" + frame[k].nodeId, frame[k])
  {
    var r := SpliceOne(nodes, i, backend, frame);
    assert r[|nodes| + k] == RootedAll(frame, Prefix(backend), nodes[i].nodeId)[k];
    assert r[|nodes| + k].nodeId == "f" + Digits(backend) + ":" + frame[k].nodeId;
  }

  lemma {:induction false} SplicedHolds(main: seq<AxNode>, frames: seq<Answer>, k: nat, j: nat, i: nat)
    requires |frames| == |main| && j < k <= |main| && Expands(main[j], frames[j]) && i < |frames[j].value|
    ensures var n := frames[j].value[i];
      Holds(Spliced(main, frames, k), "f" + Digits(main[j].backendDOMNodeId.value) + ":" + n.nodeId, n)
  {
    var n := frames[j].value[i];
    var before := Spliced(main, frames, k - 1);
    hide Holds, SpliceOne;
    if j == k - 1 {
      SpliceBrings(before, j, main[j].backendDOMNodeId.value, frames[j].value, i);
    } else {
      SplicedHolds(main, frames, k - 1, j, i);
      if Expands(main[k - 1], frames[k - 1]) {
        SpliceHolds(before, k - 1, main[k - 1].backendDOMNodeId.value, frames[k - 1].value,
          "f" + Digits(main[j].backendDOMNodeId.value) + ":" + n.nodeId, n);
      }
    }
  }

  /** Every node of every expanded frame is in the page under the prefixed id, with the role, name, element and
      ignored flag it had. */
  lemma FrameNodesKept(main: seq<AxNode>, frames: seq<Answer>, j: nat, i: nat)
    requires |frames| == |main| && j < |main| && Expands(main[j], frames[j]) && i < |frames[j].value|
    ensures var n := frames[j].value[i];
      exists p :: 0 <= p < |Spliced(main, frames, |main|)|
        && var m := Spliced(main, frames, |main|)[p];
        && m.nodeId == "f" + Digits(main[j].backendDOMNodeId.value) + ":" + n.nodeId
        && m.role == n.role && m.name == n.name && m.backendDOMNodeId == n.backendDOMNodeId && m.ignored == n.ignored
  {
    SplicedHolds(main, frames, |main|, j, i);
    var nodes := Spliced(main, frames, |main|);
    var n := frames[j].value[i];
    var id := "f" + Digits(main[j].backendDOMNodeId.value) + ":" + n.nodeId;
    var p :| 0 <= p < |nodes| && nodes[p].nodeId == id && SameElement(nodes[p], n);
    assert nodes[p].nodeId == id;
  }

  /** A node's frame is spliced in exactly if the node is an iframe, whatever the case of its role, has an element,
      and the page answers for it with at least one node. */
  lemma WhatExpands(n: AxNode, answer: Answer)
    ensures Expands(n, answer) <==>
      && |n.role| == 6 && (forall i :: 0 <= i < 6 ==> n.role[i] == "iframe"[i] || n.role[i] == "IFRAME"[i])
      && n.backendDOMNodeId.Some? && answer.Some? && |answer.value| > 0
  {
    hide Lower;
    IframeRole(n.role);
  }

  /** A role is an iframe's whatever the case of its six letters, and no other role is. */
  lemma IframeRole(role: string)
    ensures Lower(role) == "iframe" <==>
      |role| == 6 && forall i :: 0 <= i < 6 ==> role[i] == "iframe"[i] || role[i] == "IFRAME"[i]
  {
    var word := "iframe";
    if Lower(role) == word {
      forall i | 0 <= i < 6 ensures role[i] == "iframe"[i] || role[i] == "IFRAME"[i] {
        assert Lower(role)[i] == LowerChar(role[i]) == word[i];
      }
    }
    if |role| == 6 && forall i :: 0 <= i < 6 ==> role[i] == "iframe"[i] || role[i] == "IFRAME"[i] {
      forall i | 0 <= i < 6 ensures Lower(role)[i] == word[i] {
        assert role[i] == "iframe"[i] || role[i] == "IFRAME"[i];
      }
      assert Lower(role) == word;
    }
  }
}
