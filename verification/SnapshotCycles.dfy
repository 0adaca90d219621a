/** When the walk over a page ends (packages/browser/src/snapshot.js): exactly when no node can be reached from
    itself. */
module SnapshotCycles {
  import opened Wrappers
  import opened AxTree
  import opened Snapshot

  predicate Child(byId: map<string, AxNode>, parent: AxNode, child: AxNode) { child in Found(byId, parent.childIds) }

  /** A way down from one of these nodes, child by child. */
  predicate Way(byId: map<string, AxNode>, nodes: seq<AxNode>, way: seq<AxNode>) {
    && (way != [] ==> way[0] in nodes)
    && forall k :: 0 <= k < |way| - 1 ==> Child(byId, way[k], way[k + 1])
  }

  /** A way that comes back to where it was. */
  predicate Returns(byId: map<string, AxNode>, nodes: seq<AxNode>, way: seq<AxNode>, i: nat, j: nat) {
    Way(byId, nodes, way) && i < j < |way| && way[i] == way[j]
  }

  ghost predicate Cyclic(byId: map<string, AxNode>, nodes: seq<AxNode>) {
    exists way, i, j :: Returns(byId, nodes, way, i, j)
  }

  // ----- a finite unfolding bounds every way -----------------------------------------------------

  function Height(f: Forest): nat {
    match f
    case Nil => 0
    case Node(_, kids, rest) => if Height(kids) + 1 > Height(rest) then Height(kids) + 1 else Height(rest)
  }

  lemma {:induction false} WayFits(byId: map<string, AxNode>, nodes: seq<AxNode>, f: Forest, way: seq<AxNode>)
    requires Unfolds(byId, nodes, f) && Way(byId, nodes, way)
    ensures |way| <= Height(f)
    decreases f
  {
    hide Found;
    if way != [] {
      if way[0] == nodes[0] {
        assert |way| > 1 ==> Child(byId, way[0], way[1]);
        assert Way(byId, Found(byId, nodes[0].childIds), way[1..]);
        WayFits(byId, Found(byId, nodes[0].childIds), f.kids, way[1..]);
      } else {
        WayFits(byId, nodes[1..], f.rest, way);
      }
    }
  }

  /** Going round once more. */
  lemma {:induction false} RoundAgain(
    byId: map<string, AxNode>, nodes: seq<AxNode>, way: seq<AxNode>, i: nat, j: nat, n: nat)
    returns (longer: seq<AxNode>)
    requires Returns(byId, nodes, way, i, j)
    ensures Returns(byId, nodes, longer, i, j) && |longer| >= n
    decreases n - |way|
  {
    if |way| >= n { return way; }
    longer := way[..j + 1] + way[i + 1..];
    forall k | 0 <= k < |longer| - 1 ensures Child(byId, longer[k], longer[k + 1]) {
      if k == j {
        assert longer[k] == way[i] && longer[k + 1] == way[i + 1];
      } else if k > j {
        assert longer[k] == way[i + k - j] && longer[k + 1] == way[i + k - j + 1];
      }
    }
    longer := RoundAgain(byId, nodes, longer, i, j, n);
  }

  lemma CyclicNeverEnds(byId: map<string, AxNode>, nodes: seq<AxNode>, f: Forest)
    requires Cyclic(byId, nodes)
    ensures !Unfolds(byId, nodes, f)
  {
    if Unfolds(byId, nodes, f) {
      var way, i: nat, j: nat :| Returns(byId, nodes, way, i, j);
      var longer := RoundAgain(byId, nodes, way, i, j, Height(f) + 1);
      WayFits(byId, nodes, f, longer);
    }
  }

  // ----- without cycles the unfolding is finite ---------------------------------------------------

  lemma {:induction false} FoundIsKnown(byId: map<string, AxNode>, ids: seq<string>, n: AxNode)
    requires n in Found(byId, ids)
    ensures n in byId.Values
  {
    if !(ids[0] in byId && n == byId[ids[0]]) { FoundIsKnown(byId, ids[1..], n); }
  }

  lemma {:induction false} NoMoreThan(s: seq<AxNode>, known: set<AxNode>)
    requires (forall i :: 0 <= i < |s| ==> s[i] in known) && forall i, j :: 0 <= i < j < |s| ==> s[i] != s[j]
    ensures |s| <= |known|
  {
    if s != [] {
      NoMoreThan(s[1..], known - {s[0]});
    }
  }

  lemma WayIsShort(byId: map<string, AxNode>, nodes: seq<AxNode>, way: seq<AxNode>)
    requires !Cyclic(byId, nodes) && Way(byId, nodes, way)
    ensures |way| <= |byId.Values| + 1
  {
    if way != [] {
      var below := way[1..];
      forall i | 0 <= i < |below| ensures below[i] in byId.Values {
        assert Child(byId, way[i], way[i + 1]);
        FoundIsKnown(byId, way[i].childIds, below[i]);
      }
      forall i, j | 0 <= i < j < |below| ensures below[i] != below[j] {
        assert !Returns(byId, nodes, way, i + 1, j + 1);
      }
      NoMoreThan(below, byId.Values);
    }
  }

  /** The nodes' forest, down to a depth. */
  function Grow(byId: map<string, AxNode>, nodes: seq<AxNode>, depth: nat): Forest
    decreases depth, |nodes|
  {
    if nodes == [] || depth == 0 then Nil
    else Node(nodes[0].nodeId, Grow(byId, Found(byId, nodes[0].childIds), depth - 1), Grow(byId, nodes[1..], depth))
  }

  lemma {:induction false} ShortWaysUnfold(byId: map<string, AxNode>, nodes: seq<AxNode>, depth: nat)
    requires forall way :: Way(byId, nodes, way) ==> |way| <= depth
    ensures Unfolds(byId, nodes, Grow(byId, nodes, depth))
    decreases depth, |nodes|
  {
    if nodes != [] {
      var kids := Found(byId, nodes[0].childIds);
      assert Way(byId, nodes, [nodes[0]]);
      hide Way, Found;
      forall way | Way(byId, kids, way) ensures |way| <= depth - 1 { WayFromAbove(byId, nodes, way); }
      ShortWaysUnfold(byId, kids, depth - 1);
      forall way | Way(byId, nodes[1..], way) ensures |way| <= depth { WayBeside(byId, nodes, way); }
      ShortWaysUnfold(byId, nodes[1..], depth);
    }
  }

  lemma WayFromAbove(byId: map<string, AxNode>, nodes: seq<AxNode>, way: seq<AxNode>)
    requires nodes != [] && Way(byId, Found(byId, nodes[0].childIds), way)
    ensures Way(byId, nodes, [nodes[0]] + way)
  {
    var longer := [nodes[0]] + way;
    forall k | 0 <= k < |longer| - 1 ensures Child(byId, longer[k], longer[k + 1]) {
      if k > 0 { assert Child(byId, way[k - 1], way[k]); }
    }
  }

  lemma WayBeside(byId: map<string, AxNode>, nodes: seq<AxNode>, way: seq<AxNode>)
    requires nodes != [] && Way(byId, nodes[1..], way)
    ensures Way(byId, nodes, way)
  {
  }

  /** The walk from these nodes ends if and only if no node it reaches can be reached from itself. */
  lemma EndsIffAcyclic(byId: map<string, AxNode>, nodes: seq<AxNode>)
    ensures (exists f :: Unfolds(byId, nodes, f)) <==> !Cyclic(byId, nodes)
  {
    if Cyclic(byId, nodes) {
      forall f ensures !Unfolds(byId, nodes, f) { CyclicNeverEnds(byId, nodes, f); }
    } else {
      forall way | Way(byId, nodes, way) ensures |way| <= |byId.Values| + 1 { WayIsShort(byId, nodes, way); }
      ShortWaysUnfold(byId, nodes, |byId.Values| + 1);
    }
  }

  const LOOP := AxNode("1", None, ["1"], "group", "", None, false)

  lemma LoopReturns()
    ensures Cyclic(ById([LOOP]), [LOOP])
  {
    ByIdFinds([LOOP], 0);
    assert LOOP.childIds == ["1"] && LOOP.childIds[1..] == [];
    hide ById;
    assert Found(ById([LOOP]), LOOP.childIds) == [LOOP];
    assert Child(ById([LOOP]), LOOP, LOOP);
    assert Returns(ById([LOOP]), [LOOP], [LOOP, LOOP], 0, 1);
  }

  /** A page of one node that is its own child. */
  lemma LoopNeverEnds(f: Forest)
    ensures !Unfolds(ById([LOOP]), StartNodes([LOOP]), f)
  {
    assert [LOOP][..0] == [] && RootsOf([LOOP]) == [LOOP];
    LoopReturns();
    hide Unfolds, RootsOf, ById;
    CyclicNeverEnds(ById([LOOP]), [LOOP], f);
  }
}
