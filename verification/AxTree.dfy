/** The nodes of an accessibility tree, and the forests they stand for (packages/browser/src). */
module AxTree {
  import opened Wrappers

  datatype AxNode = AxNode(
    nodeId: string,
    parentId: Option<string>,
    childIds: seq<string>,
    role: string,
    name: string,
    backendDOMNodeId: Option<nat>,
    ignored: bool)

  /** `!node.parentId`: the empty string counts as no parent. */
  predicate IsRoot(n: AxNode) { n.parentId.None? || n.parentId.value == "" }

  // ----- forests ---------------------------------------------------------------------------

  /** A forest of ids: a first tree with its children, and the trees beside it. */
  datatype Forest = Nil | Node(id: string, kids: Forest, rest: Forest)

  function RootIds(f: Forest): seq<string> {
    match f case Nil => [] case Node(id, _, rest) => [id] + RootIds(rest)
  }

  /** The ids of a forest, parents before children, siblings in order. */
  function Ids(f: Forest): seq<string> {
    match f case Nil => [] case Node(id, kids, rest) => [id] + Ids(kids) + Ids(rest)
  }

  predicate Disjoint(f: Forest, g: Forest) { forall id :: id in Ids(f) ==> id !in Ids(g) }

  /** No id stands twice in the forest. */
  predicate Distinct(f: Forest) {
    match f
    case Nil => true
    case Node(id, kids, rest) =>
      id !in Ids(kids) && id !in Ids(rest) && Disjoint(kids, rest) && Distinct(kids) && Distinct(rest)
  }

  function Concat(f: Forest, g: Forest): Forest {
    match f case Nil => g case Node(id, kids, rest) => Node(id, kids, Concat(rest, g))
  }

  /** `g` added to the children of the node `id`. */
  function Attach(f: Forest, id: string, g: Forest): Forest {
    match f
    case Nil => Nil
    case Node(i, kids, rest) => Node(i, if i == id then Concat(kids, g) else Attach(kids, id, g), Attach(rest, id, g))
  }

  // ----- node lists ------------------------------------------------------------------------

  function IdsOf(nodes: seq<AxNode>): (s: seq<string>)
    ensures |s| == |nodes|
  {
    seq(|nodes|, i requires 0 <= i < |nodes| => nodes[i].nodeId)
  }

  predicate NoDuplicates(s: seq<string>) { forall i, j :: 0 <= i < j < |s| ==> s[i] != s[j] }

  /** `byId`: a later node of the same id would win. */
  function ById(nodes: seq<AxNode>): map<string, AxNode> {
    if nodes == [] then map[]
    else ById(nodes[..|nodes| - 1])[nodes[|nodes| - 1].nodeId := nodes[|nodes| - 1]]
  }

  /** `nodes.filter((node) => !node.parentId)`. */
  function RootsOf(nodes: seq<AxNode>): seq<AxNode> {
    if nodes == [] then []
    else RootsOf(nodes[..|nodes| - 1]) + (if IsRoot(nodes[|nodes| - 1]) then [nodes[|nodes| - 1]] else [])
  }

  /** The links of the nodes are those of the forest, below a given parent. */
  predicate Linked(byId: map<string, AxNode>, parent: Option<string>, f: Forest)
    decreases f
  {
    match f
    case Nil => true
    case Node(id, kids, rest) =>
      && id in byId && byId[id].nodeId == id && byId[id].parentId == parent && byId[id].childIds == RootIds(kids)
      && Linked(byId, Some(id), kids) && Linked(byId, parent, rest)
  }

  /** A well-formed node list: it lists the nodes of a forest, each once, with its links. */
  ghost predicate Lists(nodes: seq<AxNode>, f: Forest) {
    && NoDuplicates(IdsOf(nodes)) && Distinct(f)
    && (forall id :: id in IdsOf(nodes) <==> id in Ids(f))
    && "" !in Ids(f)
    && Linked(ById(nodes), None, f)
    && IdsOf(RootsOf(nodes)) == RootIds(f)
  }

  // ----- small facts -----------------------------------------------------------------------

  /** A distinct forest lists each of its ids once. */
  lemma {:induction false} DistinctLists(f: Forest)
    requires Distinct(f)
    ensures NoDuplicates(Ids(f))
  {
    match f
    case Nil =>
    case Node(id, kids, rest) =>
      DistinctLists(kids);
      DistinctLists(rest);
      var s := Ids(f);
      var n := |Ids(kids)|;
      forall i, j | 0 <= i < j < |s| ensures s[i] != s[j] {
        if i == 0 {
          assert s[j] in Ids(kids) || s[j] in Ids(rest);
        } else if j <= n {
          assert Ids(kids)[i - 1] != Ids(kids)[j - 1];
        } else if i <= n {
          assert Ids(kids)[i - 1] in Ids(kids) && Ids(rest)[j - 1 - n] in Ids(rest);
        } else {
          assert Ids(rest)[i - 1 - n] != Ids(rest)[j - 1 - n];
        }
      }
  }

  lemma {:induction false} RootIdsAreIds(f: Forest)
    ensures forall id :: id in RootIds(f) ==> id in Ids(f)
  {
    match f case Nil => case Node(_, _, rest) => RootIdsAreIds(rest);
  }

  lemma {:induction false} ConcatIds(f: Forest, g: Forest)
    ensures RootIds(Concat(f, g)) == RootIds(f) + RootIds(g)
    ensures Ids(Concat(f, g)) == Ids(f) + Ids(g)
  {
    match f
    case Nil =>
    case Node(id, kids, rest) =>
      ConcatIds(rest, g);
      calc {
        Ids(Concat(f, g));
        [id] + Ids(kids) + (Ids(rest) + Ids(g));
        Ids(f) + Ids(g);
      }
  }

  lemma {:induction false} ConcatDistinct(f: Forest, g: Forest)
    requires Distinct(f) && Distinct(g) && Disjoint(f, g)
    ensures Distinct(Concat(f, g))
  {
    match f
    case Nil =>
    case Node(id, kids, rest) =>
      assert id in Ids(f) && forall x :: x in Ids(kids) || x in Ids(rest) ==> x in Ids(f);
      ConcatDistinct(rest, g);
      ConcatIds(rest, g);
  }

  lemma {:induction false} AttachIds(f: Forest, id: string, g: Forest)
    ensures RootIds(Attach(f, id, g)) == RootIds(f)
    ensures forall x :: x in Ids(f) ==> x in Ids(Attach(f, id, g))
    ensures forall x :: x in Ids(Attach(f, id, g)) ==> x in Ids(f) || (id in Ids(f) && x in Ids(g))
    ensures id in Ids(f) ==> forall x :: x in Ids(g) ==> x in Ids(Attach(f, id, g))
  {
    match f
    case Nil =>
    case Node(i, kids, rest) =>
      AttachIds(kids, id, g);
      AttachIds(rest, id, g);
      ConcatIds(kids, g);
      var kids' := if i == id then Concat(kids, g) else Attach(kids, id, g);
      assert Ids(Attach(f, id, g)) == [i] + Ids(kids') + Ids(Attach(rest, id, g));
  }

  lemma {:induction false} AttachDistinct(f: Forest, id: string, g: Forest)
    requires Distinct(f) && Distinct(g) && Disjoint(f, g)
    ensures Distinct(Attach(f, id, g))
  {
    match f
    case Nil =>
    case Node(i, kids, rest) =>
      assert forall x :: x in Ids(kids) || x in Ids(rest) ==> x in Ids(f);
      AttachDistinct(kids, id, g);
      AttachDistinct(rest, id, g);
      AttachIds(kids, id, g);
      AttachIds(rest, id, g);
      ConcatIds(kids, g);
      assert i in Ids(f);
      ConcatDistinct(kids, g);
  }

  lemma {:induction false} LinkedConcat(m: map<string, AxNode>, parent: Option<string>, f: Forest, g: Forest)
    requires Linked(m, parent, f) && Linked(m, parent, g)
    ensures Linked(m, parent, Concat(f, g))
  {
    match f case Nil => case Node(_, _, rest) => LinkedConcat(m, parent, rest, g);
  }

  /** Links depend only on the nodes they are about. */
  lemma {:induction false} LinkedFrame(
    m: map<string, AxNode>, m': map<string, AxNode>, parent: Option<string>, f: Forest)
    requires Linked(m, parent, f)
    requires forall id :: id in Ids(f) && id in m ==> id in m' && m'[id] == m[id]
    ensures Linked(m', parent, f)
    decreases f
  {
    match f
    case Nil =>
    case Node(id, kids, rest) =>
      assert forall x :: x in Ids(kids) || x in Ids(rest) || x == id ==> x in Ids(f);
      LinkedFrame(m, m', Some(id), kids);
      LinkedFrame(m, m', parent, rest);
  }

  /** A node whose child list grows by the roots of `g` carries `g` among its children. */
  lemma {:induction false} LinkedAttach(
    m: map<string, AxNode>, m': map<string, AxNode>, parent: Option<string>, f: Forest, id: string, g: Forest)
    requires Linked(m, parent, f) && Distinct(f) && Linked(m', Some(id), g)
    requires id in m && id in m' && m'[id] == m[id].(childIds := m[id].childIds + RootIds(g))
    requires forall x :: x in Ids(f) && x in m && x != id ==> x in m' && m'[x] == m[x]
    ensures Linked(m', parent, Attach(f, id, g))
    decreases f
  {
    match f
    case Nil =>
    case Node(i, kids, rest) =>
      assert forall x :: x in Ids(kids) || x in Ids(rest) || x == i ==> x in Ids(f);
      LinkedAttach(m, m', parent, rest, id, g);
      if i == id {
        LinkedFrame(m, m', Some(id), kids);
        LinkedConcat(m', Some(id), kids, g);
        ConcatIds(kids, g);
      } else {
        LinkedAttach(m, m', Some(i), kids, id, g);
        AttachIds(kids, id, g);
      }
  }

  /** Every node hangs below another of its forest, or below the forest's own parent. */
  lemma {:induction false} LinkedParents(m: map<string, AxNode>, parent: Option<string>, f: Forest, id: string)
    requires Linked(m, parent, f) && id in Ids(f)
    ensures id in m && m[id].nodeId == id
    ensures m[id].parentId == parent || (m[id].parentId.Some? && m[id].parentId.value in Ids(f))
    decreases f
  {
    var Node(i, kids, rest) := f;
    assert i in Ids(f) && forall x :: x in Ids(kids) || x in Ids(rest) ==> x in Ids(f);
    if id in Ids(kids) { LinkedParents(m, Some(i), kids, id); }
    else if id in Ids(rest) { LinkedParents(m, parent, rest, id); }
  }

  lemma NoDuplicatesPrefix(s: seq<string>, n: nat)
    requires NoDuplicates(s) && n <= |s|
    ensures NoDuplicates(s[..n])
  {
  }

  lemma {:induction false} ByIdFinds(nodes: seq<AxNode>, i: nat)
    requires i < |nodes| && NoDuplicates(IdsOf(nodes))
    ensures nodes[i].nodeId in ById(nodes) && ById(nodes)[nodes[i].nodeId] == nodes[i]
  {
    var n := |nodes| - 1;
    if i < n {
      assert IdsOf(nodes)[..n] == IdsOf(nodes[..n]);
      NoDuplicatesPrefix(IdsOf(nodes), n);
      ByIdFinds(nodes[..n], i);
      assert IdsOf(nodes)[i] != IdsOf(nodes)[n];
    }
  }

  lemma {:induction false} ByIdOnly(nodes: seq<AxNode>, id: string)
    ensures id in ById(nodes) <==> id in IdsOf(nodes)
    ensures id in ById(nodes) ==> ById(nodes)[id].nodeId == id
  {
    if nodes != [] {
      var n := |nodes| - 1;
      ByIdOnly(nodes[..n], id);
      assert IdsOf(nodes) == IdsOf(nodes[..n]) + [nodes[n].nodeId];
    }
  }
}
