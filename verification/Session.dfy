/** The refs of a control session (packages/browser/src/session.js, handlers.js `snapshot`, targets.js). */
module Session {
  import opened Wrappers
  import opened Decimal
  import opened AxTree
  import opened Frames
  import opened Snapshot
  import opened SnapshotLines

  /** What happens to a session's refs: a snapshot that shows these elements, or the session's end. */
  datatype Event = Snap(targets: seq<nat>) | Stop

  datatype State = State(refs: map<string, nat>, refCounter: nat)

  function Apply(s: State, e: Event): State {
    match e
    case Snap(targets) => State(RefMap(targets, s.refCounter), s.refCounter + |targets|)
    case Stop => s.(refs := map[])
  }

  /** A new session after these events. */
  function Run(events: seq<Event>): State {
    if events == [] then State(map[], 0) else Apply(Run(events[..|events| - 1]), events[|events| - 1])
  }

  /** What the snapshot looks at. */
  function Page(main: seq<AxNode>, frames: seq<Answer>, expand: bool): seq<AxNode>
    requires |frames| == |main|
  {
    if expand then Spliced(main, frames, |main|) else main
  }

  class Session {
    var refs: map<string, nat>
    var refCounter: nat
    /** What has happened to the session, in order. */
    ghost var events: seq<Event>

    function Abs(): State
      reads this
    {
      State(refs, refCounter)
    }

    ghost predicate Valid()
      reads this
    {
      Abs() == Run(events)
    }

    constructor ()
      ensures Valid() && events == []
    {
      refs, refCounter, events := map[], 0, [];
    }

    /** Take a snapshot of the page: splice, render, and replace the refs wholesale. */
    method Snapshot(
      main: seq<AxNode>, frames: seq<Answer>, expand: bool, options: Options, ghost f: Forest)
      returns (lines: seq<Line>)
      requires Valid() && |frames| == |main|
      requires Unfolds(ById(Page(main, frames, expand)), StartNodes(Page(main, frames, expand)), f)
      modifies this
      ensures lines == Numbered(Shown(ById(Page(main, frames, expand)), options,
        StartNodes(Page(main, frames, expand)), f, 0), old(refCounter))
      ensures Valid() && events == old(events) + [Snap(Targets(lines))]
    {
      hide Spliced, Unfolds, Shown, StartNodes, ById, RefMap, Numbered, Targets, Apply, ACTIONABLE_ROLES, OMIT_ROLES,
        STRUCTURAL_ROLES;
      var nodes := AxTreeWithFrames(main, frames, expand);
      var rendered, table, _ := RenderAxTree(nodes, options, refCounter, f);
      lines := rendered;
      RefMapSize(Targets(lines), refCounter);
      refs := map[];
      refs := refs + table;
      assert refs == table;
      refCounter := refCounter + |table|;
      Taken(old(Abs()), Targets(lines), Abs());
      RunMore(events, Snap(Targets(lines)));
      events := events + [Snap(Targets(lines))];
    }

    lemma Taken(before: State, targets: seq<nat>, after: State)
      requires after.refs == RefMap(targets, before.refCounter) && after.refCounter == before.refCounter + |targets|
      ensures after == Apply(before, Snap(targets))
    {
    }

    method StopSession()
      requires Valid()
      modifies this
      ensures Valid() && events == old(events) + [Stop]
    {
      RunMore(events, Stop);
      refs := map[];
      events := events + [Stop];
    }

    /** The element of a ref: the one the last snapshot showed it for, and an unknown-ref error for every
        ref of an earlier snapshot, of a stopped session, or of none. */
    method ResolveRef(ref: string) returns (backend: Option<nat>)
      requires Valid()
      ensures forall i :: 0 <= i < |events| && ref in Given(events, i) ==>
        backend == if i == |events| - 1 then Some(Given(events, i)[ref]) else None
      ensures (forall i :: 0 <= i < |events| ==> ref !in Given(events, i)) ==> backend == None
    {
      hide Given, Run;
      if ref in refs { backend := Some(refs[ref]); } else { backend := None; }
      forall i | 0 <= i < |events| && ref in Given(events, i)
        ensures backend == if i == |events| - 1 then Some(Given(events, i)[ref]) else None
      {
        RefNeverChanges(events, i, ref);
      }
      if ref in refs { OnlyGivenRefs(events, ref); }
    }
  }

  lemma RunMore(events: seq<Event>, e: Event)
    ensures Run(events + [e]) == Apply(Run(events), e)
  {
    assert (events + [e])[..|events|] == events;
  }

  /** The snapshot of a page with frames: it ends, meets every node of every tree once, and every line is in its
      place. */
  lemma PageSnapshot(main: seq<AxNode>, frames: seq<Answer>, f: Forest, trees: seq<Forest>, o: Options)
    requires WellFormed(main, frames, f, trees)
    ensures var page, g := Spliced(main, frames, |main|), SplicedForest(main, frames, f, trees, |main|);
      && Unfolds(ById(page), StartNodes(page), g)
      && NoDuplicates(Ids(g)) && (forall id :: id in Ids(g) <==> id in IdsOf(page))
      && var lines := Shown(ById(page), o, StartNodes(page), g, 0);
      && LineIds(lines) == OnlyShown(Ids(g), LineIds(lines))
      && AllPlaced(ById(page), o, lines, g, LineIds(lines))
  {
    assert |frames| == |main| == |trees|;
    hide *;
    SplicedIsForest(main, frames, f, trees);
    var page, g := Spliced(main, frames, |main|), SplicedForest(main, frames, f, trees, |main|);
    WalkEnds(page, g);
    LinesPlaced(page, g, o);
  }

  /** A node of the frame of the j-th node, and the id it has in the page. */
  function FrameId(main: seq<AxNode>, frames: seq<Answer>, j: nat, n: AxNode): string
    requires |frames| == |main| && j < |main| && Expands(main[j], frames[j])
  {
    "f" + Digits(main[j].backendDOMNodeId.value) + ":" + n.nodeId
  }

  /** The table has the frame's node under its id, with what is to be seen of it and acted on. */
  lemma FrameNodeFound(main: seq<AxNode>, frames: seq<Answer>, f: Forest, trees: seq<Forest>, j: nat, i: nat)
    requires WellFormed(main, frames, f, trees) && j < |main| && Expands(main[j], frames[j]) && i < |frames[j].value|
    ensures var (page, n) := (Spliced(main, frames, |main|), frames[j].value[i]);
      && FrameId(main, frames, j, n) in Ids(SplicedForest(main, frames, f, trees, |main|))
      && FrameId(main, frames, j, n) in ById(page) && SameElement(ById(page)[FrameId(main, frames, j, n)], n)
  {
    assert |frames| == |main| == |trees|;
    var (page, n) := (Spliced(main, frames, |main|), frames[j].value[i]);
    var id := FrameId(main, frames, j, n);
    SplicedHolds(main, frames, |main|, j, i);
    SplicedIsForest(main, frames, f, trees);
    hide Spliced, SplicedForest, WellFormed, Ids, Linked, Distinct, ById;
    var p :| 0 <= p < |page| && page[p].nodeId == id && SameElement(page[p], n);
    assert IdsOf(page)[p] == id;
    ByIdFinds(page, p);
  }

  /**
   * A node of a frame is shown in the page's snapshot by the same rules as any other, and where it can be acted
   * on its line shows a ref that the session takes to the node's own element.
   */
  lemma FrameRefsResolve(
    main: seq<AxNode>, frames: seq<Answer>, f: Forest, trees: seq<Forest>, o: Options, j: nat, i: nat, offset: nat)
    requires WellFormed(main, frames, f, trees) && j < |main| && Expands(main[j], frames[j]) && i < |frames[j].value|
    ensures var (page, g) := (Spliced(main, frames, |main|), SplicedForest(main, frames, f, trees, |main|));
      var (n, id) := (frames[j].value[i], FrameId(main, frames, j, frames[j].value[i]));
      && Unfolds(ById(page), StartNodes(page), g)
      && var lines := Shown(ById(page), o, StartNodes(page), g, 0);
      && (exists above :: Ancestors(ById(page), id, above) && (id in LineIds(lines) <==>
            && !NeverShown(n) && (o.interactive ==> CanBeActedOn(n)) && (o.compact ==> !IsNoise(n))
            && (o.maxDepth.Some? ==> CountShown(above, LineIds(lines)) as real <= o.maxDepth.value)))
      && (CanBeActedOn(n) ==> forall l :: 0 <= l < |lines| && lines[l].id == id ==>
            var ref := Numbered(lines, offset)[l].ref;
            && ref.Some? && ref.value in RefMap(Targets(lines), offset)
            && RefMap(Targets(lines), offset)[ref.value] == n.backendDOMNodeId.value)
  {
    assert |frames| == |main| == |trees|;
    FrameNodeFound(main, frames, f, trees, j, i);
    SplicedIsForest(main, frames, f, trees);
    var (page, g) := (Spliced(main, frames, |main|), SplicedForest(main, frames, f, trees, |main|));
    var (n, id) := (frames[j].value[i], FrameId(main, frames, j, frames[j].value[i]));
    SameIsShownAlike(ById(page)[id], n);
    hide *;
    WhoIsShown(page, g, o, id);
    var lines := Shown(ById(page), o, StartNodes(page), g, 0);
    if CanBeActedOn(n) { FrameLines(lines, offset, id, n); }
  }

  lemma SameIsShownAlike(a: AxNode, b: AxNode)
    requires SameElement(a, b)
    ensures CanBeActedOn(a) == CanBeActedOn(b) && IsNoise(a) == IsNoise(b) && NeverShown(a) == NeverShown(b)
    ensures a.backendDOMNodeId == b.backendDOMNodeId
    ensures CanBeActedOn(b) ==> b.backendDOMNodeId.Some?
  {
  }

  lemma FrameLines(lines: seq<Line>, offset: nat, id: string, n: AxNode)
    requires n.backendDOMNodeId.Some? && forall l :: l in lines && l.id == id ==> l.target == n.backendDOMNodeId
    ensures forall l :: 0 <= l < |lines| && lines[l].id == id ==>
      var ref := Numbered(lines, offset)[l].ref;
      && ref.Some? && ref.value in RefMap(Targets(lines), offset)
      && RefMap(Targets(lines), offset)[ref.value] == n.backendDOMNodeId.value
  {
    hide Numbered, RefMap, Targets;
    forall l | 0 <= l < |lines| && lines[l].id == id
      ensures var ref := Numbered(lines, offset)[l].ref;
        && ref.Some? && ref.value in RefMap(Targets(lines), offset)
        && RefMap(Targets(lines), offset)[ref.value] == n.backendDOMNodeId.value
    {
      assert lines[l] in lines;
      RefsOfLines(lines, offset, l);
    }
  }

  // ----- runs ------------------------------------------------------------------------------

  /** The table the i-th event of a run hands out. */
  function Given(events: seq<Event>, i: nat): map<string, nat>
    requires i < |events|
  {
    if events[i].Snap? then RefMap(events[i].targets, Run(events[..i]).refCounter) else map[]
  }

  lemma {:induction false} CounterGrows(events: seq<Event>, i: nat)
    requires i <= |events|
    ensures Run(events[..i]).refCounter <= Run(events).refCounter
  {
    if i < |events| {
      var n := |events| - 1;
      CounterGrows(events[..n], i);
      assert events[..n][..i] == events[..i];
    } else {
      assert events[..i] == events;
    }
  }

  /** Names come from between the counter before a snapshot and the counter after it. */
  lemma GivenNumbers(events: seq<Event>, i: nat, name: string) returns (n: nat)
    requires i < |events| && name in Given(events, i)
    ensures Run(events[..i]).refCounter < n <= Run(events[..i + 1]).refCounter && name == RefName(n)
  {
    n := RefMapNames(events[i].targets, Run(events[..i]).refCounter, name);
    assert events[..i + 1][..i] == events[..i];
  }

  /** No name is given out by two snapshots of a session. */
  lemma NamesDisjoint(events: seq<Event>, i: nat, j: nat)
    requires i < j < |events|
    ensures Given(events, i).Keys !! Given(events, j).Keys
  {
    if name :| name in Given(events, i) && name in Given(events, j) {
      var m := GivenNumbers(events, i, name);
      var n := GivenNumbers(events, j, name);
      assert events[..j][..i + 1] == events[..i + 1];
      CounterGrows(events[..j], i + 1);
      assert m < n;
      RefNameUnique(m, n);
    }
  }

  /** The table in force is the one the last event handed out. */
  lemma TableIsLast(events: seq<Event>)
    requires events != []
    ensures Run(events).refs == Given(events, |events| - 1)
  {
  }

  /**
   * A ref handed out by any snapshot of a session resolves exactly until the next snapshot or the
   * end, and only to the element it was handed out for.
   */
  lemma RefNeverChanges(events: seq<Event>, i: nat, name: string)
    requires i < |events| && name in Given(events, i)
    ensures name in Run(events).refs <==> i == |events| - 1
    ensures name in Run(events).refs ==> Run(events).refs[name] == Given(events, i)[name]
  {
    hide *;
    TableIsLast(events);
    if i < |events| - 1 { NamesDisjoint(events, i, |events| - 1); }
  }

  /** A ref no snapshot handed out is unknown. */
  lemma OnlyGivenRefs(events: seq<Event>, name: string)
    requires name in Run(events).refs
    ensures exists i :: 0 <= i < |events| && name in Given(events, i)
  {
    assert events != [];
    TableIsLast(events);
  }
}
