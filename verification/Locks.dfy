/**
 The per-key lock (packages/core/src/locks.ts).

 A call of `run` is cut at its awaits into atomic steps.  The promise that a call leaves in the
 table is identified by the number of the call, so comparing tails is comparing numbers.  Promise
 reactions may run in any order the promises allow: every interleaving is a list of steps.
 */
module Locks {
  import opened Wrappers

  datatype Outcome = Fulfilled | Rejected

  /** Where a call of `run` stands. */
  datatype Phase =
    | Waiting                      // suspended in `await earlier`
    | Running                      // `work` has been called and has not settled
    | Settled(outcome: Outcome)    // `work` has settled, `finally` has not run yet
    | Released(outcome: Outcome)   // `finally` has run: `mine` is resolved

  datatype Call = Call(
    key: string,
    earlier: Option<nat>,  // the tail found in the table on entry
    phase: Phase,
    chained: bool,         // the reaction of `earlier.then(() => mine)` has run
    resolved: bool,        // this call's tail is resolved
    forgotten: bool)       // the reaction of `tail.then(...)` has run

  /** The lock table, every call ever made, and the calls in the order their works were started. */
  datatype Table = Table(tails: map<string, nat>, calls: seq<Call>, starts: seq<nat>)

  datatype Step =
    | Enter(key: string)
    | Wake(i: nat)
    | Settle(i: nat, outcome: Outcome)
    | Release(i: nat)
    | Chain(i: nat)
    | Adopt(i: nat)
    | Forget(i: nat)

  const EMPTY := Table(map[], [], [])

  predicate TailResolved(calls: seq<Call>, tail: Option<nat>) {
    tail.Some? && tail.value < |calls| && calls[tail.value].resolved
  }

  /** Which steps the promises allow.  `Settle` is the work's own doing; a new call may always enter. */
  predicate Enabled(t: Table, step: Step) {
    step.Enter? ||
    (step.i < |t.calls| &&
     var c := t.calls[step.i];
     match step
     case Wake(_) => c.phase.Waiting? && TailResolved(t.calls, c.earlier)
     case Settle(_, _) => c.phase.Running?
     case Release(_) => c.phase.Settled?
     case Chain(_) => !c.chained && TailResolved(t.calls, c.earlier)
     case Adopt(_) => c.chained && c.phase.Released? && !c.resolved
     case Forget(_) => c.phase.Released? && c.resolved && !c.forgotten)
  }

  function WithCall(t: Table, i: nat, c: Call): Table
    requires i < |t.calls|
  {
    t.(calls := t.calls[i := c])
  }

  /** One step. */
  function Next(t: Table, step: Step): Table
    requires Enabled(t, step)
  {
    match step
    case Enter(key) =>
      var n := |t.calls|;
      if key in t.tails then
        Table(t.tails[key := n],
              t.calls + [Call(key, Some(t.tails[key]), Waiting, false, false, false)], t.starts)
      else
        Table(t.tails[key := n],
              t.calls + [Call(key, None, Running, false, false, false)], t.starts + [n])
    case Wake(i) => WithCall(t, i, t.calls[i].(phase := Running)).(starts := t.starts + [i])
    case Settle(i, outcome) => WithCall(t, i, t.calls[i].(phase := Settled(outcome)))
    case Release(i) =>
      var c := t.calls[i];
      WithCall(t, i, c.(phase := Released(c.phase.outcome), resolved := c.earlier.None?))
    case Chain(i) => WithCall(t, i, t.calls[i].(chained := true))
    case Adopt(i) => WithCall(t, i, t.calls[i].(resolved := true))
    case Forget(i) =>
      var c := t.calls[i];
      var forgot := WithCall(t, i, c.(forgotten := true));
      if c.key in t.tails && t.tails[c.key] == i then forgot.(tails := t.tails - {c.key}) else forgot
  }

  /** A run of the lock: steps the promises cannot take yet are skipped. */
  function Exec(t: Table, steps: seq<Step>): Table
    decreases |steps|
  {
    if steps == [] then t
    else Exec(if Enabled(t, steps[0]) then Next(t, steps[0]) else t, steps[1..])
  }

  // ----- the class -------------------------------------------------------------------------

  /** `KeyedMutex`: one method per stretch of `run` between two awaits. */
  class KeyedMutex {
    var tails: map<string, nat>
    var calls: seq<Call>
    var starts: seq<nat>

    ghost function View(): Table reads this { Table(tails, calls, starts) }

    ghost predicate Valid() reads this { Inv(View()) }

    constructor ()
      ensures Valid() && View() == EMPTY
    {
      tails, calls, starts := map[], [], [];
    }

    /** `run` up to its first suspension: queue behind the tail, or call `work` at once. */
    method Run(key: string) returns (id: nat)
      requires Valid()
      modifies this
      ensures Valid() && id == old(|calls|) && View() == Next(old(View()), Enter(key))
    {
      id := |calls|;
      InvStep(View(), Enter(key));
      if key in tails {
        calls := calls + [Call(key, Some(tails[key]), Waiting, false, false, false)];
      } else {
        calls := calls + [Call(key, None, Running, false, false, false)];
        starts := starts + [id];
      }
      tails := tails[key := id];
    }

    /** `await earlier` returns and `work` is called. */
    method AfterEarlier(i: nat)
      requires Valid() && Enabled(View(), Wake(i))
      modifies this
      ensures Valid() && View() == Next(old(View()), Wake(i))
    {
      InvStep(View(), Wake(i));
      calls := calls[i := calls[i].(phase := Running)];
      starts := starts + [i];
    }

    /** The `finally` block: `release()`, which resolves `mine`. */
    method Finally(i: nat)
      requires Valid() && Enabled(View(), Release(i))
      modifies this
      ensures Valid() && View() == Next(old(View()), Release(i))
    {
      InvStep(View(), Release(i));
      var c := calls[i];
      calls := calls[i := c.(phase := Released(c.phase.outcome), resolved := c.earlier.None?)];
    }

    /** The reaction `tail.then(...)`: the key is dropped only if the tail is still this call's. */
    method AfterTail(i: nat)
      requires Valid() && Enabled(View(), Forget(i))
      modifies this
      ensures Valid() && View() == Next(old(View()), Forget(i))
    {
      InvStep(View(), Forget(i));
      var key := calls[i].key;
      calls := calls[i := calls[i].(forgotten := true)];
      if key in tails && tails[key] == i {
        tails := tails - {key};
      }
    }

    /** `held`: true exactly while the newest call on the key has not been forgotten. */
    method Held(key: string) returns (held: bool)
      requires Valid()
      ensures held <==> exists i :: Newest(calls, key, i) && !calls[i].forgotten
      ensures !held ==> forall i :: 0 <= i < |calls| && calls[i].key == key ==> calls[i].phase.Released?
    {
      HeldMeans(View(), key);
      held := key in tails;
    }
  }

  // ----- what every step keeps -------------------------------------------------------------

  predicate Newest(calls: seq<Call>, key: string, i: int) {
    && 0 <= i < |calls| && calls[i].key == key
    && forall j :: i < j < |calls| ==> calls[j].key != key
  }

  /** A call waits for the call just before it on its key, or found nobody unfinished before it. */
  ghost predicate Linked(calls: seq<Call>, i: int)
    requires 0 <= i < |calls|
  {
    match calls[i].earlier
    case None => forall q :: 0 <= q < i && calls[q].key == calls[i].key ==> calls[q].resolved
    case Some(p) =>
      && p < i && calls[p].key == calls[i].key
      && forall q :: p < q < i ==> calls[q].key != calls[i].key
  }

  ghost predicate Sound(calls: seq<Call>, i: int)
    requires 0 <= i < |calls|
  {
    var c := calls[i];
    && (c.phase.Waiting? ==> c.earlier.Some?)
    && (!c.phase.Waiting? && c.earlier.Some? ==> TailResolved(calls, c.earlier))
    && (c.chained ==> TailResolved(calls, c.earlier))
    && (c.resolved ==> c.phase.Released? && (c.earlier.Some? ==> c.chained))
    && (c.phase.Released? && c.earlier.None? ==> c.resolved)
    && (c.forgotten ==> c.resolved)
  }

  ghost predicate CallsOk(calls: seq<Call>) {
    && (forall i :: 0 <= i < |calls| ==> Linked(calls, i))
    && (forall i :: 0 <= i < |calls| ==> Sound(calls, i))
    && (forall i, q :: 0 <= q < i < |calls| && calls[q].key == calls[i].key && calls[i].resolved
          ==> calls[q].resolved)
  }

  /** The table names the newest call of each key that has an unforgotten newest call. */
  ghost predicate TailsOk(t: Table) {
    && (forall key :: key in t.tails ==> Newest(t.calls, key, t.tails[key]) && !t.calls[t.tails[key]].forgotten)
    && (forall i :: 0 <= i < |t.calls| && t.calls[i].key !in t.tails ==> t.calls[i].resolved)
    && (forall i :: 0 <= i < |t.calls| && !t.calls[i].forgotten && Newest(t.calls, t.calls[i].key, i)
          ==> t.calls[i].key in t.tails)
  }

  ghost predicate Inv(t: Table) {
    CallsOk(t.calls) && TailsOk(t) && StartsInOrder(t)
  }

  /** Exactly the calls that left `Waiting` have started, once each, in call order on every key. */
  ghost predicate StartsInOrder(t: Table) {
    && (forall a :: 0 <= a < |t.starts| ==> t.starts[a] < |t.calls| && !t.calls[t.starts[a]].phase.Waiting?)
    && (forall i :: 0 <= i < |t.calls| && !t.calls[i].phase.Waiting? ==> i in t.starts)
    && (forall a, b :: 0 <= a < b < |t.starts| && t.calls[t.starts[a]].key == t.calls[t.starts[b]].key
          ==> t.starts[a] < t.starts[b])
  }

  /** Whoever has started, everyone before it on its key has a resolved tail. */
  lemma EarlierResolved(t: Table, q: nat, i: nat)
    requires Inv(t) && q < i < |t.calls| && t.calls[q].key == t.calls[i].key
    requires !t.calls[i].phase.Waiting?
    ensures t.calls[q].resolved && t.calls[q].phase.Released?
  {
    assert Linked(t.calls, i) && Sound(t.calls, i) && Sound(t.calls, q);
    match t.calls[i].earlier
    case None =>
    case Some(p) => assert q <= p;
  }

  /** Appending a call linked to the newest call of its key. */
  lemma CallsAppend(calls: seq<Call>, c: Call)
    requires CallsOk(calls) && Linked(calls + [c], |calls|) && Sound(calls + [c], |calls|) && !c.resolved
    ensures CallsOk(calls + [c])
  {
    var calls' := calls + [c];
    forall i | 0 <= i < |calls| ensures Linked(calls', i) && Sound(calls', i) {
      assert Linked(calls, i) && Sound(calls, i);
    }
  }

  /** Moving one call on. */
  lemma CallsUpdate(calls: seq<Call>, i: nat, c: Call)
    requires CallsOk(calls) && i < |calls| && c.key == calls[i].key && c.earlier == calls[i].earlier
    requires calls[i].resolved ==> c.resolved
    requires c.resolved ==> forall q :: 0 <= q < i && calls[q].key == c.key ==> calls[q].resolved
    requires Sound(calls[i := c], i)
    ensures CallsOk(calls[i := c])
  {
    var calls' := calls[i := c];
    forall j | 0 <= j < |calls| ensures Linked(calls', j) && Sound(calls', j) {
      assert Linked(calls, j) && Sound(calls, j);
    }
  }

  lemma SameNewest(calls: seq<Call>, calls': seq<Call>)
    requires |calls| == |calls'| && forall j :: 0 <= j < |calls| ==> calls[j].key == calls'[j].key
    ensures forall key, j :: Newest(calls', key, j) <==> Newest(calls, key, j)
  {
    forall key, j ensures Newest(calls', key, j) <==> Newest(calls, key, j) {
      if 0 <= j < |calls| {
        assert forall m :: j < m < |calls| ==> calls[m].key == calls'[m].key;
      }
    }
  }

  lemma TailsMove(t: Table, i: nat, c: Call)
    requires TailsOk(t) && i < |t.calls| && c.key == t.calls[i].key && (t.calls[i].resolved ==> c.resolved)
    requires c.forgotten == t.calls[i].forgotten
    ensures TailsOk(WithCall(t, i, c))
  {
    SameNewest(t.calls, t.calls[i := c]);
  }

  lemma TailsForget(t: Table, i: nat)
    requires TailsOk(t) && CallsOk(t.calls) && Enabled(t, Forget(i))
    ensures TailsOk(Next(t, Forget(i)))
  {
    var t' := Next(t, Forget(i));
    var key := t.calls[i].key;
    SameNewest(t.calls, t'.calls);
    if key in t.tails && t.tails[key] == i {
      forall j | 0 <= j < |t.calls| && t.calls[j].key == key ensures t.calls[j].resolved {
        assert j <= i;
      }
    }
  }

  lemma TailsEnter(t: Table, key: string)
    requires TailsOk(t)
    ensures TailsOk(Next(t, Enter(key)))
  {
    var t' := Next(t, Enter(key));
    var n := |t.calls|;
    assert Newest(t'.calls, key, n) && t'.calls[n].key == key;
    forall k, j | 0 <= j < n && k != key ensures Newest(t'.calls, k, j) == Newest(t.calls, k, j) {
      assert forall m :: j < m < n ==> t'.calls[m] == t.calls[m];
    }
  }

  lemma InvEnter(t: Table, key: string)
    requires Inv(t)
    ensures Inv(Next(t, Enter(key)))
  {
    var n := |t.calls|;
    var c := Next(t, Enter(key)).calls[n];
    assert Linked(t.calls + [c], n);
    CallsAppend(t.calls, c);
    TailsEnter(t, key);
    StartsMove(t, Enter(key));
  }

  /** The keys and the waiting calls of `calls` are those of a prefix of `calls'`. */
  ghost predicate SameWaiting(calls: seq<Call>, calls': seq<Call>, except: int) {
    && |calls| <= |calls'|
    && forall i :: 0 <= i < |calls| ==>
         && calls'[i].key == calls[i].key
         && (i != except ==> calls'[i].phase.Waiting? == calls[i].phase.Waiting?)
  }

  /** A step that starts nothing. */
  lemma StartsKept(t: Table, t': Table)
    requires StartsInOrder(t) && SameWaiting(t.calls, t'.calls, -1) && t'.starts == t.starts
    requires forall i :: |t.calls| <= i < |t'.calls| ==> t'.calls[i].phase.Waiting?
    ensures StartsInOrder(t')
  {}

  /** A step that starts the newest call of its key to start so far. */
  lemma StartsGrow(t: Table, t': Table, i: nat)
    requires StartsInOrder(t) && SameWaiting(t.calls, t'.calls, i) && t'.starts == t.starts + [i]
    requires |t'.calls| == |t.calls| || (i == |t.calls| && |t'.calls| == i + 1)
    requires i < |t'.calls| && !t'.calls[i].phase.Waiting?
    requires forall a :: 0 <= a < |t.starts| && t.calls[t.starts[a]].key == t'.calls[i].key ==> t.starts[a] < i
    ensures StartsInOrder(t')
  {
    assert t'.starts[|t.starts|] == i;
    assert forall a :: 0 <= a < |t.starts| ==> t'.starts[a] == t.starts[a];
    forall j | 0 <= j < |t'.calls| && !t'.calls[j].phase.Waiting? ensures j in t'.starts {
      assert j != i ==> j in t.starts;
    }
  }

  lemma StartsMove(t: Table, step: Step)
    requires StartsInOrder(t) && Enabled(t, step)
    requires step.Wake? ==> forall a :: 0 <= a < |t.starts| && t.calls[t.starts[a]].key == t.calls[step.i].key
                              ==> t.starts[a] < step.i
    ensures StartsInOrder(Next(t, step))
  {
    match step
    case Wake(i) => StartsGrow(t, Next(t, step), i);
    case Enter(key) => if key in t.tails { StartsKept(t, Next(t, step)); }
      else { StartsGrow(t, Next(t, step), |t.calls|); }
    case _ => StartsKept(t, Next(t, step));
  }

  lemma InvMove(t: Table, step: Step)
    requires Inv(t) && Enabled(t, step) && !step.Enter?
    ensures Inv(Next(t, step))
  {
    var i := step.i;
    var c := Next(t, step).calls[i];
    assert Linked(t.calls, i) && Sound(t.calls, i);
    if c.resolved {
      forall q | 0 <= q < i && t.calls[q].key == t.calls[i].key ensures t.calls[q].resolved {
        EarlierResolved(t, q, i);
      }
    }
    CallsUpdate(t.calls, i, c);
    if step.Forget? { TailsForget(t, i); } else { TailsMove(t, i, c); }
    if step.Wake? { WakeInOrder(t, i); }
    StartsMove(t, step);
  }

  lemma InvStep(t: Table, step: Step)
    requires Inv(t) && Enabled(t, step)
    ensures Inv(Next(t, step))
  {
    if step.Enter? { InvEnter(t, step.key); } else { InvMove(t, step); }
  }

  lemma WakeInOrder(t: Table, i: nat)
    requires Inv(t) && Enabled(t, Wake(i))
    ensures forall a :: 0 <= a < |t.starts| && t.calls[t.starts[a]].key == t.calls[i].key ==> t.starts[a] < i
  {
    forall a | 0 <= a < |t.starts| && t.calls[t.starts[a]].key == t.calls[i].key
      ensures t.starts[a] < i
    {
      if i < t.starts[a] { EarlierResolved(t, i, t.starts[a]); }
    }
  }

  lemma {:induction false} InvExec(t: Table, steps: seq<Step>)
    requires Inv(t)
    ensures Inv(Exec(t, steps))
    decreases |steps|
  {
    if steps != [] {
      if Enabled(t, steps[0]) {
        InvStep(t, steps[0]);
        InvExec(Next(t, steps[0]), steps[1..]);
      } else {
        InvExec(t, steps[1..]);
      }
    }
  }

  // ----- theorems over every run -----------------------------------------------------------

  /** At most one work per key runs at a time. */
  lemma MutualExclusion(steps: seq<Step>, i: nat, j: nat)
    requires var t := Exec(EMPTY, steps);
      i < |t.calls| && j < |t.calls| && t.calls[i].key == t.calls[j].key
      && t.calls[i].phase.Running? && t.calls[j].phase.Running?
    ensures i == j
  {
    InvExec(EMPTY, steps);
    var t := Exec(EMPTY, steps);
    if i < j { EarlierResolved(t, i, j); }
    if j < i { EarlierResolved(t, j, i); }
  }

  /** Works on a key start in the order `run` was called, each once, and each only after every
      earlier caller of the key is through its `finally`. */
  lemma StartOrder(steps: seq<Step>)
    ensures var t := Exec(EMPTY, steps);
      && (forall a :: 0 <= a < |t.starts| ==> t.starts[a] < |t.calls|)
      && (forall a, b :: 0 <= a < b < |t.starts| && t.calls[t.starts[a]].key == t.calls[t.starts[b]].key
            ==> t.starts[a] < t.starts[b])
      && (forall q, i :: 0 <= q < i < |t.calls| && t.calls[q].key == t.calls[i].key && i in t.starts
            ==> q in t.starts && t.calls[q].phase.Released?)
  {
    InvExec(EMPTY, steps);
    var t := Exec(EMPTY, steps);
    forall q, i | 0 <= q < i < |t.calls| && t.calls[q].key == t.calls[i].key && i in t.starts
      ensures q in t.starts && t.calls[q].phase.Released?
    {
      EarlierResolved(t, q, i);
    }
  }

  /** A key is in the table exactly while its newest call is unforgotten; a key that is not has
      neither a holder nor a waiter. */
  lemma HeldMeans(t: Table, key: string)
    requires Inv(t)
    ensures key in t.tails <==> exists i :: Newest(t.calls, key, i) && !t.calls[i].forgotten
    ensures key !in t.tails ==>
      forall i :: 0 <= i < |t.calls| && t.calls[i].key == key ==> t.calls[i].phase.Released? && t.calls[i].resolved
  {
    forall i | 0 <= i < |t.calls| && t.calls[i].key == key && key !in t.tails
      ensures t.calls[i].phase.Released? && t.calls[i].resolved
    {
      assert Sound(t.calls, i);
    }
    if key in t.tails {
      assert Newest(t.calls, key, t.tails[key]);
    } else {
      assert forall i :: Newest(t.calls, key, i) ==> t.calls[i].key == key;
    }
  }

  // ----- progress --------------------------------------------------------------------------

  /** The steps a call still has ahead of it. */
  function Ahead(c: Call): nat {
    (match c.phase case Waiting => 3 case Running => 2 case Settled(_) => 1 case Released(_) => 0)
    + (if c.earlier.Some? && !c.chained then 1 else 0)
    + (if c.resolved then 0 else 1)
    + (if c.forgotten then 0 else 1)
  }

  function Work(calls: seq<Call>): nat {
    if calls == [] then 0 else Work(calls[..|calls| - 1]) + Ahead(calls[|calls| - 1])
  }

  lemma {:induction false} WorkUpdate(calls: seq<Call>, i: nat, c: Call)
    requires i < |calls|
    ensures Work(calls[i := c]) == Work(calls) - Ahead(calls[i]) + Ahead(c)
  {
    var n := |calls| - 1;
    if i == n {
      assert calls[i := c][..n] == calls[..n];
    } else {
      WorkUpdate(calls[..n], i, c);
      assert calls[i := c][..n] == calls[..n][i := c];
    }
  }

  /** While a call is unforgotten some step other than a new call is enabled, whatever was rejected
      before; only a running work is left to the work itself. */
  lemma Progress(t: Table, i: nat) returns (step: Step)
    requires Inv(t) && i < |t.calls| && !t.calls[i].forgotten
    ensures !step.Enter? && Enabled(t, step)
    ensures step.Settle? ==> t.calls[step.i].phase.Running?
  {
    var c := t.calls[i];
    assert Linked(t.calls, i) && Sound(t.calls, i);
    if q :| 0 <= q < i && !t.calls[q].forgotten {
      step := Progress(t, q);
    } else {
      assert c.earlier.Some? ==> t.calls[c.earlier.value].forgotten && Sound(t.calls, c.earlier.value);
      step := match c.phase
        case Waiting => Wake(i)
        case Running => Settle(i, Rejected)
        case Settled(_) => Release(i)
        case Released(_) => if c.resolved then Forget(i) else if c.chained then Adopt(i) else Chain(i);
    }
  }

  ghost predicate Drains(t: Table, steps: seq<Step>)
    decreases |steps|
  {
    steps != [] ==> !steps[0].Enter? && Enabled(t, steps[0]) && Drains(Next(t, steps[0]), steps[1..])
  }

  lemma WorkShrinks(t: Table, step: Step)
    requires Inv(t) && Enabled(t, step) && !step.Enter?
    ensures Work(Next(t, step).calls) < Work(t.calls)
  {
    AheadFalls(t, step);
    hide Inv, Next, Enabled, Ahead, Work;
    WorkUpdate(t.calls, step.i, Next(t, step).calls[step.i]);
  }

  lemma AheadFalls(t: Table, step: Step)
    requires Inv(t) && Enabled(t, step) && !step.Enter?
    ensures step.i < |t.calls| && |Next(t, step).calls| == |t.calls|
    ensures Next(t, step).calls == t.calls[step.i := Next(t, step).calls[step.i]]
    ensures Ahead(Next(t, step).calls[step.i]) < Ahead(t.calls[step.i])
  {
    assert Sound(t.calls, step.i);
    hide Linked, TailsOk, StartsInOrder;
  }

  /** A table where only a new call could step. */
  ghost predicate Stuck(t: Table) {
    forall step :: Enabled(t, step) ==> step.Enter?
  }

  lemma StuckIsFinished(t: Table)
    requires Inv(t) && Stuck(t)
    ensures t.tails == map[]
    ensures forall i :: 0 <= i < |t.calls| ==> t.calls[i].phase.Released? && t.calls[i].forgotten
  {
    forall i | 0 <= i < |t.calls| ensures t.calls[i].phase.Released? && t.calls[i].forgotten {
      if !t.calls[i].forgotten { var step := Progress(t, i); }
      assert Sound(t.calls, i);
    }
    assert forall key :: key !in t.tails;
  }

  /** With no new callers every run is finite, and one that can go no further has finished every
      call and left an empty table. */
  lemma {:induction false} RunsDry(t: Table, steps: seq<Step>)
    requires Inv(t) && Drains(t, steps)
    ensures |steps| <= Work(t.calls)
    ensures Stuck(Exec(t, steps)) ==>
      && Exec(t, steps).tails == map[]
      && forall i :: 0 <= i < |Exec(t, steps).calls| ==>
           Exec(t, steps).calls[i].phase.Released? && Exec(t, steps).calls[i].forgotten
    decreases |steps|
  {
    if steps == [] {
      if Stuck(t) { StuckIsFinished(t); }
    } else {
      InvStep(t, steps[0]);
      WorkShrinks(t, steps[0]);
      RunsDry(Next(t, steps[0]), steps[1..]);
    }
  }

  // ----- what each caller is told ----------------------------------------------------------

  /** What a caller's work came to, once it has settled: what `run` returns or throws to that caller. */
  function OutcomeOf(t: Table, i: nat): Option<Outcome> {
    if i < |t.calls| && (t.calls[i].phase.Settled? || t.calls[i].phase.Released?) then Some(t.calls[i].phase.outcome)
    else None
  }

  /** The outcome of the first step of a run that settles the work of call `i`. */
  function SettledBy(t: Table, steps: seq<Step>, i: nat): Option<Outcome>
    decreases |steps|
  {
    if steps == [] then None
    else if Enabled(t, steps[0]) then
      if steps[0].Settle? && steps[0].i == i then Some(steps[0].outcome)
      else SettledBy(Next(t, steps[0]), steps[1..], i)
    else SettledBy(t, steps[1..], i)
  }

  lemma StepTells(t: Table, step: Step, i: nat)
    requires Enabled(t, step)
    ensures OutcomeOf(Next(t, step), i) == if step.Settle? && step.i == i then Some(step.outcome) else OutcomeOf(t, i)
    ensures step.Settle? && step.i == i ==> OutcomeOf(t, i).None?
  {
  }

  lemma {:induction false} RunTells(t: Table, steps: seq<Step>, i: nat)
    ensures OutcomeOf(Exec(t, steps), i) ==
      if OutcomeOf(t, i).Some? then OutcomeOf(t, i) else SettledBy(t, steps, i)
    decreases |steps|
  {
    if steps != [] {
      if Enabled(t, steps[0]) { StepTells(t, steps[0], i); }
      hide OutcomeOf, Enabled, Next;
      RunTells(if Enabled(t, steps[0]) then Next(t, steps[0]) else t, steps[1..], i);
    }
  }

  /** In every run a caller is told the outcome of its own work, whatever the other works came to, and
      nothing before its work has settled; a rejection reaches that caller only. */
  lemma OwnOutcome(steps: seq<Step>, i: nat)
    ensures OutcomeOf(Exec(EMPTY, steps), i) == SettledBy(EMPTY, steps, i)
  {
    RunTells(EMPTY, steps, i);
  }

  /** The keys that were asked for, in order. */
  function Entered(steps: seq<Step>): seq<string> {
    if steps == [] then [] else (if steps[0].Enter? then [steps[0].key] else []) + Entered(steps[1..])
  }

  function KeysOf(calls: seq<Call>): seq<string> { seq(|calls|, i requires 0 <= i < |calls| => calls[i].key) }

  lemma {:induction false} CallsAreEntered(t: Table, steps: seq<Step>)
    ensures KeysOf(Exec(t, steps).calls) == KeysOf(t.calls) + Entered(steps)
    decreases |steps|
  {
    if steps != [] {
      var t' := if Enabled(t, steps[0]) then Next(t, steps[0]) else t;
      assert KeysOf(t'.calls) == KeysOf(t.calls) + (if steps[0].Enter? then [steps[0].key] else []);
      hide Enabled, Next, KeysOf;
      CallsAreEntered(t', steps[1..]);
    }
  }

  /** Every call of `run` stands in the table of calls under the key it was made for, in call order. */
  lemma EveryCall(steps: seq<Step>)
    ensures KeysOf(Exec(EMPTY, steps).calls) == Entered(steps)
  {
    CallsAreEntered(EMPTY, steps);
    assert KeysOf(EMPTY.calls) == [];
  }
}
