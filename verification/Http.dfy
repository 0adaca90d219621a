/** The retry loop around one HTTP call (packages/drive/src/http.ts, `request`). */
module Http {
  import opened Wrappers

  const DEFAULT_ATTEMPTS := 5
  const MAX_RETRY_AFTER_MS := 60000

  predicate RetryableStatus(status: nat) { status in {408, 429, 500, 502, 503, 504} }

  /** What makes an error status worth another attempt: its number, the caller's hook, and the wait it names. */
  datatype Verdict = Verdict(hooked: bool, wait: Option<nat>)

  predicate Retries(status: nat, v: Verdict) {
    (RetryableStatus(status) || v.hooked) && (v.wait.None? || v.wait.value <= MAX_RETRY_AFTER_MS)
  }

  /** What becomes of one attempt; `aborted` is the caller's own signal by the time a transport failure is caught. */
  datatype Fate =
    | Dropped(aborted: bool)                          // a transport failure before the provider saw the request
    | Lost(aborted: bool)                             // the provider acted, the answer never arrived
    | Unavailable(status: nat, verdict: Verdict)      // an error status, nothing was done
    | Answered(verdict: Verdict)                      // the provider acted and its answer arrived

  datatype Reply<A> = Returned(answer: A) | Threw(refusal: Option<A>)

  /** A provider: what one delivered request does to its state, by number of the attempt. */
  datatype Endpoint<!S, !A> = Endpoint(deliver: (S, nat) -> (S, A), ok: A -> bool, status: A -> nat)

  function Requested<S, A>(e: Endpoint<S, A>, fates: nat -> Fate, attempts: nat, attempt: nat, s: S): (S, Reply<A>)
    requires attempt < attempts
    decreases attempts - attempt
  {
    var last := attempt == attempts - 1;
    match fates(attempt)
    case Dropped(aborted) => if last || aborted then (s, Threw(None)) else Requested(e, fates, attempts, attempt + 1, s)
    case Lost(aborted) =>
      var s' := e.deliver(s, attempt).0;
      if last || aborted then (s', Threw(None)) else Requested(e, fates, attempts, attempt + 1, s')
    case Unavailable(status, verdict) =>
      if last || !Retries(status, verdict) then (s, Threw(None)) else Requested(e, fates, attempts, attempt + 1, s)
    case Answered(verdict) =>
      var (s', a) := e.deliver(s, attempt);
      if e.ok(a) then (s', Returned(a))
      else if last || !Retries(e.status(a), verdict) then (s', Threw(Some(a)))
      else Requested(e, fates, attempts, attempt + 1, s')
  }

  /** What one attempt leads to.  An error status is worth another attempt exactly if it is one of the six
      listed or the caller's hook says so, and the wait it names, if any, is within a minute; a transport
      failure exactly unless the caller aborted; and the last attempt is the last. */
  lemma AttemptLeadsTo<S, A>(e: Endpoint<S, A>, fates: nat -> Fate, attempts: nat, attempt: nat, s: S)
    requires attempt < attempts
    ensures var again := (status: nat, v: Verdict) =>
        && attempt + 1 < attempts
        && (status in {408, 429, 500, 502, 503, 504} || v.hooked)
        && (v.wait.None? || v.wait.value <= 60000);
      var next := (s': S) requires attempt + 1 < attempts => Requested(e, fates, attempts, attempt + 1, s');
      var (s', a) := e.deliver(s, attempt);
      Requested(e, fates, attempts, attempt, s) == match fates(attempt)
        case Dropped(aborted) => if attempt + 1 < attempts && !aborted then next(s) else (s, Threw(None))
        case Lost(aborted) => if attempt + 1 < attempts && !aborted then next(s') else (s', Threw(None))
        case Unavailable(status, v) => if again(status, v) then next(s) else (s, Threw(None))
        case Answered(v) =>
          if e.ok(a) then (s', Returned(a)) else if again(e.status(a), v) then next(s') else (s', Threw(Some(a)))
  {
  }

  /** The loop.  `session` is the provider's state, which the caller does not see. */
  method Request<S, A>(
    e: Endpoint<S, A>, fates: nat -> Fate, attempts: nat, before: S)
    returns (session: S, reply: Reply<A>)
    requires attempts >= 1
    ensures (session, reply) == Requested(e, fates, attempts, 0, before)
  {
    session := before;
    reply := Threw(None);
    var attempt := 0;
    while attempt < attempts
      invariant 0 <= attempt <= attempts
      invariant attempt < attempts ==>
        Requested(e, fates, attempts, 0, before) == Requested(e, fates, attempts, attempt, session)
      invariant attempt == attempts ==> (session, reply) == Requested(e, fates, attempts, 0, before)
    {
      var last := attempt == attempts - 1;
      match fates(attempt) {
        case Dropped(aborted) =>
          reply := Threw(None);
          if aborted { return; }
        case Lost(aborted) =>
          session := e.deliver(session, attempt).0;
          reply := Threw(None);
          if aborted { return; }
        case Unavailable(status, verdict) =>
          reply := Threw(None);
          if last || !Retries(status, verdict) { return; }
        case Answered(verdict) =>
          var (s', a) := e.deliver(session, attempt);
          session := s';
          if e.ok(a) { return session, Returned(a); }
          reply := Threw(Some(a));
          if last || !Retries(e.status(a), verdict) { return; }
      }
      attempt := attempt + 1;
    }
  }

  /** The state after the provider has acted on the attempts of a list, in order. */
  function Delivered<S, A>(e: Endpoint<S, A>, s: S, acted: seq<nat>): S {
    if acted == [] then s else e.deliver(Delivered(e, s, acted[..|acted| - 1]), acted[|acted| - 1]).0
  }

  /** The provider acted on these attempts, and an answer that came through is its answer to the last. */
  ghost predicate Explains<S, A>(e: Endpoint<S, A>, s: S, acted: seq<nat>, s': S, reply: Reply<A>) {
    && s' == Delivered(e, s, acted)
    && (Heard(reply) ==> acted != [])
    && (Heard(reply) ==> e.deliver(Delivered(e, s, acted[..|acted| - 1]), acted[|acted| - 1]).1 == Heeded(reply))
    && (reply.Returned? ==> e.ok(reply.answer))
    && (reply.Threw? && reply.refusal.Some? ==> !e.ok(reply.refusal.value))
  }

  lemma ExplainsCons<S, A>(e: Endpoint<S, A>, s: S, first: nat, rest: seq<nat>, s': S, reply: Reply<A>)
    requires Explains(e, e.deliver(s, first).0, rest, s', reply)
    ensures Explains(e, s, [first] + rest, s', reply)
  {
    hide Delivered;
    DeliveredCons(e, s, first, rest);
    if rest != [] {
      assert ([first] + rest)[..|rest|] == [first] + rest[..|rest| - 1];
      DeliveredCons(e, s, first, rest[..|rest| - 1]);
    }
  }

  /** The attempts the provider acts on. */
  function Deliveries<S, A>(e: Endpoint<S, A>, fates: nat -> Fate, attempts: nat, attempt: nat, s: S): seq<nat>
    requires attempt < attempts
    decreases attempts - attempt
  {
    var last := attempt == attempts - 1;
    var (s', a) := e.deliver(s, attempt);
    match fates(attempt)
    case Dropped(aborted) => if last || aborted then [] else Deliveries(e, fates, attempts, attempt + 1, s)
    case Lost(aborted) =>
      [attempt] + (if last || aborted then [] else Deliveries(e, fates, attempts, attempt + 1, s'))
    case Unavailable(status, verdict) =>
      if last || !Retries(status, verdict) then [] else Deliveries(e, fates, attempts, attempt + 1, s)
    case Answered(verdict) =>
      [attempt] + (if last || e.ok(a) || !Retries(e.status(a), verdict) then []
                   else Deliveries(e, fates, attempts, attempt + 1, s'))
  }

  /** Whatever happened on the way, these attempts explain the reply. */
  lemma {:induction false} RequestActs<S, A>(
    e: Endpoint<S, A>, fates: nat -> Fate, attempts: nat, attempt: nat, s: S) returns (acted: seq<nat>)
    requires attempt < attempts
    ensures acted == Deliveries(e, fates, attempts, attempt, s) && |acted| <= attempts - attempt
    ensures var (s', reply) := Requested(e, fates, attempts, attempt, s); Explains(e, s, acted, s', reply)
    decreases attempts - attempt
  {
    var last := attempt == attempts - 1;
    var fate := fates(attempt);
    var (s1, a) := e.deliver(s, attempt);
    hide Retries;
    acted := Deliveries(e, fates, attempts, attempt, s);
    if fate.Dropped? || fate.Unavailable? {
      if !last && (fate.Dropped? ==> !fate.aborted) && (fate.Unavailable? ==> Retries(fate.status, fate.verdict)) {
        var rest := RequestActs(e, fates, attempts, attempt + 1, s);
      }
    } else if last || (fate.Lost? && fate.aborted)
      || (fate.Answered? && (e.ok(a) || !Retries(e.status(a), fate.verdict))) {
      assert acted == [attempt] && Delivered(e, s, acted[..0]) == s;
    } else {
      var rest := RequestActs(e, fates, attempts, attempt + 1, s1);
      var (s', reply) := Requested(e, fates, attempts, attempt + 1, s1);
      ExplainsCons(e, s, attempt, rest, s', reply);
    }
  }

  /** The answer to the last of these deliveries arrived, and is a success. */
  ghost predicate EndsWell<S, A>(e: Endpoint<S, A>, fates: nat -> Fate, s: S, acted: seq<nat>) {
    && acted != [] && fates(acted[|acted| - 1]).Answered?
    && e.ok(e.deliver(Delivered(e, s, acted[..|acted| - 1]), acted[|acted| - 1]).1)
  }

  lemma EndsWellCons<S, A>(e: Endpoint<S, A>, fates: nat -> Fate, s: S, first: nat, rest: seq<nat>)
    ensures EndsWell(e, fates, s, [first] + rest) <==>
      if rest == [] then fates(first).Answered? && e.ok(e.deliver(s, first).1)
      else EndsWell(e, fates, e.deliver(s, first).0, rest)
  {
    if rest == [] {
      assert [first] + rest == [first] && [first][..0] == [];
    } else {
      assert ([first] + rest)[..|rest|] == [first] + rest[..|rest| - 1];
      hide Delivered;
      DeliveredCons(e, s, first, rest[..|rest| - 1]);
    }
  }

  /** A success is returned exactly when the answer to the last delivery arrived, and is one. */
  lemma {:induction false} ReturnedWhen<S, A>(e: Endpoint<S, A>, fates: nat -> Fate, attempts: nat, attempt: nat, s: S)
    requires attempt < attempts
    ensures Requested(e, fates, attempts, attempt, s).1.Returned? <==>
      EndsWell(e, fates, s, Deliveries(e, fates, attempts, attempt, s))
    decreases attempts - attempt
  {
    hide Retries, EndsWell;
    var (s1, a) := e.deliver(s, attempt);
    NoneEndsWell(e, fates, s);
    EndsWellCons(e, fates, s, attempt, []);
    assert [attempt] + [] == [attempt];
    if attempt + 1 < attempts {
      ReturnedWhen(e, fates, attempts, attempt + 1, s);
      ReturnedWhen(e, fates, attempts, attempt + 1, s1);
      NoneEndsWell(e, fates, s1);
      EndsWellCons(e, fates, s, attempt, Deliveries(e, fates, attempts, attempt + 1, s1));
    }
  }

  lemma NoneEndsWell<S, A>(e: Endpoint<S, A>, fates: nat -> Fate, s: S)
    ensures !EndsWell(e, fates, s, [])
  {
  }

  /** The provider's own words came through. */
  predicate Heard<A>(reply: Reply<A>) { reply.Returned? || reply.refusal.Some? }

  function Heeded<A>(reply: Reply<A>): A
    requires Heard(reply)
  {
    match reply case Returned(a) => a case Threw(a) => a.value
  }

  lemma {:induction false} DeliveredCons<S, A>(e: Endpoint<S, A>, s: S, first: nat, rest: seq<nat>)
    ensures Delivered(e, s, [first] + rest) == Delivered(e, e.deliver(s, first).0, rest)
  {
    if rest == [] {
      assert [first] + rest == [first];
      assert [first][..0] == [];
      assert Delivered(e, s, [first][..0]) == s;
    } else {
      var n := |rest| - 1;
      DeliveredCons(e, s, first, rest[..n]);
      assert ([first] + rest)[..n + 1] == [first] + rest[..n];
    }
  }
}
