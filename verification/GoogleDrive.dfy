/** Google Drive resumable uploads (packages/drive/src/google-drive.ts, `#uploadResumable`). */
module GoogleDrive {
  import opened Wrappers
  import opened Bytes
  import opened Http
  import opened Chunks

  /** The provider's side: the bytes it holds, and whether it has made the file of them. */
  datatype Session = Session(held: seq<byte>, complete: bool)

  /** A final answer, or a 308 with the offset after the `Range` it states, if it states one. */
  datatype Answer = Created | Incomplete(range: Option<nat>)

  /** How much of a delivered chunk the provider keeps, and whether it leaves out the `Range`. */
  datatype Will = Will(take: nat, mute: bool)

  /** The provider extends what it holds with the part of the chunk that covers its own offset. */
  function Put(s: Session, chunk: Chunk, will: Will): (Session, Answer) {
    if s.complete then (s, Created)
    else
      var held := Extended(s.held, chunk, will.take);
      if |held| == chunk.total then (Session(held, true), Created)
      else (Session(held, false), Incomplete(if will.mute || held == [] then None else Some(|held|)))
  }

  function Extended(held: seq<byte>, chunk: Chunk, take: nat): seq<byte> {
    if chunk.start <= |held| < chunk.end && chunk.end - chunk.start == |chunk.bytes| then
      held + chunk.bytes[|held| - chunk.start..][..Min(take, chunk.end - |held|)]
    else held
  }

  datatype Network = Network(fates: (nat, nat) -> Fate, bodies: nat -> bool, wills: (nat, nat) -> Will)

  function OfSend(net: Network, k: nat): nat -> Fate { (n: nat) => net.fates(k, n) }

  function PutEndpoint(net: Network, chunk: Chunk, k: nat): Endpoint<Session, Answer> {
    Endpoint((s, n) => Put(s, chunk, net.wills(k, n)), a => true, a => 200)
  }

  /** What a send makes of the provider's reply. */
  function Concluded(net: Network, chunk: Chunk, k: nat, s': Session, reply: Reply<Answer>): (Session, Sent<Answer>) {
    if reply.Threw? then (s', Failed)
    else
      match reply.answer
      case Created => (s', if net.bodies(k) then Done else Failed)
      case Incomplete(range) => (s', ResumeAt(if range.Some? then range.value else chunk.end, reply.answer))
  }

  /** `send`: a 308 says where to go on; without a `Range` the code goes on after the chunk. */
  function SendChunk(net: Network, s: Session, chunk: Chunk, k: nat): (Session, Sent<Answer>) {
    var (s', reply) := Requested(PutEndpoint(net, chunk, k), OfSend(net, k), DEFAULT_ATTEMPTS, 0, s);
    Concluded(net, chunk, k, s', reply)
  }

  ghost predicate IsGoogle(send: Sender<Session, Answer>, net: Network) {
    forall s, chunk, k :: send(s, chunk, k) == SendChunk(net, s, chunk, k)
  }

  // ----- one send --------------------------------------------------------------------------

  /** The provider holds a prefix of the file, and the whole of it exactly when it is complete. */
  predicate Prefix(file: seq<byte>, s: Session) {
    s.held <= file && (s.complete <==> s.held == file)
  }

  lemma PutKeepsPrefix(file: seq<byte>, chunkBytes: nat, s: Session, start: nat, will: Will)
    requires start < |file| && Prefix(file, s)
    ensures var (s', a) := Put(s, ChunkAt(file, chunkBytes, start), will);
      && Prefix(file, s')
      && (a.Created? <==> s'.complete)
      && (a.Incomplete? && a.range.Some? ==> a.range.value == |s'.held|)
  {
    ExtendedIsPrefix(file, chunkBytes, s.held, start, will.take);
    hide Extended, ChunkAt;
  }

  lemma ExtendedIsPrefix(file: seq<byte>, chunkBytes: nat, held: seq<byte>, start: nat, take: nat)
    requires start < |file| && held <= file
    ensures Extended(held, ChunkAt(file, chunkBytes, start), take) <= file
  {
    var chunk := ChunkAt(file, chunkBytes, start);
    if start <= |held| < chunk.end {
      var n := Min(take, chunk.end - |held|);
      assert chunk.bytes[|held| - start..] == file[|held|..chunk.end];
      assert chunk.bytes[|held| - start..][..n] == file[|held|..|held| + n];
      assert held == file[..|held|];
      assert file[..|held|] + file[|held|..|held| + n] == file[..|held| + n];
    }
  }

  lemma {:induction false} DeliveriesKeepPrefix(
    file: seq<byte>, chunkBytes: nat, net: Network, s: Session, start: nat, k: nat, acted: seq<nat>)
    requires start < |file| && Prefix(file, s)
    ensures Prefix(file, Delivered(PutEndpoint(net, ChunkAt(file, chunkBytes, start), k), s, acted))
  {
    if acted != [] {
      var n := |acted| - 1;
      var e := PutEndpoint(net, ChunkAt(file, chunkBytes, start), k);
      DeliveriesKeepPrefix(file, chunkBytes, net, s, start, k, acted[..n]);
      PutKeepsPrefix(file, chunkBytes, Delivered(e, s, acted[..n]), start, net.wills(k, acted[n]));
    }
  }

  /** What the provider says, when it is heard, is true of what it holds. */
  lemma HeardIsTrue(
    file: seq<byte>, chunkBytes: nat, net: Network, s: Session, start: nat, k: nat, acted: seq<nat>,
    s': Session, reply: Reply<Answer>)
    requires start < |file| && Prefix(file, s)
    requires Explains(PutEndpoint(net, ChunkAt(file, chunkBytes, start), k), s, acted, s', reply)
    ensures Prefix(file, s')
    ensures reply.Returned? && reply.answer.Created? ==> s' == Session(file, true)
    ensures reply.Returned? && reply.answer.Incomplete? ==>
      !s'.complete && (reply.answer.range.Some? ==> reply.answer.range.value == |s'.held|)
  {
    hide Extended, ChunkAt, Put;
    var e := PutEndpoint(net, ChunkAt(file, chunkBytes, start), k);
    DeliveriesKeepPrefix(file, chunkBytes, net, s, start, k, acted);
    if acted != [] {
      var n := |acted| - 1;
      DeliveriesKeepPrefix(file, chunkBytes, net, s, start, k, acted[..n]);
      PutKeepsPrefix(file, chunkBytes, Delivered(e, s, acted[..n]), start, net.wills(k, acted[n]));
    }
  }

  /** A send keeps the prefix whatever is repeated or lost.  The offset it goes on from is the
      provider's exactly when the 308 stated a `Range` or the provider took the chunk to its end. */
  lemma SendKeepsPrefix(file: seq<byte>, chunkBytes: nat, net: Network, s: Session, start: nat, k: nat)
    requires start < |file| && Prefix(file, s)
    ensures var chunk := ChunkAt(file, chunkBytes, start);
      var (s', outcome) := SendChunk(net, s, chunk, k);
      && Prefix(file, s')
      && (outcome.Done? ==> s' == Session(file, true))
      && (outcome.ResumeAt? ==> !s'.complete && outcome.heard.Incomplete?)
      && (outcome.ResumeAt? ==> (outcome.offset == |s'.held| <==> outcome.heard.range.Some? || |s'.held| == chunk.end))
  {
    hide Extended, ChunkAt, Put, Explains, Prefix, PutEndpoint, OfSend;
    var chunk := ChunkAt(file, chunkBytes, start);
    var acted := RequestActs(PutEndpoint(net, chunk, k), OfSend(net, k), DEFAULT_ATTEMPTS, 0, s);
    var (s', reply) := Requested(PutEndpoint(net, chunk, k), OfSend(net, k), DEFAULT_ATTEMPTS, 0, s);
    HeardIsTrue(file, chunkBytes, net, s, start, k, acted, s', reply);
  }

  // ----- the whole upload ------------------------------------------------------------------

  predicate AllPrefixes(file: seq<byte>, sends: seq<Send<Session, Answer>>) {
    forall i :: 0 <= i < |sends| ==> Prefix(file, sends[i].before) && Prefix(file, sends[i].after)
  }

  predicate Aligned(sends: seq<Send<Session, Answer>>) {
    forall i :: 0 <= i < |sends| ==> sends[i].start == |sends[i].before.held|
  }

  /** A 308 that was followed stated a `Range`, or the provider had taken the chunk to its end. */
  predicate Exact(send: Send<Session, Answer>) {
    send.outcome.ResumeAt? ==>
      send.outcome.heard.Incomplete? && (send.outcome.heard.range.Some? || |send.after.held| == send.end)
  }

  predicate ExactUpTo(sends: seq<Send<Session, Answer>>, n: int) {
    forall i :: 0 <= i < n && i < |sends| ==> Exact(sends[i])
  }

  /** What is known of an upload that starts at the provider's offset: which sends start at it, and when the
      upload can end before the file did with everything held. */
  predicate Followed(file: seq<byte>, u: Upload<Session, Answer>) {
    && (Aligned(u.sends) <==> ExactUpTo(u.sends, |u.sends| - 1))
    && (u.result.EndedEarly? ==> (Aligned(u.sends) && u.session.held == file <==> ExactUpTo(u.sends, |u.sends|)))
  }

  lemma {:induction false} UploadResumableFrom(
    file: seq<byte>, chunkBytes: nat, send: Sender<Session, Answer>, net: Network, s: Session, start: nat, k: nat,
      patience: nat)
    requires IsGoogle(send, net) && Prefix(file, s)
    ensures var u := UploadFrom(file, chunkBytes, send, s, start, k, patience);
      && AllPrefixes(file, u.sends) && Prefix(file, u.session)
      && (u.result.Uploaded? ==> u.session == Session(file, true))
      && (u.result.EndedEarly? && u.sends != [] ==> u.session.held != file)
      && (start == |s.held| ==> Followed(file, u))
      && (u.sends != [] ==> u.sends[0].start == start && u.sends[0].before == s)
    decreases patience
  {
    hide SendChunk, Followed;
    if start < |file| && patience > 0 {
      var chunk := ChunkAt(file, chunkBytes, start);
      SendKeepsPrefix(file, chunkBytes, net, s, start, k);
      var (s', outcome) := send(s, chunk, k);
      assert (s', outcome) == SendChunk(net, s, chunk, k);
      var first := Send(start, chunk.end, s, outcome, s');
      if outcome.ResumeAt? {
        UploadResumableFrom(file, chunkBytes, send, net, s', outcome.offset, k + 1, patience - 1);
        var rest := UploadFrom(file, chunkBytes, send, s', outcome.offset, k + 1, patience - 1);
        PrefixesCons(file, first, rest.sends);
        FollowedCons(file, first, rest);
      } else {
        FollowedOnce(file, first, UploadFrom(file, chunkBytes, send, s, start, k, patience));
      }
    } else {
      FollowedNever(file, s, start, UploadFrom(file, chunkBytes, send, s, start, k, patience));
    }
  }

  lemma PrefixesCons(file: seq<byte>, first: Send<Session, Answer>, rest: seq<Send<Session, Answer>>)
    requires AllPrefixes(file, rest) && Prefix(file, first.before) && Prefix(file, first.after)
    ensures AllPrefixes(file, [first] + rest)
  {}

  lemma FollowedNever(file: seq<byte>, s: Session, start: nat, u: Upload<Session, Answer>)
    requires u.sends == [] && u.session == s && Prefix(file, s) && (u.result.EndedEarly? ==> start >= |file|)
    ensures start == |s.held| ==> Followed(file, u)
  {}

  lemma FollowedOnce(file: seq<byte>, first: Send<Session, Answer>, u: Upload<Session, Answer>)
    requires u.sends == [first] && !u.result.EndedEarly?
    ensures first.start == |first.before.held| ==> Followed(file, u)
  {}

  lemma AlignedCons(first: Send<Session, Answer>, rest: seq<Send<Session, Answer>>)
    requires first.start == |first.before.held|
    ensures Aligned([first] + rest) <==> Aligned(rest)
    ensures forall n: int :: ExactUpTo([first] + rest, n) <==> n <= 0 || (Exact(first) && ExactUpTo(rest, n - 1))
  {
    hide Exact;
    var sends := [first] + rest;
    assert sends[0] == first && forall i :: 0 <= i < |rest| ==> rest[i] == sends[i + 1];
    forall n: int ensures ExactUpTo(sends, n) <==> n <= 0 || (Exact(first) && ExactUpTo(rest, n - 1)) {
      if n > 0 && Exact(first) && ExactUpTo(rest, n - 1) {
        forall i | 0 <= i < n && i < |sends| ensures Exact(sends[i]) { if i > 0 { assert Exact(rest[i - 1]); } }
      }
    }
  }

  /** A send that goes on from the provider's offset leaves everything to the rest; any other is the first fault. */
  lemma FollowedCons(file: seq<byte>, first: Send<Session, Answer>, rest: Upload<Session, Answer>)
    requires first.outcome.ResumeAt?
    requires first.outcome.offset == |first.after.held| <==> Exact(first)
    requires first.outcome.offset == |first.after.held| ==> Followed(file, rest)
    requires rest.sends != [] ==> rest.sends[0].start == first.outcome.offset && rest.sends[0].before == first.after
    requires rest.result.EndedEarly? && rest.sends == [] ==> rest.session == first.after && first.after.held != file
    ensures first.start == |first.before.held| ==> Followed(file, rest.(sends := [first] + rest.sends))
  {
    hide Exact, ExactUpTo;
    if first.start == |first.before.held| {
      AlignedCons(first, rest.sends);
      if rest.sends == [] { NoneExact(); }
    }
  }

  lemma NoneExact()
    ensures forall n: int :: ExactUpTo([], n)
  {}

  /**
   * The provider holds a prefix of the file before and after every send, whatever the network does, and a
   * finished upload left exactly the file there.  Every send starts at the provider's offset if and only if
   * every send but the last that went on stated a `Range` or was taken to its end; an upload that ends before
   * the file did has lost bytes unless the file is empty, and then some followed 308 was not of that kind.
   */
  lemma UploadResumable(file: seq<byte>, chunkBytes: nat, send: Sender<Session, Answer>, net: Network, patience: nat)
    requires IsGoogle(send, net)
    ensures var u := UploadFrom(file, chunkBytes, send, Session([], file == []), 0, 0, patience);
      && AllPrefixes(file, u.sends) && Prefix(file, u.session)
      && (u.result.Uploaded? ==> u.session.complete && u.session.held == file)
      && (Aligned(u.sends) <==> ExactUpTo(u.sends, |u.sends| - 1))
      && (u.result.EndedEarly? ==> (Aligned(u.sends) && u.session.held == file <==> ExactUpTo(u.sends, |u.sends|)))
      && (u.result.EndedEarly? && file != [] ==> u.session.held != file && !ExactUpTo(u.sends, |u.sends|))
  {
    UploadResumableFrom(file, chunkBytes, send, net, Session([], file == []), 0, 0, patience);
    hide Aligned, ExactUpTo, AllPrefixes;
  }

  // ----- when an upload succeeds -----------------------------------------------------------

  /** The answer to the last delivery of a chunk arrived, with its body, from a provider that had the whole file. */
  ghost predicate Finishes(net: Network, s: Session, chunk: Chunk, k: nat, s': Session) {
    var acted := Deliveries(PutEndpoint(net, chunk, k), OfSend(net, k), DEFAULT_ATTEMPTS, 0, s);
    acted != [] && net.fates(k, acted[|acted| - 1]).Answered? && s'.complete && net.bodies(k)
  }

  lemma SendFinishes(file: seq<byte>, chunkBytes: nat, net: Network, s: Session, start: nat, k: nat)
    requires start < |file| && Prefix(file, s)
    ensures var chunk := ChunkAt(file, chunkBytes, start);
      var (s', outcome) := SendChunk(net, s, chunk, k);
      outcome.Done? <==> Finishes(net, s, chunk, k, s')
  {
    hide Extended, ChunkAt, Put, Explains, Prefix, Delivered;
    var chunk := ChunkAt(file, chunkBytes, start);
    var e := PutEndpoint(net, chunk, k);
    var acted := RequestActs(e, OfSend(net, k), DEFAULT_ATTEMPTS, 0, s);
    var (s', reply) := Requested(e, OfSend(net, k), DEFAULT_ATTEMPTS, 0, s);
    HeardIsTrue(file, chunkBytes, net, s, start, k, acted, s', reply);
    ReturnedWhen(e, OfSend(net, k), DEFAULT_ATTEMPTS, 0, s);
  }

  /** The last of the sends, number `k` being the first, finished the upload. */
  ghost predicate FinishedLast(
    file: seq<byte>, chunkBytes: nat, net: Network, sends: seq<Send<Session, Answer>>, k: nat)
  {
    && sends != []
    && var (n, last) := (|sends| - 1, sends[|sends| - 1]);
    && last.start < |file| && Finishes(net, last.before, ChunkAt(file, chunkBytes, last.start), k + n, last.after)
  }

  lemma FinishedCons(
    file: seq<byte>, chunkBytes: nat, net: Network, first: Send<Session, Answer>, rest: seq<Send<Session, Answer>>,
    k: nat)
    requires first.start < |file|
    ensures FinishedLast(file, chunkBytes, net, [first] + rest, k) <==>
      if rest == [] then Finishes(net, first.before, ChunkAt(file, chunkBytes, first.start), k, first.after)
      else FinishedLast(file, chunkBytes, net, rest, k + 1)
  {
    hide Finishes, ChunkAt;
    if rest != [] { assert ([first] + rest)[|rest|] == rest[|rest| - 1]; } else { assert [first] + rest == [first]; }
  }

  lemma {:induction false} UploadedFrom(
    file: seq<byte>, chunkBytes: nat, send: Sender<Session, Answer>, net: Network, s: Session, start: nat, k: nat,
    patience: nat)
    requires IsGoogle(send, net) && Prefix(file, s)
    ensures var u := UploadFrom(file, chunkBytes, send, s, start, k, patience);
      u.result.Uploaded? <==> FinishedLast(file, chunkBytes, net, u.sends, k)
    decreases patience
  {
    hide SendChunk, FinishedLast, Finishes;
    NoneFinished(file, chunkBytes, net, k);
    if start < |file| && patience > 0 {
      var chunk := ChunkAt(file, chunkBytes, start);
      SendKeepsPrefix(file, chunkBytes, net, s, start, k);
      SendFinishes(file, chunkBytes, net, s, start, k);
      var (s', outcome) := send(s, chunk, k);
      assert (s', outcome) == SendChunk(net, s, chunk, k);
      var first := Send(start, chunk.end, s, outcome, s');
      FinishedCons(file, chunkBytes, net, first, [], k);
      assert [first] + [] == [first];
      if outcome.ResumeAt? {
        UploadedFrom(file, chunkBytes, send, net, s', outcome.offset, k + 1, patience - 1);
        NoneFinished(file, chunkBytes, net, k + 1);
        FinishedCons(file, chunkBytes, net, first,
          UploadFrom(file, chunkBytes, send, s', outcome.offset, k + 1, patience - 1).sends, k);
      }
    }
  }

  lemma NoneFinished(file: seq<byte>, chunkBytes: nat, net: Network, k: nat)
    ensures !FinishedLast(file, chunkBytes, net, [], k)
  {
  }

  /** An upload has succeeded if and only if the answer to its last delivery came through, body and all, from a
      provider that had the whole file. */
  lemma UploadSucceeds(file: seq<byte>, chunkBytes: nat, send: Sender<Session, Answer>, net: Network, patience: nat)
    requires IsGoogle(send, net)
    ensures var u := UploadFrom(file, chunkBytes, send, Session([], file == []), 0, 0, patience);
      u.result.Uploaded? <==> FinishedLast(file, chunkBytes, net, u.sends, 0)
  {
    UploadedFrom(file, chunkBytes, send, net, Session([], file == []), 0, 0, patience);
  }

  /** First attempts are answered with their bodies, and the provider keeps all it is sent. */
  ghost predicate Healthy(net: Network, chunkBytes: nat) {
    forall k: nat :: net.fates(k, 0).Answered? && net.bodies(k) && net.wills(k, 0).take >= chunkBytes
  }

  lemma HealthySend(file: seq<byte>, chunkBytes: nat, net: Network, s: Session, start: nat, k: nat)
    requires Healthy(net, chunkBytes) && start < |file| && s == Session(file[..start], false)
    ensures var chunk := ChunkAt(file, chunkBytes, start);
      SendChunk(net, s, chunk, k).0 == Session(file[..chunk.end], chunk.last)
      && (if chunk.last then SendChunk(net, s, chunk, k).1 == Done
          else SendChunk(net, s, chunk, k).1.ResumeAt? && SendChunk(net, s, chunk, k).1.offset == chunk.end)
  {
    var chunk := ChunkAt(file, chunkBytes, start);
    var n := chunk.end - start;
    assert chunk.bytes[0..] == chunk.bytes && chunk.bytes[..n] == chunk.bytes;
    assert file[..start] + file[start..chunk.end] == file[..chunk.end];
    assert net.fates(k, 0).Answered? && net.wills(k, 0).take >= chunkBytes;
    assert Extended(s.held, chunk, net.wills(k, 0).take) == file[..chunk.end];
    var e := PutEndpoint(net, chunk, k);
    assert e.deliver(s, 0) == Put(s, chunk, net.wills(k, 0));
    assert Requested(e, OfSend(net, k), DEFAULT_ATTEMPTS, 0, s) == (e.deliver(s, 0).0, Returned(e.deliver(s, 0).1));
  }

  lemma {:induction false} HealthyFrom(
    file: seq<byte>, chunkBytes: nat, send: Sender<Session, Answer>, net: Network, start: nat, k: nat, patience: nat)
    requires IsGoogle(send, net) && Healthy(net, chunkBytes) && chunkBytes > 0 && start < |file|
    requires patience >= |file| - start
    ensures UploadFrom(file, chunkBytes, send, Session(file[..start], false), start, k, patience).result.Uploaded?
    decreases patience
  {
    hide SendChunk, Healthy;
    var chunk := ChunkAt(file, chunkBytes, start);
    HealthySend(file, chunkBytes, net, Session(file[..start], false), start, k);
    assert send(Session(file[..start], false), chunk, k) == SendChunk(net, Session(file[..start], false), chunk, k);
    if !chunk.last { HealthyFrom(file, chunkBytes, send, net, chunk.end, k + 1, patience - 1); }
  }

  /** On a healthy network every file that is not empty is uploaded. */
  lemma HealthyUpload(file: seq<byte>, chunkBytes: nat, send: Sender<Session, Answer>, net: Network, patience: nat)
    requires IsGoogle(send, net) && Healthy(net, chunkBytes) && chunkBytes > 0 && file != [] && patience >= |file|
    ensures UploadFrom(file, chunkBytes, send, Session([], false), 0, 0, patience).result.Uploaded?
  {
    assert file[..0] == [];
    HealthyFrom(file, chunkBytes, send, net, 0, 0, patience);
  }

  /** A 308 without a `Range` is taken for the whole chunk: a provider that kept nothing of a
      one-chunk file is never asked again. */
  lemma MissingRangeSkipsChunk(
    file: seq<byte>, chunkBytes: nat, send: Sender<Session, Answer>, net: Network, patience: nat)
    requires IsGoogle(send, net) && 0 < |file| <= chunkBytes && patience > 0
    requires net.fates(0, 0).Answered? && net.wills(0, 0).take == 0
    ensures var u := UploadFrom(file, chunkBytes, send, Session([], false), 0, 0, patience);
      u.result.EndedEarly? && u.session.held == []
  {
    var chunk := ChunkAt(file, chunkBytes, 0);
    var s := Session([], false);
    assert Extended([], chunk, 0) == [];
    assert Put(s, chunk, net.wills(0, 0)) == (s, Incomplete(None));
    assert PutEndpoint(net, chunk, 0).deliver(s, 0) == (s, Incomplete(None));
    assert Requested(PutEndpoint(net, chunk, 0), OfSend(net, 0), DEFAULT_ATTEMPTS, 0, s) ==
      (s, Returned(Incomplete(None)));
    assert send(s, chunk, 0) == (s, ResumeAt(|file|, Incomplete(None)));
  }
}
