/** Dropbox upload sessions (packages/drive/src/dropbox.ts, `#uploadSession`). */
module Dropbox {
  import opened Wrappers
  import opened Bytes
  import opened Http
  import opened Chunks

  /** The provider's side: the bytes of the session, and the file once the session is finished. */
  datatype Session = Session(held: seq<byte>, committed: Option<seq<byte>>)

  datatype Answer = Appended | Entry | IncorrectOffset(correctOffset: nat) | Gone

  predicate Ok(a: Answer) { a.Appended? || a.Entry? }

  function Status(a: Answer): nat { if Ok(a) then 200 else 409 }

  /** An append counts only at the session's own offset. */
  function Append(s: Session, offset: nat, bytes: seq<byte>): (Session, Answer) {
    if s.committed.Some? then (s, Gone)
    else if offset != |s.held| then (s, IncorrectOffset(|s.held|))
    else (s.(held := s.held + bytes), Appended)
  }

  function Finish(s: Session, offset: nat, bytes: seq<byte>): (Session, Answer) {
    if s.committed.Some? then (s, Gone)
    else if offset != |s.held| then (s, IncorrectOffset(|s.held|))
    else (Session(s.held + bytes, Some(s.held + bytes)), Entry)
  }

  function AppendEndpoint(chunk: Chunk): Endpoint<Session, Answer> {
    Endpoint((s, n) => Append(s, chunk.start, chunk.bytes), Ok, Status)
  }

  function FinishEndpoint(chunk: Chunk): Endpoint<Session, Answer> {
    Endpoint((s, n) => Finish(s, chunk.start, chunk.bytes), Ok, Status)
  }

  /** What the network does: the fate of each attempt of each send, and whether the body of a successful
      answer arrives. */
  datatype Network = Network(fates: (nat, nat) -> Fate, bodies: nat -> bool)

  function OfSend(net: Network, k: nat): nat -> Fate { (n: nat) => net.fates(k, n) }

  /** `send`: finish with the last chunk, append any other, and follow the offset Dropbox names. */
  function SendChunk(net: Network, s: Session, chunk: Chunk, k: nat): (Session, Sent<Answer>) {
    if chunk.last then
      var (s', reply) := Requested(FinishEndpoint(chunk), OfSend(net, k), DEFAULT_ATTEMPTS, 0, s);
      (s', if reply.Returned? && net.bodies(k) then Done else Failed)
    else
      var (s', reply) := Requested(AppendEndpoint(chunk), OfSend(net, k), DEFAULT_ATTEMPTS, 0, s);
      if reply.Returned? then (s', if net.bodies(k) then ResumeAt(chunk.end, reply.answer) else Failed)
      else if reply.refusal.Some? && reply.refusal.value.IncorrectOffset? then
        (s', ResumeAt(reply.refusal.value.correctOffset, reply.refusal.value))
      else (s', Failed)
  }

  // ----- one send --------------------------------------------------------------------------

  lemma {:induction false} RepeatedAppend(s: Session, chunk: Chunk, acted: seq<nat>)
    requires s.committed.None? && chunk.start == |s.held| && chunk.bytes != []
    ensures var e := AppendEndpoint(chunk);
      && Delivered(e, s, acted) == (if acted == [] then s else s.(held := s.held + chunk.bytes))
      && (acted != [] ==>
            e.deliver(Delivered(e, s, acted[..|acted| - 1]), acted[|acted| - 1]).1
            == (if |acted| == 1 then Appended else IncorrectOffset(|s.held + chunk.bytes|)))
  {
    if acted != [] { RepeatedAppend(s, chunk, acted[..|acted| - 1]); }
  }

  lemma {:induction false} RepeatedFinish(s: Session, chunk: Chunk, acted: seq<nat>)
    requires s.committed.None? && chunk.start == |s.held|
    ensures var e := FinishEndpoint(chunk);
      && Delivered(e, s, acted) == (if acted == [] then s
        else Session(s.held + chunk.bytes, Some(s.held + chunk.bytes)))
      && (acted != [] ==>
            e.deliver(Delivered(e, s, acted[..|acted| - 1]), acted[|acted| - 1]).1 ==
              (if |acted| == 1 then Entry else Gone))
  {
    if acted != [] { RepeatedFinish(s, chunk, acted[..|acted| - 1]); }
  }

  /** The provider holds the file up to an offset and has committed nothing. */
  predicate HoldsUpTo(file: seq<byte>, s: Session, offset: nat) {
    offset <= |file| && s.held == file[..offset] && s.committed.None?
  }

  /** A send that finishes, and that the provider acted on at least once. */
  predicate Finished(net: Network, s: Session, chunk: Chunk, k: nat) {
    chunk.last && Deliveries(FinishEndpoint(chunk), OfSend(net, k), DEFAULT_ATTEMPTS, 0, s) != []
  }

  /** A send from the provider's offset either leaves the provider alone or gives it the whole chunk,
      however often it was repeated; what it concludes about the offset is true. */
  lemma SendKeepsPrefix(file: seq<byte>, chunkBytes: nat, net: Network, s: Session, start: nat, k: nat)
    requires chunkBytes > 0 && start < |file| && HoldsUpTo(file, s, start)
    ensures var chunk := ChunkAt(file, chunkBytes, start);
      var (s', outcome) := SendChunk(net, s, chunk, k);
      && (outcome.ResumeAt? ==> !chunk.last && outcome.offset == chunk.end && HoldsUpTo(file, s', chunk.end))
      && (outcome.Done? ==> chunk.last && s' == Session(file, Some(file)))
      && (outcome.Failed? ==> s' == s || HoldsUpTo(file, s', chunk.end) || s' == Session(file, Some(file)))
      && (s'.committed == Some(file) <==> Finished(net, s, chunk, k))
  {
    var chunk := ChunkAt(file, chunkBytes, start);
    assert file[..start] + chunk.bytes == file[..chunk.end];
    if chunk.last {
      assert file[..chunk.end] == file;
      var acted := RequestActs(FinishEndpoint(chunk), OfSend(net, k), DEFAULT_ATTEMPTS, 0, s);
      RepeatedFinish(s, chunk, acted);
    } else {
      var acted := RequestActs(AppendEndpoint(chunk), OfSend(net, k), DEFAULT_ATTEMPTS, 0, s);
      RepeatedAppend(s, chunk, acted);
    }
  }

  // ----- the whole upload ------------------------------------------------------------------

  /** The number of chunks of `n` bytes. */
  function ChunkCount(n: nat, chunkBytes: nat): nat
    requires chunkBytes > 0
  {
    if n == 0 then 0 else if n <= chunkBytes then 1 else 1 + ChunkCount(n - chunkBytes, chunkBytes)
  }

  lemma {:induction false} ChunkCountIsCeiling(n: nat, chunkBytes: nat)
    requires chunkBytes > 0
    ensures (ChunkCount(n, chunkBytes) - 1) * chunkBytes < n <= ChunkCount(n, chunkBytes) * chunkBytes || n == 0
    ensures n == 0 ==> ChunkCount(n, chunkBytes) == 0
  {
    if n > chunkBytes {
      ChunkCountIsCeiling(n - chunkBytes, chunkBytes);
      var c := ChunkCount(n - chunkBytes, chunkBytes);
      assert (1 + c) * chunkBytes == c * chunkBytes + chunkBytes;
      assert (1 + c - 1) * chunkBytes == (c - 1) * chunkBytes + chunkBytes;
    }
  }

  /** Every send starts at the provider's own offset, where it holds the file so far. */
  predicate Aligned(file: seq<byte>, sends: seq<Send<Session, Answer>>) {
    forall i :: 0 <= i < |sends| ==> HoldsUpTo(file, sends[i].before, sends[i].start)
  }

  lemma AlignedCons(file: seq<byte>, first: Send<Session, Answer>, rest: seq<Send<Session, Answer>>)
    requires HoldsUpTo(file, first.before, first.start) && Aligned(file, rest)
    ensures Aligned(file, [first] + rest)
  {}

  lemma FinishedCons(
    file: seq<byte>, chunkBytes: nat, net: Network, first: Send<Session, Answer>, rest: seq<Send<Session, Answer>>,
      k: nat)
    requires first.start < |file| && !Finished(net, first.before, ChunkAt(file, chunkBytes, first.start), k)
    ensures FinishedLast(file, chunkBytes, net, [first] + rest, k) <==> FinishedLast(file, chunkBytes, net, rest, k + 1)
  {
    hide Finished, ChunkAt;
    if rest != [] { assert ([first] + rest)[|rest|] == rest[|rest| - 1]; }
  }

  /** What the provider may be left with. */
  predicate Prefix(file: seq<byte>, s: Session) {
    s.held <= file && (s.committed.Some? ==> s.committed.value == file)
  }

  /** The last of the sends, number `k` being the first, finished the session. */
  predicate FinishedLast(file: seq<byte>, chunkBytes: nat, net: Network, sends: seq<Send<Session, Answer>>, k: nat) {
    && sends != []
    && var (n, last) := (|sends| - 1, sends[|sends| - 1]);
    && last.start < |file| && Finished(net, last.before, ChunkAt(file, chunkBytes, last.start), k + n)
  }

  ghost predicate IsDropbox(send: Sender<Session, Answer>, net: Network) {
    forall s, chunk, k :: send(s, chunk, k) == SendChunk(net, s, chunk, k)
  }

  lemma NoSends(file: seq<byte>, chunkBytes: nat, net: Network, s: Session, k: nat)
    ensures Aligned(file, []) && !FinishedLast(file, chunkBytes, net, [], k)
    ensures forall offset :: HoldsUpTo(file, s, offset) ==> Prefix(file, s)
  {}

  lemma OneSend(file: seq<byte>, chunkBytes: nat, net: Network, first: Send<Session, Answer>, k: nat)
    requires HoldsUpTo(file, first.before, first.start) && first.start < |file|
    ensures Aligned(file, [first])
    ensures FinishedLast(file, chunkBytes, net, [first], k) <==>
      Finished(net, first.before, ChunkAt(file, chunkBytes, first.start), k)
    ensures forall offset :: HoldsUpTo(file, first.after, offset) ==> Prefix(file, first.after)
    ensures first.after == Session(file, Some(file)) || first.after == first.before ==> Prefix(file, first.after)
  {
    hide Finished, ChunkAt;
  }

  lemma {:induction false} UploadSessionFrom(
    file: seq<byte>, chunkBytes: nat, send: Sender<Session, Answer>, net: Network, s: Session, start: nat, k: nat,
      patience: nat)
    requires chunkBytes > 0 && IsDropbox(send, net) && HoldsUpTo(file, s, start)
    requires start == |file| ==> start == 0
    ensures var u := UploadFrom(file, chunkBytes, send, s, start, k, patience);
      var count := ChunkCount(|file| - start, chunkBytes);
      && Aligned(file, u.sends) && Prefix(file, u.session)
      && (u.result.Uploaded? ==> u.session == Session(file, Some(file)) && |u.sends| == count)
      && (u.result.EndedEarly? <==> file == [])
      && (patience >= count ==> !u.result.InFlight?)
      && |u.sends| <= count
      && (u.session.committed == Some(file) <==> FinishedLast(file, chunkBytes, net, u.sends, k))
    decreases patience
  {
    hide SendChunk, Finished, FinishedLast, Aligned, Prefix;
    NoSends(file, chunkBytes, net, s, k);
    if start < |file| && patience > 0 {
      var chunk := ChunkAt(file, chunkBytes, start);
      SendKeepsPrefix(file, chunkBytes, net, s, start, k);
      var (s', outcome) := send(s, chunk, k);
      assert (s', outcome) == SendChunk(net, s, chunk, k);
      var first := Send(start, chunk.end, s, outcome, s');
      OneSend(file, chunkBytes, net, first, k);
      if outcome.ResumeAt? {
        UploadSessionFrom(file, chunkBytes, send, net, s', chunk.end, k + 1, patience - 1);
        var rest := UploadFrom(file, chunkBytes, send, s', chunk.end, k + 1, patience - 1);
        AlignedCons(file, first, rest.sends);
        FinishedCons(file, chunkBytes, net, first, rest.sends, k);
      }
    }
  }

  /** Against every network, with every chunk size and file: each send starts at the provider's offset,
      the provider always holds a prefix of the file, a finished upload left exactly the file there with
      one send a chunk, it ends by itself, and it ends before the file did only if the file is empty.  The
      file is committed, whatever the caller is told, if and only if the provider acted on the finishing send. */
  lemma UploadSession(file: seq<byte>, chunkBytes: nat, send: Sender<Session, Answer>, net: Network, patience: nat)
    requires chunkBytes > 0 && IsDropbox(send, net)
    ensures var u := UploadFrom(file, chunkBytes, send, Session([], None), 0, 0, patience);
      && Aligned(file, u.sends) && Prefix(file, u.session)
      && (u.result.Uploaded? ==> u.session.committed == Some(file))
      && (u.result.Uploaded? ==> (|u.sends| - 1) * chunkBytes < |file| <= |u.sends| * chunkBytes)
      && (u.result.EndedEarly? <==> file == [])
      && (patience >= |file| ==> !u.result.InFlight?)
      && (u.session.committed == Some(file) <==> FinishedLast(file, chunkBytes, net, u.sends, 0))
  {
    hide ChunkCount, Aligned, Prefix, UploadFrom, FinishedLast;
    UploadSessionFrom(file, chunkBytes, send, net, Session([], None), 0, 0, patience);
    ChunkCountIsCeiling(|file|, chunkBytes);
    CountAtMostBytes(|file|, chunkBytes);
  }

  lemma {:induction false} CountAtMostBytes(n: nat, chunkBytes: nat)
    requires chunkBytes > 0
    ensures ChunkCount(n, chunkBytes) <= n
  {
    if n > chunkBytes { CountAtMostBytes(n - chunkBytes, chunkBytes); }
  }

  // ----- when an upload succeeds -----------------------------------------------------------

  /** From attempt `n` on an append is heard of: its success with the body of the answer, or, once a delivery of it
      has been acted on and the answer lost, the refusal that names the offset. */
  predicate AppendHeard(fates: nat -> Fate, body: bool, n: nat, acted: bool)
    requires n < 5
    decreases 5 - n
  {
    match fates(n)
    case Dropped(aborted) => n + 1 < 5 && !aborted && AppendHeard(fates, body, n + 1, acted)
    case Lost(aborted) => n + 1 < 5 && !aborted && AppendHeard(fates, body, n + 1, true)
    case Unavailable(status, v) => n + 1 < 5 && Retries(status, v) && AppendHeard(fates, body, n + 1, acted)
    case Answered(v) =>
      if !acted then body else n + 1 < 5 && Retries(409, v) ==> AppendHeard(fates, body, n + 1, true)
  }

  /** From attempt `n` on a finish is heard of: the first delivery of it that is acted on is answered, body and all. */
  predicate FinishHeard(fates: nat -> Fate, body: bool, n: nat)
    requires n < 5
    decreases 5 - n
  {
    match fates(n)
    case Dropped(aborted) => n + 1 < 5 && !aborted && FinishHeard(fates, body, n + 1)
    case Lost(_) => false
    case Unavailable(status, v) => n + 1 < 5 && Retries(status, v) && FinishHeard(fates, body, n + 1)
    case Answered(_) => body
  }

  lemma {:induction false} AppendReply(s: Session, chunk: Chunk, fates: nat -> Fate, body: bool, n: nat, acted: bool)
    requires s.committed.None? && chunk.bytes != [] && n < DEFAULT_ATTEMPTS
    requires chunk.start == if acted then |s.held| - |chunk.bytes| else |s.held|
    ensures var reply := Requested(AppendEndpoint(chunk), fates, DEFAULT_ATTEMPTS, n, s).1;
      (if reply.Returned? then body else reply.refusal.Some? && reply.refusal.value.IncorrectOffset?)
      <==> AppendHeard(fates, body, n, acted)
    decreases DEFAULT_ATTEMPTS - n
  {
    hide Retries;
    var (s', a) := Append(s, chunk.start, chunk.bytes);
    assert AppendEndpoint(chunk).deliver(s, n) == (s', a);
    if n + 1 < DEFAULT_ATTEMPTS {
      AppendReply(s, chunk, fates, body, n + 1, acted);
      AppendReply(s', chunk, fates, body, n + 1, true);
    }
  }

  lemma {:induction false} FinishReply(s: Session, chunk: Chunk, fates: nat -> Fate, body: bool, n: nat)
    requires n < DEFAULT_ATTEMPTS && (s.committed.None? ==> chunk.start == |s.held|)
    ensures (Requested(FinishEndpoint(chunk), fates, DEFAULT_ATTEMPTS, n, s).1.Returned? && body)
      <==> s.committed.None? && FinishHeard(fates, body, n)
    decreases DEFAULT_ATTEMPTS - n
  {
    hide Retries;
    var (s', a) := Finish(s, chunk.start, chunk.bytes);
    assert FinishEndpoint(chunk).deliver(s, n) == (s', a);
    if n + 1 < DEFAULT_ATTEMPTS {
      FinishReply(s, chunk, fates, body, n + 1);
      FinishReply(s', chunk, fates, body, n + 1);
    }
  }

  /** Of the sends `k` to `k + count - 1` the last is heard of as a finish, every other as an append. */
  ghost predicate AllHeard(net: Network, k: nat, count: nat)
    requires count > 0
  {
    && (forall i :: k <= i < k + count - 1 ==> AppendHeard(OfSend(net, i), net.bodies(i), 0, false))
    && FinishHeard(OfSend(net, k + count - 1), net.bodies(k + count - 1), 0)
  }

  lemma SendHeard(file: seq<byte>, chunkBytes: nat, net: Network, s: Session, start: nat, k: nat)
    requires chunkBytes > 0 && start < |file| && HoldsUpTo(file, s, start)
    ensures var chunk := ChunkAt(file, chunkBytes, start);
      var outcome := SendChunk(net, s, chunk, k).1;
      if chunk.last then outcome.Done? <==> FinishHeard(OfSend(net, k), net.bodies(k), 0)
      else outcome.ResumeAt? <==> AppendHeard(OfSend(net, k), net.bodies(k), 0, false)
  {
    var chunk := ChunkAt(file, chunkBytes, start);
    if chunk.last {
      FinishReply(s, chunk, OfSend(net, k), net.bodies(k), 0);
    } else {
      AppendReply(s, chunk, OfSend(net, k), net.bodies(k), 0, false);
    }
    hide AppendHeard, FinishHeard, OfSend, FinishEndpoint, AppendEndpoint;
  }

  lemma {:induction false} UploadedFrom(
    file: seq<byte>, chunkBytes: nat, send: Sender<Session, Answer>, net: Network, s: Session, start: nat, k: nat,
    patience: nat)
    requires chunkBytes > 0 && IsDropbox(send, net) && HoldsUpTo(file, s, start) && start < |file|
    requires patience >= ChunkCount(|file| - start, chunkBytes)
    ensures UploadFrom(file, chunkBytes, send, s, start, k, patience).result.Uploaded?
      <==> AllHeard(net, k, ChunkCount(|file| - start, chunkBytes))
    decreases patience
  {
    hide SendChunk, AppendHeard, FinishHeard;
    var chunk := ChunkAt(file, chunkBytes, start);
    SendKeepsPrefix(file, chunkBytes, net, s, start, k);
    SendHeard(file, chunkBytes, net, s, start, k);
    var (s', outcome) := send(s, chunk, k);
    assert (s', outcome) == SendChunk(net, s, chunk, k);
    var count := ChunkCount(|file| - start, chunkBytes);
    if chunk.last {
      assert count == 1;
    } else {
      assert count == 1 + ChunkCount(|file| - chunk.end, chunkBytes);
      if outcome.ResumeAt? {
        UploadedFrom(file, chunkBytes, send, net, s', chunk.end, k + 1, patience - 1);
        HeardFirst(net, k, count);
      }
    }
  }

  lemma HeardFirst(net: Network, k: nat, count: nat)
    requires count > 1 && AppendHeard(OfSend(net, k), net.bodies(k), 0, false)
    ensures AllHeard(net, k, count) <==> AllHeard(net, k + 1, count - 1)
  {
    hide AppendHeard, FinishHeard;
  }

  /** An upload of a file that is not empty succeeds if and only if every send of it is heard of: from the network
      alone, whatever the provider was asked for twice. */
  lemma UploadSucceeds(file: seq<byte>, chunkBytes: nat, send: Sender<Session, Answer>, net: Network, patience: nat)
    requires chunkBytes > 0 && IsDropbox(send, net) && file != [] && patience >= ChunkCount(|file|, chunkBytes)
    ensures UploadFrom(file, chunkBytes, send, Session([], None), 0, 0, patience).result.Uploaded?
      <==> AllHeard(net, 0, ChunkCount(|file|, chunkBytes))
  {
    hide AllHeard, UploadFrom;
    UploadedFrom(file, chunkBytes, send, net, Session([], None), 0, 0, patience);
  }
}
