/** Reading a file chunk by chunk and driving a session upload (packages/drive/src/chunks.ts). */
module Chunks {
  import opened Wrappers
  import opened Bytes

  datatype Chunk = Chunk(bytes: seq<byte>, start: nat, end: nat, total: nat, last: bool)

  /** The chunk of a file at an offset. */
  function ChunkAt(file: seq<byte>, chunkBytes: nat, start: nat): Chunk
    requires start < |file|
  {
    var end := start + Min(chunkBytes, |file| - start);
    Chunk(file[start..end], start, end, |file|, end >= |file|)
  }

  /** An open file that does not change while it is read. */
  class FileHandle {
    const content: seq<byte>

    constructor (content: seq<byte>)
      ensures this.content == content
    {
      this.content := content;
    }

    /** `handle.read`: how much arrives is the disk's choice, but something does before the end. */
    method Read(buffer: array<byte>, at: nat, length: nat, position: nat, appetite: nat) returns (bytesRead: nat)
      requires at + length <= buffer.Length && position + length <= |content|
      modifies buffer
      ensures bytesRead <= length && (length > 0 ==> bytesRead > 0)
      ensures buffer[..at] == old(buffer[..at])
      ensures buffer[at..at + bytesRead] == content[position..position + bytesRead]
    {
      bytesRead := if length == 0 then 0 else if appetite == 0 then 1 else Min(appetite, length);
      for i := 0 to bytesRead
        invariant buffer[..at] == old(buffer[..at])
        invariant buffer[at..at + i] == content[position..position + i]
      {
        buffer[at + i] := content[position + i];
        assert buffer[at..at + i + 1] == buffer[at..at + i] + [content[position + i]];
        assert content[position..position + i + 1] == content[position..position + i] + [content[position + i]];
      }
    }
  }

  lemma Extends(s: seq<byte>, from: nat, mid: nat, to: nat)
    requires from <= mid <= to <= |s|
    ensures s[from..to] == s[from..mid] + s[mid..to]
  {
  }

  /** The generator `fileChunks`, suspended at its `yield`. */
  class FileChunks {
    const handle: FileHandle
    const chunkBytes: nat
    var start: nat
    var yielded: Option<nat>   // the end of the chunk handed out last

    constructor (handle: FileHandle, chunkBytes: nat)
      requires chunkBytes > 0
      ensures this.handle == handle && this.chunkBytes == chunkBytes && start == 0 && yielded == None
    {
      this.handle, this.chunkBytes, start, yielded := handle, chunkBytes, 0, None;
    }

    /** Where the next chunk starts: at the offset the consumer sends back, else where the last ended. */
    function Position(resumeAt: Option<nat>): nat reads this {
      if yielded.None? then start else if resumeAt.Some? then resumeAt.value else yielded.value
    }

    /** The next chunk, whole however short the reads are; nothing at or past the end of the file. */
    method Next(resumeAt: Option<nat>, appetites: nat -> nat) returns (chunk: Option<Chunk>)
      requires chunkBytes > 0
      modifies this
      ensures start == old(Position(resumeAt))
      ensures chunk == if start < |handle.content| then Some(ChunkAt(handle.content, chunkBytes, start)) else None
      ensures chunk.Some? ==> yielded == Some(chunk.value.end)
    {
      start := Position(resumeAt);
      var total := |handle.content|;
      if start >= total { return None; }
      var length := Min(chunkBytes, total - start);
      var bytes := new byte[length];
      var filled := 0;
      while filled < length
        modifies bytes
        invariant 0 <= filled <= length
        invariant bytes[..filled] == handle.content[start..start + filled]
      {
        ghost var before := bytes[..filled];
        var bytesRead := handle.Read(bytes, filled, length - filled, start + filled, appetites(filled));
        assert bytes[..filled] == before;
        Extends(bytes[..], 0, filled, filled + bytesRead);
        Extends(handle.content, start, start + filled, start + filled + bytesRead);
        assert bytes[..][filled..filled + bytesRead] == bytes[filled..filled + bytesRead];
        filled := filled + bytesRead;
      }
      var end := start + length;
      assert bytes[..] == bytes[..filled];
      chunk := Some(Chunk(bytes[..], start, end, total, end >= total));
      yielded := Some(end);
    }
  }

  // ----- a session upload ------------------------------------------------------------------

  /** What `send` makes of a chunk, and the answer it rests on. */
  datatype Sent<A> = Done | ResumeAt(offset: nat, heard: A) | Failed

  datatype Result = Uploaded | GaveUp | EndedEarly | InFlight

  /** One send: the chunk's offset and the provider's state before and after. */
  datatype Send<S, A> = Send(start: nat, end: nat, before: S, outcome: Sent<A>, after: S)

  type Sender<!S, !A> = (S, Chunk, nat) -> (S, Sent<A>)

  datatype Upload<S, A> = Upload(session: S, result: Result, sends: seq<Send<S, A>>)

  /** The upload from an offset on, watched for at most `patience` sends. */
  function UploadFrom<S, A>(file: seq<byte>, chunkBytes: nat, send: Sender<S, A>, session: S, start: nat,
                            k: nat, patience: nat): Upload<S, A>
    decreases patience
  {
    if start >= |file| then Upload(session, EndedEarly, [])
    else if patience == 0 then Upload(session, InFlight, [])
    else
      var chunk := ChunkAt(file, chunkBytes, start);
      var (session', outcome) := send(session, chunk, k);
      var record := Send(start, chunk.end, session, outcome, session');
      match outcome
      case Done => Upload(session', Uploaded, [record])
      case Failed => Upload(session', GaveUp, [record])
      case ResumeAt(offset, _) =>
        var rest := UploadFrom(file, chunkBytes, send, session', offset, k + 1, patience - 1);
        rest.(sends := [record] + rest.sends)
  }

  /** `uploadInChunks`: send, and go on from where the provider says it is. */
  method UploadInChunks<S, A>(handle: FileHandle, chunkBytes: nat, send: Sender<S, A>, before: S,
                              appetites: (nat, nat) -> nat, patience: nat)
    returns (session: S, result: Result, sends: seq<Send<S, A>>)
    requires chunkBytes > 0
    ensures Upload(session, result, sends) == UploadFrom(handle.content, chunkBytes, send, before, 0, 0, patience)
  {
    var chunks := new FileChunks(handle, chunkBytes);
    session, sends := before, [];
    var resumeAt: Option<nat> := None;
    var k := 0;
    ghost var whole := UploadFrom(handle.content, chunkBytes, send, before, 0, 0, patience);
    while k < patience
      invariant 0 <= k <= patience
      invariant fresh(chunks) && chunks.handle == handle && chunks.chunkBytes == chunkBytes
      invariant resumeAt.Some? || chunks.yielded.None?
      invariant var rest := UploadFrom(handle.content, chunkBytes, send, session, chunks.Position(resumeAt), k,
        patience - k);
        whole == rest.(sends := sends + rest.sends)
    {
      var next := chunks.Next(resumeAt, n => appetites(k, n));
      if next.None? { return session, EndedEarly, sends; }
      var (session', outcome) := send(session, next.value, k);
      var record := Send(next.value.start, next.value.end, session, outcome, session');
      ghost var earlier := sends;
      session, sends := session', sends + [record];
      match outcome {
        case Done => return session, Uploaded, sends;
        case Failed => return session, GaveUp, sends;
        case ResumeAt(offset, _) =>
          resumeAt := Some(offset);
          ghost var rest := UploadFrom(handle.content, chunkBytes, send, session, offset, k + 1, patience - k - 1);
          assert earlier + ([record] + rest.sends) == sends + rest.sends;
      }
      k := k + 1;
    }
    result := if chunks.Position(resumeAt) >= |handle.content| then EndedEarly else InFlight;
  }
}
