/** Downloads that resume and are checked before they count (packages/drive/src/download.ts). */
module Download {
  import opened Wrappers
  import opened Bytes

  const DOWNLOAD_ATTEMPTS := 10

  datatype Algorithm = Md5 | Sha256 | DropboxHash

  datatype Hash = Hash(algorithm: Algorithm, digest: string)

  /** A property of an object literal: spreading keeps one that is set, even if it is set to null. */
  datatype Field<T> = Unset | Null | Is(value: T)

  datatype Expectation = Expectation(size: Field<nat>, hash: Field<Hash>)

  const NOTHING := Expectation(Unset, Unset)

  /** `{...described, ...known}` */
  function Merged(described: Expectation, known: Expectation): Expectation {
    Expectation(if known.size.Unset? then described.size else known.size,
                if known.hash.Unset? then described.hash else known.hash)
  }

  /** What comes of one `open`.  `partial` is a 206, which starts at the asked offset; any other success
      carries the whole object.  The stream delivers at most `delivered` bytes and then ends cleanly
      or breaks; they reach the disk unless it broke because the file could not even be created. */
  datatype Reply =
    | Refused
    | NoBody
    | Body(partial: bool, delivered: nat, created: bool, clean: bool)

  datatype Source = Source(
    content: seq<byte>,                         // the object, which does not change
    replies: nat -> Reply,                      // by number of the attempt
    known: Option<Expectation>,                 // `source.expect`
    described: Option<Expectation>,             // what `describe`, if given, reads off the first response
    digest: (Algorithm, seq<byte>) -> string,   // the hash of a file
    lower: string -> string)

  /** What is expected once the first response is there. */
  function Expected(source: Source): Expectation {
    var known := if source.known.Some? then source.known.value else NOTHING;
    if source.described.Some? then Merged(source.described.value, known) else known
  }

  /** `verify` finds nothing wrong. */
  predicate Verified(source: Source, e: Expectation, file: seq<byte>) {
    && (e.size.Is? ==> |file| == e.size.value)
    && (e.hash.Is? ==> source.lower(source.digest(e.hash.value.algorithm, file)) == source.lower(e.hash.value.digest))
  }

  function SizeOf(file: Option<seq<byte>>): nat { if file.None? then 0 else |file.value| }

  /** The stream got as far as a file to write to. */
  predicate Reached(reply: Reply)
    requires reply.Body?
  {
    reply.created || reply.clean
  }

  /** The bytes a response carries when `offset` was asked for. */
  function BodyOf(content: seq<byte>, offset: nat, partial: bool): seq<byte> {
    if partial && offset <= |content| then content[offset..] else content
  }

  /** The partial file after a stream.  Only a 206 to a resuming request is appended. */
  function Written(content: seq<byte>, file: Option<seq<byte>>, reply: Reply): Option<seq<byte>>
    requires reply.Body?
  {
    var body := BodyOf(content, SizeOf(file), reply.partial);
    var arrived := body[..Min(reply.delivered, |body|)];
    if !Reached(reply) then file
    else if SizeOf(file) > 0 && reply.partial then Some(file.value + arrived)
    else Some(arrived)
  }

  // ----- the attempts ----------------------------------------------------------------------

  datatype End = Complete | OpenThrew | NoContent | Broke

  /** The attempts: the partial file at the end, how it ended, the offsets asked for and the partial
      file after every stream. */
  datatype Attempts = Attempts(partial: Option<seq<byte>>, end: End, asked: seq<nat>, history: seq<Option<seq<byte>>>)

  function AttemptsFrom(source: Source, partial: Option<seq<byte>>, attempt: nat): Attempts
    decreases DOWNLOAD_ATTEMPTS - attempt
  {
    var offset := SizeOf(partial);
    if attempt >= DOWNLOAD_ATTEMPTS then Attempts(partial, Broke, [], [])
    else
      var reply := source.replies(attempt);
      if reply.Refused? then Attempts(partial, OpenThrew, [offset], [])
      else if reply.NoBody? then Attempts(partial, NoContent, [offset], [])
      else
        var partial' := Written(source.content, partial, reply);
        if reply.clean then Attempts(partial', Complete, [offset], [partial'])
        else
          var rest := AttemptsFrom(source, partial', attempt + 1);
          rest.(asked := [offset] + rest.asked, history := [partial'] + rest.history)
  }

  /** One attempt. */
  lemma AttemptsUnfold(source: Source, partial: Option<seq<byte>>, attempt: nat)
    ensures var run := AttemptsFrom(source, partial, attempt);
      if attempt >= DOWNLOAD_ATTEMPTS then run.partial == partial && run.end == Broke && run.asked == []
      else
        var reply := source.replies(attempt);
        if reply.Refused? then run.partial == partial && run.end == OpenThrew && run.asked == [SizeOf(partial)]
        else if reply.NoBody? then run.partial == partial && run.end == NoContent && run.asked == [SizeOf(partial)]
        else if reply.clean then
          run.partial == Written(source.content, partial, reply) && run.end == Complete
            && run.asked == [SizeOf(partial)]
        else
          var rest := AttemptsFrom(source, Written(source.content, partial, reply), attempt + 1);
          run.partial == rest.partial && run.end == rest.end && run.asked == [SizeOf(partial)] + rest.asked
  {}

  datatype Outcome = Downloaded | Failed(end: End) | Rejected

  /** What is left on the disk, and what the caller is told. */
  datatype Final = Final(destination: Option<seq<byte>>, partial: Option<seq<byte>>, outcome: Outcome)

  function Finished(source: Source, destination: Option<seq<byte>>): Final {
    var run := AttemptsFrom(source, None, 0);
    match run.end
    case OpenThrew => Final(destination, run.partial, Failed(OpenThrew))
    case NoContent => Final(destination, None, Failed(NoContent))
    case Broke => Final(destination, None, Failed(Broke))
    case Complete =>
      if run.partial.Some? && Verified(source, Expected(source), run.partial.value)
      then Final(run.partial, None, Downloaded)
      else Final(destination, None, Rejected)
  }

  class Disk {
    var partial: Option<seq<byte>>
    var destination: Option<seq<byte>>

    constructor (destination: Option<seq<byte>>, partial: Option<seq<byte>>)
      ensures this.destination == destination && this.partial == partial
    {
      this.destination, this.partial := destination, partial;
    }

    /** One stream into the partial file. */
    method Pipe(source: Source, reply: Reply, resuming: bool)
      requires reply.Body? && (resuming <==> SizeOf(partial) > 0 && reply.partial)
      modifies this`partial
      ensures partial == Written(source.content, old(partial), reply)
    {
      var body := BodyOf(source.content, SizeOf(partial), reply.partial);
      var arrived := body[..Min(reply.delivered, |body|)];
      if Reached(reply) {
        partial := if resuming then Some(partial.value + arrived) else Some(arrived);
      }
    }

    /** The loop over the attempts. */
    method Fetch(source: Source) returns (end: End, expectation: Expectation, asked: seq<nat>)
      modifies this`partial
      ensures var run := AttemptsFrom(source, None, 0); partial == run.partial && end == run.end && asked == run.asked
      ensures !end.OpenThrew? ==> expectation == Expected(source)
    {
      hide Written, AttemptsFrom;
      partial := None;
      expectation := if source.known.Some? then source.known.value else NOTHING;
      var written := 0;
      asked, end := [], Broke;
      ghost var run := AttemptsFrom(source, None, 0);
      var attempt := 0;
      while attempt < DOWNLOAD_ATTEMPTS
        invariant 0 <= attempt <= DOWNLOAD_ATTEMPTS && end == Broke && written == SizeOf(partial)
        invariant attempt > 0 ==> expectation == Expected(source)
        invariant attempt == 0 ==> expectation == if source.known.Some? then source.known.value else NOTHING
        invariant var rest := AttemptsFrom(source, partial, attempt);
          run.partial == rest.partial && run.end == rest.end && run.asked == asked + rest.asked
      {
        var reply := source.replies(attempt);
        asked := asked + [written];
        AttemptsUnfold(source, partial, attempt);
        if reply.Refused? { return OpenThrew, expectation, asked; }
        if attempt == 0 && source.described.Some? {
          expectation := Merged(source.described.value, expectation);
        }
        if reply.NoBody? { return NoContent, expectation, asked; }
        var resuming := written > 0 && reply.partial;
        Pipe(source, reply, resuming);
        if reply.clean { return Complete, expectation, asked; }
        written := SizeOf(partial);
        attempt := attempt + 1;
      }
      AttemptsUnfold(source, partial, attempt);
    }
  }

  /** `downloadToFile` */
  method DownloadToFile(disk: Disk, source: Source) returns (outcome: Outcome)
    modifies disk
    ensures Final(disk.destination, disk.partial, outcome) == Finished(source, old(disk.destination))
  {
    var end, expectation, asked := disk.Fetch(source);
    if end.OpenThrew? { return Failed(OpenThrew); }
    if !end.Complete? {
      disk.partial := None;
      return Failed(end);
    }
    if disk.partial.None? || !Verified(source, expectation, disk.partial.value) {
      disk.partial := None;
      return Rejected;
    }
    disk.destination := disk.partial;
    disk.partial := None;
    return Downloaded;
  }

  // ----- what holds of every download ------------------------------------------------------

  predicate IsPrefix(content: seq<byte>, file: Option<seq<byte>>) { file.Some? ==> file.value <= content }

  /** The stream brought all that the response to a request from `offset` carried. */
  predicate Whole(content: seq<byte>, offset: nat, reply: Reply) {
    reply.Body? && reply.delivered >= |BodyOf(content, offset, reply.partial)|
  }

  lemma WrittenIsPrefix(content: seq<byte>, file: Option<seq<byte>>, reply: Reply)
    requires reply.Body? && IsPrefix(content, file)
    ensures IsPrefix(content, Written(content, file, reply))
    ensures reply.clean ==> (Written(content, file, reply) == Some(content) <==> Whole(content, SizeOf(file), reply))
    ensures Reached(reply) && SizeOf(file) > 0 && reply.partial ==>
      SizeOf(Written(content, file, reply)) == Min(SizeOf(file) + reply.delivered, |content|)
    ensures Reached(reply) && !(SizeOf(file) > 0 && reply.partial) ==>
      Written(content, file, reply).Some? && SizeOf(Written(content, file, reply)) == Min(reply.delivered, |content|)
    ensures !Reached(reply) ==> Written(content, file, reply) == file
  {
    var body := BodyOf(content, SizeOf(file), reply.partial);
    var arrived := body[..Min(reply.delivered, |body|)];
    assert body[..|body|] == body && content[..|content|] == content;
    if SizeOf(file) > 0 && reply.partial {
      assert file.value == content[..SizeOf(file)];
      assert file.value + arrived == content[..SizeOf(file) + |arrived|];
    }
    if reply.clean && !Whole(content, SizeOf(file), reply) { assert |Written(content, file, reply).value| < |content|; }
  }

  /** What attempts from number `attempt` on leave behind: prefixes of the object, and the whole of it
      exactly when the last stream ended cleanly and was whole. */
  ghost predicate Sound(source: Source, run: Attempts, attempt: nat) {
    && IsPrefix(source.content, run.partial)
    && (forall i :: 0 <= i < |run.history| ==> IsPrefix(source.content, run.history[i]))
    && |run.asked| <= DOWNLOAD_ATTEMPTS - attempt
    && (run.end.Complete? ==>
          |run.asked| >= 1
          && (run.partial == Some(source.content)
              <==> Whole(source.content, run.asked[|run.asked| - 1], source.replies(attempt + |run.asked| - 1))))
  }

  lemma SoundCons(source: Source, offset: nat, partial: Option<seq<byte>>, rest: Attempts, attempt: nat)
    requires Sound(source, rest, attempt + 1) && IsPrefix(source.content, partial) && attempt < DOWNLOAD_ATTEMPTS
    ensures Sound(source, rest.(asked := [offset] + rest.asked, history := [partial] + rest.history), attempt)
  {
    hide Whole;
    var n := |rest.asked|;
    if n >= 1 {
      assert ([offset] + rest.asked)[n] == rest.asked[n - 1];
      assert attempt + 1 + n - 1 == attempt + n;
    }
  }

  lemma {:induction false} AttemptsKeepPrefix(source: Source, partial: Option<seq<byte>>, attempt: nat)
    requires IsPrefix(source.content, partial) && attempt <= DOWNLOAD_ATTEMPTS
    ensures Sound(source, AttemptsFrom(source, partial, attempt), attempt)
    decreases DOWNLOAD_ATTEMPTS - attempt
  {
    if attempt < DOWNLOAD_ATTEMPTS && source.replies(attempt).Body? {
      WrittenIsPrefix(source.content, partial, source.replies(attempt));
      var partial' := Written(source.content, partial, source.replies(attempt));
      hide Written, Whole, IsPrefix;
      if !source.replies(attempt).clean {
        AttemptsKeepPrefix(source, partial', attempt + 1);
        hide Sound;
        SoundCons(source, SizeOf(partial), partial', AttemptsFrom(source, partial', attempt + 1), attempt);
      }
    }
  }

  /** The i-th request asks for what the disk does not hold yet: it starts at the size of the partial file. */
  predicate ResumesAt(asked: seq<nat>, history: seq<Option<seq<byte>>>, partial: Option<seq<byte>>, i: nat)
    requires i < |asked|
  {
    i <= |history| && asked[i] == SizeOf(if i == 0 then partial else history[i - 1])
  }

  ghost predicate Resumes(run: Attempts, partial: Option<seq<byte>>) {
    forall i :: 0 <= i < |run.asked| ==> ResumesAt(run.asked, run.history, partial, i)
  }

  lemma ResumesCons(partial: Option<seq<byte>>, partial': Option<seq<byte>>, rest: Attempts)
    requires Resumes(rest, partial')
    ensures Resumes(rest.(asked := [SizeOf(partial)] + rest.asked, history := [partial'] + rest.history), partial)
  {
    var asked, history := [SizeOf(partial)] + rest.asked, [partial'] + rest.history;
    forall i | 0 <= i < |asked| ensures ResumesAt(asked, history, partial, i) {
      if i > 0 {
        assert ResumesAt(rest.asked, rest.history, partial', i - 1);
        assert asked[i] == rest.asked[i - 1];
      }
    }
  }

  lemma {:induction false} AttemptsResume(source: Source, partial: Option<seq<byte>>, attempt: nat)
    ensures Resumes(AttemptsFrom(source, partial, attempt), partial)
    decreases DOWNLOAD_ATTEMPTS - attempt
  {
    hide Written, SizeOf;
    if attempt < DOWNLOAD_ATTEMPTS && source.replies(attempt).Body? && !source.replies(attempt).clean {
      var partial' := Written(source.content, partial, source.replies(attempt));
      AttemptsResume(source, partial', attempt + 1);
      hide Resumes;
      ResumesCons(partial, partial', AttemptsFrom(source, partial', attempt + 1));
    }
  }

  /** The number of the attempt whose stream ended cleanly. */
  function LastAttempt(source: Source): int { |AttemptsFrom(source, None, 0).asked| - 1 }

  /** For one fixed object and streams that may break anywhere: the partial file is a prefix of the object
      after every stream, each request resumes from what reached the disk, at most ten are made, and every
      failing path leaves the destination untouched and, unless `open` threw, no partial file. */
  lemma DownloadIsSafe(source: Source, destination: Option<seq<byte>>)
    ensures var run := AttemptsFrom(source, None, 0);
      && |run.asked| <= DOWNLOAD_ATTEMPTS
      && (forall i :: 0 <= i < |run.history| ==> IsPrefix(source.content, run.history[i]))
      && Resumes(run, None)
    ensures var f := Finished(source, destination);
      && (!f.outcome.Downloaded? ==> f.destination == destination)
      && (f.partial == None || (f.outcome == Failed(OpenThrew) && IsPrefix(source.content, f.partial)))
      && (f.outcome.Downloaded? ==> f.destination.Some? && f.destination.value <= source.content
                                    && Verified(source, Expected(source), f.destination.value))
  {
    hide AttemptsFrom, Whole, Verified, Expected, Resumes;
    AttemptsKeepPrefix(source, None, 0);
    AttemptsResume(source, None, 0);
  }

  /** The offset that attempt asked for. */
  function LastAsked(source: Source): nat
    requires LastAttempt(source) >= 0
  {
    AttemptsFrom(source, None, 0).asked[LastAttempt(source)]
  }

  /** A destination that changes becomes the whole object exactly when the stream that ended cleanly had
      brought all that was asked for; a stated size that is the object's makes sure that it had. */
  lemma DownloadIsWhole(source: Source, destination: Option<seq<byte>>)
    requires Finished(source, destination).outcome.Downloaded?
    ensures LastAttempt(source) >= 0
    ensures Finished(source, destination).destination == Some(source.content)
      <==> Whole(source.content, LastAsked(source), source.replies(LastAttempt(source)))
    ensures Expected(source).size == Is(|source.content|) ==>
      Finished(source, destination).destination == Some(source.content)
  {
    hide AttemptsFrom, Whole, Expected;
    AttemptsKeepPrefix(source, None, 0);
    var file := AttemptsFrom(source, None, 0).partial.value;
    assert |file| == |source.content| ==> file == source.content;
  }

  // ----- what the caller is told -----------------------------------------------------------

  /** A property that is stated: by the caller where it says anything of it, even that there is none, and
      otherwise by what the first response describes. */
  function Stated<T>(known: Field<T>, described: Field<T>): Option<T> {
    match (if known.Unset? then described else known)
    case Is(value) => Some(value)
    case _ => None
  }

  function KnownOf(source: Source): Expectation { if source.known.Some? then source.known.value else NOTHING }

  function DescribedOf(source: Source): Expectation {
    if source.described.Some? then source.described.value else NOTHING
  }

  /** Once a stream has ended cleanly, the file counts if and only if its length is the stated size, where one is
      stated, and its digest is the stated one, letter case aside, where one is stated. */
  lemma DownloadCounts(source: Source, destination: Option<seq<byte>>)
    requires AttemptsFrom(source, None, 0).end.Complete?
    ensures AttemptsFrom(source, None, 0).partial.Some?
    ensures var file := AttemptsFrom(source, None, 0).partial.value;
      var size := Stated(KnownOf(source).size, DescribedOf(source).size);
      var hash := Stated(KnownOf(source).hash, DescribedOf(source).hash);
      && (Finished(source, destination).outcome.Downloaded? <==>
          && (size.Some? ==> |file| == size.value)
          && (hash.Some? ==>
                source.lower(source.digest(hash.value.algorithm, file)) == source.lower(hash.value.digest)))
      && (Finished(source, destination).outcome.Downloaded? ==> Finished(source, destination).destination == Some(file))
  {
    CompleteHasFile(source, None, 0);
    hide AttemptsFrom;
  }

  lemma {:induction false} CompleteHasFile(source: Source, partial: Option<seq<byte>>, attempt: nat)
    ensures AttemptsFrom(source, partial, attempt).end.Complete? ==>
      AttemptsFrom(source, partial, attempt).partial.Some?
    decreases DOWNLOAD_ATTEMPTS - attempt
  {
    if attempt < DOWNLOAD_ATTEMPTS && source.replies(attempt).Body? && !source.replies(attempt).clean {
      hide Written;
      CompleteHasFile(source, Written(source.content, partial, source.replies(attempt)), attempt + 1);
    }
  }

  predicate BrokenBody(reply: Reply) { reply.Body? && !reply.clean }

  /** How attempts end: only a broken stream is followed by another attempt, and it is, up to ten. */
  ghost predicate EndsBy(source: Source, run: Attempts, attempt: nat) {
    && |run.asked| >= 1
    && (forall i :: attempt <= i < attempt + |run.asked| - 1 ==> BrokenBody(source.replies(i)))
    && var last := attempt + |run.asked| - 1;
    && last < 10
    && match source.replies(last)
       case Refused => run.end == OpenThrew
       case NoBody => run.end == NoContent
       case Body(_, _, _, clean) => if clean then run.end == Complete else run.end == Broke && last == 9
  }

  lemma {:induction false} AttemptsEnd(source: Source, partial: Option<seq<byte>>, attempt: nat)
    requires attempt < DOWNLOAD_ATTEMPTS
    ensures EndsBy(source, AttemptsFrom(source, partial, attempt), attempt)
    decreases DOWNLOAD_ATTEMPTS - attempt
  {
    var reply := source.replies(attempt);
    hide Written;
    if BrokenBody(reply) && attempt + 1 < DOWNLOAD_ATTEMPTS {
      var rest := AttemptsFrom(source, Written(source.content, partial, reply), attempt + 1);
      AttemptsEnd(source, Written(source.content, partial, reply), attempt + 1);
      EndsLater(source, rest, SizeOf(partial), attempt, Written(source.content, partial, reply));
    }
  }

  lemma EndsLater(source: Source, rest: Attempts, offset: nat, attempt: nat, partial: Option<seq<byte>>)
    requires EndsBy(source, rest, attempt + 1) && BrokenBody(source.replies(attempt))
    ensures EndsBy(source, rest.(asked := [offset] + rest.asked, history := [partial] + rest.history), attempt)
  {
    hide BrokenBody;
  }

  /** Every download opens the object again after a broken stream, until a stream ends cleanly, there is nothing to
      read, `open` throws, or ten streams have broken; the caller is told which. */
  lemma DownloadEnds(source: Source, destination: Option<seq<byte>>)
    ensures EndsBy(source, AttemptsFrom(source, None, 0), 0)
    ensures var end := AttemptsFrom(source, None, 0).end;
      !end.Complete? ==> Finished(source, destination).outcome == Failed(end)
  {
    AttemptsEnd(source, None, 0);
    hide EndsBy, AttemptsFrom;
  }

  /** One of the two is needed: a stream that ends cleanly too early, with nothing to check
      against, passes a cut file off as the whole one. */
  lemma CutDownloadCounts(source: Source, destination: Option<seq<byte>>, n: nat)
    requires n < |source.content| && source.replies(0) == Body(false, n, true, true)
    requires Expected(source) == NOTHING
    ensures Finished(source, destination) == Final(Some(source.content[..n]), None, Downloaded)
  {
    assert AttemptsFrom(source, None, 0) ==
      Attempts(Some(source.content[..n]), Complete, [0], [Some(source.content[..n])]);
  }
}
