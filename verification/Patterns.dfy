/** Byte patterns: where one occurs, and the chunked search of scripts/wechat/wechat_native_task_lldb.py. */
module Patterns {
  import opened Wrappers
  import opened Bytes

  predicate At(data: seq<byte>, pattern: seq<byte>, i: int) {
    0 <= i <= |data| - |pattern| && data[i..i + |pattern|] == pattern
  }

  predicate Contains(data: seq<byte>, pattern: seq<byte>) {
    exists i :: 0 <= i <= |data| && At(data, pattern, i)
  }

  /** `data.find(pattern, from)`: the first occurrence at or after an offset. */
  function Find(data: seq<byte>, pattern: seq<byte>, from: nat): (found: Option<nat>)
    ensures found.Some? ==> from <= found.value && At(data, pattern, found.value)
    ensures found.Some? ==> forall i :: from <= i < found.value ==> !At(data, pattern, i)
    ensures found.None? ==> forall i :: from <= i ==> !At(data, pattern, i)
    decreases |data| - from
  {
    if from + |pattern| > |data| then None
    else if At(data, pattern, from) then Some(from)
    else Find(data, pattern, from + 1)
  }

  // ----- the plain search ------------------------------------------------------------------

  /** The occurrences from `lo` up to, not including, `hi`, ascending. */
  function Occurrences(memory: seq<byte>, pattern: seq<byte>, lo: nat, hi: nat): seq<nat>
    decreases hi - lo
  {
    if lo >= hi then []
    else (if At(memory, pattern, lo) then [lo] else []) + Occurrences(memory, pattern, lo + 1, hi)
  }

  function Take<T>(s: seq<T>, n: int): seq<T> { if n <= 0 then [] else if |s| <= n then s else s[..n] }

  lemma {:induction false} OccurrencesSplit(memory: seq<byte>, pattern: seq<byte>, lo: nat, mid: nat, hi: nat)
    requires lo <= mid <= hi
    ensures Occurrences(memory, pattern, lo, hi)
         == Occurrences(memory, pattern, lo, mid) + Occurrences(memory, pattern, mid, hi)
    decreases mid - lo
  {
    if lo < mid { OccurrencesSplit(memory, pattern, lo + 1, mid, hi); }
  }

  lemma {:induction false} NoOccurrences(memory: seq<byte>, pattern: seq<byte>, lo: nat, hi: nat)
    requires forall i :: lo <= i < hi ==> !At(memory, pattern, i)
    ensures Occurrences(memory, pattern, lo, hi) == []
    decreases hi - lo
  {
    if lo < hi { NoOccurrences(memory, pattern, lo + 1, hi); }
  }

  /** An occurrence within a slice is one in the whole. */
  lemma AtSlice(memory: seq<byte>, pattern: seq<byte>, lo: nat, hi: nat, i: int)
    requires lo <= hi <= |memory|
    ensures At(memory[lo..hi], pattern, i) <==> i >= 0 && At(memory, pattern, lo + i) && i + |pattern| <= hi - lo
  {
    if 0 <= i && i + |pattern| <= hi - lo {
      var there := memory[lo..hi][i..i + |pattern|];
      assert forall j :: 0 <= j < |pattern| ==> there[j] == memory[lo + i..lo + i + |pattern|][j];
      assert there == memory[lo + i..lo + i + |pattern|];
    }
  }

  /** A stretch of a slice without occurrences, as far as they fit the slice. */
  lemma NoneInSlice(memory: seq<byte>, pattern: seq<byte>, lo: nat, hi: nat, from: nat, to: int)
    requires lo <= hi <= |memory| && (from >= to || to + |pattern| <= hi - lo + 1)
    requires forall i :: from <= i < to ==> !At(memory[lo..hi], pattern, i)
    ensures forall i :: lo + from <= i < lo + to ==> !At(memory, pattern, i)
  {
    forall i | lo + from <= i < lo + to ensures !At(memory, pattern, i) {
      AtSlice(memory, pattern, lo, hi, i - lo);
    }
  }

  // ----- the chunked search ----------------------------------------------------------------

  const CHUNK := 4 * 1024 * 1024

  /** `_read_memory` over a range that is readable throughout. */
  function ReadMemory(memory: seq<byte>, start: nat, address: nat, size: nat): seq<byte>
    requires start <= address && address + size <= start + |memory|
  {
    if address == 0 || !(0 < size <= CHUNK) then [] else memory[address - start..address - start + size]
  }

  function Addresses(start: nat, offsets: seq<nat>): seq<nat> {
    seq(|offsets|, i requires 0 <= i < |offsets| => start + offsets[i])
  }

  lemma AddressesAppend(start: nat, a: seq<nat>, b: seq<nat>)
    ensures Addresses(start, a + b) == Addresses(start, a) + Addresses(start, b)
  {}

  lemma AddressOf(start: nat, i: nat)
    ensures Addresses(start, [i]) == [start + i] && Addresses(start, []) == []
  {}

  lemma TakeWhole<T>(s: seq<T>, more: seq<T>, n: int)
    requires |s| <= n
    ensures |s| == n ==> Take(s + more, n) == s
    ensures more == [] ==> Take(s + more, n) == s
  {
    if more == [] { assert s + more == s; }
  }

  /** The first `n`, or all of them if there are fewer. */
  lemma TakesFirst<T>(s: seq<T>, n: int)
    ensures Take(s, n) <= s
    ensures |Take(s, n)| == if n <= 0 then 0 else if n < |s| then n else |s|
  {
  }

  lemma TakenAddresses(start: nat, offsets: seq<nat>, n: int)
    ensures var taken := Take(Addresses(start, offsets), n);
      && (forall i :: 0 <= i < |taken| ==> i < |offsets| && taken[i] == start + offsets[i])
      && (|taken| == |offsets| || |taken| == n || (n < 0 && taken == []))
  {
    TakesFirst(Addresses(start, offsets), n);
  }

  function Max(a: int, b: int): int { if a > b then a else b }

  /** The size of the chunk at an offset, and how far the search moves on after it. */
  function SizeAt(length: nat, lo: nat): nat
    requires lo < length
  {
    if length - lo < CHUNK then length - lo else CHUNK
  }

  function Stride(size: nat, pattern: seq<byte>): nat { Max(1, size - Max(0, |pattern| - 1)) }

  /** One past the last place in a chunk where the pattern can start. */
  function StopAt(lo: nat, size: nat, pattern: seq<byte>): nat {
    if size < |pattern| then lo else lo + size - |pattern| + 1
  }

  /** What the chunks give together, from an offset on. */
  function Chunked(memory: seq<byte>, pattern: seq<byte>, lo: nat): seq<nat>
    decreases |memory| - lo
  {
    if lo >= |memory| then []
    else
      var size := SizeAt(|memory|, lo);
      Occurrences(memory, pattern, lo, StopAt(lo, size, pattern)) + Chunked(memory, pattern, lo + Stride(size, pattern))
  }

  /** One chunk: the occurrences that start in `[lo, lo + size - |pattern|]`, while there is room. */
  method SearchChunk(
    memory: seq<byte>, start: nat, lo: nat, size: nat, pattern: seq<byte>, maximum: int, before: seq<nat>)
    returns (matches: seq<nat>)
    requires lo + size <= |memory| && |before| < maximum
    ensures var here := Occurrences(memory, pattern, lo, StopAt(lo, size, pattern));
      matches == Take(before + Addresses(start, here), maximum)
  {
    hide Find, Occurrences, At, Addresses, Take;
    var data := memory[lo..lo + size];
    ghost var stop := StopAt(lo, size, pattern);
    ghost var here := Occurrences(memory, pattern, lo, stop);
    matches := before;
    NothingIn(memory, pattern, lo);
    AddressOf(start, 0);
    var offset := 0;
    while |matches| < maximum
      invariant 0 <= offset && lo + offset <= stop
      invariant |before| <= |matches| <= maximum
      invariant matches == before + Addresses(start, Occurrences(memory, pattern, lo, lo + offset))
      decreases maximum - |matches|
    {
      var found := Find(data, pattern, offset);
      if found.None? {
        OccurrencesSplit(memory, pattern, lo, lo + offset, stop);
        NoneInSlice(memory, pattern, lo, lo + size, offset, stop - lo);
        NoOccurrences(memory, pattern, lo + offset, stop);
        assert here == Occurrences(memory, pattern, lo, lo + offset);
        assert matches + [] == matches;
        TakeWhole(matches, [], maximum);
        return;
      }
      AtSlice(memory, pattern, lo, lo + size, found.value);
      Ends(data, pattern, found.value);
      NoneInSlice(memory, pattern, lo, lo + size, offset, found.value);
      NextOccurrence(memory, pattern, lo, lo + offset, lo + found.value);
      AddressesAppend(start, Occurrences(memory, pattern, lo, lo + offset), [lo + found.value]);
      AddressOf(start, lo + found.value);
      matches := matches + [start + lo + found.value];
      offset := found.value + 1;
    }
    OccurrencesSplit(memory, pattern, lo, lo + offset, stop);
    ghost var seen, unseen := Occurrences(memory, pattern, lo, lo + offset),
      Occurrences(memory, pattern, lo + offset, stop);
    AddressesAppend(start, seen, unseen);
    assert before + (Addresses(start, seen) + Addresses(start, unseen)) == matches + Addresses(start, unseen);
    TakeWhole(matches, Addresses(start, unseen), maximum);
  }

  lemma Ends(data: seq<byte>, pattern: seq<byte>, i: int)
    requires At(data, pattern, i)
    ensures 0 <= i <= |data| - |pattern|
  {}

  lemma NextOccurrence(memory: seq<byte>, pattern: seq<byte>, lo: nat, from: nat, found: nat)
    requires lo <= from <= found && At(memory, pattern, found)
    requires forall i :: from <= i < found ==> !At(memory, pattern, i)
    ensures Occurrences(memory, pattern, lo, found + 1) == Occurrences(memory, pattern, lo, from) + [found]
  {
    OccurrencesSplit(memory, pattern, lo, from, found + 1);
    OccurrencesSplit(memory, pattern, from, found, found + 1);
    NoOccurrences(memory, pattern, from, found);
    assert Occurrences(memory, pattern, found, found + 1) == [found];
  }

  /** `_find_memory_pattern` over a readable range: the first `maximum` of what the chunks give, or
      nothing for a range that starts at the null address. */
  method FindMemoryPattern(memory: seq<byte>, start: nat, pattern: seq<byte>, maximum: int) returns (matches: seq<nat>)
    ensures matches == if start == 0 then [] else Take(Addresses(start, Chunked(memory, pattern, 0)), maximum)
    ensures start != 0 && Seamless(memory, pattern) ==>
      matches == Take(Addresses(start, PlainSearch(memory, pattern)), maximum)
    ensures start != 0 && Seamless(memory, pattern) ==>
      forall i :: 0 <= i < |matches| ==>
        i < |PlainSearch(memory, pattern)| && matches[i] == start + PlainSearch(memory, pattern)[i]
    ensures start != 0 && Seamless(memory, pattern) ==>
      |matches| == |PlainSearch(memory, pattern)| || |matches| == maximum || (maximum < 0 && matches == [])
  {
    ChunkedIsPlain(memory, pattern);
    TakenAddresses(start, PlainSearch(memory, pattern), maximum);
    hide Seamless, PlainSearch;
    hide Occurrences, Addresses, Take;
    matches := [];
    var end := start + |memory|;
    var cursor := start;
    ghost var all := Addresses(start, Chunked(memory, pattern, 0));
    assert [] + all == all;
    TakeNone(all, maximum);
    while cursor < end && |matches| < maximum
      invariant start <= cursor
      invariant start == 0 ==> cursor == 0 && matches == []
      invariant start > 0 && |matches| < maximum ==>
        all == matches + Addresses(start, Chunked(memory, pattern, cursor - start))
      invariant start > 0 && |matches| >= maximum ==> matches == Take(all, maximum)
      decreases end - cursor
    {
      var lo := cursor - start;
      var size := SizeAt(|memory|, lo);
      var data := ReadMemory(memory, start, cursor, size);
      if data == [] { break; }
      ghost var before := matches;
      matches := SearchChunk(memory, start, lo, size, pattern, maximum, matches);
      if |data| < size { break; }
      cursor := cursor + Stride(size, pattern);
      ghost var here := Addresses(start, Occurrences(memory, pattern, lo, StopAt(lo, size, pattern)));
      ghost var rest := Addresses(start, Chunked(memory, pattern, cursor - start));
      AddressesAppend(start, Occurrences(memory, pattern, lo, StopAt(lo, size, pattern)),
        Chunked(memory, pattern, cursor - start));
      assert all == before + (here + rest);
      TakeMore(before, here, rest, maximum);
    }
    AddressOf(start, 0);
    TakeWhole(matches, [], Max(maximum, |matches|));
  }

  lemma TakeNone<T>(s: seq<T>, n: int)
    ensures n <= 0 ==> Take(s, n) == []
  {}

  lemma TakeMore<T>(before: seq<T>, here: seq<T>, rest: seq<T>, n: int)
    requires |before| < n
    ensures var now := Take(before + here, n);
      && (|now| < n ==> before + (here + rest) == now + rest)
      && (|now| >= n ==> now == Take(before + (here + rest), n))
  {
    assert before + (here + rest) == (before + here) + rest;
  }

  // ----- chunked is plain ------------------------------------------------------------------

  /** The plain search lists exactly the occurrences, ascending. */
  lemma {:induction false} OccurrencesExact(memory: seq<byte>, pattern: seq<byte>, lo: nat, hi: nat, i: nat)
    ensures i in Occurrences(memory, pattern, lo, hi) <==> lo <= i < hi && At(memory, pattern, i)
    decreases hi - lo
  {
    hide At;
    if lo < hi { OccurrencesExact(memory, pattern, lo + 1, hi, i); }
  }

  predicate Ascending(s: seq<nat>) {
    forall a, b :: 0 <= a < b < |s| ==> s[a] < s[b]
  }

  lemma AscendingCons(x: nat, rest: seq<nat>)
    requires Ascending(rest) && forall i :: 0 <= i < |rest| ==> x < rest[i]
    ensures Ascending([x] + rest)
  {}

  lemma {:induction false} OccurrencesAscend(memory: seq<byte>, pattern: seq<byte>, lo: nat, hi: nat)
    ensures Ascending(Occurrences(memory, pattern, lo, hi))
    decreases hi - lo
  {
    hide At, Ascending;
    if lo < hi {
      var rest := Occurrences(memory, pattern, lo + 1, hi);
      OccurrencesAscend(memory, pattern, lo + 1, hi);
      forall i | 0 <= i < |rest| ensures lo < rest[i] {
        OccurrencesExact(memory, pattern, lo + 1, hi, rest[i]);
      }
      AscendingCons(lo, rest);
      assert [] + rest == rest;
    } else {
      AscendingNone();
    }
  }

  lemma AscendingNone()
    ensures Ascending([])
  {}

  lemma {:induction false} ChunkedFrom(memory: seq<byte>, pattern: seq<byte>, lo: nat)
    requires pattern != []
    ensures Chunked(memory, pattern, lo) == if |pattern| > CHUNK then [] else Occurrences(memory, pattern, lo, |memory|)
    decreases |memory| - lo
  {
    hide Occurrences, At;
    if lo < |memory| {
      var size := SizeAt(|memory|, lo);
      var next := lo + Stride(size, pattern);
      ChunkedFrom(memory, pattern, next);
      if |pattern| > CHUNK {
        NothingIn(memory, pattern, lo);
      } else if size >= |pattern| {
        OccurrencesSplit(memory, pattern, lo, next, |memory|);
      } else {
        OccurrencesSplit(memory, pattern, lo, next, |memory|);
        TooShort(memory, pattern, lo, next);
        NothingIn(memory, pattern, lo);
      }
    } else {
      NothingIn(memory, pattern, lo);
    }
  }

  lemma NothingIn(memory: seq<byte>, pattern: seq<byte>, lo: nat)
    ensures Occurrences(memory, pattern, lo, lo) == []
    ensures lo >= |memory| ==> Occurrences(memory, pattern, lo, |memory|) == []
  {}

  lemma TooShort(memory: seq<byte>, pattern: seq<byte>, lo: nat, hi: nat)
    requires lo + |pattern| > |memory|
    ensures Occurrences(memory, pattern, lo, hi) == []
  {
    NoOccurrences(memory, pattern, lo, hi);
  }

  /** The plain search over the whole range; the empty pattern also occurs at its end. */
  function PlainSearch(memory: seq<byte>, pattern: seq<byte>): seq<nat> {
    Occurrences(memory, pattern, 0, |memory| + 1)
  }

  lemma NothingAtEnd(memory: seq<byte>, pattern: seq<byte>)
    requires pattern != []
    ensures PlainSearch(memory, pattern) == Occurrences(memory, pattern, 0, |memory|)
  {
    OccurrencesSplit(memory, pattern, 0, |memory|, |memory| + 1);
    TooShort(memory, pattern, |memory|, |memory| + 1);
  }

  /** When no occurrence is missed or repeated at a chunk border: the pattern fits a chunk or occurs nowhere,
      or it is empty and there is one chunk. */
  predicate Seamless(memory: seq<byte>, pattern: seq<byte>) {
    if pattern == [] then 0 < |memory| <= CHUNK else |pattern| <= CHUNK || PlainSearch(memory, pattern) == []
  }

  lemma ChunkedIsPlain(memory: seq<byte>, pattern: seq<byte>)
    ensures Chunked(memory, pattern, 0) == PlainSearch(memory, pattern) <==> Seamless(memory, pattern)
  {
    if pattern != [] {
      hide Occurrences;
      ChunkedFrom(memory, pattern, 0);
      NothingAtEnd(memory, pattern);
    } else if |memory| > CHUNK {
      var i := EmptyPatternRepeats(memory, 0, CHUNK);
      OccurrencesAscend(memory, [], 0, |memory| + 1);
    } else {
      hide Occurrences;
      Everywhere(memory, 0, |memory| + 1);
    }
  }

  /** A range that is one long pattern: the plain search finds it, the chunks never do. */
  lemma LongPatternIsMissed(pattern: seq<byte>)
    requires |pattern| > CHUNK
    ensures PlainSearch(pattern, pattern) == [0] && Chunked(pattern, pattern, 0) == []
  {
    hide Occurrences;
    ChunkedFrom(pattern, pattern, 0);
    OccurrencesSplit(pattern, pattern, 0, 1, |pattern| + 1);
    TooShort(pattern, pattern, 1, |pattern| + 1);
    assert pattern[0..|pattern|] == pattern;
    NextOccurrence(pattern, pattern, 0, 0, 0);
    NothingIn(pattern, pattern, 0);
  }

  /** The empty pattern is found twice, one right after the other, at every border between two chunks. */
  lemma {:induction false} EmptyPatternRepeats(memory: seq<byte>, lo: nat, border: nat) returns (i: nat)
    requires lo < border < |memory| && (border - lo) % CHUNK == 0
    ensures var found := Chunked(memory, [], lo); i + 1 < |found| && found[i] == found[i + 1] == border
    decreases border - lo
  {
    hide Occurrences;
    var next := lo + CHUNK;
    Everywhere(memory, lo, next + 1);
    assert Chunked(memory, [], lo) == Occurrences(memory, [], lo, next + 1) + Chunked(memory, [], next);
    if next == border {
      var size := SizeAt(|memory|, next);
      Everywhere(memory, next, next + size + 1);
      i := CHUNK;
    } else {
      i := EmptyPatternRepeats(memory, next, border);
      i := i + CHUNK + 1;
    }
  }

  lemma {:induction false} Everywhere(memory: seq<byte>, lo: nat, hi: nat)
    requires lo <= hi <= |memory| + 1
    ensures |Occurrences(memory, [], lo, hi)| == hi - lo
    ensures forall i :: 0 <= i < hi - lo ==> Occurrences(memory, [], lo, hi)[i] == lo + i
    decreases hi - lo
  {
    if lo < hi {
      assert At(memory, [], lo);
      Everywhere(memory, lo + 1, hi);
    }
  }
}
