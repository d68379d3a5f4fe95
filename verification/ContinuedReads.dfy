/**
 Reading an encrypted object on after an error. The reader keeps no error state:
 each further `Read` goes on where the last one stopped.
 */
module ContinuedReads {
  import opened Common
  import opened EncryptedStore

  /** All reads of a caller that does not stop at errors; `failed` says that one answered an error before the end. */
  datatype Session = Session(reader: Reader, out: Bytes, failed: bool)

  function ReadOn(a: Codec, prefix: Prefix, r: Reader, sizes: seq<nat>): Session
    decreases |sizes|
  {
    if sizes == [] then Session(r, [], false)
    else
      var first := Read(a, prefix, r, sizes[0]);
      var others := ReadOn(a, prefix, first.reader, sizes[1..]);
      Session(others.reader, first.out + others.out, others.failed || (first.error.Some? && !first.reader.done))
  }

  /** Along the whole way of a reader that goes on after errors, it opens no chunk but those that Put sealed. */
  ghost predicate NoForgeryEver(a: Codec, prefix: Prefix, ending: Ending, plain: Bytes, counter: nat, raw: Bytes)
    decreases |raw|
  {
    raw == [] ||
    (var front := FrontOf(raw);
     var next := FetchFront(a, prefix, ending, counter, front).reader;
     (Opens(a, prefix, counter, front) ==> IssuedByPut(a, prefix, plain, front.sealed))
     && NoForgeryEver(a, prefix, ending, plain, next.counter, next.raw))
  }

  /** The reader stands before frame `counter`, or after the last one. */
  ghost predicate Placed(a: Codec, prefix: Prefix, plain: Bytes, r: Reader) {
    r.done || (r.counter <= FrameCount(plain) && NoForgeryEver(a, prefix, r.ending, plain, r.counter, r.raw))
  }

  /** What the reader may still deliver. */
  function Left(plain: Bytes, r: Reader): Bytes {
    if r.done then [] else r.chunk + From(plain, r.counter)
  }

  lemma {:induction false} NothingAfterLast(plain: Bytes, k: nat)
    requires k >= FrameCount(plain) - 1
    ensures From(plain, k) == []
    decreases k
  {
    if k > 0 {
      if plain != [] {
        FramesOfRest(plain);
      }
      NothingAfterLast(Rest(plain), k - 1);
    }
  }

  /** A chunk opens only in its own place, and none after the last one. */
  lemma OpenedIsInPlace(a: Codec, prefix: Prefix, plain: Bytes, k: nat, sealed: Bytes)
    requires Sound(a) && FrameCount(plain) < COUNTERS && k <= FrameCount(plain)
    requires IssuedByPut(a, prefix, plain, sealed) && a.open(Nonce(a, prefix, k), sealed).Some?
    ensures k < FrameCount(plain) && sealed == SealedFrame(a, prefix, plain, k)
    ensures a.open(Nonce(a, prefix, k), sealed) == Some(Payload(plain, k)) && |sealed| == |Payload(plain, k)| + TAG
  {
    var j: nat :| 0 <= j < FrameCount(plain) && sealed == SealedFrame(a, prefix, plain, j);
    NoncesTellCountersApart(a, prefix, j, k);
  }

  /** A chunk that opens moves the reader on by one frame of `frames`. */
  lemma AcceptedFront(a: Codec, prefix: Prefix, ending: Ending, plain: Bytes, k: nat, front: Front, frames: nat)
    requires Sound(a) && frames == FrameCount(plain) < COUNTERS && k <= frames
    requires Opens(a, prefix, k, front) && |front.sealed| == front.size + TAG && IssuedByPut(a, prefix, plain, front.sealed)
    ensures k < frames && front.size == |Payload(plain, k)|
    ensures var next := FetchFront(a, prefix, ending, k, front).reader;
      && next.counter == k + 1 && next.chunk == Payload(plain, k) && (next.done ==> next.chunk == [])
      && (k + 1 < frames ==> !next.done && next.raw == front.rest)
  {
    OpenedIsInPlace(a, prefix, plain, k, front.sealed);
    FrameSplits(plain, k);
    NextIsOneMore(k);
  }

  /** One fetch delivers the next frame, or nothing. */
  lemma FetchMovesOn(a: Codec, prefix: Prefix, ending: Ending, plain: Bytes, k: nat, front: Front, frames: nat)
    requires Sound(a) && frames == FrameCount(plain) < COUNTERS && k <= frames
    requires Opens(a, prefix, k, front) ==> |front.sealed| == front.size + TAG && IssuedByPut(a, prefix, plain, front.sealed)
    ensures var next := FetchFront(a, prefix, ending, k, front).reader;
      next.counter <= frames && Left(plain, next) == From(plain, k)
  {
    if Opens(a, prefix, k, front) {
      AcceptedFront(a, prefix, ending, plain, k, front, frames);
      FrameSplits(plain, k);
      if k + 1 == frames {
        NothingAfterLast(plain, k);
        NothingAfterLast(plain, k + 1);
      }
    }
  }

  lemma NoForgeryAfterFetch(a: Codec, prefix: Prefix, ending: Ending, plain: Bytes, raw: Bytes, k: nat)
    requires NoForgeryEver(a, prefix, ending, plain, k, raw)
    ensures var next := FetchFront(a, prefix, ending, k, FrontOf(raw)).reader;
      NoForgeryEver(a, prefix, ending, plain, next.counter, next.raw)
    ensures Opens(a, prefix, k, FrontOf(raw)) ==> IssuedByPut(a, prefix, plain, FrontOf(raw).sealed)
  {
  }

  lemma FetchKeepsLeft(a: Codec, prefix: Prefix, ending: Ending, plain: Bytes, raw: Bytes, k: nat)
    requires Sound(a) && FrameCount(plain) < COUNTERS && k <= FrameCount(plain) && NoForgeryEver(a, prefix, ending, plain, k, raw)
    ensures var next := FetchFront(a, prefix, ending, k, FrontOf(raw)).reader;
      Placed(a, prefix, plain, next) && Left(plain, next) == From(plain, k)
  {
    NoForgeryAfterFetch(a, prefix, ending, plain, raw, k);
    FetchMovesOn(a, prefix, ending, plain, k, FrontOf(raw), FrameCount(plain));
  }

  /** A read fetches at most one chunk, and hands out the front of what the reader then holds. */
  lemma ReadFetchesOnce(a: Codec, prefix: Prefix, r: Reader, size: nat)
    requires Sound(a) && size > 0 && !r.done
    ensures var filled := if r.chunk == [] then FetchFront(a, prefix, r.ending, r.counter, FrontOf(r.raw)) else Step(r, None);
      var result := Read(a, prefix, r, size);
      if filled.error.Some? || filled.reader.done then result.out == [] && result.reader == filled.reader
      else
        && |result.out| <= |filled.reader.chunk| && result.out == filled.reader.chunk[..|result.out|]
        && result.reader == filled.reader.(chunk := filled.reader.chunk[|result.out|..])
  {
    if r.chunk == [] {
      FillFetchesOneChunk(a, prefix, r);
    }
  }

  lemma HandedOut(plain: Bytes, r: Reader, n: nat)
    requires !r.done && n <= |r.chunk|
    ensures Left(plain, r) == r.chunk[..n] + Left(plain, r.(chunk := r.chunk[n..]))
  {
    assert r.chunk == r.chunk[..n] + r.chunk[n..];
  }

  lemma ReadKeepsLeft(a: Codec, prefix: Prefix, plain: Bytes, r: Reader, size: nat)
    requires Sound(a) && FrameCount(plain) < COUNTERS && Placed(a, prefix, plain, r)
    ensures var result := Read(a, prefix, r, size);
      Placed(a, prefix, plain, result.reader) && Left(plain, r) == result.out + Left(plain, result.reader)
  {
    if size > 0 && !r.done {
      ReadFetchesOnce(a, prefix, r, size);
      FetchKeepsLeft(a, prefix, r.ending, plain, r.raw, r.counter);
      var result := Read(a, prefix, r, size);
      var filled := if r.chunk == [] then FetchFront(a, prefix, r.ending, r.counter, FrontOf(r.raw)) else Step(r, None);
      if filled.error.None? && !filled.reader.done {
        HandedOut(plain, filled.reader, |result.out|);
      }
    }
  }

  lemma Joined(a: Bytes, b: Bytes, c: Bytes)
    ensures a + (b + c) == a + b + c
  {
  }

  lemma {:induction false} SessionKeepsLeft(a: Codec, prefix: Prefix, plain: Bytes, r: Reader, sizes: seq<nat>)
    requires Sound(a) && FrameCount(plain) < COUNTERS && Placed(a, prefix, plain, r)
    ensures var session := ReadOn(a, prefix, r, sizes);
      Left(plain, r) == session.out + Left(plain, session.reader)
    decreases |sizes|
  {
    if sizes == [] {
      assert ReadOn(a, prefix, r, sizes) == Session(r, [], false);
    } else {
      ReadKeepsLeft(a, prefix, plain, r, sizes[0]);
      var first := Read(a, prefix, r, sizes[0]);
      SessionKeepsLeft(a, prefix, plain, first.reader, sizes[1..]);
      var others := ReadOn(a, prefix, first.reader, sizes[1..]);
      Joined(first.out, others.out, Left(plain, others.reader));
    }
  }

  /** Without an error before the end, reading on is reading up to the first error. */
  lemma {:induction false} UnfailedSessionDrains(a: Codec, prefix: Prefix, r: Reader, sizes: seq<nat>)
    requires ReadOn(a, prefix, r, sizes).reader.done && !ReadOn(a, prefix, r, sizes).failed
    ensures Drain(a, prefix, r, sizes).reader.done
    decreases |sizes|
  {
    if sizes != [] {
      var first := Read(a, prefix, r, sizes[0]);
      if first.error.None? {
        UnfailedSessionDrains(a, prefix, first.reader, sizes[1..]);
      }
    }
  }

  lemma {:induction false} DoneStaysDone(a: Codec, prefix: Prefix, r: Reader, sizes: seq<nat>)
    requires r.done
    ensures ReadOn(a, prefix, r, sizes).reader.done && !ReadOn(a, prefix, r, sizes).failed
    decreases |sizes|
  {
    if sizes != [] {
      DoneStaysDone(a, prefix, Read(a, prefix, r, sizes[0]).reader, sizes[1..]);
    }
  }

  /** On a stream that ends cleanly no read answers an error before the end. */
  lemma {:induction false} CleanStreamNeverFails(a: Codec, prefix: Prefix, r: Reader, sizes: seq<nat>)
    requires Sound(a) && !r.done && Ahead(a, prefix, r).error.None?
    ensures !ReadOn(a, prefix, r, sizes).failed
    decreases |sizes|
  {
    if sizes != [] {
      var first := Read(a, prefix, r, sizes[0]);
      if sizes[0] == 0 {
        CleanStreamNeverFails(a, prefix, r, sizes[1..]);
      } else {
        ReadAdvances(a, prefix, r, sizes[0]);
        if first.reader.done {
          DoneStaysDone(a, prefix, first.reader, sizes[1..]);
        } else {
          CleanStreamNeverFails(a, prefix, first.reader, sizes[1..]);
        }
      }
    }
  }

  /**
   Whatever replaces the frames, and however the caller reads on after errors,
   unless a chunk is forged only a prefix of the plaintext is delivered, and all
   of it once `done` is true. The stream was then a clean image (exactly the frames
   that Put wrote, or one byte more that came with the end) if and only if no read
   answered an error before the end.
   */
  lemma ReadingOnIsHarmless(a: Codec, prefix: Prefix, ending: Ending, plain: Bytes, raw: Bytes, sizes: seq<nat>)
    requires Sound(a) && FrameCount(plain) < COUNTERS && NoForgeryEver(a, prefix, ending, plain, 0, raw)
    ensures var session := ReadOn(a, prefix, Start(ending, 0, raw), sizes);
      && session.out <= plain
      && (session.reader.done ==> session.out == plain && (CleanImage(ending, raw, Tail(a, prefix, 0, plain)) <==> !session.failed))
  {
    var start := Start(ending, 0, raw);
    var session := ReadOn(a, prefix, start, sizes);
    SessionKeepsLeft(a, prefix, plain, start, sizes);
    assert Left(plain, start) == plain;
    if session.reader.done {
      if CleanImage(ending, raw, Tail(a, prefix, 0, plain)) {
        ImageEndsCleanly(a, prefix, ending, 0, plain, raw);
        NothingAtHand(a, prefix, start);
        CleanStreamNeverFails(a, prefix, start, sizes);
      } else if !session.failed {
        UnfailedSessionDrains(a, prefix, start, sizes);
        EverIncludesFirst(a, prefix, ending, plain, 0, raw);
        TamperingIsHarmless(a, prefix, ending, plain, raw, sizes);
      }
    }
  }

  /** No forgery ever is no forgery up to the first error. */
  lemma {:induction false} EverIncludesFirst(a: Codec, prefix: Prefix, ending: Ending, plain: Bytes, counter: nat, raw: Bytes)
    requires NoForgeryEver(a, prefix, ending, plain, counter, raw)
    ensures NoForgery(a, prefix, plain, counter, raw)
    decreases |raw|
  {
    var front := FrontOf(raw);
    if Opens(a, prefix, counter, front) && front.size != 0 {
      NoForgeryAfterFetch(a, prefix, ending, plain, raw, counter);
      EverIncludesFirst(a, prefix, ending, plain, NextCounter(counter), front.rest);
    }
  }

  // ----- Frames in any order -----

  /** Nothing in the stream opens under the nonce after the last frame, which Put never used. */
  ghost predicate NothingSealedAfter(a: Codec, prefix: Prefix, plain: Bytes, raw: Bytes) {
    forall i, j :: 0 <= i <= j <= |raw| ==> a.open(Nonce(a, prefix, FrameCount(plain)), raw[i..j]).None?
  }

  lemma {:induction false} NothingOpensAfter(a: Codec, prefix: Prefix, ending: Ending, plain: Bytes, raw: Bytes)
    requires NothingSealedAfter(a, prefix, plain, raw)
    ensures NoForgeryEver(a, prefix, ending, plain, FrameCount(plain), raw)
    decreases |raw|
  {
    if raw != [] {
      FrontIsPart(raw);
      SealedAfterInRest(a, prefix, plain, raw, |raw| - |FrontOf(raw).rest|);
      NothingOpensAfter(a, prefix, ending, plain, FrontOf(raw).rest);
    }
  }

  /** The chunk and the rest of a front are parts of the stream. */
  lemma FrontIsPart(raw: Bytes)
    requires raw != []
    ensures FrontOf(raw).rest == raw[|raw| - |FrontOf(raw).rest|..]
    ensures FrontOf(raw).Offer? ==> 4 + |FrontOf(raw).sealed| <= |raw| && FrontOf(raw).sealed == raw[4..4 + |FrontOf(raw).sealed|]
  {
  }

  lemma SealedAfterInRest(a: Codec, prefix: Prefix, plain: Bytes, raw: Bytes, n: nat)
    requires NothingSealedAfter(a, prefix, plain, raw) && n <= |raw|
    ensures NothingSealedAfter(a, prefix, plain, raw[n..])
  {
    var rest := raw[n..];
    forall i, j | 0 <= i <= j <= |rest|
      ensures a.open(Nonce(a, prefix, FrameCount(plain)), rest[i..j]).None?
    {
      assert rest[i..j] == raw[n + i..n + j];
    }
  }

  /** After a sealed frame the reader stands before the next one, with the same or the next counter, or behind the last. */
  lemma NextAfterFrame(a: Codec, prefix: Prefix, ending: Ending, plain: Bytes, counter: nat, front: Front, k: nat, frames: nat)
    requires Sound(a) && frames == FrameCount(plain) < COUNTERS && counter < frames && k < frames
    requires front.Offer? && front.sealed == SealedFrame(a, prefix, plain, k) && |front.sealed| == front.size + TAG
    ensures var next := FetchFront(a, prefix, ending, counter, front).reader;
      next.counter <= frames && (next.counter < frames ==> next.raw == front.rest)
    ensures IssuedByPut(a, prefix, plain, front.sealed)
  {
    if Opens(a, prefix, counter, front) {
      AcceptedFront(a, prefix, ending, plain, counter, front, frames);
    }
  }

  lemma {:induction false} ShufflingForgesNothingEver(a: Codec, prefix: Prefix, ending: Ending, plain: Bytes, picks: seq<nat>, cut: nat, counter: nat)
    requires Sound(a) && FrameCount(plain) < COUNTERS && counter < FrameCount(plain)
    requires forall i :: 0 <= i < |picks| ==> picks[i] < FrameCount(plain)
    requires cut <= |Shuffled(a, prefix, plain, picks)|
    requires NothingSealedAfter(a, prefix, plain, Shuffled(a, prefix, plain, picks)[..cut])
    ensures NoForgeryEver(a, prefix, ending, plain, counter, Shuffled(a, prefix, plain, picks)[..cut])
    decreases |picks|
  {
    var raw := Shuffled(a, prefix, plain, picks)[..cut];
    if raw != [] {
      var front, sealed := FrontOf(raw), SealedFrame(a, prefix, plain, picks[0]);
      FirstFrame(a, prefix, plain, picks, cut);
      if front.Offer? {
        FrontIsPart(raw);
        var next := FetchFront(a, prefix, ending, counter, front).reader;
        NextAfterFrame(a, prefix, ending, plain, counter, front, picks[0], FrameCount(plain));
        SealedAfterInRest(a, prefix, plain, raw, |raw| - |front.rest|);
        if next.counter == FrameCount(plain) {
          SealedAfterInNext(a, prefix, ending, plain, counter, front);
          NothingOpensAfter(a, prefix, ending, plain, next.raw);
        } else {
          ShufflingForgesNothingEver(a, prefix, ending, plain, picks[1..], cut - 4 - |sealed|, next.counter);
        }
      }
    }
  }

  lemma SealedAfterInNext(a: Codec, prefix: Prefix, ending: Ending, plain: Bytes, counter: nat, front: Front)
    requires NothingSealedAfter(a, prefix, plain, front.rest)
    ensures NothingSealedAfter(a, prefix, plain, FetchFront(a, prefix, ending, counter, front).reader.raw)
  {
    if front.rest != [] {
      SealedAfterInRest(a, prefix, plain, front.rest, 1);
    }
  }

  /**
   A cut, repetition or reordering of the frames, read on after errors: a prefix
   is delivered, all of it once `done` is true, and the stream was a clean image if
   and only if no read answered an error before the end.
   */
  lemma ShuffledImageReadOn(a: Codec, prefix: Prefix, ending: Ending, plain: Bytes, picks: seq<nat>, cut: nat, sizes: seq<nat>)
    requires Sound(a) && FrameCount(plain) < COUNTERS
    requires forall i :: 0 <= i < |picks| ==> picks[i] < FrameCount(plain)
    requires cut <= |Shuffled(a, prefix, plain, picks)|
    requires NothingSealedAfter(a, prefix, plain, Shuffled(a, prefix, plain, picks)[..cut])
    ensures var raw := Shuffled(a, prefix, plain, picks)[..cut];
      var session := ReadOn(a, prefix, Start(ending, 0, raw), sizes);
      && session.out <= plain
      && (session.reader.done ==> session.out == plain && (CleanImage(ending, raw, Tail(a, prefix, 0, plain)) <==> !session.failed))
  {
    ShufflingForgesNothingEver(a, prefix, ending, plain, picks, cut, 0);
    ReadingOnIsHarmless(a, prefix, ending, plain, Shuffled(a, prefix, plain, picks)[..cut], sizes);
  }

  // ----- A repeated frame -----

  lemma FetchFrame(a: Codec, prefix: Prefix, ending: Ending, place: nat, counter: nat, payload: Bytes, rest: Bytes)
    requires Sound(a) && place < COUNTERS && counter < COUNTERS && |payload| <= CHUNK
    ensures var next := FetchChunk(a, prefix, Start(ending, counter, Frame(a, prefix, place, payload) + rest));
      if place != counter then next == Step(Start(ending, counter, rest), Some(NotAuthentic))
      else if payload != [] then next == Step(Start(ending, NextCounter(counter), rest).(chunk := payload), None)
      else next == Step(BehindTail(ending, NextCounter(counter), rest), if Ends(ending, rest) then None else Some(TrailingData))
  {
    FetchIsFront(a, prefix, ending, counter, Frame(a, prefix, place, payload) + rest);
    FrontOfFrame(a, |payload|, a.seal(Nonce(a, prefix, place), payload), rest);
    NoncesTellCountersApart(a, prefix, place, counter);
  }

  /** What reading the empty last frame leaves: the end, or one byte refused and the counter gone on. */
  function BehindTail(ending: Ending, counter: nat, left: Bytes): Reader {
    Start(ending, counter, Behind(left)).(done := Ends(ending, left))
  }

  lemma ReadsNothing(a: Codec, prefix: Prefix, r: Reader, next: Step)
    requires Sound(a) && r.chunk == [] && !r.done && FetchChunk(a, prefix, r) == next && (next.error.Some? || next.reader.done)
    ensures Read(a, prefix, r, 1) == ReadResult(next.reader, [], Some(if next.error.Some? then next.error.value else Eof))
  {
    FillFetchesOneChunk(a, prefix, r);
  }

  lemma ThreeReads(a: Codec, prefix: Prefix, r0: Reader, r1: Reader, r2: Reader, r3: Reader, out: Bytes, e1: ReadError, e2: ReadError)
    requires Read(a, prefix, r0, 1) == ReadResult(r1, out, None) && Read(a, prefix, r1, 1) == ReadResult(r2, [], Some(e1)) && !r2.done
    requires Read(a, prefix, r2, 1) == ReadResult(r3, [], Some(e2)) && r3.done
    ensures ReadOn(a, prefix, r0, [1, 1, 1]) == Session(r3, out, true)
  {
    assert [1, 1, 1][1..] == [1, 1] && [1, 1][1..] == [1] && [1][1..] == [];
    assert ReadOn(a, prefix, r2, [1]) == Session(r3, [], false);
    assert ReadOn(a, prefix, r1, [1, 1]) == Session(r3, [], true);
  }

  lemma TwoFrames(a: Codec, prefix: Prefix, b: byte)
    ensures Tail(a, prefix, 0, [b]) == Frame(a, prefix, 0, [b]) + Frame(a, prefix, 1, [])
  {
    assert Head([b]) == [b] && Rest([b]) == [];
  }

  /** One byte, its frame sent twice: the byte, a refusal, and then a clean end on a stream that is not the image. */
  lemma RepeatedFrameEndsCleanly(a: Codec, prefix: Prefix, ending: Ending, b: byte)
    requires Sound(a) && !ending.InError?
    ensures var f0, f1 := Frame(a, prefix, 0, [b]), Frame(a, prefix, 1, []);
      var session := ReadOn(a, prefix, Start(ending, 0, f0 + (f0 + f1)), [1, 1, 1]);
      && f0 + (f0 + f1) != Tail(a, prefix, 0, [b])
      && session.reader.done && session.out == [b] && session.failed
  {
    var f0, f1 := Frame(a, prefix, 0, [b]), Frame(a, prefix, 1, []);
    var start, second, third := Start(ending, 0, f0 + (f0 + f1)), Start(ending, 1, f0 + f1), Start(ending, 1, f1);
    TwoFrames(a, prefix, b);
    FetchFrame(a, prefix, ending, 0, 0, [b], f0 + f1);
    ReadsChunk(a, prefix, start, second, [b], 1);
    FetchFrame(a, prefix, ending, 0, 1, [b], f1);
    ReadsNothing(a, prefix, second, Step(third, Some(NotAuthentic)));
    assert f1 == f1 + [];
    FetchFrame(a, prefix, ending, 1, 1, [], []);
    var end := BehindTail(ending, 2, []);
    ReadsNothing(a, prefix, third, Step(end, None));
    ThreeReads(a, prefix, start, second, third, end, [b], NotAuthentic, Eof);
  }

  /** A read with a buffer that holds the whole chunk. */
  lemma ReadsChunk(a: Codec, prefix: Prefix, r: Reader, next: Reader, payload: Bytes, size: nat)
    requires Sound(a) && r.chunk == [] && !r.done && next.chunk == [] && !next.done && 0 < |payload| <= size
    requires FetchChunk(a, prefix, r) == Step(next.(chunk := payload), None)
    ensures Read(a, prefix, r, size) == ReadResult(next, payload, None)
  {
    FillFetchesOneChunk(a, prefix, r);
  }

  // ----- The full counter -----

  function Buffers(n: nat): seq<nat> {
    if n == 0 then [] else [CHUNK] + Buffers(n - 1)
  }

  lemma LastFrameRead(a: Codec, prefix: Prefix, ending: Ending, counter: nat, after: Bytes)
    requires Sound(a) && counter < COUNTERS
    ensures var end := BehindTail(ending, NextCounter(counter), after);
      Read(a, prefix, Start(ending, counter, Tail(a, prefix, counter, []) + after), CHUNK)
        == ReadResult(end, [], Some(if end.done then Eof else TrailingData))
  {
    FetchFrame(a, prefix, ending, counter, counter, [], after);
    FillFetchesOneChunk(a, prefix, Start(ending, counter, Tail(a, prefix, counter, []) + after));
  }

  lemma FullFrameRead(a: Codec, prefix: Prefix, ending: Ending, counter: nat, plain: Bytes, after: Bytes)
    requires Sound(a) && counter < COUNTERS && plain != []
    ensures var next := NextCounter(counter);
      Read(a, prefix, Start(ending, counter, Tail(a, prefix, counter, plain) + after), CHUNK)
        == ReadResult(Start(ending, next, Tail(a, prefix, next, Rest(plain)) + after), Head(plain), None)
  {
    var next, frame := NextCounter(counter), Frame(a, prefix, counter, Head(plain));
    var others := Tail(a, prefix, next, Rest(plain));
    assert frame + others + after == frame + (others + after);
    FetchFrame(a, prefix, ending, counter, counter, Head(plain), others + after);
    ReadsChunk(a, prefix, Start(ending, counter, frame + others + after), Start(ending, next, others + after), Head(plain), CHUNK);
  }

  function Advanced(counter: nat, frames: nat): nat
    decreases frames
  {
    if frames == 0 then counter else Advanced(NextCounter(counter), frames - 1)
  }

  lemma {:induction false} AdvancedWraps(counter: nat, start: nat, frames: nat)
    requires counter == Wrapped(start)
    ensures Advanced(counter, frames) == Wrapped(start + frames)
    decreases frames
  {
    if frames > 0 {
      NextOfWrapped(start);
      AdvancedWraps(NextCounter(counter), start + 1, frames - 1);
    }
  }

  function Appended(out: Bytes, failed: bool, later: Session): Session {
    Session(later.reader, out + later.out, later.failed || failed)
  }

  lemma LastFrameSession(a: Codec, prefix: Prefix, ending: Ending, counter: nat, after: Bytes, more: seq<nat>)
    requires Sound(a) && counter < COUNTERS
    ensures ReadOn(a, prefix, Start(ending, counter, Tail(a, prefix, counter, []) + after), [CHUNK] + more)
      == Appended([], !Ends(ending, after), ReadOn(a, prefix, BehindTail(ending, NextCounter(counter), after), more))
  {
    LastFrameRead(a, prefix, ending, counter, after);
    assert ([CHUNK] + more)[1..] == more;
  }

  lemma FullFrameSession(a: Codec, prefix: Prefix, ending: Ending, counter: nat, plain: Bytes, after: Bytes, more: seq<nat>)
    requires Sound(a) && counter < COUNTERS && plain != []
    ensures var next := NextCounter(counter);
      ReadOn(a, prefix, Start(ending, counter, Tail(a, prefix, counter, plain) + after), [CHUNK] + more)
        == Appended(Head(plain), false, ReadOn(a, prefix, Start(ending, next, Tail(a, prefix, next, Rest(plain)) + after), more))
  {
    FullFrameRead(a, prefix, ending, counter, plain, after);
    assert ([CHUNK] + more)[1..] == more;
  }

  lemma AppendedTwice(plain: Bytes, failed: bool, later: Session)
    ensures Appended(Head(plain), false, Appended(Rest(plain), failed, later)) == Appended(plain, failed, later)
  {
    assert Head(plain) + (Rest(plain) + later.out) == plain + later.out;
  }

  lemma FirstBuffer(n: nat, more: seq<nat>)
    requires n > 0
    ensures Buffers(n) + more == [CHUNK] + (Buffers(n - 1) + more)
  {
  }

  lemma NoBuffer(more: seq<nat>)
    ensures Buffers(0) + more == more
  {
  }

  /** Reading an image on with full buffers delivers its plaintext and then does what `end` does behind it. */
  ghost predicate ReadsThrough(a: Codec, prefix: Prefix, ending: Ending, counter: nat, plain: Bytes, after: Bytes, more: seq<nat>, end: Session)
    requires Sound(a) && counter < COUNTERS
  {
    ReadOn(a, prefix, Start(ending, counter, Tail(a, prefix, counter, plain) + after), Buffers(FrameCount(plain)) + more)
      == Appended(plain, !Ends(ending, after), end)
  }

  lemma LastFrameReadsThrough(a: Codec, prefix: Prefix, ending: Ending, counter: nat, after: Bytes, more: seq<nat>, end: Session)
    requires Sound(a) && counter < COUNTERS
    requires end == ReadOn(a, prefix, BehindTail(ending, NextCounter(counter), after), more)
    ensures ReadsThrough(a, prefix, ending, counter, [], after, more, end)
  {
    FirstBuffer(1, more);
    NoBuffer(more);
    LastFrameSession(a, prefix, ending, counter, after, more);
  }

  lemma FullFrameReadsThrough(a: Codec, prefix: Prefix, ending: Ending, counter: nat, plain: Bytes, after: Bytes, more: seq<nat>, end: Session)
    requires Sound(a) && counter < COUNTERS && plain != []
    requires ReadsThrough(a, prefix, ending, NextCounter(counter), Rest(plain), after, more, end)
    ensures ReadsThrough(a, prefix, ending, counter, plain, after, more, end)
  {
    var frames := FrameCount(plain);
    FirstBuffer(frames, more);
    FullFrameSession(a, prefix, ending, counter, plain, after, Buffers(frames - 1) + more);
    AppendedTwice(plain, !Ends(ending, after), end);
  }

  lemma {:induction false} TailReadThrough(a: Codec, prefix: Prefix, ending: Ending, counter: nat, plain: Bytes, after: Bytes, more: seq<nat>, end: Session)
    requires Sound(a) && counter < COUNTERS
    requires end == ReadOn(a, prefix, BehindTail(ending, Advanced(counter, FrameCount(plain)), after), more)
    ensures ReadsThrough(a, prefix, ending, counter, plain, after, more, end)
    decreases |plain|
  {
    if plain == [] {
      assert Advanced(counter, 1) == Advanced(NextCounter(counter), 0);
      LastFrameReadsThrough(a, prefix, ending, counter, after, more, end);
    } else {
      TailReadThrough(a, prefix, ending, NextCounter(counter), Rest(plain), after, more, end);
      FullFrameReadsThrough(a, prefix, ending, counter, plain, after, more, end);
    }
  }

  lemma TailReadToEnd(a: Codec, prefix: Prefix, ending: Ending, counter: nat, plain: Bytes)
    requires Sound(a) && counter < COUNTERS && !ending.InError?
    ensures var session := ReadOn(a, prefix, Start(ending, counter, Tail(a, prefix, counter, plain)), Buffers(FrameCount(plain)));
      session.out == plain && session.reader.done
  {
    var tail, buffers := Tail(a, prefix, counter, plain), Buffers(FrameCount(plain));
    TailReadThrough(a, prefix, ending, counter, plain, [], [], ReadOn(a, prefix, BehindTail(ending, Advanced(counter, FrameCount(plain)), []), []));
    assert tail + [] == tail && buffers + [] == buffers && plain + [] == plain;
  }

  lemma TailReadTwice(a: Codec, prefix: Prefix, ending: Ending, plain: Bytes, frames: nat, x: byte)
    requires Sound(a) && frames == FrameCount(plain) && Advanced(0, frames) == 0 && !ending.InError?
    ensures var tail := Tail(a, prefix, 0, plain);
      var session := ReadOn(a, prefix, Start(ending, 0, tail + ([x] + tail)), Buffers(frames) + Buffers(frames));
      session.out == plain + plain && session.reader.done
  {
    var tail := Tail(a, prefix, 0, plain);
    TailReadThrough(a, prefix, ending, 0, plain, [x] + tail, Buffers(frames), ReadOn(a, prefix, BehindTail(ending, 0, [x] + tail), Buffers(frames)));
    assert BehindTail(ending, 0, [x] + tail) == Start(ending, 0, tail);
    TailReadToEnd(a, prefix, ending, 0, plain);
  }

  /**
   With as many frames as there are counters the last refusal wraps the counter
   to the first frame's, and the whole image can be delivered again.
   */
  lemma FullCounterReadsTwice(a: Codec, prefix: Prefix, ending: Ending, plain: Bytes, frames: nat, x: byte)
    requires Sound(a) && frames == FrameCount(plain) == COUNTERS && !ending.InError?
    ensures var tail := Tail(a, prefix, 0, plain);
      var session := ReadOn(a, prefix, Start(ending, 0, tail + ([x] + tail)), Buffers(frames) + Buffers(frames));
      session.out == plain + plain && session.reader.done
  {
    AdvancedWraps(0, 0, frames);
    TailReadTwice(a, prefix, ending, plain, frames, x);
  }
}
