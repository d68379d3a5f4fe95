/**
 The encrypted object format: a header, then length-prefixed sealed chunks, then
 one empty sealed chunk. Nonces are an 8-byte random prefix followed by a 4-byte
 big-endian counter. The codec is a parameter; `Sound` says what is asked of it.
 */
module EncryptedStore {
  import opened Common

  type byte = x: int | 0 <= x < 256

  type Bytes = seq<byte>

  type Prefix = p: Bytes | |p| == 8 witness [0, 0, 0, 0, 0, 0, 0, 0]

  type NonceBytes = n: Bytes | |n| == 12 witness [0, 0, 0, 0, 0, 0, 0, 0, 0, 0, 0, 0]

  const CHUNK := 0x1_0000
  const TAG := 16
  const COUNTERS := 0x1_0000_0000
  const MAGIC: Bytes := [80, 70, 68, 49]

  // ----- Words and nonces -----

  type Word = w: Bytes | |w| == 4 witness [0, 0, 0, 0]

  function U32(n: nat): Word {
    [n / 0x100_0000 % 256, n / 0x1_0000 % 256, n / 0x100 % 256, n % 256]
  }

  function FromU32(word: Word): (n: nat)
    ensures n < COUNTERS
  {
    var a: int, b: int, c: int, d: int := word[0], word[1], word[2], word[3];
    a * 0x100_0000 + b * 0x1_0000 + c * 0x100 + d
  }

  lemma WordRoundTrip(n: nat)
    requires n < COUNTERS
    ensures FromU32(U32(n)) == n
  {
    var low, middle, high := n / 0x100, n / 0x1_0000, n / 0x100_0000;
    assert middle == low / 0x100 && high == middle / 0x100 && high < 256;
    assert n == low * 0x100 + n % 256 && low == middle * 0x100 + low % 256 && middle == high * 0x100 + middle % 256;
  }

  lemma WordIsItsNumber(word: Word)
    ensures U32(FromU32(word)) == word
  {
    var n := FromU32(word);
    var a: int, b: int, c: int := word[0], word[1], word[2];
    assert n / 0x100_0000 == a;
    assert n / 0x1_0000 == a * 0x100 + b;
    assert n / 0x100 == a * 0x1_0000 + b * 0x100 + c;
  }

  // ----- The cipher -----

  /** How chunks are sealed and opened, and how lengths and counters are written. */
  datatype Codec = Codec(seal: (NonceBytes, Bytes) -> Bytes, open: (NonceBytes, Bytes) -> Option<Bytes>, word: nat -> Word)

  /**
   Opening inverts sealing, accepts nothing else, and never accepts another
   nonce's chunk; the words are the big-endian ones.
   */
  ghost predicate Sound(a: Codec) {
    && (forall n, p :: |a.seal(n, p)| == |p| + TAG && a.open(n, a.seal(n, p)) == Some(p))
    && (forall n, c :: a.open(n, c).Some? ==> c == a.seal(n, a.open(n, c).value))
    && (forall n, m, p :: n != m ==> a.open(m, a.seal(n, p)) == None)
    && (forall n: nat {:trigger FromU32(a.word(n))} :: n < COUNTERS ==> FromU32(a.word(n)) == n)
  }

  lemma WordIsBigEndian(a: Codec, n: nat)
    requires Sound(a) && n < COUNTERS
    ensures a.word(n) == U32(n)
  {
    WordIsItsNumber(a.word(n));
  }

  function Nonce(a: Codec, prefix: Prefix, counter: nat): NonceBytes {
    prefix + a.word(counter)
  }

  lemma NoncesTellCountersApart(a: Codec, prefix: Prefix, i: nat, j: nat)
    requires Sound(a) && i < COUNTERS && j < COUNTERS
    ensures Nonce(a, prefix, i) == Nonce(a, prefix, j) <==> i == j
  {
    if Nonce(a, prefix, i) == Nonce(a, prefix, j) {
      assert a.word(i) == Nonce(a, prefix, i)[|prefix|..] == Nonce(a, prefix, j)[|prefix|..] == a.word(j);
      assert FromU32(a.word(i)) == i && FromU32(a.word(j)) == j;
    }
  }

  /** The demands on a cipher can be met: here by one that only spells out its nonce. */
  lemma SoundCiphersExist() returns (a: Codec)
    ensures Sound(a)
  {
    var zeros: Bytes := [0, 0, 0, 0];
    a := Codec((n: NonceBytes, p: Bytes) => n + zeros + p,
              (n: NonceBytes, c: Bytes) => if |c| >= TAG && c[..12] == n && c[12..TAG] == zeros then Some(c[TAG..]) else None,
               U32);
    forall n: nat | n < COUNTERS
      ensures FromU32(a.word(n)) == n
    {
      WordRoundTrip(n);
    }
    forall n: NonceBytes, p: Bytes
      ensures a.open(n, a.seal(n, p)) == Some(p)
    {
      assert (n + zeros + p)[..12] == n && (n + zeros + p)[12..TAG] == zeros && (n + zeros + p)[TAG..] == p;
    }
    forall n: NonceBytes, c: Bytes | a.open(n, c).Some?
      ensures c == a.seal(n, a.open(n, c).value)
    {
      assert c == c[..12] + c[12..TAG] + c[TAG..];
    }
    forall n: NonceBytes, m: NonceBytes, p: Bytes | n != m
      ensures a.open(m, a.seal(n, p)) == None
    {
      assert (n + zeros + p)[..12] == n;
    }
  }

  // ----- The image that Put writes -----

  function NextCounter(counter: nat): nat {
    if counter + 1 == COUNTERS then 0 else counter + 1
  }

  function Frame(a: Codec, prefix: Prefix, counter: nat, plain: Bytes): Bytes {
    a.word(|plain|) + a.seal(Nonce(a, prefix, counter), plain)
  }

  function Head(plain: Bytes): Bytes {
    plain[..Min(CHUNK, |plain|)]
  }

  function Rest(plain: Bytes): Bytes {
    plain[Min(CHUNK, |plain|)..]
  }

  /** The frames from this counter on: the remaining chunks and the empty last one. */
  function Tail(a: Codec, prefix: Prefix, counter: nat, plain: Bytes): Bytes
    decreases |plain|
  {
    if plain == [] then Frame(a, prefix, counter, [])
    else Frame(a, prefix, counter, Head(plain)) + Tail(a, prefix, NextCounter(counter), Rest(plain))
  }

  function Image(a: Codec, prefix: Prefix, plain: Bytes): Bytes {
    MAGIC + prefix + Tail(a, prefix, 0, plain)
  }

  // ----- The reader -----

  datatype ReadError = Eof | UnexpectedEof | RawError | ChunkTooLarge | NotAuthentic | TrailingData

  /** How the raw stream ends: on a read of its own, together with its last byte, or with an error. */
  datatype Ending = OnItsOwn | WithLastByte | InError

  /** A read that the raw stream cuts short. */
  function Short(ending: Ending, error: ReadError): ReadError {
    if ending.InError? then RawError else error
  }

  /** A one-byte read of what is left meets the end. */
  predicate Ends(ending: Ending, left: Bytes) {
    if left == [] then !ending.InError? else ending.WithLastByte? && |left| == 1
  }

  /** What such a read leaves. */
  function Behind(left: Bytes): Bytes {
    if left == [] then [] else left[1..]
  }

  /** `raw` is what has not yet been read from the object. */
  datatype Reader = Reader(raw: Bytes, ending: Ending, counter: nat, chunk: Bytes, done: bool)

  /** A reader that is about to fetch. */
  function Start(ending: Ending, counter: nat, raw: Bytes): Reader {
    Reader(raw, ending, counter, [], false)
  }

  datatype Step = Step(reader: Reader, error: Option<ReadError>)

  /** One turn of the reader's loop: fetch, check and open the next chunk. */
  function FetchChunk(a: Codec, prefix: Prefix, r: Reader): Step {
    if |r.raw| < 4 then
      Step(r.(raw := []), Some(Short(r.ending, if r.raw == [] then Eof else UnexpectedEof)))
    else
      var size, rest := FromU32(r.raw[..4]), r.raw[4..];
      if size > CHUNK then
        Step(r.(raw := rest), Some(ChunkTooLarge))
      else if |rest| < size + TAG then
        Step(r.(raw := []), Some(Short(r.ending, if rest == [] then Eof else UnexpectedEof)))
      else
        var after := rest[size + TAG..];
        match a.open(Nonce(a, prefix, r.counter), rest[..size + TAG])
        case None => Step(r.(raw := after), Some(NotAuthentic))
        case Some(plain) =>
          var advanced := r.(raw := after, counter := NextCounter(r.counter));
          if size != 0 then Step(advanced.(chunk := plain), None)
          else if Ends(r.ending, after) then Step(advanced.(raw := Behind(after), done := true), None)
          else Step(advanced.(raw := Behind(after)), Some(TrailingData))
  }

  function Fill(a: Codec, prefix: Prefix, r: Reader): Step
    decreases |r.raw|
  {
    if r.chunk != [] || r.done then Step(r, None)
    else
      var next := FetchChunk(a, prefix, r);
      if next.error.Some? then next else Fill(a, prefix, next.reader)
  }

  datatype ReadResult = ReadResult(reader: Reader, out: Bytes, error: Option<ReadError>)

  function Read(a: Codec, prefix: Prefix, r: Reader, size: nat): ReadResult {
    if size == 0 then ReadResult(r, [], None)
    else
      var filled := Fill(a, prefix, r);
      if filled.error.Some? then ReadResult(filled.reader, [], filled.error)
      else if filled.reader.done then ReadResult(filled.reader, [], Some(Eof))
      else
        var n := Min(size, |filled.reader.chunk|);
        ReadResult(filled.reader.(chunk := filled.reader.chunk[n..]), filled.reader.chunk[..n], None)
  }

  /** Everything read with these buffer sizes, up to the first error. */
  function Drain(a: Codec, prefix: Prefix, r: Reader, sizes: seq<nat>): ReadResult
    decreases |sizes|
  {
    if sizes == [] then ReadResult(r, [], None)
    else
      var first := Read(a, prefix, r, sizes[0]);
      if first.error.Some? then first
      else
        var others := Drain(a, prefix, first.reader, sizes[1..]);
        others.(out := first.out + others.out)
  }

  class DecryptReader {
    const codec: Codec
    const prefix: Prefix
    const ending: Ending
    var raw: Bytes
    var counter: nat
    var chunk: Bytes
    var done: bool

    function State(): Reader
      reads this
    {
      Reader(raw, ending, counter, chunk, done)
    }

    constructor (codec: Codec, prefix: Prefix, raw: Bytes, ending: Ending)
      ensures this.codec == codec && this.prefix == prefix && State() == Start(ending, 0, raw)
    {
      this.codec, this.prefix, this.raw, this.ending := codec, prefix, raw, ending;
      counter, chunk, done := 0, [], false;
    }

    method ReadInto(size: nat) returns (out: Bytes, error: Option<ReadError>)
      modifies this
      ensures ReadResult(State(), out, error) == Read(codec, prefix, old(State()), size)
    {
      if size == 0 {
        return [], None;
      }
      while |chunk| == 0 && !done
        invariant Fill(codec, prefix, State()) == Fill(codec, prefix, old(State()))
        decreases |raw|
      {
        if |raw| < 4 {
          error := Some(Short(ending, if raw == [] then Eof else UnexpectedEof));
          raw := [];
          return [], error;
        }
        var length := FromU32(raw[..4]);
        raw := raw[4..];
        if length > CHUNK {
          return [], Some(ChunkTooLarge);
        }
        if |raw| < length + TAG {
          error := Some(Short(ending, if raw == [] then Eof else UnexpectedEof));
          raw := [];
          return [], error;
        }
        var sealed := raw[..length + TAG];
        raw := raw[length + TAG..];
        var plain := codec.open(Nonce(codec, prefix, counter), sealed);
        if plain.None? {
          return [], Some(NotAuthentic);
        }
        counter := NextCounter(counter);
        if length == 0 {
          var met := Ends(ending, raw);
          raw := Behind(raw);
          if !met {
            return [], Some(TrailingData);
          }
          done := true;
          break;
        }
        chunk := plain.value;
      }
      if done {
        return [], Some(Eof);
      }
      var n := Min(size, |chunk|);
      out, error := chunk[..n], None;
      chunk := chunk[n..];
    }
  }

  datatype Source = Source(data: Bytes, fails: bool)

  class Store {
    const codec: Codec
    var objects: map<string, Bytes>

    constructor (codec: Codec)
      ensures this.codec == codec && objects == map[]
    {
      this.codec := codec;
      objects := map[];
    }

    /** `prefix` is the random nonce prefix, `storeAnswers` whether the object store takes the upload. */
    method Put(key: string, source: Source, prefix: Prefix, storeAnswers: bool) returns (ok: bool)
      modifies this
      ensures ok == (key != "" && !source.fails && storeAnswers)
      ensures objects == if ok then old(objects)[key := Image(codec, prefix, source.data)] else old(objects)
    {
      if key == "" {
        return false;
      }
      var file := MAGIC + prefix;
      var unread, counter := source.data, 0;
      while true
        invariant file + Tail(codec, prefix, counter, unread) == Image(codec, prefix, source.data)
        invariant objects == old(objects)
        decreases |unread|
      {
        var buffer := Head(unread);
        var full := |buffer| == CHUNK;
        if !full && source.fails {
          return false;
        }
        if unread != [] {
          var frame, tail := Frame(codec, prefix, counter, buffer), Tail(codec, prefix, NextCounter(counter), Rest(unread));
          assert file + (frame + tail) == file + frame + tail;
        }
        unread := Rest(unread);
        if |buffer| > 0 {
          file := file + Frame(codec, prefix, counter, buffer);
          counter := NextCounter(counter);
        }
        if !full {
          break;
        }
      }
      file := file + Frame(codec, prefix, counter, []);
      if storeAnswers {
        objects := objects[key := file];
      }
      return storeAnswers;
    }

    /** `ending` is how the object store's stream of the object ends. */
    method Open(key: string, ending: Ending) returns (reader: Option<DecryptReader>)
      ensures reader.Some? <==> key in objects && |objects[key]| >= 12 && objects[key][..4] == MAGIC
      ensures reader.Some? ==>
        && fresh(reader.value) && reader.value.codec == codec && reader.value.prefix == objects[key][4..12]
        && reader.value.State() == Start(ending, 0, objects[key][12..])
    {
      if key !in objects || |objects[key]| < 12 || objects[key][..4] != MAGIC {
        return None;
      }
      var r := new DecryptReader(codec, objects[key][4..12], objects[key][12..], ending);
      return Some(r);
    }
  }

  // ----- The front of a stream -----

  /** The front of a stream: nothing to open, or a chunk that is all there. */
  datatype Front = Broken(rest: Bytes, error: ReadError) | Offer(size: nat, sealed: Bytes, rest: Bytes)

  function FrontOf(raw: Bytes): (front: Front)
    ensures raw != [] ==> |front.rest| < |raw|
    ensures front.Offer? ==> raw != [] && |front.sealed| == front.size + TAG
  {
    if |raw| < 4 then Broken([], if raw == [] then Eof else UnexpectedEof)
    else
      var size, rest := FromU32(raw[..4]), raw[4..];
      if size > CHUNK then Broken(rest, ChunkTooLarge)
      else if |rest| < size + TAG then Broken([], if rest == [] then Eof else UnexpectedEof)
      else Offer(size, rest[..size + TAG], rest[size + TAG..])
  }

  /** What a fetch makes of it. */
  function FetchFront(a: Codec, prefix: Prefix, ending: Ending, counter: nat, front: Front): Step {
    match front
    case Broken(rest, error) =>
      Step(Start(ending, counter, rest), Some(if error.ChunkTooLarge? then error else Short(ending, error)))
    case Offer(size, sealed, rest) =>
      match a.open(Nonce(a, prefix, counter), sealed)
      case None => Step(Start(ending, counter, rest), Some(NotAuthentic))
      case Some(plain) =>
        var next := NextCounter(counter);
        if size != 0 then Step(Start(ending, next, rest).(chunk := plain), None)
        else if Ends(ending, rest) then Step(Start(ending, next, Behind(rest)).(done := true), None)
        else Step(Start(ending, next, Behind(rest)), Some(TrailingData))
  }

  lemma FetchIsFront(a: Codec, prefix: Prefix, ending: Ending, counter: nat, raw: Bytes)
    ensures FetchChunk(a, prefix, Start(ending, counter, raw)) == FetchFront(a, prefix, ending, counter, FrontOf(raw))
  {
  }

  predicate Opens(a: Codec, prefix: Prefix, counter: nat, front: Front) {
    front.Offer? && a.open(Nonce(a, prefix, counter), front.sealed).Some?
  }

  lemma OfferedFrame(a: Codec, raw: Bytes)
    requires Sound(a) && FrontOf(raw).Offer?
    ensures raw == a.word(FrontOf(raw).size) + FrontOf(raw).sealed + FrontOf(raw).rest
  {
    WordIsItsNumber(raw[..4]);
    WordIsBigEndian(a, FromU32(raw[..4]));
  }

  lemma FrontOfFrame(a: Codec, size: nat, sealed: Bytes, rest: Bytes)
    requires Sound(a) && size <= CHUNK && |sealed| == size + TAG
    ensures FrontOf(a.word(size) + sealed + rest) == Offer(size, sealed, rest)
  {
    var raw := a.word(size) + sealed + rest;
    assert FromU32(a.word(size)) == size;
    assert raw[..4] == a.word(size) && raw[4..] == sealed + rest;
    assert (sealed + rest)[..size + TAG] == sealed && (sealed + rest)[size + TAG..] == rest;
  }

  lemma FrontOfCutFrame(a: Codec, size: nat, sealed: Bytes, cut: nat)
    requires Sound(a) && size <= CHUNK && |sealed| == size + TAG && cut < 4 + |sealed|
    ensures FrontOf((a.word(size) + sealed)[..cut]).Broken? && FrontOf((a.word(size) + sealed)[..cut]).rest == []
  {
    var raw := (a.word(size) + sealed)[..cut];
    assert FromU32(a.word(size)) == size;
    if cut >= 4 {
      assert raw[..4] == a.word(size);
    }
  }

  lemma CutOfJoin(front: Bytes, back: Bytes, cut: nat)
    requires cut <= |front| + |back|
    ensures (front + back)[..cut] == if cut < |front| then front[..cut] else front + back[..cut - |front|]
  {
  }

  /** The front of a cut of a frame and what follows it: the frame's chunk, if that is all there. */
  lemma FrontOfCut(a: Codec, size: nat, sealed: Bytes, others: Bytes, cut: nat)
    requires Sound(a) && size <= CHUNK && |sealed| == size + TAG && cut <= 4 + |sealed| + |others|
    ensures var front := FrontOf((a.word(size) + sealed + others)[..cut]);
      if cut < 4 + |sealed| then front.Broken? && front.rest == []
      else front == Offer(size, sealed, others[..cut - 4 - |sealed|])
  {
    CutOfJoin(a.word(size) + sealed, others, cut);
    if cut < 4 + |sealed| {
      FrontOfCutFrame(a, size, sealed, cut);
    } else {
      FrontOfFrame(a, size, sealed, others[..cut - 4 - |sealed|]);
    }
  }

  // ----- Streams of chunks -----

  /** A stream as the reader takes it apart, up to what ends it: a fault, or an empty chunk and what is left behind that. */
  datatype Stream = Fault(error: ReadError) | Chunk(sealed: Bytes, next: Stream) | Last(sealed: Bytes, left: Bytes)

  function Parse(raw: Bytes): Stream
    decreases |raw|
  {
    match FrontOf(raw)
    case Broken(_, error) => Fault(error)
    case Offer(size, sealed, rest) => if size == 0 then Last(sealed, rest) else Chunk(sealed, Parse(rest))
  }

  datatype Delivery = Delivery(out: Bytes, error: Option<ReadError>)

  function Prepended(front: Bytes, later: Delivery): Delivery {
    Delivery(front + later.out, later.error)
  }

  /** All that a stream yields up to the first error; no error means that the empty last chunk ended it. */
  function Play(a: Codec, prefix: Prefix, ending: Ending, counter: nat, s: Stream): Delivery
    decreases s
  {
    match s
    case Fault(error) => Delivery([], Some(if error.ChunkTooLarge? then error else Short(ending, error)))
    case Chunk(sealed, next) =>
      var found := a.open(Nonce(a, prefix, counter), sealed);
      if found.None? then Delivery([], Some(NotAuthentic))
      else Prepended(found.value, Play(a, prefix, ending, NextCounter(counter), next))
    case Last(sealed, left) =>
      if a.open(Nonce(a, prefix, counter), sealed).None? then Delivery([], Some(NotAuthentic))
      else Delivery([], if Ends(ending, left) then None else Some(TrailingData))
  }

  // ----- What is delivered, whatever the buffer sizes -----

  function Deliver(a: Codec, prefix: Prefix, ending: Ending, counter: nat, raw: Bytes): Delivery {
    Play(a, prefix, ending, counter, Parse(raw))
  }

  /** What an open reader still has to deliver. */
  function Ahead(a: Codec, prefix: Prefix, r: Reader): Delivery {
    Prepended(r.chunk, Deliver(a, prefix, r.ending, r.counter, r.raw))
  }

  /** A fetch takes the first chunk off the stream. */
  lemma FetchDelivers(a: Codec, prefix: Prefix, ending: Ending, counter: nat, raw: Bytes)
    ensures var next, ahead := FetchFront(a, prefix, ending, counter, FrontOf(raw)), Deliver(a, prefix, ending, counter, raw);
      if next.error.Some? then ahead == Delivery([], next.error)
      else if next.reader.done then ahead == Delivery([], None)
      else ahead == Ahead(a, prefix, next.reader)
  {
  }

  ghost predicate Positive(sizes: seq<nat>) {
    forall i :: 0 <= i < |sizes| ==> sizes[i] > 0
  }

  lemma FillFetchesOneChunk(a: Codec, prefix: Prefix, r: Reader)
    requires Sound(a) && !r.done && r.chunk == []
    ensures Fill(a, prefix, r) == FetchChunk(a, prefix, r) == FetchFront(a, prefix, r.ending, r.counter, FrontOf(r.raw))
    ensures var next := Fill(a, prefix, r); next.error.None? && !next.reader.done ==> next.reader.chunk != []
  {
    FetchIsFront(a, prefix, r.ending, r.counter, r.raw);
    assert r == Start(r.ending, r.counter, r.raw);
  }

  /** The answer of a read to what the reader had to deliver. */
  ghost predicate Advances(a: Codec, prefix: Prefix, ahead: Delivery, result: ReadResult) {
    if ahead.out == [] then
      && result.out == [] && result.reader.done == ahead.error.None?
      && result.error == Some(if ahead.error.Some? then ahead.error.value else Eof)
    else
      && result.error == None && !result.reader.done && result.out != []
      && ahead == Prepended(result.out, Ahead(a, prefix, result.reader))
  }

  /** A read from the chunk at hand delivers its front. */
  lemma ReadHandsOut(a: Codec, prefix: Prefix, r: Reader, size: nat)
    requires !r.done && r.chunk != [] && size > 0
    ensures Advances(a, prefix, Ahead(a, prefix, r), Read(a, prefix, r, size))
  {
    var n := Min(size, |r.chunk|);
    assert Fill(a, prefix, r) == Step(r, None);
    var later := Deliver(a, prefix, r.ending, r.counter, r.raw);
    assert r.chunk + later.out == r.chunk[..n] + (r.chunk[n..] + later.out);
  }

  lemma FetchAdvances(a: Codec, prefix: Prefix, r: Reader, size: nat)
    requires Sound(a) && !r.done && r.chunk == [] && size > 0
    ensures Advances(a, prefix, Deliver(a, prefix, r.ending, r.counter, r.raw), Read(a, prefix, r, size))
  {
    var filled := Fill(a, prefix, r);
    FillFetchesOneChunk(a, prefix, r);
    FetchDelivers(a, prefix, r.ending, r.counter, r.raw);
    if filled.error.None? && !filled.reader.done {
      ReadHandsOut(a, prefix, filled.reader, size);
      assert Read(a, prefix, r, size) == Read(a, prefix, filled.reader, size);
    }
  }

  lemma ReadAdvances(a: Codec, prefix: Prefix, r: Reader, size: nat)
    requires Sound(a) && !r.done && size > 0
    ensures Advances(a, prefix, Ahead(a, prefix, r), Read(a, prefix, r, size))
  {
    if r.chunk != [] {
      ReadHandsOut(a, prefix, r, size);
    } else {
      FetchAdvances(a, prefix, r, size);
      NothingAtHand(a, prefix, r);
    }
  }

  lemma NothingAtHand(a: Codec, prefix: Prefix, r: Reader)
    requires r.chunk == []
    ensures Ahead(a, prefix, r) == Deliver(a, prefix, r.ending, r.counter, r.raw)
  {
  }

  lemma PrefixAfter(front: Bytes, part: Bytes, whole: Bytes)
    requires part <= whole
    ensures front + part <= front + whole
  {
  }

  /** Reads with any buffer sizes deliver the same bytes in order, and enough reads deliver all of them. */
  lemma {:induction false} AnyBufferSizesDeliver(a: Codec, prefix: Prefix, r: Reader, sizes: seq<nat>)
    requires Sound(a) && !r.done
    ensures var ahead, result := Ahead(a, prefix, r), Drain(a, prefix, r, sizes);
      && result.out <= ahead.out
      && (result.reader.done ==> result.out == ahead.out && ahead.error.None?)
      && (Positive(sizes) && |sizes| > |ahead.out| ==>
            && result.out == ahead.out && result.reader.done == ahead.error.None?
            && result.error == Some(if ahead.error.Some? then ahead.error.value else Eof))
    decreases |sizes|
  {
    if sizes != [] {
      var first := Read(a, prefix, r, sizes[0]);
      if sizes[0] == 0 {
        AnyBufferSizesDeliver(a, prefix, r, sizes[1..]);
      } else {
        ReadAdvances(a, prefix, r, sizes[0]);
        if first.error.None? {
          AnyBufferSizesDeliver(a, prefix, first.reader, sizes[1..]);
          PrefixAfter(first.out, Drain(a, prefix, first.reader, sizes[1..]).out, Ahead(a, prefix, first.reader).out);
        }
      }
    }
  }

  // ----- Round trip -----

  /** The chunks of the frames from this counter on, and what follows them. */
  function ImageStream(a: Codec, prefix: Prefix, counter: nat, plain: Bytes, left: Bytes): Stream
    decreases |plain|
  {
    var nonce := Nonce(a, prefix, counter);
    if plain == [] then Last(a.seal(nonce, []), left)
    else Chunk(a.seal(nonce, Head(plain)), ImageStream(a, prefix, NextCounter(counter), Rest(plain), left))
  }

  lemma FrontOfTail(a: Codec, prefix: Prefix, counter: nat, plain: Bytes, left: Bytes)
    requires Sound(a)
    ensures var front, nonce := FrontOf(Tail(a, prefix, counter, plain) + left), Nonce(a, prefix, counter);
      if plain == [] then front == Offer(0, a.seal(nonce, []), left)
      else front == Offer(|Head(plain)|, a.seal(nonce, Head(plain)), Tail(a, prefix, NextCounter(counter), Rest(plain)) + left)
  {
    var nonce := Nonce(a, prefix, counter);
    if plain == [] {
      FrontOfFrame(a, 0, a.seal(nonce, []), left);
    } else {
      var others := Tail(a, prefix, NextCounter(counter), Rest(plain));
      var frame := Frame(a, prefix, counter, Head(plain));
      assert frame + others + left == frame + (others + left);
      FrontOfFrame(a, |Head(plain)|, a.seal(nonce, Head(plain)), others + left);
    }
  }

  lemma {:induction false} ParsedTail(a: Codec, prefix: Prefix, counter: nat, plain: Bytes, left: Bytes)
    requires Sound(a)
    ensures Parse(Tail(a, prefix, counter, plain) + left) == ImageStream(a, prefix, counter, plain, left)
    decreases |plain|
  {
    FrontOfTail(a, prefix, counter, plain, left);
    if plain != [] {
      ParsedTail(a, prefix, NextCounter(counter), Rest(plain), left);
    }
  }

  lemma HeadAndRest(plain: Bytes)
    ensures Head(plain) + Rest(plain) == plain
  {
  }

  lemma {:induction false} ImageStreamPlays(a: Codec, prefix: Prefix, ending: Ending, counter: nat, plain: Bytes, left: Bytes)
    requires Sound(a)
    ensures Play(a, prefix, ending, counter, ImageStream(a, prefix, counter, plain, left))
      == Delivery(plain, if Ends(ending, left) then None else Some(TrailingData))
    decreases |plain|
  {
    if plain != [] {
      ImageStreamPlays(a, prefix, ending, NextCounter(counter), Rest(plain), left);
      HeadAndRest(plain);
    }
  }

  /** The frames of an image deliver the plaintext, and end cleanly exactly when the raw stream ends behind them. */
  lemma TailDeliversPlaintext(a: Codec, prefix: Prefix, ending: Ending, counter: nat, plain: Bytes, left: Bytes)
    requires Sound(a)
    ensures Deliver(a, prefix, ending, counter, Tail(a, prefix, counter, plain) + left)
      == Delivery(plain, if Ends(ending, left) then None else Some(TrailingData))
  {
    ParsedTail(a, prefix, counter, plain, left);
    ImageStreamPlays(a, prefix, ending, counter, plain, left);
  }

  lemma ImageParts(a: Codec, prefix: Prefix, plain: Bytes)
    ensures var image := Image(a, prefix, plain);
      |image| >= 12 && image[..4] == MAGIC && image[4..12] == prefix && image[12..] == Tail(a, prefix, 0, plain)
  {
  }

  /** Reading back what Put wrote, with any buffer sizes, gives the plaintext and then a clean end. */
  lemma RoundTrip(a: Codec, prefix: Prefix, ending: Ending, plain: Bytes, sizes: seq<nat>)
    requires Sound(a) && !ending.InError?
    ensures var image := Image(a, prefix, plain);
      && image[..4] == MAGIC && image[4..12] == prefix
      && var result := Drain(a, prefix, Start(ending, 0, image[12..]), sizes);
         && result.out <= plain
         && (Positive(sizes) && |sizes| > |plain| ==> result.out == plain && result.reader.done && result.error == Some(Eof))
  {
    var tail := Tail(a, prefix, 0, plain);
    ImageParts(a, prefix, plain);
    assert tail + [] == tail;
    TailDeliversPlaintext(a, prefix, ending, 0, plain, []);
    AnyBufferSizesDeliver(a, prefix, Start(ending, 0, tail), sizes);
    assert Ahead(a, prefix, Start(ending, 0, tail)) == Deliver(a, prefix, ending, 0, tail);
  }

  /** The number of frames of an image, the empty last one included. */
  function FrameCount(plain: Bytes): nat
    decreases |plain|
  {
    if plain == [] then 1 else FrameCount(Rest(plain)) + 1
  }

  lemma {:induction false} FrameFormula(plain: Bytes)
    ensures FrameCount(plain) == (|plain| + CHUNK - 1) / CHUNK + 1
    decreases |plain|
  {
    if plain != [] {
      FrameFormula(Rest(plain));
    }
  }

  function NoncesUsed(a: Codec, prefix: Prefix, counter: nat, plain: Bytes): seq<NonceBytes>
    decreases |plain|
  {
    [Nonce(a, prefix, counter)] + if plain == [] then [] else NoncesUsed(a, prefix, NextCounter(counter), Rest(plain))
  }

  function Wrapped(n: nat): nat {
    n % COUNTERS
  }

  lemma NextOfWrapped(n: nat)
    ensures NextCounter(Wrapped(n)) == Wrapped(n + 1)
  {
  }

  lemma FramesOfRest(plain: Bytes)
    requires plain != []
    ensures FrameCount(plain) == FrameCount(Rest(plain)) + 1
  {
  }

  lemma {:induction false} NonceOfEachFrame(a: Codec, prefix: Prefix, counter: nat, start: nat, plain: Bytes, k: nat)
    requires counter == Wrapped(start) && k < FrameCount(plain)
    ensures |NoncesUsed(a, prefix, counter, plain)| == FrameCount(plain)
    ensures NoncesUsed(a, prefix, counter, plain)[k] == Nonce(a, prefix, Wrapped(start + k))
    decreases |plain|
  {
    if plain != [] {
      NextOfWrapped(start);
      FramesOfRest(plain);
      NonceOfEachFrame(a, prefix, NextCounter(counter), start + 1, Rest(plain), if k == 0 then 0 else k - 1);
    }
  }

  lemma UsedNonce(a: Codec, prefix: Prefix, plain: Bytes, k: nat)
    requires k < FrameCount(plain)
    ensures |NoncesUsed(a, prefix, 0, plain)| == FrameCount(plain)
    ensures NoncesUsed(a, prefix, 0, plain)[k] == Nonce(a, prefix, Wrapped(k))
  {
    NonceOfEachFrame(a, prefix, 0, 0, plain, k);
  }

  lemma NotWrapped(k: nat)
    requires k < COUNTERS
    ensures Wrapped(k) == k
  {
  }

  lemma FrameLimit(plain: Bytes)
    ensures FrameCount(plain) <= COUNTERS <==> |plain| <= (COUNTERS - 1) * CHUNK
  {
    FrameFormula(plain);
  }

  lemma CounterOverflowRepeatsNonce(a: Codec, prefix: Prefix, plain: Bytes)
    requires FrameCount(plain) > COUNTERS
    ensures !Distinct(NoncesUsed(a, prefix, 0, plain))
  {
    UsedNonce(a, prefix, plain, 0);
    UsedNonce(a, prefix, plain, COUNTERS);
    assert NoncesUsed(a, prefix, 0, plain)[0] == NoncesUsed(a, prefix, 0, plain)[COUNTERS];
  }

  /** No nonce is used twice in an object exactly when its frames fit the 32-bit counter. */
  lemma NoncesAreDistinctIffCounterFits(a: Codec, prefix: Prefix, plain: Bytes)
    requires Sound(a)
    ensures Distinct(NoncesUsed(a, prefix, 0, plain)) <==> |plain| <= (COUNTERS - 1) * CHUNK
  {
    FrameLimit(plain);
    if FrameCount(plain) > COUNTERS {
      CounterOverflowRepeatsNonce(a, prefix, plain);
    } else {
      UsedNonce(a, prefix, plain, 0);
      forall i, j | 0 <= i < j < FrameCount(plain)
        ensures NoncesUsed(a, prefix, 0, plain)[i] != NoncesUsed(a, prefix, 0, plain)[j]
      {
        UsedNonce(a, prefix, plain, i);
        UsedNonce(a, prefix, plain, j);
        NotWrapped(i);
        NotWrapped(j);
        NoncesTellCountersApart(a, prefix, i, j);
      }
    }
  }

  // ----- Tampering -----

  /** The payload of frame k of an image, for k up to the empty last frame. */
  function Payload(plain: Bytes, k: nat): Bytes
    decreases k
  {
    if k == 0 then Head(plain) else Payload(Rest(plain), k - 1)
  }

  /** What Put sealed as frame k of the object. */
  function SealedFrame(a: Codec, prefix: Prefix, plain: Bytes, k: nat): Bytes {
    a.seal(Nonce(a, prefix, k), Payload(plain, k))
  }

  ghost predicate IssuedByPut(a: Codec, prefix: Prefix, plain: Bytes, sealed: Bytes) {
    exists k :: 0 <= k < FrameCount(plain) && sealed == SealedFrame(a, prefix, plain, k)
  }

  /** Playing a stream from this counter on opens no chunk but those that Put sealed. */
  ghost predicate NoForgeryIn(a: Codec, prefix: Prefix, plain: Bytes, counter: nat, s: Stream)
    decreases s
  {
    match s
    case Fault(_) => true
    case Chunk(sealed, next) =>
      a.open(Nonce(a, prefix, counter), sealed).Some? ==>
        IssuedByPut(a, prefix, plain, sealed) && NoForgeryIn(a, prefix, plain, NextCounter(counter), next)
    case Last(sealed, _) =>
      a.open(Nonce(a, prefix, counter), sealed).Some? ==> IssuedByPut(a, prefix, plain, sealed)
  }

  /** Along the reader's way through these bytes, up to its first error, it opens no chunk but those that Put sealed. */
  ghost predicate NoForgery(a: Codec, prefix: Prefix, plain: Bytes, counter: nat, raw: Bytes) {
    NoForgeryIn(a, prefix, plain, counter, Parse(raw))
  }

  /** The plaintext from frame k on. */
  function From(plain: Bytes, k: nat): Bytes
    decreases k
  {
    if k == 0 then plain else From(Rest(plain), k - 1)
  }

  lemma {:induction false} FrameOfRemainder(plain: Bytes, k: nat)
    requires k < FrameCount(plain)
    ensures Payload(plain, k) == Head(From(plain, k))
    ensures From(plain, k + 1) == Rest(From(plain, k))
    ensures From(plain, k) == [] <==> k == FrameCount(plain) - 1
    decreases k
  {
    if k > 0 {
      FramesOfRest(plain);
      FrameOfRemainder(Rest(plain), k - 1);
    }
  }

  /** A chunk that Put sealed opens only at its own place. */
  lemma OpensOnlyInPlace(a: Codec, prefix: Prefix, plain: Bytes, k: nat, sealed: Bytes)
    requires Sound(a) && FrameCount(plain) <= COUNTERS && k < FrameCount(plain)
    requires IssuedByPut(a, prefix, plain, sealed) && a.open(Nonce(a, prefix, k), sealed).Some?
    ensures sealed == SealedFrame(a, prefix, plain, k)
    ensures a.open(Nonce(a, prefix, k), sealed) == Some(Payload(plain, k)) && |sealed| == |Payload(plain, k)| + TAG
  {
    var j :| 0 <= j < FrameCount(plain) && sealed == SealedFrame(a, prefix, plain, j);
    NoncesTellCountersApart(a, prefix, j, k);
  }

  lemma FrameSplits(plain: Bytes, k: nat)
    requires k < FrameCount(plain)
    ensures From(plain, k) == Payload(plain, k) + From(plain, k + 1)
    ensures Payload(plain, k) == [] <==> k + 1 == FrameCount(plain)
  {
    FrameOfRemainder(plain, k);
    var rest := From(plain, k);
    assert rest == Head(rest) + Rest(rest);
  }

  lemma NextIsOneMore(counter: nat)
    requires counter + 1 < COUNTERS
    ensures NextCounter(counter) == counter + 1
  {
  }

  /** Chunks are not empty and the last one is, apart from their tags. */
  ghost predicate Shaped(s: Stream) {
    match s
    case Fault(_) => true
    case Chunk(sealed, next) => |sealed| > TAG && Shaped(next)
    case Last(sealed, _) => |sealed| == TAG
  }

  lemma {:induction false} ParsedIsShaped(raw: Bytes)
    ensures Shaped(Parse(raw))
    decreases |raw|
  {
    var front := FrontOf(raw);
    if front.Offer? && front.size != 0 {
      ParsedIsShaped(front.rest);
    }
  }

  /** What a tampered stream yields, against the plaintext and the stream of the image from frame k on. */
  ghost predicate Harmless(a: Codec, prefix: Prefix, ending: Ending, k: nat, s: Stream, remainder: Bytes) {
    var all := Play(a, prefix, ending, k, s);
    && all.out <= remainder
    && (all.error == None ==>
          all.out == remainder && exists left :: s == ImageStream(a, prefix, k, remainder, left) && Ends(ending, left))
  }

  lemma HarmlessLast(a: Codec, prefix: Prefix, ending: Ending, plain: Bytes, k: nat, s: Stream)
    requires Sound(a) && k < FrameCount(plain) <= COUNTERS && s.Last? && Shaped(s) && NoForgeryIn(a, prefix, plain, k, s)
    ensures Harmless(a, prefix, ending, k, s, From(plain, k))
  {
    if a.open(Nonce(a, prefix, k), s.sealed).Some? {
      OpensOnlyInPlace(a, prefix, plain, k, s.sealed);
      FrameSplits(plain, k);
      FrameOfRemainder(plain, k);
      assert s == ImageStream(a, prefix, k, From(plain, k), s.left);
    }
  }

  /** The stream after a chunk that opened at place k. */
  lemma ChunkMovesOn(a: Codec, prefix: Prefix, plain: Bytes, k: nat, s: Stream)
    requires Sound(a) && k < FrameCount(plain) <= COUNTERS && s.Chunk? && Shaped(s) && NoForgeryIn(a, prefix, plain, k, s)
    requires a.open(Nonce(a, prefix, k), s.sealed).Some?
    ensures k + 1 < FrameCount(plain) && NextCounter(k) == k + 1
    ensures s.sealed == SealedFrame(a, prefix, plain, k) && a.open(Nonce(a, prefix, k), s.sealed) == Some(Payload(plain, k))
    ensures Shaped(s.next) && NoForgeryIn(a, prefix, plain, k + 1, s.next)
  {
    OpensOnlyInPlace(a, prefix, plain, k, s.sealed);
    FrameSplits(plain, k);
    NextIsOneMore(k);
  }

  lemma HarmlessChunk(a: Codec, prefix: Prefix, ending: Ending, plain: Bytes, k: nat, s: Stream)
    requires k + 1 < FrameCount(plain) && NextCounter(k) == k + 1 && s.Chunk?
    requires s.sealed == SealedFrame(a, prefix, plain, k) && a.open(Nonce(a, prefix, k), s.sealed) == Some(Payload(plain, k))
    requires Harmless(a, prefix, ending, k + 1, s.next, From(plain, k + 1))
    ensures Harmless(a, prefix, ending, k, s, From(plain, k))
  {
    FrameSplits(plain, k);
    FrameOfRemainder(plain, k);
    var later := Play(a, prefix, ending, k + 1, s.next);
    PrefixAfter(Payload(plain, k), later.out, From(plain, k + 1));
    if later.error == None {
      var left :| s.next == ImageStream(a, prefix, k + 1, From(plain, k + 1), left) && Ends(ending, left);
      assert s == ImageStream(a, prefix, k, From(plain, k), left);
    }
  }

  lemma {:induction false} TamperedStreamIsHarmless(a: Codec, prefix: Prefix, ending: Ending, plain: Bytes, k: nat, s: Stream)
    requires Sound(a) && k < FrameCount(plain) <= COUNTERS && Shaped(s) && NoForgeryIn(a, prefix, plain, k, s)
    ensures Harmless(a, prefix, ending, k, s, From(plain, k))
    decreases s
  {
    if s.Last? {
      HarmlessLast(a, prefix, ending, plain, k, s);
    } else if s.Chunk? && a.open(Nonce(a, prefix, k), s.sealed).Some? {
      ChunkMovesOn(a, prefix, plain, k, s);
      TamperedStreamIsHarmless(a, prefix, ending, plain, k + 1, s.next);
      HarmlessChunk(a, prefix, ending, plain, k, s);
    }
  }

  /** The bytes of a stream without a fault. */
  function Written(a: Codec, s: Stream): Bytes
    requires Shaped(s)
  {
    match s
    case Fault(_) => []
    case Chunk(sealed, next) => a.word(|sealed| - TAG) + sealed + Written(a, next)
    case Last(sealed, left) => a.word(|sealed| - TAG) + sealed + left
  }

  predicate Faulty(s: Stream) {
    s.Fault? || (s.Chunk? && Faulty(s.next))
  }

  /** Taking bytes apart loses nothing. */
  lemma {:induction false} ParsedIsWritten(a: Codec, raw: Bytes)
    requires Sound(a) && !Faulty(Parse(raw))
    ensures Shaped(Parse(raw)) && Written(a, Parse(raw)) == raw
    decreases |raw|
  {
    var front := FrontOf(raw);
    ParsedIsShaped(raw);
    OfferedFrame(a, raw);
    if front.size != 0 {
      ParsedIsWritten(a, front.rest);
    }
  }

  lemma {:induction false} ImageStreamIsTail(a: Codec, prefix: Prefix, counter: nat, plain: Bytes, left: Bytes)
    requires Sound(a)
    ensures var s := ImageStream(a, prefix, counter, plain, left);
      !Faulty(s) && Shaped(s) && Written(a, s) == Tail(a, prefix, counter, plain) + left
    decreases |plain|
  {
    if plain != [] {
      var next := NextCounter(counter);
      ImageStreamIsTail(a, prefix, next, Rest(plain), left);
      var frame, others := Frame(a, prefix, counter, Head(plain)), Tail(a, prefix, next, Rest(plain));
      assert frame + (others + left) == frame + others + left;
    }
  }

  lemma StreamOfImage(a: Codec, prefix: Prefix, counter: nat, plain: Bytes, raw: Bytes, left: Bytes)
    requires Sound(a) && Parse(raw) == ImageStream(a, prefix, counter, plain, left)
    ensures raw == Tail(a, prefix, counter, plain) + left
  {
    ImageStreamIsTail(a, prefix, counter, plain, left);
    ParsedIsWritten(a, raw);
  }

  /** The bytes are those of the image, and the raw stream's end is met right behind them. */
  predicate CleanImage(ending: Ending, raw: Bytes, image: Bytes) {
    image <= raw && Ends(ending, raw[|image|..])
  }

  /** That is the image itself, or one byte more that comes together with the end. */
  lemma CleanImageIs(ending: Ending, raw: Bytes, image: Bytes)
    ensures CleanImage(ending, raw, image) <==>
      || (raw == image && !ending.InError?)
      || (ending.WithLastByte? && |raw| == |image| + 1 && image <= raw)
  {
    if image <= raw {
      assert raw == image + raw[|image|..];
    }
  }

  lemma CleanEndMeansImage(a: Codec, prefix: Prefix, ending: Ending, counter: nat, plain: Bytes, raw: Bytes)
    requires Sound(a) && Harmless(a, prefix, ending, counter, Parse(raw), plain)
    requires Deliver(a, prefix, ending, counter, raw).error == None
    ensures CleanImage(ending, raw, Tail(a, prefix, counter, plain))
  {
    var left :| Parse(raw) == ImageStream(a, prefix, counter, plain, left) && Ends(ending, left);
    var tail := Tail(a, prefix, counter, plain);
    StreamOfImage(a, prefix, counter, plain, raw, left);
    assert (tail + left)[|tail|..] == left;
  }

  lemma ImageEndsCleanly(a: Codec, prefix: Prefix, ending: Ending, counter: nat, plain: Bytes, raw: Bytes)
    requires Sound(a) && CleanImage(ending, raw, Tail(a, prefix, counter, plain))
    ensures Deliver(a, prefix, ending, counter, raw) == Delivery(plain, None)
  {
    var tail := Tail(a, prefix, counter, plain);
    assert raw == tail + raw[|tail|..];
    TailDeliversPlaintext(a, prefix, ending, counter, plain, raw[|tail|..]);
  }

  /**
   Whatever bytes a tamperer puts in place of the frames, unless it forges a chunk
   the reader delivers only a prefix of the plaintext up to its first error. It
   reaches its clean end exactly on the frames that Put wrote when the raw stream
   ends right behind them, be it with one byte more that comes with the end.
   */
  lemma TamperedStreamDeliversPrefix(a: Codec, prefix: Prefix, ending: Ending, plain: Bytes, k: nat, raw: Bytes)
    requires Sound(a) && FrameCount(plain) <= COUNTERS && k < FrameCount(plain)
    requires NoForgery(a, prefix, plain, k, raw)
    ensures var all := Deliver(a, prefix, ending, k, raw);
      && all.out <= From(plain, k) && (all.error == None ==> all.out == From(plain, k))
      && (all.error == None <==> CleanImage(ending, raw, Tail(a, prefix, k, From(plain, k))))
  {
    ParsedIsShaped(raw);
    TamperedStreamIsHarmless(a, prefix, ending, plain, k, Parse(raw));
    if Deliver(a, prefix, ending, k, raw).error == None {
      CleanEndMeansImage(a, prefix, ending, k, From(plain, k), raw);
    }
    if CleanImage(ending, raw, Tail(a, prefix, k, From(plain, k))) {
      ImageEndsCleanly(a, prefix, ending, k, From(plain, k), raw);
    }
  }

  /**
   The same for a reader of the object, with any buffer sizes, up to its first
   error: `done` exactly on a clean image, and then there is nothing after the
   frames unless one byte came together with the end.
   */
  lemma TamperingIsHarmless(a: Codec, prefix: Prefix, ending: Ending, plain: Bytes, raw: Bytes, sizes: seq<nat>)
    requires Sound(a) && FrameCount(plain) <= COUNTERS && NoForgery(a, prefix, plain, 0, raw)
    ensures var result, tail := Drain(a, prefix, Start(ending, 0, raw), sizes), Tail(a, prefix, 0, plain);
      && result.out <= plain
      && (result.reader.done ==> result.out == plain && CleanImage(ending, raw, tail))
      && (result.reader.done ==> (raw == tail <==> !(ending.WithLastByte? && |raw| == |tail| + 1)))
      && (Positive(sizes) && |sizes| > |plain| ==> (result.reader.done <==> CleanImage(ending, raw, tail)))
  {
    var tail := Tail(a, prefix, 0, plain);
    AnyBufferSizesDeliver(a, prefix, Start(ending, 0, raw), sizes);
    TamperedStreamDeliversPrefix(a, prefix, ending, plain, 0, raw);
    assert Ahead(a, prefix, Start(ending, 0, raw)) == Deliver(a, prefix, ending, 0, raw);
    CleanImageIs(ending, raw, tail);
  }

  /** One byte behind the last frame goes unnoticed when it comes together with the end, and is refused otherwise. */
  lemma ExtraByte(a: Codec, prefix: Prefix, ending: Ending, plain: Bytes, x: byte, sizes: seq<nat>)
    requires Sound(a) && Positive(sizes) && |sizes| > |plain|
    ensures var raw := Tail(a, prefix, 0, plain) + [x];
      var result := Drain(a, prefix, Start(ending, 0, raw), sizes);
      && raw != Tail(a, prefix, 0, plain) && result.out == plain
      && (result.reader.done <==> ending.WithLastByte?)
      && result.error == Some(if ending.WithLastByte? then Eof else TrailingData)
  {
    var raw := Tail(a, prefix, 0, plain) + [x];
    TailDeliversPlaintext(a, prefix, ending, 0, plain, [x]);
    AnyBufferSizesDeliver(a, prefix, Start(ending, 0, raw), sizes);
    assert Ahead(a, prefix, Start(ending, 0, raw)) == Deliver(a, prefix, ending, 0, raw);
  }

  /** Frames of the image in any order, any of them left out or repeated. */
  function Shuffled(a: Codec, prefix: Prefix, plain: Bytes, picks: seq<nat>): Bytes {
    if picks == [] then [] else Frame(a, prefix, picks[0], Payload(plain, picks[0])) + Shuffled(a, prefix, plain, picks[1..])
  }

  lemma {:induction false} PayloadFits(plain: Bytes, k: nat)
    ensures |Payload(plain, k)| <= CHUNK
    decreases k
  {
    if k > 0 {
      PayloadFits(Rest(plain), k - 1);
    }
  }

  /** What is at the front of a cut of a shuffled image: its first frame, if that is all there. */
  lemma FirstFrame(a: Codec, prefix: Prefix, plain: Bytes, picks: seq<nat>, cut: nat)
    requires Sound(a) && picks != [] && cut <= |Shuffled(a, prefix, plain, picks)|
    ensures var front, sealed := FrontOf(Shuffled(a, prefix, plain, picks)[..cut]), SealedFrame(a, prefix, plain, picks[0]);
      var others := Shuffled(a, prefix, plain, picks[1..]);
      if cut < 4 + |sealed| then front.Broken? && front.rest == []
      else cut - 4 - |sealed| <= |others| && front == Offer(|Payload(plain, picks[0])|, sealed, others[..cut - 4 - |sealed|])
  {
    PayloadFits(plain, picks[0]);
    FrontOfCut(a, |Payload(plain, picks[0])|, SealedFrame(a, prefix, plain, picks[0]), Shuffled(a, prefix, plain, picks[1..]), cut);
  }

  /** The stream of a cut of a shuffled image has its first frame first, if that is all there. */
  lemma FirstChunk(a: Codec, prefix: Prefix, plain: Bytes, picks: seq<nat>, cut: nat)
    requires Sound(a) && picks != [] && cut <= |Shuffled(a, prefix, plain, picks)|
    ensures var s, sealed := Parse(Shuffled(a, prefix, plain, picks)[..cut]), SealedFrame(a, prefix, plain, picks[0]);
      var others := Shuffled(a, prefix, plain, picks[1..]);
      || s.Fault?
      || (s.Last? && s.sealed == sealed)
      || (4 + |sealed| <= cut && cut - 4 - |sealed| <= |others| && s == Chunk(sealed, Parse(others[..cut - 4 - |sealed|])))
  {
    FirstFrame(a, prefix, plain, picks, cut);
  }

  lemma {:induction false} ShufflingForgesNothing(a: Codec, prefix: Prefix, plain: Bytes, picks: seq<nat>, cut: nat, counter: nat)
    requires Sound(a) && forall i :: 0 <= i < |picks| ==> picks[i] < FrameCount(plain)
    requires cut <= |Shuffled(a, prefix, plain, picks)|
    ensures NoForgery(a, prefix, plain, counter, Shuffled(a, prefix, plain, picks)[..cut])
    decreases |picks|
  {
    if picks != [] {
      var s := Parse(Shuffled(a, prefix, plain, picks)[..cut]);
      FirstChunk(a, prefix, plain, picks, cut);
      if s.Chunk? {
        ShufflingForgesNothing(a, prefix, plain, picks[1..], cut - 4 - |s.sealed|, NextCounter(counter));
      }
    }
  }

  /** A cut, repetition or reordering of the frames delivers a prefix, and ends cleanly exactly when it is the whole image. */
  lemma ShuffledImageDeliversPrefix(a: Codec, prefix: Prefix, ending: Ending, plain: Bytes, picks: seq<nat>, cut: nat, sizes: seq<nat>)
    requires Sound(a) && FrameCount(plain) <= COUNTERS
    requires forall i :: 0 <= i < |picks| ==> picks[i] < FrameCount(plain)
    requires cut <= |Shuffled(a, prefix, plain, picks)|
    ensures var raw, tail := Shuffled(a, prefix, plain, picks)[..cut], Tail(a, prefix, 0, plain);
      var result := Drain(a, prefix, Start(ending, 0, raw), sizes);
      && result.out <= plain
      && (result.reader.done ==> result.out == plain && CleanImage(ending, raw, tail))
      && (Positive(sizes) && |sizes| > |plain| ==> (result.reader.done <==> CleanImage(ending, raw, tail)))
  {
    ShufflingForgesNothing(a, prefix, plain, picks, cut, 0);
    TamperingIsHarmless(a, prefix, ending, plain, Shuffled(a, prefix, plain, picks)[..cut], sizes);
  }
}
