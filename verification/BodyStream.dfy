/** Request and response bodies: the readable stream (pkg/filters/goja/stream.go), the limited
    reader (fetch.go) and the consumers of a body (body.go, request.go). */
module BodyStream {
  import opened Wrappers

  type Byte = bv8

  // ---------------------------------------------------------------- what a reader may answer

  datatype Tail = More | Eof | Broken

  /** What Read returns: the bytes and whether an error came with them. */
  datatype Reply = Reply(chunk: seq<Byte>, tail: Tail)

  /** io.Reader: the next bytes, at most size of them; EOF with or after the last ones. */
  predicate Legal(body: seq<Byte>, pos: nat, size: nat, r: Reply) {
    && |r.chunk| <= size
    && pos + |r.chunk| <= |body|
    && r.chunk == body[pos..pos + |r.chunk|]
    && (r.tail.Eof? ==> pos + |r.chunk| == |body|)
  }

  /** A limit of zero or less is none. */
  predicate Fits(limit: int, n: nat) {
    limit > 0 ==> n <= limit
  }

  /** The reply takes the count over the limit, with `read` bytes counted before. */
  predicate Exceeds(limit: int, read: nat, r: Reply) {
    r.chunk != [] && !Fits(limit, read + |r.chunk|)
  }

  /** limitedReadCloser.Read over a reader's reply. */
  function Limited(limit: int, read: nat, r: Reply): Reply {
    if Exceeds(limit, read, r) then r.(tail := Broken) else r
  }

  // ---------------------------------------------------------------- the stream's critical sections

  /** The fields of readableStreamState; `closes` counts the calls of reader.Close. */
  datatype Stream = Stream(hasReader: bool, started: bool, closed: bool, eof: bool, reading: bool, closes: nat)

  const FRESH := Stream(false, false, false, false, false, 0)

  datatype Opening = Opens | PreOpenFails | OpenFails

  datatype Entry = Proceed | AlreadyDone | Refused

  datatype ReadResult = Chunk(value: seq<Byte>) | Done | Failed

  /** read up to the point where it leaves the lock. */
  function Begin(s: Stream, opening: Opening): (Entry, Stream) {
    if s.eof then (AlreadyDone, s)
    else if s.closed || s.reading then (Refused, s)
    else if s.started || opening.Opens? then
      (Proceed, s.(started := true, hasReader := s.hasReader || !s.started, reading := true))
    else if opening.PreOpenFails? then (Refused, s)
    else (Refused, s.(closed := true))
  }

  /** closeReaderLocked. */
  function DropReader(s: Stream): Stream {
    if s.hasReader then s.(hasReader := false, closes := s.closes + 1) else s
  }

  /** read from where it takes the lock again. */
  function End(s: Stream, r: Reply, closeFails: bool): (ReadResult, Stream) {
    var t := s.(reading := false);
    match r.tail
    case Eof =>
      (if s.hasReader && closeFails then Failed else if r.chunk == [] then Done else Chunk(r.chunk),
       DropReader(t.(eof := true)))
    case Broken => (Failed, DropReader(t.(closed := true)))
    case More => (Chunk(r.chunk), t)
  }

  /** close. */
  function Shut(s: Stream): Stream {
    if s.closed then s else DropReader(s.(closed := true))
  }

  // ---------------------------------------------------------------- all runs of one stream

  /** A stream over a limited reader over a body.  `delivered` is what the reads have returned so
      far, `lost` records that a read withheld its chunk. */
  datatype State = State(
    stream: Stream, limit: int, body: seq<Byte>, pos: nat, delivered: seq<Byte>, limiterCloses: nat, lost: bool)

  function Init(limit: int, body: seq<Byte>): State {
    State(FRESH, limit, body, 0, [], 0, false)
  }

  /** `size` is the size of the read buffer; a read may be closed between its two sections. */
  datatype Action = BeginRead(opening: Opening) | EndRead(size: nat, reply: Reply, closeFails: bool) | CloseStream

  predicate Enabled(s: State, a: Action) {
    a.EndRead? ==> s.stream.reading && Legal(s.body, s.pos, a.size, a.reply)
  }

  /** A read that meets the end together with bytes while closing the reader fails.  A reader
      that someone else has closed meanwhile is not closed again. */
  predicate Withholds(s: State, a: Action) {
    && a.EndRead? && a.closeFails && s.stream.hasReader
    && a.reply.tail.Eof? && a.reply.chunk != [] && !Exceeds(s.limit, s.pos, a.reply)
  }

  function Returned(r: ReadResult): seq<Byte> {
    if r.Chunk? then r.value else []
  }

  function Apply(s: State, a: Action): State
    requires Enabled(s, a)
  {
    match a
    case BeginRead(opening) => s.(stream := Begin(s.stream, opening).1)
    case CloseStream => s.(stream := Shut(s.stream))
    case EndRead(_, reply, closeFails) =>
      var limited := Limited(s.limit, s.pos, reply);
      var (result, stream) := End(s.stream, limited, closeFails);
      s.(stream := stream,
         pos := s.pos + |reply.chunk|,
         delivered := s.delivered + Returned(result),
         limiterCloses := s.limiterCloses + if Exceeds(s.limit, s.pos, reply) then 1 else 0,
         lost := s.lost || Withholds(s, a))
  }

  ghost predicate IsRun(limit: int, body: seq<Byte>, states: seq<State>, actions: seq<Action>) {
    && |states| == |actions| + 1
    && states[0] == Init(limit, body)
    && forall i :: 0 <= i < |actions| ==>
         Enabled(states[i], actions[i]) && states[i + 1] == Apply(states[i], actions[i])
  }

  /** The reader is there exactly between opening and the end, and is closed at the end. */
  predicate Tidy(s: Stream) {
    && (s.hasReader <==> s.started && !s.closed && !s.eof)
    && s.closes == (if s.started && (s.closed || s.eof) then 1 else 0)
    && (s.reading ==> s.started && !s.eof)
    && (s.eof ==> s.started)
  }

  /** A read may still deliver something. */
  predicate Alive(s: Stream) {
    s.reading || (!s.closed && !s.eof)
  }

  predicate Bytes(s: State) {
    && s.pos <= |s.body|
    && s.delivered <= s.body
    && Fits(s.limit, |s.delivered|)
    && (Alive(s.stream) ==> s.delivered == s.body[..s.pos] && s.limiterCloses == 0 && !s.lost)
    && (s.stream.eof ==>
          s.limiterCloses == 0 && s.pos == |s.body| && Fits(s.limit, |s.body|) && (s.lost || s.delivered == s.body))
    && (s.lost ==> |s.delivered| < |s.body|)
    && s.limiterCloses <= 1
  }

  predicate Inv(s: State) {
    Tidy(s.stream) && Bytes(s)
  }

  lemma TidyStep(s: State, a: Action)
    requires Tidy(s.stream) && Enabled(s, a)
    ensures Tidy(Apply(s, a).stream)
  {}

  lemma BytesStep(s: State, a: Action)
    requires Inv(s) && Enabled(s, a)
    ensures Bytes(Apply(s, a))
  {
    if a.EndRead? {
      var k := |a.reply.chunk|;
      assert s.body[..s.pos] + s.body[s.pos..s.pos + k] == s.body[..s.pos + k];
    }
  }

  lemma {:induction false} RunKeepsInv(limit: int, body: seq<Byte>, states: seq<State>, actions: seq<Action>, i: nat)
    requires IsRun(limit, body, states, actions) && i < |states|
    ensures Inv(states[i]) && states[i].limit == limit && states[i].body == body
  {
    if i > 0 {
      RunKeepsInv(limit, body, states, actions, i - 1);
      TidyStep(states[i - 1], actions[i - 1]);
      BytesStep(states[i - 1], actions[i - 1]);
    }
  }

  /** For every chunking and every timing of close, what has been delivered is a prefix of the
      body, no longer than the limit. */
  lemma DeliveredIsPrefix(limit: int, body: seq<Byte>, states: seq<State>, actions: seq<Action>, i: nat)
    requires IsRun(limit, body, states, actions) && i < |states|
    ensures states[i].delivered <= body && Fits(limit, |states[i].delivered|)
  {
    RunKeepsInv(limit, body, states, actions, i);
  }

  lemma {:induction false} LostIff(limit: int, body: seq<Byte>, states: seq<State>, actions: seq<Action>, i: nat)
    requires IsRun(limit, body, states, actions) && i < |states|
    ensures states[i].lost <==> exists k :: 0 <= k < i && Withholds(states[k], actions[k])
  {
    if i > 0 {
      LostIff(limit, body, states, actions, i - 1);
    }
  }

  /** A stream at its end has delivered the whole body if and only if no read met the end
      together with bytes while closing the reader failed.  A body over the limit never gets
      to the end. */
  lemma EndMeansAll(limit: int, body: seq<Byte>, states: seq<State>, actions: seq<Action>, i: nat)
    requires IsRun(limit, body, states, actions) && i < |states| && states[i].stream.eof
    ensures Fits(limit, |body|)
    ensures states[i].delivered == body <==> !exists k :: 0 <= k < i && Withholds(states[k], actions[k])
  {
    RunKeepsInv(limit, body, states, actions, i);
    LostIff(limit, body, states, actions, i);
  }

  /** The failing run: one byte arrives together with EOF and closing the reader fails.  The
      stream is at its end, and the byte was never delivered. */
  lemma LastChunkWithheld(b: Byte) returns (states: seq<State>, actions: seq<Action>)
    ensures IsRun(0, [b], states, actions) && |actions| == 2
    ensures states[2].stream.eof && states[2].delivered == []
    ensures Begin(states[2].stream, Opens).0 == AlreadyDone
  {
    actions := [BeginRead(Opens), EndRead(1, Reply([b], Eof), true)];
    var s1 := Apply(Init(0, [b]), actions[0]);
    assert s1.stream == Stream(true, true, false, false, true, 0);
    states := [Init(0, [b]), s1, Apply(s1, actions[1])];
  }

  /** The stream closes the reader it opened exactly once, at its end; the body under the limit
      is closed at most once more, by the limiter. */
  lemma ReaderClosedOnce(limit: int, body: seq<Byte>, states: seq<State>, actions: seq<Action>, i: nat)
    requires IsRun(limit, body, states, actions) && i < |states|
    ensures var s := states[i];
            && s.stream.closes == (if s.stream.started && (s.stream.closed || s.stream.eof) then 1 else 0)
            && s.limiterCloses <= 1 && (s.limiterCloses == 1 ==> !s.stream.eof)
  {
    RunKeepsInv(limit, body, states, actions, i);
  }

  /** Closed, and no read is under way. */
  predicate AtRest(s: State) {
    s.stream.closed && !s.stream.reading
  }

  /** A close is for good, and once the read under way is over nothing more is delivered. */
  lemma {:induction false} ClosedDeliversNoMore(
      limit: int, body: seq<Byte>, states: seq<State>, actions: seq<Action>, i: nat, j: nat)
    requires IsRun(limit, body, states, actions) && i <= j < |states|
    ensures i < j && actions[i] == CloseStream ==> states[j].stream.closed
    ensures AtRest(states[i]) ==> AtRest(states[j]) && states[j].delivered == states[i].delivered
    decreases j
  {
    if i < j {
      ClosedDeliversNoMore(limit, body, states, actions, i, j - 1);
      assert Enabled(states[j - 1], actions[j - 1]) && states[j] == Apply(states[j - 1], actions[j - 1]);
    }
  }

  // ---------------------------------------------------------------- the objects

  /** A reader that makes progress: it may return any number of bytes, or none `stalls` times. */
  class ByteReader {
    const body: seq<Byte>
    const reliable: bool
    var pos: nat
    var stalls: nat

    constructor (body: seq<Byte>, reliable: bool, stalls: nat)
      ensures Valid() && this.body == body && this.reliable == reliable && pos == 0
    {
      this.body, this.reliable, this.stalls, pos := body, reliable, stalls, 0;
    }

    predicate Valid()
      reads this
    {
      pos <= |body|
    }

    function Left(): nat
      requires Valid()
      reads this
    {
      |body| - pos + stalls
    }

    method Read(size: nat) returns (r: Reply)
      requires Valid() && size > 0
      modifies this
      ensures Valid() && Legal(body, old(pos), size, r) && pos == old(pos) + |r.chunk|
      ensures reliable ==> !r.tail.Broken?
      ensures r.tail.More? ==> Left() < old(Left())
    {
      var n: nat :| n <= size && pos + n <= |body|;
      if n == 0 && stalls == 0 && pos < |body| {
        n := 1;
      }
      var chunk := body[pos..pos + n];
      pos := pos + n;
      var breaks: bool := *;
      var early: bool := *;
      if breaks && !reliable {
        return Reply(chunk, Broken);
      }
      if pos == |body| && (early || (n == 0 && stalls == 0)) {
        return Reply(chunk, Eof);
      }
      if n == 0 {
        stalls := stalls - 1;
      }
      r := Reply(chunk, More);
    }
  }

  /** limitedReadCloser with the counter of its byte-count closure; a limit of zero or less
      stands for the bare reader. */
  class LimitedReader {
    const inner: ByteReader
    const limit: int
    var read: nat

    constructor (inner: ByteReader, limit: int)
      requires inner.Valid() && inner.pos == 0
      ensures Valid() && this.inner == inner && this.limit == limit && read == 0
    {
      this.inner, this.limit, read := inner, limit, 0;
    }

    predicate Valid()
      reads this, inner
    {
      inner.Valid() && (limit > 0 ==> read == inner.pos)
    }

    method Read(size: nat) returns (r: Reply, ghost raw: Reply)
      requires Valid() && size > 0
      modifies this, inner
      ensures Valid() && Legal(inner.body, old(inner.pos), size, raw) && inner.pos == old(inner.pos) + |raw.chunk|
      ensures r == Limited(limit, old(inner.pos), raw) && r.chunk == raw.chunk
      ensures r.tail == if raw.chunk != [] && 0 < limit < inner.pos then Broken else raw.tail
      ensures inner.reliable ==> !raw.tail.Broken?
      ensures raw.tail.More? ==> inner.Left() < old(inner.Left())
    {
      r := inner.Read(size);
      raw := r;
      if |r.chunk| > 0 && limit > 0 {
        read := read + |r.chunk|;
        if read > limit {
          r := r.(tail := Broken);
        }
      }
    }
  }

  /** The body source of an incoming request or a fetched response: it opens once. */
  class BodySource {
    const reader: LimitedReader
    var used: bool

    constructor (reader: LimitedReader)
      ensures this.reader == reader && !used
    {
      this.reader, used := reader, false;
    }

    method Open() returns (ok: bool)
      modifies this
      ensures used && ok == !old(used)
    {
      ok := !used;
      used := true;
    }
  }

  function OpeningOf(preOpenFails: bool, used: bool): Opening {
    if preOpenFails then PreOpenFails else if used then OpenFails else Opens
  }

  const CHUNK_SIZE: nat := 32 * 1024

  /** readableStreamState over a body source, which other streams may share. */
  class ReadableStream {
    const body: BodySource
    const source: LimitedReader
    var reader: LimitedReader?
    var started: bool
    var closed: bool
    var eof: bool
    var reading: bool
    ghost var closes: nat

    constructor (body: BodySource)
      ensures View() == FRESH && this.body == body && source == body.reader && reader == null
    {
      this.body, this.source, reader, closes := body, body.reader, null, 0;
      started, closed, eof, reading := false, false, false, false;
    }

    ghost function View(): Stream
      reads this
    {
      Stream(reader != null, started, closed, eof, reading, closes)
    }

    ghost predicate Valid()
      reads this, source, source.inner
    {
      source == body.reader && source.Valid() && Tidy(View()) && (reader != null ==> reader == source)
    }

    method CloseReader()
      modifies this
      ensures View() == DropReader(old(View())) && (reader == null || reader == old(reader))
    {
      if reader != null {
        reader, closes := null, closes + 1;
      }
    }

    /** A stream that comes second to its source is closed and never reads. */
    method BeginRead(preOpenFails: bool) returns (entry: Entry)
      requires Valid()
      modifies this, body
      ensures Valid() && (entry, View()) == Begin(old(View()), OpeningOf(preOpenFails, old(body.used)))
      ensures body.used == (old(body.used) || (started && !old(started)))
      ensures var before := old(View());
              if before.eof then entry == AlreadyDone && View() == before
              else if before.closed || before.reading then entry == Refused && View() == before
              else if before.started then entry == Proceed && View() == before.(reading := true)
              else if preOpenFails then entry == Refused && View() == before
              else if old(body.used) then entry == Refused && View() == before.(closed := true)
              else entry == Proceed && started && reading && reader == source && !closed
    {
      if eof {
        return AlreadyDone;
      }
      if closed || reading {
        return Refused;
      }
      if !started {
        if preOpenFails {
          return Refused;
        }
        var ok := body.Open();
        if !ok {
          closed := true;
          return Refused;
        }
        reader, started := source, true;
      }
      reading := true;
      entry := Proceed;
    }

    method EndRead(r: Reply, closeFails: bool) returns (result: ReadResult)
      requires Valid()
      requires reading
      modifies this
      ensures Valid() && (result, View()) == End(old(View()), r, closeFails)
      ensures !reading && started == old(started) && eof == (old(eof) || r.tail.Eof?)
      ensures closed == (old(closed) || r.tail.Broken?)
      ensures reader == (if r.tail.More? then old(reader) else null)
      ensures closes == old(closes) + if old(reader) != null && !r.tail.More? then 1 else 0
      ensures result == if r.tail.Broken? || (r.tail.Eof? && closeFails && old(reader) != null) then Failed
                        else if r.tail.Eof? && r.chunk == [] then Done else Chunk(r.chunk)
    {
      reading := false;
      if r.tail.Eof? {
        var failed := closeFails && reader != null;
        eof := true;
        CloseReader();
        return if failed then Failed else if r.chunk == [] then Done else Chunk(r.chunk);
      }
      if r.tail.Broken? {
        closed := true;
        CloseReader();
        return Failed;
      }
      result := Chunk(r.chunk);
    }

    method Close()
      requires Valid()
      modifies this
      ensures Valid() && View() == Shut(old(View()))
      ensures closed && started == old(started) && eof == old(eof) && reading == old(reading)
      ensures reader == (if old(closed) then old(reader) else null)
      ensures closes == old(closes) + if old(reader) != null && !old(closed) then 1 else 0
    {
      if !closed {
        closed := true;
        CloseReader();
      }
    }

    /** read.  `race` is a close by someone else while the lock is not held. */
    method Read(size: nat, preOpenFails: bool, race: bool, closeFails: bool)
      returns (result: ReadResult, ghost raw: Option<Reply>)
      requires Valid() && size > 0
      modifies this, body, source, source.inner
      ensures Valid()
      ensures var (entry, begun) := Begin(old(View()), OpeningOf(preOpenFails, old(body.used)));
              if entry == Proceed then
                && raw.Some? && Legal(source.inner.body, old(source.inner.pos), size, raw.value)
                && source.inner.pos == old(source.inner.pos) + |raw.value.chunk|
                && (source.inner.reliable ==> !raw.value.tail.Broken?)
                && (raw.value.tail.More? ==> source.inner.Left() < old(source.inner.Left()))
                && (result, View()) == End(if race then Shut(begun) else begun,
                                           Limited(source.limit, old(source.inner.pos), raw.value), closeFails)
              else
                && raw == None && source.inner.pos == old(source.inner.pos) && View() == begun
                && result == if entry == AlreadyDone then Done else Failed
    {
      raw := None;
      var entry := BeginRead(preOpenFails);
      if entry == AlreadyDone {
        return Done, None;
      }
      if entry == Refused {
        return Failed, None;
      }
      var reply, was := source.Read(size);
      raw := Some(was);
      if race {
        Close();
      }
      result := EndRead(reply, closeFails);
    }
  }

  const LIVE := Stream(true, true, false, false, false, 0)
  const ENDED := Stream(false, true, false, true, false, 1)
  const BROKEN := Stream(false, true, true, false, false, 1)

  /** One undisturbed read of a stream that has not ended. */
  lemma ReadOutcome(s: Stream, r: Reply, closeFails: bool)
    requires s == FRESH || s == LIVE
    ensures var (entry, begun) := Begin(s, Opens);
            entry == Proceed && End(begun, r, closeFails) == match r.tail
              case More => (Chunk(r.chunk), LIVE)
              case Broken => (Failed, BROKEN)
              case Eof => (if closeFails then Failed else if r.chunk == [] then Done else Chunk(r.chunk), ENDED)
  {
  }

  /** One round of a consumer that has `collected` the first `before` bytes. */
  ghost predicate RoundDone(
      body: seq<Byte>, limit: int, pos: nat, closeFails: bool, broken: bool, collected: seq<Byte>,
      result: ReadResult, after: Stream)
    requires pos <= |body|
  {
    match result
    case Chunk(value) =>
      && collected + value == body[..pos] && Fits(limit, pos)
      && (after == LIVE || (after == ENDED && pos == |body| && !closeFails))
    case Done => collected == body && Fits(limit, |body|) && after == ENDED && !closeFails
    case Failed => after.closes == 1 && (broken || closeFails || !Fits(limit, |body|))
  }

  lemma ConsumeRound(
      body: seq<Byte>, limit: int, before: nat, view: Stream, raw: Reply, closeFails: bool, collected: seq<Byte>)
    requires view == FRESH || view == LIVE
    requires Legal(body, before, CHUNK_SIZE, raw) && collected == body[..before] && Fits(limit, before)
    ensures var (result, after) := End(Begin(view, Opens).1, Limited(limit, before, raw), closeFails);
            RoundDone(body, limit, before + |raw.chunk|, closeFails, raw.tail.Broken?, collected, result, after)
            && (after == LIVE ==> raw.tail.More?)
  {
    ReadOutcome(view, Limited(limit, before, raw), closeFails);
    assert body[..before] + body[before..before + |raw.chunk|] == body[..before + |raw.chunk|];
  }

  /** webBodyState: a stream that is reached only by whoever sets `used`. */
  class WebBody {
    const stream: ReadableStream
    var used: bool

    constructor (stream: ReadableStream)
      requires stream.Valid() && stream.View() == FRESH && !stream.body.used && stream.source.inner.pos == 0
      ensures Valid() && this.stream == stream && !used
    {
      this.stream, used := stream, false;
    }

    ghost predicate Valid()
      reads this, stream, stream.body, stream.source, stream.source.inner
    {
      stream.Valid() && (!used ==> stream.View() == FRESH && !stream.body.used && stream.source.inner.pos == 0)
    }

    /** claimWebBody. */
    method Claim() returns (ok: bool)
      modifies this
      ensures used && ok == !old(used)
    {
      ok := !used;
      used := true;
    }

    /** consumeWebBody, for every way the reader may cut the body into chunks: the whole body and
        nothing else, or an error; without read errors, the body exactly if it fits and the reader
        closes well. */
    method Consume(closeFails: bool) returns (data: Option<seq<Byte>>)
      requires Valid()
      modifies this, stream, stream.body, stream.source, stream.source.inner
      ensures Valid() && used
      ensures old(used) ==> data == None && stream.View() == old(stream.View())
      ensures data.Some? ==> data.value == stream.source.inner.body && Fits(stream.source.limit, |data.value|)
      ensures !old(used) && stream.source.inner.reliable ==>
                (data.Some? <==> !closeFails && Fits(stream.source.limit, |stream.source.inner.body|))
      ensures !old(used) ==> stream.View().closes == 1
    {
      var ok := Claim();
      if !ok {
        return None;
      }
      var collected: seq<Byte> := [];
      var inner := stream.source.inner;
      while true
        invariant stream.Valid() && used
        invariant stream.View() == LIVE || (stream.View() == FRESH && inner.pos == 0 && !stream.body.used)
                  || (stream.View() == ENDED && inner.pos == |inner.body| && !closeFails)
        invariant collected == inner.body[..inner.pos] && Fits(stream.source.limit, inner.pos)
        decreases !stream.eof, inner.Left()
      {
        ghost var before, view := inner.pos, stream.View();
        var result, raw := stream.Read(CHUNK_SIZE, false, false, closeFails);
        if view != ENDED {
          ConsumeRound(inner.body, stream.source.limit, before, view, raw.value, closeFails, collected);
        }
        match result {
          case Failed => return None;
          case Done => return Some(collected);
          case Chunk(value) =>
            collected := collected + value;
        }
      }
    }
  }
}
