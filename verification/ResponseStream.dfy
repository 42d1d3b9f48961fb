/** A streamed response (pkg/filters/goja/response_stream.go).

    Chunks written before the response starts are buffered; afterwards every write, flush
    and close meets the serving goroutine on an unbuffered queue and waits for its answer. */
module ResponseStream {

  newtype byte = x: int | 0 <= x < 256

  type Bytes = seq<byte>

  function Flatten(chunks: seq<Bytes>): Bytes {
    if chunks == [] then [] else Flatten(chunks[..|chunks| - 1]) + chunks[|chunks| - 1]
  }

  lemma FlattenNext(chunks: seq<Bytes>, i: nat)
    requires i < |chunks|
    ensures Flatten(chunks[..i + 1]) == Flatten(chunks[..i]) + chunks[i]
  {
    assert chunks[..i + 1][..i] == chunks[..i];
  }

  /** A chunk cut short still leaves a prefix of the whole. */
  lemma {:induction false} CutIsPrefix(chunks: seq<Bytes>, i: nat, n: nat)
    requires i < |chunks| && n <= |chunks[i]|
    ensures Flatten(chunks[..i]) + chunks[i][..n] <= Flatten(chunks)
    decreases |chunks|
  {
    var most := chunks[..|chunks| - 1];
    if i < |most| {
      CutIsPrefix(most, i, n);
      assert most[..i] == chunks[..i];
    }
  }

  // ---------------------------------------------------------------- locked sections

  /** The fields the mutex guards. */
  datatype Guarded = Guarded(started: bool, closed: bool, pending: seq<Bytes>)

  datatype Kind = Write | Flush | Close

  /** What a call learns from its locked section: settled at once, or off to the queue. */
  datatype Verdict = Accepted | StreamIsClosed | Unavailable | Offer

  function Section(g: Guarded, kind: Kind, data: Bytes, written: bool): (Guarded, Verdict) {
    match kind
    case Write =>
      if g.closed then (g, StreamIsClosed)
      else if g.started then (g, Offer)
      else if written then (g, Unavailable)
      else (g.(pending := g.pending + [data]), Accepted)
    case Flush =>
      if g.closed then (g, StreamIsClosed)
      else if g.started then (g, Offer)
      else if written then (g, Unavailable)
      else (g, Accepted)
    case Close =>
      if g.closed then (g, Accepted)
      else (g.(closed := true), if g.started then Offer else Accepted)
  }

  /** The response writer of the server: a write may stop short with an error. */
  class ResponseWriter {
    var out: Bytes

    constructor ()
      ensures out == []
    {
      out := [];
    }

    method Write(data: Bytes) returns (ok: bool)
      modifies this
      ensures ok ==> out == old(out) + data
      ensures !ok ==> exists n :: 0 <= n <= |data| && out == old(out) + data[..n]
    {
      var n :| 0 <= n <= |data|;
      ok := n == |data|;
      out := out + data[..n];
      assert data[..|data|] == data;
    }
  }

  class ResponseStreamState {
    var started: bool
    var closed: bool
    var pending: seq<Bytes>

    constructor ()
      ensures View() == Guarded(false, false, [])
    {
      started, closed, pending := false, false, [];
    }

    function View(): Guarded
      reads this
    {
      Guarded(started, closed, pending)
    }

    method Write(data: Bytes, written: bool) returns (v: Verdict)
      modifies this
      ensures (View(), v) == Section(old(View()), Kind.Write, data, written)
      ensures v == if closed then StreamIsClosed else if started then Offer
                   else if written then Unavailable else Accepted
      ensures pending == if v == Accepted then old(pending) + [data] else old(pending)
      ensures started == old(started) && closed == old(closed)
    {
      if closed {
        return StreamIsClosed;
      }
      if !started {
        if written {
          return Unavailable;
        }
        pending := pending + [data];
        return Accepted;
      }
      return Offer;
    }

    method Flush(written: bool) returns (v: Verdict)
      ensures (View(), v) == Section(View(), Kind.Flush, [], written)
      ensures v == if closed then StreamIsClosed else if started then Offer
                   else if written then Unavailable else Accepted
    {
      if closed {
        return StreamIsClosed;
      }
      if !started {
        return if written then Unavailable else Accepted;
      }
      return Offer;
    }

    method Close() returns (v: Verdict)
      modifies this
      ensures forall written :: (View(), v) == Section(old(View()), Kind.Close, [], written)
      ensures v == (if started && !old(closed) then Offer else Accepted) && closed
      ensures started == old(started) && pending == old(pending)
    {
      if closed {
        return Accepted;
      }
      closed := true;
      return if started then Offer else Accepted;
    }

    /** The opening of serve: take the buffered chunks and send them in order.  On an error
        the output ends inside some chunk, after all the earlier ones. */
    method ServePending(writer: ResponseWriter) returns (ok: bool)
      requires !started && writer.out == []
      modifies this, writer
      ensures View() == Guarded(true, old(closed), [])
      ensures writer.out <= Flatten(old(pending))
      ensures ok ==> writer.out == Flatten(old(pending))
    {
      started := true;
      var chunks := pending;
      pending := [];
      for i := 0 to |chunks|
        invariant writer.out == Flatten(chunks[..i])
        invariant View() == Guarded(true, old(closed), [])
      {
        FlattenNext(chunks, i);
        if |chunks[i]| > 0 {
          ok := writer.Write(chunks[i]);
          if !ok {
            var n :| 0 <= n <= |chunks[i]| && writer.out == Flatten(chunks[..i]) + chunks[i][..n];
            CutIsPrefix(chunks, i, n);
            return;
          }
        }
      }
      assert chunks[..|chunks|] == chunks;
      ok := true;
    }

    /** One round of serve's loop: what is sent, what the caller is answered, and whether serve
        ends.  `flushes` tells whether the flush after it succeeds. */
    method HandleOp(writer: ResponseWriter, kind: Kind, data: Bytes, flushes: bool) returns (answer: bool, ends: bool)
      modifies writer
      ensures old(writer.out) <= writer.out <= old(writer.out) + if kind == Kind.Write then data else []
      ensures answer && kind == Kind.Write ==> writer.out == old(writer.out) + data
      ensures kind == Kind.Write ==> (answer ==> flushes) && (ends <==> !answer)
      ensures kind == Kind.Flush ==> answer == flushes && !ends
      ensures kind == Kind.Close ==> answer && ends
    {
      match kind
      case Write =>
        answer := writer.Write(data);
        answer := answer && flushes;
        ends := !answer;
      case Flush => answer, ends := flushes, false;
      case Close => answer, ends := true, true;
    }
  }

  // ---------------------------------------------------------------- interleavings

  /** A call of write, flush or close. */
  type Call = nat

  /** What was asked, and whether the locked section already settled it. */
  datatype Op = Op(kind: Kind, data: Bytes, direct: bool)

  const NO_OP := Op(Flush, [], true)

  datatype Return = Ok | Refused | NotAvailable | IoError | ContextDone | Ended

  datatype CallPc = Offering | Waiting | Returned(r: Return)

  /** The calls.  `order` lists the writes buffered before the start, the first `early` of
      them, and then the calls taken from the queue; `at` places each of the latter in it. */
  datatype Book = Book(
    ops: map<Call, Op>, pcs: map<Call, CallPc>, answers: map<Call, seq<bool>>,
    order: seq<Call>, early: nat, at: map<Call, nat>)
  {
    function Pc(c: Call): CallPc {
      if c in pcs then pcs[c] else Returned(NotAvailable)
    }

    function Asked(c: Call): Op {
      if c in ops then ops[c] else NO_OP
    }

    function Answers(c: Call): seq<bool> {
      if c in answers then answers[c] else []
    }

    function Enter(c: Call, op: Op, pc: CallPc, buffered: bool): Book {
      this.(ops := ops[c := op], pcs := pcs[c := pc],
            order := if buffered then order + [c] else order, early := if buffered then early + 1 else early)
    }

    function Move(c: Call, pc: CallPc): Book {
      this.(pcs := pcs[c := pc])
    }

    function Take(c: Call): Book {
      this.(order := order + [c], at := at[c := |order|], pcs := pcs[c := Waiting])
    }

    function Reply(c: Call, ok: bool): Book {
      this.(answers := answers[c := Answers(c) + [ok]])
    }
  }

  /** The connection: the data of the first `full` calls of the order has gone out, then
      `tail`, which is what a failed write sent of the next. */
  datatype Wire = Wire(headers: nat, out: Bytes, full: nat, tail: Bytes)

  /** Where serve stands; `chunks` is what it took out of the buffer when it started. */
  datatype ServerPc =
    | NotServing
    | Opening(chunks: seq<Bytes>)
    | Draining(chunks: seq<Bytes>, i: nat)
    | Looping
    | Handling(c: Call)
    | Stopped

  /** `shut` is the closed flag as serve saw it when it started. */
  datatype State = State(
    g: Guarded, server: ServerPc, shut: bool, written: bool, contextDone: bool, b: Book, wire: Wire)

  const INIT := State(Guarded(false, false, []), NotServing, false, false, false,
                      Book(map[], map[], map[], [], 0, map[]), Wire(0, [], 0, []))

  /** How an attempt to write a chunk ends: all of it and then a flush, or a part. */
  datatype Io = Full(flushed: bool) | Partial(n: nat)

  datatype Action =
    | Enter(c: Call, kind: Kind, data: Bytes)
    | Receive(c: Call)
    | GiveUp(c: Call)
    | OtherResponse
    | CancelContext
    | Serve
    | FlushHeader(ok: bool)
    | SendPending(io: Io)
    | Dequeue(c: Call)
    | Handle(io: Io)
    | ServerCancelled

  predicate Enabled(s: State, a: Action) {
    match a
    case Enter(c, _, _) => c !in s.b.ops
    case Receive(c) => s.b.Pc(c) == Waiting && s.b.Answers(c) != []
    case GiveUp(c) => (s.b.Pc(c) == Offering || s.b.Pc(c) == Waiting) && (s.contextDone || s.server == Stopped)
    case OtherResponse => !s.g.started
    case CancelContext => true
    case Serve => s.server == NotServing && !s.g.started && !s.written
    case FlushHeader(_) => s.server.Opening?
    case SendPending(_) => s.server.Draining? && s.server.i <= |s.server.chunks|
    case Dequeue(c) => s.server == Looping && s.b.Pc(c) == Offering
    case Handle(_) => s.server.Handling?
    case ServerCancelled => s.server == Looping && s.contextDone
  }

  function PcAfter(v: Verdict): CallPc {
    match v
    case Accepted => Returned(Ok)
    case StreamIsClosed => Returned(Refused)
    case Unavailable => Returned(NotAvailable)
    case Offer => Offering
  }

  function Entered(s: State, c: Call, kind: Kind, data: Bytes): State {
    var (g, v) := Section(s.g, kind, data, s.written);
    var op := Op(kind, if kind == Write then data else [], v != Offer);
    s.(g := g, b := s.b.Enter(c, op, PcAfter(v), kind == Write && v == Accepted))
  }

  /** A chunk goes out: wholly, and the flush after it may fail, or only in part. */
  function Sent(w: Wire, chunk: Bytes, io: Io): Wire {
    if io.Full? || io.n >= |chunk| then w.(out := w.out + chunk, full := w.full + 1)
    else w.(out := w.out + chunk[..io.n], tail := chunk[..io.n])
  }

  function Drained(s: State, io: Io): State
    requires Enabled(s, SendPending(io))
  {
    var Draining(chunks, i) := s.server;
    if i == |chunks| then s.(server := if s.shut then Stopped else Looping)
    else if chunks[i] == [] then s.(server := Draining(chunks, i + 1), wire := Sent(s.wire, [], Full(true)))
    else
      s.(wire := Sent(s.wire, chunks[i], io), server := if io == Full(true) then Draining(chunks, i + 1) else Stopped)
  }

  function Handled(s: State, io: Io): State
    requires Enabled(s, Handle(io))
  {
    var c := s.server.c;
    var op := s.b.Asked(c);
    var ok := io == Full(true);
    match op.kind
    case Write =>
      s.(wire := Sent(s.wire, op.data, io), b := s.b.Reply(c, ok), server := if ok then Looping else Stopped)
    case Flush => s.(wire := Sent(s.wire, [], Full(true)), b := s.b.Reply(c, ok), server := Looping)
    case Close => s.(wire := Sent(s.wire, [], Full(true)), b := s.b.Reply(c, true), server := Stopped)
  }

  function Apply(s: State, a: Action): State
    requires Enabled(s, a)
  {
    match a
    case Enter(c, kind, data) => Entered(s, c, kind, data)
    case Receive(c) => s.(b := s.b.Move(c, Returned(if s.b.Answers(c)[0] then Ok else IoError)))
    case GiveUp(c) => s.(b := s.b.Move(c, Returned(if s.contextDone then ContextDone else Ended)))
    case OtherResponse => s.(written := true)
    case CancelContext => s.(contextDone := true)
    case Serve =>
      s.(g := s.g.(started := true, pending := []), shut := s.g.closed, server := Opening(s.g.pending),
         wire := s.wire.(headers := s.wire.headers + 1))
    case FlushHeader(ok) => s.(server := if ok then Draining(s.server.chunks, 0) else Stopped)
    case SendPending(io) => Drained(s, io)
    case Dequeue(c) => s.(server := Handling(c), b := s.b.Take(c))
    case Handle(io) => Handled(s, io)
    case ServerCancelled => s.(server := Stopped)
  }

  ghost predicate IsRun(states: seq<State>, actions: seq<Action>) {
    && |states| == |actions| + 1
    && states[0] == INIT
    && forall i :: 0 <= i < |actions| ==>
         Enabled(states[i], actions[i]) && states[i + 1] == Apply(states[i], actions[i])
  }

  // ---------------------------------------------------------------- the calls

  /** Queued calls have one place in the order each; buffered writes were settled at once. */
  ghost predicate Filed(b: Book) {
    && b.early <= |b.order|
    && (forall k :: 0 <= k < b.early ==> b.order[k] in b.ops && b.ops[b.order[k]].direct)
    && (forall k :: b.early <= k < |b.order| ==> b.order[k] in b.at && b.at[b.order[k]] == k)
    && (forall c :: c in b.at ==> b.early <= b.at[c] < |b.order| && b.order[b.at[c]] == c)
  }

  ghost predicate Pcs(b: Book) {
    && b.ops.Keys == b.pcs.Keys
    && (forall c :: c in b.answers ==> c in b.at)
    && (forall c :: c in b.at ==>
          c in b.ops && !b.ops[c].direct && b.pcs[c] != Offering && b.pcs[c] != Returned(Refused))
    && (forall c :: c in b.ops && b.ops[c].direct ==> b.pcs[c].Returned?)
    && (forall c :: c in b.ops && b.pcs[c] == Returned(Refused) ==> b.ops[c].direct)
    && (forall c :: c in b.ops && b.ops[c].kind != Write ==> b.ops[c].data == [])
    && (forall c :: c in b.ops && !b.ops[c].direct && b.pcs[c] == Returned(Ok) ==> b.Answers(c) == [true])
  }

  /** Every queued call has one answer, except the one being handled. */
  ghost predicate Replies(b: Book, server: ServerPc) {
    forall c :: c in b.at ==> |b.Answers(c)| == if server == Handling(c) then 0 else 1
  }

  ghost predicate Calls(s: State) {
    && Filed(s.b) && Pcs(s.b) && Replies(s.b, s.server)
    && (!s.g.started ==> s.b.at == map[] && s.b.early == |s.b.order|)
    && (s.g.started <==> s.server != NotServing)
    && (s.server.Handling? ==> s.server.c in s.b.at && s.b.at[s.server.c] == |s.b.order| - 1)
  }

  lemma EnterKeepsFiled(b: Book, c: Call, op: Op, pc: CallPc, buffered: bool)
    requires Filed(b) && c !in b.ops && (buffered ==> b.early == |b.order| && op.direct)
    ensures Filed(b.Enter(c, op, pc, buffered))
  {
  }

  lemma EnterKeepsPcs(b: Book, c: Call, op: Op, pc: CallPc, buffered: bool)
    requires Pcs(b) && c !in b.ops && (op.direct <==> pc.Returned?) && (op.kind != Write ==> op.data == [])
    ensures Pcs(b.Enter(c, op, pc, buffered))
  {
    assert forall d :: b.Enter(c, op, pc, buffered).Answers(d) == b.Answers(d);
  }

  lemma EnterFiles(b: Book, c: Call, op: Op, pc: CallPc, buffered: bool)
    requires Filed(b) && Pcs(b) && c !in b.ops
    requires buffered ==> b.early == |b.order| && op.direct
    requires op.direct <==> pc.Returned?
    requires op.kind != Write ==> op.data == []
    ensures Filed(b.Enter(c, op, pc, buffered)) && Pcs(b.Enter(c, op, pc, buffered))
  {
    EnterKeepsFiled(b, c, op, pc, buffered);
    EnterKeepsPcs(b, c, op, pc, buffered);
  }

  lemma MoveKeepsPcs(b: Book, c: Call, pc: CallPc)
    requires Pcs(b) && (b.Pc(c) == Offering || b.Pc(c) == Waiting)
    requires pc.Returned? && pc.r != Refused && (pc.r == Ok ==> b.Answers(c) == [true])
    ensures Pcs(b.Move(c, pc))
  {
    assert forall d :: b.Move(c, pc).Answers(d) == b.Answers(d);
  }

  lemma MoveFiles(b: Book, c: Call, pc: CallPc)
    requires Filed(b) && Pcs(b) && (b.Pc(c) == Offering || b.Pc(c) == Waiting)
    requires pc.Returned? && pc.r != Refused && (pc.r == Ok ==> b.Answers(c) == [true])
    ensures Filed(b.Move(c, pc)) && Pcs(b.Move(c, pc))
  {
    MoveKeepsPcs(b, c, pc);
  }

  lemma TakeKeepsFiled(b: Book, c: Call)
    requires Filed(b) && c !in b.at
    ensures Filed(b.Take(c))
  {
  }

  lemma TakeKeepsPcs(b: Book, c: Call)
    requires Pcs(b) && b.Pc(c) == Offering
    ensures Pcs(b.Take(c)) && b.Answers(c) == []
  {
    assert forall d :: b.Take(c).Answers(d) == b.Answers(d);
  }

  lemma TakeFiles(b: Book, c: Call)
    requires Filed(b) && Pcs(b) && b.Pc(c) == Offering
    ensures Filed(b.Take(c)) && Pcs(b.Take(c))
    ensures b.Take(c).at[c] == |b.order| && b.Answers(c) == []
  {
    TakeKeepsFiled(b, c);
    TakeKeepsPcs(b, c);
  }

  lemma ReplyFiles(b: Book, c: Call, ok: bool)
    requires Filed(b) && Pcs(b) && c in b.at && b.Answers(c) == []
    ensures Filed(b.Reply(c, ok)) && Pcs(b.Reply(c, ok))
  {
  }

  lemma EnterReplies(b: Book, c: Call, op: Op, pc: CallPc, buffered: bool, server: ServerPc)
    requires Replies(b, server)
    ensures Replies(b.Enter(c, op, pc, buffered), server)
  {
    assert b.Enter(c, op, pc, buffered).answers == b.answers;
    assert b.Enter(c, op, pc, buffered).at == b.at;
  }

  lemma EnterCalls(s: State, c: Call, kind: Kind, data: Bytes)
    requires Calls(s) && c !in s.b.ops
    ensures Calls(Entered(s, c, kind, data))
  {
    var (g, v) := Section(s.g, kind, data, s.written);
    var op := Op(kind, if kind == Write then data else [], v != Offer);
    var buffered := kind == Write && v == Accepted;
    EnterFiles(s.b, c, op, PcAfter(v), buffered);
    EnterReplies(s.b, c, op, PcAfter(v), buffered, s.server);
  }

  lemma ReceiveCalls(s: State, c: Call)
    requires Calls(s) && Enabled(s, Receive(c))
    ensures Calls(Apply(s, Receive(c)))
  {
    assert c in s.b.at && |s.b.Answers(c)| == 1;
    MoveFiles(s.b, c, Returned(if s.b.Answers(c)[0] then Ok else IoError));
  }

  lemma GiveUpCalls(s: State, c: Call)
    requires Calls(s) && Enabled(s, GiveUp(c))
    ensures Calls(Apply(s, GiveUp(c)))
  {
    MoveFiles(s.b, c, Returned(if s.contextDone then ContextDone else Ended));
  }

  lemma DequeueCalls(s: State, c: Call)
    requires Calls(s) && Enabled(s, Dequeue(c))
    ensures Calls(Apply(s, Dequeue(c)))
  {
    TakeFiles(s.b, c);
  }

  lemma ReplyCounts(b: Book, c: Call, ok: bool, server: ServerPc)
    requires Replies(b, Handling(c)) && c in b.at && !server.Handling?
    ensures Replies(b.Reply(c, ok), server)
  {
  }

  lemma HandleReplies(s: State, io: Io)
    requires Enabled(s, Handle(io))
    ensures var t := Handled(s, io);
            && t.b == s.b.Reply(s.server.c, io == Full(true) || s.b.Asked(s.server.c).kind == Close)
            && t.g == s.g && !t.server.Handling? && t.server != NotServing
  {
  }

  lemma HandleCalls(s: State, io: Io)
    requires Calls(s) && Enabled(s, Handle(io))
    ensures Calls(Handled(s, io))
  {
    var c := s.server.c;
    var ok := io == Full(true) || s.b.Asked(c).kind == Close;
    var t := Handled(s, io);
    HandleReplies(s, io);
    ReplyFiles(s.b, c, ok);
    ReplyCounts(s.b, c, ok, t.server);
  }

  lemma ServeCalls(s: State)
    requires Calls(s) && Enabled(s, Serve)
    ensures Calls(Apply(s, Serve))
  {
  }

  /** The server moves on without touching any call. */
  lemma QuietCalls(s: State, t: State)
    requires Calls(s) && t.b == s.b && t.g == s.g
    requires t.server == s.server
      || (!s.server.Handling? && s.server != NotServing && !t.server.Handling? && t.server != NotServing)
    ensures Calls(t)
  {
    assert Replies(t.b, t.server);
  }

  lemma CallsStep(s: State, a: Action)
    requires Calls(s) && Enabled(s, a)
    ensures Calls(Apply(s, a))
  {
    match a
    case Enter(c, kind, data) => EnterCalls(s, c, kind, data);
    case Receive(c) => ReceiveCalls(s, c);
    case GiveUp(c) => GiveUpCalls(s, c);
    case Dequeue(c) => DequeueCalls(s, c);
    case Handle(io) => HandleCalls(s, io);
    case Serve => ServeCalls(s);
    case _ => QuietCalls(s, Apply(s, a));
  }

  // ---------------------------------------------------------------- the bytes

  function DataIn(ops: map<Call, Op>, c: Call): Bytes {
    if c in ops then ops[c].data else []
  }

  /** The data of some calls, one after the other. */
  function Payload(ops: map<Call, Op>, cs: seq<Call>): Bytes {
    if cs == [] then [] else Payload(ops, cs[..|cs| - 1]) + DataIn(ops, cs[|cs| - 1])
  }

  ghost predicate OnWire(w: Wire, ops: map<Call, Op>, order: seq<Call>) {
    && w.full <= |order|
    && w.out == Payload(ops, order[..w.full]) + w.tail
    && (w.tail != [] ==> w.full < |order| && w.tail <= DataIn(ops, order[w.full]))
  }

  lemma PayloadNext(ops: map<Call, Op>, cs: seq<Call>, i: nat)
    requires i < |cs|
    ensures Payload(ops, cs[..i + 1]) == Payload(ops, cs[..i]) + DataIn(ops, cs[i])
  {
    assert cs[..i + 1][..i] == cs[..i];
  }

  lemma {:induction false} PayloadSplit(ops: map<Call, Op>, a: seq<Call>, b: seq<Call>)
    ensures Payload(ops, a + b) == Payload(ops, a) + Payload(ops, b)
    decreases |b|
  {
    if b == [] {
      assert a + b == a;
    } else {
      assert (a + b)[..|a + b| - 1] == a + b[..|b| - 1];
      PayloadSplit(ops, a, b[..|b| - 1]);
    }
  }

  lemma {:induction false} PayloadStable(ops: map<Call, Op>, cs: seq<Call>, c: Call, op: Op)
    requires c !in cs
    ensures Payload(ops[c := op], cs) == Payload(ops, cs)
  {
    if cs != [] {
      PayloadStable(ops, cs[..|cs| - 1], c, op);
      assert cs[|cs| - 1] in cs;
    }
  }

  lemma SentOnWire(w: Wire, ops: map<Call, Op>, order: seq<Call>, chunk: Bytes, io: Io)
    requires OnWire(w, ops, order) && w.tail == [] && w.full < |order| && chunk == DataIn(ops, order[w.full])
    ensures OnWire(Sent(w, chunk, io), ops, order)
  {
    PayloadNext(ops, order, w.full);
  }

  lemma LongerOrder(w: Wire, ops: map<Call, Op>, order: seq<Call>, c: Call)
    requires OnWire(w, ops, order)
    ensures OnWire(w, ops, order + [c])
  {
    assert (order + [c])[..w.full] == order[..w.full];
  }

  lemma MoreCalls(w: Wire, ops: map<Call, Op>, order: seq<Call>, c: Call, op: Op)
    requires OnWire(w, ops, order) && c !in order
    ensures OnWire(w, ops[c := op], order)
  {
    PayloadStable(ops, order[..w.full], c, op);
  }

  /** How far the output has come, by the place where the server stands; n calls are in
      the order, the first `early` of them buffered. */
  ghost predicate Stage(server: ServerPc, w: Wire, early: nat, n: nat) {
    && (server != Stopped ==> w.tail == [])
    && (server == NotServing || server.Opening? ==> w.full == 0)
    && (server.Opening? || server.Draining? ==> early == n)
    && (server.Draining? ==> w.full == server.i)
    && (server == Looping ==> w.full == n)
    && (server.Handling? ==> w.full == n - 1)
  }

  /** The chunks serve took are the data of the buffered writes, in the order of the calls. */
  ghost predicate Captured(server: ServerPc, ops: map<Call, Op>, order: seq<Call>) {
    server.Opening? || server.Draining? ==>
      |server.chunks| == |order| && forall i :: 0 <= i < |order| ==> server.chunks[i] == DataIn(ops, order[i])
  }

  ghost predicate Header(g: Guarded, headers: nat, ops: map<Call, Op>, order: seq<Call>) {
    && headers == (if g.started then 1 else 0)
    && (g.started ==> g.pending == [])
    && (!g.started ==> |g.pending| == |order| && forall i :: 0 <= i < |order| ==> g.pending[i] == DataIn(ops, order[i]))
  }

  /** A queued write that was answered with success lies in what has gone out. */
  ghost predicate Delivered(b: Book, full: nat) {
    forall c :: c in b.at && DataIn(b.ops, c) != [] && b.Answers(c) == [true] ==> b.at[c] < full
  }

  ghost predicate Bytewise(s: State) {
    && OnWire(s.wire, s.b.ops, s.b.order)
    && Stage(s.server, s.wire, s.b.early, |s.b.order|)
    && Captured(s.server, s.b.ops, s.b.order)
    && Header(s.g, s.wire.headers, s.b.ops, s.b.order)
    && Delivered(s.b, s.wire.full)
  }

  ghost predicate Inv(s: State) {
    Calls(s) && Bytewise(s)
  }

  lemma OrderIsKnown(b: Book, c: Call)
    requires Filed(b) && Pcs(b) && c !in b.ops
    ensures c !in b.order
  {
    forall k | 0 <= k < |b.order| ensures b.order[k] in b.ops {
      assert k >= b.early ==> b.order[k] in b.at;
    }
  }

  lemma EnterHeader(g: Guarded, headers: nat, b: Book, c: Call, op: Op)
    requires Header(g, headers, b.ops, b.order) && c !in b.order
    ensures Header(g, headers, b.ops[c := op], b.order)
    ensures !g.started ==> Header(g.(pending := g.pending + [op.data]), headers, b.ops[c := op], b.order + [c])
  {
    if !g.started {
      forall i | 0 <= i < |b.order| ensures DataIn(b.ops[c := op], b.order[i]) == DataIn(b.ops, b.order[i]) {
        assert b.order[i] in b.order;
      }
    }
  }

  lemma EnterCaptured(server: ServerPc, b: Book, c: Call, op: Op)
    requires Captured(server, b.ops, b.order) && c !in b.order
    ensures Captured(server, b.ops[c := op], b.order)
  {
    forall i | 0 <= i < |b.order| ensures DataIn(b.ops[c := op], b.order[i]) == DataIn(b.ops, b.order[i]) {
      assert b.order[i] in b.order;
    }
  }

  lemma EnterDelivered(b: Book, full: nat, c: Call, op: Op, pc: CallPc, buffered: bool)
    requires Delivered(b, full) && c !in b.at
    ensures Delivered(b.Enter(c, op, pc, buffered), full)
  {
    assert forall d :: b.Enter(c, op, pc, buffered).Answers(d) == b.Answers(d);
  }

  lemma EnterBytes(s: State, c: Call, kind: Kind, data: Bytes)
    requires Bytewise(s) && c !in s.b.order && c !in s.b.at && (s.g.started <==> s.server != NotServing)
    ensures Bytewise(Entered(s, c, kind, data))
  {
    var (g, v) := Section(s.g, kind, data, s.written);
    var op := Op(kind, if kind == Write then data else [], v != Offer);
    EnterHeader(s.g, s.wire.headers, s.b, c, op);
    EnterCaptured(s.server, s.b, c, op);
    EnterDelivered(s.b, s.wire.full, c, op, PcAfter(v), kind == Write && v == Accepted);
    MoreCalls(s.wire, s.b.ops, s.b.order, c, op);
    LongerOrder(s.wire, s.b.ops[c := op], s.b.order, c);
  }

  lemma DequeueBytes(s: State, c: Call)
    requires Bytewise(s) && Enabled(s, Dequeue(c)) && s.b.Answers(c) == [] && s.g.started
    ensures Bytewise(Apply(s, Dequeue(c)))
  {
    LongerOrder(s.wire, s.b.ops, s.b.order, c);
    assert forall d :: s.b.Take(c).Answers(d) == s.b.Answers(d);
  }

  lemma DrainStage(s: State, io: Io)
    requires Stage(s.server, s.wire, s.b.early, |s.b.order|) && Captured(s.server, s.b.ops, s.b.order)
    requires Enabled(s, SendPending(io))
    ensures Stage(Drained(s, io).server, Drained(s, io).wire, s.b.early, |s.b.order|)
    ensures Captured(Drained(s, io).server, s.b.ops, s.b.order)
    ensures Drained(s, io).wire.headers == s.wire.headers && Drained(s, io).wire.full >= s.wire.full
    ensures Drained(s, io).b == s.b && Drained(s, io).g == s.g
  {
  }

  lemma DrainBytes(s: State, io: Io)
    requires Bytewise(s) && Enabled(s, SendPending(io))
    ensures Bytewise(Drained(s, io))
  {
    DrainStage(s, io);
    var i := s.server.i;
    if i < |s.b.order| {
      var chunk := s.server.chunks[i];
      SentOnWire(s.wire, s.b.ops, s.b.order, chunk, if chunk == [] then Full(true) else io);
    }
  }

  lemma ReplyDelivers(b: Book, full: nat, full': nat, c: Call, ok: bool)
    requires Delivered(b, full) && full <= full' && c in b.at
    requires ok && DataIn(b.ops, c) != [] ==> b.at[c] < full'
    requires b.Answers(c) == []
    ensures Delivered(b.Reply(c, ok), full')
  {
    assert b.Reply(c, ok).Answers(c) == [ok];
    assert forall d :: d != c ==> b.Reply(c, ok).Answers(d) == b.Answers(d);
  }

  /** Handling a call, of whatever kind, sends its data and replies. */
  lemma HandledIs(s: State, io: Io)
    requires Enabled(s, Handle(io)) && s.server.c in s.b.ops
    requires s.b.ops[s.server.c].kind != Write ==> s.b.ops[s.server.c].data == []
    ensures var c := s.server.c;
            var t := Handled(s, io);
            && t.g == s.g
            && t.wire == Sent(s.wire, s.b.ops[c].data, if s.b.ops[c].kind == Write then io else Full(true))
            && t.b == s.b.Reply(c, io == Full(true) || s.b.ops[c].kind == Close)
            && (t.server == Looping || t.server == Stopped)
            && (s.b.ops[c].kind == Write && io != Full(true) ==> t.server == Stopped)
  {
  }

  lemma HandleBytes(s: State, io: Io)
    requires Bytewise(s) && Enabled(s, Handle(io)) && s.server.c in s.b.ops && s.server.c in s.b.at
    requires s.b.ops[s.server.c].kind != Write ==> s.b.ops[s.server.c].data == []
    requires s.b.Answers(s.server.c) == [] && s.b.at[s.server.c] == s.wire.full < |s.b.order|
    requires s.b.order[s.wire.full] == s.server.c
    ensures Bytewise(Handled(s, io))
  {
    HandledIs(s, io);
    var c := s.server.c;
    var io' := if s.b.ops[c].kind == Write then io else Full(true);
    SentOnWire(s.wire, s.b.ops, s.b.order, DataIn(s.b.ops, c), io');
    ReplyDelivers(s.b, s.wire.full, Handled(s, io).wire.full, c, io == Full(true) || s.b.ops[c].kind == Close);
  }

  lemma ServeBytes(s: State)
    requires Bytewise(s) && Enabled(s, Serve) && s.b.early == |s.b.order|
    ensures Bytewise(Apply(s, Serve))
  {
    assert OnWire(Apply(s, Serve).wire, s.b.ops, s.b.order);
  }

  /** The other steps move no bytes and add no call. */
  lemma QuietBytes(s: State, a: Action)
    requires Bytewise(s) && Enabled(s, a)
    requires !a.Enter? && !a.Dequeue? && !a.SendPending? && !a.Handle? && !a.Serve?
    ensures Bytewise(Apply(s, a))
  {
    var t := Apply(s, a);
    assert t.wire == s.wire && t.g == s.g;
    assert t.b == s.b.(pcs := t.b.pcs);
    assert forall d :: t.b.Answers(d) == s.b.Answers(d);
  }

  lemma EnterKeepsBytes(s: State, c: Call, kind: Kind, data: Bytes)
    requires Inv(s) && c !in s.b.ops
    ensures Bytewise(Entered(s, c, kind, data))
  {
    OrderIsKnown(s.b, c);
    EnterBytes(s, c, kind, data);
  }

  lemma DequeueKeepsBytes(s: State, c: Call)
    requires Inv(s) && Enabled(s, Dequeue(c))
    ensures Bytewise(Apply(s, Dequeue(c)))
  {
    TakeFiles(s.b, c);
    DequeueBytes(s, c);
  }

  lemma HandleKeepsBytes(s: State, io: Io)
    requires Inv(s) && Enabled(s, Handle(io))
    ensures Bytewise(Handled(s, io))
  {
    var c := s.server.c;
    assert c in s.b.at && |s.b.Answers(c)| == 0;
    HandleBytes(s, io);
  }

  lemma BytesStep(s: State, a: Action)
    requires Inv(s) && Enabled(s, a)
    ensures Bytewise(Apply(s, a))
  {
    match a
    case Enter(c, kind, data) => EnterKeepsBytes(s, c, kind, data);
    case Dequeue(c) => DequeueKeepsBytes(s, c);
    case SendPending(io) => DrainBytes(s, io);
    case Handle(io) => HandleKeepsBytes(s, io);
    case Serve => ServeBytes(s);
    case _ => QuietBytes(s, a);
  }

  lemma StepKeepsInv(s: State, a: Action)
    requires Inv(s) && Enabled(s, a)
    ensures Inv(Apply(s, a))
  {
    CallsStep(s, a);
    BytesStep(s, a);
  }

  lemma {:induction false} RunKeepsInv(states: seq<State>, actions: seq<Action>, i: nat)
    requires IsRun(states, actions) && i < |states|
    ensures Inv(states[i])
  {
    if i > 0 {
      RunKeepsInv(states, actions, i - 1);
      StepKeepsInv(states[i - 1], actions[i - 1]);
    }
  }

  // ---------------------------------------------------------------- the results

  /** The writes buffered before the start, and the calls taken from the queue. */
  function Buffered(s: State): seq<Call>
    requires s.b.early <= |s.b.order|
  {
    s.b.order[..s.b.early]
  }

  function Taken(s: State): seq<Call>
    requires s.b.early <= |s.b.order|
  {
    s.b.order[s.b.early..]
  }

  lemma PayloadPrefix(ops: map<Call, Op>, order: seq<Call>, k: nat)
    requires k <= |order|
    ensures Payload(ops, order[..k]) <= Payload(ops, order)
  {
    assert order == order[..k] + order[k..];
    PayloadSplit(ops, order[..k], order[k..]);
  }

  lemma WireIsPrefix(w: Wire, ops: map<Call, Op>, order: seq<Call>)
    requires OnWire(w, ops, order)
    ensures w.out <= Payload(ops, order)
  {
    if w.tail == [] {
      PayloadPrefix(ops, order, w.full);
    } else {
      PayloadNext(ops, order, w.full);
      assert w.out <= Payload(ops, order[..w.full + 1]);
      PayloadPrefix(ops, order, w.full + 1);
    }
  }

  lemma SplitAt(ops: map<Call, Op>, order: seq<Call>, k: nat)
    requires k <= |order|
    ensures Payload(ops, order) == Payload(ops, order[..k]) + Payload(ops, order[k..])
  {
    assert order == order[..k] + order[k..];
    PayloadSplit(ops, order[..k], order[k..]);
  }

  /** In every interleaving the bytes sent are a prefix of the chunks buffered before the
      start, in order, followed by the chunks taken from the queue, in order. */
  lemma SentIsPrefix(states: seq<State>, actions: seq<Action>, i: nat)
    requires IsRun(states, actions) && i < |states|
    ensures var s := states[i];
            && s.b.early <= |s.b.order|
            && s.wire.out <= Payload(s.b.ops, Buffered(s)) + Payload(s.b.ops, Taken(s))
  {
    RunKeepsInv(states, actions, i);
    var s := states[i];
    WireIsPrefix(s.wire, s.b.ops, s.b.order);
    SplitAt(s.b.ops, s.b.order, s.b.early);
  }

  /** Whenever serve waits for the next call, everything buffered and taken has gone out. */
  lemma AllSentInLoop(states: seq<State>, actions: seq<Action>, i: nat)
    requires IsRun(states, actions) && i < |states| && states[i].server == Looping
    ensures var s := states[i];
            && s.b.early <= |s.b.order|
            && s.wire.out == Payload(s.b.ops, Buffered(s)) + Payload(s.b.ops, Taken(s))
  {
    RunKeepsInv(states, actions, i);
    var s := states[i];
    assert s.b.order[..s.wire.full] == s.b.order;
    SplitAt(s.b.ops, s.b.order, s.b.early);
  }

  /** The header goes out once, with the start, and before any byte. */
  lemma HeaderOnceAndFirst(states: seq<State>, actions: seq<Action>, i: nat)
    requires IsRun(states, actions) && i < |states|
    ensures states[i].wire.headers == if states[i].g.started then 1 else 0
    ensures states[i].wire.out != [] ==> states[i].wire.headers == 1
  {
    RunKeepsInv(states, actions, i);
  }

  lemma TakenAre(s: State, c: Call)
    requires Calls(s)
    ensures c in Taken(s) <==> c in s.b.at
  {
    if c in s.b.at {
      assert Taken(s)[s.b.at[c] - s.b.early] == c;
    }
    if c in Taken(s) {
      var k :| 0 <= k < |Taken(s)| && Taken(s)[k] == c;
      assert s.b.order[s.b.early + k] in s.b.at;
    }
  }

  /** Every call taken from the queue is taken once and answered once, except the one being
      handled, which has no answer yet; calls never taken get none. */
  lemma AnsweredExactlyOnce(states: seq<State>, actions: seq<Action>, i: nat, c: Call, j: nat, k: nat)
    requires IsRun(states, actions) && i < |states|
    ensures var s := states[i];
            && s.b.early <= |s.b.order|
            && |s.b.Answers(c)| == (if c in Taken(s) && s.server != Handling(c) then 1 else 0)
            && (j < k < |Taken(s)| ==> Taken(s)[j] != Taken(s)[k])
  {
    RunKeepsInv(states, actions, i);
    var s := states[i];
    TakenAre(s, c);
    if j < k < |Taken(s)| {
      assert s.b.order[s.b.early + j] in s.b.at && s.b.order[s.b.early + k] in s.b.at;
    }
  }

  lemma StartsWith(a: Bytes, b: Bytes, c: Bytes)
    ensures a <= a + b + c
  {
  }

  lemma WireHolds(w: Wire, ops: map<Call, Op>, order: seq<Call>, k: nat)
    requires OnWire(w, ops, order) && k < w.full
    ensures Payload(ops, order[..k]) + DataIn(ops, order[k]) <= w.out
  {
    PayloadNext(ops, order, k);
    var rest := order[k + 1..w.full];
    assert order[..w.full] == order[..k + 1] + rest;
    PayloadSplit(ops, order[..k + 1], rest);
    StartsWith(Payload(ops, order[..k + 1]), Payload(ops, rest), w.tail);
  }

  /** A write that went through the queue and returned success has its bytes in the output,
      right after those of everything buffered or taken before it. */
  lemma SuccessfulWriteIsSent(states: seq<State>, actions: seq<Action>, i: nat, c: Call)
    requires IsRun(states, actions) && i < |states|
    requires c in states[i].b.ops && !states[i].b.ops[c].direct && states[i].b.Pc(c) == Returned(Ok)
    ensures c in states[i].b.at && states[i].b.at[c] < |states[i].b.order|
    ensures var s := states[i];
            s.b.order[s.b.at[c]] == c
            && (s.b.ops[c].data != [] ==>
                  Payload(s.b.ops, s.b.order[..s.b.at[c]]) + s.b.ops[c].data <= s.wire.out)
  {
    RunKeepsInv(states, actions, i);
    var s := states[i];
    assert s.b.Answers(c) == [true];
    if s.b.ops[c].data != [] {
      WireHolds(s.wire, s.b.ops, s.b.order, s.b.at[c]);
    }
  }

  ghost predicate IsAsked(s: State, c: Call, kind: Kind, data: Bytes) {
    c in s.b.ops && s.b.ops[c].kind == kind && s.b.ops[c].data == if kind == Kind.Write then data else []
  }

  lemma OpsStay(s: State, a: Action, c: Call)
    requires Enabled(s, a) && c in s.b.ops
    ensures c in Apply(s, a).b.ops && Apply(s, a).b.ops[c] == s.b.ops[c]
  {
  }

  lemma AskedNow(states: seq<State>, actions: seq<Action>, i: nat, c: Call, kind: Kind, data: Bytes)
    requires IsRun(states, actions) && i < |actions| && actions[i] == Enter(c, kind, data)
    ensures IsAsked(states[i + 1], c, kind, data)
  {
    assert states[i + 1] == Entered(states[i], c, kind, data);
  }

  lemma AskedNext(states: seq<State>, actions: seq<Action>, i: nat, c: Call, kind: Kind, data: Bytes)
    requires IsRun(states, actions) && i < |actions| && IsAsked(states[i], c, kind, data)
    ensures IsAsked(states[i + 1], c, kind, data)
  {
    OpsStay(states[i], actions[i], c);
  }

  /** The data that the orders speak of are those the calls were made with. */
  lemma {:induction false} AskedIsEntered(
      states: seq<State>, actions: seq<Action>, i: nat, j: nat, c: Call, kind: Kind, data: Bytes)
    requires IsRun(states, actions) && i < j < |states| && actions[i] == Enter(c, kind, data)
    ensures IsAsked(states[j], c, kind, data)
    decreases j
  {
    if i + 1 < j {
      AskedIsEntered(states, actions, i, j - 1, c, kind, data);
      AskedNext(states, actions, j - 1, c, kind, data);
    } else {
      AskedNow(states, actions, i, c, kind, data);
    }
  }

  lemma HandleMovesNoCall(s: State, io: Io)
    requires Enabled(s, Handle(io))
    ensures Handled(s, io).b.pcs == s.b.pcs && Handled(s, io).b.ops == s.b.ops
  {
  }

  lemma DrainMovesNoCall(s: State, io: Io)
    requires Enabled(s, SendPending(io))
    ensures Drained(s, io).b == s.b
  {
  }

  lemma RefusalStays(s: State, a: Action, c: Call)
    requires Enabled(s, a) && c in s.b.ops && s.b.Pc(c) == Returned(Refused)
    ensures Apply(s, a).b.Pc(c) == Returned(Refused) && c in Apply(s, a).b.ops
  {
    match a
    case Enter(d, _, _) => assert d != c;
    case Receive(d) => assert d != c;
    case GiveUp(d) => assert d != c;
    case Dequeue(d) => assert d != c;
    case Handle(io) => HandleMovesNoCall(s, io);
    case SendPending(io) => DrainMovesNoCall(s, io);
    case _ =>
  }

  ghost predicate IsRefused(s: State, c: Call) {
    c in s.b.ops && s.b.Pc(c) == Returned(Refused)
  }

  lemma RefusedNext(states: seq<State>, actions: seq<Action>, i: nat, c: Call)
    requires IsRun(states, actions) && i < |actions| && IsRefused(states[i], c)
    ensures IsRefused(states[i + 1], c)
  {
    RefusalStays(states[i], actions[i], c);
  }

  lemma {:induction false} RefusedForGood(states: seq<State>, actions: seq<Action>, i: nat, j: nat, c: Call)
    requires IsRun(states, actions) && i <= j < |states| && IsRefused(states[i], c)
    ensures IsRefused(states[j], c)
    decreases j
  {
    if i < j {
      RefusedForGood(states, actions, i, j - 1, c);
      RefusedNext(states, actions, j - 1, c);
    }
  }

  /** A write or flush begun after close is refused for good and never reaches the server. */
  lemma RefusedAfterClose(
      states: seq<State>, actions: seq<Action>, i: nat, j: nat, c: Call, kind: Kind, data: Bytes)
    requires IsRun(states, actions) && i < j < |states| && actions[i] == Enter(c, kind, data)
    requires states[i].g.closed && kind != Close
    ensures c in states[j].b.ops && states[j].b.Pc(c) == Returned(Refused) && c !in states[j].b.at
  {
    assert Enabled(states[i], actions[i]) && states[i + 1] == Entered(states[i], c, kind, data);
    RefusedForGood(states, actions, i + 1, j, c);
    RunKeepsInv(states, actions, j);
    assert states[j].b.ops[c].direct;
  }

  // ---------------------------------------------------------------- where a call gets

  /** What a call leads to, by the flags it meets.  After the start a write, a flush and the first
      close go to the server; before it a write is buffered last, and only another response or a
      close turns it away. */
  lemma EnterDecides(states: seq<State>, actions: seq<Action>, i: nat, c: Call, kind: Kind, data: Bytes)
    requires IsRun(states, actions) && i < |actions| && actions[i] == Enter(c, kind, data)
    ensures var s, t := states[i], states[i + 1];
            && t.g.started == s.g.started && t.g.closed == (s.g.closed || kind == Kind.Close)
            && (s.g.closed ==> t.b.Pc(c) == Returned(if kind == Kind.Close then Ok else Refused))
            && (!s.g.closed && s.g.started ==> t.b.Pc(c) == Offering)
            && (!s.g.closed && !s.g.started ==>
                  t.b.Pc(c) == Returned(if kind != Kind.Close && s.written then NotAvailable else Ok))
            && (if kind == Kind.Write && t.b.Pc(c) == Returned(Ok)
                then t.b.order == s.b.order + [c] && t.b.early == |t.b.order| && t.g.pending == s.g.pending + [data]
                else t.b.order == s.b.order && t.g.pending == s.g.pending)
  {
    RunKeepsInv(states, actions, i);
    assert Enabled(states[i], actions[i]) && states[i + 1] == Entered(states[i], c, kind, data);
  }

  lemma HandledAnswers(s: State, io: Io)
    requires Calls(s) && Enabled(s, Handle(io))
    ensures s.server.c in s.b.ops
    ensures var c, t := s.server.c, Handled(s, io);
            var kind := s.b.ops[c].kind;
            && s.b.Answers(c) == [] && t.b.Answers(c) == [kind == Kind.Close || io == Full(true)]
            && t.server == if kind == Kind.Flush || (kind == Kind.Write && io == Full(true)) then Looping else Stopped
  {
    assert |s.b.Answers(s.server.c)| == 0;
    HandledIs(s, io);
  }

  /** What the server answers, and whether it goes on. */
  lemma HandleDecides(states: seq<State>, actions: seq<Action>, i: nat, io: Io)
    requires IsRun(states, actions) && i < |actions| && actions[i] == Handle(io)
    ensures states[i].server.Handling? && states[i].server.c in states[i].b.ops
    ensures var s, t, c := states[i], states[i + 1], states[i].server.c;
            var kind := s.b.ops[c].kind;
            && s.b.Answers(c) == [] && t.b.Answers(c) == [kind == Kind.Close || io == Full(true)]
            && t.server == if kind == Kind.Flush || (kind == Kind.Write && io == Full(true)) then Looping else Stopped
  {
    RunKeepsInv(states, actions, i);
    assert Enabled(states[i], actions[i]) && states[i + 1] == Apply(states[i], actions[i]);
    HandledAnswers(states[i], io);
  }

  /** No caller is left behind.  The server's loop can take any call that is offered to it, a call
      that was answered can return, and once serve has ended or the context is done, so can every
      other one. */
  lemma NoCallIsStuck(states: seq<State>, actions: seq<Action>, i: nat, c: Call)
    requires IsRun(states, actions) && i < |states| && c in states[i].b.ops && !states[i].b.Pc(c).Returned?
    ensures var s := states[i];
            && (s.b.Pc(c) == Offering && s.server == Looping ==> Enabled(s, Dequeue(c)))
            && (s.b.Pc(c) == Waiting && s.server != Handling(c) ==> Enabled(s, Receive(c)))
            && (s.server == Stopped || s.contextDone ==> Enabled(s, GiveUp(c)))
  {
    RunKeepsInv(states, actions, i);
    WaitingAreTaken(states, actions, i, c);
  }

  ghost predicate WaitersTaken(b: Book) {
    forall c :: c in b.pcs && b.pcs[c] == Waiting ==> c in b.at
  }

  lemma WaitersStep(s: State, a: Action)
    requires WaitersTaken(s.b) && Enabled(s, a)
    ensures WaitersTaken(Apply(s, a).b)
  {
    if a.Handle? {
      HandleMovesNoCall(s, a.io);
      assert Handled(s, a.io).b.at == s.b.at;
    }
  }

  lemma {:induction false} WaitingAreTaken(states: seq<State>, actions: seq<Action>, i: nat, c: Call)
    requires IsRun(states, actions) && i < |states|
    ensures WaitersTaken(states[i].b)
  {
    if i > 0 {
      WaitingAreTaken(states, actions, i - 1, c);
      WaitersStep(states[i - 1], actions[i - 1]);
    }
  }

  /** A done context ends serve between two calls, without touching one. */
  lemma CancelEndsServe(states: seq<State>, actions: seq<Action>, i: nat)
    requires IsRun(states, actions) && i < |states| && states[i].server == Looping && states[i].contextDone
    ensures Enabled(states[i], ServerCancelled)
    ensures Apply(states[i], ServerCancelled) == states[i].(server := Stopped)
  {
  }

  /** Why a call returned what it returned. */
  ghost predicate Reason(s: State, c: Call, r: Return)
    requires s.b.early <= |s.b.order| && c in s.b.ops
  {
    match r
    case Ok =>
      if s.b.ops[c].direct then s.b.ops[c].kind == Kind.Write ==> c in Buffered(s) else s.b.Answers(c) == [true]
    case IoError => s.b.Answers(c) == [false]
    case Refused => s.g.closed
    case NotAvailable => s.written && !s.g.started
    case ContextDone => s.contextDone
    case Ended => s.server == Stopped
  }

  ghost predicate Reasoned(s: State) {
    && s.b.early <= |s.b.order|
    && forall c :: c in s.b.ops && s.b.Pc(c).Returned? ==> Reason(s, c, s.b.Pc(c).r)
  }

  lemma EnterReasons(s: State, c: Call, kind: Kind, data: Bytes, d: Call)
    requires Inv(s) && Reasoned(s) && c !in s.b.ops && d in Entered(s, c, kind, data).b.ops
    ensures var t := Entered(s, c, kind, data);
            t.b.early <= |t.b.order| && (t.b.Pc(d).Returned? ==> Reason(t, d, t.b.Pc(d).r))
  {
    var t := Entered(s, c, kind, data);
    assert t.b.Answers(d) == s.b.Answers(d);
    if d == c {
      assert t.b.order == s.b.order + [c] ==> Buffered(t) == Buffered(s) + [c] && c in Buffered(t);
    } else if d in Buffered(s) {
      assert Buffered(t) == Buffered(s) || Buffered(t) == Buffered(s) + [c];
    }
  }

  /** What a failure reports stays the case. */
  ghost predicate FlagsStay(s: State, t: State) {
    && (s.g.closed ==> t.g.closed)
    && (s.written && !s.g.started ==> t.written && !t.g.started)
    && (s.contextDone ==> t.contextDone)
    && (s.server == Stopped ==> t.server == Stopped)
  }

  lemma StepFlags(s: State, a: Action)
    requires Enabled(s, a) && (s.server == Stopped ==> s.g.started)
    ensures FlagsStay(s, Apply(s, a))
  {
  }

  ghost predicate BufferStays(b: Book, b': Book) {
    b.early <= |b.order| && b'.early == b.early && b.order <= b'.order
  }

  lemma StepBuffer(s: State, a: Action)
    requires Enabled(s, a) && !a.Enter? && s.b.early <= |s.b.order|
    ensures BufferStays(s.b, Apply(s, a).b) && Apply(s, a).b.ops == s.b.ops
  {
  }

  /** Answers are only added to the call in hand, which has none. */
  lemma StepAnswers(s: State, a: Action, d: Call)
    requires Calls(s) && Enabled(s, a) && !a.Enter? && s.b.Answers(d) != []
    ensures Apply(s, a).b.Answers(d) == s.b.Answers(d)
  {
    if a.Handle? {
      HandleReplies(s, a.io);
      assert |s.b.Answers(s.server.c)| == 0;
    }
  }

  lemma ReasonStays(s: State, t: State, d: Call, r: Return)
    requires d in s.b.ops && t.b.ops == s.b.ops && FlagsStay(s, t) && BufferStays(s.b, t.b)
    requires s.b.Answers(d) != [] ==> t.b.Answers(d) == s.b.Answers(d)
    requires Reason(s, d, r)
    ensures Reason(t, d, r)
  {
    assert Buffered(t) == Buffered(s);
  }

  lemma ReceiveReason(s: State, c: Call)
    requires Inv(s) && Enabled(s, Receive(c))
    ensures var t := Apply(s, Receive(c));
            c in t.b.ops && t.b.early <= |t.b.order| && t.b.Pc(c).Returned? && Reason(t, c, t.b.Pc(c).r)
  {
    assert c in s.b.at && |s.b.Answers(c)| == 1;
  }

  lemma ReasonStep(s: State, a: Action, d: Call)
    requires Inv(s) && Reasoned(s) && Enabled(s, a) && d in Apply(s, a).b.ops && Apply(s, a).b.Pc(d).Returned?
    ensures Apply(s, a).b.early <= |Apply(s, a).b.order| && Reason(Apply(s, a), d, Apply(s, a).b.Pc(d).r)
  {
    if a.Enter? {
      EnterReasons(s, a.c, a.kind, a.data, d);
    } else if a == Receive(d) {
      ReceiveReason(s, d);
    } else if a != GiveUp(d) {
      PcUnmoved(s, a, d);
      StepFlags(s, a);
      StepBuffer(s, a);
      if s.b.Answers(d) != [] {
        StepAnswers(s, a, d);
      }
      ReasonStays(s, Apply(s, a), d, s.b.Pc(d).r);
    }
  }

  lemma PcUnmoved(s: State, a: Action, d: Call)
    requires Inv(s) && Enabled(s, a) && !a.Enter? && a != Receive(d) && a != GiveUp(d)
    requires d in Apply(s, a).b.ops && Apply(s, a).b.Pc(d).Returned?
    ensures d in s.b.ops && s.b.Pc(d) == Apply(s, a).b.Pc(d)
  {
    if a.Handle? {
      HandleMovesNoCall(s, a.io);
    }
  }

  lemma ReasonNext(states: seq<State>, actions: seq<Action>, i: nat)
    requires IsRun(states, actions) && i < |actions| && Reasoned(states[i])
    ensures Reasoned(states[i + 1])
  {
    RunKeepsInv(states, actions, i);
    RunKeepsInv(states, actions, i + 1);
    var t := states[i + 1];
    forall d | d in t.b.ops && t.b.Pc(d).Returned? ensures Reason(t, d, t.b.Pc(d).r) {
      ReasonStep(states[i], actions[i], d);
    }
  }

  lemma {:induction false} RunIsReasoned(states: seq<State>, actions: seq<Action>, i: nat)
    requires IsRun(states, actions) && i < |states|
    ensures Reasoned(states[i])
  {
    if i > 0 {
      RunIsReasoned(states, actions, i - 1);
      ReasonNext(states, actions, i - 1);
    }
  }

  /** No call returns without its reason: success means buffered or answered so, and each failure
      means that what it reports is the case. */
  lemma EveryReturnHasItsReason(states: seq<State>, actions: seq<Action>, i: nat, c: Call)
    requires IsRun(states, actions) && i < |states|
    requires c in states[i].b.ops && states[i].b.Pc(c).Returned?
    ensures states[i].b.early <= |states[i].b.order|
    ensures Reason(states[i], c, states[i].b.Pc(c).r)
  {
    RunIsReasoned(states, actions, i);
  }

  /** Closed before it was served: the server never gets to its loop and takes no call. */
  ghost predicate NothingTaken(s: State) {
    s.shut ==> s.g.started && s.server != Looping && !s.server.Handling? && s.b.at == map[]
  }

  lemma ShutStep(s: State, a: Action)
    requires Calls(s) && Enabled(s, a) && NothingTaken(s)
    ensures NothingTaken(Apply(s, a)) && (s.shut ==> Apply(s, a).shut)
  {
  }

  lemma ShutNext(states: seq<State>, actions: seq<Action>, i: nat)
    requires IsRun(states, actions) && i < |actions| && NothingTaken(states[i])
    ensures NothingTaken(states[i + 1])
    ensures states[i].shut ==> states[i + 1].shut
  {
    RunKeepsInv(states, actions, i);
    ShutStep(states[i], actions[i]);
  }

  lemma ClosedFirstTakesNothing(states: seq<State>, actions: seq<Action>, i: nat, j: nat)
    requires IsRun(states, actions) && i < j < |states|
    requires actions[i] == Serve && states[i].g.closed
    ensures states[j].server != Looping && states[j].b.at == map[]
  {
    ShutFrom(states, actions, i, j);
  }

  lemma {:induction false} ShutFrom(states: seq<State>, actions: seq<Action>, i: nat, j: nat)
    requires IsRun(states, actions) && i < j < |states|
    requires actions[i] == Serve && states[i].g.closed
    ensures states[j].shut && NothingTaken(states[j])
    decreases j
  {
    NothingTakenAt(states, actions, j - 1);
    ShutNext(states, actions, j - 1);
    if i + 1 < j {
      ShutFrom(states, actions, i, j - 1);
    } else {
      assert Enabled(states[i], actions[i]) && states[j] == Apply(states[i], Serve);
    }
  }

  lemma {:induction false} NothingTakenAt(states: seq<State>, actions: seq<Action>, i: nat)
    requires IsRun(states, actions) && i < |states|
    ensures NothingTaken(states[i])
  {
    if i > 0 {
      NothingTakenAt(states, actions, i - 1);
      ShutNext(states, actions, i - 1);
    }
  }

  // ---------------------------------------------------------------- a write that goes out

  ghost predicate Step(s: State, a: Action, t: State) {
    Enabled(s, a) && Apply(s, a) == t
  }

  lemma Extend(states: seq<State>, actions: seq<Action>, a: Action, t: State)
    returns (states': seq<State>, actions': seq<Action>)
    requires IsRun(states, actions) && Step(states[|actions|], a, t)
    ensures IsRun(states', actions') && |actions'| == |actions| + 1 && states <= states'
    ensures states'[|actions'|] == t
  {
    states', actions' := states + [t], actions + [a];
  }

  /** The calls so far are still where they were, c apart. */
  ghost predicate OthersStay(s: State, t: State, c: Call) {
    t.g == s.g && t.wire.headers == s.wire.headers
    && forall d :: d in s.b.ops && d != c ==> d in t.b.ops && t.b.Pc(d) == s.b.Pc(d)
  }

  /** c writes data and stands in the given place; n bytes are out. */
  ghost predicate Writing(t: State, c: Call, data: Bytes, pc: CallPc, server: ServerPc, out: Bytes) {
    && t.server == server && t.wire.out == out && c in t.b.ops && t.b.ops[c] == Op(Kind.Write, data, false)
    && t.b.Pc(c) == pc
  }

  lemma WriteOffered(s: State, c: Call, data: Bytes) returns (t: State)
    requires Calls(s) && s.server == Looping && !s.g.closed && c !in s.b.ops
    ensures Step(s, Enter(c, Kind.Write, data), t) && Calls(t)
    ensures Writing(t, c, data, Offering, Looping, s.wire.out) && OthersStay(s, t, c)
  {
    t := Entered(s, c, Kind.Write, data);
    EnterCalls(s, c, Kind.Write, data);
  }

  lemma WriteTaken(s: State, c: Call, data: Bytes) returns (t: State)
    requires Calls(s) && Writing(s, c, data, Offering, Looping, s.wire.out)
    ensures Step(s, Dequeue(c), t) && Calls(t)
    ensures Writing(t, c, data, Waiting, Handling(c), s.wire.out) && OthersStay(s, t, c)
  {
    t := Apply(s, Dequeue(c));
    DequeueCalls(s, c);
  }

  lemma WriteSent(s: State, c: Call, data: Bytes) returns (t: State)
    requires Calls(s) && Writing(s, c, data, Waiting, Handling(c), s.wire.out)
    ensures Step(s, Handle(Full(true)), t) && t.b.Answers(c) == [true]
    ensures Writing(t, c, data, Waiting, Looping, s.wire.out + data) && OthersStay(s, t, c)
  {
    t := Handled(s, Full(true));
    HandledIs(s, Full(true));
    HandledAnswers(s, Full(true));
    HandleMovesNoCall(s, Full(true));
  }

  lemma WriteReturns(s: State, c: Call, data: Bytes) returns (t: State)
    requires Writing(s, c, data, Waiting, Looping, s.wire.out) && s.b.Answers(c) == [true]
    ensures Step(s, Receive(c), t)
    ensures Writing(t, c, data, Returned(Ok), Looping, s.wire.out) && OthersStay(s, t, c)
  {
    t := Apply(s, Receive(c));
  }

  lemma OthersStayOn(s: State, t: State, u: State, c: Call)
    requires OthersStay(s, t, c) && OthersStay(t, u, c)
    ensures OthersStay(s, u, c)
  {
  }

  /** Whenever the server waits for calls on an open stream, a write can follow that returns nil, with
      its bytes next in the output. */
  lemma WriteGoesOut(states: seq<State>, actions: seq<Action>, c: Call, data: Bytes)
    returns (states': seq<State>, actions': seq<Action>)
    requires IsRun(states, actions) && c !in states[|actions|].b.ops
    requires states[|actions|].server == Looping && !states[|actions|].g.closed
    ensures IsRun(states', actions')
    ensures var s, t := states[|actions|], states'[|actions'|];
            Writing(t, c, data, Returned(Ok), Looping, s.wire.out + data) && OthersStay(s, t, c)
  {
    RunKeepsInv(states, actions, |actions|);
    var s0 := states[|actions|];
    var s1 := WriteOffered(s0, c, data);
    var s2 := WriteTaken(s1, c, data);
    var s3 := WriteSent(s2, c, data);
    var s4 := WriteReturns(s3, c, data);
    OthersStayOn(s0, s1, s2, c);
    OthersStayOn(s0, s2, s3, c);
    OthersStayOn(s0, s3, s4, c);
    states', actions' := Extend(states, actions, Enter(c, Kind.Write, data), s1);
    states', actions' := Extend(states', actions', Dequeue(c), s2);
    states', actions' := Extend(states', actions', Handle(Full(true)), s3);
    states', actions' := Extend(states', actions', Receive(c), s4);
  }

  /** A whole response: a is written before the start, data afterwards, and both go out in this order. */
  lemma WriteThenStartThenWrite(a: Bytes, data: Bytes) returns (states: seq<State>, actions: seq<Action>)
    ensures IsRun(states, actions)
    ensures var s := states[|actions|];
            s.b.Pc(0) == Returned(Ok) && s.b.Pc(1) == Returned(Ok) && s.wire.out == a + data && s.wire.headers == 1
  {
    var op := Op(Kind.Write, a, true);
    var b := Book(map[0 := op], map[0 := Returned(Ok)], map[], [0], 1, map[]);
    var open := Guarded(true, false, []);
    states, actions := [INIT], [];
    states, actions := Extend(states, actions, Enter(0, Kind.Write, a),
      State(Guarded(false, false, [a]), NotServing, false, false, false, b, Wire(0, [], 0, [])));
    states, actions := Extend(states, actions, Serve,
      State(open, Opening([a]), false, false, false, b, Wire(1, [], 0, [])));
    states, actions := Extend(states, actions, FlushHeader(true),
      State(open, Draining([a], 0), false, false, false, b, Wire(1, [], 0, [])));
    states, actions := Extend(states, actions, SendPending(Full(true)),
      State(open, Draining([a], 1), false, false, false, b, Wire(1, a, 1, [])));
    states, actions := Extend(states, actions, SendPending(Full(true)),
      State(open, Looping, false, false, false, b, Wire(1, a, 1, [])));
    states, actions := WriteGoesOut(states, actions, 1, data);
  }
}
