/** The bounded event queue behind event.load (pkg/filters/goja/host_globals.go).

    The first half is the object: every method is one critical section of the source.
    The second half interleaves those sections: pushes and cancellation come from the
    supervising goroutine at any time, loads come from one event loop, and an overflow
    report or an enqueued load leaves the lock before its next section. */
module EventQueue {
  import opened Wrappers

  datatype Error = BacklogOverflow | ContextDone(reason: nat)

  /** A load, identified with the channel it would wait on. */
  type Load = nat

  datatype Queue = Queue(
    pending: seq<string>, waiters: seq<Load>, closed: Option<Error>, overflow: bool, limit: nat)

  /** What one critical section of a load decides. */
  datatype Decision = Take(value: string) | ReportOverflow | Reject(error: Error) | Wait

  datatype Pushed = Ignored | Handed(to: Load) | Dropped | Stored

  function PushKind(q: Queue): Pushed {
    if q.closed.Some? then Ignored
    else if |q.waiters| > 0 then Handed(q.waiters[0])
    else if |q.pending| >= q.limit then Dropped
    else Stored
  }

  function AfterPush(q: Queue, value: string): Queue {
    match PushKind(q)
    case Ignored => q
    case Handed(_) => q.(waiters := q.waiters[1..])
    case Dropped => q.(overflow := true)
    case Stored => q.(pending := q.pending + [value])
  }

  function Decide(q: Queue): Decision {
    if |q.pending| > 0 then Take(q.pending[0])
    else if q.overflow then ReportOverflow
    else if q.closed.Some? then Reject(q.closed.value)
    else Wait
  }

  function AfterLoad(q: Queue, w: Load): Queue {
    match Decide(q)
    case Take(_) => q.(pending := q.pending[1..])
    case ReportOverflow => q.(overflow := false)
    case Reject(_) => q
    case Wait => q.(waiters := q.waiters + [w])
  }

  function AfterFinish(q: Queue, error: Error): Queue {
    if q.closed.Some? then q else q.(closed := Some(error), waiters := [], pending := [])
  }

  /** The waiter list without its first occurrence of w. */
  function Without(ws: seq<Load>, w: Load): (r: seq<Load>)
    ensures w !in ws ==> r == ws
    ensures forall v :: v != w ==> (v in r <==> v in ws)
  {
    if ws == [] then []
    else if ws[0] == w then ws[1..]
    else [ws[0]] + Without(ws[1..], w)
  }

  lemma {:induction false} WithoutAt(ws: seq<Load>, w: Load, i: nat)
    requires i < |ws| && ws[i] == w && w !in ws[..i]
    ensures Without(ws, w) == ws[..i] + ws[i + 1..]
  {
    if i > 0 {
      assert ws[0] in ws[..i];
      assert ws[1..][..i - 1] == ws[..i][1..];
      WithoutAt(ws[1..], w, i - 1);
    }
  }

  /** The source's eventStream, one method per critical section. */
  class EventStream {
    var pending: seq<string>
    var waiters: seq<Load>
    var closed: Option<Error>
    var overflow: bool
    const limit: nat

    constructor (limit: nat)
      ensures View() == Queue([], [], None, false, limit)
    {
      this.limit := limit;
      pending, waiters, closed, overflow := [], [], None, false;
    }

    function View(): Queue
      reads this
    {
      Queue(pending, waiters, closed, overflow, limit)
    }

    method Push(value: string) returns (to: Option<Load>)
      modifies this
      ensures View() == AfterPush(old(View()), value)
      ensures to == match PushKind(old(View())) case Handed(w) => Some(w) case _ => None
      ensures closed == old(closed)
      ensures to == if closed.None? && old(waiters) != [] then Some(old(waiters)[0]) else None
      ensures waiters == if to.Some? then old(waiters)[1..] else old(waiters)
      ensures closed.Some? || to.Some? ==> pending == old(pending) && overflow == old(overflow)
      ensures closed.None? && to.None? ==>
                if |old(pending)| < limit then pending == old(pending) + [value] && overflow == old(overflow)
                else pending == old(pending) && overflow
    {
      to := None;
      if closed.Some? {
        return;
      }
      if |waiters| > 0 {
        to := Some(waiters[0]);
        waiters := waiters[1..];
        return;
      }
      if |pending| >= limit {
        overflow := true;
        return;
      }
      pending := pending + [value];
    }

    method Finish(error: Error) returns (failed: seq<Load>)
      modifies this
      ensures View() == AfterFinish(old(View()), error)
      ensures failed == if old(closed).Some? then [] else old(waiters)
      ensures overflow == old(overflow)
      ensures old(closed).Some? ==> closed == old(closed) && pending == old(pending) && waiters == old(waiters)
      ensures old(closed).None? ==> closed == Some(error) && pending == [] && waiters == []
    {
      if closed.Some? {
        return [];
      }
      closed := Some(error);
      failed := waiters;
      waiters, pending := [], [];
    }

    method AwaitSection(w: Load) returns (d: Decision)
      modifies this
      ensures d == Decide(old(View()))
      ensures View() == AfterLoad(old(View()), w)
      ensures closed == old(closed)
      ensures old(pending) != [] ==> d == Take(old(pending)[0]) && pending == old(pending)[1..]
      ensures old(pending) == [] ==> pending == []
      ensures old(pending) == [] && old(overflow) ==> d == ReportOverflow && !overflow
      ensures old(pending) != [] || !old(overflow) ==> overflow == old(overflow)
      ensures old(pending) == [] && !old(overflow) ==> d == if closed.Some? then Reject(closed.value) else Wait
      ensures waiters == if d == Wait then old(waiters) + [w] else old(waiters)
    {
      if |pending| > 0 {
        d := Take(pending[0]);
        pending := pending[1..];
      } else if overflow {
        overflow := false;
        d := ReportOverflow;
      } else if closed.Some? {
        d := Reject(closed.value);
      } else {
        waiters := waiters + [w];
        d := Wait;
      }
    }

    method Withdraw(w: Load)
      modifies this
      ensures View() == old(View()).(waiters := Without(old(waiters), w))
    {
      for i := 0 to |waiters|
        invariant waiters == old(waiters) && w !in waiters[..i]
        invariant View() == old(View())
      {
        if waiters[i] == w {
          WithoutAt(waiters, w, i);
          waiters := waiters[..i] + waiters[i + 1..];
          return;
        }
      }
      assert waiters[..|waiters|] == waiters;
    }
  }

  // ---------------------------------------------------------------- interleavings

  /** What has happened to the channel of a load that was enqueued. */
  datatype Channel =
    | Listed                    // in the waiter list
    | Failing(error: Error)     // removed by finish, its error not sent yet
    | Answered(result: Result)  // exactly one result was sent
    | Withdrawn                 // taken back because the runtime is closing

  datatype Result = Value(value: string) | Failed(error: Error)

  datatype LoopPc = Ready | MustFinish | Starting(w: Load)

  /** `offered` lists the values pushed while the stream was open, `values` those given to
      loads, as the sections hand them out, and `receivers` the loads that got them.  `kept`
      holds positions in `offered`: one for each of `values`, then one for each pending value. */
  datatype State = State(
    q: Queue, loop: LoopPc, channels: map<Load, Channel>, started: set<Load>,
    offered: seq<string>, kept: seq<nat>, values: seq<string>, receivers: seq<Load>, dropped: bool, reported: bool)
  {
    /** The positions of the values handed out so far, in the order they were handed out. */
    function Handed(): seq<nat>
      requires |receivers| <= |kept|
    {
      kept[..|receivers|]
    }
  }

  datatype Action =
    | Push(value: string)
    | Cancel(reason: nat)
    | SendFailure(w: Load)
    | Await(w: Load)
    | FinishOverflow
    | TaskStarted
    | TaskRefused

  function Init(limit: nat): State {
    State(Queue([], [], None, false, limit), Ready, map[], {}, [], [], [], [], false, false)
  }

  predicate Enabled(s: State, a: Action) {
    match a
    case Push(_) => true
    case Cancel(_) => true
    case SendFailure(w) => w in s.channels && s.channels[w].Failing?
    case Await(w) => s.loop == Ready && w !in s.started
    case FinishOverflow => s.loop == MustFinish
    case TaskStarted => s.loop.Starting?
    case TaskRefused => s.loop.Starting?
  }

  function DoPush(s: State, value: string): State {
    var t := s.(q := AfterPush(s.q, value));
    var n := |s.offered|;
    match PushKind(s.q)
    case Ignored => t
    case Handed(w) =>
      t.(offered := s.offered + [value], kept := s.kept + [n], values := s.values + [value],
         receivers := s.receivers + [w], channels := s.channels[w := Answered(Value(value))])
    case Dropped => t.(offered := s.offered + [value], dropped := true)
    case Stored => t.(offered := s.offered + [value], kept := s.kept + [n])
  }

  function DoFinish(s: State, error: Error): State {
    if s.q.closed.Some? then s
    else
      s.(q := AfterFinish(s.q, error),
         kept := if |s.receivers| <= |s.kept| then s.Handed() else s.kept,
         channels := map w | w in s.channels :: if w in s.q.waiters then Failing(error) else s.channels[w])
  }

  function DoAwait(s: State, w: Load): State {
    var t := s.(q := AfterLoad(s.q, w), started := s.started + {w});
    match Decide(s.q)
    case Take(value) => t.(values := s.values + [value], receivers := s.receivers + [w])
    case ReportOverflow => t.(loop := MustFinish, reported := true)
    case Reject(_) => t
    case Wait => t.(loop := Starting(w), channels := s.channels[w := Listed])
  }

  function Apply(s: State, a: Action): State
    requires Enabled(s, a)
  {
    match a
    case Push(value) => DoPush(s, value)
    case Cancel(reason) => DoFinish(s, ContextDone(reason))
    case SendFailure(w) => s.(channels := s.channels[w := Answered(Failed(s.channels[w].error))])
    case Await(w) => DoAwait(s, w)
    case FinishOverflow => DoFinish(s, BacklogOverflow).(loop := Ready)
    case TaskStarted => s.(loop := Ready)
    case TaskRefused =>
      var w := s.loop.w;
      s.(loop := Ready, q := s.q.(waiters := Without(s.q.waiters, w)),
         channels := if w in s.q.waiters then s.channels[w := Withdrawn] else s.channels)
  }

  ghost predicate IsRun(limit: nat, states: seq<State>, actions: seq<Action>) {
    && |states| == |actions| + 1
    && states[0] == Init(limit)
    && forall i :: 0 <= i < |actions| ==>
         Enabled(states[i], actions[i]) && states[i + 1] == Apply(states[i], actions[i])
  }

  ghost predicate Increasing(s: seq<nat>) {
    forall i, j :: 0 <= i < j < |s| ==> s[i] < s[j]
  }

  ghost predicate Distinct<T>(s: seq<T>) {
    forall i, j :: 0 <= i < j < |s| ==> s[i] != s[j]
  }

  /** The shape of a bounded FIFO with values on one side or loads on the other. */
  ghost predicate Shape(q: Queue) {
    && |q.pending| <= q.limit
    && (q.pending == [] || q.waiters == [])
    && (q.closed.Some? ==> q.pending == [] && q.waiters == [])
    && Distinct(q.waiters)
  }

  /** Values leave in push order; before a drop or a close none is missing. */
  ghost predicate Ordered(offered: seq<string>, kept: seq<nat>, out: nat, q: Queue, dropped: bool) {
    && |kept| == out + |q.pending|
    && Increasing(kept)
    && (forall i :: 0 <= i < |kept| ==> kept[i] < |offered|)
    && (forall i :: out <= i < |kept| ==> offered[kept[i]] == q.pending[i - out])
    && (!dropped ==> forall i :: 0 <= i < |kept| ==> kept[i] == i)
    && (!dropped && q.closed.None? ==> |kept| == |offered|)
    && (dropped ==> |kept| < |offered|)
  }

  /** Each load receives at most one value, and only a load that was started. */
  ghost predicate Receivers(s: State) {
    && Distinct(s.receivers)
    && (forall w :: w in s.receivers ==> w in s.started)
    && |s.values| == |s.receivers|
    && (forall k :: 0 <= k < |s.receivers| && s.receivers[k] in s.channels ==>
          s.channels[s.receivers[k]] == Answered(Value(s.values[k])))
    && (forall w :: w in s.channels && s.channels[w].Answered? && s.channels[w].result.Value? ==> w in s.receivers)
  }

  ghost predicate Channels(s: State) {
    && (forall w :: w in s.q.waiters <==> w in s.channels && s.channels[w].Listed?)
    && (forall w :: w in s.channels ==> w in s.started)
    && (s.loop.Starting? ==> s.loop.w in s.channels)
  }

  /** After a drop the overflow latch stays up until a load has reported it, and the
      stream is closed before that load's event loop runs anything else. */
  ghost predicate Gap(s: State) {
    && (s.q.overflow ==> s.dropped)
    && (s.dropped ==> s.q.waiters == [])
    && (s.dropped && !s.reported ==> s.q.overflow)
    && (s.loop == MustFinish ==> s.reported)
    && (s.reported ==> s.dropped && (s.loop == MustFinish || s.q.closed.Some?))
  }

  ghost predicate Inv(s: State) {
    && s.q.limit >= 1
    && Shape(s.q)
    && InOrder(s)
    && Receivers(s)
    && Channels(s)
    && Gap(s)
  }

  ghost predicate InOrder(s: State) {
    && |s.values| == |s.receivers|
    && Ordered(s.offered, s.kept, |s.values|, s.q, s.dropped)
    && Given(s.offered, s.kept, s.values)
  }

  /** What loads were given is what was pushed at the positions kept for it. */
  ghost predicate Given(offered: seq<string>, kept: seq<nat>, values: seq<string>) {
    |values| <= |kept| && forall i :: 0 <= i < |values| ==> kept[i] < |offered| && values[i] == offered[kept[i]]
  }

  /** A new value, kept under the next position, extends the order by one. */
  lemma OrderedExtends(offered: seq<string>, kept: seq<nat>, out: nat, q: Queue, dropped: bool, value: string)
    requires Ordered(offered, kept, out, q, dropped) && q.closed.None?
    ensures Ordered(offered + [value], kept + [|offered|], out, q.(pending := q.pending + [value]), dropped)
    ensures q.pending == [] ==> Ordered(offered + [value], kept + [|offered|], out + 1, q, dropped)
  {
    var all, more := offered + [value], kept + [|offered|];
    forall i | 0 <= i < |more| ensures more[i] < |all| && (!dropped ==> more[i] == i) {
      assert i < |kept| ==> more[i] == kept[i];
    }
    forall i | out <= i < |kept| ensures all[more[i]] == q.pending[i - out] {
      assert more[i] == kept[i] && all[more[i]] == offered[kept[i]];
    }
  }

  lemma GivenExtends(offered: seq<string>, kept: seq<nat>, values: seq<string>, value: string)
    requires Given(offered, kept, values)
    ensures Given(offered + [value], kept, values) && Given(offered + [value], kept + [|offered|], values)
    ensures |values| == |kept| ==> Given(offered + [value], kept + [|offered|], values + [value])
  {
  }

  /** Handing out the oldest pending value moves it from one side to the other. */
  lemma TakeOrdered(offered: seq<string>, kept: seq<nat>, values: seq<string>, q: Queue, dropped: bool)
    requires Ordered(offered, kept, |values|, q, dropped) && Given(offered, kept, values) && q.pending != []
    ensures Ordered(offered, kept, |values| + 1, q.(pending := q.pending[1..]), dropped)
    ensures Given(offered, kept, values + [q.pending[0]])
  {
  }

  lemma PushKeepsOrder(s: State, value: string)
    requires Shape(s.q) && InOrder(s)
    ensures InOrder(DoPush(s, value))
  {
    GivenExtends(s.offered, s.kept, s.values, value);
    if s.q.closed.None? {
      OrderedExtends(s.offered, s.kept, |s.values|, s.q, s.dropped, value);
    }
    if PushKind(s.q).Handed? {
      var q' := s.q.(waiters := s.q.waiters[1..]);
      assert Ordered(s.offered, s.kept, |s.values|, q', s.dropped);
      OrderedExtends(s.offered, s.kept, |s.values|, q', s.dropped, value);
    } else if PushKind(s.q).Dropped? {
      assert forall i :: 0 <= i < |s.kept| ==> (s.offered + [value])[s.kept[i]] == s.offered[s.kept[i]];
    }
  }

  lemma PushKeepsChannels(s: State, value: string)
    requires Shape(s.q) && Channels(s)
    ensures Channels(DoPush(s, value))
  {
    if PushKind(s.q).Handed? {
      var w := s.q.waiters[0];
      assert w in s.q.waiters;
      assert forall v :: v in s.q.waiters[1..] <==> v in s.q.waiters && v != w;
    }
  }

  lemma PushKeepsReceivers(s: State, value: string)
    requires Receivers(s) && Channels(s)
    ensures Receivers(DoPush(s, value))
  {
    if PushKind(s.q).Handed? {
      assert s.q.waiters[0] in s.q.waiters;
    }
  }

  lemma PushKeeps(s: State, value: string)
    requires Inv(s)
    ensures Inv(DoPush(s, value))
  {
    PushKeepsOrder(s, value);
    PushKeepsChannels(s, value);
    PushKeepsReceivers(s, value);
  }

  lemma FinishKeeps(s: State, error: Error)
    requires Inv(s)
    ensures Inv(DoFinish(s, error)) && DoFinish(s, error).q.closed.Some?
  {
  }

  lemma AwaitKeepsOrder(s: State, w: Load)
    requires Shape(s.q) && InOrder(s)
    ensures InOrder(DoAwait(s, w))
  {
    if s.q.pending != [] {
      TakeOrdered(s.offered, s.kept, s.values, s.q, s.dropped);
    }
  }

  lemma AwaitKeepsReceivers(s: State, w: Load)
    requires Receivers(s) && w !in s.started && w !in s.channels
    ensures Receivers(DoAwait(s, w))
  {
    assert w !in s.receivers;
  }

  lemma AwaitKeeps(s: State, w: Load)
    requires Inv(s) && s.loop == Ready && w !in s.started
    ensures Inv(DoAwait(s, w))
  {
    AwaitKeepsOrder(s, w);
    AwaitKeepsReceivers(s, w);
    assert w !in s.q.waiters;
  }

  lemma WithoutDistinct(ws: seq<Load>, w: Load)
    requires Distinct(ws)
    ensures Distinct(Without(ws, w)) && w !in Without(ws, w) && |Without(ws, w)| <= |ws|
  {
    if w in ws {
      var i :| 0 <= i < |ws| && ws[i] == w;
      WithoutAt(ws, w, i);
    }
  }

  lemma WithdrawKeeps(s: State)
    requires Inv(s) && s.loop.Starting?
    ensures Inv(Apply(s, TaskRefused))
  {
    WithoutDistinct(s.q.waiters, s.loop.w);
  }

  lemma StepKeepsInv(s: State, a: Action)
    requires Inv(s) && Enabled(s, a)
    ensures Inv(Apply(s, a)) && Apply(s, a).q.limit == s.q.limit
  {
    match a
    case Push(value) => PushKeeps(s, value);
    case Cancel(reason) => FinishKeeps(s, ContextDone(reason));
    case Await(w) => AwaitKeeps(s, w);
    case FinishOverflow => FinishKeeps(s, BacklogOverflow);
    case TaskRefused => WithdrawKeeps(s);
    case _ =>
  }

  /** Every reachable state of a queue with a positive limit satisfies the invariant. */
  lemma {:induction false} RunKeepsInv(limit: nat, states: seq<State>, actions: seq<Action>, i: nat)
    requires limit >= 1 && IsRun(limit, states, actions) && i < |states|
    ensures Inv(states[i]) && states[i].q.limit == limit
  {
    if i > 0 {
      RunKeepsInv(limit, states, actions, i - 1);
      StepKeepsInv(states[i - 1], actions[i - 1]);
    }
  }

  function ValuesAt(offered: seq<string>, at: seq<nat>): seq<string>
    requires forall i :: 0 <= i < |at| ==> at[i] < |offered|
  {
    seq(|at|, i requires 0 <= i < |at| => offered[at[i]])
  }

  /** The values of the pushes before step i that found the stream open. */
  ghost function PushedOpen(states: seq<State>, actions: seq<Action>, i: nat): seq<string>
    requires i <= |actions| && i < |states|
  {
    if i == 0 then []
    else
      var before := PushedOpen(states, actions, i - 1);
      var a := actions[i - 1];
      if a.Push? && states[i - 1].q.closed.None? then before + [a.value] else before
  }

  lemma OfferedNext(s: State, a: Action)
    requires Enabled(s, a)
    ensures Apply(s, a).offered == if a.Push? && s.q.closed.None? then s.offered + [a.value] else s.offered
  {
  }

  lemma {:induction false} OfferedArePushed(limit: nat, states: seq<State>, actions: seq<Action>, i: nat)
    requires IsRun(limit, states, actions) && i < |states|
    ensures states[i].offered == PushedOpen(states, actions, i)
  {
    if i > 0 {
      OfferedArePushed(limit, states, actions, i - 1);
      OfferedNext(states[i - 1], actions[i - 1]);
    }
  }

  /** In every run: values on one side or loads on the other, never more than the limit, and
      a closed stream holds neither. */
  lemma OneSided(limit: nat, states: seq<State>, actions: seq<Action>, i: nat)
    requires limit >= 1 && IsRun(limit, states, actions) && i < |states|
    ensures var q := states[i].q;
            && |q.pending| <= limit
            && (q.pending == [] || q.waiters == [])
            && (q.closed.Some? ==> q.pending == [] && q.waiters == [])
            && Distinct(q.waiters)
  {
    RunKeepsInv(limit, states, actions, i);
  }

  /** Refinement of a bounded FIFO.  While the stream is open, the values handed out followed
      by those pending are exactly what was pushed if and only if nothing was dropped; after
      a close without a drop, what was handed out is still a prefix of it. */
  lemma FifoUntilDropOrClose(limit: nat, states: seq<State>, actions: seq<Action>, i: nat)
    requires limit >= 1 && IsRun(limit, states, actions) && i < |states|
    ensures var s := states[i];
            && (!s.dropped ==> s.values <= s.offered)
            && (s.q.closed.None? ==> (s.values + s.q.pending == s.offered <==> !s.dropped))
  {
    RunKeepsInv(limit, states, actions, i);
    var s := states[i];
    if s.dropped {
      assert |s.values + s.q.pending| < |s.offered|;
    } else {
      if s.kept != [] {
        assert s.kept[|s.kept| - 1] < |s.offered|;
      }
      assert s.values == s.offered[..|s.values|];
      if s.q.closed.None? {
        forall j | 0 <= j < |s.q.pending| ensures s.q.pending[j] == s.offered[|s.values| + j] {
          assert s.kept[|s.values| + j] == |s.values| + j;
        }
        assert s.q.pending == s.offered[|s.values|..];
      }
    }
  }

  /** The values that loads received are pushed values in push order, also after a drop: they
      stand at increasing positions of what was pushed.  No load receives two of them. */
  lemma HandedInOrderOnce(limit: nat, states: seq<State>, actions: seq<Action>, i: nat)
    requires limit >= 1 && IsRun(limit, states, actions) && i < |states|
    ensures var s := states[i];
            && |s.values| == |s.receivers| <= |s.kept|
            && Increasing(s.Handed())
            && (forall k :: 0 <= k < |s.Handed()| ==> s.Handed()[k] < |s.offered|)
            && s.values == ValuesAt(s.offered, s.Handed())
            && Distinct(s.receivers)
  {
    RunKeepsInv(limit, states, actions, i);
  }
}
