/** What loads see of the event queue over whole runs: which values reach them, in which order
    they are served, and what becomes of their channels. */
module EventQueueRuns {
  import opened EventQueue
  import opened Wrappers

  /** How many values had been pushed when the first one was dropped; all of them so far if
      none was. */
  ghost function Intact(states: seq<State>, i: nat): nat
    requires i < |states|
  {
    if i == 0 || !states[i].dropped then |states[i].offered| else Intact(states, i - 1)
  }

  /** Exactly the first n pushed values are kept in their own place. */
  ghost predicate InPlace(s: State, n: nat) {
    && (if s.dropped then n < |s.offered| else n == |s.offered|)
    && (s.q.closed.None? ==> n <= |s.kept|)
    && (forall k :: 0 <= k < |s.kept| ==> (s.kept[k] == k <==> k < n))
  }

  lemma PushKeepsPlace(s: State, value: string, n: nat)
    requires InOrder(s) && InPlace(s, n)
    ensures var t := DoPush(s, value); InPlace(t, if t.dropped then n else |t.offered|)
  {
  }

  lemma FinishKeepsPlace(s: State, error: Error, n: nat)
    requires InOrder(s) && InPlace(s, n)
    ensures InPlace(DoFinish(s, error), n)
  {
  }

  lemma StepKeepsPlace(s: State, a: Action, n: nat)
    requires InOrder(s) && InPlace(s, n) && Enabled(s, a)
    ensures var t := Apply(s, a); InPlace(t, if t.dropped then n else |t.offered|)
  {
    match a
    case Push(value) => PushKeepsPlace(s, value, n);
    case Cancel(reason) => FinishKeepsPlace(s, ContextDone(reason), n);
    case FinishOverflow => FinishKeepsPlace(s, BacklogOverflow, n);
    case _ =>
  }

  lemma PlaceNext(limit: nat, states: seq<State>, actions: seq<Action>, i: nat)
    requires limit >= 1 && IsRun(limit, states, actions) && i < |actions| && InPlace(states[i], Intact(states, i))
    ensures InPlace(states[i + 1], Intact(states, i + 1))
  {
    RunKeepsInv(limit, states, actions, i);
    StepKeepsPlace(states[i], actions[i], Intact(states, i));
  }

  lemma {:induction false} RunKeepsPlace(limit: nat, states: seq<State>, actions: seq<Action>, i: nat)
    requires limit >= 1 && IsRun(limit, states, actions) && i < |states|
    ensures InPlace(states[i], Intact(states, i))
  {
    if i > 0 {
      RunKeepsPlace(limit, states, actions, i - 1);
      PlaceNext(limit, states, actions, i - 1);
    }
  }

  /** The exact condition for prefix delivery, open or closed: loads have received the pushed
      values one by one from the first, with none missing, if and only if no more values were
      handed out than had been pushed before the first drop. */
  lemma {:induction false} PrefixDeliveredIff(limit: nat, states: seq<State>, actions: seq<Action>, i: nat)
    requires limit >= 1 && IsRun(limit, states, actions) && i < |states|
    ensures var s := states[i];
            && |s.values| == |s.receivers| <= |s.kept|
            && ((forall k :: 0 <= k < |s.values| ==> s.Handed()[k] == k) <==> |s.values| <= Intact(states, i))
  {
    RunKeepsInv(limit, states, actions, i);
    RunKeepsPlace(limit, states, actions, i);
    var s := states[i];
    assert forall k :: 0 <= k < |s.values| ==> s.Handed()[k] == s.kept[k];
    if |s.values| > Intact(states, i) {
      assert s.Handed()[Intact(states, i)] != Intact(states, i);
    }
  }

  /** The same for the texts: within the condition they are a prefix of what was pushed, and if
      no text was pushed twice, beyond it they are not. */
  lemma {:induction false} PrefixTextIff(limit: nat, states: seq<State>, actions: seq<Action>, i: nat)
    requires limit >= 1 && IsRun(limit, states, actions) && i < |states|
    ensures var s := states[i];
            && (|s.values| <= Intact(states, i) ==> s.values <= s.offered)
            && (Distinct(s.offered) ==> (s.values <= s.offered <==> |s.values| <= Intact(states, i)))
  {
    RunKeepsInv(limit, states, actions, i);
    RunKeepsPlace(limit, states, actions, i);
    var s, n := states[i], Intact(states, i);
    if |s.values| > n && s.values <= s.offered {
      assert s.values[n] == s.offered[n] == s.offered[s.kept[n]] && s.kept[n] != n;
    }
  }

  /** What a push does in a run.  On an open stream the value goes to the longest waiting load; with
      none waiting it is stored last; it is lost, and gets no position, if and only if no load
      waits and exactly as many values as the limit are pending. */
  lemma PushDropsIffFull(limit: nat, states: seq<State>, actions: seq<Action>, i: nat)
    requires limit >= 1 && IsRun(limit, states, actions) && i < |actions|
    requires actions[i].Push? && states[i].q.closed.None?
    ensures var s, t := states[i], states[i + 1];
            && (t.kept == s.kept <==> s.q.waiters == [] && |s.q.pending| == limit)
            && (t.kept == s.kept ==> t.dropped && t.q.pending == s.q.pending && t.values == s.values)
            && (t.kept != s.kept ==> t.kept == s.kept + [|s.offered|] && t.dropped == s.dropped)
            && (s.q.waiters != [] ==>
                  t.values == s.values + [actions[i].value] && t.receivers == s.receivers + [s.q.waiters[0]])
            && (s.q.waiters == [] && |s.q.pending| < limit ==> t.q.pending == s.q.pending + [actions[i].value])
  {
    RunKeepsInv(limit, states, actions, i);
  }

  /** Counting: as long as nothing was dropped, a push drops its value exactly if as many pushed
      values as the limit have not been handed out yet. */
  lemma FirstDropIff(limit: nat, states: seq<State>, actions: seq<Action>, i: nat)
    requires limit >= 1 && IsRun(limit, states, actions) && i < |actions|
    requires actions[i].Push? && states[i].q.closed.None? && !states[i].dropped
    ensures states[i + 1].dropped <==> |states[i].offered| - |states[i].values| == limit
  {
    RunKeepsInv(limit, states, actions, i);
    PushDropsIffFull(limit, states, actions, i);
  }

  /** Nothing but such a push drops a value. */
  lemma OnlyPushDrops(limit: nat, states: seq<State>, actions: seq<Action>, i: nat)
    requires limit >= 1 && IsRun(limit, states, actions) && i < |actions|
    requires !states[i].dropped && states[i + 1].dropped
    ensures actions[i].Push? && states[i].q.closed.None? && |states[i].offered| - |states[i].values| == limit
  {
    RunKeepsInv(limit, states, actions, i);
    if actions[i].Push? && states[i].q.closed.None? {
      FirstDropIff(limit, states, actions, i);
    }
  }

  // ---------------------------------------------------------------- the error of a closed stream

  /** The error an action would close the stream with. */
  function ErrorOf(a: Action): Option<Error> {
    match a
    case Cancel(reason) => Some(ContextDone(reason))
    case FinishOverflow => Some(BacklogOverflow)
    case _ => None
  }

  /** Every load that fails, fails with the error the stream was closed with. */
  ghost predicate OneError(s: State) {
    forall w :: w in s.channels ==>
      && (s.channels[w].Failing? ==> s.q.closed == Some(s.channels[w].error))
      && (s.channels[w].Answered? && s.channels[w].result.Failed? ==> s.q.closed == Some(s.channels[w].result.error))
  }

  lemma ErrorStep(s: State, a: Action)
    requires Inv(s) && Enabled(s, a) && OneError(s)
    ensures OneError(Apply(s, a))
    ensures Apply(s, a).q.closed == if s.q.closed.Some? then s.q.closed else ErrorOf(a)
  {
    var t := Apply(s, a);
    forall w | w in t.channels && w in s.channels
      ensures t.channels[w].Failing? ==> t.q.closed == Some(t.channels[w].error)
      ensures t.channels[w].Answered? && t.channels[w].result.Failed? ==> t.q.closed == Some(t.channels[w].result.error)
    {
      assert s.channels[w].Failing? ==> s.q.closed == Some(s.channels[w].error);
    }
  }

  lemma ErrorNext(limit: nat, states: seq<State>, actions: seq<Action>, i: nat)
    requires limit >= 1 && IsRun(limit, states, actions) && i < |actions| && OneError(states[i])
    ensures OneError(states[i + 1])
    ensures states[i + 1].q.closed == if states[i].q.closed.Some? then states[i].q.closed else ErrorOf(actions[i])
  {
    RunKeepsInv(limit, states, actions, i);
    ErrorStep(states[i], actions[i]);
  }

  lemma {:induction false} RunHasOneError(limit: nat, states: seq<State>, actions: seq<Action>, i: nat)
    requires limit >= 1 && IsRun(limit, states, actions) && i < |states|
    ensures OneError(states[i])
  {
    if i > 0 {
      RunHasOneError(limit, states, actions, i - 1);
      ErrorNext(limit, states, actions, i - 1);
    }
  }

  lemma {:induction false} ClosedForGood(limit: nat, states: seq<State>, actions: seq<Action>, i: nat, j: nat)
    requires limit >= 1 && IsRun(limit, states, actions) && i <= j < |states| && states[i].q.closed.Some?
    ensures states[j].q.closed == states[i].q.closed
    decreases j
  {
    if i < j {
      ClosedForGood(limit, states, actions, i, j - 1);
      RunHasOneError(limit, states, actions, j - 1);
      ErrorNext(limit, states, actions, j - 1);
    }
  }

  /** The first error stands: whoever cancels the stream or reports its overflow first decides what
      every waiting load fails with, and every later load. */
  lemma FirstErrorStands(
      limit: nat, states: seq<State>, actions: seq<Action>, i: nat, j: nat, error: Error, w: Load)
    requires limit >= 1 && IsRun(limit, states, actions) && i < j < |states| && states[i].q.closed.None?
    requires (actions[i] == FinishOverflow && error == BacklogOverflow)
             || (actions[i].Cancel? && error == ContextDone(actions[i].reason))
    ensures var s := states[j];
            && s.q.closed == Some(error)
            && (Decide(s.q) == ReportOverflow || Decide(s.q) == Reject(error))
            && (w in s.channels && s.channels[w].Answered? && s.channels[w].result.Failed? ==>
                  s.channels[w].result.error == error)
            && (w in states[i].q.waiters ==>
                  w in states[i + 1].channels && states[i + 1].channels[w] == Failing(error))
  {
    RunHasOneError(limit, states, actions, i);
    ErrorNext(limit, states, actions, i);
    ClosedForGood(limit, states, actions, i + 1, j);
    RunHasOneError(limit, states, actions, j);
    RunKeepsInv(limit, states, actions, i);
    RunKeepsInv(limit, states, actions, j);
    assert states[i + 1] == Apply(states[i], actions[i]);
  }

  /** A channel that was answered with a value received the value handed to that load. */
  lemma ChannelGotItsValue(limit: nat, states: seq<State>, actions: seq<Action>, i: nat, w: Load)
    requires limit >= 1 && IsRun(limit, states, actions) && i < |states| && w in states[i].channels
    requires states[i].channels[w].Answered? && states[i].channels[w].result.Value?
    ensures |states[i].values| == |states[i].receivers|
    ensures exists k :: 0 <= k < |states[i].receivers| && states[i].receivers[k] == w
                        && states[i].values[k] == states[i].channels[w].result.value
  {
    RunKeepsInv(limit, states, actions, i);
  }

  /** No load waits past a gap.  After a drop nothing waits, and no later load is enqueued;
      the first load that finds nothing pending reports the overflow and closes the stream. */
  lemma NoLoadWaitsPastGap(limit: nat, states: seq<State>, actions: seq<Action>, i: nat)
    requires limit >= 1 && IsRun(limit, states, actions) && i < |actions| && states[i].dropped
    ensures states[i].q.waiters == []
    ensures actions[i].Await? ==> !Decide(states[i].q).Wait?
    ensures actions[i].Await? && states[i].q.pending == [] && !states[i].reported ==>
              Decide(states[i].q).ReportOverflow? && states[i + 1].loop == MustFinish
    ensures actions[i].FinishOverflow? ==> states[i + 1].q.closed.Some?
  {
    RunKeepsInv(limit, states, actions, i);
    FinishKeeps(states[i], BacklogOverflow);
  }

  ghost predicate Settled(s: State, w: Load) {
    w in s.channels && (s.channels[w].Answered? || s.channels[w].Withdrawn?)
  }

  lemma StepKeepsSettled(s: State, a: Action, w: Load)
    requires Inv(s) && Enabled(s, a) && Settled(s, w)
    ensures Settled(Apply(s, a), w) && Apply(s, a).channels[w] == s.channels[w]
  {
    assert w !in s.q.waiters;
    assert a.Push? && PushKind(s.q).Handed? ==> s.q.waiters[0] in s.q.waiters;
  }

  /** A channel that has its one result keeps it, and one that was withdrawn stays so. */
  lemma {:induction false} OneResultPerChannel(
      limit: nat, states: seq<State>, actions: seq<Action>, i: nat, j: nat, w: Load)
    requires limit >= 1 && IsRun(limit, states, actions) && i <= j < |states|
    requires Settled(states[i], w)
    ensures Settled(states[j], w) && states[j].channels[w] == states[i].channels[w]
    decreases j
  {
    if i < j {
      OneResultPerChannel(limit, states, actions, i, j - 1, w);
      RunKeepsInv(limit, states, actions, j - 1);
      StepKeepsSettled(states[j - 1], actions[j - 1], w);
    }
  }

  /** Once the stream is closed and the errors taken by finish are sent, every load that
      was enqueued has its result or was withdrawn. */
  lemma ClosedStreamAnswersEveryLoad(limit: nat, states: seq<State>, actions: seq<Action>, i: nat, w: Load)
    requires limit >= 1 && IsRun(limit, states, actions) && i < |states|
    requires states[i].q.closed.Some? && w in states[i].channels && !states[i].channels[w].Failing?
    ensures states[i].channels[w].Answered? || states[i].channels[w].Withdrawn?
  {
    RunKeepsInv(limit, states, actions, i);
    assert w !in states[i].q.waiters;
  }

  lemma WithdrawnStep(s: State, a: Action, w: Load)
    requires Inv(s) && Enabled(s, a)
    requires w in Apply(s, a).channels && Apply(s, a).channels[w].Withdrawn?
    ensures (w in s.channels && s.channels[w].Withdrawn?) || (a == TaskRefused && s.loop == Starting(w))
  {
  }

  lemma WithdrawnNext(limit: nat, states: seq<State>, actions: seq<Action>, i: nat, w: Load)
    requires limit >= 1 && IsRun(limit, states, actions) && i < |actions| && IsWithdrawn(states[i + 1], w)
    ensures IsWithdrawn(states[i], w) || (actions[i] == TaskRefused && states[i].loop == Starting(w))
  {
    RunKeepsInv(limit, states, actions, i);
    WithdrawnStep(states[i], actions[i], w);
  }

  /** A channel is withdrawn only by the section that follows its own load's refused task. */
  lemma {:induction false} WithdrawnOnlyByRefusal(
      limit: nat, states: seq<State>, actions: seq<Action>, i: nat, w: Load)
    requires limit >= 1 && IsRun(limit, states, actions) && i < |states| && IsWithdrawn(states[i], w)
    ensures exists k :: 0 <= k < i && actions[k] == TaskRefused && states[k].loop == Starting(w)
  {
    if i > 0 {
      WithdrawnNext(limit, states, actions, i - 1, w);
      if IsWithdrawn(states[i - 1], w) {
        WithdrawnOnlyByRefusal(limit, states, actions, i - 1, w);
      }
    }
  }

  ghost predicate IsWithdrawn(s: State, v: Load) {
    v in s.channels && s.channels[v].Withdrawn?
  }

  /** A load whose task is refused leaves the waiter list, and its channel is withdrawn unless it
      has its result already or is about to fail. */
  lemma RefusedLoadLeaves(limit: nat, states: seq<State>, actions: seq<Action>, i: nat)
    requires limit >= 1 && IsRun(limit, states, actions) && i < |actions| && actions[i] == TaskRefused
    ensures states[i].loop.Starting?
    ensures var s, t, w := states[i], states[i + 1], states[i].loop.w;
            && w !in t.q.waiters && w in s.channels && w in t.channels
            && t.channels[w] == if s.channels[w].Listed? then Withdrawn else s.channels[w]
  {
    RunKeepsInv(limit, states, actions, i);
    WithoutDistinct(states[i].q.waiters, states[i].loop.w);
  }

  ghost predicate Before(ws: seq<Load>, w: Load, v: Load) {
    exists i, j :: 0 <= i < j < |ws| && ws[i] == w && ws[j] == v
  }

  lemma TailBefore(ws: seq<Load>, w: Load, v: Load)
    requires Before(ws, w, v) && w in ws[1..] && Distinct(ws)
    ensures Before(ws[1..], w, v)
  {
    var i, j :| 0 <= i < j < |ws| && ws[i] == w && ws[j] == v;
    assert i > 0 && ws[1..][i - 1] == w && ws[1..][j - 1] == v;
  }

  lemma BeforeCons(h: Load, rest: seq<Load>, w: Load, v: Load)
    requires Before(rest, w, v) || (w == h && v in rest)
    ensures Before([h] + rest, w, v)
  {
    if Before(rest, w, v) {
      var i, j :| 0 <= i < j < |rest| && rest[i] == w && rest[j] == v;
      assert ([h] + rest)[i + 1] == w && ([h] + rest)[j + 1] == v;
    } else {
      var j :| 0 <= j < |rest| && rest[j] == v;
      assert ([h] + rest)[0] == w && ([h] + rest)[j + 1] == v;
    }
  }

  lemma BeforeTail(ws: seq<Load>, w: Load, v: Load)
    requires Before(ws, w, v)
    ensures Before(ws[1..], w, v) || (w == ws[0] && v in ws[1..])
  {
    var i, j :| 0 <= i < j < |ws| && ws[i] == w && ws[j] == v;
    assert ws[1..][j - 1] == v && (i > 0 ==> ws[1..][i - 1] == w);
  }

  lemma {:induction false} WithoutBefore(ws: seq<Load>, w: Load, v: Load, x: Load)
    requires Before(ws, w, v) && x != w && x != v
    ensures Before(Without(ws, x), w, v)
  {
    BeforeTail(ws, w, v);
    if ws[0] != x {
      if Before(ws[1..], w, v) {
        WithoutBefore(ws[1..], w, v, x);
      }
      BeforeCons(ws[0], Without(ws[1..], x), w, v);
    }
  }

  lemma WithoutKeepsOrder(ws: seq<Load>, w: Load, v: Load, x: Load)
    requires Distinct(ws) && Before(ws, w, v) && w in Without(ws, x)
    ensures x == v || Before(Without(ws, x), w, v)
  {
    WithoutDistinct(ws, x);
    if x != v {
      WithoutBefore(ws, w, v, x);
    }
  }

  lemma RefusedKeepsOrder(s: State, w: Load, v: Load)
    requires Inv(s) && s.loop.Starting? && Before(s.q.waiters, w, v)
    requires w in Apply(s, TaskRefused).q.waiters
    ensures Before(Apply(s, TaskRefused).q.waiters, w, v) || IsWithdrawn(Apply(s, TaskRefused), v)
  {
    WithoutKeepsOrder(s.q.waiters, w, v, s.loop.w);
    assert v in s.q.waiters;
  }

  lemma StepKeepsOrder(s: State, a: Action, w: Load, v: Load)
    requires Inv(s) && Enabled(s, a) && Before(s.q.waiters, w, v) && w in Apply(s, a).q.waiters
    ensures Before(Apply(s, a).q.waiters, w, v) || IsWithdrawn(Apply(s, a), v)
  {
    match a
    case Push(_) =>
      if PushKind(s.q).Handed? {
        TailBefore(s.q.waiters, w, v);
      }
    case Await(x) =>
      var i, j :| 0 <= i < j < |s.q.waiters| && s.q.waiters[i] == w && s.q.waiters[j] == v;
      assert Apply(s, a).q.waiters[i] == w && Apply(s, a).q.waiters[j] == v;
    case TaskRefused => RefusedKeepsOrder(s, w, v);
    case _ =>
  }

  /** Only a load that was never started enters the waiter list, and it enters at the end. */
  lemma NewcomerIsLast(s: State, a: Action, w: Load)
    requires Inv(s) && Enabled(s, a) && w in Apply(s, a).q.waiters && w !in s.q.waiters
    ensures a == Await(w) && w !in s.started && Apply(s, a).q.waiters == s.q.waiters + [w]
  {
  }

  /** In every run the waiter list only ever grows at its end, by a load started just then. */
  lemma NewcomersLast(limit: nat, states: seq<State>, actions: seq<Action>, i: nat, w: Load)
    requires limit >= 1 && IsRun(limit, states, actions) && i < |actions|
    requires w in states[i + 1].q.waiters && w !in states[i].q.waiters
    ensures actions[i] == Await(w) && w !in states[i].started && states[i + 1].q.waiters == states[i].q.waiters + [w]
  {
    RunKeepsInv(limit, states, actions, i);
    NewcomerIsLast(states[i], actions[i], w);
  }

  /** w is ahead of v, or will not be overtaken any more. */
  ghost predicate Ahead(s: State, w: Load, v: Load) {
    && w in s.started
    && (w in s.q.waiters ==> Before(s.q.waiters, w, v) || IsWithdrawn(s, v))
  }

  ghost predicate Steps(s: State, a: Action, t: State) {
    Inv(s) && Enabled(s, a) && Apply(s, a) == t
  }

  lemma RunSteps(limit: nat, states: seq<State>, actions: seq<Action>, i: nat)
    requires limit >= 1 && IsRun(limit, states, actions) && i < |actions|
    ensures Steps(states[i], actions[i], states[i + 1])
  {
    RunKeepsInv(limit, states, actions, i);
  }

  lemma StartedStays(s: State, a: Action, t: State, w: Load)
    requires Steps(s, a, t) && w in s.started
    ensures w in t.started
  {
  }

  lemma StaysAhead(s: State, a: Action, t: State, w: Load, v: Load)
    requires Steps(s, a, t) && Ahead(s, w, v)
    ensures Ahead(t, w, v)
  {
    StartedStays(s, a, t, w);
    if w in t.q.waiters {
      if w !in s.q.waiters {
        NewcomerIsLast(s, a, w);
      } else if Before(s.q.waiters, w, v) {
        StepKeepsOrder(s, a, w, v);
      } else {
        StepKeepsSettled(s, a, v);
      }
    }
  }

  lemma AheadNow(limit: nat, states: seq<State>, actions: seq<Action>, i: nat, w: Load, v: Load)
    requires limit >= 1 && IsRun(limit, states, actions) && i < |states| && Before(states[i].q.waiters, w, v)
    ensures Ahead(states[i], w, v)
  {
    RunKeepsInv(limit, states, actions, i);
    assert w in states[i].q.waiters;
  }

  lemma AheadNext(limit: nat, states: seq<State>, actions: seq<Action>, i: nat, w: Load, v: Load)
    requires limit >= 1 && IsRun(limit, states, actions) && i < |actions| && Ahead(states[i], w, v)
    ensures Ahead(states[i + 1], w, v)
  {
    RunSteps(limit, states, actions, i);
    StaysAhead(states[i], actions[i], states[i + 1], w, v);
  }

  /** Loads are served in the order they came: as long as an earlier one waits, a later one
      waits behind it, unless it was withdrawn. */
  lemma {:induction false} WaitersInOrder(
      limit: nat, states: seq<State>, actions: seq<Action>, i: nat, j: nat, w: Load, v: Load)
    requires limit >= 1 && IsRun(limit, states, actions) && i <= j < |states|
    requires Before(states[i].q.waiters, w, v)
    ensures Ahead(states[j], w, v)
    decreases j
  {
    if i < j {
      WaitersInOrder(limit, states, actions, i, j - 1, w, v);
      AheadNext(limit, states, actions, j - 1, w, v);
    } else {
      AheadNow(limit, states, actions, i, w, v);
    }
  }

  lemma Extend(limit: nat, states: seq<State>, actions: seq<Action>, a: Action, t: State)
    returns (states': seq<State>, actions': seq<Action>)
    requires IsRun(limit, states, actions)
    requires Enabled(states[|actions|], a) && Apply(states[|actions|], a) == t
    ensures IsRun(limit, states', actions') && states'[|actions'|] == t && |actions'| == |actions| + 1
  {
    states', actions' := states + [t], actions + [a];
  }

  /** With limit 1: push a, push b, which is dropped, and load a. */
  lemma DropSecond(a: string, b: string) returns (states: seq<State>, actions: seq<Action>)
    ensures IsRun(1, states, actions) && |actions| == 3
    ensures states[3] == State(Queue([], [], None, true, 1), Ready, map[], {0}, [a, b], [0], [a], [0], true, false)
  {
    var full, over := Queue([a], [], None, false, 1), Queue([a], [], None, true, 1);
    states, actions := [Init(1)], [];
    states, actions := Extend(1, states, actions, Push(a),
      State(full, Ready, map[], {}, [a], [0], [], [], false, false));
    states, actions := Extend(1, states, actions, Push(b),
      State(over, Ready, map[], {}, [a, b], [0], [], [], true, false));
    states, actions := Extend(1, states, actions, Await(0),
      State(over.(pending := []), Ready, map[], {0}, [a, b], [0], [a], [0], true, false));
  }

  /** The rest of the run: push c, and load once more. */
  lemma SkipSecond(a: string, b: string, c: string) returns (states: seq<State>, actions: seq<Action>)
    ensures IsRun(1, states, actions) && |actions| == 5
    ensures states[5] ==
      State(Queue([], [], None, true, 1), Ready, map[], {0, 1}, [a, b, c], [0, 2], [a, c], [0, 1], true, false)
  {
    var none := Queue([], [], None, true, 1);
    states, actions := DropSecond(a, b);
    states, actions := Extend(1, states, actions, Push(c),
      State(none.(pending := [c]), Ready, map[], {0}, [a, b, c], [0, 2], [a], [0], true, false));
    states, actions := Extend(1, states, actions, Await(1),
      State(none, Ready, map[], {0, 1}, [a, b, c], [0, 2], [a, c], [0, 1], true, false));
  }

  /** The failing run: after a drop a later value can be stored and delivered, and then what
      was handed out is no prefix of what was pushed. */
  lemma DeliveryCanSkip(a: string, b: string, c: string) returns (states: seq<State>, actions: seq<Action>)
    ensures IsRun(1, states, actions) && |actions| == 5
    ensures states[5].offered == [a, b, c] && states[5].values == [a, c]
    ensures |states[5].values| > Intact(states, 5) && (b != c ==> !(states[5].values <= states[5].offered))
  {
    states, actions := SkipSecond(a, b, c);
    PrefixDeliveredIff(1, states, actions, 5);
    assert states[5].Handed()[1] == 2;
    assert states[5].values[1] == c && states[5].offered[1] == b;
  }

  /** A load that finds an open stream empty waits, and gets the value of the next push. */
  lemma NextPushIsHanded(limit: nat, states: seq<State>, actions: seq<Action>, w: Load, value: string)
    returns (states': seq<State>, actions': seq<Action>)
    requires limit >= 1 && IsRun(limit, states, actions)
    requires states[|actions|].loop == Ready && w !in states[|actions|].started
    requires var q := states[|actions|].q; q.closed.None? && !q.overflow && q.pending == [] && q.waiters == []
    ensures IsRun(limit, states', actions')
    ensures var t := states'[|actions'|];
            t.loop == Ready && w in t.channels && t.channels[w] == Answered(Value(value)) && t.q == states[|actions|].q
  {
    var s := states[|actions|];
    var listed := s.(q := s.q.(waiters := [w]), started := s.started + {w}, channels := s.channels[w := Listed]);
    RunKeepsInv(limit, states, actions, |actions|);
    assert s.q.waiters + [w] == [w] && [w][1..] == [];
    states', actions' := Extend(limit, states, actions, Await(w), listed.(loop := Starting(w)));
    states', actions' := Extend(limit, states', actions', TaskStarted, listed.(loop := Ready));
    states', actions' := Extend(limit, states', actions', Push(value), DoPush(listed.(loop := Ready), value));
  }
}
