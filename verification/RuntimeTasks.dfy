/** The closing handshake of a script runtime (pkg/filters/goja/runtime_state.go).

    A task is accepted by loading the closing flag, raising the task counter and loading
    the flag once more; shutdown sets the flag and waits until the counter is zero.  The
    three operations of a caller are separate steps here and every interleaving is a run. */
module RuntimeTasks {

  type Caller = nat

  /** Where a caller stands between two atomic operations of startTask and finishTask. */
  datatype Pc = Idle | SawOpen | Counted | Running | BackingOut

  datatype State = State(closing: bool, tasks: int, pcs: map<Caller, Pc>) {
    function At(c: Caller): Pc {
      if c in pcs then pcs[c] else Idle
    }

    function Move(c: Caller, pc: Pc): State {
      this.(pcs := pcs[c := pc])
    }
  }

  datatype Action =
    | Load(c: Caller)
    | Add(c: Caller)
    | Recheck(c: Caller)
    | BackOut(c: Caller)
    | Finish(c: Caller)
    | BeginClosing

  const INIT := State(false, 0, map[])

  predicate Enabled(s: State, a: Action) {
    match a
    case Load(c) => s.At(c) == Idle
    case Add(c) => s.At(c) == SawOpen
    case Recheck(c) => s.At(c) == Counted
    case BackOut(c) => s.At(c) == BackingOut
    case Finish(c) => s.At(c) == Running
    case BeginClosing => true
  }

  function Apply(s: State, a: Action): State
    requires Enabled(s, a)
  {
    match a
    case Load(c) => if s.closing then s else s.Move(c, SawOpen)
    case Add(c) => s.Move(c, Counted).(tasks := s.tasks + 1)
    case Recheck(c) => s.Move(c, if s.closing then BackingOut else Running)
    case BackOut(c) => s.Move(c, Idle).(tasks := s.tasks - 1)
    case Finish(c) => s.Move(c, Idle).(tasks := s.tasks - 1)
    case BeginClosing => s.(closing := true)
  }

  ghost predicate IsRun(states: seq<State>, actions: seq<Action>) {
    && |states| == |actions| + 1
    && states[0] == INIT
    && forall i :: 0 <= i < |actions| ==>
         Enabled(states[i], actions[i]) && states[i + 1] == Apply(states[i], actions[i])
  }

  predicate Holds(pc: Pc) {
    pc == Counted || pc == Running || pc == BackingOut
  }

  /** The callers the counter stands for. */
  function Holders(s: State): set<Caller> {
    set c | c in s.pcs && Holds(s.pcs[c])
  }

  ghost predicate Inv(s: State) {
    s.tasks == |Holders(s)|
  }

  /** No accepted task is running, and none can be accepted from here on. */
  ghost predicate Sealed(s: State) {
    s.closing && forall c :: s.At(c) != Running
  }

  lemma MoveHolders(s: State, c: Caller, pc: Pc)
    ensures Holders(s.Move(c, pc)) == if Holds(pc) then Holders(s) + {c} else Holders(s) - {c}
  {
  }

  lemma StepKeepsCount(s: State, a: Action)
    requires Inv(s) && Enabled(s, a)
    ensures Inv(Apply(s, a))
  {
    if !a.BeginClosing? && !(a.Load? && s.closing) {
      MoveHolders(s, a.c, Apply(s, a).At(a.c));
      assert Holds(s.At(a.c)) <==> a.c in Holders(s);
    }
    match a
    case Load(c) => assert s.closing || Apply(s, a).pcs == s.Move(c, SawOpen).pcs;
    case Add(c) => assert Apply(s, a).pcs == s.Move(c, Counted).pcs;
    case Recheck(c) => assert Holders(s) + {c} == Holders(s);
    case _ =>
  }

  /** In every state of every run the counter is the number of callers between their
      increment and their decrement; in particular it never goes negative. */
  lemma {:induction false} CounterIsHolders(states: seq<State>, actions: seq<Action>, i: nat)
    requires IsRun(states, actions) && i < |states|
    ensures Inv(states[i])
  {
    if i == 0 {
      assert Holders(INIT) == {};
    } else {
      CounterIsHolders(states, actions, i - 1);
      StepKeepsCount(states[i - 1], actions[i - 1]);
    }
  }

  lemma {:induction false} SealedForever(states: seq<State>, actions: seq<Action>, j: nat, k: nat)
    requires IsRun(states, actions) && j <= k < |states| && Sealed(states[j])
    ensures Sealed(states[k])
    decreases k
  {
    if j < k {
      SealedForever(states, actions, j, k - 1);
      var s, a := states[k - 1], actions[k - 1];
      forall c ensures states[k].At(c) != Running {
        assert s.At(c) != Running;
      }
    }
  }

  /** The handshake.  Once the flag is set and the counter is seen at zero, no accepted
      task runs then or later, whatever racing callers still do to the counter. */
  lemma ZeroAfterClosingIsFinal(states: seq<State>, actions: seq<Action>, j: nat, k: nat, c: Caller)
    requires IsRun(states, actions) && j <= k < |states|
    requires states[j].closing && states[j].tasks == 0
    ensures states[k].closing && states[k].At(c) != Running
    ensures k < |actions| && actions[k] == Recheck(c) ==> states[k + 1].At(c) == BackingOut
  {
    CounterIsHolders(states, actions, j);
    assert forall d :: states[j].At(d) == Running ==> d in Holders(states[j]);
    SealedForever(states, actions, j, k);
  }

  /** The observation at zero is not stable for the counter itself: a caller that loaded
      the flag before it was set raises the counter again and then backs out. */
  lemma CounterRisesAgain() returns (states: seq<State>, actions: seq<Action>)
    ensures IsRun(states, actions) && |actions| == 5
    ensures states[2].closing && states[2].tasks == 0
    ensures states[3].tasks == 1 && states[5].tasks == 0
  {
    actions := [Load(0), BeginClosing, Add(0), Recheck(0), BackOut(0)];
    var s1 := Apply(INIT, Load(0));
    var s2 := Apply(s1, BeginClosing);
    var s3 := Apply(s2, Add(0));
    var s4 := Apply(s3, Recheck(0));
    states := [INIT, s1, s2, s3, s4, Apply(s4, BackOut(0))];
  }

  /** A caller gets past the first load exactly if the flag is not set, and its task is accepted exactly
      if the flag is not set at the second load either. */
  lemma AcceptedIff(states: seq<State>, actions: seq<Action>, i: nat, c: Caller)
    requires IsRun(states, actions) && i < |actions|
    ensures actions[i] == Load(c) ==> states[i + 1].At(c) == if states[i].closing then Idle else SawOpen
    ensures actions[i] == Recheck(c) ==> states[i + 1].At(c) == if states[i].closing then BackingOut else Running
  {
    assert Enabled(states[i], actions[i]) && states[i + 1] == Apply(states[i], actions[i]);
  }

  lemma Extend(states: seq<State>, actions: seq<Action>, a: Action) returns (states': seq<State>, actions': seq<Action>)
    requires IsRun(states, actions) && Enabled(states[|actions|], a)
    ensures IsRun(states', actions') && states'[|actions'|] == Apply(states[|actions|], a)
  {
    states', actions' := states + [Apply(states[|actions|], a)], actions + [a];
  }

  /** As long as the runtime is open any idle caller can run a task and finish it, and the counter is
      back where it was. */
  lemma TaskRuns(states: seq<State>, actions: seq<Action>, c: Caller)
    returns (running: seq<State>, more: seq<Action>, done: seq<State>, all: seq<Action>)
    requires IsRun(states, actions) && !states[|actions|].closing && states[|actions|].At(c) == Idle
    ensures IsRun(running, more) && running[|more|].At(c) == Running
    ensures running[|more|].tasks == states[|actions|].tasks + 1
    ensures IsRun(done, all) && done[|all|].At(c) == Idle && done[|all|].tasks == states[|actions|].tasks
  {
    running, more := Extend(states, actions, Load(c));
    running, more := Extend(running, more, Add(c));
    running, more := Extend(running, more, Recheck(c));
    done, all := Extend(running, more, Finish(c));
  }

  /** The object itself.  `race` says whether shutdown begins between the increment and
      the second load of the flag. */
  class RuntimeState {
    var closing: bool
    var tasks: nat

    constructor ()
      ensures !closing && tasks == 0
    {
      closing, tasks := false, 0;
    }

    method StartTask(race: bool) returns (ok: bool)
      modifies this
      ensures ok <==> !closing
      ensures closing == (old(closing) || race)
      ensures tasks == old(tasks) + if ok then 1 else 0
    {
      if closing {
        return false;
      }
      tasks := tasks + 1;
      if race {
        BeginClosing();
      }
      if closing {
        tasks := tasks - 1;
        return false;
      }
      return true;
    }

    method FinishTask()
      requires tasks > 0
      modifies this`tasks
      ensures tasks == old(tasks) - 1
    {
      tasks := tasks - 1;
    }

    method BeginClosing()
      modifies this`closing
      ensures closing
    {
      closing := true;
    }
  }
}
