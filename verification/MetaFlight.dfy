/** The metadata single-flight (pkg/core/meta.go) with the alias Binds it runs.

    A run is one refresh.  It is entered in the `updates` table under a lock, refreshes,
    perhaps binds aliases one store operation at a time, leaves the table and closes its
    done channel; a triggered run also holds one refresh slot until it is over. */
module MetaFlight {
  import opened AliasStore
  import opened Wrappers

  type RunId = nat
  type WaiterId = nat
  type Meta = nat

  datatype Error = NotExist | BackendError(code: nat) | ConfigError(code: nat) | Panicked

  /** The two result fields of a metaUpdate. */
  datatype Update = Update(meta: Option<Meta>, err: Option<Error>)

  predicate Complete(u: Update) {
    u.meta.Some? <==> u.err.None?
  }

  /** Where refreshMeta returns without reaching Bind. */
  datatype Findings =
    | CachedPage(meta: Meta)
    | CachedMissing
    | RepoMissing
    | BackendFailed(code: nat)
    | NoPageFiles
    | BadConfig(code: nat)

  function EarlyReturn(f: Findings): Update {
    match f
    case CachedPage(meta) => Update(Some(meta), None)
    case CachedMissing => Update(None, Some(NotExist))
    case RepoMissing => Update(None, Some(NotExist))
    case BackendFailed(code) => Update(None, Some(BackendError(code)))
    case NoPageFiles => Update(None, Some(NotExist))
    case BadConfig(code) => Update(None, Some(ConfigError(code)))
  }

  // ---------------------------------------------------------------- the objects

  /** metaUpdate: its fields are read once done is closed. */
  class MetaUpdate {
    var meta: Option<Meta>
    var err: Option<Error>
    var done: bool

    constructor ()
      ensures !done && View() == Update(None, None)
    {
      meta, err, done := None, None, false;
    }

    function View(): Update
      reads this
    {
      Update(meta, err)
    }
  }

  class ServerMeta {
    var updates: map<Repo, MetaUpdate>
    var refreshSlots: nat
    const refreshConcurrent: nat

    constructor (refreshConcurrent: nat)
      ensures Valid() && updates == map[] && refreshSlots == 0 && this.refreshConcurrent == refreshConcurrent
    {
      updates, refreshSlots, this.refreshConcurrent := map[], 0, refreshConcurrent;
    }

    /** The table holds unfinished updates, each for one repository. */
    ghost predicate Valid()
      reads this, updates.Values
    {
      && refreshSlots <= refreshConcurrent
      && (forall r :: r in updates ==> !updates[r].done)
      && (forall r, q :: r in updates && q in updates && r != q ==> updates[r] != updates[q])
    }

    /** Join the refresh under way, or start one; never a second one. */
    method GetOrStartMetaUpdate(repo: Repo) returns (update: MetaUpdate, started: bool)
      requires Valid()
      modifies this`updates
      ensures Valid() && updates == old(updates)[repo := update]
      ensures started <==> repo !in old(updates)
      ensures if started then fresh(update) && update.View() == Update(None, None) else update == old(updates)[repo]
    {
      if repo in updates {
        return updates[repo], false;
      }
      update := new MetaUpdate();
      updates := updates[repo := update];
      started := true;
    }

    /** Start a refresh in the background if none is under way and a slot is free. */
    method TriggerMetaRefresh(repo: Repo) returns (update: MetaUpdate?)
      requires Valid()
      modifies this
      ensures Valid()
      ensures update == null <==> repo in old(updates) || old(refreshSlots) == refreshConcurrent
      ensures update == null ==> updates == old(updates) && refreshSlots == old(refreshSlots)
      ensures update != null ==>
        fresh(update) && updates == old(updates)[repo := update] && refreshSlots == old(refreshSlots) + 1
    {
      if repo in updates || refreshSlots >= refreshConcurrent {
        return null;
      }
      refreshSlots := refreshSlots + 1;
      update := new MetaUpdate();
      updates := updates[repo := update];
    }

    /** runMetaUpdate around a refresh that returned a result, or panicked: the result is set,
        then the table entry goes, then done is closed, then a slot is given back. */
    method RunMetaUpdate(repo: Repo, update: MetaUpdate, triggered: bool, refreshed: Option<Update>)
      requires Valid() && repo in updates && updates[repo] == update
      requires refreshed.Some? ==> Complete(refreshed.value)
      requires triggered ==> refreshSlots > 0
      modifies this, update
      ensures Valid() && update.done && Complete(update.View())
      ensures update.View() == if refreshed.Some? then refreshed.value else Update(None, Some(Panicked))
      ensures updates == old(updates) - {repo} && update !in updates.Values
      ensures refreshSlots == old(refreshSlots) - if triggered then 1 else 0
    {
      if refreshed.Some? {
        update.meta, update.err := refreshed.value.meta, refreshed.value.err;
      } else {
        update.meta, update.err := None, Some(Panicked);
      }
      updates := updates - {repo};
      update.done := true;
      if triggered {
        refreshSlots := refreshSlots - 1;
      }
    }
  }

  // ---------------------------------------------------------------- interleavings

  datatype Phase =
    | Working
    | Binding(meta: Meta, ds: seq<string>, pc: BindPc)
    | Returned(u: Update)  // result fields set, still in the table
    | Unlisted(u: Update)  // out of the table, done channel still open
    | Closed(u: Update)    // done channel closed, slot not yet given back
    | Gone(u: Update)

  datatype Run = Run(repo: Repo, triggered: bool, phase: Phase)

  datatype Waiter = Waiter(run: RunId, got: Option<Update>, gaveUp: bool)

  datatype State = State(
    kv: Store, updates: map<Repo, RunId>, runs: map<RunId, Run>, next: RunId,
    slots: int, capacity: nat, waiters: map<WaiterId, Waiter>)
  {
    function In(u: RunId, phase: Phase): State
      requires u in runs
    {
      this.(runs := runs[u := runs[u].(phase := phase)])
    }
  }

  datatype Action =
    | Trigger(repo: Repo)
    | WaitFor(repo: Repo, w: WaiterId)
    | Wake(w: WaiterId)
    | GiveUp(w: WaiterId)
    | Return(u: RunId, f: Findings)
    | Panic(u: RunId)
    | StartBind(u: RunId, meta: Meta, ds: seq<string>)
    | StoreOp(u: RunId)
    | FinishBind(u: RunId)
    | Unlist(u: RunId)
    | CloseDone(u: RunId)
    | FreeSlot(u: RunId)

  function Init(capacity: nat): State {
    State(map[], map[], map[], 0, 0, capacity, map[])
  }

  predicate Bound(p: Phase) {
    p.Binding? && p.pc == DONE
  }

  predicate Over(p: Phase) {
    p.Closed? || p.Gone?
  }

  /** Its result fields are set. */
  predicate HasResult(p: Phase) {
    !p.Working? && !p.Binding?
  }

  /** Store operations are assumed to succeed, so a run panics outside them. */
  predicate Enabled(s: State, a: Action) {
    match a
    case Trigger(_) => true
    case WaitFor(_, w) => w !in s.waiters
    case Wake(w) =>
      w in s.waiters && s.waiters[w].got.None? && !s.waiters[w].gaveUp && s.waiters[w].run in s.runs
      && Over(s.runs[s.waiters[w].run].phase)
    case GiveUp(w) => w in s.waiters && s.waiters[w].got.None?
    case Return(u, _) => u in s.runs && s.runs[u].phase.Working?
    case Panic(u) => u in s.runs && (s.runs[u].phase.Working? || Bound(s.runs[u].phase))
    case StartBind(u, _, ds) => u in s.runs && s.runs[u].phase.Working? && forall d :: d in ds ==> IsHostname(d)
    case StoreOp(u) => u in s.runs && s.runs[u].phase.Binding? && s.runs[u].phase.pc != DONE
    case FinishBind(u) => u in s.runs && Bound(s.runs[u].phase)
    case Unlist(u) => u in s.runs && s.runs[u].phase.Returned?
    case CloseDone(u) => u in s.runs && s.runs[u].phase.Unlisted?
    case FreeSlot(u) => u in s.runs && s.runs[u].phase.Closed? && s.runs[u].triggered
  }

  /** Enter a new run in the table. */
  function Start(s: State, repo: Repo, triggered: bool): State {
    s.(updates := s.updates[repo := s.next],
       runs := s.runs[s.next := Run(repo, triggered, Working)], next := s.next + 1,
       slots := if triggered then s.slots + 1 else s.slots)
  }

  function DoStoreOp(s: State, u: RunId): State
    requires Enabled(s, StoreOp(u))
  {
    var run := s.runs[u];
    var (kv, pc) := BindStep(s.kv, run.repo, run.phase.ds, run.phase.pc);
    s.In(u, run.phase.(pc := pc)).(kv := kv)
  }

  function Apply(s: State, a: Action): State
    requires Enabled(s, a)
  {
    match a
    case Trigger(repo) =>
      if repo in s.updates || s.slots >= s.capacity then s else Start(s, repo, true)
    case WaitFor(repo, w) =>
      if repo in s.updates then s.(waiters := s.waiters[w := Waiter(s.updates[repo], None, false)])
      else Start(s, repo, false).(waiters := s.waiters[w := Waiter(s.next, None, false)])
    case Wake(w) => s.(waiters := s.waiters[w := s.waiters[w].(got := Some(s.runs[s.waiters[w].run].phase.u))])
    case GiveUp(w) => s.(waiters := s.waiters[w := s.waiters[w].(gaveUp := true)])
    case Return(u, f) => s.In(u, Returned(EarlyReturn(f)))
    case Panic(u) => s.In(u, Returned(Update(None, Some(Panicked))))
    case StartBind(u, meta, ds) => s.In(u, Binding(meta, ds, Try))
    case StoreOp(u) => DoStoreOp(s, u)
    case FinishBind(u) => s.In(u, Returned(Update(Some(s.runs[u].phase.meta), None)))
    case Unlist(u) => s.In(u, Unlisted(s.runs[u].phase.u)).(updates := s.updates - {s.runs[u].repo})
    case CloseDone(u) => s.In(u, Closed(s.runs[u].phase.u))
    case FreeSlot(u) => s.In(u, Gone(s.runs[u].phase.u)).(slots := s.slots - 1)
  }

  ghost predicate IsRun(capacity: nat, states: seq<State>, actions: seq<Action>) {
    && |states| == |actions| + 1
    && states[0] == Init(capacity)
    && forall i :: 0 <= i < |actions| ==>
         Enabled(states[i], actions[i]) && states[i + 1] == Apply(states[i], actions[i])
  }

  /** The run has not yet left the table. */
  predicate Live(p: Phase) {
    p.Working? || p.Binding? || p.Returned?
  }

  /** The table holds exactly the live runs, each under its own repository. */
  ghost predicate Flight(s: State) {
    && (forall r :: r in s.updates ==>
          s.updates[r] in s.runs && s.runs[s.updates[r]].repo == r && Live(s.runs[s.updates[r]].phase))
    && (forall u: RunId :: u in s.runs ==> u < s.next)
    && (forall u: RunId :: u in s.runs && Live(s.runs[u].phase) ==>
          s.runs[u].repo in s.updates && s.updates[s.runs[u].repo] == u)
  }

  /** The triggered runs that have not given their slot back. */
  function SlotHolders(runs: map<RunId, Run>): set<RunId> {
    set u | u in runs && runs[u].triggered && !runs[u].phase.Gone?
  }

  ghost predicate Slots(s: State) {
    s.slots == |SlotHolders(s.runs)| && s.slots <= s.capacity
  }

  /** A set result has exactly one field; woken waiters hold the result of a closed run. */
  ghost predicate Results(s: State) {
    && (forall u: RunId :: u in s.runs && HasResult(s.runs[u].phase) ==> Complete(s.runs[u].phase.u))
    && (forall w :: w in s.waiters ==> s.waiters[w].run in s.runs)
    && (forall w :: w in s.waiters && s.waiters[w].got.Some? ==>
          Over(s.runs[s.waiters[w].run].phase) && s.waiters[w].got.value == s.runs[s.waiters[w].run].phase.u)
  }

  /** Some Bind of r under way will still remove d. */
  ghost predicate AboutToRemove(s: State, u: RunId, r: Repo, d: string) {
    u in s.runs && s.runs[u].repo == r && s.runs[u].phase.Binding?
    && s.runs[u].phase.pc.Remove? && d in s.runs[u].phase.pc.rest
  }

  ghost predicate PointsTo(kv: Store, d: string, r: Repo) {
    Domain(d) in kv && kv[Domain(d)] == AliasOf(r)
  }

  /** Every stored alias is listed by its repository or about to be removed by it. */
  ghost predicate Aliases(s: State) {
    forall d, r :: PointsTo(s.kv, d, r) ==> d in Listed(s.kv, r) || exists u :: AboutToRemove(s, u, r, d)
  }

  /** Past the list write. */
  predicate Pointing(pc: BindPc) {
    pc.Remove? || pc.Point?
  }

  /** A Bind past its list write finds its own list in the store, and points only listed domains. */
  ghost predicate Progresses(kv: Store, run: Run) {
    run.phase.Binding? && Pointing(run.phase.pc) ==>
      && Listed(kv, run.repo) == run.phase.ds
      && (run.phase.pc.Point? ==> forall d :: d in run.phase.pc.rest ==> d in run.phase.ds)
  }

  ghost predicate Progress(s: State) {
    forall u: RunId :: u in s.runs ==> Progresses(s.kv, s.runs[u])
  }

  ghost predicate Inv(s: State) {
    Flight(s) && Slots(s) && Results(s) && Aliases(s) && Progress(s)
  }

  // ---------------------------------------------------------------- preservation

  /** The action moves a run from one phase to the next. */
  predicate Moves(a: Action) {
    !a.Trigger? && !a.WaitFor? && !a.Wake? && !a.GiveUp?
  }

  lemma OthersUnmoved(s: State, a: Action, v: RunId)
    requires Enabled(s, a) && v in s.runs && v != s.next
    ensures var t := Apply(s, a);
            && v in t.runs && t.runs[v].repo == s.runs[v].repo && t.runs[v].triggered == s.runs[v].triggered
            && ((Moves(a) && a.u == v) || t.runs[v] == s.runs[v])
  {
  }

  lemma StartKeepsFlight(s: State, repo: Repo, triggered: bool)
    requires Flight(s) && repo !in s.updates
    ensures Flight(Start(s, repo, triggered))
  {
  }

  lemma UnlistKeepsFlight(s: State, u: RunId)
    requires Flight(s) && Enabled(s, Unlist(u))
    ensures Flight(Apply(s, Unlist(u)))
  {
  }

  /** A run goes to another phase and stays as live as it was. */
  lemma MoveKeepsFlight(s: State, u: RunId, phase: Phase)
    requires Flight(s) && u in s.runs && Live(phase) == Live(s.runs[u].phase)
    ensures Flight(s.In(u, phase))
  {
  }

  lemma SameFlight(s: State, t: State)
    requires Flight(s) && t.updates == s.updates && t.runs == s.runs && t.next == s.next
    ensures Flight(t)
  {
  }

  lemma StartFlight(s: State, repo: Repo, triggered: bool, t: State)
    requires Flight(s) && repo !in s.updates
    requires var n := Start(s, repo, triggered); t.updates == n.updates && t.runs == n.runs && t.next == n.next
    ensures Flight(t)
  {
    StartKeepsFlight(s, repo, triggered);
    SameFlight(Start(s, repo, triggered), t);
  }

  /** The phase an action takes its run to. */
  function PhaseAfter(s: State, a: Action): Phase
    requires Enabled(s, a) && Moves(a)
  {
    Apply(s, a).runs[a.u].phase
  }

  /** An action on a run changes that run's phase and, in the table, at most its own entry. */
  lemma MoveIs(s: State, a: Action)
    requires Enabled(s, a) && Moves(a)
    ensures var t, n := Apply(s, a), s.In(a.u, PhaseAfter(s, a));
            && t.runs == n.runs && t.next == s.next && t.waiters == s.waiters
            && (a.Unlist? || t.updates == s.updates)
    ensures !a.Unlist? ==> Live(PhaseAfter(s, a)) == Live(s.runs[a.u].phase)
  {
  }

  lemma FlightStep(s: State, a: Action)
    requires Flight(s) && Enabled(s, a)
    ensures Flight(Apply(s, a))
  {
    match a
    case Trigger(repo) =>
      if repo !in s.updates && s.slots < s.capacity {
        StartFlight(s, repo, true, Apply(s, a));
      }
    case WaitFor(repo, w) =>
      if repo in s.updates {
        SameFlight(s, Apply(s, a));
      } else {
        StartFlight(s, repo, false, Apply(s, a));
      }
    case Wake(_) => SameFlight(s, Apply(s, a));
    case GiveUp(_) => SameFlight(s, Apply(s, a));
    case Unlist(u) => UnlistKeepsFlight(s, u);
    case _ =>
      MoveIs(s, a);
      MoveKeepsFlight(s, a.u, PhaseAfter(s, a));
      SameFlight(s.In(a.u, PhaseAfter(s, a)), Apply(s, a));
  }

  lemma StartKeepsSlots(s: State, repo: Repo, triggered: bool)
    requires Flight(s) && Slots(s) && (triggered ==> s.slots < s.capacity)
    ensures Slots(Start(s, repo, triggered))
  {
    var runs := Start(s, repo, triggered).runs;
    assert SlotHolders(runs) == SlotHolders(s.runs) + if triggered then {s.next} else {};
  }

  lemma HoldersAfterMove(s: State, u: RunId, phase: Phase)
    requires u in s.runs && !s.runs[u].phase.Gone?
    ensures SlotHolders(s.In(u, phase).runs) ==
              if phase.Gone? then SlotHolders(s.runs) - {u} else SlotHolders(s.runs)
  {
  }

  lemma SlotsStep(s: State, a: Action)
    requires Flight(s) && Slots(s) && Enabled(s, a)
    ensures Slots(Apply(s, a)) && Apply(s, a).capacity == s.capacity
  {
    match a
    case Trigger(repo) =>
      if repo !in s.updates && s.slots < s.capacity {
        StartKeepsSlots(s, repo, true);
      }
    case WaitFor(repo, w) => StartKeepsSlots(s, repo, false);
    case Wake(_) =>
    case GiveUp(_) =>
    case _ =>
      HoldersAfterMove(s, a.u, Apply(s, a).runs[a.u].phase);
  }

  /** A run that has its result keeps it. */
  lemma ResultStays(s: State, a: Action, u: RunId)
    requires Flight(s) && Enabled(s, a) && u in s.runs && HasResult(s.runs[u].phase)
    ensures var t := Apply(s, a);
            && u in t.runs && HasResult(t.runs[u].phase) && t.runs[u].phase.u == s.runs[u].phase.u
            && (Over(s.runs[u].phase) ==> Over(t.runs[u].phase))
  {
    OthersUnmoved(s, a, u);
  }

  lemma CompleteStep(s: State, a: Action, u: RunId)
    requires Flight(s) && Results(s) && Enabled(s, a) && u in Apply(s, a).runs
    requires HasResult(Apply(s, a).runs[u].phase)
    ensures Complete(Apply(s, a).runs[u].phase.u)
  {
    if u in s.runs {
      OthersUnmoved(s, a, u);
    }
  }

  lemma ResultsStep(s: State, a: Action)
    requires Flight(s) && Results(s) && Enabled(s, a)
    ensures Results(Apply(s, a))
  {
    var t := Apply(s, a);
    forall u: RunId | u in t.runs && HasResult(t.runs[u].phase) ensures Complete(t.runs[u].phase.u) {
      CompleteStep(s, a, u);
    }
    forall w | w in t.waiters
      ensures t.waiters[w].run in t.runs
      ensures t.waiters[w].got.Some? ==>
                Over(t.runs[t.waiters[w].run].phase) && t.waiters[w].got.value == t.runs[t.waiters[w].run].phase.u
    {
      WaiterStep(s, a, w);
    }
  }

  lemma WaiterStep(s: State, a: Action, w: WaiterId)
    requires Flight(s) && Results(s) && Enabled(s, a) && w in Apply(s, a).waiters
    ensures var t := Apply(s, a);
            && t.waiters[w].run in t.runs
            && (t.waiters[w].got.Some? ==>
                  Over(t.runs[t.waiters[w].run].phase) && t.waiters[w].got.value == t.runs[t.waiters[w].run].phase.u)
  {
    var u := Apply(s, a).waiters[w].run;
    if u in s.runs {
      OthersUnmoved(s, a, u);
      if Over(s.runs[u].phase) {
        ResultStays(s, a, u);
      }
    }
  }

  /** The effect of one store operation on the list and the aliases of a repository. */
  lemma StoreOpEffect(s: State, u: RunId, r: Repo)
    requires Enabled(s, StoreOp(u)) && r != s.runs[u].repo
    ensures Listed(DoStoreOp(s, u).kv, r) == Listed(s.kv, r)
    ensures forall d :: PointsTo(DoStoreOp(s, u).kv, d, r) ==> PointsTo(s.kv, d, r)
  {
  }

  lemma StoreOpProgress(s: State, u: RunId)
    requires Enabled(s, StoreOp(u)) && Progresses(s.kv, s.runs[u])
    ensures Progresses(DoStoreOp(s, u).kv, DoStoreOp(s, u).runs[u])
  {
  }

  lemma OtherProgress(s: State, u: RunId, v: RunId)
    requires Flight(s) && Enabled(s, StoreOp(u)) && v in s.runs && v != u && Progresses(s.kv, s.runs[v])
    ensures Progresses(DoStoreOp(s, u).kv, s.runs[v])
  {
    if s.runs[v].phase.Binding? {
      StoreOpEffect(s, u, s.runs[v].repo);
    }
  }

  /** The steps without a store operation: a Bind that starts has not written its list. */
  lemma QuietProgress(s: State, a: Action, v: RunId)
    requires Enabled(s, a) && !a.StoreOp? && v in Apply(s, a).runs
    requires v in s.runs && v != s.next ==> Progresses(s.kv, s.runs[v])
    requires v in s.runs ==> v != s.next
    ensures Apply(s, a).kv == s.kv && Progresses(s.kv, Apply(s, a).runs[v])
  {
    if v in s.runs {
      OthersUnmoved(s, a, v);
    }
  }

  lemma ProgressStep(s: State, a: Action)
    requires Flight(s) && Progress(s) && Enabled(s, a)
    ensures Progress(Apply(s, a))
  {
    var t := Apply(s, a);
    forall v: RunId | v in t.runs ensures Progresses(t.kv, t.runs[v]) {
      assert v in s.runs ==> Progresses(s.kv, s.runs[v]);
      if !a.StoreOp? {
        QuietProgress(s, a, v);
      } else if v == a.u {
        StoreOpProgress(s, a.u);
      } else {
        OtherProgress(s, a.u, v);
      }
    }
  }

  /** The running Bind accounts for every alias of its own repository. */
  lemma OwnAliases(s: State, u: RunId, d: string)
    requires Flight(s) && Aliases(s) && Progress(s) && Enabled(s, StoreOp(u))
    requires PointsTo(DoStoreOp(s, u).kv, d, s.runs[u].repo)
    ensures d in Listed(DoStoreOp(s, u).kv, s.runs[u].repo) || AboutToRemove(DoStoreOp(s, u), u, s.runs[u].repo, d)
  {
    var t := DoStoreOp(s, u);
    var r := s.runs[u].repo;
    var pc := s.runs[u].phase.pc;
    if pc.Point? && d == pc.rest[0] {
      assert d in pc.rest;
    } else {
      assert PointsTo(s.kv, d, r);
      if d !in Listed(s.kv, r) {
        var v :| AboutToRemove(s, v, r, d);
        assert v == u;
      }
    }
  }

  lemma AliasesStoreOp(s: State, u: RunId)
    requires Flight(s) && Aliases(s) && Progress(s) && Enabled(s, StoreOp(u))
    ensures Aliases(DoStoreOp(s, u))
  {
    var t := DoStoreOp(s, u);
    forall d, r | PointsTo(t.kv, d, r)
      ensures d in Listed(t.kv, r) || exists v :: AboutToRemove(t, v, r, d)
    {
      if r == s.runs[u].repo {
        OwnAliases(s, u, d);
      } else {
        StoreOpEffect(s, u, r);
        assert PointsTo(s.kv, d, r);
        if d !in Listed(s.kv, r) {
          var v :| AboutToRemove(s, v, r, d);
          assert AboutToRemove(t, v, r, d);
        }
      }
    }
  }

  lemma QuietAliases(s: State, a: Action, d: string, r: Repo)
    requires Flight(s) && Aliases(s) && Enabled(s, a) && !a.StoreOp? && PointsTo(Apply(s, a).kv, d, r)
    ensures d in Listed(Apply(s, a).kv, r) || exists v :: AboutToRemove(Apply(s, a), v, r, d)
  {
    if d !in Listed(s.kv, r) {
      var v :| AboutToRemove(s, v, r, d);
      OthersUnmoved(s, a, v);
      assert AboutToRemove(Apply(s, a), v, r, d);
    }
  }

  lemma AliasesStep(s: State, a: Action)
    requires Flight(s) && Aliases(s) && Progress(s) && Enabled(s, a)
    ensures Aliases(Apply(s, a))
  {
    if a.StoreOp? {
      AliasesStoreOp(s, a.u);
    } else {
      forall d, r | PointsTo(Apply(s, a).kv, d, r)
        ensures d in Listed(Apply(s, a).kv, r) || exists v :: AboutToRemove(Apply(s, a), v, r, d)
      {
        QuietAliases(s, a, d, r);
      }
    }
  }

  lemma {:induction false} RunKeepsInv(capacity: nat, states: seq<State>, actions: seq<Action>, i: nat)
    requires IsRun(capacity, states, actions) && i < |states|
    ensures Inv(states[i]) && states[i].capacity == capacity
  {
    if i == 0 {
      assert SlotHolders(Init(capacity).runs) == {};
    } else {
      RunKeepsInv(capacity, states, actions, i - 1);
      var s, a := states[i - 1], actions[i - 1];
      FlightStep(s, a);
      SlotsStep(s, a);
      ResultsStep(s, a);
      ProgressStep(s, a);
      AliasesStep(s, a);
    }
  }

  // ---------------------------------------------------------------- the results

  /** No repository ever has two refreshes under way, and the table holds the one it has. */
  lemma SingleFlight(capacity: nat, states: seq<State>, actions: seq<Action>, i: nat, u: RunId, v: RunId)
    requires IsRun(capacity, states, actions) && i < |states|
    requires u in states[i].runs && v in states[i].runs && states[i].runs[u].repo == states[i].runs[v].repo
    requires Live(states[i].runs[u].phase)
    ensures Live(states[i].runs[v].phase) <==> u == v
    ensures var r := states[i].runs[u].repo; r in states[i].updates && states[i].updates[r] == u
  {
    RunKeepsInv(capacity, states, actions, i);
  }

  /** Occupied slots are the triggered runs that still hold one, within capacity. */
  lemma SlotsAreHeld(capacity: nat, states: seq<State>, actions: seq<Action>, i: nat)
    requires IsRun(capacity, states, actions) && i < |states|
    ensures states[i].slots == |SlotHolders(states[i].runs)| && 0 <= states[i].slots <= capacity
  {
    RunKeepsInv(capacity, states, actions, i);
  }

  /** A finished update, also one that panicked, has exactly one of its fields set and is
      out of the table, and its waiters who were woken all hold that result. */
  lemma FinishedUpdates(
      capacity: nat, states: seq<State>, actions: seq<Action>, i: nat, u: RunId, w: WaiterId, x: WaiterId)
    requires IsRun(capacity, states, actions) && i < |states| && u in states[i].runs && Over(states[i].runs[u].phase)
    ensures var s := states[i];
            && Complete(s.runs[u].phase.u)
            && (forall r :: r in s.updates ==> s.updates[r] != u)
            && (w in s.waiters && s.waiters[w].run == u && s.waiters[w].got.Some? ==>
                  s.waiters[w].got.value == s.runs[u].phase.u
                  && (x in s.waiters && s.waiters[x].run == u && s.waiters[x].got.Some? ==>
                        s.waiters[x].got == s.waiters[w].got))
  {
    RunKeepsInv(capacity, states, actions, i);
  }

  /** The result of an update, once set, never changes again. */
  lemma {:induction false} ResultIsFinal(
      capacity: nat, states: seq<State>, actions: seq<Action>, i: nat, j: nat, u: RunId)
    requires IsRun(capacity, states, actions) && i <= j < |states|
    requires u in states[i].runs && HasResult(states[i].runs[u].phase)
    ensures u in states[j].runs && HasResult(states[j].runs[u].phase)
    ensures states[j].runs[u].phase.u == states[i].runs[u].phase.u
    decreases j
  {
    if i < j {
      ResultIsFinal(capacity, states, actions, i, j - 1, u);
      RunKeepsInv(capacity, states, actions, j - 1);
      ResultStays(states[j - 1], actions[j - 1], u);
    }
  }

  /** A refresh that returns early: a page is found exactly in the cache, a missing repository and one
      without page files are reported as missing, and other failures as themselves; for good. */
  lemma EarlyResult(
      capacity: nat, states: seq<State>, actions: seq<Action>, i: nat, j: nat, u: RunId, f: Findings)
    requires IsRun(capacity, states, actions) && i < j < |states| && actions[i] == Return(u, f)
    ensures u in states[j].runs && HasResult(states[j].runs[u].phase)
    ensures var r := states[j].runs[u].phase.u;
            && (forall m: Meta :: r.meta == Some(m) <==> f == CachedPage(m))
            && (r.err == Some(NotExist) <==> f.CachedMissing? || f.RepoMissing? || f.NoPageFiles?)
            && (forall code: nat :: r.err == Some(BackendError(code)) <==> f == BackendFailed(code))
            && (forall code: nat :: r.err == Some(ConfigError(code)) <==> f == BadConfig(code))
  {
    assert Enabled(states[i], actions[i]) && states[i + 1] == Apply(states[i], actions[i]);
    ResultIsFinal(capacity, states, actions, i + 1, j, u);
  }

  /** The run is binding for this page, or has its result or has panicked. */
  ghost predicate BindsFor(p: Phase, meta: Meta) {
    if HasResult(p) then p.u == Update(Some(meta), None) || p.u == Update(None, Some(Panicked))
    else p.Binding? && p.meta == meta
  }

  lemma BindsForStep(s: State, a: Action, u: RunId, meta: Meta)
    requires Flight(s) && Enabled(s, a) && u in s.runs && BindsFor(s.runs[u].phase, meta)
    ensures u in Apply(s, a).runs && BindsFor(Apply(s, a).runs[u].phase, meta)
  {
    OthersUnmoved(s, a, u);
  }

  /** A refresh that gets to its Bind can only end with the page it bound the aliases of, or panic. */
  lemma {:induction false} BindResult(
      capacity: nat, states: seq<State>, actions: seq<Action>, i: nat, j: nat, u: RunId, meta: Meta, ds: seq<string>)
    requires IsRun(capacity, states, actions) && i < j < |states| && actions[i] == StartBind(u, meta, ds)
    ensures u in states[j].runs && BindsFor(states[j].runs[u].phase, meta)
    decreases j
  {
    if i + 1 < j {
      BindResult(capacity, states, actions, i, j - 1, u, meta, ds);
      RunKeepsInv(capacity, states, actions, j - 1);
      BindsForStep(states[j - 1], actions[j - 1], u, meta);
    } else {
      assert Enabled(states[i], actions[i]) && states[j] == Apply(states[i], actions[i]);
    }
  }

  /** A refresh with its result can leave the table, wake its waiters and give its slot back, in this
      order and without waiting for anyone. */
  lemma FinishedRunLeaves(capacity: nat, states: seq<State>, actions: seq<Action>, i: nat, u: RunId)
    returns (unlisted: State, closed: State)
    requires IsRun(capacity, states, actions) && i < |states| && u in states[i].runs
    requires states[i].runs[u].phase.Returned?
    ensures var s, repo := states[i], states[i].runs[u].repo;
            && Enabled(s, Unlist(u)) && unlisted == Apply(s, Unlist(u))
            && unlisted.updates == s.updates - {repo} && repo in s.updates && s.updates[repo] == u
            && Enabled(unlisted, CloseDone(u)) && closed == Apply(unlisted, CloseDone(u))
            && closed.runs[u].phase == Closed(s.runs[u].phase.u) && closed.slots == s.slots
            && (s.runs[u].triggered ==>
                  Enabled(closed, FreeSlot(u)) && Apply(closed, FreeSlot(u)).slots == s.slots - 1
                  && Apply(closed, FreeSlot(u)).runs[u].phase == Gone(s.runs[u].phase.u))
  {
    RunKeepsInv(capacity, states, actions, i);
    unlisted := Apply(states[i], Unlist(u));
    closed := Apply(unlisted, CloseDone(u));
  }

  /** A trigger starts a refresh, in a slot, unless one is under way or no slot is free. */
  lemma TriggerStarts(capacity: nat, states: seq<State>, actions: seq<Action>, i: nat, repo: Repo)
    requires IsRun(capacity, states, actions) && i < |actions| && actions[i] == Trigger(repo)
    ensures var s, t := states[i], states[i + 1];
            if repo in s.updates || s.slots == capacity then t == s
            else repo in t.updates && t.updates[repo] !in s.runs && t.slots == s.slots + 1
                 && t.runs == s.runs[t.updates[repo] := Run(repo, true, Working)]
  {
    RunKeepsInv(capacity, states, actions, i);
  }

  /** A waiter joins the refresh under way for its repository, or the one it starts. */
  lemma WaiterJoins(capacity: nat, states: seq<State>, actions: seq<Action>, i: nat, repo: Repo, w: WaiterId)
    requires IsRun(capacity, states, actions) && i < |actions| && actions[i] == WaitFor(repo, w)
    ensures var s, t := states[i], states[i + 1];
            && repo in t.updates && w in t.waiters && t.waiters[w] == Waiter(t.updates[repo], None, false)
            && t.slots == s.slots
            && (if repo in s.updates then t.runs == s.runs && t.updates == s.updates
                else t.updates[repo] !in s.runs && t.runs == s.runs[t.updates[repo] := Run(repo, false, Working)])
  {
    RunKeepsInv(capacity, states, actions, i);
  }

  /** A waiter of a finished update that has not given up can be woken, and is told its result. */
  lemma WaiterIsWoken(capacity: nat, states: seq<State>, actions: seq<Action>, i: nat, w: WaiterId)
    requires IsRun(capacity, states, actions) && i < |states| && w in states[i].waiters
    requires states[i].waiters[w].got.None? && !states[i].waiters[w].gaveUp
    ensures states[i].waiters[w].run in states[i].runs
    ensures var s, run := states[i], states[i].runs[states[i].waiters[w].run];
            Over(run.phase) ==>
              Enabled(s, Wake(w)) && Apply(s, Wake(w)).waiters[w] == s.waiters[w].(got := Some(run.phase.u))
  {
    RunKeepsInv(capacity, states, actions, i);
  }

  /** Who has given up waiting is never told a result. */
  lemma {:induction false} GivenUpIsFinal(
      capacity: nat, states: seq<State>, actions: seq<Action>, i: nat, j: nat, w: WaiterId)
    requires IsRun(capacity, states, actions) && i < j < |states| && actions[i] == GiveUp(w)
    ensures w in states[j].waiters && states[j].waiters[w].gaveUp && states[j].waiters[w].got.None?
    decreases j
  {
    assert Enabled(states[j - 1], actions[j - 1]) && states[j] == Apply(states[j - 1], actions[j - 1]);
    if i + 1 < j {
      GivenUpIsFinal(capacity, states, actions, i, j - 1, w);
    }
  }

  /** At every point of every interleaving, a stored alias is listed by the repository it
      points to or is about to be removed by that repository's Bind. */
  lemma EveryAliasAccountedFor(capacity: nat, states: seq<State>, actions: seq<Action>, i: nat, d: string, r: Repo)
    requires IsRun(capacity, states, actions) && i < |states| && PointsTo(states[i].kv, d, r)
    ensures d in Listed(states[i].kv, r) || exists u :: AboutToRemove(states[i], u, r, d)
  {
    RunKeepsInv(capacity, states, actions, i);
  }

  /** When the repository an alias points to has no Bind under way, it lists the alias. */
  lemma QuietAliasesAreListed(capacity: nat, states: seq<State>, actions: seq<Action>, i: nat, d: string, r: Repo)
    requires IsRun(capacity, states, actions) && i < |states| && PointsTo(states[i].kv, d, r)
    requires forall u: RunId :: u in states[i].runs && states[i].runs[u].repo == r ==> !states[i].runs[u].phase.Binding?
    ensures d in Listed(states[i].kv, r)
  {
    RunKeepsInv(capacity, states, actions, i);
    forall u ensures !AboutToRemove(states[i], u, r, d) {
    }
  }
}
