/** Concurrent calls of the provider cache (pkg/core/cache.go), one shared-state step at a time. */
module ProviderCacheRuns {
  import opened ProviderCache
  import opened Wrappers

  type CallId = nat

  datatype Job = OpenJob(p: Path) | RangeJob(p: Path) | ListJob(p: Path) | MetaJob

  datatype Result = FromOpen(open: OpenAnswer) | FromList(list: ListAnswer) | FromMeta

  datatype Phase =
    | Looking                       // about to look the key up
    | Waiting                       // missed, waiting for a backend slot
    | Calling                       // the backend is called, one backend slot is held
    | Fetched(r: Response)          // a small enough response, about to try for a cache slot
    | Caching(r: Response)          // reading and putting it, both slots are held
    | Stored(result: Result)        // body closed, cache slot still held
    | ListFetched(e: Entries)       // entries, about to try for a cache slot
    | ListCaching(e: Entries)       // putting them, both slots are held
    | ListStored(e: Entries)        // about to give the backend slot back
    | Returned(result: Result, slot: bool)  // over; the body, not yet closed, may carry a slot
    | Closed(result: Result, slot: bool)

  datatype Call = Call(job: Job, phase: Phase)

  datatype Config = Config(backend: Backend, json: Json, limit: nat, backendCapacity: nat, cacheCapacity: nat)

  /** `extra` counts how often a body was closed again. */
  datatype State = State(store: Store, calls: map<CallId, Call>, backendSlots: int, cacheSlots: int, extra: nat)

  const INIT := State(map[], map[], 0, 0, 0)

  datatype Action =
    | Start(c: CallId, job: Job)
    | LookUp(c: CallId, fails: bool)
    | Acquire(c: CallId)
    | Cancel(c: CallId)
    | Answer(c: CallId, fails: bool, putFails: bool)
    | TryCache(c: CallId)
    | Fill(c: CallId, readFails: bool, putFails: bool)
    | Release(c: CallId)
    | Close(c: CallId)
    | CloseAgain(c: CallId)
    | Evict(key: string)

  /** The call is at the place where it takes this step. */
  predicate AtStep(g: Config, s: State, a: Action) {
    match a
    case Start(c, _) => c !in s.calls
    case LookUp(c, _) => c in s.calls && s.calls[c].phase.Looking?
    case Acquire(c) => c in s.calls && s.calls[c].phase.Waiting? && s.backendSlots < g.backendCapacity
    case Cancel(c) => c in s.calls && s.calls[c].phase.Waiting?
    case Answer(c, _, _) => c in s.calls && s.calls[c].phase.Calling?
    case TryCache(c) => c in s.calls && (s.calls[c].phase.Fetched? || s.calls[c].phase.ListFetched?)
    case Fill(c, _, _) => c in s.calls && (s.calls[c].phase.Caching? || s.calls[c].phase.ListCaching?)
    case Release(c) => c in s.calls && (s.calls[c].phase.Stored? || s.calls[c].phase.ListStored?)
    case Close(c) => c in s.calls && s.calls[c].phase.Returned?
    case CloseAgain(c) => c in s.calls && s.calls[c].phase.Closed? && s.calls[c].phase.slot
    case Evict(_) => true
  }

  /** What one step of a call does: its next phase, its effect on the two semaphores, and the
      entry it puts into the store. */
  datatype Effect = Effect(phase: Phase, backend: int, cache: int, put: Option<(string, Content)>)

  function Failure(job: Job): Result {
    match job
    case OpenJob(_) => FromOpen(Failed)
    case RangeJob(_) => FromOpen(Failed)
    case ListJob(_) => FromList(ListFailed)
    case MetaJob => FromMeta
  }

  function Quietly(phase: Phase): Effect {
    Effect(phase, 0, 0, None)
  }

  function Maybe(key: string, content: Content, fails: bool): Option<(string, Content)> {
    if fails then None else Some((key, content))
  }

  /** The first step of a call: range requests go straight to the backend, Meta to its semaphore. */
  function StartPhase(g: Config, job: Job): Phase {
    match job
    case RangeJob(p) => Returned(FromOpen(g.backend.ranged(p)), false)
    case MetaJob => Waiting
    case _ => Looking
  }

  function LookupEffect(g: Config, store: Store, job: Job, fails: bool): Effect {
    if fails then Quietly(Returned(Failure(job), false))
    else match job
      case OpenJob(p) =>
        (match LoadResponse(Lookup(store, BlobKey(p)))
         case Some(hit) => Quietly(Returned(FromOpen(hit), false))
         case None => Quietly(Waiting))
      case ListJob(p) =>
        (match LoadEntries(g.json, Lookup(store, DirKey(p)))
         case Some(hit) => Quietly(Returned(FromList(hit), false))
         case None => Quietly(Waiting))
      case _ => Quietly(Waiting)
  }

  function OpenEffect(g: Config, p: Path, putFails: bool): Effect {
    match g.backend.open(p)
    case NotExist => Effect(Returned(FromOpen(NotExist), false), -1, 0, Maybe(BlobKey(p), NOT_FOUND, putFails))
    case Opened(r) =>
      if r.status == 404 then
        Effect(Returned(FromOpen(NotExist), false), -1, 0, Maybe(BlobKey(p), NOT_FOUND, putFails))
      else if Cacheable(g.limit, r) then Quietly(Fetched(r))
      else Quietly(Returned(FromOpen(Opened(r)), true))
    case other => Effect(Returned(FromOpen(other), false), -1, 0, None)
  }

  function ListEffect(g: Config, p: Path, putFails: bool): Effect {
    match g.backend.list(p)
    case Listed(e) => Quietly(ListFetched(e))
    case ListNotExist => Effect(Returned(FromList(ListNotExist), false), -1, 0, Maybe(DirKey(p), NOT_FOUND, putFails))
    case ListFailed => Effect(Returned(FromList(ListFailed), false), -1, 0, None)
  }

  function AnswerEffect(g: Config, job: Job, fails: bool, putFails: bool): Effect {
    if fails then Effect(Returned(Failure(job), false), -1, 0, None)
    else match job
      case OpenJob(p) => OpenEffect(g, p, putFails)
      case ListJob(p) => ListEffect(g, p, putFails)
      case _ => Effect(Returned(Failure(job), false), -1, 0, None)
  }

  function TryEffect(g: Config, cacheSlots: int, phase: Phase): Effect
    requires phase.Fetched? || phase.ListFetched?
  {
    var got := cacheSlots < g.cacheCapacity;
    match phase
    case Fetched(r) =>
      if got then Effect(Caching(r), 0, 1, None) else Quietly(Returned(FromOpen(Opened(r)), true))
    case ListFetched(e) =>
      if got then Effect(ListCaching(e), 0, 1, None) else Quietly(ListStored(e))
  }

  function FillEffect(g: Config, job: Job, phase: Phase, readFails: bool, putFails: bool): Effect
    requires phase.Caching? || phase.ListCaching?
  {
    match phase
    case Caching(r) =>
      if readFails then Effect(Stored(FromOpen(Failed)), -1, 0, None)
      else Effect(Stored(FromOpen(Opened(r))), -1, 0,
        if job.OpenJob? then Maybe(BlobKey(job.p), KeptResponse(r), putFails) else None)
    case ListCaching(e) =>
      Effect(ListStored(e), 0, -1,
        if job.ListJob? then Maybe(DirKey(job.p), KeptEntries(g.json, e), putFails) else None)
  }

  function ReleaseEffect(phase: Phase): Effect
    requires phase.Stored? || phase.ListStored?
  {
    match phase
    case Stored(result) => Effect(Returned(result, false), 0, -1, None)
    case ListStored(e) => Effect(Returned(FromList(Listed(e)), false), -1, 0, None)
  }

  /** The effect of a step that some call takes. */
  function EffectOf(g: Config, s: State, a: Action): Effect
    requires AtStep(g, s, a) && !a.Start? && !a.Evict?
  {
    var call := s.calls[a.c];
    match a
    case LookUp(_, fails) => LookupEffect(g, s.store, call.job, fails)
    case Acquire(_) => Effect(Calling, 1, 0, None)
    case Cancel(_) => Quietly(Returned(Failure(call.job), false))
    case Answer(_, fails, putFails) => AnswerEffect(g, call.job, fails, putFails)
    case TryCache(_) => TryEffect(g, s.cacheSlots, call.phase)
    case Fill(_, readFails, putFails) => FillEffect(g, call.job, call.phase, readFails, putFails)
    case Release(_) => ReleaseEffect(call.phase)
    case Close(_) =>
      Effect(Closed(call.phase.result, call.phase.slot), if call.phase.slot then -1 else 0, 0, None)
    case CloseAgain(_) => Effect(call.phase, -1, 0, None)
  }

  /** Receiving from an empty semaphore blocks. */
  predicate Enabled(g: Config, s: State, a: Action) {
    AtStep(g, s, a) && (a.Start? || a.Evict? || s.backendSlots + EffectOf(g, s, a).backend >= 0)
  }

  function Put(store: Store, put: Option<(string, Content)>): Store {
    match put case Some(kv) => store[kv.0 := kv.1] case None => store
  }

  function Perform(s: State, c: CallId, e: Effect): State
    requires c in s.calls
  {
    s.(store := Put(s.store, e.put),
       calls := s.calls[c := s.calls[c].(phase := e.phase)],
       backendSlots := s.backendSlots + e.backend,
       cacheSlots := s.cacheSlots + e.cache)
  }

  function Apply(g: Config, s: State, a: Action): State
    requires Enabled(g, s, a)
  {
    match a
    case Start(c, job) => s.(calls := s.calls[c := Call(job, StartPhase(g, job))])
    case Evict(key) => s.(store := s.store - {key})
    case CloseAgain(c) => Perform(s, c, EffectOf(g, s, a)).(extra := s.extra + 1)
    case _ => Perform(s, a.c, EffectOf(g, s, a))
  }

  ghost predicate IsRun(g: Config, states: seq<State>, actions: seq<Action>) {
    && |states| == |actions| + 1
    && states[0] == INIT
    && forall i :: 0 <= i < |actions| ==>
         Enabled(g, states[i], actions[i]) && states[i + 1] == Apply(g, states[i], actions[i])
  }

  // ---------------------------------------------------------------- the semaphores

  /** Calls in progress at the backend, and returned bodies that carry a slot and are not closed. */
  predicate HoldsBackend(p: Phase) {
    p.Calling? || p.Fetched? || p.Caching? || p.ListFetched? || p.ListCaching? || p.ListStored?
    || (p.Returned? && p.slot)
  }

  predicate HoldsCache(p: Phase) {
    p.Caching? || p.Stored? || p.ListCaching?
  }

  function BackendHolders(calls: map<CallId, Call>): set<CallId> {
    set c | c in calls && HoldsBackend(calls[c].phase)
  }

  function CacheHolders(calls: map<CallId, Call>): set<CallId> {
    set c | c in calls && HoldsCache(calls[c].phase)
  }

  function One(b: bool): int { if b then 1 else 0 }

  /** A step changes each semaphore by what it changes in what its call holds. */
  lemma EffectBalanced(g: Config, s: State, a: Action)
    requires AtStep(g, s, a) && !a.Start? && !a.Evict?
    ensures var e, p := EffectOf(g, s, a), s.calls[a.c].phase;
            && e.backend == One(HoldsBackend(e.phase)) - One(HoldsBackend(p)) - One(a.CloseAgain?)
            && e.cache == One(HoldsCache(e.phase)) - One(HoldsCache(p))
  {}

  lemma BackendHoldersMove(calls: map<CallId, Call>, c: CallId, call: Call)
    ensures |BackendHolders(calls[c := call])|
         == |BackendHolders(calls)| + One(HoldsBackend(call.phase)) - One(c in calls && HoldsBackend(calls[c].phase))
  {
    var b := BackendHolders(calls);
    assert BackendHolders(calls[c := call]) == if HoldsBackend(call.phase) then b + {c} else b - {c};
  }

  lemma CacheHoldersMove(calls: map<CallId, Call>, c: CallId, call: Call)
    ensures |CacheHolders(calls[c := call])|
         == |CacheHolders(calls)| + One(HoldsCache(call.phase)) - One(c in calls && HoldsCache(calls[c].phase))
  {
    var b := CacheHolders(calls);
    assert CacheHolders(calls[c := call]) == if HoldsCache(call.phase) then b + {c} else b - {c};
  }

  /** Slots in use are slots held, minus what closing bodies again has given away. */
  ghost predicate Balanced(g: Config, s: State) {
    && s.backendSlots + s.extra == |BackendHolders(s.calls)|
    && s.cacheSlots == |CacheHolders(s.calls)|
    && 0 <= s.backendSlots <= g.backendCapacity
    && 0 <= s.cacheSlots <= g.cacheCapacity
  }

  lemma EffectBounded(g: Config, s: State, a: Action)
    requires AtStep(g, s, a) && !a.Start? && !a.Evict?
    ensures EffectOf(g, s, a).backend <= if s.backendSlots < g.backendCapacity then 1 else 0
    ensures EffectOf(g, s, a).cache <= if s.cacheSlots < g.cacheCapacity then 1 else 0
  {}

  lemma BalancedStep(g: Config, s: State, a: Action)
    requires Balanced(g, s) && Enabled(g, s, a)
    ensures Balanced(g, Apply(g, s, a))
  {
    if a.Start? {
      BackendHoldersMove(s.calls, a.c, Call(a.job, StartPhase(g, a.job)));
      CacheHoldersMove(s.calls, a.c, Call(a.job, StartPhase(g, a.job)));
    } else if !a.Evict? {
      EffectBalanced(g, s, a);
      EffectBounded(g, s, a);
      BackendHoldersMove(s.calls, a.c, s.calls[a.c].(phase := EffectOf(g, s, a).phase));
      CacheHoldersMove(s.calls, a.c, s.calls[a.c].(phase := EffectOf(g, s, a).phase));
    }
  }

  lemma {:induction false} RunBalanced(g: Config, states: seq<State>, actions: seq<Action>, i: nat)
    requires IsRun(g, states, actions) && i < |states|
    ensures Balanced(g, states[i])
  {
    if i > 0 {
      RunBalanced(g, states, actions, i - 1);
      BalancedStep(g, states[i - 1], actions[i - 1]);
    }
  }

  /** In every run: cache slots in use are those held; backend slots in use are those held by
      calls and open bodies exactly when no slot-carrying body was closed again; neither
      semaphore is ever over its capacity. */
  lemma SlotsConserved(g: Config, states: seq<State>, actions: seq<Action>, i: nat)
    requires IsRun(g, states, actions) && i < |states|
    ensures var s := states[i];
            && s.cacheSlots == |CacheHolders(s.calls)| <= g.cacheCapacity
            && 0 <= s.backendSlots <= g.backendCapacity
            && (s.backendSlots == |BackendHolders(s.calls)| <==> s.extra == 0)
  {
    RunBalanced(g, states, actions, i);
  }

  lemma HolderCounted(calls: map<CallId, Call>, c: CallId)
    requires c in calls && HoldsBackend(calls[c].phase)
    ensures |BackendHolders(calls)| > 0
  {
    assert c in BackendHolders(calls);
  }

  /** Without repeated closes no release ever blocks: only Acquire waits. */
  lemma ReleaseNeverBlocks(g: Config, states: seq<State>, actions: seq<Action>, i: nat, a: Action)
    requires IsRun(g, states, actions) && i < |states| && states[i].extra == 0
    requires AtStep(g, states[i], a) && !a.CloseAgain?
    ensures Enabled(g, states[i], a)
  {
    var s := states[i];
    RunBalanced(g, states, actions, i);
    if !a.Start? && !a.Evict? {
      EffectBalanced(g, s, a);
      if HoldsBackend(s.calls[a.c].phase) {
        HolderCounted(s.calls, a.c);
      }
    }
  }

  /** No call is stuck, whatever the others do: only a call that waits for a backend slot needs one to be
      free, and it can be cancelled. */
  lemma NoCallIsStuck(
      g: Config, states: seq<State>, actions: seq<Action>, i: nat, c: CallId, fails: bool, putFails: bool)
    requires IsRun(g, states, actions) && i < |states| && states[i].extra == 0 && c in states[i].calls
    ensures var s, phase := states[i], states[i].calls[c].phase;
            && (phase.Looking? ==> Enabled(g, s, LookUp(c, fails)))
            && (phase.Waiting? ==> Enabled(g, s, Cancel(c)))
            && (phase.Waiting? && s.backendSlots < g.backendCapacity ==> Enabled(g, s, Acquire(c)))
            && (phase.Calling? ==> Enabled(g, s, Answer(c, fails, putFails)))
            && (phase.Fetched? || phase.ListFetched? ==> Enabled(g, s, TryCache(c)))
            && (phase.Caching? || phase.ListCaching? ==> Enabled(g, s, Fill(c, fails, putFails)))
            && (phase.Stored? || phase.ListStored? ==> Enabled(g, s, Release(c)))
            && (phase.Returned? ==> Enabled(g, s, Close(c)))
  {
    var s, phase := states[i], states[i].calls[c].phase;
    if phase.Looking? {
      ReleaseNeverBlocks(g, states, actions, i, LookUp(c, fails));
    } else if phase.Waiting? {
      ReleaseNeverBlocks(g, states, actions, i, Cancel(c));
      if s.backendSlots < g.backendCapacity {
        ReleaseNeverBlocks(g, states, actions, i, Acquire(c));
      }
    } else if phase.Calling? {
      ReleaseNeverBlocks(g, states, actions, i, Answer(c, fails, putFails));
    } else if phase.Fetched? || phase.ListFetched? {
      ReleaseNeverBlocks(g, states, actions, i, TryCache(c));
    } else if phase.Caching? || phase.ListCaching? {
      ReleaseNeverBlocks(g, states, actions, i, Fill(c, fails, putFails));
    } else if phase.Stored? || phase.ListStored? {
      ReleaseNeverBlocks(g, states, actions, i, Release(c));
    } else if phase.Returned? {
      ReleaseNeverBlocks(g, states, actions, i, Close(c));
    }
  }

  /** Nothing left open: nothing in use. */
  predicate Quiet(s: State) {
    s.extra == 0 && forall c :: c in s.calls ==> !HoldsBackend(s.calls[c].phase) && !HoldsCache(s.calls[c].phase)
  }

  lemma QuietIsFree(g: Config, states: seq<State>, actions: seq<Action>, i: nat)
    requires IsRun(g, states, actions) && i < |states| && Quiet(states[i])
    ensures states[i].backendSlots == 0 && states[i].cacheSlots == 0
  {
    RunBalanced(g, states, actions, i);
    assert BackendHolders(states[i].calls) == {} && CacheHolders(states[i].calls) == {};
  }

  // ---------------------------------------------------------------- agreement with the backend

  predicate JobNamed(job: Job) {
    match job
    case OpenJob(p) => WellNamed(p)
    case ListJob(p) => WellNamed(p)
    case _ => true
  }

  /** The result is the backend's answer or a failure. */
  predicate Agrees(b: Backend, job: Job, result: Result) {
    match job
    case OpenJob(p) => result == FromOpen(Failed) || result == FromOpen(Meant(b.open(p)))
    case RangeJob(p) => result == FromOpen(Failed) || result == FromOpen(b.ranged(p))
    case ListJob(p) => result == FromList(ListFailed) || result == FromList(b.list(p))
    case MetaJob => result == FromMeta
  }

  /** What a call on its way has is what the backend answers. */
  predicate Honest(g: Config, call: Call) {
    match call.phase
    case Fetched(r) => IsFetched(g, call.job, r)
    case Caching(r) => IsFetched(g, call.job, r)
    case Stored(result) => Agrees(g.backend, call.job, result)
    case ListFetched(e) => IsListed(g, call.job, e)
    case ListCaching(e) => IsListed(g, call.job, e)
    case ListStored(e) => IsListed(g, call.job, e)
    case Returned(result, _) => Agrees(g.backend, call.job, result)
    case Closed(result, _) => Agrees(g.backend, call.job, result)
    case _ => true
  }

  predicate IsFetched(g: Config, job: Job, r: Response) {
    job.OpenJob? && g.backend.open(job.p) == Opened(r) && Cacheable(g.limit, r)
  }

  predicate IsListed(g: Config, job: Job, e: Entries) {
    job.ListJob? && g.backend.list(job.p) == Listed(e)
  }

  ghost predicate Trusted(g: Config) {
    Replayable(g.backend, g.limit) && Faithful(g.json)
  }

  ghost predicate Honests(g: Config, calls: map<CallId, Call>) {
    forall c :: c in calls ==> JobNamed(calls[c].job) && Honest(g, calls[c])
  }

  ghost predicate Agreement(g: Config, s: State) {
    Sound(g.backend, g.json, g.limit, s.store) && Honests(g, s.calls)
  }

  lemma LookUpHonest(g: Config, store: Store, job: Job, fails: bool)
    requires Sound(g.backend, g.json, g.limit, store) && JobNamed(job)
    ensures Honest(g, Call(job, LookupEffect(g, store, job, fails).phase))
  {
    match job
    case OpenJob(p) => assert SoundBlob(g.backend, g.limit, store, p);
    case ListJob(p) => assert SoundDir(g.backend, g.json, store, p);
    case _ =>
  }

  lemma StepHonest(g: Config, s: State, a: Action)
    requires AtStep(g, s, a) && !a.Start? && !a.Evict?
    requires Sound(g.backend, g.json, g.limit, s.store) && JobNamed(s.calls[a.c].job) && Honest(g, s.calls[a.c])
    ensures Honest(g, s.calls[a.c].(phase := EffectOf(g, s, a).phase))
  {
    if a.LookUp? {
      LookUpHonest(g, s.store, s.calls[a.c].job, a.fails);
    }
  }

  /** Every entry a call puts is sound for its path. */
  lemma PutSound(g: Config, s: State, a: Action)
    requires AtStep(g, s, a) && !a.Start? && !a.Evict? && Trusted(g)
    requires Sound(g.backend, g.json, g.limit, s.store) && JobNamed(s.calls[a.c].job) && Honest(g, s.calls[a.c])
    ensures Sound(g.backend, g.json, g.limit, Put(s.store, EffectOf(g, s, a).put))
  {
    var job, put := s.calls[a.c].job, EffectOf(g, s, a).put;
    if put.Some? {
      if job.OpenJob? {
        PutBlobSound(g.backend, g.json, g.limit, s.store, job.p, put.value.1);
      } else if job.ListJob? {
        if a.Fill? {
          EntriesSound(g.json, s.calls[a.c].phase.e);
        }
        PutDirSound(g.backend, g.json, g.limit, s.store, job.p, put.value.1);
      }
    }
  }

  ghost predicate AllNamed(actions: seq<Action>) {
    forall i :: 0 <= i < |actions| && actions[i].Start? ==> JobNamed(actions[i].job)
  }

  lemma AgreementStep(g: Config, s: State, a: Action)
    requires Trusted(g) && Agreement(g, s) && Enabled(g, s, a) && (a.Start? ==> JobNamed(a.job))
    ensures Agreement(g, Apply(g, s, a))
  {
    if a.Evict? {
      EvictSound(g.backend, g.json, g.limit, s.store, a.key);
    } else if !a.Start? {
      StepHonest(g, s, a);
      PutSound(g, s, a);
    }
  }

  lemma {:induction false} RunAgrees(g: Config, states: seq<State>, actions: seq<Action>, i: nat)
    requires Trusted(g) && IsRun(g, states, actions) && AllNamed(actions) && i < |states|
    ensures Agreement(g, states[i])
  {
    if i > 0 {
      RunAgrees(g, states, actions, i - 1);
      AgreementStep(g, states[i - 1], actions[i - 1]);
    }
  }

  /** In every run, under any interleaving, eviction, skipped slot and size bypass, a returned
      result is the backend's answer, or a failure. */
  lemma ResultsAgree(g: Config, states: seq<State>, actions: seq<Action>, i: nat, c: CallId)
    requires Trusted(g) && IsRun(g, states, actions) && AllNamed(actions) && i < |states|
    requires c in states[i].calls && states[i].calls[c].phase.Returned?
    ensures Agrees(g.backend, states[i].calls[c].job, states[i].calls[c].phase.result)
  {
    RunAgrees(g, states, actions, i);
  }

  // ---------------------------------------------------------------- why the status matters

  predicate Step(g: Config, s: State, a: Action, t: State) {
    Enabled(g, s, a) && Apply(g, s, a) == t
  }

  lemma Extend(g: Config, states: seq<State>, actions: seq<Action>, a: Action, t: State)
    returns (states': seq<State>, actions': seq<Action>)
    requires IsRun(g, states, actions) && Step(g, states[|actions|], a, t)
    requires AllNamed(actions) && (a.Start? ==> JobNamed(a.job))
    ensures IsRun(g, states', actions') && states'[|actions'|] == t && AllNamed(actions')
  {
    states', actions' := states + [t], actions + [a];
  }

  function Alone(job: Job, phase: Phase, backendSlots: int, cacheSlots: int): State {
    State(map[], map[0 := Call(job, phase)], backendSlots, cacheSlots, 0)
  }

  /** A first call that gets to the backend. */
  lemma CallingAlone(g: Config, job: Job) returns (states: seq<State>, actions: seq<Action>)
    requires g.backendCapacity > 0 && (job.OpenJob? || job.ListJob?) && JobNamed(job)
    ensures IsRun(g, states, actions) && AllNamed(actions) && states[|actions|] == Alone(job, Calling, 1, 0)
  {
    states, actions := [INIT], [];
    states, actions := Extend(g, states, actions, Start(0, job), Alone(job, Looking, 0, 0));
    states, actions := Extend(g, states, actions, LookUp(0, false), Alone(job, Waiting, 0, 0));
    states, actions := Extend(g, states, actions, Acquire(0), Alone(job, Calling, 1, 0));
  }

  lemma OpenAlone(g: Config, p: Path, r: Response) returns (states: seq<State>, actions: seq<Action>)
    requires g.backendCapacity > 0 && g.cacheCapacity > 0
    requires WellNamed(p) && g.backend.open(p) == Opened(r)
    requires r.status != 404 && r.length.Some? && r.length.value <= g.limit
    ensures IsRun(g, states, actions) && AllNamed(actions)
    ensures states[|actions|] == Alone(OpenJob(p), Caching(r), 1, 1)
  {
    var j := OpenJob(p);
    states, actions := CallingAlone(g, j);
    states, actions := Extend(g, states, actions, Answer(0, false, false), Alone(j, Fetched(r), 1, 0));
    states, actions := Extend(g, states, actions, TryCache(0), Alone(j, Caching(r), 1, 1));
  }

  function Replaying(p: Path, r: Response, phase: Phase): State {
    State(map[BlobKey(p) := KeptResponse(r)],
      map[0 := Call(OpenJob(p), Stored(FromOpen(Opened(r)))), 1 := Call(OpenJob(p), phase)], 0, 1, 0)
  }

  /** A response that is cached with another status than 200 is replayed with status 200: there
      is a run in which a second Open returns what the backend never answered. */
  lemma BadStatusReplayed(g: Config, p: Path, r: Response) returns (states: seq<State>, actions: seq<Action>)
    requires g.backendCapacity > 0 && g.cacheCapacity > 0
    requires WellNamed(p) && g.backend.open(p) == Opened(r)
    requires r.status != 404 && r.length.Some? && r.length.value <= g.limit && r.length.value < MAX_INT
    requires r.status != 200
    ensures IsRun(g, states, actions) && AllNamed(actions)
    ensures var s := states[|actions|];
            1 in s.calls && s.calls[1].phase.Returned? && s.calls[1].job == OpenJob(p)
            && !Agrees(g.backend, OpenJob(p), s.calls[1].phase.result)
  {
    var j := OpenJob(p);
    var replay := Response(200, r.length, r.lastModified, r.contentType, r.body);
    var kept := map[BlobKey(p) := KeptResponse(r)];
    states, actions := OpenAlone(g, p, r);
    states, actions := Extend(g, states, actions, Fill(0, false, false),
      State(kept, map[0 := Call(j, Stored(FromOpen(Opened(r))))], 0, 1, 0));
    states, actions := Extend(g, states, actions, Start(1, j), Replaying(p, r, Looking));
    states, actions := Extend(g, states, actions, LookUp(1, false),
      Replaying(p, r, Returned(FromOpen(Opened(replay)), false)));
  }

  /** An undisturbed first Open returns what the backend answers. */
  lemma OpenAnswers(g: Config, p: Path) returns (states: seq<State>, actions: seq<Action>)
    requires g.backendCapacity > 0 && g.cacheCapacity > 0 && WellNamed(p)
    ensures IsRun(g, states, actions) && AllNamed(actions)
    ensures var calls := states[|actions|].calls;
            && 0 in calls && calls[0].job == OpenJob(p) && calls[0].phase.Returned?
            && calls[0].phase.result == FromOpen(Meant(g.backend.open(p)))
  {
    var j, a := OpenJob(p), g.backend.open(p);
    var missing := map[BlobKey(p) := NOT_FOUND];
    states, actions := CallingAlone(g, j);
    if a == NotExist || (a.Opened? && a.response.status == 404) {
      states, actions := Extend(g, states, actions, Answer(0, false, false),
        State(missing, map[0 := Call(j, Returned(FromOpen(NotExist), false))], 0, 0, 0));
    } else if !a.Opened? {
      states, actions := Extend(g, states, actions, Answer(0, false, false),
        Alone(j, Returned(FromOpen(a), false), 0, 0));
    } else if a.response.length.Some? && a.response.length.value <= g.limit {
      var r := a.response;
      var kept := map[BlobKey(p) := KeptResponse(r)];
      states, actions := OpenAlone(g, p, r);
      states, actions := Extend(g, states, actions, Fill(0, false, false),
        State(kept, map[0 := Call(j, Stored(FromOpen(a)))], 0, 1, 0));
      states, actions := Extend(g, states, actions, Release(0),
        State(kept, map[0 := Call(j, Returned(FromOpen(a), false))], 0, 0, 0));
    } else {
      states, actions := Extend(g, states, actions, Answer(0, false, false),
        Alone(j, Returned(FromOpen(a), true), 1, 0));
    }
  }

  /** The same for List and for range requests. */
  lemma ListAnswers(g: Config, p: Path) returns (states: seq<State>, actions: seq<Action>)
    requires g.backendCapacity > 0 && g.cacheCapacity > 0 && WellNamed(p)
    ensures IsRun(g, states, actions) && AllNamed(actions)
    ensures var calls := states[|actions|].calls;
            && 0 in calls && calls[0].job == ListJob(p) && calls[0].phase.Returned?
            && calls[0].phase.result == FromList(g.backend.list(p))
  {
    var j, a := ListJob(p), g.backend.list(p);
    states, actions := CallingAlone(g, j);
    match a
    case ListFailed =>
      states, actions := Extend(g, states, actions, Answer(0, false, false),
        Alone(j, Returned(FromList(a), false), 0, 0));
    case ListNotExist =>
      states, actions := Extend(g, states, actions, Answer(0, false, false),
        State(map[DirKey(p) := NOT_FOUND], map[0 := Call(j, Returned(FromList(a), false))], 0, 0, 0));
    case Listed(e) =>
      var kept := map[DirKey(p) := KeptEntries(g.json, e)];
      states, actions := Extend(g, states, actions, Answer(0, false, false), Alone(j, ListFetched(e), 1, 0));
      states, actions := Extend(g, states, actions, TryCache(0), Alone(j, ListCaching(e), 1, 1));
      states, actions := Extend(g, states, actions, Fill(0, false, false),
        State(kept, map[0 := Call(j, ListStored(e))], 1, 0, 0));
      states, actions := Extend(g, states, actions, Release(0),
        State(kept, map[0 := Call(j, Returned(FromList(a), false))], 0, 0, 0));
  }

  lemma RangeAnswers(g: Config, p: Path) returns (states: seq<State>, actions: seq<Action>)
    ensures IsRun(g, states, actions) && AllNamed(actions)
    ensures states[|actions|].calls == map[0 := Call(RangeJob(p), Returned(FromOpen(g.backend.ranged(p)), false))]
  {
    states, actions := [INIT], [];
    states, actions := Extend(g, states, actions, Start(0, RangeJob(p)),
      Alone(RangeJob(p), Returned(FromOpen(g.backend.ranged(p)), false), 0, 0));
  }

  /** A hit returns what the store holds, without a backend slot. */
  lemma HitReturns(g: Config, states: seq<State>, actions: seq<Action>, i: nat, c: CallId)
    requires IsRun(g, states, actions) && i < |actions| && actions[i] == LookUp(c, false)
    ensures c in states[i].calls && c in states[i + 1].calls
    ensures var s, t, job := states[i], states[i + 1], states[i].calls[c].job;
            && t.store == s.store && t.backendSlots == s.backendSlots
            && (job.OpenJob? && BlobKey(job.p) in s.store ==>
                  t.calls[c].phase.Returned? && t.calls[c].phase.result.FromOpen? && !t.calls[c].phase.slot
                  && Some(t.calls[c].phase.result.open) == LoadResponse(Some(s.store[BlobKey(job.p)])))
            && (job.ListJob? && DirKey(job.p) in s.store && LoadEntries(g.json, Some(s.store[DirKey(job.p)])).Some? ==>
                  t.calls[c].phase.Returned? && t.calls[c].phase.result.FromList?
                  && Some(t.calls[c].phase.result.list) == LoadEntries(g.json, Some(s.store[DirKey(job.p)])))
  {
    assert Enabled(g, states[i], actions[i]) && states[i + 1] == Apply(g, states[i], actions[i]);
  }

  /** A cancelled wait ends in a failure and holds nothing; an evicted key is gone, and nothing else. */
  lemma CancelAndEvict(g: Config, states: seq<State>, actions: seq<Action>, i: nat, c: CallId, key: string)
    requires IsRun(g, states, actions) && i < |actions|
    ensures var s, t := states[i], states[i + 1];
            && (actions[i] == Cancel(c) ==>
                  c in t.calls && t.calls[c].phase == Returned(Failure(t.calls[c].job), false)
                  && t.store == s.store && t.backendSlots == s.backendSlots && t.cacheSlots == s.cacheSlots)
            && (actions[i] == Evict(key) ==>
                  t == s.(store := t.store) && key !in t.store && SameBut(s.store, t.store, key))
  {
    assert Enabled(g, states[i], actions[i]) && states[i + 1] == Apply(g, states[i], actions[i]);
  }

  /** No response longer than the limit is on its way into the cache or in it. */
  ghost predicate WithinLimit(g: Config, s: State) {
    && (forall key :: key in s.store && s.store[key].length.Some? ==> s.store[key].length.value <= g.limit)
    && (forall c :: c in s.calls && (s.calls[c].phase.Fetched? || s.calls[c].phase.Caching?) ==>
          s.calls[c].phase.r.length.Some? && s.calls[c].phase.r.length.value <= g.limit)
  }

  lemma WithinLimitStep(g: Config, s: State, a: Action)
    requires WithinLimit(g, s) && Enabled(g, s, a)
    ensures WithinLimit(g, Apply(g, s, a))
  {
    if !a.Start? && !a.Evict? {
      EffectWithinLimit(g, s, a);
    }
  }

  lemma EffectWithinLimit(g: Config, s: State, a: Action)
    requires WithinLimit(g, s) && AtStep(g, s, a) && !a.Start? && !a.Evict?
    ensures var e := EffectOf(g, s, a);
            && (e.phase.Fetched? || e.phase.Caching? ==> e.phase.r.length.Some? && e.phase.r.length.value <= g.limit)
            && (e.put.Some? && e.put.value.1.length.Some? ==> e.put.value.1.length.value <= g.limit)
  {}

  /** Nothing over the limit is ever kept. */
  lemma {:induction false} KeptWithinLimit(g: Config, states: seq<State>, actions: seq<Action>, i: nat)
    requires IsRun(g, states, actions) && i < |states|
    ensures WithinLimit(g, states[i])
  {
    if i > 0 {
      KeptWithinLimit(g, states, actions, i - 1);
      WithinLimitStep(g, states[i - 1], actions[i - 1]);
    }
  }

  /** Every result returned in this state is the backend's answer or a failure. */
  ghost predicate AllAgree(g: Config, s: State) {
    forall c :: c in s.calls && s.calls[c].phase.Returned? ==>
      Agrees(g.backend, s.calls[c].job, s.calls[c].phase.result)
  }

  ghost predicate AlwaysAgrees(g: Config) {
    forall states: seq<State>, actions: seq<Action> ::
      IsRun(g, states, actions) && AllNamed(actions) ==> AllAgree(g, states[|actions|])
  }

  /** The condition is exact: the cache is transparent in all runs if and only if every response
      that it can keep and load again has status 200. */
  lemma AgreesIffReplayable(g: Config)
    requires Faithful(g.json) && g.backendCapacity > 0 && g.cacheCapacity > 0
    ensures AlwaysAgrees(g) <==> Replayable(g.backend, g.limit)
  {
    if Replayable(g.backend, g.limit) {
      forall states: seq<State>, actions: seq<Action> | IsRun(g, states, actions) && AllNamed(actions)
        ensures AllAgree(g, states[|actions|])
      {
        RunAgrees(g, states, actions, |actions|);
      }
    } else {
      var p :| WellNamed(p) && g.backend.open(p).Opened? && Cacheable(g.limit, g.backend.open(p).response)
               && !TooLong(g.limit, g.backend.open(p)) && g.backend.open(p).response.status != 200;
      var states, actions := BadStatusReplayed(g, p, g.backend.open(p).response);
      assert !AllAgree(g, states[|actions|]);
    }
  }

  // ---------------------------------------------------------------- a body closed twice

  /** The ids of the calls so far are below n. */
  ghost predicate Below(s: State, n: CallId) {
    forall c :: c in s.calls ==> c < n
  }

  /** One more call of Meta that gets to the backend. */
  lemma MetaEnters(g: Config, states: seq<State>, actions: seq<Action>, c: CallId)
    returns (states': seq<State>, actions': seq<Action>)
    requires IsRun(g, states, actions) && AllNamed(actions)
    requires c !in states[|actions|].calls && 0 <= states[|actions|].backendSlots < g.backendCapacity
    ensures IsRun(g, states', actions') && AllNamed(actions')
    ensures var s := states[|actions|];
            states'[|actions'|] == s.(calls := s.calls[c := Call(MetaJob, Calling)], backendSlots := s.backendSlots + 1)
  {
    var s := states[|actions|];
    var t := s.(calls := s.calls[c := Call(MetaJob, Waiting)]);
    states', actions' := Extend(g, states, actions, Start(c, MetaJob), t);
    assert t.calls[c := Call(MetaJob, Calling)] == s.calls[c := Call(MetaJob, Calling)];
    states', actions' := Extend(g, states', actions', Acquire(c),
      s.(calls := s.calls[c := Call(MetaJob, Calling)], backendSlots := s.backendSlots + 1));
  }

  /** Calls of Meta until the backend is full. */
  lemma {:induction false} FillBackend(g: Config, states: seq<State>, actions: seq<Action>, n: CallId)
    returns (states': seq<State>, actions': seq<Action>, n': CallId)
    requires IsRun(g, states, actions) && AllNamed(actions) && Below(states[|actions|], n)
    requires 0 <= states[|actions|].backendSlots <= g.backendCapacity
    ensures IsRun(g, states', actions') && AllNamed(actions') && Below(states'[|actions'|], n')
    ensures states'[|actions'|].backendSlots == g.backendCapacity
    ensures states'[|actions'|].extra == states[|actions|].extra
    ensures forall c :: c in states[|actions|].calls ==>
              c in states'[|actions'|].calls && states'[|actions'|].calls[c] == states[|actions|].calls[c]
    decreases g.backendCapacity - states[|actions|].backendSlots
  {
    if states[|actions|].backendSlots == g.backendCapacity {
      return states, actions, n;
    }
    states', actions' := MetaEnters(g, states, actions, n);
    states', actions', n' := FillBackend(g, states', actions', n + 1);
  }

  /** A streamed body, returned and closed. */
  lemma StreamAndClose(g: Config, p: Path, r: Response) returns (states: seq<State>, actions: seq<Action>)
    requires g.backendCapacity > 0 && WellNamed(p)
    requires g.backend.open(p) == Opened(r) && r.status != 404 && (r.length.Some? ==> r.length.value > g.limit)
    ensures IsRun(g, states, actions) && AllNamed(actions)
    ensures states[|actions|] == Alone(OpenJob(p), Closed(FromOpen(Opened(r)), true), 0, 0)
  {
    var j := OpenJob(p);
    states, actions := CallingAlone(g, j);
    states, actions := Extend(g, states, actions, Answer(0, false, false),
      Alone(j, Returned(FromOpen(Opened(r)), true), 1, 0));
    states, actions := Extend(g, states, actions, Close(0), Alone(j, Closed(FromOpen(Opened(r)), true), 0, 0));
  }

  lemma CloseOnceMore(g: Config, states: seq<State>, actions: seq<Action>, c: CallId)
    returns (states': seq<State>, actions': seq<Action>)
    requires IsRun(g, states, actions) && AllNamed(actions) && c in states[|actions|].calls
    requires states[|actions|].calls[c].phase.Closed? && states[|actions|].calls[c].phase.slot
    requires states[|actions|].backendSlots > 0
    ensures IsRun(g, states', actions') && AllNamed(actions')
    ensures var s := states[|actions|];
            states'[|actions'|] == s.(backendSlots := s.backendSlots - 1, extra := s.extra + 1)
  {
    var s := states[|actions|];
    assert s.calls[c := s.calls[c]] == s.calls;
    states', actions' := Extend(g, states, actions, CloseAgain(c),
      s.(backendSlots := s.backendSlots - 1, extra := s.extra + 1));
  }

  /** For every capacity and every response that is streamed there is a run with one repeated Close
      after which more calls are at the backend than its semaphore admits. */
  lemma DoubleCloseOverfills(g: Config, p: Path, r: Response) returns (states: seq<State>, actions: seq<Action>)
    requires g.backendCapacity > 0 && WellNamed(p)
    requires g.backend.open(p) == Opened(r) && r.status != 404 && (r.length.Some? ==> r.length.value > g.limit)
    ensures IsRun(g, states, actions)
    ensures states[|actions|].extra == 1 && states[|actions|].backendSlots == g.backendCapacity
    ensures |BackendHolders(states[|actions|].calls)| == g.backendCapacity + 1
  {
    states, actions := StreamAndClose(g, p, r);
    var n: CallId;
    states, actions, n := FillBackend(g, states, actions, 1);
    states, actions := CloseOnceMore(g, states, actions, 0);
    states, actions := MetaEnters(g, states, actions, n);
    RunBalanced(g, states, actions, |actions|);
  }
}
