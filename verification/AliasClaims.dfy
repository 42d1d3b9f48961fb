/** When a listed domain points to the repository that lists it: exactly when no two
    repositories claim the same domain (pkg/core/alias.go, pkg/core/meta.go). */
module AliasClaims {
  import opened AliasStore
  import opened MetaFlight
  import opened Wrappers

  /** No refresh of r is in its Bind. */
  ghost predicate NoBind(s: State, r: Repo) {
    forall u: RunId :: u in s.runs && s.runs[u].repo == r ==> !s.runs[u].phase.Binding?
  }

  // ---------------------------------------------------------------- a domain with one claimant

  /** No other repository's list or Bind mentions d. */
  predicate Clear(phase: Phase, d: string) {
    phase.Binding? ==>
      && d !in phase.ds
      && match phase.pc
         case Swap(seen) => d !in OldDomains(seen)
         case Remove(rest) => d !in rest
         case Point(rest) => d !in rest
         case _ => true
  }

  ghost predicate OnlyClaimant(s: State, r: Repo, d: string) {
    && (forall q :: q != r ==> d !in Listed(s.kv, q))
    && (forall u: RunId :: u in s.runs && s.runs[u].repo != r ==> Clear(s.runs[u].phase, d))
  }

  /** r's own Bind has listed d and will still point it. */
  predicate WillPoint(phase: Phase, d: string) {
    phase.Binding? && ((phase.pc.Remove? && d in phase.ds) || (phase.pc.Point? && d in phase.pc.rest))
  }

  ghost predicate Reached(s: State, r: Repo, d: string) {
    d in Listed(s.kv, r) ==>
      PointsTo(s.kv, d, r) || exists u: RunId :: u in s.runs && s.runs[u].repo == r && WillPoint(s.runs[u].phase, d)
  }

  /** A store operation of another repository leaves d alone. */
  lemma OtherStoreOp(s: State, u: RunId, r: Repo, d: string)
    requires OnlyClaimant(s, r, d) && Enabled(s, StoreOp(u)) && s.runs[u].repo != r
    ensures var t := DoStoreOp(s, u);
            && Listed(t.kv, r) == Listed(s.kv, r) && (PointsTo(s.kv, d, r) ==> PointsTo(t.kv, d, r))
            && d !in Listed(t.kv, s.runs[u].repo) && Clear(t.runs[u].phase, d)
  {
    var pc := s.runs[u].phase.pc;
    assert Clear(s.runs[u].phase, d) && d !in Listed(s.kv, s.runs[u].repo);
    assert pc.Remove? && pc.rest != [] ==> pc.rest[0] in pc.rest;
    assert pc.Point? ==> pc.rest[0] in pc.rest;
    StoreOpEffect(s, u, r);
  }

  lemma OthersClear(s: State, a: Action, r: Repo, d: string, v: RunId)
    requires Flight(s) && OnlyClaimant(s, r, d) && Enabled(s, a) && v in Apply(s, a).runs
    requires Apply(s, a).runs[v].repo != r
    requires a.StartBind? && s.runs[a.u].repo != r ==> d !in a.ds
    ensures Clear(Apply(s, a).runs[v].phase, d)
  {
    if v in s.runs {
      OthersUnmoved(s, a, v);
      assert Clear(s.runs[v].phase, d);
      if a.StoreOp? && a.u == v {
        OtherStoreOp(s, v, r, d);
      }
    }
  }

  lemma OthersUnlisted(s: State, a: Action, r: Repo, d: string, q: Repo)
    requires OnlyClaimant(s, r, d) && Enabled(s, a) && q != r
    ensures d !in Listed(Apply(s, a).kv, q)
  {
    if a.StoreOp? {
      if q == s.runs[a.u].repo {
        OtherStoreOp(s, a.u, r, d);
      } else {
        StoreOpEffect(s, a.u, q);
      }
    }
  }

  /** The Bind of r itself: what it lists it will point, and what it points it has pointed. */
  lemma OwnStoreOp(s: State, u: RunId, r: Repo, d: string)
    requires Flight(s) && Progress(s) && Reached(s, r, d) && Enabled(s, StoreOp(u)) && s.runs[u].repo == r
    ensures Reached(DoStoreOp(s, u), r, d)
  {
    var t := DoStoreOp(s, u);
    var phase := s.runs[u].phase;
    assert Progresses(s.kv, s.runs[u]);
    if d in Listed(t.kv, r) && !PointsTo(t.kv, d, r) {
      if exists v: RunId :: v in s.runs && s.runs[v].repo == r && WillPoint(s.runs[v].phase, d) {
        var v: RunId :| v in s.runs && s.runs[v].repo == r && WillPoint(s.runs[v].phase, d);
        assert v == u;
      }
      assert WillPoint(t.runs[u].phase, d);
    }
  }

  lemma QuietReached(s: State, a: Action, r: Repo, d: string)
    requires Flight(s) && Reached(s, r, d) && Enabled(s, a) && !a.StoreOp?
    ensures Reached(Apply(s, a), r, d)
  {
    var t := Apply(s, a);
    assert t.kv == s.kv;
    if d in Listed(s.kv, r) && !PointsTo(s.kv, d, r) {
      var u: RunId :| u in s.runs && s.runs[u].repo == r && WillPoint(s.runs[u].phase, d);
      OthersUnmoved(s, a, u);
      assert WillPoint(t.runs[u].phase, d);
    }
  }

  lemma OtherReached(s: State, u: RunId, r: Repo, d: string)
    requires Flight(s) && OnlyClaimant(s, r, d) && Reached(s, r, d) && Enabled(s, StoreOp(u)) && s.runs[u].repo != r
    ensures Reached(DoStoreOp(s, u), r, d)
  {
    OtherStoreOp(s, u, r, d);
    if d in Listed(s.kv, r) && !PointsTo(s.kv, d, r) {
      var v: RunId :| v in s.runs && s.runs[v].repo == r && WillPoint(s.runs[v].phase, d);
      assert DoStoreOp(s, u).runs[v] == s.runs[v];
    }
  }

  lemma ClaimStep(s: State, a: Action, r: Repo, d: string)
    requires Flight(s) && Progress(s) && OnlyClaimant(s, r, d) && Reached(s, r, d) && Enabled(s, a)
    requires a.StartBind? && s.runs[a.u].repo != r ==> d !in a.ds
    ensures OnlyClaimant(Apply(s, a), r, d) && Reached(Apply(s, a), r, d)
  {
    var t := Apply(s, a);
    forall v: RunId | v in t.runs && t.runs[v].repo != r ensures Clear(t.runs[v].phase, d) {
      OthersClear(s, a, r, d, v);
    }
    forall q | q != r ensures d !in Listed(t.kv, q) {
      OthersUnlisted(s, a, r, d, q);
    }
    if !a.StoreOp? {
      QuietReached(s, a, r, d);
    } else if s.runs[a.u].repo == r {
      OwnStoreOp(s, a.u, r, d);
    } else {
      OtherReached(s, a.u, r, d);
    }
  }

  /** Only r binds d in this run. */
  ghost predicate Unclaimed(states: seq<State>, actions: seq<Action>, r: Repo, d: string) {
    forall i :: 0 <= i < |actions| && i < |states| && actions[i].StartBind? && actions[i].u in states[i].runs ==>
      states[i].runs[actions[i].u].repo == r || d !in actions[i].ds
  }

  lemma ClaimNext(capacity: nat, states: seq<State>, actions: seq<Action>, i: nat, r: Repo, d: string)
    requires IsRun(capacity, states, actions) && i < |actions| && Unclaimed(states, actions, r, d)
    requires OnlyClaimant(states[i], r, d) && Reached(states[i], r, d)
    ensures OnlyClaimant(states[i + 1], r, d) && Reached(states[i + 1], r, d)
  {
    MetaFlight.RunKeepsInv(capacity, states, actions, i);
    ClaimStep(states[i], actions[i], r, d);
  }

  lemma {:induction false} RunKeepsClaim(
      capacity: nat, states: seq<State>, actions: seq<Action>, i: nat, r: Repo, d: string)
    requires IsRun(capacity, states, actions) && i < |states| && Unclaimed(states, actions, r, d)
    ensures OnlyClaimant(states[i], r, d) && Reached(states[i], r, d)
  {
    if i > 0 {
      RunKeepsClaim(capacity, states, actions, i - 1, r, d);
      ClaimNext(capacity, states, actions, i - 1, r, d);
    }
  }

  /** A domain that no other repository binds: with no Bind of r under way, r lists it if and
      only if it points to r. */
  lemma ListedIffPoints(capacity: nat, states: seq<State>, actions: seq<Action>, i: nat, r: Repo, d: string)
    requires IsRun(capacity, states, actions) && i < |states| && Unclaimed(states, actions, r, d)
    requires NoBind(states[i], r)
    ensures d in Listed(states[i].kv, r) <==> PointsTo(states[i].kv, d, r)
  {
    RunKeepsClaim(capacity, states, actions, i, r, d);
    if PointsTo(states[i].kv, d, r) {
      QuietAliasesAreListed(capacity, states, actions, i, d, r);
    }
  }

  // ---------------------------------------------------------------- whole Binds, one after the other

  /** The domains that each repository's page may claim. */
  type Claims = (Repo, string) -> bool

  ghost predicate AllClaimed(claims: Claims, r: Repo, ds: seq<string>) {
    forall d :: d in ds ==> IsHostname(d) && claims(r, d)
  }

  /** Every Bind of the run is of domains that its repository claims. */
  ghost predicate Admitted(claims: Claims, states: seq<State>, actions: seq<Action>) {
    forall i :: 0 <= i < |actions| && i < |states| && actions[i].StartBind? && actions[i].u in states[i].runs ==>
      AllClaimed(claims, states[i].runs[actions[i].u].repo, actions[i].ds)
  }

  lemma Extend(claims: Claims, capacity: nat, states: seq<State>, actions: seq<Action>, a: Action, t: State)
    returns (states': seq<State>, actions': seq<Action>)
    requires IsRun(capacity, states, actions) && Admitted(claims, states, actions)
    requires Enabled(states[|actions|], a) && Apply(states[|actions|], a) == t
    requires a.StartBind? ==> AllClaimed(claims, states[|actions|].runs[a.u].repo, a.ds)
    ensures IsRun(capacity, states', actions') && Admitted(claims, states', actions') && states'[|actions'|] == t
  {
    states', actions' := states + [t], actions + [a];
  }

  lemma SameState(s: State, u: RunId)
    requires u in s.runs
    ensures s.In(u, s.runs[u].phase).(kv := s.kv) == s
  {
    assert s.runs[u := s.runs[u]] == s.runs;
  }

  lemma TwiceIn(s: State, u: RunId, p: Phase, kv: Store, p': Phase, kv': Store)
    requires u in s.runs
    ensures s.In(u, p).(kv := kv).In(u, p').(kv := kv') == s.In(u, p').(kv := kv')
  {
    assert s.runs[u := s.runs[u].(phase := p)][u := s.runs[u].(phase := p')] == s.runs[u := s.runs[u].(phase := p')];
  }

  /** The store operations of one Bind in a row. */
  lemma {:induction false} RunBind(
      claims: Claims, capacity: nat, states: seq<State>, actions: seq<Action>, u: RunId, n: nat)
    returns (states': seq<State>, actions': seq<Action>)
    requires IsRun(capacity, states, actions) && Admitted(claims, states, actions)
    requires var s := states[|actions|];
             && u in s.runs && s.runs[u].phase.Binding?
             && BindSteps(s.kv, s.runs[u].repo, s.runs[u].phase.ds, s.runs[u].phase.pc, n).1 == DONE
    ensures IsRun(capacity, states', actions') && Admitted(claims, states', actions')
    ensures var s := states[|actions|];
            var phase := s.runs[u].phase;
            states'[|actions'|]
            == s.In(u, phase.(pc := DONE)).(kv := BindSteps(s.kv, s.runs[u].repo, phase.ds, phase.pc, n).0)
    decreases n
  {
    var s := states[|actions|];
    var phase := s.runs[u].phase;
    if phase.pc == DONE {
      SameState(s, u);
      return states, actions;
    }
    var t := DoStoreOp(s, u);
    var (kv, pc) := BindStep(s.kv, s.runs[u].repo, phase.ds, phase.pc);
    assert t == s.In(u, phase.(pc := pc)).(kv := kv);
    states', actions' := Extend(claims, capacity, states, actions, StoreOp(u), t);
    states', actions' := RunBind(claims, capacity, states', actions', u, n - 1);
    TwiceIn(s, u, phase.(pc := pc), kv, phase.(pc := DONE),
      BindSteps(kv, s.runs[u].repo, phase.ds, pc, n - 1).0);
  }

  /** No refresh at all is in its Bind or in the table. */
  ghost predicate Idle(s: State) {
    s.updates == map[] && forall u: RunId :: u in s.runs ==> !s.runs[u].phase.Binding?
  }

  /** The refresh of r up to its Bind. */
  lemma EnterBind(
      claims: Claims, capacity: nat, states: seq<State>, actions: seq<Action>, w: WaiterId, r: Repo, ds: seq<string>)
    returns (states': seq<State>, actions': seq<Action>)
    requires IsRun(capacity, states, actions) && Admitted(claims, states, actions)
    requires Idle(states[|actions|]) && w !in states[|actions|].waiters && AllClaimed(claims, r, ds)
    ensures IsRun(capacity, states', actions') && Admitted(claims, states', actions')
    ensures var s, t := states[|actions|], states'[|actions'|];
            && t.kv == s.kv && t.updates == map[r := s.next] && t.waiters.Keys == s.waiters.Keys + {w}
            && t.runs == s.runs[s.next := Run(r, false, Binding(0, ds, Try))]
  {
    var s := states[|actions|];
    var s1 := Apply(s, WaitFor(r, w));
    states', actions' := Extend(claims, capacity, states, actions, WaitFor(r, w), s1);
    assert s1.runs[s.next].repo == r && s1.runs[s.next].phase.Working?;
    var s2 := Apply(s1, StartBind(s.next, 0, ds));
    states', actions' := Extend(claims, capacity, states', actions', StartBind(s.next, 0, ds), s2);
    assert s2.runs == s.runs[s.next := Run(r, false, Binding(0, ds, Try))];
  }

  /** And from its Bind's end. */
  lemma LeaveBind(claims: Claims, capacity: nat, states: seq<State>, actions: seq<Action>, u: RunId)
    returns (states': seq<State>, actions': seq<Action>)
    requires IsRun(capacity, states, actions) && Admitted(claims, states, actions)
    requires var s := states[|actions|];
             u in s.runs && Bound(s.runs[u].phase) && s.updates == map[s.runs[u].repo := u]
    ensures IsRun(capacity, states', actions') && Admitted(claims, states', actions')
    ensures var s, t := states[|actions|], states'[|actions'|];
            && t.kv == s.kv && t.updates == map[] && t.waiters == s.waiters
            && t.runs == s.runs[u := s.runs[u].(phase := Unlisted(Update(Some(s.runs[u].phase.meta), None)))]
  {
    var s := states[|actions|];
    var s1 := Apply(s, FinishBind(u));
    states', actions' := Extend(claims, capacity, states, actions, FinishBind(u), s1);
    states', actions' := Extend(claims, capacity, states', actions', Unlist(u), Apply(s1, Unlist(u)));
  }

  /** From any idle state of a run, a whole refresh of r that binds ds can follow, and it has the
      effect of an undisturbed Bind. */
  lemma WholeBind(
      claims: Claims, capacity: nat, states: seq<State>, actions: seq<Action>, w: WaiterId, r: Repo, ds: seq<string>)
    returns (states': seq<State>, actions': seq<Action>)
    requires IsRun(capacity, states, actions) && Admitted(claims, states, actions)
    requires Idle(states[|actions|]) && w !in states[|actions|].waiters && AllClaimed(claims, r, ds)
    ensures IsRun(capacity, states', actions') && Admitted(claims, states', actions')
    ensures var s, t := states[|actions|], states'[|actions'|];
            Idle(t) && t.waiters.Keys == s.waiters.Keys + {w} && IsBound(s.kv, t.kv, r, ds)
  {
    var s := states[|actions|];
    states', actions' := EnterBind(claims, capacity, states, actions, w, r, ds);
    StepsAloneBind(s.kv, r, ds);
    var n :| BindSteps(s.kv, r, ds, Try, n).1 == DONE && IsBound(s.kv, BindSteps(s.kv, r, ds, Try, n).0, r, ds);
    states', actions' := RunBind(claims, capacity, states', actions', s.next, n);
    states', actions' := LeaveBind(claims, capacity, states', actions', s.next);
  }

  // ---------------------------------------------------------------- two claimants

  /** Two repositories claim d.  After both have bound it, the first one lists it, and it points
      to the second. */
  lemma LaterBindWins(claims: Claims, capacity: nat, r: Repo, q: Repo, d: string)
    returns (states: seq<State>, actions: seq<Action>)
    requires r != q && IsHostname(d) && claims(r, d) && claims(q, d)
    ensures IsRun(capacity, states, actions) && Admitted(claims, states, actions)
    ensures var s := states[|actions|];
            Idle(s) && Listed(s.kv, r) == [d] && Listed(s.kv, q) == [d] && PointsTo(s.kv, d, q)
    ensures 2 !in states[|actions|].waiters
  {
    states, actions := [Init(capacity)], [];
    states, actions := WholeBind(claims, capacity, states, actions, 0, r, [d]);
    var first := states[|actions|].kv;
    assert BoundAt(map[], first, r, [d], ListOf(r)) && BoundAt(map[], first, r, [d], ListOf(q));
    states, actions := WholeBind(claims, capacity, states, actions, 1, q, [d]);
    var second := states[|actions|].kv;
    assert BoundAt(first, second, q, [d], ListOf(r)) && BoundAt(first, second, q, [d], ListOf(q));
    assert BoundAt(first, second, q, [d], Domain(d));
  }

  /** If then the first one drops the domain, its Bind deletes the alias whoever it points to: the
      second one lists d, and d points to nobody. */
  lemma DroppedAliasIsGone(claims: Claims, capacity: nat, r: Repo, q: Repo, d: string)
    returns (states: seq<State>, actions: seq<Action>)
    requires r != q && IsHostname(d) && claims(r, d) && claims(q, d)
    ensures IsRun(capacity, states, actions) && Admitted(claims, states, actions)
    ensures var s := states[|actions|];
            Idle(s) && Listed(s.kv, r) == [] && Listed(s.kv, q) == [d] && Domain(d) !in s.kv
  {
    states, actions := LaterBindWins(claims, capacity, r, q, d);
    var before := states[|actions|].kv;
    states, actions := WholeBind(claims, capacity, states, actions, 2, r, []);
    var after := states[|actions|].kv;
    assert BoundAt(before, after, r, [], ListOf(r)) && BoundAt(before, after, r, [], ListOf(q));
    assert BoundAt(before, after, r, [], Domain(d));
  }

  // ---------------------------------------------------------------- the exact condition

  /** What is listed was claimed. */
  ghost predicate Claimed(claims: Claims, s: State) {
    && (forall r :: AllClaimed(claims, r, Listed(s.kv, r)))
    && (forall u: RunId :: u in s.runs && s.runs[u].phase.Binding? ==>
          AllClaimed(claims, s.runs[u].repo, s.runs[u].phase.ds))
  }

  /** A list changes only to what its repository's Bind binds. */
  lemma ListAfter(s: State, u: RunId, r: Repo)
    requires Enabled(s, StoreOp(u))
    ensures var t := DoStoreOp(s, u);
            Listed(t.kv, r) == Listed(s.kv, r) || (r == s.runs[u].repo && Listed(t.kv, r) == s.runs[u].phase.ds)
  {
    if r != s.runs[u].repo {
      StoreOpEffect(s, u, r);
    }
  }

  lemma ClaimedStep(claims: Claims, s: State, a: Action)
    requires Flight(s) && Claimed(claims, s) && Enabled(s, a)
    requires a.StartBind? ==> AllClaimed(claims, s.runs[a.u].repo, a.ds)
    ensures Claimed(claims, Apply(s, a))
  {
    var t := Apply(s, a);
    forall u: RunId | u in t.runs && t.runs[u].phase.Binding?
      ensures AllClaimed(claims, t.runs[u].repo, t.runs[u].phase.ds)
    {
      if u in s.runs {
        OthersUnmoved(s, a, u);
        assert s.runs[u].phase.Binding? ==> AllClaimed(claims, s.runs[u].repo, s.runs[u].phase.ds);
      }
    }
    forall r ensures AllClaimed(claims, r, Listed(t.kv, r)) {
      if a.StoreOp? {
        ListAfter(s, a.u, r);
      }
    }
  }

  lemma {:induction false} RunKeepsClaimed(
      claims: Claims, capacity: nat, states: seq<State>, actions: seq<Action>, i: nat)
    requires IsRun(capacity, states, actions) && Admitted(claims, states, actions) && i < |states|
    ensures Claimed(claims, states[i])
  {
    if i > 0 {
      RunKeepsClaimed(claims, capacity, states, actions, i - 1);
      MetaFlight.RunKeepsInv(capacity, states, actions, i - 1);
      ClaimedStep(claims, states[i - 1], actions[i - 1]);
    }
  }

  /** Repositories without a Bind under way list only domains that point to them. */
  ghost predicate Consistent(s: State) {
    forall r, d :: NoBind(s, r) && d in Listed(s.kv, r) ==> PointsTo(s.kv, d, r)
  }

  ghost predicate AlwaysConsistent(claims: Claims, capacity: nat) {
    forall states: seq<State>, actions: seq<Action> ::
      IsRun(capacity, states, actions) && Admitted(claims, states, actions) ==> Consistent(states[|actions|])
  }

  /** No host name is claimed twice. */
  ghost predicate Exclusive(claims: Claims) {
    forall r, q, d :: IsHostname(d) && claims(r, d) && claims(q, d) ==> r == q
  }

  lemma ExclusiveIsConsistent(claims: Claims, capacity: nat, states: seq<State>, actions: seq<Action>)
    requires Exclusive(claims) && IsRun(capacity, states, actions) && Admitted(claims, states, actions)
    ensures Consistent(states[|actions|])
  {
    var s := states[|actions|];
    RunKeepsClaimed(claims, capacity, states, actions, |actions|);
    forall r, d | NoBind(s, r) && d in Listed(s.kv, r) ensures PointsTo(s.kv, d, r) {
      assert AllClaimed(claims, r, Listed(s.kv, r));
      assert Unclaimed(states, actions, r, d);
      ListedIffPoints(capacity, states, actions, |actions|, r, d);
    }
  }

  /** In all runs a listed domain points to its repository, with none of that repository's Binds
      under way, if and only if no two repositories claim the same host name. */
  lemma ConsistentIffExclusive(claims: Claims, capacity: nat)
    ensures AlwaysConsistent(claims, capacity) <==> Exclusive(claims)
  {
    if Exclusive(claims) {
      forall states: seq<State>, actions: seq<Action>
        | IsRun(capacity, states, actions) && Admitted(claims, states, actions)
        ensures Consistent(states[|actions|])
      {
        ExclusiveIsConsistent(claims, capacity, states, actions);
      }
    } else {
      var r, q, d :| IsHostname(d) && claims(r, d) && claims(q, d) && r != q;
      var states, actions := LaterBindWins(claims, capacity, r, q, d);
      var s := states[|actions|];
      assert NoBind(s, r) && d in Listed(s.kv, r) && !PointsTo(s.kv, d, r);
    }
  }
}
