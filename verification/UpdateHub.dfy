/** The per-repository watcher groups (pkg/core/update_hub.go).

    A request attaches a watcher for the commit it serves; a published commit kills the
    watchers of every other commit; the last release closes the group.  Request ids are
    unique (pkg/server.go:247-248 draws a UUID), so an id names its watcher. */
module UpdateHub {

  type Key = string
  type Commit = string
  type Request = string
  type GroupId = nat

  /** The part of a group that its mutex guards. */
  datatype Group = Group(closed: bool, lastSeen: Commit, watchers: map<Commit, set<Request>>)

  const EMPTY_GROUP := Group(false, "", map[])

  function Bucket(g: Group, commit: Commit): set<Request> {
    if commit in g.watchers then g.watchers[commit] else {}
  }

  function AddWatcher(g: Group, commit: Commit, r: Request): Group {
    g.(watchers := g.watchers[commit := Bucket(g, commit) + {r}])
  }

  /** Remove a watcher, and its bucket with it when that becomes empty. */
  function RemoveWatcher(g: Group, commit: Commit, r: Request): Group {
    if commit !in g.watchers then g
    else if g.watchers[commit] - {r} == {} then g.(watchers := g.watchers - {commit})
    else g.(watchers := g.watchers[commit := g.watchers[commit] - {r}])
  }

  /** Those an update to `commit` takes: the watchers of all other commits. */
  function Victims(g: Group, commit: Commit): set<Request> {
    if commit == g.lastSeen then {}
    else set c, r | c in g.watchers && c != commit && r in g.watchers[c] :: r
  }

  function AfterUpdate(g: Group, commit: Commit): Group {
    if commit == g.lastSeen then g
    else g.(lastSeen := commit, watchers := map c | c in g.watchers && c == commit :: g.watchers[c])
  }

  ghost predicate NoEmptyBucket(g: Group) {
    forall c :: c in g.watchers ==> g.watchers[c] != {}
  }

  /** Every watcher is in the bucket of the commit it was attached for. */
  ghost predicate Filed(g: Group, commitOf: map<Request, Commit>) {
    forall c, r :: c in g.watchers && r in g.watchers[c] ==> r in commitOf && commitOf[r] == c
  }

  // ---------------------------------------------------------------- the objects

  class RepoUpdateGroup {
    const key: Key
    var closed: bool
    var lastSeenCommit: Commit
    var watchers: map<Commit, set<Request>>

    constructor (key: Key)
      ensures View() == EMPTY_GROUP && this.key == key
    {
      this.key := key;
      closed, lastSeenCommit, watchers := false, "", map[];
    }

    function View(): Group
      reads this
    {
      Group(closed, lastSeenCommit, watchers)
    }

    /** handleUpdate: walk the buckets, collecting and dropping all but the new commit's. */
    method HandleUpdate(commit: Commit) returns (victims: set<Request>)
      modifies this
      ensures View() == AfterUpdate(old(View()), commit)
      ensures victims == Victims(old(View()), commit)
    {
      victims := {};
      if commit == lastSeenCommit {
        return;
      }
      lastSeenCommit := commit;
      var todo := watchers.Keys;
      while todo != {}
        invariant closed == old(closed) && lastSeenCommit == commit
        invariant todo <= watchers.Keys <= old(watchers).Keys
        invariant forall c :: c in watchers ==> watchers[c] == old(watchers)[c]
        invariant forall c :: c in old(watchers) ==> (c in watchers <==> c in todo || c == commit)
        invariant victims == set c, r | c in old(watchers) && c !in watchers && r in old(watchers)[c] :: r
        decreases todo
      {
        var c :| c in todo;
        todo := todo - {c};
        if c != commit {
          victims := victims + watchers[c];
          watchers := watchers - {c};
        }
      }
    }
  }

  class RepoUpdateHub {
    var repos: map<Key, RepoUpdateGroup>

    constructor ()
      ensures Valid() && repos == map[]
    {
      repos := map[];
    }

    /** Stored groups are open and stored under their own key. */
    ghost predicate Valid()
      reads this, repos.Values
    {
      forall k :: k in repos ==> repos[k].key == k && !repos[k].closed
    }

    method Attach(key: Key, commit: Commit, r: Request) returns (group: RepoUpdateGroup)
      requires Valid()
      modifies this, if key in repos then {repos[key]} else {}
      ensures Valid() && repos == old(repos)[key := group]
      ensures key in old(repos) ==> group == old(repos[key])
      ensures key !in old(repos) ==> fresh(group)
      ensures group.View() == AddWatcher(if key in old(repos) then old(repos[key].View()) else EMPTY_GROUP, commit, r)
    {
      if key in repos {
        group := repos[key];
      } else {
        group := new RepoUpdateGroup(key);
        repos := repos[key := group];
      }
      var bucket := if commit in group.watchers then group.watchers[commit] else {};
      group.watchers := group.watchers[commit := bucket + {r}];
    }

    /** Only the releasing watcher's own group is touched, and the table only loses that
        group, so a release that comes late leaves a successor alone. */
    method Detach(group: RepoUpdateGroup, commit: Commit, r: Request) returns (shouldClose: bool)
      requires Valid()
      requires !group.closed ==> group.key in repos && repos[group.key] == group
      modifies this, group
      ensures Valid()
      ensures var g := RemoveWatcher(old(group.View()), commit, r);
              && shouldClose == (!g.closed && g.watchers == map[])
              && group.View() == g.(closed := g.closed || shouldClose)
      ensures repos == if shouldClose then old(repos) - {group.key} else old(repos)
    {
      if commit in group.watchers {
        var bucket := group.watchers[commit] - {r};
        if bucket == {} {
          group.watchers := group.watchers - {commit};
        } else {
          group.watchers := group.watchers[commit := bucket];
        }
      }
      shouldClose := group.watchers == map[] && !group.closed;
      if shouldClose {
        group.closed := true;
        repos := repos - {group.key};
      }
    }

    method SubscriptionEnded(group: RepoUpdateGroup)
      requires Valid()
      requires !group.closed ==> group.key in repos && repos[group.key] == group
      modifies this, group
      ensures Valid() && group.View() == old(group.View()).(closed := true)
      ensures repos == if old(group.closed) then old(repos) else old(repos) - {group.key}
    {
      if !group.closed {
        group.closed := true;
        if group.key in repos && repos[group.key] == group {
          repos := repos - {group.key};
        }
      }
    }
  }

  // ---------------------------------------------------------------- interleavings

  datatype Fate = Attached | Released | Taken

  /** A watcher's history: where and when it was attached, and whether its release ran. */
  datatype Watcher = Watcher(group: GroupId, commit: Commit, fate: Fate, released: bool, attachedAt: nat)

  /** The hub mutex.  An Attach holds it from the table lookup to the registration; an
      update takes only the group mutex and may run in between. */
  datatype HubLock = Free | Attaching(group: GroupId, commit: Commit, r: Request)

  /** A group with its key and the time its lastSeenCommit was set. */
  datatype Slot = Slot(key: Key, group: Group, seenAt: nat)

  datatype State = State(
    lock: HubLock, repos: map<Key, GroupId>, slots: map<GroupId, Slot>,
    watchers: map<Request, Watcher>, toKill: set<Request>, kills: map<Request, nat>, clock: nat)

  datatype Action =
    | Lookup(key: Key, commit: Commit, r: Request)
    | Register
    | Release(r: Request)
    | Update(group: GroupId, commit: Commit)
    | Kill(r: Request)
    | SubscriptionEnd(group: GroupId)

  const INIT := State(Free, map[], map[], map[], {}, map[], 0)

  function Kills(s: State, r: Request): nat {
    if r in s.kills then s.kills[r] else 0
  }

  predicate Enabled(s: State, a: Action) {
    match a
    case Lookup(key, _, r) => s.lock == Free && r !in s.watchers && (key in s.repos ==> s.repos[key] in s.slots)
    case Register => s.lock.Attaching? && s.lock.group in s.slots
    case Release(r) =>
      s.lock == Free && r in s.watchers && !s.watchers[r].released && s.watchers[r].group in s.slots
    case Update(g, _) => g in s.slots
    case Kill(r) => r in s.toKill
    case SubscriptionEnd(g) => s.lock == Free && g in s.slots
  }

  function DoLookup(s: State, key: Key, commit: Commit, r: Request): State {
    if key in s.repos then s.(lock := Attaching(s.repos[key], commit, r))
    else
      s.(lock := Attaching(s.clock, commit, r), repos := s.repos[key := s.clock],
         slots := s.slots[s.clock := Slot(key, EMPTY_GROUP, s.clock)], clock := s.clock + 1)
  }

  /** With the group closed the source starts the Attach over. */
  function DoRegister(s: State): State
    requires Enabled(s, Register)
  {
    var Attaching(g, commit, r) := s.lock;
    var slot := s.slots[g];
    if slot.group.closed then s.(lock := Free)
    else
      s.(lock := Free, slots := s.slots[g := slot.(group := AddWatcher(slot.group, commit, r))],
         watchers := s.watchers[r := Watcher(g, commit, Attached, false, s.clock)], clock := s.clock + 1)
  }

  function DoRelease(s: State, r: Request): State
    requires Enabled(s, Release(r))
  {
    var w := s.watchers[r];
    var slot := s.slots[w.group];
    var g := RemoveWatcher(slot.group, w.commit, r);
    var shouldClose := g.watchers == map[] && !g.closed;
    s.(slots := s.slots[w.group := slot.(group := g.(closed := g.closed || shouldClose))],
       repos := if shouldClose then s.repos - {slot.key} else s.repos,
       watchers := s.watchers[r := w.(released := true, fate := if w.fate == Attached then Released else w.fate)])
  }

  function DoUpdate(s: State, g: GroupId, commit: Commit): State
    requires g in s.slots
  {
    var slot := s.slots[g];
    var victims := Victims(slot.group, commit);
    if commit == slot.group.lastSeen then s
    else
      s.(slots := s.slots[g := Slot(slot.key, AfterUpdate(slot.group, commit), s.clock)],
         watchers := map r | r in s.watchers ::
           if r in victims then s.watchers[r].(fate := Taken) else s.watchers[r],
         toKill := s.toKill + victims, clock := s.clock + 1)
  }

  function DoSubscriptionEnd(s: State, g: GroupId): State
    requires g in s.slots
  {
    var slot := s.slots[g];
    if slot.group.closed then s
    else
      s.(slots := s.slots[g := slot.(group := slot.group.(closed := true))],
         repos := if slot.key in s.repos && s.repos[slot.key] == g then s.repos - {slot.key} else s.repos)
  }

  function Apply(s: State, a: Action): State
    requires Enabled(s, a)
  {
    match a
    case Lookup(key, commit, r) => DoLookup(s, key, commit, r)
    case Register => DoRegister(s)
    case Release(r) => DoRelease(s, r)
    case Update(g, commit) => DoUpdate(s, g, commit)
    case Kill(r) => s.(toKill := s.toKill - {r}, kills := s.kills[r := Kills(s, r) + 1])
    case SubscriptionEnd(g) => DoSubscriptionEnd(s, g)
  }

  ghost predicate IsRun(states: seq<State>, actions: seq<Action>) {
    && |states| == |actions| + 1
    && states[0] == INIT
    && forall i :: 0 <= i < |actions| ==>
         Enabled(states[i], actions[i]) && states[i + 1] == Apply(states[i], actions[i])
  }

  /** A group is open exactly when it is the one stored under its key. */
  ghost predicate Stored(s: State, g: GroupId)
    requires g in s.slots
  {
    s.slots[g].key in s.repos && s.repos[s.slots[g].key] == g
  }

  ghost predicate Table(s: State) {
    && (forall k :: k in s.repos ==> s.repos[k] in s.slots && s.slots[s.repos[k]].key == k)
    && (forall g :: g in s.slots ==> g < s.clock && s.slots[g].seenAt < s.clock)
    && (forall g :: g in s.slots ==> (!s.slots[g].group.closed <==> Stored(s, g)))
    && (s.lock.Attaching? ==>
          s.lock.group in s.slots && !s.slots[s.lock.group].group.closed && s.lock.r !in s.watchers)
  }

  ghost predicate InBucket(s: State, g: GroupId, c: Commit, r: Request) {
    g in s.slots && r in Bucket(s.slots[g].group, c)
  }

  /** Buckets hold exactly the attached watchers, and no bucket is empty. */
  ghost predicate Filing(s: State) {
    && (forall g :: g in s.slots ==> NoEmptyBucket(s.slots[g].group))
    && (forall g, c, r :: InBucket(s, g, c, r) ==>
          r in s.watchers && s.watchers[r].group == g && s.watchers[r].commit == c && s.watchers[r].fate == Attached)
    && (forall r :: r in s.watchers ==>
          && s.watchers[r].group in s.slots
          && (s.watchers[r].fate == Attached ==> InBucket(s, s.watchers[r].group, s.watchers[r].commit, r)))
  }

  /** One fate at a time; taken watchers are killed once, others never. */
  ghost predicate Fates(s: State) {
    forall r {:trigger Kills(s, r)} {:trigger r in s.toKill} {:trigger r in s.watchers} ::
      && (r in s.toKill ==> r in s.watchers && s.watchers[r].fate == Taken && Kills(s, r) == 0)
      && Kills(s, r) <= 1
      && (Kills(s, r) == 1 ==> r in s.watchers && s.watchers[r].fate == Taken)
      && (r in s.watchers && s.watchers[r].fate == Taken ==> r in s.toKill || Kills(s, r) == 1)
      && (r in s.watchers && s.watchers[r].fate == Attached ==> !s.watchers[r].released)
      && (r in s.watchers && s.watchers[r].fate == Released ==> s.watchers[r].released)
  }

  ghost predicate Owes(s: State, r: Request, g: GroupId) {
    r in s.watchers && s.watchers[r].group == g && !s.watchers[r].released
  }

  /** An open group has an outstanding release, or an Attach about to give it one. */
  ghost predicate Outstanding(s: State, g: GroupId) {
    (s.lock.Attaching? && s.lock.group == g) || exists r :: Owes(s, r, g)
  }

  ghost predicate OpenGroupsOwed(s: State) {
    forall g :: g in s.slots && !s.slots[g].group.closed ==> Outstanding(s, g)
  }

  /** A registered watcher of another commit was attached after that commit was seen. */
  ghost predicate Recent(s: State) {
    forall r :: r in s.watchers && s.watchers[r].fate == Attached ==>
      && s.watchers[r].attachedAt < s.clock
      && s.watchers[r].group in s.slots
      && (var slot := s.slots[s.watchers[r].group];
          s.watchers[r].commit != slot.group.lastSeen ==> s.watchers[r].attachedAt > slot.seenAt)
  }

  ghost predicate Inv(s: State) {
    Table(s) && Filing(s) && Fates(s) && OpenGroupsOwed(s) && Recent(s)
  }

  lemma TableLookup(s: State, key: Key, commit: Commit, r: Request)
    requires Table(s) && Enabled(s, Lookup(key, commit, r))
    ensures Table(DoLookup(s, key, commit, r))
  {
    assert key in s.repos ==> Stored(s, s.repos[key]);
  }

  lemma TableRelease(s: State, r: Request)
    requires Table(s) && Enabled(s, Release(r))
    ensures Table(DoRelease(s, r))
  {
    var g := s.watchers[r].group;
    forall k | k in s.repos && s.repos[k] == g ensures k == s.slots[g].key {
    }
    forall h | h in s.slots && h != g ensures Stored(DoRelease(s, r), h) <==> Stored(s, h) {
    }
  }

  lemma TableSubscriptionEnd(s: State, g: GroupId)
    requires Table(s) && Enabled(s, SubscriptionEnd(g))
    ensures Table(DoSubscriptionEnd(s, g))
  {
    forall h | h in s.slots && h != g ensures Stored(DoSubscriptionEnd(s, g), h) <==> Stored(s, h) {
    }
  }

  lemma TableRegister(s: State)
    requires Table(s) && Enabled(s, Register)
    ensures Table(DoRegister(s))
  {
    forall h | h in s.slots ensures Stored(DoRegister(s), h) <==> Stored(s, h) {
    }
  }

  lemma TableUpdate(s: State, g: GroupId, commit: Commit)
    requires Table(s) && g in s.slots
    requires s.lock.Attaching? ==> s.lock.r !in DoUpdate(s, g, commit).watchers
    ensures Table(DoUpdate(s, g, commit))
  {
    forall h | h in s.slots ensures Stored(DoUpdate(s, g, commit), h) <==> Stored(s, h) {
    }
  }

  lemma TableStep(s: State, a: Action)
    requires Table(s) && Enabled(s, a)
    ensures Table(Apply(s, a))
  {
    match a
    case Lookup(key, commit, r) => TableLookup(s, key, commit, r);
    case Register => TableRegister(s);
    case Release(r) => TableRelease(s, r);
    case Update(g, commit) => TableUpdate(s, g, commit);
    case Kill(r) => assert forall h :: h in s.slots ==> (Stored(Apply(s, a), h) <==> Stored(s, h));
    case SubscriptionEnd(g) => TableSubscriptionEnd(s, g);
  }

  lemma RegisterFiles(s: State)
    requires Table(s) && Filing(s) && Enabled(s, Register)
    ensures Filing(DoRegister(s))
  {
    var Attaching(g, commit, r) := s.lock;
    var t := DoRegister(s);
    forall h, c, q | InBucket(t, h, c, q)
      ensures InBucket(s, h, c, q) || (h == g && c == commit && q == r)
    {
    }
    forall h, c, q | InBucket(s, h, c, q) ensures InBucket(t, h, c, q) {
    }
  }

  /** Removing r from the bucket of its own commit removes it from the group. */
  lemma RemovedFrom(s: State, r: Request)
    requires Filing(s) && r in s.watchers
    ensures var w := s.watchers[r];
            var g := s.slots[w.group].group;
            && NoEmptyBucket(RemoveWatcher(g, w.commit, r))
            && forall c, q :: q in Bucket(RemoveWatcher(g, w.commit, r), c) <==> q in Bucket(g, c) && q != r
  {
    var w := s.watchers[r];
    forall c | r in Bucket(s.slots[w.group].group, c) ensures c == w.commit {
      assert InBucket(s, w.group, c, r);
    }
  }

  lemma ReleaseFiles(s: State, r: Request)
    requires Filing(s) && Enabled(s, Release(r))
    ensures Filing(DoRelease(s, r))
  {
    var w := s.watchers[r];
    var t := DoRelease(s, r);
    RemovedFrom(s, r);
    forall h, c, q ensures InBucket(t, h, c, q) <==> InBucket(s, h, c, q) && q != r {
      assert h in s.slots && h != w.group ==> t.slots[h] == s.slots[h];
      assert InBucket(s, h, c, r) ==> h == w.group;
    }
  }

  lemma VictimsAreFiled(s: State, g: GroupId, commit: Commit, r: Request)
    requires Filing(s) && g in s.slots && commit != s.slots[g].group.lastSeen
    ensures r in Victims(s.slots[g].group, commit) <==>
              r in s.watchers && s.watchers[r].fate == Attached
              && s.watchers[r].group == g && s.watchers[r].commit != commit
  {
    var before := s.slots[g].group;
    if r in Victims(before, commit) {
      var c :| c in before.watchers && c != commit && r in before.watchers[c];
      assert InBucket(s, g, c, r);
    } else if r in s.watchers && s.watchers[r].fate == Attached && s.watchers[r].group == g {
      assert InBucket(s, g, s.watchers[r].commit, r);
    }
  }

  lemma UpdateFiles(s: State, g: GroupId, commit: Commit)
    requires Filing(s) && g in s.slots
    ensures Filing(DoUpdate(s, g, commit))
  {
    var t := DoUpdate(s, g, commit);
    if commit == s.slots[g].group.lastSeen {
      return;
    }
    forall h, c, q ensures InBucket(t, h, c, q) <==> InBucket(s, h, c, q) && (h == g ==> c == commit) {
    }
    forall q ensures q in Victims(s.slots[g].group, commit) ==> q in s.watchers {
      VictimsAreFiled(s, g, commit, q);
    }
    forall q | q in s.watchers
      ensures t.watchers[q] == s.watchers[q] || t.watchers[q] == s.watchers[q].(fate := Taken)
      ensures t.watchers[q].fate == Attached <==>
                s.watchers[q].fate == Attached && (s.watchers[q].group == g ==> s.watchers[q].commit == commit)
    {
      VictimsAreFiled(s, g, commit, q);
    }
  }

  lemma LookupFiles(s: State, key: Key, commit: Commit, r: Request)
    requires Table(s) && Filing(s)
    ensures Filing(DoLookup(s, key, commit, r))
  {
    assert forall h, c, q :: InBucket(DoLookup(s, key, commit, r), h, c, q) <==> InBucket(s, h, c, q);
  }

  lemma SubscriptionEndFiles(s: State, g: GroupId)
    requires Filing(s) && g in s.slots
    ensures Filing(DoSubscriptionEnd(s, g))
  {
    assert forall h, c, q :: InBucket(DoSubscriptionEnd(s, g), h, c, q) <==> InBucket(s, h, c, q);
  }

  lemma FilingStep(s: State, a: Action)
    requires Table(s) && Filing(s) && Enabled(s, a)
    ensures Filing(Apply(s, a))
  {
    match a
    case Lookup(key, commit, r) => LookupFiles(s, key, commit, r);
    case Register => RegisterFiles(s);
    case Release(r) => ReleaseFiles(s, r);
    case Update(g, commit) => UpdateFiles(s, g, commit);
    case Kill(r) => assert forall h, c, q :: InBucket(Apply(s, a), h, c, q) <==> InBucket(s, h, c, q);
    case SubscriptionEnd(g) => SubscriptionEndFiles(s, g);
  }

  lemma UpdateFates(s: State, g: GroupId, commit: Commit)
    requires Filing(s) && Fates(s) && g in s.slots && commit != s.slots[g].group.lastSeen
    ensures Fates(DoUpdate(s, g, commit))
  {
    var t := DoUpdate(s, g, commit);
    forall q ensures Kills(t, q) == Kills(s, q) {
    }
    forall q ensures q in Victims(s.slots[g].group, commit) ==>
        q in s.watchers && s.watchers[q].fate == Attached && Kills(s, q) == 0
    {
      VictimsAreFiled(s, g, commit, q);
    }
  }

  lemma RegisterFates(s: State)
    requires Table(s) && Fates(s) && Enabled(s, Register)
    ensures Fates(DoRegister(s))
  {
    assert Kills(s, s.lock.r) == 0 && s.lock.r !in s.toKill;
    assert forall q :: Kills(DoRegister(s), q) == Kills(s, q);
  }

  lemma ReleaseFates(s: State, r: Request)
    requires Fates(s) && Enabled(s, Release(r))
    ensures Fates(DoRelease(s, r))
  {
    assert forall q :: Kills(DoRelease(s, r), q) == Kills(s, q);
  }

  lemma KillFates(s: State, r: Request)
    requires Fates(s) && Enabled(s, Kill(r))
    ensures Fates(Apply(s, Kill(r)))
  {
    assert forall q :: Kills(Apply(s, Kill(r)), q) == Kills(s, q) + if q == r then 1 else 0;
  }

  /** Steps that touch neither watchers nor kills. */
  lemma SameFates(s: State, t: State)
    requires Fates(s) && t.watchers == s.watchers && t.toKill == s.toKill && t.kills == s.kills
    ensures Fates(t)
  {
    assert forall q :: Kills(t, q) == Kills(s, q);
  }

  lemma FatesStep(s: State, a: Action)
    requires Table(s) && Filing(s) && Fates(s) && Enabled(s, a)
    ensures Fates(Apply(s, a))
  {
    match a
    case Register => RegisterFates(s);
    case Release(r) => ReleaseFates(s, r);
    case Update(g, commit) =>
      if commit != s.slots[g].group.lastSeen {
        UpdateFates(s, g, commit);
      }
    case Kill(r) => KillFates(s, r);
    case _ => SameFates(s, Apply(s, a));
  }

  lemma UpdateRecent(s: State, g: GroupId, commit: Commit)
    requires Table(s) && Filing(s) && Recent(s) && g in s.slots
    ensures Recent(DoUpdate(s, g, commit))
  {
    var t := DoUpdate(s, g, commit);
    if commit != s.slots[g].group.lastSeen {
      forall q | q in s.watchers && t.watchers[q].fate == Attached && s.watchers[q].group == g
        ensures s.watchers[q].commit == commit
      {
        VictimsAreFiled(s, g, commit, q);
      }
    }
  }

  /** Actions other than Update leave lastSeenCommit, and its time, of every group alone. */
  lemma SeenUnchanged(s: State, a: Action, g: GroupId)
    requires Table(s) && Enabled(s, a) && !a.Update? && g in s.slots
    ensures g in Apply(s, a).slots && Apply(s, a).slots[g].seenAt == s.slots[g].seenAt
    ensures Apply(s, a).slots[g].group.lastSeen == s.slots[g].group.lastSeen
  {
  }

  lemma RecentStep(s: State, a: Action)
    requires Table(s) && Filing(s) && Recent(s) && Enabled(s, a)
    ensures Recent(Apply(s, a))
  {
    if a.Update? {
      UpdateRecent(s, a.group, a.commit);
      return;
    }
    var t := Apply(s, a);
    forall q | q in t.watchers && t.watchers[q].fate == Attached
      ensures t.watchers[q].attachedAt < t.clock && t.watchers[q].group in t.slots
      ensures var slot := t.slots[t.watchers[q].group];
              t.watchers[q].commit != slot.group.lastSeen ==> t.watchers[q].attachedAt > slot.seenAt
    {
      var g := t.watchers[q].group;
      assert g in s.slots;
      SeenUnchanged(s, a, g);
    }
  }

  /** A group left with no outstanding release has no watcher, so its last release closes it. */
  lemma LastReleaseEmpties(s: State, r: Request)
    requires Filing(s) && Fates(s) && Enabled(s, Release(r))
    requires forall q :: Owes(s, q, s.watchers[r].group) ==> q == r
    ensures RemoveWatcher(s.slots[s.watchers[r].group].group, s.watchers[r].commit, r).watchers == map[]
  {
    var w := s.watchers[r];
    var g := RemoveWatcher(s.slots[w.group].group, w.commit, r);
    RemovedFrom(s, r);
    forall c | c in g.watchers ensures false {
      var q :| q in g.watchers[c];
      assert q in Bucket(g, c);
      assert InBucket(s, w.group, c, q);
      assert Owes(s, q, w.group);
    }
  }

  /** Only its own release settles what a watcher owes. */
  lemma OwesUntilReleased(s: State, a: Action, q: Request, h: GroupId)
    requires Table(s) && Enabled(s, a) && Owes(s, q, h) && a != Release(q)
    ensures Owes(Apply(s, a), q, h)
  {
  }

  lemma ReleaseOwed(s: State, r: Request)
    requires Filing(s) && Fates(s) && OpenGroupsOwed(s) && Enabled(s, Release(r))
    ensures var h := s.watchers[r].group;
            !DoRelease(s, r).slots[h].group.closed ==> Outstanding(DoRelease(s, r), h)
  {
    var h := s.watchers[r].group;
    if forall q :: Owes(s, q, h) ==> q == r {
      LastReleaseEmpties(s, r);
    } else {
      var q :| Owes(s, q, h) && q != r;
      assert Owes(DoRelease(s, r), q, h);
    }
  }

  /** An owed release stays owed, and an Attach under way for a group stays so until it registers. */
  lemma StaysOwed(s: State, a: Action, h: GroupId)
    requires Table(s) && Enabled(s, a) && Outstanding(s, h)
    requires !(a == Register && s.lock.group == h) && !(a.Release? && h == s.watchers[a.r].group)
    ensures Outstanding(Apply(s, a), h)
  {
    if !(s.lock.Attaching? && s.lock.group == h) {
      var q :| Owes(s, q, h);
      OwesUntilReleased(s, a, q, h);
    }
  }

  lemma RegisterOwed(s: State)
    requires Table(s) && Enabled(s, Register)
    ensures Outstanding(DoRegister(s), s.lock.group)
  {
    assert Owes(DoRegister(s), s.lock.r, s.lock.group);
  }

  /** Only a Lookup adds a group, and it holds the hub lock for it. */
  lemma NewGroupOwed(s: State, a: Action, h: GroupId)
    requires Enabled(s, a) && h in Apply(s, a).slots && h !in s.slots
    ensures Outstanding(Apply(s, a), h)
  {
  }

  /** What an action does to one group's claim to be owed a release. */
  lemma OwedStep(s: State, a: Action, h: GroupId)
    requires Table(s) && Filing(s) && Fates(s) && OpenGroupsOwed(s) && Enabled(s, a)
    requires h in Apply(s, a).slots && !Apply(s, a).slots[h].group.closed
    ensures Outstanding(Apply(s, a), h)
  {
    if h !in s.slots {
      NewGroupOwed(s, a, h);
    } else if a == Register && s.lock.group == h {
      RegisterOwed(s);
    } else if a.Release? && h == s.watchers[a.r].group {
      ReleaseOwed(s, a.r);
    } else {
      assert !s.slots[h].group.closed;
      StaysOwed(s, a, h);
    }
  }

  lemma StepKeepsInv(s: State, a: Action)
    requires Inv(s) && Enabled(s, a)
    ensures Inv(Apply(s, a))
  {
    TableStep(s, a);
    FilingStep(s, a);
    FatesStep(s, a);
    RecentStep(s, a);
    var t := Apply(s, a);
    forall h | h in t.slots && !t.slots[h].group.closed ensures Outstanding(t, h) {
      OwedStep(s, a, h);
    }
  }

  lemma {:induction false} RunKeepsInv(states: seq<State>, actions: seq<Action>, i: nat)
    requires IsRun(states, actions) && i < |states|
    ensures Inv(states[i])
  {
    if i > 0 {
      RunKeepsInv(states, actions, i - 1);
      StepKeepsInv(states[i - 1], actions[i - 1]);
    }
  }

  /** In every state of every run a group is open exactly when it is the one stored under
      its key, and an Attach that found a group always finds it open when it registers. */
  lemma OpenIffStored(states: seq<State>, actions: seq<Action>, i: nat, g: GroupId)
    requires IsRun(states, actions) && i < |states| && g in states[i].slots
    ensures !states[i].slots[g].group.closed <==> Stored(states[i], g)
    ensures states[i].lock.Attaching? ==>
              states[i].lock.group in states[i].slots && !states[i].slots[states[i].lock.group].group.closed
  {
    RunKeepsInv(states, actions, i);
  }

  /** Once every release has run and no Attach is under way, the table is empty. */
  lemma AllReleasedEmptiesTable(states: seq<State>, actions: seq<Action>, i: nat)
    requires IsRun(states, actions) && i < |states| && states[i].lock == Free
    requires forall r :: r in states[i].watchers ==> states[i].watchers[r].released
    ensures states[i].repos == map[]
  {
    RunKeepsInv(states, actions, i);
    var s := states[i];
    forall k ensures k !in s.repos {
      assert k in s.repos ==> Stored(s, s.repos[k]);
    }
  }

  /** A release touches no group but its own, and takes no other group out of the table. */
  lemma StaleReleaseSparesSuccessor(states: seq<State>, actions: seq<Action>, i: nat, r: Request, h: GroupId)
    requires IsRun(states, actions) && i < |actions| && actions[i] == Release(r)
    requires h in states[i].slots && h != states[i].watchers[r].group
    ensures h in states[i + 1].slots && states[i + 1].slots[h] == states[i].slots[h]
    ensures Stored(states[i + 1], h) <==> Stored(states[i], h)
  {
    RunKeepsInv(states, actions, i);
  }

  /** Each watcher has exactly one fate: in the bucket of its commit, released, or taken;
      it is killed at most once, only if taken, and a taken one is killed or about to be. */
  lemma OneFate(states: seq<State>, actions: seq<Action>, i: nat, r: Request)
    requires IsRun(states, actions) && i < |states| && r in states[i].watchers
    ensures var s := states[i];
            var w := s.watchers[r];
            && (w.fate == Attached <==> exists g, c :: InBucket(s, g, c, r))
            && (w.fate == Attached ==> InBucket(s, w.group, w.commit, r) && !w.released)
            && (w.fate == Released ==> w.released)
            && Kills(s, r) <= 1
            && (w.fate == Taken <==> r in s.toKill || Kills(s, r) == 1)
            && !(r in s.toKill && Kills(s, r) == 1)
  {
    RunKeepsInv(states, actions, i);
  }

  /** An update with a new commit takes exactly the group's registered watchers of other
      commits; everyone else keeps their fate. */
  lemma UpdateTakesExactly(states: seq<State>, actions: seq<Action>, i: nat, g: GroupId, commit: Commit, r: Request)
    requires IsRun(states, actions) && i < |actions| && actions[i] == Update(g, commit)
    requires r in states[i].watchers && commit != states[i].slots[g].group.lastSeen
    ensures r in states[i + 1].watchers
    ensures var w := states[i].watchers[r];
            if w.fate == Attached && w.group == g && w.commit != commit
            then states[i + 1].watchers[r] == w.(fate := Taken) && r in states[i + 1].toKill
            else states[i + 1].watchers[r] == w && (r in states[i + 1].toKill <==> r in states[i].toKill)
  {
    RunKeepsInv(states, actions, i);
    VictimsAreFiled(states[i], g, commit, r);
  }

  /** No bucket is empty, and a registered watcher whose commit is not the last one seen
      was attached after that one was seen. */
  lemma RegisteredAreCurrentOrNewer(states: seq<State>, actions: seq<Action>, i: nat, g: GroupId, c: Commit)
    requires IsRun(states, actions) && i < |states|
    requires g in states[i].slots && c in states[i].slots[g].group.watchers
    ensures states[i].slots[g].group.watchers[c] != {}
    ensures forall r :: r in states[i].slots[g].group.watchers[c] && c != states[i].slots[g].group.lastSeen ==>
              r in states[i].watchers && states[i].watchers[r].attachedAt > states[i].slots[g].seenAt
  {
    RunKeepsInv(states, actions, i);
    var s := states[i];
    forall r | r in s.slots[g].group.watchers[c] ensures InBucket(s, g, c, r) {
    }
  }

  /** An Attach finds the open group of its key, or enters a fresh one, and holds the lock for it. */
  lemma LookupFinds(states: seq<State>, actions: seq<Action>, i: nat, key: Key, commit: Commit, r: Request)
    requires IsRun(states, actions) && i < |actions| && actions[i] == Lookup(key, commit, r)
    ensures var s, t := states[i], states[i + 1];
            && key in t.repos && t.repos[key] in t.slots && t.slots[t.repos[key]].key == key
            && t.lock == Attaching(t.repos[key], commit, r)
            && (if key in s.repos then t.repos == s.repos && t.slots == s.slots
                else t.repos[key] !in s.slots && t.slots[t.repos[key]].group.watchers == map[])
  {
    RunKeepsInv(states, actions, i);
  }

  /** It registers its watcher there, for its commit. */
  lemma RegisterFilesOne(states: seq<State>, actions: seq<Action>, i: nat)
    requires IsRun(states, actions) && i < |actions| && actions[i] == Register
    ensures states[i].lock.Attaching? && states[i + 1].lock == Free
    ensures var s, t, l := states[i], states[i + 1], states[i].lock;
            && l.r !in s.watchers && l.r in t.watchers
            && t.watchers == s.watchers[l.r := Watcher(l.group, l.commit, Attached, false, t.watchers[l.r].attachedAt)]
            && InBucket(t, l.group, l.commit, l.r)
  {
    RunKeepsInv(states, actions, i);
    RunKeepsInv(states, actions, i + 1);
    assert Enabled(states[i], actions[i]) && states[i + 1] == Apply(states[i], actions[i]);
  }

  ghost predicate ClosedGroup(s: State, g: GroupId) {
    g in s.slots && s.slots[g].group.closed
  }

  lemma CloseStep(s: State, a: Action, g: GroupId)
    requires Inv(s) && Enabled(s, a) && ClosedGroup(Apply(s, a), g) && a != SubscriptionEnd(g)
    ensures || Apply(s, a).slots[g].group.watchers == map[]
            || (ClosedGroup(s, g) && s.slots[g].group.watchers != map[])
  {
  }

  lemma CloseNext(states: seq<State>, actions: seq<Action>, i: nat, g: GroupId)
    requires IsRun(states, actions) && i < |actions| && ClosedGroup(states[i + 1], g)
    requires actions[i] != SubscriptionEnd(g)
    ensures || states[i + 1].slots[g].group.watchers == map[]
            || (ClosedGroup(states[i], g) && states[i].slots[g].group.watchers != map[])
  {
    RunKeepsInv(states, actions, i);
    CloseStep(states[i], actions[i], g);
  }

  /** No group is closed under its watchers: a closed group has none left, or its subscription ended. */
  lemma {:induction false} ClosedMeansEmptyOrEnded(states: seq<State>, actions: seq<Action>, i: nat, g: GroupId)
    requires IsRun(states, actions) && i < |states| && ClosedGroup(states[i], g)
    ensures states[i].slots[g].group.watchers == map[] || exists k :: 0 <= k < i && actions[k] == SubscriptionEnd(g)
  {
    if i > 0 && actions[i - 1] != SubscriptionEnd(g) && states[i].slots[g].group.watchers != map[] {
      CloseNext(states, actions, i - 1, g);
      ClosedMeansEmptyOrEnded(states, actions, i - 1, g);
    }
  }

  /** The end of its subscription closes a group and takes it out of the table, its watchers kept. */
  lemma SubscriptionEndCloses(states: seq<State>, actions: seq<Action>, i: nat, g: GroupId)
    requires IsRun(states, actions) && i < |actions| && actions[i] == SubscriptionEnd(g)
    ensures g in states[i].slots && ClosedGroup(states[i + 1], g) && !Stored(states[i + 1], g)
    ensures states[i + 1].slots[g].group.watchers == states[i].slots[g].group.watchers
  {
    RunKeepsInv(states, actions, i);
    RunKeepsInv(states, actions, i + 1);
    assert Enabled(states[i], actions[i]) && states[i + 1] == Apply(states[i], actions[i]);
  }

  /** Nobody is stuck.  An Attach that holds the lock can register at once; with the lock free anyone can
      attach, every outstanding release can run and every subscription can end; updates and kills wait
      for no lock at all. */
  lemma NobodyIsStuck(
      states: seq<State>, actions: seq<Action>, i: nat, key: Key, commit: Commit, r: Request, g: GroupId)
    requires IsRun(states, actions) && i < |states|
    ensures var s := states[i];
            && (s.lock.Attaching? ==> Enabled(s, Register))
            && (s.lock == Free && r !in s.watchers ==> Enabled(s, Lookup(key, commit, r)))
            && (s.lock == Free && r in s.watchers && !s.watchers[r].released ==> Enabled(s, Release(r)))
            && (s.lock == Free && g in s.slots ==> Enabled(s, SubscriptionEnd(g)))
            && (g in s.slots ==> Enabled(s, Update(g, commit)))
            && (r in s.watchers && s.watchers[r].fate == Taken && Kills(s, r) == 0 ==> Enabled(s, Kill(r)))
  {
    RunKeepsInv(states, actions, i);
  }
}
