/**
 The concurrency limits of common/copr_common/worker_manager.py: PredicateWorkerLimit, and
 HashWorkerLimit with its StringCounter.  A limit is a statistic over the running workers; it is
 cleared and re-counted from time to time, and the same worker may be counted more than once.
 */
module Limits {
  import opened Wrappers
  import opened Tasks

  /** The state of one limit object together with what it was made with. */
  datatype Limit =
    | PredicateLimit(predicate_: Task -> bool, limit: int, matching: set<Id>)
    | HashLimit(hasher: Task -> Option<string>, limit: int, counter: map<string, nat>)

  function CountOf(counter: map<string, nat>, name: Option<string>): nat {
    if name.Some? && name.value in counter then counter[name.value] else 0
  }

  function AddTo(counter: map<string, nat>, name: Option<string>): map<string, nat> {
    if name.None? then counter else counter[name.value := CountOf(counter, name) + 1]
  }

  /** The counter after these names were added to an empty one. */
  function Counter(names: seq<Option<string>>): map<string, nat> {
    if names == [] then map[] else AddTo(Counter(names[..|names| - 1]), names[|names| - 1])
  }

  /** The counter counts: every name as often as it was added, and None never. */
  lemma {:induction false} CountsOccurrences(names: seq<Option<string>>, name: Option<string>)
    ensures CountOf(Counter(names), name) == if name.Some? then multiset(names)[name] else 0
  {
    if names != [] {
      var n := |names| - 1;
      CountsOccurrences(names[..n], name);
      assert names == names[..n] + [names[n]];
    }
  }

  function Cleared(l: Limit): Limit {
    match l
    case PredicateLimit(p, n, _) => PredicateLimit(p, n, {})
    case HashLimit(h, n, _) => HashLimit(h, n, map[])
  }

  function Added(l: Limit, worker: Id, task: Task): Limit {
    match l
    case PredicateLimit(p, n, m) => if p(task) then PredicateLimit(p, n, m + {worker}) else l
    case HashLimit(h, n, c) => HashLimit(h, n, AddTo(c, h(task)))
  }

  /** Nothing is counted yet. */
  predicate Unused(l: Limit) {
    match l
    case PredicateLimit(_, _, m) => m == {}
    case HashLimit(_, _, c) => c == map[]
  }

  predicate Allows(l: Limit, task: Task) {
    match l
    case PredicateLimit(p, n, m) => p(task) ==> |m| < n
    case HashLimit(h, n, c) => CountOf(c, h(task)) < n
  }

  predicate AllAllow(limits: seq<Limit>, task: Task) {
    forall k :: 0 <= k < |limits| ==> Allows(limits[k], task)
  }

  // ---------------------------------------------------------------- what a limit is about

  /** The group of a task under a limit; None when the limit does not group it. */
  function GroupOf(l: Limit, task: Task): Option<string> {
    match l
    case PredicateLimit(p, _, _) => if p(task) then Some("") else None
    case HashLimit(h, _, _) => h(task)
  }

  function Counted(l: Limit, group: string): nat {
    match l
    case PredicateLimit(_, _, m) => |m|
    case HashLimit(_, _, c) => CountOf(c, Some(group))
  }

  /** The running workers of a group. */
  function Members(l: Limit, group: string, running: map<Id, Task>): set<Id> {
    set w | w in running && GroupOf(l, running[w]) == Some(group)
  }

  /** The statistic never says less than the truth. */
  ghost predicate Covers(l: Limit, running: map<Id, Task>) {
    match l
    case PredicateLimit(_, _, m) => Members(l, "", running) <= m
    case HashLimit(_, _, c) => forall g :: |Members(l, g, running)| <= CountOf(c, Some(g))
  }

  lemma CoversCounts(l: Limit, running: map<Id, Task>, g: string)
    requires Covers(l, running)
    ensures |Members(l, g, running)| <= Counted(l, g)
  {
    if l.PredicateLimit? {
      assert Members(l, g, running) <= Members(l, "", running);
      Subset(Members(l, g, running), l.matching);
    }
  }

  ghost predicate SameRule(l: Limit, k: Limit) {
    match l
    case PredicateLimit(p, n, _) => k.PredicateLimit? && k.predicate_ == p && k.limit == n
    case HashLimit(h, n, _) => k.HashLimit? && k.hasher == h && k.limit == n
  }

  lemma Subset(a: set<Id>, b: set<Id>)
    requires a <= b
    ensures |a| <= |b|
  {
    assert b == a + (b - a);
  }

  lemma ClearedCoversNobody(l: Limit)
    ensures Covers(Cleared(l), map[]) && SameRule(l, Cleared(l))
  {
    forall g ensures Members(Cleared(l), g, map[]) == {} {
    }
  }

  lemma MembersAdded(l: Limit, g: string, running: map<Id, Task>, worker: Id, task: Task)
    requires l.HashLimit?
    ensures Members(Added(l, worker, task), g, running[worker := task]) <=
            Members(l, g, running) + if GroupOf(l, task) == Some(g) then {worker} else {}
  {
  }

  /** Counting a worker under its task keeps the statistic sound, also when it was counted before. */
  lemma AddedCovers(l: Limit, running: map<Id, Task>, worker: Id, task: Task)
    requires Covers(l, running)
    ensures Covers(Added(l, worker, task), running[worker := task])
    ensures SameRule(l, Added(l, worker, task))
  {
    if l.HashLimit? {
      forall g
        ensures |Members(Added(l, worker, task), g, running[worker := task])| <=
                CountOf(AddTo(l.counter, l.hasher(task)), Some(g))
      {
        MembersAdded(l, g, running, worker, task);
        Subset(Members(Added(l, worker, task), g, running[worker := task]),
               Members(l, g, running) + if GroupOf(l, task) == Some(g) then {worker} else {});
      }
    }
  }

  /** A worker that ends leaves the statistic sound: it is only too high from then on. */
  lemma RemovedCovers(l: Limit, running: map<Id, Task>, gone: set<Id>)
    requires Covers(l, running)
    ensures Covers(l, running - gone)
  {
    if l.HashLimit? {
      forall g ensures |Members(l, g, running - gone)| <= CountOf(l.counter, Some(g)) {
        Subset(Members(l, g, running - gone), Members(l, g, running));
      }
    }
  }

  /** A start that passed the check leaves its group within the limit. */
  lemma CheckedStartStaysWithin(l: Limit, running: map<Id, Task>, worker: Id, task: Task, group: string)
    requires Covers(l, running) && Allows(l, task) && worker !in running
    requires GroupOf(l, task) == Some(group)
    ensures |Members(l, group, running[worker := task])| <= l.limit
  {
    CoversCounts(l, running, group);
    assert Members(l, group, running[worker := task]) == Members(l, group, running) + {worker};
  }

  /** The statistic is the truth: every running worker was counted, and once. */
  ghost predicate Exact(l: Limit, running: map<Id, Task>) {
    match l
    case PredicateLimit(_, _, m) => m == Members(l, "", running)
    case HashLimit(_, _, c) => forall g :: CountOf(c, Some(g)) == |Members(l, g, running)|
  }

  lemma ClearedIsExact(l: Limit)
    ensures Exact(Cleared(l), map[])
  {
    forall g ensures Members(Cleared(l), g, map[]) == {} {
    }
  }

  /** The group of a new worker gains it, every other group stays. */
  lemma MembersGrow(l: Limit, g: string, running: map<Id, Task>, worker: Id, task: Task)
    requires worker !in running
    ensures worker !in Members(l, g, running)
    ensures Members(l, g, running[worker := task]) ==
            if GroupOf(l, task) == Some(g) then Members(l, g, running) + {worker} else Members(l, g, running)
  {
  }

  lemma SameRuleSameMembers(l: Limit, k: Limit, g: string, running: map<Id, Task>)
    requires SameRule(l, k)
    ensures Members(k, g, running) == Members(l, g, running)
  {
    forall w | w in running ensures GroupOf(l, running[w]) == GroupOf(k, running[w]) {
    }
  }

  lemma AddedIsExactHash(l: Limit, running: map<Id, Task>, worker: Id, task: Task, g: string)
    requires l.HashLimit? && Exact(l, running) && worker !in running
    ensures CountOf(Added(l, worker, task).counter, Some(g)) == |Members(l, g, running[worker := task])|
  {
    MembersGrow(l, g, running, worker, task);
    assert CountOf(l.counter, Some(g)) == |Members(l, g, running)|;
  }

  /** Counting a worker that was not counted before keeps the statistic exact. */
  lemma AddedIsExact(l: Limit, running: map<Id, Task>, worker: Id, task: Task)
    requires Exact(l, running) && worker !in running
    ensures Exact(Added(l, worker, task), running[worker := task])
  {
    var l', running' := Added(l, worker, task), running[worker := task];
    if l.HashLimit? {
      forall g ensures CountOf(l'.counter, Some(g)) == |Members(l', g, running')| {
        AddedIsExactHash(l, running, worker, task, g);
        SameRuleSameMembers(l, l', g, running');
      }
    } else {
      MembersGrow(l, "", running, worker, task);
      SameRuleSameMembers(l, l', "", running');
    }
  }

  /** Over an exact statistic the check is neither too strict nor too lax. */
  lemma ExactCheck(l: Limit, running: map<Id, Task>, task: Task, group: string)
    requires Exact(l, running) && GroupOf(l, task) == Some(group)
    ensures Allows(l, task) <==> |Members(l, group, running)| < l.limit
  {
  }

  /**
   A task without a group is never held back by a predicate limit, and by a hash limit exactly
   when the limit is not positive.
   */
  lemma UngroupedTask(l: Limit, task: Task)
    requires GroupOf(l, task).None?
    ensures Allows(l, task) <==> (l.PredicateLimit? || l.limit > 0)
  {
  }

  // ---------------------------------------------------------------- the objects

  class StringCounter {
    var counter: map<string, nat>

    constructor ()
      ensures counter == map[]
    {
      counter := map[];
    }

    method Add(name: Option<string>)
      modifies this
      ensures counter == AddTo(old(counter), name)
    {
      if name.None? {
        return;
      }
      if name.value in counter {
        counter := counter[name.value := counter[name.value] + 1];
      } else {
        counter := counter[name.value := 1];
      }
    }

    method Count(name: Option<string>) returns (n: nat)
      ensures n == CountOf(counter, name)
    {
      n := if name.Some? && name.value in counter then counter[name.value] else 0;
    }
  }

  class PredicateWorkerLimit {
    const predicate_: Task -> bool
    const limit: int
    var refs: map<Id, bool>

    constructor (p: Task -> bool, limit: int)
      ensures State() == PredicateLimit(p, limit, {})
    {
      predicate_, this.limit, refs := p, limit, map[];
    }

    function State(): Limit
      reads this
    {
      PredicateLimit(predicate_, limit, refs.Keys)
    }

    method Clear()
      modifies this
      ensures State() == Cleared(old(State()))
    {
      refs := map[];
    }

    method WorkerAdded(worker: Id, task: Task)
      modifies this
      ensures State() == Added(old(State()), worker, task)
    {
      if !predicate_(task) {
        return;
      }
      refs := refs[worker := true];
      assert refs.Keys == old(refs.Keys) + {worker};
    }

    method Check(task: Task) returns (ok: bool)
      ensures ok == Allows(State(), task)
    {
      if !predicate_(task) {
        return true;
      }
      assert |refs| == |refs.Keys|;
      ok := |refs| < limit;
    }
  }

  class HashWorkerLimit {
    const hasher: Task -> Option<string>
    const limit: int
    var groups: StringCounter
    var refs: map<Id, Option<string>>

    constructor (hasher: Task -> Option<string>, limit: int)
      ensures State() == HashLimit(hasher, limit, map[]) && fresh(groups)
    {
      this.hasher, this.limit, refs := hasher, limit, map[];
      groups := new StringCounter();
    }

    function State(): Limit
      reads this, groups
    {
      HashLimit(hasher, limit, groups.counter)
    }

    method Clear()
      modifies this
      ensures State() == Cleared(old(State())) && fresh(groups)
    {
      groups := new StringCounter();
      refs := map[];
    }

    method WorkerAdded(worker: Id, task: Task)
      modifies this, groups
      ensures State() == Added(old(State()), worker, task) && groups == old(groups)
    {
      var name := hasher(task);
      refs := refs[worker := name];
      groups.Add(name);
    }

    method Check(task: Task) returns (ok: bool)
      ensures ok == Allows(State(), task)
    {
      var n := groups.Count(hasher(task));
      ok := n < limit;
    }
  }

  // ---------------------------------------------------------------- the list of limits

  datatype LimitObject = ByPredicate(p: PredicateWorkerLimit) | ByHash(h: HashWorkerLimit)

  function Self(o: LimitObject): object {
    match o
    case ByPredicate(p) => p
    case ByHash(h) => h
  }

  /** The objects that hold the state of one limit. */
  ghost function Parts(o: LimitObject): set<object>
    reads Self(o)
  {
    match o
    case ByPredicate(p) => {p}
    case ByHash(h) => {h, h.groups}
  }

  ghost function StateOf(o: LimitObject): Limit
    reads Self(o), Parts(o)
  {
    match o
    case ByPredicate(p) => p.State()
    case ByHash(h) => h.State()
  }

  /** The limit objects of a worker manager, none of which shares anything with another. */
  class LimitList {
    var objects: seq<LimitObject>
    ghost var states: seq<Limit>
    ghost var Repr: set<object>

    ghost predicate Valid()
      reads this, Repr
    {
      && this in Repr
      && |states| == |objects|
      && (forall k :: 0 <= k < |objects| ==> Held(k))
      && (forall j, k :: 0 <= j < k < |objects| ==> Apart(j, k))
    }

    /** Object k belongs to this list, and is in the state that the list promises. */
    ghost predicate Held(k: nat)
      requires k < |objects| == |states|
      reads this, Repr
    {
      && Self(objects[k]) in Repr && Self(objects[k]) != this
      && Parts(objects[k]) <= Repr && this !in Parts(objects[k])
      && StateOf(objects[k]) == states[k]
    }

    ghost predicate Apart(j: nat, k: nat)
      requires j < |objects| && k < |objects|
      reads this, Repr
    {
      && Self(objects[j]) in Repr && Self(objects[k]) in Repr
      && Self(objects[j]) != Self(objects[k])
      && Parts(objects[j]) !! Parts(objects[k])
    }

    constructor ()
      ensures Valid() && fresh(Repr) && states == []
    {
      objects, states := [], [];
      Repr := {this};
    }

    /** self.limits.append(...), with a new object for this limit. */
    method Append(l: Limit)
      requires Valid() && Unused(l)
      modifies this
      ensures Valid() && fresh(Repr - old(Repr)) && states == old(states) + [l]
    {
      ghost var n := |objects|;
      match l {
        case PredicateLimit(p, limit, _) =>
          var o := new PredicateWorkerLimit(p, limit);
          objects, Repr := objects + [ByPredicate(o)], Repr + {o};
        case HashLimit(h, limit, _) =>
          var o := new HashWorkerLimit(h, limit);
          objects, Repr := objects + [ByHash(o)], Repr + {o, o.groups};
      }
      states := states + [l];
      forall k | 0 <= k < |objects| ensures Held(k) {
        if k < n { assert old(Held(k)); }
      }
      forall j, k | 0 <= j < k < |objects| ensures Apart(j, k) {
        assert Held(j) && Held(k) && old(Held(j));
        if k < n { assert old(Held(k)) && old(Apart(j, k)); }
      }
    }

    /** _calculate_limits_for_task(): the worker is counted in every limit. */
    method WorkerAdded(worker: Id, task: Task)
      requires Valid()
      modifies Repr
      ensures Valid() && fresh(Repr - old(Repr))
      ensures |states| == |old(states)| && forall k :: 0 <= k < |states| ==> states[k] == Added(old(states)[k], worker, task)
    {
      for i := 0 to |objects|
        invariant Valid() && fresh(Repr - old(Repr)) && |states| == |old(states)| && objects == old(objects)
        invariant forall k :: 0 <= k < i ==> states[k] == Added(old(states)[k], worker, task)
        invariant forall k :: i <= k < |states| ==> states[k] == old(states)[k]
      {
        AddOne(i, worker, task);
      }
    }

    method AddOne(i: nat, worker: Id, task: Task)
      requires Valid() && i < |objects|
      modifies Repr
      ensures Valid() && Repr == old(Repr) && objects == old(objects)
      ensures states == old(states)[i := Added(old(states)[i], worker, task)]
    {
      assert Held(i);
      match objects[i] {
        case ByPredicate(p) => p.WorkerAdded(worker, task);
        case ByHash(h) => h.WorkerAdded(worker, task);
      }
      states := states[i := Added(states[i], worker, task)];
      forall k | 0 <= k < |objects| ensures Held(k) {
        assert old(Held(k));
        if k < i { assert old(Apart(k, i)); } else if k > i { assert old(Apart(i, k)); }
      }
      forall j, k | 0 <= j < k < |objects| ensures Apart(j, k) {
        assert old(Held(j)) && old(Held(k)) && old(Apart(j, k));
      }
    }

    /** The loop of run() over the limits. */
    method Check(task: Task) returns (ok: bool)
      requires Valid()
      ensures ok <==> AllAllow(states, task)
    {
      for i := 0 to |objects|
        invariant forall k :: 0 <= k < i ==> Allows(states[k], task)
      {
        assert Held(i);
        match objects[i] {
          case ByPredicate(p) => ok := p.Check(task);
          case ByHash(h) => ok := h.Check(task);
        }
        if !ok {
          return;
        }
      }
      ok := true;
    }

    /** clean_tasks(): every limit is cleared. */
    method Clear()
      requires Valid()
      modifies Repr
      ensures Valid() && fresh(Repr - old(Repr))
      ensures |states| == |old(states)| && forall k :: 0 <= k < |states| ==> states[k] == Cleared(old(states)[k])
    {
      for i := 0 to |objects|
        invariant Valid() && fresh(Repr - old(Repr)) && |states| == |old(states)| && objects == old(objects)
        invariant forall k :: 0 <= k < i ==> states[k] == Cleared(old(states)[k])
        invariant forall k :: i <= k < |states| ==> states[k] == old(states)[k]
      {
        ClearOne(i);
      }
    }

    method ClearOne(i: nat)
      requires Valid() && i < |objects|
      modifies Repr
      ensures Valid() && fresh(Repr - old(Repr)) && objects == old(objects)
      ensures states == old(states)[i := Cleared(old(states)[i])]
    {
      assert Held(i);
      match objects[i] {
        case ByPredicate(p) => p.Clear();
        case ByHash(h) =>
          h.Clear();
          Repr := Repr + {h.groups};
      }
      states := states[i := Cleared(states[i])];
      forall k | 0 <= k < |objects| ensures Held(k) {
        assert old(Held(k));
        if k < i { assert old(Apart(k, i)); } else if k > i { assert old(Apart(i, k)); }
      }
      forall j, k | 0 <= j < k < |objects| ensures Apart(j, k) {
        assert old(Held(j)) && old(Held(k)) && old(Apart(j, k));
      }
    }
  }

  // ---------------------------------------------------------------- the limits of the build dispatcher

  /** ArchitectureWorkerLimit */
  function ArchLimit(arch: string, limit: int): Limit {
    PredicateLimit((t: Task) => t.arch == Some(arch), limit, {})
  }

  /** BlockedOwnersLimit: nothing of a blocked owner is ever started. */
  function BlockedOwners(owners: set<string>): Limit {
    PredicateLimit((t: Task) => t.owner in owners, 0, {})
  }

  /** ArchitectureUserWorkerLimit */
  function ArchOwnerLimit(arch: string, limit: int): Limit {
    HashLimit((t: Task) => if t.arch == Some(arch) then Some(arch + "_" + t.owner) else None, limit, map[])
  }

  /** UserSSHLimit */
  function UserSshLimit(limit: int): Limit {
    HashLimit((t: Task) => if t.sourceBuild || !t.userSsh then None else Some(t.owner), limit, map[])
  }

  /** BuildTagLimit */
  function TagLimit(tag: string, limit: int): Limit {
    PredicateLimit((t: Task) => tag in t.tags, limit, {})
  }

  function SandboxLimit(limit: int): Limit {
    HashLimit((t: Task) => t.sandbox, limit, map[])
  }

  function OwnerLimit(limit: int): Limit {
    HashLimit((t: Task) => Some(t.owner), limit, map[])
  }

  /** The limits section of the configuration. */
  datatype Config = Config(
    arch: seq<(string, int)>, tag: seq<(string, int)>, archPerOwner: seq<(string, int)>,
    sandbox: int, owner: int, blockedOwners: set<string>, userSsh: int)

  function ArchLimits(c: Config): seq<Limit> {
    seq(|c.arch|, i requires 0 <= i < |c.arch| => ArchLimit(c.arch[i].0, c.arch[i].1))
  }

  function TagLimits(c: Config): seq<Limit> {
    seq(|c.tag|, i requires 0 <= i < |c.tag| => TagLimit(c.tag[i].0, c.tag[i].1))
  }

  function ArchOwnerLimits(c: Config): seq<Limit> {
    seq(|c.archPerOwner|, i requires 0 <= i < |c.archPerOwner| => ArchOwnerLimit(c.archPerOwner[i].0, c.archPerOwner[i].1))
  }

  /** The limits of the build dispatcher, as its constructor appends them. */
  function DispatcherLimits(c: Config): seq<Limit> {
    ArchLimits(c) + TagLimits(c) + ArchOwnerLimits(c) + Others(c)
  }

  function Others(c: Config): seq<Limit> {
    [SandboxLimit(c.sandbox), OwnerLimit(c.owner), BlockedOwners(c.blockedOwners), UserSshLimit(c.userSsh)]
  }

  /** The constructor of BuildDispatcher, as far as its limits are concerned. */
  method BuildLimits(c: Config) returns (list: LimitList)
    ensures list.Valid() && fresh(list.Repr) && list.states == DispatcherLimits(c)
  {
    list := new LimitList();
    AppendAll(list, ArchLimits(c));
    AppendAll(list, TagLimits(c));
    AppendAll(list, ArchOwnerLimits(c));
    AppendAll(list, Others(c));
  }

  method AppendAll(list: LimitList, limits: seq<Limit>)
    requires list.Valid() && forall l :: l in limits ==> Unused(l)
    modifies list
    ensures list.Valid() && fresh(list.Repr - old(list.Repr)) && list.states == old(list.states) + limits
  {
    for i := 0 to |limits|
      invariant list.Valid() && fresh(list.Repr - old(list.Repr))
      invariant list.states == old(list.states) + limits[..i]
    {
      list.Append(limits[i]);
    }
  }

  /** A task that passes the limits of the dispatcher is not of a blocked owner, whatever was counted. */
  lemma BlockedOwnersNeverPass(c: Config, limits: seq<Limit>, t: Task)
    requires SameRules(DispatcherLimits(c), limits)
    requires AllAllow(limits, t)
    ensures t.owner !in c.blockedOwners
  {
    var k := |limits| - 2;
    assert DispatcherLimits(c)[k] == Others(c)[2] == BlockedOwners(c.blockedOwners);
    BlockedNeverStarts(c.blockedOwners, limits[k], t);
  }

  lemma BlockedNeverStarts(owners: set<string>, l: Limit, t: Task)
    requires SameRule(BlockedOwners(owners), l)
    ensures Allows(l, t) <==> t.owner !in owners
  {
  }

  /** The groups of the per-owner architecture limit are exactly the owners. */
  lemma ArchOwnerGroups(arch: string, limit: int, s: Task, t: Task)
    requires s.arch == t.arch == Some(arch)
    ensures GroupOf(ArchOwnerLimit(arch, limit), s) == GroupOf(ArchOwnerLimit(arch, limit), t) <==> s.owner == t.owner
  {
    var n := |arch + "_"|;
    assert (arch + "_" + s.owner)[n..] == s.owner && (arch + "_" + t.owner)[n..] == t.owner;
  }

  // ---------------------------------------------------------------- what each of these limits asks

  // Where each limit sees room for a task, by the attributes of the tasks that run.

  predicate ArchRoom(x: (string, int), running: map<Id, Task>, t: Task) {
    t.arch == Some(x.0) ==> |set w | w in running && running[w].arch == Some(x.0)| < x.1
  }

  predicate TagRoom(x: (string, int), running: map<Id, Task>, t: Task) {
    x.0 in t.tags ==> |set w | w in running && x.0 in running[w].tags| < x.1
  }

  predicate ArchOwnerRoom(x: (string, int), running: map<Id, Task>, t: Task) {
    if t.arch == Some(x.0)
    then |set w | w in running && running[w].arch == Some(x.0) && running[w].owner == t.owner| < x.1
    else x.1 > 0
  }

  predicate SandboxRoom(n: int, running: map<Id, Task>, t: Task) {
    if t.sandbox.Some? then |set w | w in running && running[w].sandbox == t.sandbox| < n else n > 0
  }

  predicate OwnerRoom(n: int, running: map<Id, Task>, t: Task) {
    |set w | w in running && running[w].owner == t.owner| < n
  }

  /** A builder that its user may log in to, which a source build never gets. */
  predicate UserSshRoom(n: int, running: map<Id, Task>, t: Task) {
    if t.userSsh && !t.sourceBuild
    then |set w | w in running && running[w].userSsh && !running[w].sourceBuild && running[w].owner == t.owner| < n
    else n > 0
  }

  lemma ArchCheck(arch: string, n: int, l: Limit, running: map<Id, Task>, t: Task)
    requires SameRule(ArchLimit(arch, n), l) && Exact(l, running)
    ensures Allows(l, t) <==> ArchRoom((arch, n), running, t)
  {
    assert Members(l, "", running) == set w | w in running && running[w].arch == Some(arch);
  }

  lemma TagCheck(tag: string, n: int, l: Limit, running: map<Id, Task>, t: Task)
    requires SameRule(TagLimit(tag, n), l) && Exact(l, running)
    ensures Allows(l, t) <==> TagRoom((tag, n), running, t)
  {
    assert Members(l, "", running) == set w | w in running && tag in running[w].tags;
  }

  lemma ArchOwnerCheck(arch: string, n: int, l: Limit, running: map<Id, Task>, t: Task)
    requires SameRule(ArchOwnerLimit(arch, n), l) && Exact(l, running)
    ensures Allows(l, t) <==> ArchOwnerRoom((arch, n), running, t)
  {
    if t.arch == Some(arch) {
      var g := arch + "_" + t.owner;
      forall w | w in running && running[w].arch == Some(arch)
        ensures GroupOf(l, running[w]) == Some(g) <==> running[w].owner == t.owner
      {
        ArchOwnerGroups(arch, n, running[w], t);
      }
      assert Members(l, g, running) == set w | w in running && running[w].arch == Some(arch) && running[w].owner == t.owner;
      ExactCheck(l, running, t, g);
    } else {
      UngroupedTask(l, t);
    }
  }

  lemma SandboxCheck(n: int, l: Limit, running: map<Id, Task>, t: Task)
    requires SameRule(SandboxLimit(n), l) && Exact(l, running)
    ensures Allows(l, t) <==> SandboxRoom(n, running, t)
  {
    if t.sandbox.Some? {
      assert Members(l, t.sandbox.value, running) == set w | w in running && running[w].sandbox == t.sandbox;
      ExactCheck(l, running, t, t.sandbox.value);
    } else {
      UngroupedTask(l, t);
    }
  }

  lemma OwnerCheck(n: int, l: Limit, running: map<Id, Task>, t: Task)
    requires SameRule(OwnerLimit(n), l) && Exact(l, running)
    ensures Allows(l, t) <==> OwnerRoom(n, running, t)
  {
    assert Members(l, t.owner, running) == set w | w in running && running[w].owner == t.owner;
    ExactCheck(l, running, t, t.owner);
  }

  lemma UserSshCheck(n: int, l: Limit, running: map<Id, Task>, t: Task)
    requires SameRule(UserSshLimit(n), l) && Exact(l, running)
    ensures Allows(l, t) <==> UserSshRoom(n, running, t)
  {
    if t.userSsh && !t.sourceBuild {
      assert Members(l, t.owner, running) ==
             set w | w in running && running[w].userSsh && !running[w].sourceBuild && running[w].owner == t.owner;
      ExactCheck(l, running, t, t.owner);
    } else {
      UngroupedTask(l, t);
    }
  }

  /** Limits of the same kind, made from the entries of one section of the configuration. */
  ghost predicate Section(limits: seq<Limit>, from: nat, made: seq<Limit>) {
    && from + |made| <= |limits|
    && forall i :: 0 <= i < |made| ==> SameRule(made[i], limits[from + i])
  }

  ghost predicate SameRules(made: seq<Limit>, limits: seq<Limit>) {
    |limits| == |made| && forall k :: 0 <= k < |limits| ==> SameRule(made[k], limits[k])
  }

  lemma SectionOf(before: seq<Limit>, made: seq<Limit>, after: seq<Limit>, limits: seq<Limit>)
    requires SameRules(before + made + after, limits)
    ensures Section(limits, |before|, made)
  {
    var all := before + made + after;
    forall i | 0 <= i < |made| ensures SameRule(made[i], limits[|before| + i]) {
      assert all[|before| + i] == made[i];
    }
  }

  lemma Sections(c: Config, limits: seq<Limit>)
    requires SameRules(DispatcherLimits(c), limits)
    ensures var n, m := |c.arch|, |c.arch| + |c.tag|;
            var k := m + |c.archPerOwner|;
            && |limits| == k + 4
            && Section(limits, 0, ArchLimits(c)) && Section(limits, n, TagLimits(c)) && Section(limits, m, ArchOwnerLimits(c))
            && Section(limits, k, Others(c))
  {
    hide SameRule, SameRules, Section;
    var a, b, d, e := ArchLimits(c), TagLimits(c), ArchOwnerLimits(c), Others(c);
    var all := DispatcherLimits(c);
    assert all == [] + a + (b + d + e) == a + b + (d + e) == a + b + d + e == (a + b + d) + e + [];
    SectionOf([], a, b + d + e, limits);
    SectionOf(a, b, d + e, limits);
    SectionOf(a + b, d, e, limits);
    SectionOf(a + b + d, e, [], limits);
    SameLength(all, limits);
  }

  lemma SameLength(made: seq<Limit>, limits: seq<Limit>)
    requires SameRules(made, limits)
    ensures |limits| == |made|
  {
  }

  lemma OthersAllow(c: Config, limits: seq<Limit>, k: nat, running: map<Id, Task>, t: Task)
    requires Section(limits, k, Others(c)) && forall k :: 0 <= k < |limits| ==> Exact(limits[k], running)
    ensures Allows(limits[k], t) <==> SandboxRoom(c.sandbox, running, t)
    ensures Allows(limits[k + 1], t) <==> OwnerRoom(c.owner, running, t)
    ensures Allows(limits[k + 2], t) <==> t.owner !in c.blockedOwners
    ensures Allows(limits[k + 3], t) <==> UserSshRoom(c.userSsh, running, t)
  {
    var o := Others(c);
    assert SameRule(o[0], limits[k + 0]) && SameRule(o[1], limits[k + 1]);
    assert SameRule(o[2], limits[k + 2]) && SameRule(o[3], limits[k + 3]);
    SandboxCheck(c.sandbox, limits[k], running, t);
    OwnerCheck(c.owner, limits[k + 1], running, t);
    BlockedNeverStarts(c.blockedOwners, limits[k + 2], t);
    UserSshCheck(c.userSsh, limits[k + 3], running, t);
  }

  lemma ArchSection(c: Config, limits: seq<Limit>, from: nat, running: map<Id, Task>, t: Task)
    requires Section(limits, from, ArchLimits(c)) && forall k :: 0 <= k < |limits| ==> Exact(limits[k], running)
    ensures AllowFrom(limits, from, from + |c.arch|, t) <==> forall x :: x in c.arch ==> ArchRoom(x, running, t)
  {
    forall i | 0 <= i < |c.arch| ensures Allows(limits[from + i], t) <==> ArchRoom(c.arch[i], running, t) {
      assert ArchLimits(c)[i] == ArchLimit(c.arch[i].0, c.arch[i].1);
      ArchCheck(c.arch[i].0, c.arch[i].1, limits[from + i], running, t);
    }
    SectionAllows(limits, from, ArchLimits(c), c.arch, x => ArchRoom(x, running, t), t);
  }

  lemma TagSection(c: Config, limits: seq<Limit>, from: nat, running: map<Id, Task>, t: Task)
    requires Section(limits, from, TagLimits(c)) && forall k :: 0 <= k < |limits| ==> Exact(limits[k], running)
    ensures AllowFrom(limits, from, from + |c.tag|, t) <==> forall x :: x in c.tag ==> TagRoom(x, running, t)
  {
    forall i | 0 <= i < |c.tag| ensures Allows(limits[from + i], t) <==> TagRoom(c.tag[i], running, t) {
      assert TagLimits(c)[i] == TagLimit(c.tag[i].0, c.tag[i].1);
      TagCheck(c.tag[i].0, c.tag[i].1, limits[from + i], running, t);
    }
    SectionAllows(limits, from, TagLimits(c), c.tag, x => TagRoom(x, running, t), t);
  }

  lemma ArchOwnerSection(c: Config, limits: seq<Limit>, from: nat, running: map<Id, Task>, t: Task)
    requires Section(limits, from, ArchOwnerLimits(c)) && forall k :: 0 <= k < |limits| ==> Exact(limits[k], running)
    ensures AllowFrom(limits, from, from + |c.archPerOwner|, t) <==> forall x :: x in c.archPerOwner ==> ArchOwnerRoom(x, running, t)
  {
    forall i | 0 <= i < |c.archPerOwner| ensures Allows(limits[from + i], t) <==> ArchOwnerRoom(c.archPerOwner[i], running, t) {
      assert ArchOwnerLimits(c)[i] == ArchOwnerLimit(c.archPerOwner[i].0, c.archPerOwner[i].1);
      ArchOwnerCheck(c.archPerOwner[i].0, c.archPerOwner[i].1, limits[from + i], running, t);
    }
    SectionAllows(limits, from, ArchOwnerLimits(c), c.archPerOwner, x => ArchOwnerRoom(x, running, t), t);
  }

  /**
   What the configuration of the dispatcher comes to: with exact statistics, a task is started iff
   there is room on its architecture, under each of its tags, for its owner on its architecture, in
   its sandbox, for its owner at all and for builders that its owner may log in to, and its owner is
   not blocked.  A limit that is not positive also holds back what it does not concern.
   */
  lemma DispatcherPasses(c: Config, limits: seq<Limit>, running: map<Id, Task>, t: Task)
    requires SameRules(DispatcherLimits(c), limits)
    requires forall k :: 0 <= k < |limits| ==> Exact(limits[k], running)
    ensures AllAllow(limits, t) <==>
            && (forall x :: x in c.arch ==> ArchRoom(x, running, t))
            && (forall x :: x in c.tag ==> TagRoom(x, running, t))
            && (forall x :: x in c.archPerOwner ==> ArchOwnerRoom(x, running, t))
            && SandboxRoom(c.sandbox, running, t) && OwnerRoom(c.owner, running, t)
            && t.owner !in c.blockedOwners
            && UserSshRoom(c.userSsh, running, t)
  {
    hide DispatcherLimits, ArchLimits, TagLimits, ArchOwnerLimits, Exact, SameRule, Section, Allows, AllAllow, AllowFrom, ArchRoom, TagRoom, ArchOwnerRoom,
         SandboxRoom, OwnerRoom, UserSshRoom;
    var n, m := |c.arch|, |c.arch| + |c.tag|;
    var k := m + |c.archPerOwner|;
    Sections(c, limits);
    ArchSection(c, limits, 0, running, t);
    TagSection(c, limits, n, running, t);
    ArchOwnerSection(c, limits, m, running, t);
    OthersAllow(c, limits, k, running, t);
    FourParts(limits, n, m, k, t);
  }

  /** The limits of a section allow a task iff each entry of it has room. */
  lemma SectionAllows(limits: seq<Limit>, from: nat, made: seq<Limit>, entries: seq<(string, int)>,
                      room: ((string, int)) -> bool, t: Task)
    requires |made| == |entries| && Section(limits, from, made)
    requires forall i :: 0 <= i < |entries| ==> (Allows(limits[from + i], t) <==> room(entries[i]))
    ensures AllowFrom(limits, from, from + |entries|, t) <==> forall x :: x in entries ==> room(x)
  {
    if AllowFrom(limits, from, from + |entries|, t) {
      forall x | x in entries ensures room(x) {
        var i :| 0 <= i < |entries| && entries[i] == x;
        assert Allows(limits[from + i], t);
      }
    }
    if forall x :: x in entries ==> room(x) {
      forall k | from <= k < from + |entries| ensures Allows(limits[k], t) {
        assert entries[k - from] in entries;
        assert limits[from + (k - from)] == limits[k];
      }
    }
  }

  predicate AllowFrom(limits: seq<Limit>, from: nat, to: nat, t: Task)
    requires to <= |limits|
  {
    forall k :: from <= k < to ==> Allows(limits[k], t)
  }

  lemma FourParts(limits: seq<Limit>, n: nat, m: nat, k: nat, t: Task)
    requires n <= m <= k && |limits| == k + 4
    ensures AllAllow(limits, t) <==>
            && AllowFrom(limits, 0, n, t) && AllowFrom(limits, n, m, t) && AllowFrom(limits, m, k, t)
            && Allows(limits[k], t) && Allows(limits[k + 1], t) && Allows(limits[k + 2], t) && Allows(limits[k + 3], t)
  {
  }
}
