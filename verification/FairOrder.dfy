/**
 The order in which builds leave the queue: _PriorityCounter and get_frontend_tasks() of
 backend/copr_backend/daemons/build_dispatcher.py, with the priorities of
 backend/copr_backend/rpm_builds.py.
 */
module FairOrder {
  import opened Wrappers
  import opened Tasks
  import opened JobQueues

  /** The path through the nested counter dictionaries. */
  datatype Group = Group(background: bool, owner: string, arch: string, sandbox: Option<string>)

  function GroupOf(t: Task): Group {
    Group(t.background, t.owner, if t.arch.None? || t.arch.value == "" then "srpm" else t.arch.value, t.sandbox)
  }

  /** The architecture names that are read alike: a missing and an empty one as "srpm". */
  predicate SameArch(a: Option<string>, b: Option<string>) {
    a == b || (a in {None, Some(""), Some("srpm")} && b in {None, Some(""), Some("srpm")})
  }

  /** Tasks that take turns with one another: the same owner on the same architecture in the same sandbox. */
  predicate Alike(s: Task, t: Task) {
    s.background == t.background && s.owner == t.owner && s.sandbox == t.sandbox && SameArch(s.arch, t.arch)
  }

  /** The counter dictionaries tell tasks apart by these four attributes, and by nothing else. */
  lemma GroupsExactly(s: Task, t: Task)
    ensures GroupOf(s) == GroupOf(t) <==> Alike(s, t)
  {
  }

  /** How many tasks of a group there are. */
  function Size(ts: seq<Task>, g: Group): nat {
    if ts == [] then 0 else Size(ts[..|ts| - 1], g) + if GroupOf(ts[|ts| - 1]) == g then 1 else 0
  }

  /** The place of the i-th task within its group, from 1. */
  function Rank(ts: seq<Task>, i: nat): nat
    requires i < |ts|
  {
    Size(ts[..i + 1], GroupOf(ts[i]))
  }

  lemma SizeStep(ts: seq<Task>, i: nat, g: Group)
    requires i < |ts|
    ensures Size(ts[..i + 1], g) == Size(ts[..i], g) + if GroupOf(ts[i]) == g then 1 else 0
  {
    assert ts[..i + 1][..i] == ts[..i];
  }

  function CountIn(counter: map<Group, nat>, g: Group): nat {
    if g in counter then counter[g] else 0
  }

  /** The counters say how many of each group have come. */
  ghost predicate Counts(counter: map<Group, nat>, ts: seq<Task>) {
    forall g :: CountIn(counter, g) == Size(ts, g)
  }

  lemma CountsStep(counter: map<Group, nat>, ts: seq<Task>, i: nat)
    requires i < |ts| && Counts(counter, ts[..i])
    ensures CountIn(counter, GroupOf(ts[i])) + 1 == Rank(ts, i)
    ensures Counts(counter[GroupOf(ts[i]) := Rank(ts, i)], ts[..i + 1])
  {
    var g := GroupOf(ts[i]);
    var counter' := counter[g := Rank(ts, i)];
    SizeStep(ts, i, g);
    forall h ensures CountIn(counter', h) == Size(ts[..i + 1], h) {
      SizeStep(ts, i, h);
      assert CountIn(counter, h) == Size(ts[..i], h);
    }
  }

  class PriorityCounter {
    var counter: map<Group, nat>

    constructor ()
      ensures counter == map[]
    {
      counter := map[];
    }

    method GetPriority(t: Task) returns (n: nat)
      modifies this
      ensures n == CountIn(old(counter), GroupOf(t)) + 1
      ensures counter == old(counter)[GroupOf(t) := n]
      ensures forall s :: CountIn(counter, GroupOf(s)) == CountIn(old(counter), GroupOf(s)) + if Alike(s, t) then 1 else 0
    {
      forall s ensures GroupOf(s) == GroupOf(t) <==> Alike(s, t) {
        GroupsExactly(s, t);
      }
      var g := GroupOf(t);
      if g !in counter {
        counter := counter[g := 0];
      }
      counter := counter[g := counter[g] + 1];
      n := counter[g];
    }
  }

  /** A fetched task as it is queued: with its place in its group. */
  function Ranked(raw: seq<Task>, i: nat): Task
    requires i < |raw|
  {
    raw[i].(backendPriority := Rank(raw, i))
  }

  /** The tasks up to the i-th one that it takes turns with, itself among them. */
  function TurnsUpTo(ts: seq<Task>, n: nat, t: Task): set<nat>
    requires n <= |ts|
  {
    set j: nat | j < n && Alike(ts[j], t)
  }

  lemma {:induction false} SizeCounts(ts: seq<Task>, n: nat, t: Task)
    requires n <= |ts|
    ensures Size(ts[..n], GroupOf(t)) == |TurnsUpTo(ts, n, t)|
  {
    if n > 0 {
      SizeCounts(ts, n - 1, t);
      SizeStep(ts, n - 1, GroupOf(t));
      GroupsExactly(ts[n - 1], t);
      hide Alike, GroupOf;
      var before := TurnsUpTo(ts, n - 1, t);
      assert TurnsUpTo(ts, n, t) == if Alike(ts[n - 1], t) then before + {n - 1} else before;
    }
  }

  /** The place of a task is the number of fetched tasks up to it that take turns with it. */
  lemma RankCounts(ts: seq<Task>, i: nat)
    requires i < |ts|
    ensures Rank(ts, i) == |set j: nat | j <= i && Alike(ts[j], ts[i])|
  {
    SizeCounts(ts, i + 1, ts[i]);
    assert (set j: nat | j <= i && Alike(ts[j], ts[i])) == TurnsUpTo(ts, i + 1, ts[i]);
  }

  /** Every fetched task gets its place among those it takes turns with, in fetch order. */
  method FrontendTasks(raw: seq<Task>) returns (tasks: seq<Task>)
    ensures |tasks| == |raw|
    ensures forall i :: 0 <= i < |raw| ==> tasks[i] == Ranked(raw, i)
    ensures forall i: nat :: i < |raw| ==>
              tasks[i] == raw[i].(backendPriority := |set j: nat | j <= i && Alike(raw[j], raw[i])|)
  {
    tasks := [];
    var priority := new PriorityCounter();
    for i := 0 to |raw|
      invariant |tasks| == i
      invariant forall j :: 0 <= j < i ==> tasks[j] == Ranked(raw, j)
      invariant Counts(priority.counter, raw[..i])
    {
      CountsStep(priority.counter, raw, i);
      var n := priority.GetPriority(raw[i]);
      tasks := tasks + [raw[i].(backendPriority := n)];
    }
    forall i: nat | i < |raw| ensures Rank(raw, i) == |set j: nat | j <= i && Alike(raw[j], raw[i])| {
      RankCounts(raw, i);
    }
  }

  /** Ranks of one group count up without gap, so the k-th of a group is a definite task. */
  lemma {:induction false} RanksAreDense(ts: seq<Task>, g: Group, k: nat)
    requires 1 <= k <= Size(ts, g)
    ensures exists i: nat :: i < |ts| && GroupOf(ts[i]) == g && Rank(ts, i) == k
  {
    var n := |ts| - 1;
    assert ts[..n + 1] == ts;
    if GroupOf(ts[n]) == g && k == Size(ts, g) {
      assert Rank(ts, n) == k;
    } else {
      RanksAreDense(ts[..n], g, k);
      var i: nat :| i < n && GroupOf(ts[..n][i]) == g && Rank(ts[..n], i) == k;
      assert ts[..n][..i + 1] == ts[..i + 1];
      assert Rank(ts, i) == k;
    }
  }

  // ---------------------------------------------------------------- a freshly filled queue

  /**
   The queue holds tasks of this fetch only, with their priorities, numbered in fetch order;
   `at` says which task of the fetch an id stands for.
   */
  ghost predicate FilledFrom(live: map<Id, Item>, raw: seq<Task>, at: map<Id, nat>) {
    && (forall id :: id in live ==> StandsFor(raw, at, id) && FilledItem(live[id], raw, at[id]))
    && (forall a, b :: a in live && b in live && at[a] < at[b] ==> live[a].count < live[b].count)
    && (forall a, b :: a in live && b in live && at[a] == at[b] ==> a == b)
  }

  /** The task of the fetch that this id stands for has this id. */
  predicate StandsFor(raw: seq<Task>, at: map<Id, nat>, id: Id) {
    id in at && at[id] < |raw| && raw[at[id]].id == id
  }

  predicate FilledItem(x: Item, raw: seq<Task>, i: nat) {
    && i < |raw|
    && x.task == Ranked(raw, i)
    && x.priority == Priority(x.task)
  }

  /** Popping and cancelling leave a filled queue a filled queue. */
  lemma FilledShrinks(live: map<Id, Item>, raw: seq<Task>, at: map<Id, nat>, gone: set<Id>)
    requires FilledFrom(live, raw, at)
    ensures FilledFrom(live - gone, raw, at)
  {
  }

  /** Same kind of build and same frontend priority: only fairness decides between them. */
  predicate Comparable(s: Task, t: Task) {
    s.background == t.background && s.sourceBuild == t.sourceBuild && s.rawPriority == t.rawPriority
  }

  /**
   The task popped next is nowhere further back in its group than any comparable task that stays,
   and among equals it was fetched first: no (k+1)-th task of a group overtakes a k-th one.
   */
  lemma PopIsFair(live: map<Id, Item>, raw: seq<Task>, at: map<Id, nat>, x: Id, y: Id)
    requires FilledFrom(live, raw, at)
    requires First(live, x) && y in live && y != x && Comparable(raw[at[x]], raw[at[y]])
    ensures Rank(raw, at[x]) <= Rank(raw, at[y])
    ensures Rank(raw, at[x]) == Rank(raw, at[y]) ==> at[x] < at[y]
  {
    assert FilledItem(live[x], raw, at[x]) && FilledItem(live[y], raw, at[y]);
  }

  // ---------------------------------------------------------------- the four classes

  /** The order the code gives the classes; the docstring names another one. */
  function Class(t: Task): int {
    if t.background then (if t.sourceBuild then 2 else 3) else if t.sourceBuild then 0 else 1
  }

  /** Background builds come last; among builds alike in that, source builds come first. */
  lemma ClassOrder(s: Task, t: Task)
    ensures Class(s) < Class(t) <==>
            (!s.background && t.background) || (s.background == t.background && s.sourceBuild && !t.sourceBuild)
  {
  }

  /** The part of the priority below the class: what the frontend sent, plus the place in the group. */
  predicate InSection(t: Task) {
    0 <= t.rawPriority + t.backendPriority < PRIORITY_SECTION_SIZE
  }

  /** A task of another class goes first exactly when its head start beats the class distance. */
  lemma ClassesOverlapExactly(s: Task, t: Task)
    requires Class(s) < Class(t)
    ensures Priority(s) < Priority(t) <==>
            s.rawPriority + s.backendPriority <
            t.rawPriority + t.backendPriority + (Class(t) - Class(s)) * 1000000
    ensures InSection(s) && InSection(t) ==> Priority(s) < Priority(t)
  {
  }

  /** While all priorities stay in their section, the best class that is left goes first. */
  lemma FirstIsOfBestClass(live: map<Id, Item>, raw: seq<Task>, at: map<Id, nat>, x: Id, y: Id)
    requires FilledFrom(live, raw, at) && First(live, x) && y in live
    requires InSection(live[x].task) && InSection(live[y].task)
    ensures Class(live[x].task) <= Class(live[y].task)
  {
    assert FilledItem(live[x], raw, at[x]) && FilledItem(live[y], raw, at[y]);
    if x != y && Class(live[y].task) < Class(live[x].task) {
      ClassesOverlapExactly(live[y].task, live[x].task);
    }
  }

  // ---------------------------------------------------------------- whole runs of pops

  /** ids leave the queue in this order, nothing else happening. */
  ghost predicate PopOrder(live: map<Id, Item>, ids: seq<Id>) {
    ids == [] || (First(live, ids[0]) && PopOrder(live - {ids[0]}, ids[1..]))
  }

  function Ids(ids: seq<Id>): set<Id> {
    set id | id in ids
  }

  lemma IdsStep(ids: seq<Id>, i: nat, live: map<Id, Item>)
    requires i < |ids|
    ensures Ids(ids[..i + 1]) == Ids(ids[..i]) + {ids[i]}
    ensures live - Ids(ids[..i + 1]) == live - Ids(ids[..i]) - {ids[i]}
  {
    assert ids[..i + 1] == ids[..i] + [ids[i]];
  }

  lemma {:induction false} PopOrderAppend(live: map<Id, Item>, ids: seq<Id>, x: Id)
    requires PopOrder(live, ids) && First(live - Ids(ids), x)
    ensures PopOrder(live, ids + [x])
    ensures live - Ids(ids + [x]) == live - Ids(ids) - {x}
  {
    if ids == [] {
      assert live - Ids([]) == live;
      assert [x][1..] == [];
    } else {
      var rest := live - {ids[0]};
      assert rest - Ids(ids[1..]) == live - Ids(ids);
      PopOrderAppend(rest, ids[1..], x);
      assert (ids + [x])[1..] == ids[1..] + [x];
    }
  }

  /** Every pop takes the first of what is left then. */
  lemma {:induction false} PopsAreFirst(live: map<Id, Item>, ids: seq<Id>, i: nat)
    requires PopOrder(live, ids) && i < |ids|
    ensures First(live - Ids(ids[..i]), ids[i])
  {
    if i == 0 {
      assert live - Ids(ids[..0]) == live;
    } else {
      PopsAreFirst(live - {ids[0]}, ids[1..], i - 1);
      assert ids[..i] == [ids[0]] + ids[1..][..i - 1];
      assert live - Ids(ids[..i]) == live - {ids[0]} - Ids(ids[1..][..i - 1]);
    }
  }

  /** What is popped was there, and is popped once. */
  lemma PopOrderMembers(live: map<Id, Item>, ids: seq<Id>, j: nat)
    requires PopOrder(live, ids) && j < |ids|
    ensures ids[j] in live && ids[j] !in ids[..j]
  {
    PopsAreFirst(live, ids, j);
  }

  /**
   x may go before y.  Among comparable tasks it is no further back in its group, ties by arrival;
   and if both priorities are in their sections, its class is no worse.
   */
  predicate InFairOrder(raw: seq<Task>, at: map<Id, nat>, x: Id, y: Id) {
    && x in at && y in at && at[x] < |raw| && at[y] < |raw|
    && (Comparable(raw[at[x]], raw[at[y]]) ==>
          || Rank(raw, at[x]) < Rank(raw, at[y])
          || (Rank(raw, at[x]) == Rank(raw, at[y]) && at[x] < at[y]))
    && (InSection(Ranked(raw, at[x])) && InSection(Ranked(raw, at[y])) ==>
          Class(raw[at[x]]) <= Class(raw[at[y]]))
  }

  lemma FirstIsInFairOrder(live: map<Id, Item>, raw: seq<Task>, at: map<Id, nat>, x: Id, y: Id)
    requires FilledFrom(live, raw, at) && First(live, x) && y in live && y != x
    ensures InFairOrder(raw, at, x, y)
  {
    assert FilledItem(live[x], raw, at[x]) && FilledItem(live[y], raw, at[y]);
    if Comparable(raw[at[x]], raw[at[y]]) {
      PopIsFair(live, raw, at, x, y);
    }
    if InSection(live[x].task) && InSection(live[y].task) {
      FirstIsOfBestClass(live, raw, at, x, y);
    }
  }

  /**
   However many tasks are popped, each of them goes in fair order before everything that was not
   popped until then, be it popped later or still queued at the end.
   */
  lemma PopsAreFair(live: map<Id, Item>, raw: seq<Task>, at: map<Id, nat>, ids: seq<Id>, i: nat, y: Id)
    requires FilledFrom(live, raw, at) && PopOrder(live, ids) && i < |ids|
    requires y in live && y !in ids[..i] && y != ids[i]
    ensures InFairOrder(raw, at, ids[i], y)
  {
    PopsAreFirst(live, ids, i);
    FilledShrinks(live, raw, at, Ids(ids[..i]));
    FirstIsInFairOrder(live - Ids(ids[..i]), raw, at, ids[i], y);
  }
}
