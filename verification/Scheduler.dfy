/**
 WorkerManager of common/copr_common/worker_manager.py, driven by one round of Dispatcher.run()
 (common/copr_common/dispatcher.py): fetch, clean, fill, cancel, run.

 A worker id is the worker prefix plus the task id, so the task id stands for it.
 */
module Scheduler {
  import opened Wrappers
  import opened Tasks
  import opened JobQueues
  import L = Limits
  import W = WorkerLife
  import F = FairOrder

  const CLEANUP_PERIOD := 3

  /** time.time() and time.sleep(): a clock that never goes back. */
  class Clock {
    var now: int

    constructor ()
    {
      now := 0;
    }

    method Time() returns (t: int)
      modifies this
      ensures t == now && now >= old(now)
    {
      var d: nat :| true;
      now := now + d;
      t := now;
    }

    method Sleep(n: nat)
      modifies this
      ensures now >= old(now) + n
    {
      var d: nat :| true;
      now := now + n + d;
    }
  }

  /**
   What is recorded about one _start_worker call: whether the worker was tracked before, how many
   are tracked after it, whether it took a group of its task past a limit, counting the workers that
   the statistics know (overListed) or all tracked ones (overAll), and whether the statistics miss a
   tracked worker of such a group.
   */
  datatype Start = Start(id: Id, wasTracked: bool, workers: nat, overListed: bool, overAll: bool, missed: bool)

  function Restrict(m: map<Id, Task>, keys: set<Id>): map<Id, Task> {
    map k | k in m && k in keys :: m[k]
  }

  lemma RestrictGrows(m: map<Id, Task>, keys: set<Id>, task: Task)
    ensures Restrict(m[task.id := task], keys + {task.id}) == Restrict(m, keys)[task.id := task]
  {
  }

  ghost predicate AllCover(limits: seq<L.Limit>, running: map<Id, Task>) {
    forall k :: 0 <= k < |limits| ==> L.Covers(limits[k], running)
  }

  /** Some limit has more running workers in the group of this task than it allows. */
  ghost predicate OverLimit(limits: seq<L.Limit>, running: map<Id, Task>, task: Task) {
    exists k, g :: 0 <= k < |limits| && L.GroupOf(limits[k], task) == Some(g) && Exceeds(limits[k], g, running)
  }

  predicate Exceeds(l: L.Limit, g: string, running: map<Id, Task>) {
    |L.Members(l, g, running)| > l.limit
  }

  /** What is known of the workers outside of `keys` has not changed. */
  predicate SameOutside(m: map<Id, Task>, m': map<Id, Task>, keys: set<Id>) {
    m'.Keys == m.Keys && forall w :: w in m && w !in keys ==> m'[w] == m[w]
  }

  /** Some tracked worker in a group of this task is not among those the statistics count. */
  ghost predicate Missed(limits: seq<L.Limit>, running: map<Id, Task>, listed: set<Id>, task: Task) {
    exists k, g, w :: 0 <= k < |limits| && MissedIn(limits[k], g, running, listed, task, w)
  }

  predicate MissedIn(l: L.Limit, g: string, running: map<Id, Task>, listed: set<Id>, task: Task, w: Id) {
    L.GroupOf(l, task) == Some(g) && w in L.Members(l, g, running) && w !in listed
  }

  lemma CountedSameRules(rules: seq<L.Limit>, limits: seq<L.Limit>, limits': seq<L.Limit>, worker: Id, task: Task)
    requires L.SameRules(rules, limits) && Counted(limits, limits', worker, task)
    ensures L.SameRules(rules, limits')
  {
  }

  lemma ClearedSameRules(rules: seq<L.Limit>, limits: seq<L.Limit>, limits': seq<L.Limit>)
    requires L.SameRules(rules, limits)
    requires |limits'| == |limits| && forall k :: 0 <= k < |limits| ==> limits'[k] == L.Cleared(limits[k])
    ensures L.SameRules(rules, limits')
  {
  }

  /** Counting a worker in every limit keeps all of them covering. */
  lemma AddedAllCover(limits: seq<L.Limit>, limits': seq<L.Limit>, running: map<Id, Task>, worker: Id, task: Task)
    requires AllCover(limits, running)
    requires |limits'| == |limits| && forall k :: 0 <= k < |limits| ==> limits'[k] == L.Added(limits[k], worker, task)
    ensures AllCover(limits', running[worker := task])
  {
    forall k | 0 <= k < |limits'| ensures L.Covers(limits'[k], running[worker := task]) {
      L.AddedCovers(limits[k], running, worker, task);
    }
  }

  /** Cleared limits cover nobody, which is all they have to. */
  lemma ClearedAllCover(limits: seq<L.Limit>, limits': seq<L.Limit>)
    requires |limits'| == |limits| && forall k :: 0 <= k < |limits| ==> limits'[k] == L.Cleared(limits[k])
    ensures AllCover(limits', map[])
  {
    forall k | 0 <= k < |limits'| ensures L.Covers(limits'[k], map[]) {
      L.ClearedCoversNobody(limits[k]);
    }
  }

  /** A worker that is gone is not missed by any limit. */
  lemma RemovedAllCover(limits: seq<L.Limit>, running: map<Id, Task>, listed: set<Id>, id: Id)
    requires AllCover(limits, Restrict(running, listed))
    ensures AllCover(limits, Restrict(running - {id}, listed - {id}))
  {
    var before := Restrict(running, listed);
    assert Restrict(running - {id}, listed - {id}) == before - {id};
    forall k | 0 <= k < |limits| ensures L.Covers(limits[k], before - {id}) {
      L.RemovedCovers(limits[k], before, {id});
    }
  }

  lemma NobodyCounted(limits: seq<L.Limit>)
    ensures AllCover(limits, map[])
  {
    forall k | 0 <= k < |limits| ensures L.Covers(limits[k], map[]) {
      forall g ensures L.Members(limits[k], g, map[]) == {} {
      }
    }
  }

  /** The limits before and after a worker is counted in each of them. */
  ghost predicate Counted(limits: seq<L.Limit>, limits': seq<L.Limit>, worker: Id, task: Task) {
    |limits'| == |limits| && forall k :: 0 <= k < |limits| ==> limits'[k] == L.Added(limits[k], worker, task)
  }

  /** A start that every limit allows takes no group of its task past a limit, among those counted. */
  lemma AllowedStaysWithin(limits: seq<L.Limit>, running: map<Id, Task>, worker: Id, task: Task, limits': seq<L.Limit>)
    requires AllCover(limits, running) && worker !in running
    requires L.AllAllow(limits, task) && Counted(limits, limits', worker, task)
    ensures !OverLimit(limits', running[worker := task], task)
  {
    forall k, g | 0 <= k < |limits'| && L.GroupOf(limits'[k], task) == Some(g)
      ensures !Exceeds(limits'[k], g, running[worker := task])
    {
      L.CheckedStartStaysWithin(limits[k], running, worker, task, g);
      assert L.Members(limits'[k], g, running[worker := task]) == L.Members(limits[k], g, running[worker := task]);
    }
  }

  /**
   Over all tracked workers, such a start takes a group past its limit exactly when the group is
   full already; and then some tracked worker of the group is not among those counted.
   */
  lemma StartPassesLimit(limits: seq<L.Limit>, running: map<Id, Task>, listed: set<Id>, worker: Id, task: Task,
                         limits': seq<L.Limit>, k: nat, g: string)
    requires AllCover(limits, Restrict(running, listed)) && worker !in running
    requires L.AllAllow(limits, task) && Counted(limits, limits', worker, task)
    requires k < |limits| && L.GroupOf(limits[k], task) == Some(g)
    ensures Exceeds(limits'[k], g, running[worker := task]) <==> |L.Members(limits[k], g, running)| >= limits[k].limit
    ensures Exceeds(limits'[k], g, running[worker := task]) ==> exists w :: MissedIn(limits[k], g, running, listed, task, w)
  {
    var l := limits[k];
    L.MembersGrow(l, g, running, worker, task);
    L.SameRuleSameMembers(l, limits'[k], g, running[worker := task]);
    if |L.Members(l, g, running)| >= l.limit {
      UncountedMember(l, running, listed, worker, task, g);
    }
  }

  /** A group that is full although the check passes has a member that is not counted. */
  lemma UncountedMember(l: L.Limit, running: map<Id, Task>, listed: set<Id>, worker: Id, task: Task, g: string)
    requires L.Covers(l, Restrict(running, listed)) && worker !in running
    requires L.Allows(l, task) && L.GroupOf(l, task) == Some(g)
    requires |L.Members(l, g, running)| >= l.limit
    ensures exists w :: MissedIn(l, g, running, listed, task, w)
  {
    var counted := Restrict(running, listed);
    var all, known := L.Members(l, g, running), L.Members(l, g, counted);
    L.CheckedStartStaysWithin(l, counted, worker, task, g);
    L.MembersGrow(l, g, counted, worker, task);
    assert known <= all;
    assert !(all <= known) by {
      if all <= known { L.Subset(all, known); }
    }
    var w :| w in all && w !in known;
    assert MissedIn(l, g, running, listed, task, w);
  }

  /** So a start goes past a limit only where the statistics miss a worker, and never when they miss none. */
  lemma OverAllIsMissed(limits: seq<L.Limit>, running: map<Id, Task>, listed: set<Id>, worker: Id, task: Task, limits': seq<L.Limit>)
    requires AllCover(limits, Restrict(running, listed)) && worker !in running
    requires L.AllAllow(limits, task) && Counted(limits, limits', worker, task)
    ensures OverLimit(limits', running[worker := task], task) ==> Missed(limits, running, listed, task)
    ensures running.Keys <= listed ==> !Missed(limits, running, listed, task)
  {
    if OverLimit(limits', running[worker := task], task) {
      var k, g :| 0 <= k < |limits'| && L.GroupOf(limits'[k], task) == Some(g) && Exceeds(limits'[k], g, running[worker := task]);
      StartPassesLimit(limits, running, listed, worker, task, limits', k, g);
    }
  }

  // ---------------------------------------------------------------- exact statistics

  /** Every statistic is the truth about these workers. */
  ghost predicate AllExact(limits: seq<L.Limit>, running: map<Id, Task>) {
    forall k :: 0 <= k < |limits| ==> L.Exact(limits[k], running)
  }

  lemma AddedAllExact(limits: seq<L.Limit>, limits': seq<L.Limit>, running: map<Id, Task>, worker: Id, task: Task)
    requires AllExact(limits, running) && worker !in running && Counted(limits, limits', worker, task)
    ensures AllExact(limits', running[worker := task])
  {
    forall k | 0 <= k < |limits'| ensures L.Exact(limits'[k], running[worker := task]) {
      L.AddedIsExact(limits[k], running, worker, task);
    }
  }

  lemma ClearedAllExact(limits: seq<L.Limit>, limits': seq<L.Limit>)
    requires |limits'| == |limits| && forall k :: 0 <= k < |limits| ==> limits'[k] == L.Cleared(limits[k])
    ensures AllExact(limits', map[])
  {
    forall k | 0 <= k < |limits'| ensures L.Exact(limits'[k], map[]) {
      L.ClearedIsExact(limits[k]);
    }
  }

  /** There is room for a task: in its group, if the limit puts it in one. */
  predicate HasRoom(l: L.Limit, running: map<Id, Task>, task: Task) {
    match L.GroupOf(l, task)
    case Some(g) => |L.Members(l, g, running)| < l.limit
    case None => l.PredicateLimit? || l.limit > 0
  }

  /** With exact statistics a task passes iff each of its groups has room: neither too strict nor too lax. */
  lemma PassesIffRoom(limits: seq<L.Limit>, running: map<Id, Task>, task: Task)
    requires AllExact(limits, running)
    ensures L.AllAllow(limits, task) <==> forall k :: 0 <= k < |limits| ==> HasRoom(limits[k], running, task)
  {
    forall k | 0 <= k < |limits| ensures L.Allows(limits[k], task) <==> HasRoom(limits[k], running, task) {
      match L.GroupOf(limits[k], task) {
        case Some(g) => L.ExactCheck(limits[k], running, task, g);
        case None => L.UngroupedTask(limits[k], task);
      }
    }
  }

  predicate DistinctIds(raw: seq<Task>) {
    forall i, j :: 0 <= i < j < |raw| ==> raw[i].id != raw[j].id
  }

  /** One start of this task, or none. */
  predicate StartedAtMost(before: seq<Start>, after: seq<Start>, id: Id) {
    after == before || (|after| == |before| + 1 && before <= after && after[|before|].id == id)
  }

  /** The starts since `before` are of popped tasks, each popped task at most once and in order. */
  predicate NewStartsAmong(before: seq<Start>, after: seq<Start>, popped: seq<Id>) {
    && before <= after
    && if after == before then true
       else
         && popped != []
         && if after[|after| - 1].id == popped[|popped| - 1]
            then NewStartsAmong(before, after[..|after| - 1], popped[..|popped| - 1])
            else NewStartsAmong(before, after, popped[..|popped| - 1])
  }

  lemma NewStartsAppend(before: seq<Start>, mid: seq<Start>, after: seq<Start>, popped: seq<Id>, id: Id)
    requires NewStartsAmong(before, mid, popped) && StartedAtMost(mid, after, id)
    requires id !in popped
    ensures NewStartsAmong(before, after, popped + [id])
  {
    assert (popped + [id])[..|popped|] == popped;
    if after != mid {
      assert after[..|after| - 1] == mid;
    } else if mid != before {
      NewStartsPopped(before, mid, popped);
    }
  }

  /** Fewer starts are still among the pops. */
  lemma {:induction false} NewStartsPrefix(before: seq<Start>, after: seq<Start>, popped: seq<Id>)
    requires NewStartsAmong(before, after, popped) && after != before
    ensures NewStartsAmong(before, after[..|after| - 1], popped)
    decreases |popped|, 0
  {
    var shorter := after[..|after| - 1];
    if shorter != before {
      var front := popped[..|popped| - 1];
      if after[|after| - 1].id == popped[|popped| - 1] {
        NewStartsMore(before, shorter, front, popped[|popped| - 1]);
        assert popped == front + [popped[|popped| - 1]];
      } else {
        NewStartsPrefix(before, after, front);
        NewStartsMore(before, shorter, front, popped[|popped| - 1]);
        assert popped == front + [popped[|popped| - 1]];
      }
    }
  }

  /** And more pops have them still among them. */
  lemma {:induction false} NewStartsMore(before: seq<Start>, after: seq<Start>, popped: seq<Id>, id: Id)
    requires NewStartsAmong(before, after, popped)
    ensures NewStartsAmong(before, after, popped + [id])
    decreases |popped|, 1
  {
    assert (popped + [id])[..|popped|] == popped;
    if after != before && after[|after| - 1].id == id {
      NewStartsPrefix(before, after, popped);
    }
  }

  /** What two runs started one after the other is among what they popped. */
  lemma {:induction false} NewStartsJoin(before: seq<Start>, mid: seq<Start>, after: seq<Start>, popped: seq<Id>, more: seq<Id>)
    requires NewStartsAmong(before, mid, popped) && NewStartsAmong(mid, after, more)
    ensures NewStartsAmong(before, after, popped + more)
    decreases |more|
  {
    if more == [] {
      assert popped + more == popped;
    } else {
      var front, x := more[..|more| - 1], more[|more| - 1];
      assert popped + more == popped + front + [x];
      if after == mid {
        NewStartsJoin(before, mid, mid, popped, front);
        NewStartsMore(before, mid, popped + front, x);
      } else if after[|after| - 1].id == x {
        var shorter := after[..|after| - 1];
        NewStartsJoin(before, mid, shorter, popped, front);
        assert (popped + front + [x])[..|popped + front|] == popped + front;
      } else {
        NewStartsJoin(before, mid, after, popped, front);
        NewStartsMore(before, after, popped + front, x);
      }
    }
  }

  /** What a run has done so far: pops in order, and starts among them. */
  ghost predicate RunSoFar(live0: map<Id, Item>, live: map<Id, Item>, starts0: seq<Start>, starts: seq<Start>, popped: seq<Id>) {
    && F.PopOrder(live0, popped)
    && live == live0 - F.Ids(popped)
    && NewStartsAmong(starts0, starts, popped)
  }

  lemma RunStart(live: map<Id, Item>, starts: seq<Start>, max: Option<nat>, began: int, timeout: int)
    ensures RunLog(live, live, starts, starts, [], max, began, timeout)
  {
    assert live - F.Ids([]) == live;
  }

  /**
   What a turn of the loop comes to, at the time it went by: the first task is taken, or there is a
   wait, with this many workers tracked, or the loop is left.
   */
  datatype Event = Popped(at: int, id: Id) | Waited(at: int, workers: nat) | Quit(at: int)

  /** The tasks that were popped, in order. */
  function Pops(log: seq<Event>): seq<Id> {
    if log == [] then []
    else if log[|log| - 1].Popped? then Pops(log[..|log| - 1]) + [log[|log| - 1].id]
    else Pops(log[..|log| - 1])
  }

  /** There is nothing to do but wait: no slot is free, or nothing is queued while somebody works. */
  predicate HeldUp(max: Option<nat>, workers: nat, queued: set<Id>) {
    (max.Some? && workers >= max.value) || (queued == {} && workers > 0)
  }

  /** One turn: the first task leaves the queue, started iff it passes the limits; or nothing happens, for a reason. */
  ghost predicate TurnOk(live: map<Id, Item>, live': map<Id, Item>, starts: seq<Start>, starts': seq<Start>,
                         limits: seq<L.Limit>, e: Event, max: Option<nat>)
  {
    match e
    case Popped(_, id) =>
      && First(live, id) && live' == live - {id} && StartedAtMost(starts, starts', id)
      && (starts' != starts <==> L.AllAllow(limits, live[id].task))
    case Waited(_, workers) => HeldUp(max, workers, live.Keys) && live' == live && starts' == starts
    case Quit(_) => live' == live && starts' == starts
  }

  lemma FirstTaken(live: map<Id, Item>, live': map<Id, Item>, starts: seq<Start>, starts': seq<Start>,
                   limits: seq<L.Limit>, at: int, id: Id, max: Option<nat>)
    requires First(live, id) && live' == live - {id} && StartedAtMost(starts, starts', id)
    requires starts' != starts <==> L.AllAllow(limits, live[id].task)
    ensures TurnOk(live, live', starts, starts', limits, Popped(at, id), max)
  {
  }

  /** All turns are within the time, and those that wait have a reason to, with what is queued then. */
  ghost predicate Logged(live0: map<Id, Item>, log: seq<Event>, max: Option<nat>, began: int, timeout: int) {
    && (forall k :: 0 <= k < |log| ==> began <= log[k].at < began + timeout)
    && (forall k :: 0 <= k < |log| && log[k].Waited? ==>
          HeldUp(max, log[k].workers, live0.Keys - F.Ids(Pops(log[..k]))))
  }

  /** Nobody waits but for a slot, as long as anything is queued in the end. */
  ghost predicate NeverIdle(log: seq<Event>, max: Option<nat>, rest: map<Id, Item>) {
    forall k :: 0 <= k < |log| && log[k].Waited? ==> (max.Some? && log[k].workers >= max.value) || rest == map[]
  }

  lemma {:induction false} PopsGrow(log: seq<Event>, k: nat)
    requires k <= |log|
    ensures F.Ids(Pops(log[..k])) <= F.Ids(Pops(log))
    decreases |log|
  {
    if k < |log| {
      var front := log[..|log| - 1];
      PopsGrow(front, k);
      assert front[..k] == log[..k];
    } else {
      assert log[..k] == log;
    }
  }

  lemma LoggedNeverIdle(live0: map<Id, Item>, log: seq<Event>, max: Option<nat>, began: int, timeout: int)
    requires Logged(live0, log, max, began, timeout)
    ensures NeverIdle(log, max, live0 - F.Ids(Pops(log)))
  {
    forall k | 0 <= k < |log| && log[k].Waited? && !(max.Some? && log[k].workers >= max.value)
      ensures live0 - F.Ids(Pops(log)) == map[]
    {
      PopsGrow(log, k);
      assert (live0 - F.Ids(Pops(log))).Keys <= live0.Keys - F.Ids(Pops(log[..k])) == {};
    }
  }

  /** What a run has done so far, and the log of it. */
  ghost predicate RunLog(live0: map<Id, Item>, live: map<Id, Item>, starts0: seq<Start>, starts: seq<Start>,
                         log: seq<Event>, max: Option<nat>, began: int, timeout: int)
  {
    RunSoFar(live0, live, starts0, starts, Pops(log)) && Logged(live0, log, max, began, timeout)
  }

  lemma RunEnds(live0: map<Id, Item>, live: map<Id, Item>, starts0: seq<Start>, starts: seq<Start>,
                log: seq<Event>, max: Option<nat>, began: int, timeout: int)
    requires RunLog(live0, live, starts0, starts, log, max, began, timeout)
    ensures F.PopOrder(live0, Pops(log)) && live == live0 - F.Ids(Pops(log)) && NewStartsAmong(starts0, starts, Pops(log))
    ensures Logged(live0, log, max, began, timeout)
  {
  }

  lemma OneMoreTurn(live0: map<Id, Item>, live: map<Id, Item>, live': map<Id, Item>,
                    starts0: seq<Start>, was: seq<Start>, starts: seq<Start>, log: seq<Event>, e: Event,
                    limits: seq<L.Limit>, max: Option<nat>, began: int, timeout: int)
    requires RunLog(live0, live, starts0, was, log, max, began, timeout)
    requires TurnOk(live, live', was, starts, limits, e, max) && (!e.Quit? ==> began <= e.at < began + timeout)
    ensures RunLog(live0, live', starts0, starts, if e.Quit? then log else log + [e], max, began, timeout)
  {
    var log' := log + [e];
    assert log'[..|log|] == log;
    assert forall k :: 0 <= k < |log| ==> log'[..k] == log[..k];
    if e.Popped? {
      RunStep(live0, live, live', starts0, was, starts, Pops(log), e.id);
    } else {
      assert live.Keys == live0.Keys - F.Ids(Pops(log));
    }
  }

  lemma RunStep(live0: map<Id, Item>, live: map<Id, Item>, live': map<Id, Item>,
                starts0: seq<Start>, was: seq<Start>, starts: seq<Start>, popped: seq<Id>, id: Id)
    requires RunSoFar(live0, live, starts0, was, popped)
    requires First(live, id) && live' == live - {id} && StartedAtMost(was, starts, id)
    ensures RunSoFar(live0, live', starts0, starts, popped + [id])
  {
    F.PopOrderAppend(live0, popped, id);
    NewStartsAppend(starts0, was, starts, popped, id);
  }

  lemma {:induction false} NewStartsPopped(before: seq<Start>, after: seq<Start>, popped: seq<Id>)
    requires NewStartsAmong(before, after, popped) && after != before
    ensures after[|after| - 1].id in popped
  {
    if after[|after| - 1].id != popped[|popped| - 1] {
      NewStartsPopped(before, after, popped[..|popped| - 1]);
    }
  }

  /** The queue holds the untracked ones of the first n tasks. */
  ghost predicate FilledUpTo(live: map<Id, Item>, raw: seq<Task>, at: map<Id, nat>, n: nat, count: nat) {
    && F.FilledFrom(live, raw, at)
    && forall id :: id in live ==> at[id] < n && live[id].count < count
  }

  lemma FilledKeeps(live: map<Id, Item>, raw: seq<Task>, at: map<Id, nat>, n: nat, count: nat)
    requires FilledUpTo(live, raw, at, n, count)
    ensures FilledUpTo(live, raw, at, n + 1, count)
  {
  }

  /** The untracked ones of the first n tasks are all queued. */
  ghost predicate Queued(live: map<Id, Item>, raw: seq<Task>, tracked: set<Id>, n: nat) {
    n <= |raw| && forall j :: 0 <= j < n && raw[j].id !in tracked ==> raw[j].id in live
  }

  /** In a fetch without repetition, the next task is not counted yet. */
  lemma NextIsNotListed(raw: seq<Task>, tracked: set<Id>, n: nat)
    requires n < |raw| && DistinctIds(raw)
    ensures raw[n].id !in ListedIds(raw, tracked, n)
  {
  }

  lemma QueuedStep(live: map<Id, Item>, live': map<Id, Item>, raw: seq<Task>, tracked: set<Id>, n: nat)
    requires n < |raw| && Queued(live, raw, tracked, n)
    requires live.Keys <= live'.Keys && (raw[n].id in tracked || raw[n].id in live')
    ensures Queued(live', raw, tracked, n + 1)
  {
  }

  /** The tracked ones among the ids of the first n tasks. */
  function ListedIds(raw: seq<Task>, tracked: set<Id>, n: nat): set<Id>
    requires n <= |raw|
  {
    set j | 0 <= j < n && raw[j].id in tracked :: raw[j].id
  }

  lemma ListedStep(raw: seq<Task>, tracked: set<Id>, n: nat)
    requires n < |raw|
    ensures ListedIds(raw, tracked, n + 1) ==
            if raw[n].id in tracked then ListedIds(raw, tracked, n) + {raw[n].id} else ListedIds(raw, tracked, n)
  {
  }

  lemma FilledAdds(live: map<Id, Item>, raw: seq<Task>, at: map<Id, nat>, i: nat, count: nat)
    requires i < |raw| && FilledUpTo(live, raw, at, i, count)
    ensures var t := F.Ranked(raw, i);
            FilledUpTo(live[t.id := Item(Priority(t), count, t)], raw, at[t.id := i], i + 1, count + 1)
  {
  }

  // ---------------------------------------------------------------- what is done to the workers

  /** What the manager does outside of itself: commands on a worker's hash, and the two hooks. */
  datatype Act =
    | SetAllocated(id: Id, at: int) | StartTask(id: Id)
    | SetCancel(id: Id) | SetChecked(id: Id, at: int) | SetDelete(id: Id) | DeleteKey(id: Id) | FinishTask(id: Id)

  /** A worker as the cleanup finds it: its hash, and the answer of is_worker_alive() if it is asked. */
  datatype Found = Found(id: Id, info: W.Info, alive: bool)

  function StartActs(id: Id, now: int): seq<Act> {
    [SetAllocated(id, now), StartTask(id)]
  }

  /** The requests that the first n cancellations write. */
  function CancelActs(cancels: seq<Id>, keys: seq<set<Id>>, n: nat): seq<Act>
    requires n <= |cancels| == |keys|
  {
    if n == 0 then []
    else if cancels[n - 1] in keys[n - 1] then CancelActs(cancels, keys, n - 1) + [SetCancel(cancels[n - 1])]
    else CancelActs(cancels, keys, n - 1)
  }

  /** Exactly the cancelled ones with a key in Redis are asked to stop. */
  lemma {:induction false} CancelsExactly(cancels: seq<Id>, keys: seq<set<Id>>, n: nat)
    requires n <= |cancels| == |keys|
    ensures forall a :: a in CancelActs(cancels, keys, n) <==>
              exists i :: 0 <= i < n && a == SetCancel(cancels[i]) && cancels[i] in keys[i]
  {
    if n > 0 {
      CancelsExactly(cancels, keys, n - 1);
    }
  }

  function ActsOn(f: Found, now: int): seq<Act> {
    match W.Decide(f.info, now)
    case Finished => [FinishTask(f.id), DeleteKey(f.id)]
    case Probe => if f.alive then [SetChecked(f.id, now)] else [SetChecked(f.id, now), SetDelete(f.id)]
    case Keep => []
    case _ => [DeleteKey(f.id)]
  }

  lemma Chain(a: seq<Act>, b: seq<Act>, c: seq<Act>)
    ensures (a + b) + c == a + (b + c)
  {
  }

  /** The acts on the first n workers found. */
  function ActsOnAll(found: seq<Found>, n: nat, now: int): seq<Act>
    requires n <= |found|
  {
    if n == 0 then [] else ActsOnAll(found, n - 1, now) + ActsOn(found[n - 1], now)
  }

  /** The workers among the first n found that the verdict on their hash gives up. */
  function GivenUp(found: seq<Found>, n: nat, now: int): set<Id>
    requires n <= |found|
  {
    if n == 0 then {}
    else if W.Drops(W.Decide(found[n - 1].info, now)) then GivenUp(found, n - 1, now) + {found[n - 1].id}
    else GivenUp(found, n - 1, now)
  }

  /** What is to be done to a worker that was found like this, field by field. */
  predicate Due(a: Act, f: Found, now: int) {
    match a
    case FinishTask(id) => id == f.id && f.info.allocatedAt.Some? && f.info.status
    case DeleteKey(id) => id == f.id && W.Gone(f.info, now)
    case SetChecked(id, at) => id == f.id && at == now && W.Overdue(f.info, now)
    case SetDelete(id) => id == f.id && W.Overdue(f.info, now) && !f.alive
    case _ => false
  }

  lemma {:induction false} ActsExactly(found: seq<Found>, n: nat, now: int, a: Act)
    requires n <= |found|
    ensures a in ActsOnAll(found, n, now) <==> exists i :: 0 <= i < n && Due(a, found[i], now)
  {
    if n > 0 {
      ActsExactly(found, n - 1, now, a);
      W.DecidesExactly(found[n - 1].info, now);
      assert a in ActsOn(found[n - 1], now) <==> Due(a, found[n - 1], now);
    }
  }

  lemma {:induction false} GivenUpExactly(found: seq<Found>, n: nat, now: int, id: Id)
    requires n <= |found|
    ensures id in GivenUp(found, n, now) <==> exists i :: 0 <= i < n && found[i].id == id && W.Gone(found[i].info, now)
  {
    if n > 0 {
      GivenUpExactly(found, n - 1, now, id);
      W.DecidesExactly(found[n - 1].info, now);
    }
  }

  /** One pass: who is given up, and what is done to whom. */
  ghost predicate Swept(found: seq<Found>, now: int, tracked: set<Id>, tracked': set<Id>, done: seq<Act>) {
    && (forall id :: id in tracked' <==>
          id in tracked && !exists i :: 0 <= i < |found| && found[i].id == id && W.Gone(found[i].info, now))
    && (forall a :: a in done <==> exists i :: 0 <= i < |found| && Due(a, found[i], now))
  }

  lemma SweepsExactly(found: seq<Found>, now: int, tracked: set<Id>)
    ensures Swept(found, now, tracked, tracked - GivenUp(found, |found|, now), ActsOnAll(found, |found|, now))
  {
    forall id ensures id in GivenUp(found, |found|, now) <==>
      exists i :: 0 <= i < |found| && found[i].id == id && W.Gone(found[i].info, now)
    {
      GivenUpExactly(found, |found|, now, id);
    }
    forall a ensures a in ActsOnAll(found, |found|, now) <==> exists i :: 0 <= i < |found| && Due(a, found[i], now) {
      ActsExactly(found, |found|, now, a);
    }
  }

  /** A hash after a command on it. */
  function After(info: W.Info, a: Act): W.Info {
    match a
    case SetAllocated(_, at) => info.(allocatedAt := Some(at))
    case SetCancel(_) => info.(cancelRequest := true)
    case SetChecked(_, at) => info.(checked := Some(at))
    case SetDelete(_) => info.(delete := true)
    case DeleteKey(_) => W.Absent
    case _ => info
  }

  function Written(info: W.Info, acts: seq<Act>): W.Info
    decreases |acts|
  {
    if acts == [] then info else Written(After(info, acts[0]), acts[1..])
  }

  lemma WrittenOne(info: W.Info, a: Act)
    ensures Written(info, [a]) == After(info, a)
  {
    assert [a][1..] == [];
  }

  lemma WrittenTwo(info: W.Info, a: Act, b: Act)
    ensures Written(info, [a, b]) == After(After(info, a), b)
  {
    assert [a, b][1..] == [b];
    WrittenOne(After(info, a), b);
  }

  /** The manager's steps on one key in WorkerLife, from reading it on, the worker being silent. */
  function OneReading(s: W.State, alive: bool): W.State
    requires s.phase.Idle? && !s.judged
  {
    var j := W.Apply(s, W.Judge);
    match W.Decide(s.info, s.now)
    case Finished => W.Apply(W.Apply(W.Apply(j, W.Finish), W.Delete), W.Unlist)
    case Probe =>
      var c := W.Apply(j, W.WriteChecked);
      if alive then W.Apply(c, W.SeesAlive) else W.Apply(W.Apply(c, W.SeesDead), W.Mark)
    case Keep => W.Apply(j, W.Nothing)
    case _ => W.Apply(W.Apply(W.Apply(j, W.Drop), W.Delete), W.Unlist)
  }

  /**
   The acts of the cleanup on one worker are the steps of WorkerLife on its key: they leave the
   same hash, give the worker up in the same cases, and call finish_task() in the same cases.
   */
  lemma ActsAreSteps(s: W.State, id: Id, alive: bool)
    requires s.phase.Idle? && !s.judged
    ensures var t, acts := OneReading(s, alive), ActsOn(Found(id, s.info, alive), s.now);
            && t.phase.Idle? && t.info == Written(s.info, acts)
            && t.tracked == (s.tracked && !W.Drops(W.Decide(s.info, s.now)))
            && t.finishCalls == (if FinishTask(id) in acts then s.finishCalls + [s.alloc] else s.finishCalls)
  {
    match W.Decide(s.info, s.now) {
      case Keep =>
      case Finished => WrittenTwo(s.info, FinishTask(id), DeleteKey(id));
      case Probe => ProbeActsAreSteps(s, id, alive);
      case _ => DropActsAreSteps(s, id, alive);
    }
  }

  lemma ProbeActsAreSteps(s: W.State, id: Id, alive: bool)
    requires s.phase.Idle? && !s.judged && W.Decide(s.info, s.now).Probe?
    ensures var t, acts := OneReading(s, alive), ActsOn(Found(id, s.info, alive), s.now);
            && t.phase.Idle? && t.info == Written(s.info, acts)
            && t.tracked == s.tracked && t.finishCalls == s.finishCalls && FinishTask(id) !in acts
  {
    WrittenOne(s.info, SetChecked(id, s.now));
    WrittenTwo(s.info, SetChecked(id, s.now), SetDelete(id));
  }

  lemma DropActsAreSteps(s: W.State, id: Id, alive: bool)
    requires s.phase.Idle? && !s.judged
    requires W.Drops(W.Decide(s.info, s.now)) && !W.Decide(s.info, s.now).Finished?
    ensures var t, acts := OneReading(s, alive), ActsOn(Found(id, s.info, alive), s.now);
            && t.phase.Idle? && t.info == Written(s.info, acts)
            && !t.tracked && t.finishCalls == s.finishCalls && FinishTask(id) !in acts
  {
    WrittenOne(s.info, DeleteKey(id));
  }

  /** Each popped task goes in fair order before what was popped later and before what is still queued. */
  ghost predicate AllFair(raw: seq<Task>, at: map<Id, nat>, popped: seq<Id>, rest: map<Id, Item>) {
    && (forall i :: 0 <= i < |popped| ==> F.StandsFor(raw, at, popped[i]))
    && (forall i, j :: 0 <= i < j < |popped| ==> F.InFairOrder(raw, at, popped[i], popped[j]))
    && (forall i, y :: 0 <= i < |popped| && y in rest ==> F.InFairOrder(raw, at, popped[i], y))
  }

  lemma RoundIsFair(raw: seq<Task>, at: map<Id, nat>, live: map<Id, Item>, popped: seq<Id>)
    requires F.FilledFrom(live, raw, at) && F.PopOrder(live, popped)
    ensures AllFair(raw, at, popped, live - F.Ids(popped))
  {
    forall i | 0 <= i < |popped| ensures F.StandsFor(raw, at, popped[i]) {
      F.PopOrderMembers(live, popped, i);
    }
    forall i, j | 0 <= i < j < |popped| ensures F.InFairOrder(raw, at, popped[i], popped[j]) {
      F.PopOrderMembers(live, popped, j);
      assert popped[i] in popped[..j];
      assert popped[..i] <= popped[..j];
      F.PopsAreFair(live, raw, at, popped, i, popped[j]);
    }
    forall i, y | 0 <= i < |popped| && y in live - F.Ids(popped) ensures F.InFairOrder(raw, at, popped[i], y) {
      F.PopsAreFair(live, raw, at, popped, i, y);
    }
  }

  /** What was popped, and what is left, was queued. */
  ghost predicate TakenFrom(live: map<Id, Item>, popped: seq<Id>, rest: map<Id, Item>) {
    && (forall i :: 0 <= i < |popped| ==> popped[i] in live)
    && rest.Keys <= live.Keys
  }

  /** Rounds that go on popping the same fetch pop it as if they were one. */
  lemma FairOnwards(raw: seq<Task>, at: map<Id, nat>, before: seq<Id>, live: map<Id, Item>, popped: seq<Id>, rest: map<Id, Item>)
    requires AllFair(raw, at, before, live) && AllFair(raw, at, popped, rest) && TakenFrom(live, popped, rest)
    ensures AllFair(raw, at, before + popped, rest)
  {
    var all, n := before + popped, |before|;
    forall i, j | 0 <= i < j < |all| ensures F.InFairOrder(raw, at, all[i], all[j]) {
      if i < n <= j {
        assert all[i] == before[i] && all[j] == popped[j - n];
      }
    }
    forall i, y | 0 <= i < |all| && y in rest ensures F.InFairOrder(raw, at, all[i], y) {
      assert all[i] == if i < n then before[i] else popped[i - n];
    }
  }

  /** The number of the last of the first n fetches that was not empty, or 0. */
  function LastAt(fetches: seq<seq<Task>>, n: nat): (k: nat)
    requires n <= |fetches|
    ensures k == 0 || k < n
  {
    if n == 0 then 0 else if fetches[n - 1] == [] then LastAt(fetches, n - 1) else n - 1
  }

  /** That fetch; when all were empty, an empty one. */
  function LastFetch(fetches: seq<seq<Task>>, n: nat): seq<Task>
    requires n <= |fetches|
  {
    if n == 0 then [] else fetches[LastAt(fetches, n)]
  }

  /** What the rounds from number k on popped. */
  function Joined(pops: seq<seq<Id>>, k: nat): seq<Id> {
    if |pops| <= k then [] else Joined(pops[..|pops| - 1], k) + pops[|pops| - 1]
  }

  /** The first n rounds: pops in fair order since the last fetch, and starts among all pops. */
  ghost predicate RoundsSoFar(fetches: seq<seq<Task>>, n: nat, pops: seq<seq<Id>>, at: map<Id, nat>, live: map<Id, Item>,
                              starts0: seq<Start>, starts: seq<Start>)
  {
    && n <= |fetches| && |pops| == n
    && F.FilledFrom(live, LastFetch(fetches, n), at)
    && AllFair(LastFetch(fetches, n), at, Joined(pops, LastAt(fetches, n)), live)
    && NewStartsAmong(starts0, starts, Joined(pops, 0))
  }

  lemma NoRoundYet(fetches: seq<seq<Task>>, starts: seq<Start>)
    ensures RoundsSoFar(fetches, 0, [], map[], map[], starts, starts)
  {
  }

  lemma OneMoreRound(fetches: seq<seq<Task>>, n: nat, pops: seq<seq<Id>>, at: map<Id, nat>, at': map<Id, nat>,
                     live: map<Id, Item>, live': map<Id, Item>,
                     starts0: seq<Start>, starts: seq<Start>, starts': seq<Start>, popped: seq<Id>)
    requires n < |fetches| && RoundsSoFar(fetches, n, pops, at, live, starts0, starts)
    requires F.FilledFrom(live', LastFetch(fetches, n + 1), at') && AllFair(LastFetch(fetches, n + 1), at', popped, live')
    requires fetches[n] == [] ==> at' == at && TakenFrom(live, popped, live')
    requires NewStartsAmong(starts, starts', popped)
    ensures RoundsSoFar(fetches, n + 1, pops + [popped], at', live', starts0, starts')
  {
    var pops', k := pops + [popped], LastAt(fetches, n + 1);
    assert pops'[..n] == pops;
    NewStartsJoin(starts0, starts, starts', Joined(pops, 0), popped);
    if fetches[n] == [] {
      SameFetch(fetches, n);
      FairOnwards(LastFetch(fetches, n), at, Joined(pops, k), live, popped, live');
      if n == 0 {
        assert Joined(pops', k) == popped;
      }
    } else {
      assert Joined(pops', k) == popped;
    }
  }

  lemma SameFetch(fetches: seq<seq<Task>>, n: nat)
    requires n < |fetches| && fetches[n] == []
    ensures LastAt(fetches, n + 1) == LastAt(fetches, n) && LastFetch(fetches, n + 1) == LastFetch(fetches, n)
  {
  }

  /** The tasks a round has to deal with: the fetched ones without a worker, or what is queued when nothing came. */
  function Expected(raw: seq<Task>, tracked: set<Id>, live: map<Id, Item>): set<Id> {
    if raw == [] then live.Keys else set i | 0 <= i < |raw| && raw[i].id !in tracked :: raw[i].id
  }

  lemma ExpectedQueued(raw: seq<Task>, tracked: set<Id>, live: map<Id, Item>)
    requires raw != [] && Queued(live, raw, tracked, |raw|)
    ensures forall live0 :: Expected(raw, tracked, live0) <= live.Keys
  {
  }

  /** Each of these tasks was cancelled, was popped, or is still queued. */
  ghost predicate NoneLost(ids: set<Id>, cancels: seq<Id>, popped: seq<Id>, rest: map<Id, Item>) {
    forall id :: id in ids ==> id in cancels || id in popped || id in rest
  }

  /** Nothing cancelled was popped, or is queued. */
  ghost predicate CancelledGone(cancels: seq<Id>, popped: seq<Id>, rest: map<Id, Item>) {
    forall c :: c in cancels ==> c !in popped && c !in rest
  }

  /** What comes of a queue from which first `cancels` and then, first things first, `popped` are taken. */
  lemma RoundOutcome(raw: seq<Task>, at: map<Id, nat>, ids: set<Id>, filled: map<Id, Item>, cancels: seq<Id>, popped: seq<Id>)
    requires F.FilledFrom(filled, raw, at) && F.PopOrder(filled - F.Ids(cancels), popped)
    requires ids <= filled.Keys
    ensures var rest := filled - F.Ids(cancels) - F.Ids(popped);
            && F.FilledFrom(rest, raw, at)
            && AllFair(raw, at, popped, rest)
            && TakenFrom(filled, popped, rest)
            && NoneLost(ids, cancels, popped, rest)
            && CancelledGone(cancels, popped, rest)
  {
    var live := filled - F.Ids(cancels);
    F.FilledShrinks(filled, raw, at, F.Ids(cancels));
    F.FilledShrinks(live, raw, at, F.Ids(popped));
    RoundIsFair(raw, at, live, popped);
    forall i | 0 <= i < |popped| ensures popped[i] in filled {
      F.PopOrderMembers(live, popped, i);
    }
    forall c | c in cancels ensures c !in popped {
      if k :| 0 <= k < |popped| && popped[k] == c {
        F.PopOrderMembers(live, popped, k);
      }
    }
  }

  /** The starts that were added took no group past a limit, all tracked workers counted. */
  ghost predicate WithinAll(before: seq<Start>, after: seq<Start>) {
    forall k :: |before| <= k < |after| ==> !after[k].overAll
  }

  lemma WithinNone(starts: seq<Start>)
    ensures WithinAll(starts, starts)
  {
  }

  class WorkerManager {
    var tasks: JobQueue
    var tracked: set<Id>
    const limitList: L.LimitList
    var lastWorkerCleanup: int
    const maxWorkers: Option<nat>   // None: no limit
    const clock: Clock

    // the limits at construction
    ghost const rules: seq<L.Limit>
    // the workers found at construction
    ghost const adopted: nat
    // the task each tracked worker was last counted or started under
    ghost var running: map<Id, Task>
    // the tracked workers that the present statistics count
    ghost var listed: set<Id>
    // all starts so far
    ghost var starts: seq<Start>
    // everything done to the workers so far
    ghost var acts: seq<Act>
    // the state of the limit objects
    ghost var limits: seq<L.Limit>

    /** The limit objects are in the state `limits`, and are nobody else's. */
    ghost predicate Backed()
      reads this, limitList, limitList.Repr
    {
      && limitList.Valid() && limitList.states == limits && L.SameRules(rules, limits)
      && this !in limitList.Repr && tasks !in limitList.Repr && clock !in limitList.Repr
    }

    ghost predicate RoomFor(n: nat) {
      maxWorkers.None? || n <= maxWorkers.value || n <= adopted
    }

    ghost predicate StartOk(s: Start) {
      && !s.wasTracked
      && !s.overListed
      && (s.overAll ==> s.missed)
      && (maxWorkers.Some? ==> s.workers <= maxWorkers.value)
    }

    /**
     Queued and tracked tasks are disjoint, the statistics cover the workers they count, the
     number of workers is bounded, and every start so far was in order.
     */
    ghost predicate Valid()
      reads this, tasks, limitList, limitList.Repr
    {
      && Backed()
      && tasks.Valid()
      && tracked == running.Keys
      && listed <= tracked
      && tasks.Tasks().Keys !! tracked
      && AllCover(limits, Restrict(running, listed))
      && RoomFor(|tracked|)
      && (forall k :: 0 <= k < |starts| ==> StartOk(starts[k]))
    }

    /** The statistics count every tracked worker. */
    ghost predicate Complete()
      reads this
    {
      listed == tracked
    }

    /** The statistics are the truth about the workers they count. */
    ghost predicate Exactly()
      reads this
    {
      AllExact(limits, Restrict(running, listed))
    }

    constructor (maxWorkers: Option<nat>, clock: Clock, limitList: L.LimitList, workers: set<Id>, ghost any: Task)
      requires limitList.Valid() && clock !in limitList.Repr
      ensures Valid() && tasks.Tasks() == map[] && fresh(tasks) && this.clock == clock && this.limitList == limitList
      ensures tracked == workers && limits == rules == limitList.states && this.maxWorkers == maxWorkers
      ensures starts == [] && acts == [] && adopted == |workers|
    {
      tasks := new JobQueue();
      tracked, this.limitList, this.maxWorkers, this.clock := workers, limitList, maxWorkers, clock;
      lastWorkerCleanup := 0;
      adopted, listed, starts, acts, limits := |workers|, {}, [], [], limitList.states;
      rules := limitList.states;
      running := map w | w in workers :: any;
      new;
      NobodyCounted(limits);
      assert Restrict(running, listed) == map[];
    }

    method AddTask(task: Task)
      requires Valid()
      modifies this`limits, this`running, this`listed, tasks, limitList.Repr
      ensures fresh(limitList.Repr - old(limitList.Repr))
      ensures Valid()
      ensures task.id in tracked ==>
                && tasks.Tasks() == old(tasks.Tasks()) && tasks.counter == old(tasks.counter)
                && listed == old(listed) + {task.id}
      ensures task.id !in tracked ==>
                && tasks.Tasks() == old(tasks.Tasks())[task.id := Item(Priority(task), old(tasks.counter), task)]
                && tasks.counter == old(tasks.counter) + 1
                && listed == old(listed)
      ensures old(Exactly()) && task.id !in old(listed) ==> Exactly()
      ensures running == if task.id in tracked then old(running)[task.id := task] else old(running)
    {
      if task.id in tracked {
        ghost var before := Restrict(running, listed);
        CountInLimits(task, before);
        running, listed := running[task.id := task], listed + {task.id};
        assert Restrict(running, listed) == before[task.id := task];
        return;
      }
      tasks.AddTask(task, Priority(task));
    }

    /** _calculate_limits_for_task() */
    method CountInLimits(task: Task, ghost counted: map<Id, Task>)
      requires Backed() && AllCover(limits, counted)
      modifies this`limits, limitList.Repr
      ensures Backed() && fresh(limitList.Repr - old(limitList.Repr))
      ensures Counted(old(limits), limits, task.id, task)
      ensures AllCover(limits, counted[task.id := task])
      ensures old(AllExact(limits, counted)) && task.id !in counted ==> AllExact(limits, counted[task.id := task])
    {
      limitList.WorkerAdded(task.id, task);
      AddedAllCover(limits, limitList.states, counted, task.id, task);
      CountedSameRules(rules, limits, limitList.states, task.id, task);
      if AllExact(limits, counted) && task.id !in counted {
        AddedAllExact(limits, limitList.states, counted, task.id, task);
      }
      limits := limitList.states;
    }

    /** Drops the task from the queue; a worker whose key is among those in Redis is asked to stop. */
    method CancelTaskId(id: Id, keys: set<Id>) returns (wasRunning: bool)
      requires Valid()
      modifies this`acts, tasks
      ensures Valid()
      ensures tasks.Tasks() == old(tasks.Tasks()) - {id}
      ensures wasRunning <==> id in keys
      ensures acts == if id in keys then old(acts) + [SetCancel(id)] else old(acts)
    {
      var _ := tasks.RemoveTaskById(id);
      if id !in keys {
        return false;
      }
      acts := acts + [SetCancel(id)];
      return true;
    }

    method CleanTasks()
      requires Valid()
      modifies this`tasks, this`limits, this`listed, limitList.Repr
      ensures fresh(limitList.Repr - old(limitList.Repr))
      ensures Valid() && fresh(tasks) && tasks.Tasks() == map[] && tasks.counter == 0
      ensures listed == {} && Exactly()
      ensures |limits| == |old(limits)| && forall k :: 0 <= k < |limits| ==> limits[k] == L.Cleared(old(limits)[k])
    {
      limitList.Clear();
      ClearedAllCover(limits, limitList.states);
      ClearedAllExact(limits, limitList.states);
      ClearedSameRules(rules, limits, limitList.states);
      limits, listed := limitList.states, {};
      tasks := new JobQueue();
      assert Restrict(running, listed) == map[];
    }

    /** Something is done to a worker. */
    method Do(a: Act)
      requires Valid()
      modifies this`acts
      ensures Valid() && acts == old(acts) + [a]
    {
      acts := acts + [a];
    }

    /** Only called with a popped task that every limit allows, while there is room. */
    method StartWorker(task: Task, now: int)
      requires Valid() && task.id !in tracked && task.id !in tasks.Tasks()
      requires maxWorkers.Some? ==> |tracked| < maxWorkers.value
      requires L.AllAllow(limits, task)
      modifies this`limits, this`tracked, this`running, this`listed, this`starts, this`acts, limitList.Repr
      ensures fresh(limitList.Repr - old(limitList.Repr))
      ensures Valid() && Enlisted(old(tracked), old(listed), old(running), task)
      ensures old(Exactly()) ==> Exactly()
      ensures |starts| == |old(starts)| + 1 && old(starts) <= starts
      ensures starts[|starts| - 1] == StartOf(task, old(tracked), old(listed), old(running), old(limits), limits)
      ensures old(Complete()) ==> !starts[|starts| - 1].overAll
      ensures acts == old(acts) + StartActs(task.id, now)
    {
      hide Shape, Linked, Live, AllCover, OverLimit, Missed;
      Do(SetAllocated(task.id, now));
      Track(task);
      Do(StartTask(task.id));
    }

    /** The worker of the task has joined those that are tracked and counted. */
    ghost predicate Enlisted(tracked0: set<Id>, listed0: set<Id>, running0: map<Id, Task>, task: Task)
      reads this
    {
      && tracked == tracked0 + {task.id}
      && listed == listed0 + {task.id}
      && running == running0[task.id := task]
    }

    /** The record of a start. */
    ghost function StartOf(task: Task, tracked: set<Id>, listed: set<Id>, running: map<Id, Task>,
                           limits: seq<L.Limit>, limits': seq<L.Limit>): Start
    {
      Start(
        task.id,
        task.id in tracked,
        |tracked + {task.id}|,
        OverLimit(limits', Restrict(running, listed)[task.id := task], task),
        OverLimit(limits', running[task.id := task], task),
        Missed(limits, running, listed, task))
    }

    /** The part of _start_worker() that counts. */
    method Track(task: Task)
      requires Valid() && task.id !in tracked && task.id !in tasks.Tasks()
      requires maxWorkers.Some? ==> |tracked| < maxWorkers.value
      requires L.AllAllow(limits, task)
      modifies this`limits, this`tracked, this`running, this`listed, this`starts, limitList.Repr
      ensures fresh(limitList.Repr - old(limitList.Repr))
      ensures Valid() && Enlisted(old(tracked), old(listed), old(running), task)
      ensures old(Exactly()) ==> Exactly()
      ensures starts == old(starts) + [StartOf(task, old(tracked), old(listed), old(running), old(limits), limits)]
      ensures old(Complete()) ==> !starts[|starts| - 1].overAll
    {
      ghost var counted, before := Restrict(running, listed), limits;
      CountInLimits(task, counted);
      AllowedStaysWithin(before, counted, task.id, task, limits);
      OverAllIsMissed(before, running, listed, task.id, task, limits);
      starts := starts + [StartOf(task, tracked, listed, running, before, limits)];
      Enlist(task);
    }

    method Enlist(task: Task)
      requires Backed() && tasks.Valid() && tracked == running.Keys && listed <= tracked && tasks.Tasks().Keys !! tracked
      requires task.id !in tracked && task.id !in tasks.Tasks() && RoomFor(|tracked| + 1)
      requires AllCover(limits, Restrict(running, listed)[task.id := task])
      requires forall k :: 0 <= k < |starts| ==> StartOk(starts[k])
      modifies this`tracked, this`running, this`listed
      ensures Valid() && Enlisted(old(tracked), old(listed), old(running), task)
      ensures Restrict(running, listed) == old(Restrict(running, listed))[task.id := task]
    {
      hide Shape, Linked, Live;
      RestrictGrows(running, listed, task);
      tracked, running, listed := tracked + {task.id}, running[task.id := task], listed + {task.id};
      assert Backed() && tasks.Valid();
      assert tasks.Tasks().Keys !! tracked;
      assert AllCover(limits, Restrict(running, listed));
    }

    method DeleteWorker(id: Id)
      requires Valid()
      modifies this`tracked, this`running, this`listed, this`acts
      ensures Valid() && tracked == old(tracked) - {id} && listed == old(listed) - {id}
      ensures acts == old(acts) + [DeleteKey(id)]
    {
      Do(DeleteKey(id));
      Untrack(id);
    }

    method Untrack(id: Id)
      requires Valid()
      modifies this`tracked, this`running, this`listed
      ensures Valid() && tracked == old(tracked) - {id} && listed == old(listed) - {id}
    {
      RemovedAllCover(limits, running, listed, id);
      L.Subset(tracked - {id}, tracked);
      tracked, running, listed := tracked - {id}, running - {id}, listed - {id};
    }

    /**
     One pass over the hashes found in Redis, unless the last one was just now.  What each hash
     says is up to the worker processes; the verdict on it is WorkerLife.Decide, and WorkerLife
     follows one key through the rounds.
     */
    method CleanupWorkers(found: seq<Found>) returns (at: Option<int>)
      requires Valid()
      modifies this`tracked, this`running, this`listed, this`acts, this`lastWorkerCleanup, clock
      ensures Valid()
      ensures tracked == Kept(old(tracked), found, at)
      ensures at.None? ==> clock.now - old(lastWorkerCleanup) < 3
      ensures acts == old(acts) + DoneTo(found, at)
      ensures at.Some? ==> old(acts) <= acts && Swept(found, at.value, old(tracked), tracked, acts[|old(acts)|..])
      ensures at.Some? ==> at.value - old(lastWorkerCleanup) >= 3 && old(clock.now) <= at.value
      ensures at.Some? ==> at.value <= lastWorkerCleanup <= clock.now
      ensures at.None? ==> lastWorkerCleanup == old(lastWorkerCleanup)
      ensures old(listed == tracked) ==> listed == tracked
      ensures clock.now >= old(clock.now)
    {
      var now := clock.Time();
      if now - lastWorkerCleanup < CLEANUP_PERIOD {
        return None;
      }
      lastWorkerCleanup := clock.Time();
      Sweep(found, now);
      at := Some(now);
      SweepsExactly(found, now, old(tracked));
      assert acts[|old(acts)|..] == ActsOnAll(found, |found|, now);
    }

    /** The loop of _cleanup_workers. */
    method Sweep(found: seq<Found>, now: int)
      requires Valid()
      modifies this`tracked, this`running, this`listed, this`acts
      ensures Valid()
      ensures tracked == old(tracked) - GivenUp(found, |found|, now)
      ensures acts == old(acts) + ActsOnAll(found, |found|, now)
      ensures old(listed == tracked) ==> listed == tracked
    {
      hide Shape, Linked, Live;
      ghost var before := tracked;
      for i := 0 to |found|
        invariant Valid()
        invariant tracked == before - GivenUp(found, i, now)
        invariant acts == old(acts) + ActsOnAll(found, i, now)
        invariant old(listed == tracked) ==> listed == tracked
      {
        ghost var done := ActsOnAll(found, i, now);
        Consider(found[i], now);
        Chain(old(acts), done, ActsOn(found[i], now));
      }
    }

    /** One worker, judged by its hash. */
    method Consider(f: Found, now: int)
      requires Valid()
      modifies this`tracked, this`running, this`listed, this`acts
      ensures Valid()
      ensures tracked == if W.Drops(W.Decide(f.info, now)) then old(tracked) - {f.id} else old(tracked)
      ensures acts == old(acts) + ActsOn(f, now)
      ensures old(listed == tracked) ==> listed == tracked
    {
      ghost var before := acts;
      var verdict := W.Decide(f.info, now);
      if verdict.Finished? {
        Do(FinishTask(f.id));
        DeleteWorker(f.id);
        assert before + [FinishTask(f.id)] + [DeleteKey(f.id)] == before + ActsOn(f, now);
      } else if W.Drops(verdict) {
        DeleteWorker(f.id);
      } else if verdict.Probe? {
        CheckAlive(f, now);
      } else {
        assert before + ActsOn(f, now) == before;
      }
    }

    /** A worker that was not looked at for long is marked when its process is gone. */
    method CheckAlive(f: Found, now: int)
      requires Valid() && W.Decide(f.info, now).Probe?
      modifies this`acts
      ensures Valid() && acts == old(acts) + ActsOn(f, now)
    {
      ghost var before := acts;
      Do(SetChecked(f.id, now));
      if f.alive {
        return;
      }
      Do(SetDelete(f.id));
      assert before + [SetChecked(f.id, now)] + [SetDelete(f.id)] == before + ActsOn(f, now);
    }

    /** Nothing is queued and nobody is working. */
    ghost predicate Done()
      reads this, tasks
      requires tasks.Valid()
    {
      tasks.Tasks() == map[] && tracked == {}
    }

    /** Whole seconds left until the deadline. */
    ghost function Left(deadline: int): nat
      reads clock
    {
      if deadline > clock.now then deadline - clock.now else 0
    }

    /**
     Terminates for every finite timeout: a turn of the loop pops a task, or lets time pass, or
     leaves.  Every start on the way is in order (see Valid); the tasks leave the queue first
     things first, and only popped ones are started.  The log says when each turn that did not
     leave was, and what it came to: none is after the time is up, and none waits while a task is
     queued and a slot is free.
     */
    method Run(timeout: int) returns (ghost popped: seq<Id>, ghost log: seq<Event>, ghost began: int)
      requires Valid()
      modifies this`limits, this`tracked, this`running, this`listed, this`starts, this`acts, limitList.Repr,
               this`lastWorkerCleanup, tasks, clock
      ensures fresh(limitList.Repr - old(limitList.Repr))
      ensures Valid()
      ensures F.PopOrder(old(tasks.Tasks()), popped)
      ensures tasks.Tasks() == old(tasks.Tasks()) - F.Ids(popped)
      ensures NewStartsAmong(old(starts), starts, popped)
      ensures old(clock.now) <= began && (clock.now >= began + timeout || Done())
      ensures Pops(log) == popped && Logged(old(tasks.Tasks()), log, maxWorkers, began, timeout)
      ensures log != [] && began >= 3 ==> lastWorkerCleanup >= began
      ensures old(Complete()) ==> Complete() && WithinAll(old(starts), starts)
    {
      hide Shape, Linked, Live, RunLog, Swept, GivenUp, ActsOnAll;
      var startTime := clock.Time();
      lastWorkerCleanup := 0;
      began, log := startTime, [];
      var leave, first := false, true;
      RunStart(tasks.Tasks(), starts, maxWorkers, startTime, timeout);
      while !leave
        invariant Valid() && fresh(limitList.Repr - old(limitList.Repr))
        invariant RunLog(old(tasks.Tasks()), tasks.Tasks(), old(starts), starts, log, maxWorkers, startTime, timeout)
        invariant clock.now >= startTime && (first ==> clock.now == startTime && lastWorkerCleanup == 0 && log == [])
        invariant log != [] && startTime >= 3 ==> lastWorkerCleanup >= startTime
        invariant log == [] ==> first || leave
        invariant leave ==> Left(startTime + timeout) == 0 || Done()
        invariant old(Complete()) ==> Complete() && WithinAll(old(starts), starts)
        decreases !leave, Left(startTime + timeout), |tasks.prioQueue|
      {
        ghost var live, was, limits0 := tasks.Tasks(), starts, limits;
        ghost var e, found, at;
        leave, e, found, at := Turn(startTime, timeout, first);
        first := false;
        OneMoreTurn(old(tasks.Tasks()), live, tasks.Tasks(), old(starts), was, starts, log, e, limits0, maxWorkers, startTime, timeout);
        log := if e.Quit? then log else log + [e];
      }
      popped := Pops(log);
      RunEnds(old(tasks.Tasks()), tasks.Tasks(), old(starts), starts, log, maxWorkers, startTime, timeout);
    }

    /**
     The body of the loop of run(): one `continue`, `break`, or fall-through.  The first turn goes by
     the time of the start.
     */
    method Turn(startTime: int, timeout: int, first: bool)
      returns (leave: bool, ghost e: Event, ghost found: seq<Found>, ghost at: Option<int>)
      requires Valid() && (first ==> clock.now == startTime)
      modifies this`limits, this`tracked, this`running, this`listed, this`starts, this`acts, limitList.Repr,
               this`lastWorkerCleanup, tasks, clock
      ensures fresh(limitList.Repr - old(limitList.Repr))
      ensures Valid()
      ensures TurnOk(old(tasks.Tasks()), tasks.Tasks(), old(starts), starts, old(limits), e, maxWorkers)
      ensures (leave <==> e.Quit?) && (!leave ==> old(clock.now) <= e.at < startTime + timeout)
      ensures Took(e, e.at, old(starts), Kept(old(tracked), found, at), old(acts) + DoneTo(found, at))
      ensures at.Some? ==> Swept(found, at.value, old(tracked), Kept(old(tracked), found, at), DoneTo(found, at))
      ensures !leave && at.None? ==> e.at - old(lastWorkerCleanup) < 3
      ensures lastWorkerCleanup == old(lastWorkerCleanup) || lastWorkerCleanup >= old(clock.now)
      ensures !leave && e.at - old(lastWorkerCleanup) >= 3 ==> lastWorkerCleanup >= old(clock.now)
      ensures clock.now >= old(clock.now)
      ensures old(Complete()) ==> Complete() && WithinAll(old(starts), starts)
      ensures leave ==> Left(startTime + timeout) == 0 || Done()
      ensures leave || Left(startTime + timeout) < old(Left(startTime + timeout)) ||
              (Left(startTime + timeout) == old(Left(startTime + timeout)) && |tasks.prioQueue| < |old(tasks.prioQueue)|)
    {
      hide Shape, Linked, Live, Swept, AllCover, StartOk, L.SameRules, GivenUp, ActsOnAll;
      found, at := [], None;
      var now := startTime;
      if !first {
        now := clock.Time();
      }
      if now - startTime >= timeout {
        return true, Quit(now), [], None;
      }
      var workers: seq<Found> := *;
      var swept := CleanupWorkers(workers);
      found, at := workers, swept;
      leave, e := TryNext(now);
    }

    /** Who is still tracked after the cleanup of a turn, if there is one. */
    ghost function Kept(tracked: set<Id>, found: seq<Found>, at: Option<int>): set<Id> {
      tracked - if at.Some? then GivenUp(found, |found|, at.value) else {}
    }

    ghost function DoneTo(found: seq<Found>, at: Option<int>): seq<Act> {
      if at.Some? then ActsOnAll(found, |found|, at.value) else []
    }

    /** The rest of the loop of run(): wait for a free slot, or take the next task. */
    method TryNext(now: int) returns (leave: bool, ghost e: Event)
      requires Valid()
      modifies this`limits, this`tracked, this`running, this`listed, this`starts, this`acts, limitList.Repr, tasks, clock
      ensures fresh(limitList.Repr - old(limitList.Repr))
      ensures Valid()
      ensures e.at == now && TurnOk(old(tasks.Tasks()), tasks.Tasks(), old(starts), starts, old(limits), e, maxWorkers)
      ensures e.Popped? <==> old(tasks.Tasks()) != map[] && (maxWorkers.Some? ==> |old(tracked)| < maxWorkers.value)
      ensures Took(e, now, old(starts), old(tracked), old(acts))
      ensures old(Complete()) ==> Complete() && WithinAll(old(starts), starts)
      ensures (leave <==> e.Quit?) && (leave ==> Done()) && clock.now >= old(clock.now)
      ensures leave || clock.now > old(clock.now) ||
              (clock.now == old(clock.now) && |tasks.prioQueue| < |old(tasks.prioQueue)|)
    {
      hide Shape, Linked, Live;
      if maxWorkers.Some? && |tracked| >= maxWorkers.value {
        clock.Sleep(1);
        return false, Waited(now, |tracked|);
      }
      leave, e := TakeNext(now);
    }

    /** What a turn changes besides the queue, when it takes a task and when it does not. */
    ghost predicate Took(e: Event, now: int, starts0: seq<Start>, tracked0: set<Id>, acts0: seq<Act>)
      reads this
    {
      match e
      case Popped(_, id) => StartedOrNot(id, now, starts0, tracked0, acts0)
      case Waited(_, workers) => tracked == tracked0 && acts == acts0 && workers == |tracked|
      case Quit(_) => tracked == tracked0 && acts == acts0
    }

    /** A start is told to the worker's key and to the hook, and tracked; without one nothing is done. */
    ghost predicate StartedOrNot(id: Id, now: int, starts0: seq<Start>, tracked0: set<Id>, acts0: seq<Act>)
      reads this
    {
      if starts != starts0 then tracked == tracked0 + {id} && acts == acts0 + StartActs(id, now)
      else tracked == tracked0 && acts == acts0
    }

    /** Nothing is queued: wait for those who work, if somebody does. */
    method Linger(now: int) returns (leave: bool, ghost e: Event)
      modifies clock
      ensures leave <==> tracked == {}
      ensures e == if leave then Quit(now) else Waited(now, |tracked|)
      ensures e.Waited? ==> e.workers > 0 && clock.now > old(clock.now)
      ensures e.Quit? ==> clock.now == old(clock.now)
      ensures forall limits, max :: TurnOk(map[], map[], starts, starts, limits, e, max)
    {
      if |tracked| > 0 {
        clock.Sleep(1);
        return false, Waited(now, |tracked|);
      }
      return true, Quit(now);
    }

    /** The part of it that has a free slot. */
    method TakeNext(now: int) returns (leave: bool, ghost e: Event)
      requires Valid() && (maxWorkers.Some? ==> |tracked| < maxWorkers.value)
      modifies this`limits, this`tracked, this`running, this`listed, this`starts, this`acts, limitList.Repr, tasks, clock
      ensures fresh(limitList.Repr - old(limitList.Repr))
      ensures Valid()
      ensures e.at == now && TurnOk(old(tasks.Tasks()), tasks.Tasks(), old(starts), starts, old(limits), e, maxWorkers)
      ensures e.Popped? <==> old(tasks.Tasks()) != map[]
      ensures Took(e, now, old(starts), old(tracked), old(acts))
      ensures old(Complete()) ==> Complete() && WithinAll(old(starts), starts)
      ensures (leave <==> e.Quit?) && (leave ==> Done()) && clock.now >= old(clock.now)
      ensures leave || clock.now > old(clock.now) ||
              (clock.now == old(clock.now) && |tasks.prioQueue| < |old(tasks.prioQueue)|)
    {
      hide Shape, Linked, Live, AllCover, StartOk, L.SameRules, TurnOk, StartedOrNot, StartedAtMost,
           WithinAll, First, RoomFor, L.AllAllow;
      WithinNone(starts);
      ghost var live, was, limits0 := tasks.Tasks(), starts, limits;
      var task := TakeTask();
      if task.None? {
        leave, e := Linger(now);
        return;
      }
      StartIfAllowed(task.value, now);
      FirstTaken(live, tasks.Tasks(), was, starts, limits0, now, task.value.id, maxWorkers);
      return false, Popped(now, task.value.id);
    }

    /** The pop of run(): the first task, which the queue then no longer has. */
    method TakeTask() returns (task: Option<Task>)
      requires Valid()
      modifies tasks
      ensures Valid()
      ensures task.None? ==> old(tasks.Tasks()) == tasks.Tasks() == map[]
      ensures task.Some? ==>
                && First(old(tasks.Tasks()), task.value.id)
                && task.value == old(tasks.Tasks())[task.value.id].task
                && tasks.Tasks() == old(tasks.Tasks()) - {task.value.id}
                && |tasks.prioQueue| < |old(tasks.prioQueue)|
                && task.value.id !in tracked
    {
      task := tasks.PopTask();
    }

    /**
     Started exactly when every limit allows it; otherwise it is dropped, and the next fetch
     brings it again.
     */
    method StartIfAllowed(task: Task, now: int)
      requires Valid() && task.id !in tracked && task.id !in tasks.Tasks()
      requires maxWorkers.Some? ==> |tracked| < maxWorkers.value
      modifies this`limits, this`tracked, this`running, this`listed, this`starts, this`acts, limitList.Repr
      ensures fresh(limitList.Repr - old(limitList.Repr))
      ensures Valid()
      ensures old(Complete()) ==> Complete() && WithinAll(old(starts), starts)
      ensures StartedAtMost(old(starts), starts, task.id)
      ensures starts != old(starts) <==> L.AllAllow(old(limits), task)
      ensures StartedOrNot(task.id, now, old(starts), old(tracked), old(acts))
    {
      hide Shape, Linked, Live, AllCover, L.SameRules, OverLimit, Missed;
      var ok := limitList.Check(task);
      if ok {
        StartWorker(task, now);
      }
    }

    /** The fill loop of the dispatcher, over the tasks of one fetch. */
    method Fill(raw: seq<Task>, fetched: seq<Task>) returns (ghost at: map<Id, nat>)
      requires Valid() && tasks.Tasks() == map[] && listed == {}
      requires |fetched| == |raw| && forall i :: 0 <= i < |raw| ==> fetched[i] == F.Ranked(raw, i)
      modifies this`limits, this`running, this`listed, tasks, limitList.Repr
      ensures fresh(limitList.Repr - old(limitList.Repr))
      ensures Valid()
      ensures listed == ListedIds(raw, tracked, |raw|)
      ensures F.FilledFrom(tasks.Tasks(), raw, at)
      ensures Queued(tasks.Tasks(), raw, tracked, |raw|)
      ensures old(Exactly()) && DistinctIds(raw) ==> Exactly()
      ensures SameOutside(old(running), running, listed)
    {
      hide Shape, Linked, Live;
      at := map[];
      for i := 0 to |raw|
        invariant Valid()
        invariant fresh(limitList.Repr - old(limitList.Repr))
        invariant FilledSoFar(raw, at, i)
        invariant old(Exactly()) && DistinctIds(raw) ==> Exactly()
        invariant SameOutside(old(running), running, listed)
      {
        at := FillOne(raw, fetched[i], i, at);
      }
    }

    /** The first n tasks of the fetch are dealt with. */
    ghost predicate FilledSoFar(raw: seq<Task>, at: map<Id, nat>, n: nat)
      requires tasks.Valid() && n <= |raw|
      reads this, tasks
    {
      && listed == ListedIds(raw, tracked, n)
      && FilledUpTo(tasks.Tasks(), raw, at, n, tasks.counter)
      && Queued(tasks.Tasks(), raw, tracked, n)
    }

    /** One fetched task is counted or queued. */
    method FillOne(raw: seq<Task>, fetched: Task, n: nat, ghost at: map<Id, nat>) returns (ghost at': map<Id, nat>)
      requires Valid() && n < |raw| && fetched == F.Ranked(raw, n) && FilledSoFar(raw, at, n)
      modifies this`limits, this`running, this`listed, tasks, limitList.Repr
      ensures fresh(limitList.Repr - old(limitList.Repr))
      ensures Valid() && FilledSoFar(raw, at', n + 1)
      ensures old(Exactly()) && DistinctIds(raw) ==> Exactly()
      ensures SameOutside(old(running), running, listed)
    {
      hide Shape, Linked, Live;
      at' := at;
      ghost var live, count := tasks.Tasks(), tasks.counter;
      ListedStep(raw, tracked, n);
      if DistinctIds(raw) {
        NextIsNotListed(raw, tracked, n);
      }
      AddTask(fetched);
      QueuedStep(live, tasks.Tasks(), raw, tracked, n);
      if raw[n].id !in tracked {
        FilledAdds(live, raw, at, n, count);
        at' := at[raw[n].id := n];
      } else {
        FilledKeeps(live, raw, at, n, count);
      }
    }

    /** The cancel loop of the dispatcher, where keys[i] are the workers in Redis at the i-th request. */
    method CancelAll(cancels: seq<Id>, keys: seq<set<Id>>)
      requires Valid() && |keys| == |cancels|
      modifies this`acts, tasks
      ensures Valid()
      ensures tasks.Tasks() == old(tasks.Tasks()) - F.Ids(cancels)
      ensures acts == old(acts) + CancelActs(cancels, keys, |cancels|)
    {
      hide Shape, Linked, Live, AllCover, StartOk, L.SameRules, RoomFor;
      ghost var before := tasks.Tasks();
      assert F.Ids(cancels[..0]) == {};
      for i := 0 to |cancels|
        invariant Valid()
        invariant tasks.Tasks() == before - F.Ids(cancels[..i])
        invariant acts == old(acts) + CancelActs(cancels, keys, i)
      {
        F.IdsStep(cancels, i, before);
        ghost var done := CancelActs(cancels, keys, i);
        var _ := CancelTaskId(cancels[i], keys[i]);
        Chain(old(acts), done, [SetCancel(cancels[i])]);
      }
      assert cancels[..|cancels|] == cancels;
    }

    /**
     The first half of a round.  A fetch that is not empty starts the queue and the statistics anew:
     they count exactly the tracked workers whose task it lists, and are exact if it lists no task
     twice.  An empty one clears nothing.
     */
    method Refill(raw: seq<Task>) returns (ghost at: map<Id, nat>)
      requires Valid()
      modifies this`tasks, this`limits, this`running, this`listed, tasks, limitList.Repr
      ensures fresh(limitList.Repr - old(limitList.Repr))
      ensures Valid()
      ensures tasks == old(tasks) || fresh(tasks)
      ensures raw == [] ==>
                && tasks == old(tasks) && tasks.Tasks() == old(tasks.Tasks())
                && limits == old(limits) && listed == old(listed) && running == old(running)
      ensures raw != [] ==>
                && fresh(tasks)
                && listed == ListedIds(raw, tracked, |raw|)
                && F.FilledFrom(tasks.Tasks(), raw, at)
                && Queued(tasks.Tasks(), raw, tracked, |raw|)
                && (DistinctIds(raw) ==> Exactly())
                && SameOutside(old(running), running, listed)
    {
      at := map[];
      if raw != [] {
        CleanTasks();
      }
      var fetched := F.FrontendTasks(raw);
      if raw != [] {
        at := Fill(raw, fetched);
      }
    }

    /** A fetch that lists all tracked workers makes the statistics complete; an empty one leaves them so. */
    ghost predicate StaysComplete(raw: seq<Task>)
      reads this
    {
      if raw == [] then Complete() else tracked <= ListedIds(raw, tracked, |raw|)
    }

    /**
     One round of the dispatcher, after rounds the last fetch of which was raw0.  Every start of the
     round is in order (see Valid), and within the limits over all tracked workers when the statistics
     are complete.  What is popped of the last fetch is popped in fair order, be it from this round or
     from an earlier one; and no task the round has to deal with is lost.
     */
    method Round(raw: seq<Task>, cancels: seq<Id>, timeout: int, ghost raw0: seq<Task>, ghost at0: map<Id, nat>)
      returns (ghost popped: seq<Id>, ghost log: seq<Event>, ghost raw1: seq<Task>, ghost at1: map<Id, nat>)
      requires Valid() && F.FilledFrom(tasks.Tasks(), raw0, at0)
      modifies this, tasks, clock, limitList.Repr
      ensures fresh(limitList.Repr - old(limitList.Repr)) && (tasks == old(tasks) || fresh(tasks))
      ensures Valid() && raw1 == (if raw == [] then raw0 else raw) && F.FilledFrom(tasks.Tasks(), raw1, at1)
      ensures NewStartsAmong(old(starts), starts, popped)
      ensures AllFair(raw1, at1, popped, tasks.Tasks())
      ensures raw == [] ==> at1 == at0 && TakenFrom(old(tasks.Tasks()), popped, tasks.Tasks())
      ensures NoneLost(Expected(raw, old(tracked), old(tasks.Tasks())), cancels, popped, tasks.Tasks())
      ensures CancelledGone(cancels, popped, tasks.Tasks())
      ensures Pops(log) == popped && NeverIdle(log, maxWorkers, tasks.Tasks())
      ensures old(StaysComplete(raw)) ==> Complete() && WithinAll(old(starts), starts)
    {
      hide Shape, Linked, Live;
      ghost var expected := Expected(raw, tracked, tasks.Tasks());
      ghost var at := Refill(raw);
      raw1, at1 := if raw == [] then raw0 else raw, if raw == [] then at0 else at;
      ghost var filled := tasks.Tasks();
      assert raw != [] ==> expected <= filled.Keys by {
        if raw != [] {
          ExpectedQueued(raw, tracked, filled);
        }
      }
      popped, log := Work(cancels, timeout, raw1, at1, expected);
    }

    /** The second half of a round: cancel, and run. */
    method Work(cancels: seq<Id>, timeout: int, ghost raw: seq<Task>, ghost at: map<Id, nat>, ghost expected: set<Id>)
      returns (ghost popped: seq<Id>, ghost log: seq<Event>)
      requires Valid() && F.FilledFrom(tasks.Tasks(), raw, at) && expected <= tasks.Tasks().Keys
      modifies this`limits, this`tracked, this`running, this`listed, this`starts, this`acts, limitList.Repr,
               this`lastWorkerCleanup, tasks, clock
      ensures fresh(limitList.Repr - old(limitList.Repr))
      ensures Valid() && F.FilledFrom(tasks.Tasks(), raw, at)
      ensures NewStartsAmong(old(starts), starts, popped)
      ensures AllFair(raw, at, popped, tasks.Tasks())
      ensures TakenFrom(old(tasks.Tasks()), popped, tasks.Tasks())
      ensures NoneLost(expected, cancels, popped, tasks.Tasks())
      ensures CancelledGone(cancels, popped, tasks.Tasks())
      ensures Pops(log) == popped && NeverIdle(log, maxWorkers, tasks.Tasks())
      ensures old(Complete()) ==> Complete() && WithinAll(old(starts), starts)
    {
      hide Shape, Linked, Live;
      ghost var filled := tasks.Tasks();
      var none: seq<set<Id>> := seq(|cancels|, _ => {});
      assert |none| == |cancels|;
      var keys :| |keys| == |cancels|;
      CancelAll(cancels, keys);
      ghost var live := tasks.Tasks();
      ghost var began;
      popped, log, began := Run(timeout);
      RoundOutcome(raw, at, expected, filled, cancels, popped);
      LoggedNeverIdle(live, log, maxWorkers, began, timeout);
    }

    /**
     The endless loop of the dispatcher, for as many rounds as there are: what each round needs, the
     one before leaves.  Everything popped since the last fetch that was not empty, in however many
     rounds, is popped in the fair order of that fetch, and nothing is started but in the order of
     all pops.
     */
    method Dispatch(fetches: seq<seq<Task>>, cancels: seq<seq<Id>>, timeout: int)
      returns (ghost pops: seq<seq<Id>>, ghost at: map<Id, nat>)
      requires Valid() && tasks.Tasks() == map[] && |cancels| == |fetches|
      modifies this, tasks, clock, limitList.Repr
      ensures Valid() && RoundsSoFar(fetches, |fetches|, pops, at, tasks.Tasks(), old(starts), starts)
    {
      hide Shape, Linked, Live, RoundsSoFar, AllCover, L.SameRules, RoomFor, StartOk;
      pops, at := [], map[];
      NoRoundYet(fetches, starts);
      for i := 0 to |fetches|
        invariant Valid() && RoundsSoFar(fetches, i, pops, at, tasks.Tasks(), old(starts), starts)
        invariant fresh(limitList.Repr - old(limitList.Repr)) && (tasks == old(tasks) || fresh(tasks))
      {
        pops, at := NextRound(fetches, cancels[i], timeout, i, pops, at, old(starts));
      }
    }

    /** One more round, in the view of all rounds. */
    method NextRound(fetches: seq<seq<Task>>, cancels: seq<Id>, timeout: int, i: nat,
                     ghost pops: seq<seq<Id>>, ghost at: map<Id, nat>, ghost starts0: seq<Start>)
      returns (ghost pops': seq<seq<Id>>, ghost at': map<Id, nat>)
      requires i < |fetches| && Valid() && RoundsSoFar(fetches, i, pops, at, tasks.Tasks(), starts0, starts)
      modifies this, tasks, clock, limitList.Repr
      ensures fresh(limitList.Repr - old(limitList.Repr)) && (tasks == old(tasks) || fresh(tasks))
      ensures Valid() && RoundsSoFar(fetches, i + 1, pops', at', tasks.Tasks(), starts0, starts)
    {
      hide Shape, Linked, Live;
      ghost var live, was := tasks.Tasks(), starts;
      ghost var popped, log, raw;
      popped, log, raw, at' := Round(fetches[i], cancels, timeout, LastFetch(fetches, i), at);
      pops' := pops + [popped];
      OneMoreRound(fetches, i, pops, at, at', live, tasks.Tasks(), starts0, was, starts, popped);
    }
  }

  // ---------------------------------------------------------------- a start that passes a limit

  /** Two workers of one owner, under a limit of one. */
  lemma TwoOfOneOwner(limits: seq<L.Limit>, running: map<Id, Task>, a: Id, b: Id)
    requires L.SameRules([L.OwnerLimit(1)], limits) && a != b
    requires a in running && b in running && running[a].owner == running[b].owner
    ensures OverLimit(limits, running, running[b])
  {
    var l, g := L.OwnerLimit(1), running[b].owner;
    L.SameRuleSameMembers(l, limits[0], g, running);
    L.Subset({a, b}, L.Members(l, g, running));
    assert L.GroupOf(limits[0], running[b]) == L.GroupOf(l, running[b]) == Some(g);
    assert Exceeds(limits[0], g, running);
  }

  lemma NobodyInTheWay(limits: seq<L.Limit>, task: Task)
    requires L.SameRules([L.OwnerLimit(1)], limits) && AllExact(limits, map[])
    ensures L.AllAllow(limits, task)
  {
    var l := L.OwnerLimit(1);
    assert L.GroupOf(limits[0], task) == L.GroupOf(l, task) == Some(task.owner);
    assert L.Members(limits[0], task.owner, map[]) == {};
    PassesIffRoom(limits, map[], task);
  }

  /** A fetch of one task that has no worker yet queues just that. */
  lemma OneQueued(live: map<Id, Item>, b: Task, at: map<Id, nat>, id: Id)
    requires F.FilledFrom(live, [b], at) && id in live
    ensures live[id].task == F.Ranked([b], 0)
  {
    assert F.FilledItem(live[id], [b], at[id]);
  }

  /** A round that brings one build and starts it, whoever else has a worker. */
  method BuildComes(m: WorkerManager, b: Task) returns (t: Task)
    requires m.Valid() && m.rules == [L.OwnerLimit(1)] && m.maxWorkers.None? && b.id !in m.tracked
    modifies m, m.tasks, m.limitList.Repr
    ensures fresh(m.limitList.Repr - old(m.limitList.Repr)) && fresh(m.tasks)
    ensures m.Valid() && t == F.Ranked([b], 0)
    ensures m.tracked == old(m.tracked) + {b.id} && m.running == old(m.running)[b.id := t]
    ensures old(m.starts) <= m.starts && |m.starts| == |old(m.starts)| + 1
    ensures m.starts[|old(m.starts)|].overAll <==> OverLimit(m.limits, m.running, t)
  {
    hide Shape, Linked, Live;
    t := FetchOne(m, b);
    NobodyInTheWay(m.limits, t);
    m.StartWorker(t, 0);
  }

  /** The fetch and the pop of it: nobody is counted then. */
  method FetchOne(m: WorkerManager, b: Task) returns (t: Task)
    requires m.Valid() && b.id !in m.tracked
    modifies m`tasks, m`limits, m`running, m`listed, m.tasks, m.limitList.Repr
    ensures fresh(m.limitList.Repr - old(m.limitList.Repr)) && fresh(m.tasks)
    ensures m.Valid() && t == F.Ranked([b], 0) && t.id !in m.tasks.Tasks()
    ensures AllExact(m.limits, map[]) && m.running == old(m.running)
  {
    hide Shape, Linked, Live;
    ghost var at := m.Refill([b]);
    assert m.listed == {};
    assert Restrict(m.running, m.listed) == map[];
    ghost var live := m.tasks.Tasks();
    assert [b][0].id in live;
    var next := m.TakeTask();
    t := next.value;
    OneQueued(live, b, at, t.id);
  }

  method OneBuildPerOwner(any: Task) returns (m: WorkerManager)
    ensures m.Valid() && m.rules == [L.OwnerLimit(1)] && m.maxWorkers.None? && m.tracked == {} && m.starts == []
    ensures fresh(m) && fresh(m.tasks) && fresh(m.limitList.Repr)
  {
    var list := new L.LimitList();
    list.Append(L.OwnerLimit(1));
    var clock := new Clock();
    m := new WorkerManager(None, clock, list, {}, any);
  }

  /** A second build of the owner comes, the first one being tracked but no longer fetched. */
  method SecondComes(m: WorkerManager, first: Id, second: Task)
    requires m.Valid() && m.rules == [L.OwnerLimit(1)] && m.maxWorkers.None? && second.id !in m.tracked
    requires first in m.running && m.running[first].owner == second.owner
    modifies m, m.tasks, m.limitList.Repr
    ensures m.Valid() && m.tracked == old(m.tracked) + {second.id}
    ensures old(m.starts) <= m.starts && |m.starts| == |old(m.starts)| + 1
    ensures m.starts[|old(m.starts)|].overAll && m.starts[|old(m.starts)|].missed
  {
    hide Shape, Linked, Live;
    var t := BuildComes(m, second);
    TwoOfOneOwner(m.limits, m.running, first, t.id);
    assert m.StartOk(m.starts[|old(m.starts)|]);
  }

  /**
   The failing input: at most one build of an owner at a time.  The first build runs; it is canceled,
   so the next fetch no longer lists it while its worker is still there; that fetch brings a second
   build of the same owner, which is started.
   */
  method CanceledBuildIsMissed(first: Task, second: Task) returns (m: WorkerManager)
    requires first.owner == second.owner && first.id != second.id
    ensures m.Valid() && m.rules == [L.OwnerLimit(1)] && m.tracked == {first.id, second.id}
    ensures |m.starts| == 2 && m.starts[1].overAll && m.starts[1].missed
  {
    hide Shape, Linked, Live;
    m := OneBuildPerOwner(first);
    var t := BuildComes(m, first);
    SecondComes(m, t.id, second);
  }
}
