/**
 The batching protocol of Batch together with what the runs of PulpMerge do to the repository:
 _execute_locked() of backend/copr_backend/pulp.py for every leader of a whole run.
 */
module PulpBatch {
  import B = Batch
  import P = PulpMerge

  type Content = set<P.Unit>

  /**
   The processes and Redis, the requests as posted, the repository, the runs that returned, and
   those that raised or died with their call to the server under way.
   */
  datatype World = World(
    s: B.State,
    tasks: seq<P.Task>,        // what the r-th request asks for
    content: Content,
    log: seq<seq<nat>>,        // the requests of each finished run, the leader's own one first
    cut: seq<seq<nat>>)        // the same for each run that was cut short

  function Reqs(items: seq<B.Item>): (r: seq<nat>)
    ensures |r| == |items| && forall i :: 0 <= i < |items| ==> r[i] == items[i].req
  {
    seq(|items|, i requires 0 <= i < |items| => items[i].req)
  }

  /** The requests of the run that this leader is about to make. */
  function Led(st: B.Stage): seq<nat>
    requires st.Ready?
  {
    [st.req] + Reqs(st.taken)
  }

  predicate InRange(ids: seq<nat>, n: nat) {
    forall i :: 0 <= i < |ids| ==> ids[i] < n
  }

  function TasksOf(tasks: seq<P.Task>, ids: seq<nat>): (r: seq<P.Task>)
    requires InRange(ids, |tasks|)
    ensures |r| == |ids| && forall i :: 0 <= i < |ids| ==> r[i] == tasks[ids[i]]
  {
    seq(|ids|, i requires 0 <= i < |ids| => tasks[ids[i]])
  }

  /** A leader raises or dies after options() returned, and before its run does. */
  predicate CutsShort(st: B.Stage, a: B.Action) {
    st.Ready? && a.Lock? && (a.a.Interrupt? || a.a.Crash?)
  }

  /** A request is posted with any task; a run that returns has changed the repository. */
  ghost predicate NextBy(w: World, w': World, p: B.Pid, a: B.Action, t: P.Task) {
    var st := B.StageOf(w.s, p);
    && B.Enabled(w.s, p, a)
    && w'.s == B.Apply(w.s, p, a)
    && w'.tasks == (if a.Request? then w.tasks + [t] else w.tasks)
    && w'.cut == (if CutsShort(st, a) then w.cut + [Led(st)] else w.cut)
    && if a.Execute? then
         && InRange(Led(st), |w.tasks|)
         && w'.log == w.log + [Led(st)]
         && w'.content == P.ApplyMerged(w.content, TasksOf(w.tasks, Led(st)))
       else w'.log == w.log && w'.content == w.content
  }

  /**
   A run that was cut short may have changed the repository as well, or not, or the server does so
   later, when others are inside.
   */
  ghost predicate LateBy(w: World, w': World, k: nat) {
    && k < |w.cut| && InRange(w.cut[k], |w.tasks|)
    && w' == w.(content := P.ApplyMerged(w.content, TasksOf(w.tasks, w.cut[k])))
  }

  ghost predicate Next(w: World, w': World) {
    || (exists p, a, t :: NextBy(w, w', p, a, t))
    || (exists k: nat :: LateBy(w, w', k))
  }

  ghost predicate StepAt(tr: seq<World>, i: nat)
    requires i + 1 < |tr|
  {
    Next(tr[i], tr[i + 1])
  }

  /** A run from any content of the repository. */
  ghost predicate Run(tr: seq<World>) {
    && |tr| > 0
    && tr[0] == World(B.Init, [], tr[0].content, [], [])
    && forall i :: 0 <= i < |tr| - 1 ==> StepAt(tr, i)
  }

  function Flat(log: seq<seq<nat>>): seq<nat> {
    if log == [] then [] else Flat(log[..|log| - 1]) + log[|log| - 1]
  }

  /** Each logged request is a posted one. */
  predicate LogInRange(log: seq<seq<nat>>, n: nat) {
    forall k :: 0 <= k < |log| ==> InRange(log[k], n)
  }

  /** The repository after the logged runs, one after the other. */
  function Merged(content: Content, tasks: seq<P.Task>, log: seq<seq<nat>>): Content
    requires LogInRange(log, |tasks|)
  {
    if log == [] then content
    else P.ApplyMerged(Merged(content, tasks, log[..|log| - 1]), TasksOf(tasks, log[|log| - 1]))
  }

  // ---------------------------------------------------------------- the log is the truth

  /**
   The log counts each request as often as the protocol does, and explains the repository as long
   as nothing went wrong.
   */
  ghost predicate LogOk(w: World, content0: Content) {
    && |w.tasks| == |w.s.requests| == |w.s.runs|
    && LogInRange(w.log, |w.tasks|) && LogInRange(w.cut, |w.tasks|)
    && InRange(Flat(w.log), |w.tasks|)
    && (w.s.clean ==> w.cut == [] && w.content == Merged(content0, w.tasks, w.log))
    && forall r :: 0 <= r < |w.s.runs| ==> multiset(Flat(w.log))[r] == w.s.runs[r]
  }

  lemma {:induction false} MergedKeeps(content: Content, tasks: seq<P.Task>, t: P.Task, log: seq<seq<nat>>)
    requires LogInRange(log, |tasks|)
    ensures LogInRange(log, |tasks + [t]|) && Merged(content, tasks + [t], log) == Merged(content, tasks, log)
  {
    if log != [] {
      MergedKeeps(content, tasks, t, log[..|log| - 1]);
      assert TasksOf(tasks + [t], log[|log| - 1]) == TasksOf(tasks, log[|log| - 1]);
    }
  }

  lemma Once(ids: seq<nat>, r: nat)
    requires forall i, j :: 0 <= i < j < |ids| ==> ids[i] != ids[j]
    ensures multiset(ids)[r] == if r in ids then 1 else 0
  {
    if r in ids {
      var i :| 0 <= i < |ids| && ids[i] == r;
      assert ids == ids[..i] + [r] + ids[i + 1..];
      assert r !in ids[..i] && r !in ids[i + 1..];
    }
  }

  lemma DistinctReqs(s: B.State, p: B.Pid, req: nat, items: seq<B.Item>)
    requires B.Owns(s, p, req) && B.ItemsOk(s, p, req, items)
    ensures var ids := [req] + Reqs(items); forall i, j :: 0 <= i < j < |ids| ==> ids[i] != ids[j]
  {
    var ids := [req] + Reqs(items);
    forall i, j | 0 <= i < j < |ids| ensures ids[i] != ids[j] {
      assert B.Owns(s, items[j - 1].key, ids[j]);
      assert i > 0 ==> B.Owns(s, items[i - 1].key, ids[i]);
    }
  }

  lemma LedIsCovered(req: nat, items: seq<B.Item>, r: nat)
    ensures r in [req] + Reqs(items) <==> r in B.Covered(req, items)
  {
    var ids := [req] + Reqs(items);
    if x :| x in items && x.req == r {
      var i :| 0 <= i < |items| && items[i] == x;
      assert ids[i + 1] == r;
    }
    if i :| 1 <= i < |ids| && ids[i] == r {
      assert items[i - 1] in items;
    }
  }

  /** The leader owns its request, and has read the others. */
  lemma ReadyView(s: B.State, p: B.Pid)
    requires B.Inv(s) && B.StageOf(s, p).Ready? && B.L.Live(s.lock, p)
    ensures var st := B.StageOf(s, p); B.Owns(s, p, st.req) && B.ItemsOk(s, p, st.req, st.taken)
  {
    assert B.OwnKeyOk(s, p) && B.BatchOk(s, p);
  }

  /** A run covers each of its requests once: their keys are distinct, and the own key is not among them. */
  lemma LedOnce(s: B.State, p: B.Pid, r: nat)
    requires var st := B.StageOf(s, p); st.Ready? && B.Owns(s, p, st.req) && B.ItemsOk(s, p, st.req, st.taken)
    ensures InRange(Led(B.StageOf(s, p)), |s.requests|)
    ensures var st := B.StageOf(s, p);
            multiset(Led(st))[r] == if r in B.Covered(st.req, st.taken) then 1 else 0
  {
    var st := B.StageOf(s, p);
    DistinctReqs(s, p, st.req, st.taken);
    Once(Led(st), r);
    LedIsCovered(st.req, st.taken, r);
    assert forall i :: 0 <= i < |st.taken| ==> B.Owns(s, st.taken[i].key, st.taken[i].req);
  }

  /** Whatever the protocol can do, it can do here: the requests of a run are posted ones. */
  lemma ProtocolIsFree(w: World, p: B.Pid, a: B.Action, t: P.Task, content0: Content) returns (w': World)
    requires B.Inv(w.s) && LogOk(w, content0) && B.Enabled(w.s, p, a)
    ensures NextBy(w, w', p, a, t)
  {
    var st := B.StageOf(w.s, p);
    w' := World(B.Apply(w.s, p, a), if a.Request? then w.tasks + [t] else w.tasks, w.content, w.log,
                if CutsShort(st, a) then w.cut + [Led(st)] else w.cut);
    if a.Execute? {
      ReadyView(w.s, p);
      LedOnce(w.s, p, 0);
      w' := w'.(content := P.ApplyMerged(w.content, TasksOf(w.tasks, Led(st))), log := w.log + [Led(st)]);
    }
  }

  lemma ExecuteCounts(s: B.State, p: B.Pid, r: nat)
    requires B.Inv(s) && B.Enabled(s, p, B.Execute) && r < |s.runs|
    ensures B.Apply(s, p, B.Execute).runs[r] == s.runs[r] + multiset(Led(B.StageOf(s, p)))[r]
  {
    ReadyView(s, p);
    LedOnce(s, p, r);
  }

  lemma OneMoreBatch(content: Content, tasks: seq<P.Task>, log: seq<seq<nat>>, ids: seq<nat>)
    requires LogInRange(log, |tasks|) && InRange(Flat(log), |tasks|) && InRange(ids, |tasks|)
    ensures var log' := log + [ids];
            && LogInRange(log', |tasks|) && InRange(Flat(log'), |tasks|) && Flat(log') == Flat(log) + ids
            && Merged(content, tasks, log') == P.ApplyMerged(Merged(content, tasks, log), TasksOf(tasks, ids))
  {
    assert (log + [ids])[..|log|] == log;
  }

  lemma ExecuteLogged(w: World, w': World, p: B.Pid, t: P.Task, content0: Content)
    requires B.Inv(w.s) && LogOk(w, content0) && NextBy(w, w', p, B.Execute, t)
    ensures LogOk(w', content0)
  {
    hide B.Inv, P.ApplyMerged, LogInRange, InRange, Flat, Merged;
    var ids := Led(B.StageOf(w.s, p));
    OneMoreBatch(content0, w.tasks, w.log, ids);
    forall r | 0 <= r < |w'.s.runs| ensures multiset(Flat(w'.log))[r] == w'.s.runs[r] {
      ExecuteCounts(w.s, p, r);
    }
  }

  lemma RequestLogged(w: World, w': World, p: B.Pid, t: P.Task, content0: Content)
    requires LogOk(w, content0) && NextBy(w, w', p, B.Request, t)
    ensures LogOk(w', content0)
  {
    if w.s.clean {
      MergedKeeps(content0, w.tasks, t, w.log);
    }
    assert |w.s.requests| !in Flat(w.log);
  }

  lemma LoggedStep(w: World, w': World, p: B.Pid, a: B.Action, t: P.Task, content0: Content)
    requires B.Inv(w.s) && LogOk(w, content0) && NextBy(w, w', p, a, t)
    ensures LogOk(w', content0)
  {
    if a.Execute? {
      ExecuteLogged(w, w', p, t, content0);
    } else if a.Request? {
      RequestLogged(w, w', p, t, content0);
    } else {
      OtherLogged(w, w', p, a, t, content0);
    }
  }

  lemma OtherLogged(w: World, w': World, p: B.Pid, a: B.Action, t: P.Task, content0: Content)
    requires B.Inv(w.s) && LogOk(w, content0) && NextBy(w, w', p, a, t) && !a.Execute? && !a.Request?
    ensures LogOk(w', content0)
  {
    assert w'.s.requests == w.s.requests && w'.s.runs == w.s.runs;
    assert w'.s.clean ==> w.s.clean;
    if CutsShort(B.StageOf(w.s, p), a) {
      ReadyView(w.s, p);
      LedOnce(w.s, p, 0);
    }
  }

  lemma NextLogged(w: World, w': World, content0: Content)
    requires B.Inv(w.s) && LogOk(w, content0) && Next(w, w')
    ensures LogOk(w', content0)
  {
    if k: nat :| LateBy(w, w', k) {
      assert w'.log == w.log;
    } else {
      var p, a, t :| NextBy(w, w', p, a, t);
      LoggedStep(w, w', p, a, t, content0);
    }
  }

  lemma NextFollows(w: World, w': World)
    requires B.Reachable(w.s) && Next(w, w')
    ensures B.Reachable(w'.s)
  {
    if w'.s != w.s {
      var p, a, t :| NextBy(w, w', p, a, t);
      var _ := B.Reach(w.s, p, a);
    }
  }

  /** What the protocol sees of a run is a run of it. */
  lemma {:induction false} Follows(tr: seq<World>, i: nat)
    requires Run(tr) && i < |tr|
    ensures B.Reachable(tr[i].s)
  {
    if i == 0 {
      B.ReachInit();
    } else {
      Follows(tr, i - 1);
      assert StepAt(tr, i - 1);
      NextFollows(tr[i - 1], tr[i]);
    }
  }

  lemma ReachableInv(s: B.State)
    requires B.Reachable(s)
    ensures B.Inv(s)
    ensures forall r :: r in s.completed ==> r < |s.runs| && s.runs[r] >= 1
  {
    var ps :| B.Run(ps) && ps[|ps| - 1] == s;
    B.InvAlways(ps, |ps| - 1);
    forall r | r in s.completed ensures r < |s.runs| && s.runs[r] >= 1 {
      B.CompletedWasRun(ps, |ps| - 1, r);
    }
  }

  lemma {:induction false} LoggedAlways(tr: seq<World>, i: nat)
    requires Run(tr) && i < |tr|
    ensures LogOk(tr[i], tr[0].content)
  {
    if i > 0 {
      LoggedAlways(tr, i - 1);
      Follows(tr, i - 1);
      ReachableInv(tr[i - 1].s);
      assert StepAt(tr, i - 1);
      NextLogged(tr[i - 1], tr[i], tr[0].content);
    }
  }

  // ---------------------------------------------------------------- what the repository ends up with

  lemma {:induction false} AllConcat(content: Content, ts: seq<P.Task>, us: seq<P.Task>)
    ensures P.ApplyAll(content, ts + us) == P.ApplyAll(P.ApplyAll(content, ts), us)
  {
    if us == [] {
      assert ts + us == ts;
    } else {
      var front := us[..|us| - 1];
      AllConcat(content, ts, front);
      assert (ts + us)[..|ts + us| - 1] == ts + front;
    }
  }

  ghost predicate EachAgreed(tasks: seq<P.Task>, log: seq<seq<nat>>)
    requires LogInRange(log, |tasks|)
  {
    forall k :: 0 <= k < |log| ==> P.Agreed(TasksOf(tasks, log[k]))
  }

  /** Batches without disagreement add up to their requests, one by one. */
  lemma {:induction false} MergedIsAll(content: Content, tasks: seq<P.Task>, log: seq<seq<nat>>)
    requires LogInRange(log, |tasks|) && InRange(Flat(log), |tasks|) && EachAgreed(tasks, log)
    ensures Merged(content, tasks, log) == P.ApplyAll(content, TasksOf(tasks, Flat(log)))
  {
    if log != [] {
      var front, last := log[..|log| - 1], log[|log| - 1];
      assert forall k :: 0 <= k < |front| ==> front[k] == log[k];
      assert forall i :: 0 <= i < |Flat(front)| ==> Flat(front)[i] == Flat(log)[i];
      MergedIsAll(content, tasks, front);
      P.MergePreservesMeaning(TasksOf(tasks, last));
      AllConcat(content, TasksOf(tasks, Flat(front)), TasksOf(tasks, last));
      assert TasksOf(tasks, Flat(log)) == TasksOf(tasks, Flat(front)) + TasksOf(tasks, last);
    }
  }

  /** Every number below n, once. */
  ghost predicate Permutation(ids: seq<nat>, n: nat) {
    InRange(ids, n) && forall r: nat :: r < n ==> multiset(ids)[r] == 1
  }

  /** Taking the greatest number out of a permutation leaves a shorter one. */
  lemma WithoutLast(ids: seq<nat>, n: nat, k: nat)
    requires n > 0 && Permutation(ids, n) && k < |ids| && ids[k] == n - 1
    ensures Permutation(ids[..k] + ids[k + 1..], n - 1)
  {
    var rest := ids[..k] + ids[k + 1..];
    assert ids == ids[..k] + [n - 1] + ids[k + 1..];
    assert multiset(ids) == multiset(rest) + multiset{n - 1} by {
      assert multiset(rest) == multiset(ids[..k]) + multiset(ids[k + 1..]);
    }
    assert multiset(ids)[n - 1] == 1;
    assert multiset(rest)[n - 1] == 0;
    forall i | 0 <= i < |rest| ensures rest[i] < n - 1 {
      assert rest[i] == ids[if i < k then i else i + 1] < n;
      assert multiset(rest)[rest[i]] > 0;
    }
    forall r: nat | r < n - 1 ensures multiset(rest)[r] == 1 {
      assert multiset(ids)[r] == 1;
    }
  }

  lemma {:induction false} PermutedTasks(tasks: seq<P.Task>, ids: seq<nat>)
    requires Permutation(ids, |tasks|)
    ensures multiset(TasksOf(tasks, ids)) == multiset(tasks)
  {
    var n := |tasks|;
    if n == 0 {
      assert ids == [];
    } else {
      assert n - 1 in multiset(ids);
      var k :| 0 <= k < |ids| && ids[k] == n - 1;
      var front, rest := tasks[..n - 1], ids[..k] + ids[k + 1..];
      WithoutLast(ids, n, k);
      PermutedTasks(front, rest);
      assert tasks == front + [tasks[n - 1]];
      var ts := TasksOf(tasks, ids);
      assert ts == ts[..k] + [tasks[n - 1]] + ts[k + 1..];
      assert ts[..k] + ts[k + 1..] == TasksOf(front, rest);
      assert multiset(ts) == multiset(ts[..k] + ts[k + 1..]) + multiset{tasks[n - 1]};
    }
  }

  /**
   The batches of a clean run that has come to rest divide up the requests: each request ever
   posted is in exactly one batch, once.  So when no batch disagrees with itself, the repository
   holds what the requests make of it one by one, in the order of the batches.
   */
  lemma BatchesPartition(tr: seq<World>, i: nat)
    requires Run(tr) && i < |tr| && tr[i].s.clean
    requires forall p :: B.StageOf(tr[i].s, p).Idle?
    ensures var w := tr[i];
            && LogInRange(w.log, |w.tasks|)
            && |w.tasks| == |w.s.requests|
            && Permutation(Flat(w.log), |w.tasks|)
            && w.content == Merged(tr[0].content, w.tasks, w.log)
            && (EachAgreed(w.tasks, w.log) ==>
                  w.content == P.ApplyAll(tr[0].content, TasksOf(w.tasks, Flat(w.log))))
  {
    var w := tr[i];
    LoggedAlways(tr, i);
    Follows(tr, i);
    var ps :| B.Run(ps) && ps[|ps| - 1] == tr[i].s;
    B.AllRunOnce(ps, |ps| - 1);
    if EachAgreed(w.tasks, w.log) {
      MergedIsAll(tr[0].content, w.tasks, w.log);
    }
  }

  lemma PartsAgree(tasks: seq<P.Task>, log: seq<seq<nat>>)
    requires LogInRange(log, |tasks|) && P.Agreed(tasks)
    ensures EachAgreed(tasks, log)
  {
    forall k | 0 <= k < |log| ensures P.Agreed(TasksOf(tasks, log[k])) {
      var ts := TasksOf(tasks, log[k]);
      forall t | t in ts ensures t in tasks {
        var i :| 0 <= i < |ts| && ts[i] == t;
      }
    }
  }

  /**
   When no two requests disagree about a unit, the interleaving, the choice of leaders and the cut
   into batches decide nothing: the repository ends up as if the requests had been made one by one
   in the order in which they were posted.
   */
  lemma BatchingIsInvisible(tr: seq<World>, i: nat)
    requires Run(tr) && i < |tr| && tr[i].s.clean
    requires forall p :: B.StageOf(tr[i].s, p).Idle?
    requires P.Agreed(tr[i].tasks)
    ensures tr[i].content == P.ApplyAll(tr[0].content, tr[i].tasks)
  {
    var w := tr[i];
    BatchesPartition(tr, i);
    PartsAgree(w.tasks, w.log);
    PermutedTasks(w.tasks, Flat(w.log));
    P.OrderDoesNotMatter(w.tasks, TasksOf(w.tasks, Flat(w.log)), tr[0].content);
    P.MergePreservesMeaning(w.tasks);
  }

  // ---------------------------------------------------------------- whatever crashes or raises

  /** As far as no posted request opposes it, the repository is as this request wants it. */
  ghost predicate Fulfilled(w: World, r: nat)
    requires r < |w.tasks|
  {
    && (forall u :: u in w.tasks[r].add && u !in P.Removes(w.tasks) ==> u in w.content)
    && (forall u :: u in w.tasks[r].remove && u !in P.Adds(w.tasks) ==> u !in w.content)
  }

  ghost predicate AllFulfilled(w: World) {
    forall r :: r in Flat(w.log) && r < |w.tasks| ==> Fulfilled(w, r)
  }

  /** A batch asks for nothing that none of the requests asks for. */
  lemma PartOfAll(tasks: seq<P.Task>, ids: seq<nat>)
    requires InRange(ids, |tasks|)
    ensures P.Adds(TasksOf(tasks, ids)) <= P.Adds(tasks) && P.Removes(TasksOf(tasks, ids)) <= P.Removes(tasks)
    ensures forall i :: 0 <= i < |ids| ==> P.Elems(tasks[ids[i]].add) <= P.Adds(TasksOf(tasks, ids))
    ensures forall i :: 0 <= i < |ids| ==> P.Elems(tasks[ids[i]].remove) <= P.Removes(TasksOf(tasks, ids))
  {
    var ts := TasksOf(tasks, ids);
    forall t | t in ts ensures t in tasks {
      var i :| 0 <= i < |ts| && ts[i] == t;
    }
    forall i | 0 <= i < |ids| ensures tasks[ids[i]] in ts {
      assert ts[i] == tasks[ids[i]];
    }
  }

  /** The effect of any batch leaves fulfilled requests fulfilled. */
  lemma EffectKeeps(w: World, w': World, ids: seq<nat>, r: nat)
    requires InRange(ids, |w.tasks|) && w'.tasks == w.tasks && r < |w.tasks| && Fulfilled(w, r)
    requires w'.content == P.ApplyMerged(w.content, TasksOf(w.tasks, ids))
    ensures Fulfilled(w', r)
  {
    PartOfAll(w.tasks, ids);
  }

  /** And fulfills the requests of this batch. */
  lemma EffectFulfills(w: World, w': World, ids: seq<nat>, i: nat)
    requires InRange(ids, |w.tasks|) && w'.tasks == w.tasks && i < |ids|
    requires w'.content == P.ApplyMerged(w.content, TasksOf(w.tasks, ids))
    ensures Fulfilled(w', ids[i])
  {
    PartOfAll(w.tasks, ids);
    var t := w.tasks[ids[i]];
    assert forall u :: u in t.add ==> u in P.Elems(t.add);
    assert forall u :: u in t.remove ==> u in P.Elems(t.remove);
  }

  lemma ExecuteFulfills(w: World, w': World, p: B.Pid, t: P.Task)
    requires AllFulfilled(w) && NextBy(w, w', p, B.Execute, t)
    ensures AllFulfilled(w')
  {
    var ids := Led(B.StageOf(w.s, p));
    assert w'.log[..|w.log|] == w.log;
    forall r | r in Flat(w'.log) && r < |w'.tasks| ensures Fulfilled(w', r) {
      if r in ids {
        var i :| 0 <= i < |ids| && ids[i] == r;
        EffectFulfills(w, w', ids, i);
      } else {
        EffectKeeps(w, w', ids, r);
      }
    }
  }

  /** A new request can only oppose more. */
  lemma RequestFulfills(w: World, w': World, p: B.Pid, t: P.Task, content0: Content)
    requires AllFulfilled(w) && LogOk(w, content0) && NextBy(w, w', p, B.Request, t)
    ensures AllFulfilled(w')
  {
    P.AppendTask(w.tasks, t);
    forall r | r in Flat(w'.log) && r < |w'.tasks| ensures Fulfilled(w', r) {
      assert Fulfilled(w, r) && w'.tasks[r] == w.tasks[r];
    }
  }

  lemma NextFulfills(w: World, w': World, content0: Content)
    requires AllFulfilled(w) && LogOk(w, content0) && Next(w, w')
    ensures AllFulfilled(w')
  {
    if k: nat :| LateBy(w, w', k) {
      forall r | r in Flat(w'.log) && r < |w'.tasks| ensures Fulfilled(w', r) {
        EffectKeeps(w, w', w.cut[k], r);
      }
    } else {
      var p, a, t :| NextBy(w, w', p, a, t);
      if a.Execute? {
        ExecuteFulfills(w, w', p, t);
      } else if a.Request? {
        RequestFulfills(w, w', p, t, content0);
      } else {
        assert forall r :: r in Flat(w.log) && r < |w.tasks| ==> Fulfilled(w, r);
        assert forall r :: 0 <= r < |w.tasks| && Fulfilled(w, r) ==> Fulfilled(w', r);
      }
    }
  }

  lemma NothingLogged(w: World)
    requires w.log == []
    ensures AllFulfilled(w)
  {
  }

  lemma {:induction false} FulfilledAlways(tr: seq<World>, i: nat)
    requires Run(tr) && i < |tr|
    ensures AllFulfilled(tr[i])
  {
    hide AllFulfilled, LogOk, Next;
    if i == 0 {
      NothingLogged(tr[0]);
    } else {
      FulfilledAlways(tr, i - 1);
      LoggedAlways(tr, i - 1);
      assert StepAt(tr, i - 1);
      NextFulfills(tr[i - 1], tr[i], tr[0].content);
    }
  }

  lemma InLog(w: World, content0: Content, r: nat)
    requires LogOk(w, content0) && r < |w.s.runs| && w.s.runs[r] >= 1
    ensures r in Flat(w.log)
  {
    assert multiset(Flat(w.log))[r] > 0;
  }

  lemma StaysCompleted(w: World, w': World, r: nat)
    requires Next(w, w') && r in w.s.completed
    ensures r in w'.s.completed
  {
    if w'.s != w.s {
      var p, a, t :| NextBy(w, w', p, a, t);
      CompletedGrows(w.s, p, a);
    }
  }

  lemma CompletedGrows(s: B.State, p: B.Pid, a: B.Action)
    requires B.Enabled(s, p, a)
    ensures s.completed <= B.Apply(s, p, a).completed
  {
  }

  /**
   Whatever crashes or raises, and whenever the server gets to do what a leader that is gone has
   sent: from the moment on that the process of a request goes on normally, the units that it adds
   are in the repository and those that it removes are not, except where another request is for the
   opposite.
   */
  lemma CompletedIsDone(tr: seq<World>, i: nat, r: nat)
    requires Run(tr) && i < |tr| && r in tr[i].s.completed
    ensures r < |tr[i].tasks| && Fulfilled(tr[i], r)
    ensures i + 1 < |tr| ==> r in tr[i + 1].s.completed
  {
    LoggedAlways(tr, i);
    FulfilledAlways(tr, i);
    Follows(tr, i);
    ReachableInv(tr[i].s);
    InLog(tr[i], tr[0].content, r);
    if i + 1 < |tr| {
      assert StepAt(tr, i);
      StaysCompleted(tr[i], tr[i + 1], r);
    }
  }
}
