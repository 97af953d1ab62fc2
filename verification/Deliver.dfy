/**
 PulpClient.deliver_and_wait() of backend/copr_backend/pulp.py: submit requests, poll the tasks
 they become, and submit again the ones that failed, until all are done or time is up.
 */
module Deliver {
  import opened Wrappers

  type Clock = int

  datatype TaskState = Unfinished | Completed | Failed

  /** What the server answers; `submission` numbers the POST or DELETE it belongs to. */
  datatype Data = Data(submission: nat)

  datatype Response =
    | Answered(data: Data)     // any status but 202: the answer itself
    | Accepted(task: nat)      // 202: a background task with this number
    | Raised                   // the HTTP client raised

  datatype Result =
    | Delivered(results: seq<Option<Data>>)
    | TimedOut                 // RuntimeError
    | HttpError

  /** One element of the todo-list. */
  datatype Pending = Pending(index: nat, task: Option<nat>, backoff: nat)

  /** The sleep after k failed tasks: doubled each time, from 5 up to 300 seconds. */
  function Backoff(k: nat): nat {
    if k == 0 then 5 else Min(Backoff(k - 1) * 2, 300)
  }

  function Min(a: nat, b: nat): nat {
    if a <= b then a else b
  }

  lemma {:induction false} BackoffBounds(k: nat)
    ensures 5 <= Backoff(k) <= 300
    ensures Backoff(k) <= Backoff(k + 1)
  {
    if k > 0 {
      BackoffBounds(k - 1);
    }
  }

  /** Second by second: doubled five times, then at the limit. */
  lemma BackoffIs(k: nat)
    ensures Backoff(k) == if k < 6 then [5, 10, 20, 40, 80, 160][k] else 300
  {
    if k > 0 {
      BackoffIs(k - 1);
    }
  }

  /**
   The Pulp server as this call sees it.  A submission may become a background task, which goes
   from unfinished to one final state at its own pace and then stays there.
   */
  class PulpServer {
    var now: Clock
    // per submission: the index of the request, and the state of its task (None: answered at once)
    var submitted: seq<nat>
    var states: seq<Option<TaskState>>

    // how often the client asked, and whether it ever raised
    ghost var calls: nat
    ghost var raised: bool
    // for how long it slept, sleep by sleep
    ghost var slept: seq<nat>

    constructor ()
      ensures submitted == [] && states == [] && calls == 0 && !raised && slept == []
    {
      now, submitted, states := 0, [], [];
      calls, raised, slept := 0, false, [];
    }

    ghost predicate Valid()
      reads this
    {
      |submitted| == |states|
    }

    /** A task of request i that has not ended in a failure. */
    ghost predicate LiveTask(i: nat, s: nat)
      reads this
      requires Valid()
    {
      s < |submitted| && submitted[s] == i && states[s].Some? && !states[s].value.Failed?
    }

    method Monotonic() returns (t: Clock)
      modifies this`now
      ensures t == now >= old(now)
    {
      var d: nat :| true;
      now := now + d;
      t := now;
    }

    method Sleep(n: nat)
      modifies this`now, this`slept
      ensures now >= old(now) + n && slept == old(slept) + [n]
    {
      now, slept := now + n, slept + [n];
    }

    /** Nobody may submit a request while a task of it is live: that is checked at every call. */
    method Send(i: nat) returns (r: Response)
      requires Valid() && forall s :: 0 <= s < |submitted| ==> !LiveTask(i, s)
      modifies this`submitted, this`states, this`calls, this`raised
      ensures Valid() && calls == old(calls) + 1 && raised == (old(raised) || r.Raised?)
      ensures r.Raised? ==> submitted == old(submitted) && states == old(states)
      ensures r.Answered? ==>
                && r.data == Data(|old(submitted)|)
                && submitted == old(submitted) + [i] && states == old(states) + [None]
      ensures r.Accepted? ==>
                && r.task == |old(submitted)|
                && submitted == old(submitted) + [i] && states == old(states) + [Some(Unfinished)]
    {
      var outcome: Response := *;
      calls, raised := calls + 1, raised || outcome.Raised?;
      match outcome {
        case Raised => r := Raised;
        case Answered(_) =>
          r := Answered(Data(|submitted|));
          submitted, states := submitted + [i], states + [None];
        case Accepted(_) =>
          r := Accepted(|submitted|);
          submitted, states := submitted + [i], states + [Some(Unfinished)];
      }
    }

    /** GET of the task; None when the HTTP client raises. */
    method GetTask(task: nat) returns (st: Option<TaskState>)
      requires Valid() && task < |states| && states[task].Some?
      modifies this`states, this`calls, this`raised
      ensures Valid() && calls == old(calls) + 1 && raised == (old(raised) || st.None?)
      ensures st.None? ==> states == old(states)
      ensures st.Some? ==>
                && states == old(states)[task := st]
                && (!old(states)[task].value.Unfinished? ==> st == old(states)[task])
    {
      var fails: bool := *;
      calls, raised := calls + 1, raised || fails;
      if fails {
        return None;
      }
      if states[task].value.Unfinished? {
        var next: TaskState := *;
        states := states[task := Some(next)];
      }
      st := states[task];
    }
  }

  /** How many tasks of request i have failed. */
  function Failures(submitted: seq<nat>, states: seq<Option<TaskState>>, i: nat): nat
    requires |submitted| == |states|
  {
    if states == [] then 0
    else
      var n := |states| - 1;
      Failures(submitted[..n], states[..n], i) + if submitted[n] == i && states[n] == Some(Failed) then 1 else 0
  }

  lemma FailuresAppend(submitted: seq<nat>, states: seq<Option<TaskState>>, i: nat, j: nat, st: Option<TaskState>)
    requires |submitted| == |states| && st != Some(Failed)
    ensures Failures(submitted + [j], states + [st], i) == Failures(submitted, states, i)
  {
    assert (submitted + [j])[..|submitted|] == submitted && (states + [st])[..|states|] == states;
  }

  lemma {:induction false} FailuresUpdate(submitted: seq<nat>, states: seq<Option<TaskState>>, i: nat, task: nat, st: TaskState)
    requires |submitted| == |states| && task < |states| && states[task] != Some(Failed)
    ensures Failures(submitted, states[task := Some(st)], i) ==
            Failures(submitted, states, i) + if submitted[task] == i && st.Failed? then 1 else 0
  {
    var n := |states| - 1;
    if task < n {
      assert states[task := Some(st)][..n] == states[..n][task := Some(st)];
      FailuresUpdate(submitted[..n], states[..n], i, task, st);
    } else {
      assert states[task := Some(st)][..n] == states[..n];
    }
  }

  /** Request i is in the todo-list, at position k. */
  predicate PendingAt(todo: seq<Pending>, i: nat, k: nat) {
    k < |todo| && todo[k].index == i
  }

  predicate Distinct(todo: seq<Pending>) {
    forall j, k :: 0 <= j < k < |todo| ==> todo[j].index != todo[k].index
  }

  /** The result of request i came from a submission of it, and all its other submissions failed. */
  predicate Belongs(submitted: seq<nat>, states: seq<Option<TaskState>>, i: nat, d: Data)
    requires |submitted| == |states|
  {
    && d.submission < |submitted| && submitted[d.submission] == i
    && (states[d.submission].None? || states[d.submission] == Some(Completed))
    && forall s :: 0 <= s < |submitted| && submitted[s] == i && s != d.submission ==> states[s] == Some(Failed)
  }

  /**
   The element knows the one submission of its request that has not failed, if there is one, and
   sleeps by the number of failures.
   */
  ghost predicate ElementOk(p: Pending, submitted: seq<nat>, states: seq<Option<TaskState>>)
    requires |submitted| == |states|
  {
    && p.backoff == Backoff(Failures(submitted, states, p.index))
    && (p.task.Some? ==>
          && p.task.value < |submitted|
          && submitted[p.task.value] == p.index
          && states[p.task.value] == Some(Unfinished))
    && forall s :: 0 <= s < |submitted| && submitted[s] == p.index && p.task != Some(s) ==> states[s] == Some(Failed)
  }

  /** Nothing lost, nothing duplicated: of n requests, each is resolved or pending exactly once. */
  ghost predicate Accounted(n: nat, todo: seq<Pending>, results: seq<Option<Data>>, submitted: seq<nat>, states: seq<Option<TaskState>>)
    requires |submitted| == |states|
  {
    && |results| == n
    && Distinct(todo)
    && (forall k :: 0 <= k < |todo| ==> todo[k].index < n && results[todo[k].index].None? && ElementOk(todo[k], submitted, states))
    && (forall i :: 0 <= i < n && results[i].None? ==> exists k: nat :: PendingAt(todo, i, k))
    && (forall i :: 0 <= i < n && results[i].Some? ==> Belongs(submitted, states, i, results[i].value))
  }

  /** Only submissions of request i were added or changed. */
  ghost predicate OnlyTouches(i: nat, sub: seq<nat>, st: seq<Option<TaskState>>, sub': seq<nat>, st': seq<Option<TaskState>>)
    requires |sub| == |st| && |sub'| == |st'|
  {
    && sub <= sub'
    && (forall s :: 0 <= s < |sub| && sub[s] != i ==> st'[s] == st[s])
    && (forall s :: |sub| <= s < |sub'| ==> sub'[s] == i)
    && (forall j: nat :: j != i ==> Failures(sub', st', j) == Failures(sub, st, j))
  }

  lemma ElementKept(p: Pending, i: nat, sub: seq<nat>, st: seq<Option<TaskState>>, sub': seq<nat>, st': seq<Option<TaskState>>)
    requires |sub| == |st| && |sub'| == |st'| && OnlyTouches(i, sub, st, sub', st')
    requires p.index != i && ElementOk(p, sub, st)
    ensures ElementOk(p, sub', st')
  {
  }

  lemma BelongsKept(d: Data, j: nat, i: nat, sub: seq<nat>, st: seq<Option<TaskState>>, sub': seq<nat>, st': seq<Option<TaskState>>)
    requires |sub| == |st| && |sub'| == |st'| && OnlyTouches(i, sub, st, sub', st')
    requires j != i && Belongs(sub, st, j, d)
    ensures Belongs(sub', st', j, d)
  {
  }

  /** What one turn of the inner loop makes of an element. */
  datatype Step = Keep(p: Pending) | Resolved(data: Data) | Broken

  /** The body of the inner loop for one element of the todo-list. */
  method Advance(server: PulpServer, p: Pending) returns (step: Step)
    requires server.Valid() && ElementOk(p, server.submitted, server.states)
    modifies server`submitted, server`states, server`calls, server`raised
    ensures server.Valid()
    ensures OnlyTouches(p.index, old(server.submitted), old(server.states), server.submitted, server.states)
    ensures step.Keep? ==> step.p.index == p.index && ElementOk(step.p, server.submitted, server.states)
    ensures step.Keep? ==>
              step.p.backoff == if step.p.task.Some? then p.backoff else if 2 * p.backoff > 300 then 300 else 2 * p.backoff
    ensures step.Keep? ==> p.backoff <= step.p.backoff
    ensures step.Resolved? ==> Belongs(server.submitted, server.states, p.index, step.data)
    ensures server.calls == old(server.calls) + 1 && server.raised == (old(server.raised) || step.Broken?)
    ensures p.task.None? && !step.Broken? ==> server.submitted == old(server.submitted) + [p.index]
    ensures p.task.Some? ==> server.submitted == old(server.submitted)
    ensures step.Keep? && step.p.task.None? ==>
              p.task.Some? && server.states[p.task.value] == Some(Failed)
  {
    ghost var sub, st := server.submitted, server.states;
    BackoffBounds(Failures(sub, st, p.index));
    if p.task.None? {
      var r := server.Send(p.index);
      match r {
        case Raised => return Broken;
        case Answered(data) =>
          forall j: nat ensures Failures(server.submitted, server.states, j) == Failures(sub, st, j) {
            FailuresAppend(sub, st, j, p.index, None);
          }
          return Resolved(data);
        case Accepted(task) =>
          forall j: nat ensures Failures(server.submitted, server.states, j) == Failures(sub, st, j) {
            FailuresAppend(sub, st, j, p.index, Some(Unfinished));
          }
          return Keep(Pending(p.index, Some(task), p.backoff));
      }
    }
    var state := server.GetTask(p.task.value);
    if state.None? {
      return Broken;
    }
    forall j: nat
      ensures Failures(server.submitted, server.states, j) ==
              Failures(sub, st, j) + if p.index == j && state.value.Failed? then 1 else 0
    {
      FailuresUpdate(sub, st, j, p.task.value, state.value);
    }
    if state.value.Unfinished? {
      return Keep(p);
    }
    if state.value.Completed? {
      return Resolved(Data(p.task.value));
    }
    return Keep(Pending(p.index, None, Min(p.backoff * 2, 300)));
  }

  lemma AccountedKeep(n: nat, still: seq<Pending>, p: Pending, rest: seq<Pending>, p': Pending, results: seq<Option<Data>>,
                      sub: seq<nat>, st: seq<Option<TaskState>>, sub': seq<nat>, st': seq<Option<TaskState>>)
    requires |sub| == |st| && |sub'| == |st'| && OnlyTouches(p.index, sub, st, sub', st')
    requires Accounted(n, still + [p] + rest, results, sub, st)
    requires p'.index == p.index && ElementOk(p', sub', st')
    ensures Accounted(n, still + [p'] + rest, results, sub', st')
  {
    var todo, todo' := still + [p] + rest, still + [p'] + rest;
    assert todo[|still|] == p;
    assert forall k :: 0 <= k < |todo| ==> todo'[k].index == todo[k].index;
    forall k | 0 <= k < |todo'| ensures ElementOk(todo'[k], sub', st') {
      if k != |still| {
        assert todo'[k] == todo[k] && todo[k].index != p.index;
        ElementKept(todo[k], p.index, sub, st, sub', st');
      }
    }
    forall i | 0 <= i < n && results[i].None? ensures exists k: nat :: PendingAt(todo', i, k) {
      var k: nat :| PendingAt(todo, i, k);
      assert PendingAt(todo', i, k);
    }
    forall i | 0 <= i < n && results[i].Some? ensures Belongs(sub', st', i, results[i].value) {
      BelongsKept(results[i].value, i, p.index, sub, st, sub', st');
    }
  }

  lemma AccountedResolved(n: nat, still: seq<Pending>, p: Pending, rest: seq<Pending>, d: Data, results: seq<Option<Data>>,
                          sub: seq<nat>, st: seq<Option<TaskState>>, sub': seq<nat>, st': seq<Option<TaskState>>)
    requires |sub| == |st| && |sub'| == |st'| && OnlyTouches(p.index, sub, st, sub', st')
    requires Accounted(n, still + [p] + rest, results, sub, st)
    requires Belongs(sub', st', p.index, d)
    ensures p.index < n && Accounted(n, still + rest, results[p.index := Some(d)], sub', st')
  {
    hide ElementOk, Belongs, OnlyTouches;
    var todo, todo' := still + [p] + rest, still + rest;
    assert todo[|still|] == p;
    assert forall k :: 0 <= k < |todo'| ==> todo'[k] == todo[if k < |still| then k else k + 1];
    forall k | 0 <= k < |todo'| ensures todo'[k].index != p.index && ElementOk(todo'[k], sub', st') {
      ElementKept(todo'[k], p.index, sub, st, sub', st');
    }
    forall i | 0 <= i < n && results[i].None? && i != p.index ensures exists k: nat :: PendingAt(todo', i, k) {
      var k: nat :| PendingAt(todo, i, k);
      assert k != |still|;
      assert PendingAt(todo', i, if k < |still| then k else k - 1);
    }
    forall i | 0 <= i < n && results[i].Some? ensures Belongs(sub', st', i, results[i].value) {
      BelongsKept(results[i].value, i, p.index, sub, st, sub', st');
    }
  }

  lemma ElementAt(n: nat, still: seq<Pending>, p: Pending, rest: seq<Pending>, results: seq<Option<Data>>,
                  sub: seq<nat>, st: seq<Option<TaskState>>)
    requires |sub| == |st| && Accounted(n, still + [p] + rest, results, sub, st)
    ensures ElementOk(p, sub, st)
  {
    assert (still + [p] + rest)[|still|] == p;
  }

  /** One pass over the todo-list. */
  method Pass(server: PulpServer, pending: seq<Pending>, results: seq<Option<Data>>)
    returns (ok: bool, still: seq<Pending>, results': seq<Option<Data>>)
    requires server.Valid() && Accounted(|results|, pending, results, server.submitted, server.states)
    modifies server`submitted, server`states, server`calls, server`raised
    ensures server.Valid() && |results'| == |results|
    ensures ok ==> Accounted(|results|, still, results', server.submitted, server.states)
    ensures ok ==> server.calls == old(server.calls) + |pending|
    ensures server.raised == (old(server.raised) || !ok)
  {
    hide Accounted, ElementOk, Belongs, OnlyTouches;
    still, results' := [], results;
    assert [] + pending == pending;
    for j := 0 to |pending|
      invariant server.Valid() && |results'| == |results|
      invariant Accounted(|results|, still + pending[j..], results', server.submitted, server.states)
      invariant server.calls == old(server.calls) + j && server.raised == old(server.raised)
    {
      var p := pending[j];
      assert still + pending[j..] == still + [p] + pending[j + 1..];
      ElementAt(|results|, still, p, pending[j + 1..], results', server.submitted, server.states);
      ghost var sub, st := server.submitted, server.states;
      var step := Advance(server, p);
      match step {
        case Broken =>
          return false, still, results';
        case Keep(p') =>
          AccountedKeep(|results|, still, p, pending[j + 1..], p', results', sub, st, server.submitted, server.states);
          still := still + [p'];
        case Resolved(d) =>
          AccountedResolved(|results|, still, p, pending[j + 1..], d, results', sub, st, server.submitted, server.states);
          results' := results'[p.index := Some(d)];
      }
    }
    assert still + pending[|pending|..] == still;
    return true, still, results';
  }

  function MaxBackoff(todo: seq<Pending>): (m: nat)
    requires todo != []
    ensures Largest(m, todo)
  {
    if |todo| == 1 then todo[0].backoff
    else
      var m := MaxBackoff(todo[1..]);
      assert forall k :: 0 < k < |todo| ==> todo[k] == todo[1..][k - 1];
      if m <= todo[0].backoff then todo[0].backoff else assert exists k :: 0 <= k < |todo[1..]| && todo[1..][k].backoff == m; m
  }

  /** The largest backoff of the todo-list. */
  predicate Largest(m: nat, todo: seq<Pending>) {
    && (forall k :: 0 <= k < |todo| ==> todo[k].backoff <= m)
    && exists k :: 0 <= k < |todo| && todo[k].backoff == m
  }

  /** Every pass that left something was followed by a sleep of the largest backoff among that. */
  predicate Paced(slept: seq<nat>, left: seq<seq<Pending>>) {
    && |slept| <= |left|
    && (forall k :: 0 <= k < |left| ==> (left[k] != [] <==> k < |slept|))
    && (forall k :: 0 <= k < |slept| ==> Largest(slept[k], left[k]))
  }

  lemma PacedNext(slept: seq<nat>, left: seq<seq<Pending>>, still: seq<Pending>, m: nat)
    requires Paced(slept, left) && |slept| == |left| && Largest(m, still)
    ensures Paced(slept + [m], left + [still])
  {
  }

  /**
   On normal return every request has the answer to a submission of its own, and exactly one of
   its submissions did not fail.  That no request is submitted while a task of it is live is the
   precondition of PulpServer.Send.  No pass starts after the deadline: `began` is when the call
   did, `at` when each pass did, and `left` what each pass left to do.
   */
  method DeliverAndWait(server: PulpServer, requests: seq<string>, timeout: nat)
    returns (r: Result, ghost began: Clock, ghost at: seq<Clock>, ghost left: seq<seq<Pending>>)
    requires server.Valid() && server.submitted == [] && !server.raised && server.slept == []
    modifies server
    ensures server.Valid() && old(server.now) <= began <= server.now
    ensures r.HttpError? <==> server.raised
    ensures r.TimedOut? ==> server.now > began + timeout
    ensures forall k :: 0 <= k < |at| ==> at[k] <= began + timeout
    ensures |at| == |left| + if r.HttpError? then 1 else 0
    ensures Paced(server.slept, left) && (r.Delivered? && requests != [] ==> left != [] && left[|left| - 1] == [])
    ensures r.Delivered? ==>
              && |r.results| == |requests|
              && forall i :: 0 <= i < |requests| ==>
                   r.results[i].Some? && Belongs(server.submitted, server.states, i, r.results[i].value)
  {
    at, left, began := [], [], server.now;
    if requests == [] {
      return Delivered([]), began, [], [];
    }
    var t := server.Monotonic();
    began := t;
    var deadline := t + timeout;
    var results: seq<Option<Data>> := seq(|requests|, _ => None);
    var pending := seq(|requests|, (i: nat) => Pending(i, None, 5));
    FreshTodo(|requests|, pending, results);
    while pending != []
      invariant server.Valid() && !server.raised && old(server.now) <= began <= server.now && deadline == began + timeout
      invariant Accounted(|requests|, pending, results, server.submitted, server.states)
      invariant |at| == |left| && forall k :: 0 <= k < |at| ==> at[k] <= deadline
      invariant Paced(server.slept, left)
      invariant if pending == [] then left != [] && left[|left| - 1] == [] else |server.slept| == |left|
      decreases deadline + 300 - server.now, |pending|
    {
      t := server.Monotonic();
      if t > deadline {
        return TimedOut, began, at, left;
      }
      at := at + [t];
      var ok, still, results' := Pass(server, pending, results);
      if !ok {
        return HttpError, began, at, left;
      }
      pending, results := still, results';
      if pending != [] {
        var m := MaxBackoff(pending);
        SleepBounds(pending, m, server.submitted, server.states);
        PacedNext(server.slept, left, still, m);
        server.Sleep(m);
      }
      left := left + [still];
    }
    forall i | 0 <= i < |requests| ensures results[i].Some? {
      assert forall k: nat :: !PendingAt([], i, k);
    }
    return Delivered(results), began, at, left;
  }

  lemma FreshTodo(n: nat, pending: seq<Pending>, results: seq<Option<Data>>)
    requires |pending| == |results| == n
    requires forall i :: 0 <= i < n ==> pending[i] == Pending(i, None, 5) && results[i].None?
    ensures Accounted(n, pending, results, [], [])
  {
    forall i: nat | i < n && results[i].None? ensures exists k: nat :: PendingAt(pending, i, k) {
      assert PendingAt(pending, i, i);
    }
  }

  /**
   The backoff of a request never decreases, but the sleep can: it is the largest backoff of what is
   still pending, and falls when the request that failed most is resolved.
   */
  lemma SleepCanDrop(a: Option<nat>, b: Option<nat>)
    ensures MaxBackoff([Pending(0, a, Backoff(1)), Pending(1, b, Backoff(0))]) == 10
    ensures MaxBackoff([Pending(1, b, Backoff(0))]) == 5
  {
  }

  /** Every sleep of the loop is between 5 and 300 seconds. */
  lemma SleepBounds(pending: seq<Pending>, m: nat, submitted: seq<nat>, states: seq<Option<TaskState>>)
    requires |submitted| == |states| && Largest(m, pending)
    requires forall k :: 0 <= k < |pending| ==> ElementOk(pending[k], submitted, states)
    ensures 5 <= m <= 300
  {
    var k :| 0 <= k < |pending| && pending[k].backoff == m;
    BackoffBounds(Failures(submitted, states, pending[k].index));
  }
}
