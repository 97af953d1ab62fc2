/**
 Request batching on top of the fair lock: the protocol shared by BatchedCreaterepo
 (backend/copr_backend/createrepo.py with backend/run/copr-repo) and BatchedAddRemoveContent
 (backend/copr_backend/pulp.py), for one repository.

 A process posts its request without the lock, takes the lock, looks whether somebody already
 did the work, otherwise drops its own key, gathers the requests of others, runs once, and
 marks the others as done.  Every Redis command is one atomic step, the lock steps are those of
 FairLock, and a process may crash or raise between any two steps.

 The key of a request is (repository, pid); the repository is fixed, so the pid stands for it.
 Every request gets a number; the number of its leader's own request identifies one batch run.
 */
module Batch {
  import opened Wrappers
  import L = FairLock

  type Pid = L.Pid

  /** The Redis hash of one key: the "task" field (here the request number) and "status". */
  datatype Rec = Rec(task: Option<nat>, done: bool)

  datatype Item = Item(key: Pid, req: nat)

  datatype Stage =
    | Idle
    | Requested(req: nat)                              // hset done; on the way to the yield
    | EarlySeen(req: nat)                              // unlocked check saw success, key not yet deleted
    | AlreadyDone(req: nat)                            // locked check saw success, key not yet deleted
    | Checked(req: nat)                                // locked check saw no success, key not yet deleted
    | Claimed(req: nat)                                // own key deleted, about to list the keys
    | Gathering(req: nat, todo: seq<Pid>, taken: seq<Item>)
    | Ready(req: nat, taken: seq<Item>)                // options() returned
    | Committing(req: nat, marks: seq<Item>)           // the run returned normally
    | Finished(req: nat)                               // body of the `with` done
    | Broken                                           // gave up on an exception

  datatype State = State(
    lock: L.State,
    recs: map<Pid, Rec>,
    stages: map<Pid, Stage>,
    // history, never read by a step
    requests: seq<Pid>,        // who made the r-th request
    read: set<(nat, nat)>,     // (leader's request, request that its options() took)
    ran: set<nat>,             // leaders' requests whose run returned normally
    runs: seq<nat>,            // how many finished runs included the r-th request
    answered: set<nat>,        // requests whose check_processed() returned True
    completed: set<nat>,       // requests whose process went on normally
    clean: bool)               // no crash and no exception so far

  datatype Choice = Take | Skip | Stop

  datatype Action =
    | Lock(a: L.Action)
    | Request
    | EarlyCheck | EarlyDrop | GiveUp
    | Check | Drop
    | List(keys: seq<Pid>)
    | ReadKey(choice: Choice)
    | Execute
    | Mark

  const Init := State(L.Init, map[], map[], [], {}, {}, [], {}, {}, true)

  function StageOf(s: State, p: Pid): Stage {
    if p in s.stages then s.stages[p] else Idle
  }

  /** Stages inside the lock. */
  predicate Critical(st: Stage) {
    && !st.Idle? && !st.Requested? && !st.EarlySeen? && !st.Broken?
  }

  predicate Distinct(q: seq<Pid>) {
    forall i, j :: 0 <= i < j < |q| ==> q[i] != q[j]
  }

  predicate LockAllowed(st: Stage, a: L.Action) {
    match a
    case Push => st.Requested?
    case PushThenLeak => st.Requested?
    case Leave => st.Finished?
    case _ => true
  }

  predicate Enabled(s: State, p: Pid, a: Action) {
    var st := StageOf(s, p);
    && L.Live(s.lock, p)
    && match a
       case Lock(la) => L.Enabled(s.lock, p, la) && LockAllowed(st, la)
       // also after an exception, unless the abandoned request is still in its key
       case Request => (st.Idle? || (st.Broken? && p !in s.recs)) && L.PcOf(s.lock, p).Outside?
       case EarlyCheck => st.Requested? && L.PcOf(s.lock, p).Outside?
       case EarlyDrop => st.EarlySeen?
       // an exception between make_request() and the rpush of the lock
       case GiveUp => (st.Requested? || st.EarlySeen?) && L.PcOf(s.lock, p).Outside?
       case Check => st.Requested? && L.InCs(s.lock, p)
       case Drop => st.Checked? || st.AlreadyDone?
       case List(keys) => st.Claimed? && Distinct(keys) && (set k | k in keys) == s.recs.Keys
       case ReadKey(choice) =>
         && st.Gathering?
         // a finished or vanished key is skipped, a full or oversized batch stops
         && (choice.Take? ==> st.todo != [] && st.todo[0] in s.recs && !s.recs[st.todo[0]].done)
         && (choice.Skip? ==> st.todo != [])
       case Execute => st.Ready?
       case Mark => st.Committing?
  }

  function Goto(s: State, p: Pid, st: Stage): State {
    s.(stages := s.stages[p := st])
  }

  function RecOf(s: State, p: Pid): Rec {
    if p in s.recs then s.recs[p] else Rec(None, false)
  }

  predicate SeesSuccess(s: State, p: Pid) {
    p in s.recs && s.recs[p].done
  }

  function LockStage(st: Stage, a: L.Action): Stage {
    if a.PushThenLeak? || a.Interrupt? then Broken
    else if a.Leave? then Idle
    else st
  }

  /** The requests one run covers. */
  function Covered(req: nat, taken: seq<Item>): set<nat> {
    {req} + set x | x in taken :: x.req
  }

  function Bump(runs: seq<nat>, covered: set<nat>): (r: seq<nat>)
    ensures |r| == |runs|
    ensures forall i :: 0 <= i < |runs| ==> r[i] == runs[i] + if i in covered then 1 else 0
  {
    seq(|runs|, i requires 0 <= i < |runs| => runs[i] + if i in covered then 1 else 0)
  }

  function AfterRead(s: State, p: Pid, choice: Choice): State
    requires Enabled(s, p, ReadKey(choice))
  {
    var st := StageOf(s, p);
    match choice
    case Stop => Goto(s, p, Ready(st.req, st.taken))
    case Skip => Goto(s, p, Gathering(st.req, st.todo[1..], st.taken))
    case Take =>
      var k := st.todo[0];
      // a missing "task" field would be a KeyError here; NoKeyError shows it cannot happen
      var r := if s.recs[k].task.Some? then s.recs[k].task.value else 0;
      Goto(s, p, Gathering(st.req, st.todo[1..], st.taken + [Item(k, r)])).(read := s.read + {(st.req, r)})
  }

  function Apply(s: State, p: Pid, a: Action): State
    requires Enabled(s, p, a)
  {
    var st := StageOf(s, p);
    match a
    case Lock(la) =>
      Goto(s, p, LockStage(st, la)).(
        lock := L.Apply(s.lock, p, la),
        completed := if la.Leave? then s.completed + {st.req} else s.completed,
        clean := s.clean && !la.PushThenLeak? && !la.Interrupt? && !la.Crash?)
    case Request =>
      Goto(s, p, Requested(|s.requests|)).(
        recs := s.recs[p := RecOf(s, p).(task := Some(|s.requests|))],
        requests := s.requests + [p],
        runs := s.runs + [0])
    case EarlyCheck => if SeesSuccess(s, p) then Goto(s, p, EarlySeen(st.req)) else s
    case EarlyDrop =>
      Goto(s, p, Idle).(
        recs := s.recs - {p},
        answered := s.answered + {st.req},
        completed := s.completed + {st.req})
    case GiveUp => Goto(s, p, Broken).(clean := false)
    case Check => Goto(s, p, if SeesSuccess(s, p) then AlreadyDone(st.req) else Checked(st.req))
    case Drop =>
      var s1 := s.(recs := s.recs - {p});
      if st.AlreadyDone? then Goto(s1, p, Finished(st.req)).(answered := s.answered + {st.req})
      else Goto(s1, p, Claimed(st.req))
    case List(keys) => Goto(s, p, Gathering(st.req, keys, []))
    case ReadKey(choice) => AfterRead(s, p, choice)
    case Execute =>
      Goto(s, p, Committing(st.req, st.taken)).(
        ran := s.ran + {st.req},
        runs := Bump(s.runs, Covered(st.req, st.taken)))
    case Mark =>
      if st.marks == [] then Goto(s, p, Finished(st.req))
      else
        var k := st.marks[0].key;
        Goto(s, p, Committing(st.req, st.marks[1..])).(recs := s.recs[k := RecOf(s, k).(done := true)])
  }

  ghost predicate Next(s: State, s': State) {
    exists p, a :: Enabled(s, p, a) && s' == Apply(s, p, a)
  }

  ghost predicate StepAt(tr: seq<State>, i: nat)
    requires i + 1 < |tr|
  {
    Next(tr[i], tr[i + 1])
  }

  ghost predicate Run(tr: seq<State>) {
    && |tr| > 0
    && tr[0] == Init
    && forall i :: 0 <= i < |tr| - 1 ==> StepAt(tr, i)
  }

  // ---------------------------------------------------------------- invariant

  /** Some other process took r into a batch whose run then returned normally. */
  ghost predicate Served(s: State, r: nat) {
    exists l: nat :: Serves(s, l, r)
  }

  predicate Serves(s: State, l: nat, r: nat) {
    && l in s.ran
    && (l, r) in s.read
    && l < |s.requests| && r < |s.requests|
    && s.requests[l] != s.requests[r]
  }

  predicate RunAtLeastOnce(s: State, r: nat) {
    r < |s.runs| && s.runs[r] >= 1
  }

  predicate Owns(s: State, p: Pid, r: nat) {
    r < |s.requests| && s.requests[r] == p
  }

  /** Inside the lock by the stage, and in the right part of lock() otherwise. */
  predicate PlaceOk(s: State, p: Pid) {
    var st, pc := StageOf(s, p), L.PcOf(s.lock, p);
    && (Critical(st) ==> pc.Holding?)
    && (pc.Holding? ==> Critical(st) || st.Requested?)
    && (L.Waiting(pc) ==> st.Requested?)
    && (st.EarlySeen? ==> pc.Outside?)
    && (st.Requested? ==> pc.Outside? || L.Waiting(pc) || pc.Holding?)
  }

  predicate HasRecord(s: State, p: Pid, r: nat) {
    p in s.recs && s.recs[p].task == Some(r)
  }

  /** The own key at each stage. */
  predicate OwnKeyOk(s: State, p: Pid) {
    match StageOf(s, p)
    case Idle => p !in s.recs
    case Requested(r) => Owns(s, p, r) && HasRecord(s, p, r)
    case EarlySeen(r) => Owns(s, p, r) && HasRecord(s, p, r) && s.recs[p].done
    case AlreadyDone(r) => Owns(s, p, r) && HasRecord(s, p, r) && s.recs[p].done
    case Checked(r) => Owns(s, p, r) && HasRecord(s, p, r) && !s.recs[p].done
    case Claimed(r) => Owns(s, p, r) && p !in s.recs
    case Gathering(r, todo, taken) => Owns(s, p, r) && p !in s.recs
    case Ready(r, taken) => Owns(s, p, r) && p !in s.recs
    case Committing(r, marks) => Owns(s, p, r) && p !in s.recs && RunAtLeastOnce(s, r)
    case Finished(r) => Owns(s, p, r) && p !in s.recs && RunAtLeastOnce(s, r)
    case Broken => true
  }

  /** Items in hand are read, pending, from other processes, and each key occurs once. */
  predicate ItemsOk(s: State, p: Pid, l: nat, items: seq<Item>) {
    && (forall i :: 0 <= i < |items| ==>
          && items[i].key != p
          && Owns(s, items[i].key, items[i].req)
          && HasRecord(s, items[i].key, items[i].req)
          && !s.recs[items[i].key].done
          && (l, items[i].req) in s.read)
    && (forall i, j :: 0 <= i < j < |items| ==> items[i].key != items[j].key)
  }

  predicate BatchOk(s: State, p: Pid) {
    match StageOf(s, p)
    case Gathering(l, todo, taken) =>
      && Distinct(todo)
      && p !in todo
      && ItemsOk(s, p, l, taken)
      && forall i, j :: 0 <= i < |taken| && 0 <= j < |todo| ==> taken[i].key != todo[j]
    case Ready(l, taken) => ItemsOk(s, p, l, taken)
    case Committing(l, marks) =>
      && l in s.ran
      && ItemsOk(s, p, l, marks)
      && forall i :: 0 <= i < |marks| ==> RunAtLeastOnce(s, marks[i].req)
    case _ => true
  }

  ghost predicate RecordOk(s: State, k: Pid)
    requires k in s.recs
  {
    && s.recs[k].task.Some?
    && Owns(s, k, s.recs[k].task.value)
    && (s.recs[k].done ==> Served(s, s.recs[k].task.value) && RunAtLeastOnce(s, s.recs[k].task.value))
  }

  ghost predicate HistoryOk(s: State) {
    && |s.runs| == |s.requests|
    && (forall x :: x in s.read ==> x.1 < |s.requests|)
    && (forall r :: r in s.answered ==> Served(s, r))
    && (forall r :: r in s.completed ==> RunAtLeastOnce(s, r))
  }

  ghost predicate Inv(s: State) {
    && L.Inv(s.lock)
    && (forall p | L.Live(s.lock, p) :: PlaceOk(s, p) && OwnKeyOk(s, p) && BatchOk(s, p))
    && (forall k | k in s.recs :: RecordOk(s, k))
    && HistoryOk(s)
  }

  // ---------------------------------------------------------------- the invariant is inductive

  lemma OneInside(s: State, p: Pid, q: Pid)
    requires L.Inv(s.lock) && L.InCs(s.lock, p) && L.InCs(s.lock, q)
    ensures p == q
  {
    assert L.ProcessOk(s.lock, p) && L.ProcessOk(s.lock, q);
  }

  lemma ServedStays(s: State, p: Pid, a: Action, r: nat)
    requires Enabled(s, p, a) && Served(s, r)
    ensures Served(Apply(s, p, a), r)
  {
    var l: nat :| Serves(s, l, r);
    assert Serves(Apply(s, p, a), l, r);
  }

  lemma LockStep(s: State, p: Pid, a: Action)
    requires Inv(s) && Enabled(s, p, a)
    ensures L.Inv(Apply(s, p, a).lock)
  {
    if a.Lock? {
      L.InvStep(s.lock, p, a.a);
    }
  }

  /** A step of p leaves the place of everybody else alone. */
  lemma FrameLock(s: State, p: Pid, a: Action, q: Pid)
    requires Enabled(s, p, a) && p != q
    ensures var s' := Apply(s, p, a);
            && L.PcOf(s'.lock, q) == L.PcOf(s.lock, q)
            && L.Live(s'.lock, q) == L.Live(s.lock, q)
  {
    if a.Lock? {
      L.Frame(s.lock, p, a.a, q);
    } else {
      assert Apply(s, p, a).lock == s.lock;
    }
  }

  lemma Frame(s: State, p: Pid, a: Action, q: Pid)
    requires Enabled(s, p, a) && p != q
    ensures var s' := Apply(s, p, a);
            && StageOf(s', q) == StageOf(s, q)
            && L.PcOf(s'.lock, q) == L.PcOf(s.lock, q)
            && L.Live(s'.lock, q) == L.Live(s.lock, q)
  {
    FrameLock(s, p, a, q);
  }

  /** Where a lock step takes its process. */
  lemma LockPc(s: L.State, p: Pid, a: L.Action)
    requires L.Inv(s) && L.Enabled(s, p, a)
    ensures var pc := L.PcOf(L.Apply(s, p, a), p);
            match a
            case Push => pc.Looking?
            case Look => pc.Holding? || L.Waiting(pc)
            case Repush => L.Waiting(pc)
            case Probe(_) => L.Waiting(pc)
            case Reap => L.Waiting(pc)
            case Wake => L.Waiting(pc)
            case Crash => true
            case PushThenLeak => pc.Outside?
            case _ => !pc.Holding? && !L.Waiting(pc)
    ensures !a.Crash? <==> L.Live(L.Apply(s, p, a), p)
  {
  }

  lemma PlaceLockStep(s: State, p: Pid, la: L.Action)
    requires Inv(s) && Enabled(s, p, Lock(la)) && L.Live(Apply(s, p, Lock(la)).lock, p)
    ensures PlaceOk(Apply(s, p, Lock(la)), p)
  {
    assert PlaceOk(s, p);
    LockPc(s.lock, p, la);
    var s' := Apply(s, p, Lock(la));
    assert StageOf(s', p) == LockStage(StageOf(s, p), la);
    assert L.PcOf(s'.lock, p) == L.PcOf(L.Apply(s.lock, p, la), p);
  }

  lemma PlaceStep(s: State, p: Pid, a: Action, q: Pid)
    requires Inv(s) && Enabled(s, p, a) && L.Live(Apply(s, p, a).lock, q)
    ensures PlaceOk(Apply(s, p, a), q)
  {
    if p != q {
      Frame(s, p, a, q);
      assert PlaceOk(s, q);
    } else {
      assert L.Live(s.lock, p) && PlaceOk(s, p);
      if a.Lock? {
        PlaceLockStep(s, p, a.a);
      } else {
        PlaceOwnStep(s, p, a);
      }
    }
  }

  lemma PlaceOwnStep(s: State, p: Pid, a: Action)
    requires PlaceOk(s, p) && Enabled(s, p, a) && !a.Lock?
    ensures PlaceOk(Apply(s, p, a), p)
  {
    assert Apply(s, p, a).lock == s.lock;
  }

  /** What a step of p can do to the key of another process: delete nothing, mark at most. */
  lemma OtherKeys(s: State, p: Pid, a: Action, k: Pid)
    requires Inv(s) && Enabled(s, p, a) && p != k
    ensures var s' := Apply(s, p, a);
            && (k in s'.recs <==> k in s.recs)
            && (k in s.recs ==> s'.recs[k].task == s.recs[k].task)
            && (k in s.recs && s.recs[k].done ==> s'.recs[k].done)
            && (k in s.recs && s'.recs[k].done && !s.recs[k].done ==> L.InCs(s.lock, p))
  {
    assert PlaceOk(s, p) && BatchOk(s, p);
  }

  /** A process that stays where it is keeps its key as long as the key itself is respected. */
  lemma OwnKeyCarries(s: State, s': State, q: Pid)
    requires OwnKeyOk(s, q) && StageOf(s', q) == StageOf(s, q)
    requires q in s'.recs <==> q in s.recs
    requires q in s.recs ==> s'.recs[q].task == s.recs[q].task
    requires q in s.recs && s.recs[q].done ==> s'.recs[q].done
    requires q in s.recs && StageOf(s, q).Checked? ==> s'.recs[q].done == s.recs[q].done
    requires forall r: nat :: Owns(s, q, r) ==> Owns(s', q, r)
    requires forall r: nat :: RunAtLeastOnce(s, r) ==> RunAtLeastOnce(s', r)
    ensures OwnKeyOk(s', q)
  {
  }

  lemma OwnKeyOtherStep(s: State, p: Pid, a: Action, q: Pid)
    requires Inv(s) && Enabled(s, p, a) && L.Live(Apply(s, p, a).lock, q) && p != q
    ensures OwnKeyOk(Apply(s, p, a), q)
  {
    Frame(s, p, a, q);
    assert OwnKeyOk(s, q) && PlaceOk(s, q);
    OtherKeys(s, p, a, q);
    RunsGrow(s, p, a);
    if L.InCs(s.lock, p) && L.InCs(s.lock, q) {
      OneInside(s, p, q);
    }
    OwnKeyCarries(s, Apply(s, p, a), q);
  }

  lemma OwnKeyLockStep(s: State, p: Pid, la: L.Action)
    requires OwnKeyOk(s, p) && Enabled(s, p, Lock(la))
    ensures OwnKeyOk(Apply(s, p, Lock(la)), p)
  {
    assert StageOf(Apply(s, p, Lock(la)), p) == LockStage(StageOf(s, p), la);
  }

  /** The steps up to the claim. */
  lemma OwnKeyEntryStep(s: State, p: Pid, a: Action)
    requires OwnKeyOk(s, p) && Enabled(s, p, a) && |s.runs| == |s.requests|
    requires StageOf(s, p).AlreadyDone? ==> RunAtLeastOnce(s, StageOf(s, p).req)
    requires a.Request? || a.EarlyCheck? || a.EarlyDrop? || a.GiveUp? || a.Check? || a.Drop?
    ensures OwnKeyOk(Apply(s, p, a), p)
  {
  }

  /** The steps of a leader. */
  lemma OwnKeyLeadStep(s: State, p: Pid, a: Action)
    requires OwnKeyOk(s, p) && BatchOk(s, p) && Enabled(s, p, a) && |s.runs| == |s.requests|
    requires a.List? || a.ReadKey? || a.Execute? || a.Mark?
    ensures OwnKeyOk(Apply(s, p, a), p)
  {
  }

  lemma OwnKeyOwnStep(s: State, p: Pid, a: Action)
    requires Inv(s) && Enabled(s, p, a) && L.Live(Apply(s, p, a).lock, p)
    ensures OwnKeyOk(Apply(s, p, a), p)
  {
    assert L.Live(s.lock, p) && OwnKeyOk(s, p) && BatchOk(s, p);
    if a.Lock? {
      OwnKeyLockStep(s, p, a.a);
    } else if a.List? || a.ReadKey? || a.Execute? || a.Mark? {
      OwnKeyLeadStep(s, p, a);
    } else {
      if p in s.recs {
        assert RecordOk(s, p);
      }
      OwnKeyEntryStep(s, p, a);
    }
  }

  lemma OwnKeyStep(s: State, p: Pid, a: Action, q: Pid)
    requires Inv(s) && Enabled(s, p, a) && L.Live(Apply(s, p, a).lock, q)
    ensures OwnKeyOk(Apply(s, p, a), q)
  {
    if p != q {
      OwnKeyOtherStep(s, p, a, q);
    } else {
      OwnKeyOwnStep(s, p, a);
    }
  }

  lemma ItemsStep(s: State, p: Pid, a: Action, q: Pid, l: nat, items: seq<Item>)
    requires Inv(s) && Enabled(s, p, a) && p != q && L.InCs(s.lock, q)
    requires ItemsOk(s, q, l, items)
    ensures ItemsOk(Apply(s, p, a), q, l, items)
  {
    var s' := Apply(s, p, a);
    assert PlaceOk(s, p) && OwnKeyOk(s, p);
    if L.InCs(s.lock, p) {
      OneInside(s, p, q);
    }
    forall i | 0 <= i < |items|
      ensures Owns(s', items[i].key, items[i].req) && HasRecord(s', items[i].key, items[i].req)
      ensures !s'.recs[items[i].key].done && (l, items[i].req) in s'.read
    {
      if items[i].key != p {
        OtherKeys(s, p, a, items[i].key);
      }
    }
  }

  lemma BatchOtherStep(s: State, p: Pid, a: Action, q: Pid)
    requires Inv(s) && Enabled(s, p, a) && L.Live(Apply(s, p, a).lock, q) && p != q
    ensures BatchOk(Apply(s, p, a), q)
  {
    Frame(s, p, a, q);
    assert PlaceOk(s, q) && BatchOk(s, q);
    match StageOf(s, q) {
      case Gathering(l, todo, taken) => ItemsStep(s, p, a, q, l, taken);
      case Ready(l, taken) => ItemsStep(s, p, a, q, l, taken);
      case Committing(l, marks) =>
        ItemsStep(s, p, a, q, l, marks);
        RunsGrow(s, p, a);
      case _ =>
    }
  }

  lemma RunsGrow(s: State, p: Pid, a: Action)
    requires Enabled(s, p, a)
    ensures var s' := Apply(s, p, a);
            && s.ran <= s'.ran
            && |s.runs| <= |s'.runs|
            && forall r :: 0 <= r < |s.runs| ==> s.runs[r] <= s'.runs[r]
  {
  }

  /** Items stay good when only the leader's own stage and the history grow. */
  lemma ItemsKept(s: State, s': State, p: Pid, l: nat, items: seq<Item>)
    requires ItemsOk(s, p, l, items)
    requires s'.recs == s.recs && s'.requests == s.requests && s.read <= s'.read
    ensures ItemsOk(s', p, l, items)
  {
  }

  lemma TakeStep(s: State, p: Pid)
    requires Inv(s) && Enabled(s, p, ReadKey(Take))
    ensures BatchOk(Apply(s, p, ReadKey(Take)), p)
  {
    var s' := Apply(s, p, ReadKey(Take));
    var st := StageOf(s, p);
    assert BatchOk(s, p) && RecordOk(s, st.todo[0]);
    ItemsKept(s, s', p, st.req, st.taken);
    assert StageOf(s', p) == Gathering(st.req, st.todo[1..], st.taken + [Item(st.todo[0], s.recs[st.todo[0]].task.value)]);
  }

  lemma MarkStep(s: State, p: Pid)
    requires Inv(s) && Enabled(s, p, Mark) && StageOf(s, p).marks != []
    ensures BatchOk(Apply(s, p, Mark), p)
  {
    var s' := Apply(s, p, Mark);
    var st := StageOf(s, p);
    assert BatchOk(s, p);
    var rest := st.marks[1..];
    assert StageOf(s', p) == Committing(st.req, rest);
    forall i | 0 <= i < |rest| ensures s'.recs[rest[i].key] == s.recs[rest[i].key] {
      assert rest[i] == st.marks[i + 1];
    }
  }

  lemma ExecuteStep(s: State, p: Pid)
    requires Inv(s) && Enabled(s, p, Execute)
    ensures BatchOk(Apply(s, p, Execute), p)
  {
    var s' := Apply(s, p, Execute);
    var st := StageOf(s, p);
    assert BatchOk(s, p);
    ItemsKept(s, s', p, st.req, st.taken);
    forall i | 0 <= i < |st.taken| ensures RunAtLeastOnce(s', st.taken[i].req) {
      assert st.taken[i].req in Covered(st.req, st.taken);
    }
  }

  lemma BatchOwnStep(s: State, p: Pid, a: Action)
    requires Inv(s) && Enabled(s, p, a) && L.Live(Apply(s, p, a).lock, p)
    ensures BatchOk(Apply(s, p, a), p)
  {
    assert BatchOk(s, p);
    var s' := Apply(s, p, a);
    match a {
      case ReadKey(choice) =>
        if choice.Take? { TakeStep(s, p); } else { ItemsKept(s, s', p, StageOf(s, p).req, StageOf(s, p).taken); }
      case Mark => if StageOf(s, p).marks != [] { MarkStep(s, p); }
      case Execute => ExecuteStep(s, p);
      case Lock(la) => BatchLockStep(s, p, la);
      case List(keys) => assert OwnKeyOk(s, p);
      case _ =>
    }
  }

  lemma BatchLockStep(s: State, p: Pid, la: L.Action)
    requires Inv(s) && Enabled(s, p, Lock(la))
    ensures BatchOk(Apply(s, p, Lock(la)), p)
  {
    assert BatchOk(s, p);
    var s' := Apply(s, p, Lock(la));
    match StageOf(s', p) {
      case Gathering(l, todo, taken) => ItemsKept(s, s', p, l, taken);
      case Ready(l, taken) => ItemsKept(s, s', p, l, taken);
      case Committing(l, marks) => ItemsKept(s, s', p, l, marks);
      case _ =>
    }
  }

  lemma RecordKept(s: State, s': State, k: Pid)
    requires k in s.recs && RecordOk(s, k) && k in s'.recs && s'.recs[k] == s.recs[k]
    requires s.requests <= s'.requests
    requires forall r: nat :: RunAtLeastOnce(s, r) ==> RunAtLeastOnce(s', r)
    requires s.recs[k].done ==> Served(s', s.recs[k].task.value)
    ensures RecordOk(s', k)
  {
  }

  /** A step touches no key but its own, and as a leader the one it marks. */
  lemma RecordUntouched(s: State, p: Pid, a: Action, k: Pid)
    requires Enabled(s, p, a) && k in Apply(s, p, a).recs
    requires !(a.Request? && k == p)
    requires !(a.Mark? && StageOf(s, p).marks != [] && k == StageOf(s, p).marks[0].key)
    ensures k in s.recs && Apply(s, p, a).recs[k] == s.recs[k]
    ensures s.requests <= Apply(s, p, a).requests
  {
  }

  lemma RequestRecord(s: State, p: Pid)
    requires Enabled(s, p, Request) && OwnKeyOk(s, p)
    ensures RecordOk(Apply(s, p, Request), p)
  {
  }

  lemma MarkRecord(s: State, p: Pid)
    requires Enabled(s, p, Mark) && StageOf(s, p).marks != [] && OwnKeyOk(s, p) && BatchOk(s, p)
    requires forall x :: x in s.read ==> x.1 < |s.requests|
    ensures RecordOk(Apply(s, p, Mark), StageOf(s, p).marks[0].key)
  {
    assert Serves(Apply(s, p, Mark), StageOf(s, p).req, StageOf(s, p).marks[0].req);
  }

  lemma RecordStep(s: State, p: Pid, a: Action, k: Pid)
    requires Inv(s) && Enabled(s, p, a) && k in Apply(s, p, a).recs
    ensures RecordOk(Apply(s, p, a), k)
  {
    assert OwnKeyOk(s, p) && BatchOk(s, p);
    if a.Request? && k == p {
      RequestRecord(s, p);
    } else if a.Mark? && StageOf(s, p).marks != [] && k == StageOf(s, p).marks[0].key {
      MarkRecord(s, p);
    } else {
      RecordUntouched(s, p, a, k);
      assert RecordOk(s, k);
      if s.recs[k].done {
        ServedStays(s, p, a, s.recs[k].task.value);
      }
      RunsGrow(s, p, a);
      RecordKept(s, Apply(s, p, a), k);
    }
  }

  lemma BookkeepingStep(s: State, p: Pid, a: Action)
    requires Inv(s) && Enabled(s, p, a)
    ensures var s' := Apply(s, p, a);
            && |s'.runs| == |s'.requests|
            && forall x :: x in s'.read ==> x.1 < |s'.requests|
  {
    assert PlaceOk(s, p) && BatchOk(s, p);
    if a == ReadKey(Take) {
      assert RecordOk(s, StageOf(s, p).todo[0]);
    }
  }

  lemma AnsweredStep(s: State, p: Pid, a: Action)
    requires Inv(s) && Enabled(s, p, a)
    ensures forall r | r in Apply(s, p, a).answered :: Served(Apply(s, p, a), r)
  {
    var s' := Apply(s, p, a);
    assert PlaceOk(s, p) && OwnKeyOk(s, p);
    if p in s.recs {
      assert RecordOk(s, p);
    }
    forall r | r in s'.answered ensures Served(s', r) {
      ServedStays(s, p, a, r);
    }
  }

  lemma CompletedStep(s: State, p: Pid, a: Action)
    requires Inv(s) && Enabled(s, p, a)
    ensures forall r | r in Apply(s, p, a).completed :: RunAtLeastOnce(Apply(s, p, a), r)
  {
    assert PlaceOk(s, p) && OwnKeyOk(s, p);
    RunsGrow(s, p, a);
  }

  lemma HistoryStep(s: State, p: Pid, a: Action)
    requires Inv(s) && Enabled(s, p, a)
    ensures HistoryOk(Apply(s, p, a))
  {
    BookkeepingStep(s, p, a);
    AnsweredStep(s, p, a);
    CompletedStep(s, p, a);
  }

  lemma InvStep(s: State, p: Pid, a: Action)
    requires Inv(s) && Enabled(s, p, a)
    ensures Inv(Apply(s, p, a))
  {
    var s' := Apply(s, p, a);
    LockStep(s, p, a);
    forall q | L.Live(s'.lock, q) ensures PlaceOk(s', q) && OwnKeyOk(s', q) && BatchOk(s', q) {
      PlaceStep(s, p, a, q);
      OwnKeyStep(s, p, a, q);
      if p == q { BatchOwnStep(s, p, a); } else { BatchOtherStep(s, p, a, q); }
    }
    forall k | k in s'.recs ensures RecordOk(s', k) {
      RecordStep(s, p, a, k);
    }
    HistoryStep(s, p, a);
  }

  lemma NextInv(s: State, s': State)
    requires Inv(s) && Next(s, s')
    ensures Inv(s')
  {
    var p, a :| Enabled(s, p, a) && s' == Apply(s, p, a);
    InvStep(s, p, a);
  }

  lemma InitInv()
    ensures Inv(Init) && CleanOk(Init)
  {
  }

  lemma {:induction false} InvAlways(tr: seq<State>, i: nat)
    requires Run(tr) && i < |tr|
    ensures Inv(tr[i])
  {
    if i == 0 {
      InitInv();
    } else {
      InvAlways(tr, i - 1);
      assert StepAt(tr, i - 1);
      NextInv(tr[i - 1], tr[i]);
    }
  }

  // ---------------------------------------------------------------- theorems

  /**
   When check_processed() answered True for a request, a different process had read exactly that
   request in its options(), and the run of that process had returned normally.
   */
  lemma ProcessedMeansServed(tr: seq<State>, i: nat, r: nat)
    requires Run(tr) && i < |tr| && r in tr[i].answered
    ensures Served(tr[i], r)
  {
    InvAlways(tr, i);
  }

  /**
   The order of events behind it.  Listing, reading, running and marking happen inside the lock,
   with nobody else between the check and the end of the body; a flag is set only for a request
   this leader read, after its run returned, while that request is still the one in the key.
   */
  lemma LeaderView(tr: seq<State>, i: nat, p: Pid)
    requires Run(tr) && i < |tr| && L.Live(tr[i].lock, p) && Critical(StageOf(tr[i], p))
    ensures L.InCs(tr[i].lock, p)
    ensures forall q :: L.Live(tr[i].lock, q) && Critical(StageOf(tr[i], q)) ==> q == p
    ensures var st := StageOf(tr[i], p);
            st.Committing? && st.marks != [] ==>
              && st.req in tr[i].ran
              && (st.req, st.marks[0].req) in tr[i].read
              && Owns(tr[i], st.marks[0].key, st.marks[0].req)
              && HasRecord(tr[i], st.marks[0].key, st.marks[0].req)
  {
    InvAlways(tr, i);
    LeaderInv(tr[i], p);
  }

  lemma LeaderInv(s: State, p: Pid)
    requires Inv(s) && L.Live(s.lock, p) && Critical(StageOf(s, p))
    ensures L.InCs(s.lock, p)
    ensures forall q :: L.Live(s.lock, q) && Critical(StageOf(s, q)) ==> q == p
    ensures var st := StageOf(s, p);
            st.Committing? && st.marks != [] ==>
              && st.req in s.ran
              && (st.req, st.marks[0].req) in s.read
              && Owns(s, st.marks[0].key, st.marks[0].req)
              && HasRecord(s, st.marks[0].key, st.marks[0].req)
  {
    assert PlaceOk(s, p) && BatchOk(s, p);
    forall q | L.Live(s.lock, q) && Critical(StageOf(s, q)) ensures q == p {
      assert PlaceOk(s, q);
      OneInside(s, p, q);
    }
  }

  /** The own key is never among the listed ones, so `assert key != self.key` holds. */
  lemma OwnKeyNeverListed(tr: seq<State>, i: nat, p: Pid)
    requires Run(tr) && i < |tr| && L.Live(tr[i].lock, p) && StageOf(tr[i], p).Gathering?
    ensures p !in StageOf(tr[i], p).todo && p !in tr[i].recs
  {
    InvAlways(tr, i);
    assert BatchOk(tr[i], p) && OwnKeyOk(tr[i], p);
  }

  /** A hash that is not empty has a "task" field, so reading it is no KeyError. */
  lemma NoKeyError(tr: seq<State>, i: nat, k: Pid)
    requires Run(tr) && i < |tr| && k in tr[i].recs
    ensures tr[i].recs[k].task.Some?
  {
    InvAlways(tr, i);
    assert RecordOk(tr[i], k);
  }

  // ---------------------------------------------------------------- exactly once

  predicate Marking(s: State, p: Pid, k: Pid) {
    var st := StageOf(s, p);
    st.Committing? && exists i :: 0 <= i < |st.marks| && st.marks[i].key == k
  }

  ghost predicate Unmarked(s: State, k: Pid) {
    forall p :: !Marking(s, p, k)
  }

  predicate ZeroRuns(s: State, r: nat) {
    r < |s.runs| && s.runs[r] == 0
  }

  /** A process of a clean run has not given up, and a claimed request was not run before. */
  predicate CleanProcess(s: State, p: Pid) {
    var st := StageOf(s, p);
    && !st.Broken?
    && (st.Claimed? || st.Gathering? || st.Ready? ==> ZeroRuns(s, st.req))
  }

  ghost predicate CleanRecord(s: State, k: Pid)
    requires k in s.recs
  {
    !s.recs[k].done && Unmarked(s, k) ==> s.recs[k].task.Some? && ZeroRuns(s, s.recs[k].task.value)
  }

  /** While nothing went wrong: no run was repeated, and pending requests were not run yet. */
  ghost predicate CleanOk(s: State) {
    && s.lock.dead == {}
    && (forall r :: 0 <= r < |s.runs| ==> s.runs[r] <= 1)
    && (forall p :: CleanProcess(s, p))
    && (forall k | k in s.recs :: CleanRecord(s, k))
  }

  /** Inside the lock before the commit nobody's key is about to be marked. */
  lemma NobodyMarks(s: State, p: Pid, k: Pid)
    requires Inv(s) && CleanOk(s)
    requires Critical(StageOf(s, p)) && !StageOf(s, p).Committing?
    ensures Unmarked(s, k)
  {
    forall q ensures !Marking(s, q, k) {
      if StageOf(s, q).Committing? {
        assert PlaceOk(s, p) && PlaceOk(s, q);
        OneInside(s, p, q);
      }
    }
  }

  lemma CoveredZero(s: State, p: Pid, r: nat)
    requires Inv(s) && CleanOk(s) && Enabled(s, p, Execute)
    requires r in Covered(StageOf(s, p).req, StageOf(s, p).taken)
    ensures ZeroRuns(s, r)
  {
    var st := StageOf(s, p);
    assert CleanProcess(s, p) && BatchOk(s, p);
    if r != st.req {
      var x :| x in st.taken && x.req == r;
      NobodyMarks(s, p, x.key);
      assert CleanRecord(s, x.key);
    }
  }

  lemma CleanExecute(s: State, p: Pid)
    requires Inv(s) && CleanOk(s) && Enabled(s, p, Execute)
    ensures CleanOk(Apply(s, p, Execute))
  {
    var s' := Apply(s, p, Execute);
    var st := StageOf(s, p);
    forall r | r in Covered(st.req, st.taken) ensures ZeroRuns(s, r) {
      CoveredZero(s, p, r);
    }
    forall k | k in s'.recs ensures CleanRecord(s', k) {
      NobodyMarks(s, p, k);
      CleanExecuteRecord(s, p, k);
    }
    forall q ensures CleanProcess(s', q) {
      assert CleanProcess(s, q) && PlaceOk(s, q) && PlaceOk(s, p);
      if q != p {
        Frame(s, p, Execute, q);
        if Critical(StageOf(s, q)) { OneInside(s, p, q); }
      }
    }
  }

  lemma CleanExecuteRecord(s: State, p: Pid, k: Pid)
    requires Inv(s) && CleanOk(s) && Enabled(s, p, Execute) && k in s.recs && Unmarked(s, k)
    ensures CleanRecord(Apply(s, p, Execute), k)
  {
    var s' := Apply(s, p, Execute);
    var st := StageOf(s, p);
    assert BatchOk(s, p) && OwnKeyOk(s, p) && RecordOk(s, k) && CleanRecord(s, k);
    assert StageOf(s', p) == Committing(st.req, st.taken);
    if x :| x in st.taken && x.key == k {
      assert Marking(s', p, k);
    }
  }

  /** Marking removes an item from the hand of its leader and flags exactly that key. */
  lemma MarkingAfter(s: State, p: Pid, a: Action, q: Pid, k: Pid)
    requires Inv(s) && Enabled(s, p, a) && !a.Execute?
    requires Marking(s, q, k) && k in s.recs && L.Live(s.lock, q)
    requires !(a.Lock? && (a.a.Crash? || a.a.Interrupt? || a.a.PushThenLeak?))
    ensures var s' := Apply(s, p, a);
            Marking(s', q, k) || (k in s'.recs && s'.recs[k].done)
  {
    assert PlaceOk(s, q);
    if p != q {
      Frame(s, p, a, q);
    } else if a.Mark? {
      var marks := StageOf(s, q).marks;
      var i :| 0 <= i < |marks| && marks[i].key == k;
      if i > 0 {
        assert marks[1..][i - 1].key == k;
      }
    }
  }

  lemma CleanRecordStep(s: State, p: Pid, a: Action, k: Pid)
    requires Inv(s) && CleanOk(s) && Enabled(s, p, a) && Apply(s, p, a).clean
    requires !a.Execute? && k in Apply(s, p, a).recs
    ensures CleanRecord(Apply(s, p, a), k)
  {
    var s' := Apply(s, p, a);
    assert OwnKeyOk(s, p) && BatchOk(s, p);
    if !s'.recs[k].done && Unmarked(s', k) && k in s.recs {
      assert RecordOk(s, k) && CleanRecord(s, k);
      forall q ensures !Marking(s, q, k) {
        assert !Marking(s', q, k);
        if Marking(s, q, k) { MarkingAfter(s, p, a, q, k); }
      }
    }
  }

  lemma CleanPlain(s: State, p: Pid, a: Action)
    requires Inv(s) && CleanOk(s) && Enabled(s, p, a) && Apply(s, p, a).clean && !a.Execute?
    ensures CleanOk(Apply(s, p, a))
  {
    var s' := Apply(s, p, a);
    forall k | k in s'.recs ensures CleanRecord(s', k) {
      CleanRecordStep(s, p, a, k);
    }
    forall q ensures CleanProcess(s', q) {
      if q != p {
        CleanOtherProcess(s, p, a, q);
      } else {
        CleanOwnProcess(s, p, a);
      }
    }
    CleanCounts(s, p, a);
  }

  lemma CleanCounts(s: State, p: Pid, a: Action)
    requires CleanOk(s) && Enabled(s, p, a) && Apply(s, p, a).clean && !a.Execute?
    ensures Apply(s, p, a).lock.dead == {}
    ensures forall r :: 0 <= r < |Apply(s, p, a).runs| ==> Apply(s, p, a).runs[r] <= 1
  {
  }

  lemma CleanOtherProcess(s: State, p: Pid, a: Action, q: Pid)
    requires CleanProcess(s, q) && Enabled(s, p, a) && !a.Execute? && p != q
    ensures CleanProcess(Apply(s, p, a), q)
  {
    Frame(s, p, a, q);
  }

  lemma CleanOwnProcess(s: State, p: Pid, a: Action)
    requires Inv(s) && CleanOk(s) && Enabled(s, p, a) && Apply(s, p, a).clean && !a.Execute?
    ensures CleanProcess(Apply(s, p, a), p)
  {
    assert CleanProcess(s, p) && OwnKeyOk(s, p);
    if StageOf(s, p).Checked? {
      NobodyMarks(s, p, p);
      assert CleanRecord(s, p);
    }
  }

  lemma NextClean(s: State, s': State)
    requires Inv(s) && CleanOk(s) && Next(s, s') && s'.clean
    ensures CleanOk(s')
  {
    var p, a :| Enabled(s, p, a) && s' == Apply(s, p, a);
    if a.Execute? {
      CleanExecute(s, p);
    } else {
      CleanPlain(s, p, a);
    }
  }

  lemma CleanBefore(s: State, s': State)
    requires Next(s, s') && s'.clean
    ensures s.clean
  {
  }

  lemma {:induction false} CleanAlways(tr: seq<State>, i: nat)
    requires Run(tr) && i < |tr| && tr[i].clean
    ensures CleanOk(tr[i])
  {
    if i == 0 {
      InitInv();
    } else {
      assert StepAt(tr, i - 1);
      CleanBefore(tr[i - 1], tr[i]);
      CleanAlways(tr, i - 1);
      InvAlways(tr, i - 1);
      NextClean(tr[i - 1], tr[i]);
    }
  }

  /** Whatever crashed or raised: a process that went on normally had its request run. */
  lemma CompletedWasRun(tr: seq<State>, i: nat, r: nat)
    requires Run(tr) && i < |tr| && r in tr[i].completed
    ensures r < |tr[i].runs| && tr[i].runs[r] >= 1
  {
    InvAlways(tr, i);
  }

  /** The request its process is busy with. */
  predicate InHand(s: State, r: nat)
    requires r < |s.requests|
  {
    var st := StageOf(s, s.requests[r]);
    !st.Idle? && !st.Broken? && st.req == r
  }

  /** No posted request gets lost: its process is busy with it, or went on normally. */
  ghost predicate NoneLost(s: State) {
    forall r: nat :: r < |s.requests| ==> r in s.completed || InHand(s, r)
  }

  /** The request in hand stays in hand, or is completed by the step. */
  lemma InHandStep(s: State, p: Pid, a: Action, r: nat)
    requires Enabled(s, p, a) && Apply(s, p, a).clean && r < |s.requests| && InHand(s, r)
    ensures var s' := Apply(s, p, a);
            s.requests <= s'.requests && (r in s'.completed || InHand(s', r))
  {
    var q := s.requests[r];
    if q != p {
      Frame(s, p, a, q);
    }
  }

  lemma NoneLostStep(s: State, p: Pid, a: Action)
    requires Inv(s) && NoneLost(s) && Enabled(s, p, a) && Apply(s, p, a).clean
    ensures NoneLost(Apply(s, p, a))
  {
    var s' := Apply(s, p, a);
    forall r: nat | r < |s'.requests| ensures r in s'.completed || InHand(s', r) {
      if r < |s.requests| {
        if r !in s.completed {
          InHandStep(s, p, a, r);
        }
      } else {
        assert a.Request? && r == |s.requests|;
      }
    }
  }

  lemma NextNoneLost(s: State, s': State)
    requires Inv(s) && NoneLost(s) && Next(s, s') && s'.clean
    ensures NoneLost(s')
  {
    var p, a :| Enabled(s, p, a) && s' == Apply(s, p, a);
    NoneLostStep(s, p, a);
  }

  lemma {:induction false} NoneLostAlways(tr: seq<State>, i: nat)
    requires Run(tr) && i < |tr| && tr[i].clean
    ensures NoneLost(tr[i])
  {
    if i > 0 {
      assert StepAt(tr, i - 1);
      CleanBefore(tr[i - 1], tr[i]);
      NoneLostAlways(tr, i - 1);
      InvAlways(tr, i - 1);
      NextNoneLost(tr[i - 1], tr[i]);
    }
  }

  /**
   Without crash and exception no request runs twice, and every posted request whose process is
   no longer busy with it ran exactly once, whoever ran it.
   */
  lemma ExactlyOnce(tr: seq<State>, i: nat, r: nat)
    requires Run(tr) && i < |tr| && tr[i].clean && r < |tr[i].requests|
    ensures r < |tr[i].runs| && tr[i].runs[r] <= 1
    ensures !InHand(tr[i], r) ==> tr[i].runs[r] == 1
  {
    InvAlways(tr, i);
    CleanAlways(tr, i);
    NoneLostAlways(tr, i);
  }

  /** When a clean run has come to rest, every request ever posted was run exactly once. */
  lemma AllRunOnce(tr: seq<State>, i: nat)
    requires Run(tr) && i < |tr| && tr[i].clean
    requires forall p :: StageOf(tr[i], p).Idle?
    ensures |tr[i].runs| == |tr[i].requests|
    ensures forall r :: 0 <= r < |tr[i].requests| ==> tr[i].runs[r] == 1
  {
    InvAlways(tr, i);
    forall r | 0 <= r < |tr[i].requests| ensures tr[i].runs[r] == 1 {
      ExactlyOnce(tr, i, r);
    }
  }

  // ---------------------------------------------------------------- why an abandoned key must not be reused

  /** make_request() with a key that still holds an earlier request: hset replaces the task only. */
  function Repost(s: State, p: Pid): State {
    Goto(s, p, Requested(|s.requests|)).(
      recs := s.recs[p := RecOf(s, p).(task := Some(|s.requests|))],
      requests := s.requests + [p],
      runs := s.runs + [0])
  }

  ghost predicate Reachable(s: State) {
    exists tr :: Run(tr) && tr[|tr| - 1] == s
  }

  lemma ReachInit()
    ensures Reachable(Init)
  {
    assert Run([Init]);
    assert [Init][|[Init]| - 1] == Init;
  }

  lemma Reach(s: State, p: Pid, a: Action) returns (s': State)
    requires Reachable(s) && Enabled(s, p, a)
    ensures s' == Apply(s, p, a) && Reachable(s')
  {
    s' := Apply(s, p, a);
    var tr :| Run(tr) && tr[|tr| - 1] == s;
    var tr' := tr + [s'];
    forall i | 0 <= i < |tr'| - 1 ensures StepAt(tr', i) {
      if i < |tr| - 1 {
        assert StepAt(tr, i);
      }
    }
    assert tr'[|tr'| - 1] == s';
  }

  /** A leader takes the lock, with another request posted. */
  lemma LeaderInside(p: Pid, leader: Pid) returns (s: State)
    requires p != leader
    ensures Reachable(s) && s.lock.dead == {} && s.lock.queue == [L.Entry(leader, 0)]
    ensures StageOf(s, p) == Requested(0) && L.PcOf(s.lock, p).Outside?
    ensures StageOf(s, leader) == Requested(1) && L.PcOf(s.lock, leader).Holding?
    ensures s.recs == map[p := Rec(Some(0), false), leader := Rec(Some(1), false)] && s.requests == [p, leader]
  {
    ReachInit();
    s := Reach(Init, p, Request);
    s := Reach(s, leader, Request);
    s := Reach(s, leader, Lock(L.Push));
    assert s.lock.queue == [L.Entry(leader, 0)];
    s := Reach(s, leader, Lock(L.Look));
  }

  /** It finds its own request undone, claims it, and lists the other one. */
  lemma LeaderLists(p: Pid, leader: Pid) returns (s: State)
    requires p != leader
    ensures Reachable(s) && s.lock.dead == {}
    ensures StageOf(s, p) == Requested(0) && L.PcOf(s.lock, p).Outside?
    ensures StageOf(s, leader) == Gathering(1, [p], [])
    ensures s.recs == map[p := Rec(Some(0), false)]
  {
    s := LeaderInside(p, leader);
    s := Reach(s, leader, Check);
    s := Reach(s, leader, Drop);
    assert s.recs.Keys == {p};
    assert (set k | k in [p]) == {p};
    s := Reach(s, leader, List([p]));
  }

  /** It reads and runs the other request, whose process then gives up. */
  lemma AbandonedRequest(p: Pid, leader: Pid) returns (s: State)
    requires p != leader
    ensures Reachable(s) && s.lock.dead == {}
    ensures StageOf(s, p).Broken? && StageOf(s, leader) == Committing(1, [Item(p, 0)])
  {
    s := LeaderLists(p, leader);
    s := Reach(s, leader, ReadKey(Take));
    assert StageOf(s, leader) == Gathering(1, [], [Item(p, 0)]);
    s := Reach(s, leader, ReadKey(Stop));
    assert StageOf(s, leader) == Ready(1, [Item(p, 0)]);
    s := Reach(s, leader, Execute);
    s := Reach(s, p, GiveUp);
  }

  /**
   The model lets a process that gave up (Broken) post no second request while the first one is
   still in its key.  That is needed: if it did while a leader is about to mark the first one, the
   new request would look processed although nobody ever read it.
   */
  lemma ReusedKeyLooksProcessed(s: State, p: Pid, leader: Pid)
    requires Reachable(s) && L.Live(s.lock, p) && L.Live(s.lock, leader) && leader != p
    requires StageOf(s, p).Broken? && StageOf(s, leader).Committing?
    requires StageOf(s, leader).marks != [] && StageOf(s, leader).marks[0].key == p
    ensures var again := |s.requests|;
            var s1 := Repost(s, p);
            && Enabled(s1, leader, Mark)
            && var s2 := Apply(s1, leader, Mark);
               && StageOf(s2, p) == Requested(again)
               && HasRecord(s2, p, again)
               && SeesSuccess(s2, p)
               && !Served(s2, again)
  {
    var tr :| Run(tr) && tr[|tr| - 1] == s;
    InvAlways(tr, |tr| - 1);
  }

  /** It does come to that, for any two processes. */
  lemma ReusedKeyHappens(p: Pid, leader: Pid) returns (s: State)
    requires p != leader
    ensures Reachable(s) && Enabled(Repost(s, p), leader, Mark)
    ensures var s2 := Apply(Repost(s, p), leader, Mark);
            SeesSuccess(s2, p) && HasRecord(s2, p, |s.requests|) && !Served(s2, |s.requests|)
  {
    s := AbandonedRequest(p, leader);
    ReusedKeyLooksProcessed(s, p, leader);
  }
}
