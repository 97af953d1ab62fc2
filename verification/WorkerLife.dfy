/**
 The life of one background worker as the worker manager sees it: the Redis hash of the worker,
 written by the manager (common/copr_common/worker_manager.py, _start_worker and
 _cleanup_workers) and by the worker process (common/copr_common/background_worker.py).  Every
 Redis command is one step, and the worker may write between any two steps of the manager.
 Workers of different tasks use different keys, so one key is enough.
 */
module WorkerLife {
  import opened Wrappers

  const TIMEOUT_START := 30
  const TIMEOUT_DEADCHECK := 180

  /** The hash of one worker; times are integers, an absent key reads as the empty hash. */
  datatype Info = Info(
    allocatedAt: Option<int>,
    started: bool,
    pid: Option<nat>,
    status: bool,
    checked: Option<int>,
    delete: bool,
    cancelRequest: bool)

  const Absent := Info(None, false, None, false, None, false, false)

  datatype Verdict = NoAllocation | Finished | MarkedDead | NotStarted | Probe | Keep

  /** The if-chain of _cleanup_workers over what hgetall returned. */
  function Decide(info: Info, now: int): Verdict {
    if info.allocatedAt.None? then NoAllocation
    else if info.status then Finished
    else if info.delete then MarkedDead
    else if !info.started then
      if now - info.allocatedAt.value > TIMEOUT_START then NotStarted else Keep
    else
      var checked := if info.checked.Some? then info.checked.value else info.allocatedAt.value;
      if now - checked > TIMEOUT_DEADCHECK then Probe else Keep
  }

  /** The hash says that this allocation has finished. */
  predicate SaysFinished(info: Info) {
    info.status && info.allocatedAt.Some?
  }

  predicate Drops(v: Verdict) {
    v.NoAllocation? || v.Finished? || v.MarkedDead? || v.NotStarted?
  }

  /** A worker to give up: never allocated, ended, marked, or not started within half a minute. */
  predicate Gone(info: Info, now: int) {
    || info.allocatedAt.None?
    || info.status
    || info.delete
    || (!info.started && now > info.allocatedAt.value + 30)
  }

  /** A worker to look for: at work, and not looked for (or else allocated) for three minutes. */
  predicate Overdue(info: Info, now: int) {
    && !Gone(info, now) && info.started
    && (info.checked.Some? ==> now > info.checked.value + 180)
    && (info.checked.None? ==> now > info.allocatedAt.value + 180)
  }

  /** What the if-chain comes to, field by field. */
  lemma DecidesExactly(info: Info, now: int)
    ensures Drops(Decide(info, now)) <==> Gone(info, now)
    ensures Decide(info, now).Finished? <==> SaysFinished(info)
    ensures Decide(info, now).Probe? <==> Overdue(info, now)
    ensures Decide(info, now).Keep? <==> !Gone(info, now) && !Overdue(info, now)
  {
  }

  /** Why and on what evidence the manager gave a worker up. */
  datatype Exit = Exit(
    reason: Verdict,
    seen: Info,          // the hash it judged by
    at: int,             // the time it judged at
    round: nat,          // the cleanup round
    deadRound: Option<nat>,  // the round that found the worker dead and marked the key
    alloc: nat)          // the allocation it ended

  datatype Phase =
    | Idle
    | Judged(seen: Info, at: int, deadRound: Option<nat>)
    | Deleting(exit: Exit)     // about to delete the key
    | Unlisting(exit: Exit)    // about to drop the worker from _tracked_workers
    | Probing                  // wrote 'checked', about to look for the process
    | Marking                  // found it dead, about to write 'delete'

  datatype State = State(
    info: Info,
    tracked: bool,
    phase: Phase,
    now: int,
    round: nat,
    judged: bool,              // this key was visited in this round
    // history
    alloc: nat,                // how often the manager started this worker
    finishCalls: seq<nat>,     // the allocations finish_task() was called for, call by call
    cuts: seq<nat>,            // the allocations of calls after which a restart came before the deletion
    deadRound: Option<nat>,    // the round that wrote the present 'delete' field
    exits: seq<Exit>)

  datatype Action =
    // the manager
    | Tick(d: nat) | Start | NextRound | Judge | Finish | Drop | Delete | Unlist
    | WriteChecked | SeesAlive | SeesDead | Mark | Nothing | Restart
    // the worker
    | WriteStarted | WritePid(p: nat) | WriteStatus | WriteCancel | WorkerDeletes

  /** A manager starts by adopting the worker when its key exists, whatever the key holds. */
  predicate Initial(s: State) {
    && s.tracked == (s.info != Absent)
    && s.phase.Idle? && !s.judged
    && s.finishCalls == [] && s.cuts == [] && s.exits == []
    // a mark that is already there was written by a round of an earlier manager
    && (if s.info.delete then s.deadRound.Some? && s.deadRound.value < s.round else s.deadRound.None?)
  }

  predicate Enabled(s: State, a: Action) {
    match a
    case Start => s.phase.Idle? && !s.tracked
    case NextRound => s.phase.Idle?
    // the key was listed; when it is gone by the time it is read, the hash is empty
    case Judge => s.phase.Idle? && !s.judged
    case Finish => s.phase.Judged? && Decide(s.phase.seen, s.phase.at).Finished?
    case Drop =>
      && s.phase.Judged?
      && Drops(Decide(s.phase.seen, s.phase.at))
      && !Decide(s.phase.seen, s.phase.at).Finished?
    case Delete => s.phase.Deleting?
    case Unlist => s.phase.Unlisting?
    case WriteChecked => s.phase.Judged? && Decide(s.phase.seen, s.phase.at).Probe?
    case SeesAlive => s.phase.Probing?
    case SeesDead => s.phase.Probing?
    case Mark => s.phase.Marking?
    case Nothing => s.phase.Judged? && Decide(s.phase.seen, s.phase.at).Keep?
    case _ => true
  }

  function ExitOf(s: State): Exit
    requires s.phase.Judged?
  {
    Exit(Decide(s.phase.seen, s.phase.at), s.phase.seen, s.phase.at, s.round, s.phase.deadRound, s.alloc)
  }

  /** finish_task() was called, and the key is still there. */
  predicate Finishing(s: State) {
    s.phase.Deleting? && s.phase.exit.reason.Finished?
  }

  function Exits(s: State): seq<Exit> {
    if s.phase.Unlisting? && s.tracked then s.exits + [s.phase.exit] else s.exits
  }

  function Apply(s: State, a: Action): State
    requires Enabled(s, a)
  {
    match a
    case Tick(d) => s.(now := s.now + d)
    case Start => s.(info := s.info.(allocatedAt := Some(s.now)), tracked := true, alloc := s.alloc + 1)
    case NextRound => s.(round := s.round + 1, judged := false)
    case Judge => s.(phase := Judged(s.info, s.now, s.deadRound), judged := true)
    case Finish => s.(phase := Deleting(ExitOf(s)), finishCalls := s.finishCalls + [s.alloc])
    case Drop => s.(phase := Deleting(ExitOf(s)))
    case Delete => s.(phase := Unlisting(s.phase.exit), info := Absent, deadRound := None)
    case Unlist => s.(phase := Idle, tracked := false, exits := Exits(s))
    case WriteChecked => s.(phase := Probing, info := s.info.(checked := Some(s.now)))
    case SeesAlive => s.(phase := Idle)
    case SeesDead => s.(phase := Marking)
    case Mark => s.(phase := Idle, info := s.info.(delete := true), deadRound := Some(s.round))
    case Nothing => s.(phase := Idle)
    // the manager dies, and a new one adopts the worker if its key exists
    case Restart =>
      s.(phase := Idle, round := s.round + 1, judged := false, tracked := s.info != Absent, exits := Exits(s),
         cuts := if Finishing(s) then s.cuts + [s.alloc] else s.cuts)
    case WriteStarted => s.(info := s.info.(started := true))
    case WritePid(p) => s.(info := s.info.(pid := Some(p)))
    case WriteStatus => s.(info := s.info.(status := true))
    case WriteCancel => s.(info := s.info.(cancelRequest := true))
    // the worker found no 'allocated' when it registered
    case WorkerDeletes => s.(info := Absent, deadRound := None)
  }

  ghost predicate Next(s: State, s': State) {
    exists a :: Enabled(s, a) && s' == Apply(s, a)
  }

  ghost predicate StepAt(tr: seq<State>, i: nat)
    requires i + 1 < |tr|
  {
    Next(tr[i], tr[i + 1])
  }

  ghost predicate Run(tr: seq<State>) {
    && |tr| > 0
    && Initial(tr[0])
    && forall i :: 0 <= i < |tr| - 1 ==> StepAt(tr, i)
  }

  // ---------------------------------------------------------------- invariant

  /** The evidence for giving a worker up. */
  predicate Justified(e: Exit, finishCalls: seq<nat>) {
    match e.reason
    case Finished => e.seen.allocatedAt.Some? && e.seen.status && e.alloc in finishCalls
    case NoAllocation => e.seen.allocatedAt.None?
    case NotStarted => e.seen.allocatedAt.Some? && !e.seen.started && !e.seen.status && e.at > e.seen.allocatedAt.value + TIMEOUT_START
    case MarkedDead => e.seen.delete && !e.seen.status && e.deadRound.Some? && e.deadRound.value < e.round
    case _ => false
  }

  predicate PhaseOk(s: State) {
    match s.phase
    case Judged(seen, at, dead) => seen.delete ==> dead.Some? && dead.value < s.round
    case Deleting(e) => Justified(e, s.finishCalls)
    case Unlisting(e) => Justified(e, s.finishCalls) && s.info.allocatedAt.None?
    case _ => true
  }

  predicate DeadOk(s: State) {
    && (s.info.delete ==> s.deadRound.Some?)
    && (s.deadRound.Some? ==> s.deadRound.value <= s.round)
    && (s.deadRound.Some? && s.deadRound.value == s.round ==> s.judged)
    && (s.phase.Probing? || s.phase.Marking? || s.phase.Judged? ==> s.judged)
  }

  function Calls(s: State, alloc: nat): nat {
    multiset(s.finishCalls)[alloc]
  }

  function Cuts(s: State, alloc: nat): nat {
    multiset(s.cuts)[alloc]
  }

  ghost predicate CallsOk(s: State) {
    && (forall n: nat :: Cuts(s, n) <= Calls(s, n) <= Cuts(s, n) + 1)
    && (forall n: nat :: n > s.alloc ==> Calls(s, n) == 0)
  }

  predicate Carried(s: State, k: nat)
    requires k < |s.exits|
  {
    Calls(s, s.exits[k].alloc) == Cuts(s, s.exits[k].alloc) + 1
  }

  ghost predicate FinishOk(s: State) {
    && CallsOk(s)
    && (s.info.allocatedAt.Some? && !Finishing(s) ==> Calls(s, s.alloc) == Cuts(s, s.alloc))
    && (s.phase.Judged? && s.phase.seen.allocatedAt.Some? ==> Calls(s, s.alloc) == Cuts(s, s.alloc))
    && (Finishing(s) ==> Calls(s, s.alloc) == Cuts(s, s.alloc) + 1 && s.phase.exit.alloc == s.alloc)
    && (s.phase.Unlisting? && s.phase.exit.reason.Finished? ==>
          Calls(s, s.phase.exit.alloc) == Cuts(s, s.phase.exit.alloc) + 1)
    && (forall k :: 0 <= k < |s.exits| && s.exits[k].reason.Finished? ==>
          Carried(s, k) && (Finishing(s) ==> s.exits[k].alloc != s.alloc))
  }

  /** A worker that finish_task() was called for keeps its status as long as it keeps its key. */
  predicate StatusOk(s: State) {
    && (Calls(s, s.alloc) > 0 && s.info.allocatedAt.Some? ==> s.info.status)
    && (Calls(s, s.alloc) > 0 && s.phase.Judged? && s.phase.seen.allocatedAt.Some? ==> s.phase.seen.status)
    && (s.phase.Judged? && SaysFinished(s.phase.seen) && s.info.allocatedAt.Some? ==> s.info.status)
  }

  ghost predicate Inv(s: State) {
    && PhaseOk(s) && DeadOk(s) && FinishOk(s) && StatusOk(s)
    && forall k :: 0 <= k < |s.exits| ==> Justified(s.exits[k], s.finishCalls)
  }

  lemma PhaseStep(s: State, a: Action)
    requires Inv(s) && Enabled(s, a)
    ensures PhaseOk(Apply(s, a)) && DeadOk(Apply(s, a))
  {
    assert s.finishCalls <= Apply(s, a).finishCalls;
  }

  lemma CallsStep(s: State, a: Action)
    requires Enabled(s, a)
    ensures var s' := Apply(s, a);
            forall n: nat ::
              && Calls(s', n) == Calls(s, n) + (if a.Finish? && n == s.alloc then 1 else 0)
              && Cuts(s', n) == Cuts(s, n) + (if a.Restart? && Finishing(s) && n == s.alloc then 1 else 0)
  {
  }

  lemma FinishStep(s: State, a: Action)
    requires Inv(s) && Enabled(s, a)
    ensures FinishOk(Apply(s, a))
  {
    hide Justified, DeadOk;
    var s' := Apply(s, a);
    CallsStep(s, a);
    forall k | 0 <= k < |s'.exits| && s'.exits[k].reason.Finished?
      ensures Carried(s', k) && (Finishing(s') ==> s'.exits[k].alloc != s'.alloc)
    {
      if k < |s.exits| {
        assert s'.exits[k] == s.exits[k] && Carried(s, k);
      }
    }
  }

  lemma StatusStep(s: State, a: Action)
    requires Inv(s) && Enabled(s, a)
    ensures StatusOk(Apply(s, a))
  {
    CallsStep(s, a);
  }

  lemma ExitStep(s: State, a: Action)
    requires Inv(s) && Enabled(s, a)
    ensures forall k :: 0 <= k < |Apply(s, a).exits| ==> Justified(Apply(s, a).exits[k], Apply(s, a).finishCalls)
  {
    var s' := Apply(s, a);
    assert s.finishCalls <= s'.finishCalls;
    forall k | 0 <= k < |s'.exits| ensures Justified(s'.exits[k], s'.finishCalls) {
      if k < |s.exits| {
        assert s'.exits[k] == s.exits[k];
      }
    }
  }

  lemma InvStep(s: State, a: Action)
    requires Inv(s) && Enabled(s, a)
    ensures Inv(Apply(s, a))
  {
    PhaseStep(s, a);
    FinishStep(s, a);
    StatusStep(s, a);
    ExitStep(s, a);
  }

  lemma {:induction false} InvAlways(tr: seq<State>, i: nat)
    requires Run(tr) && i < |tr|
    ensures Inv(tr[i])
  {
    if i > 0 {
      InvAlways(tr, i - 1);
      assert StepAt(tr, i - 1);
      var a :| Enabled(tr[i - 1], a) && tr[i] == Apply(tr[i - 1], a);
      InvStep(tr[i - 1], a);
    }
  }

  // ---------------------------------------------------------------- theorems

  /**
   Every worker that ever left _tracked_workers had finish_task() called for this very
   allocation, or had no 'allocated' field, or had not reported 'started' in time, or had been
   found dead in an earlier cleanup round and still had no status when it was looked at again.
   */
  lemma ExitsAreJustified(tr: seq<State>, i: nat, k: nat)
    requires Run(tr) && i < |tr| && k < |tr[i].exits|
    ensures Justified(tr[i].exits[k], tr[i].finishCalls)
  {
    InvAlways(tr, i);
  }

  /**
   The history is complete: a tracked worker disappears only together with such an exit, or when a
   restarted manager does not find its key because the worker has deleted it.
   */
  lemma LeavingIsRecorded(s: State, a: Action)
    requires Enabled(s, a)
    ensures var s' := Apply(s, a);
            && s.exits <= s'.exits && |s'.exits| <= |s.exits| + 1
            && (s.tracked && !s'.tracked ==> |s'.exits| > |s.exits| || (a.Restart? && s.info == Absent))
            && (|s'.exits| > |s.exits| ==> s.tracked && (!s'.tracked || a.Restart?))
  {
  }

  /**
   How often finish_task() is called for one start of the worker: as often as a manager was
   restarted between that call and the deletion of the key, and once more if the call that counts
   was made; so at most once when there is no such restart.
   */
  lemma FinishAtMostOnce(tr: seq<State>, i: nat, alloc: nat)
    requires Run(tr) && i < |tr|
    ensures Cuts(tr[i], alloc) <= Calls(tr[i], alloc) <= Cuts(tr[i], alloc) + 1
    ensures forall k :: 0 <= k < |tr[i].exits| && tr[i].exits[k].reason.Finished? ==> Carried(tr[i], k)
  {
    InvAlways(tr, i);
  }

  /** A step of anybody but the worker deleting its own key. */
  ghost predicate KeepsKey(s: State, s': State) {
    exists a :: Enabled(s, a) && s' == Apply(s, a) && !a.WorkerDeletes?
  }

  ghost predicate KeepsKeyAt(tr: seq<State>, m: nat)
    requires m + 1 < |tr|
  {
    KeepsKey(tr[m], tr[m + 1])
  }

  ghost predicate KeptBetween(tr: seq<State>, i: nat, j: nat)
    requires i <= j < |tr|
  {
    forall m :: i <= m < j ==> KeepsKeyAt(tr, m)
  }

  /** The exit number k is, or is going to be, the finish of allocation `alloc`. */
  predicate Destined(s: State, k: nat, alloc: nat) {
    if |s.exits| > k then s.exits[k].reason.Finished? && s.exits[k].alloc == alloc && alloc in s.finishCalls
    else
      && |s.exits| == k && s.tracked && s.alloc == alloc
      && match s.phase
         case Judged(seen, _, _) => SaysFinished(seen) && SaysFinished(s.info)
         case Deleting(e) =>
           SaysFinished(s.info) && e.reason.Finished? && e.alloc == alloc && alloc in s.finishCalls
         case Unlisting(e) => e.reason.Finished? && e.alloc == alloc && alloc in s.finishCalls
         case _ => SaysFinished(s.info)
  }

  lemma DestinedStep(s: State, s': State, k: nat, alloc: nat)
    requires KeepsKey(s, s') && Destined(s, k, alloc)
    ensures Destined(s', k, alloc)
  {
  }

  lemma {:induction false} DestinedAlong(tr: seq<State>, i: nat, j: nat, k: nat, alloc: nat)
    requires i <= j < |tr| && KeptBetween(tr, i, j) && Destined(tr[i], k, alloc)
    ensures Destined(tr[j], k, alloc)
    decreases j
  {
    if i < j {
      DestinedAlong(tr, i, j - 1, k, alloc);
      assert KeepsKeyAt(tr, j - 1);
      DestinedStep(tr[j - 1], tr[j], k, alloc);
    }
  }

  /**
   Once the status is written while the manager has no reading of the hash in hand, the next exit
   is the finish of this very allocation, whether or not the worker is already marked as dead;
   only the worker deleting its own key can prevent it.
   */
  lemma StatusWinsOverMark(tr: seq<State>, i: nat, j: nat)
    requires i <= j < |tr| && KeptBetween(tr, i, j)
    requires tr[i].tracked && SaysFinished(tr[i].info)
    requires tr[i].phase.Idle? || tr[i].phase.Probing? || tr[i].phase.Marking?
    ensures |tr[j].exits| > |tr[i].exits| ==>
              var e := tr[j].exits[|tr[i].exits|];
              e.reason.Finished? && e.alloc == tr[i].alloc && e.alloc in tr[j].finishCalls
  {
    DestinedAlong(tr, i, j, |tr[i].exits|, tr[i].alloc);
  }

  /** finish_task() was not called for allocation `alloc`, and never will be. */
  predicate Lost(s: State, alloc: nat) {
    && alloc !in s.finishCalls
    && s.alloc >= alloc
    && (s.alloc == alloc ==>
          match s.phase
          case Judged(seen, at, _) => !Decide(seen, at).Finished? && Drops(Decide(seen, at))
          case Deleting(_) => true
          case _ => s.info.allocatedAt.None?)
  }

  /** A restart that forgets a verdict before the key is deleted. */
  predicate Forgets(s: State, a: Action) {
    a.Restart? && (s.phase.Judged? || s.phase.Deleting?)
  }

  ghost predicate RemembersAt(tr: seq<State>, m: nat)
    requires m + 1 < |tr|
  {
    exists a :: Enabled(tr[m], a) && tr[m + 1] == Apply(tr[m], a) && !Forgets(tr[m], a)
  }

  lemma LostStep(s: State, a: Action, alloc: nat)
    requires Enabled(s, a) && !Forgets(s, a) && Lost(s, alloc)
    ensures Lost(Apply(s, a), alloc)
  {
  }

  /**
   The other half: once a reading has decided to drop the worker, a status comes too late, unless a
   restart makes the manager forget the verdict.
   */
  lemma {:induction false} LateStatusIsLost(tr: seq<State>, i: nat, j: nat)
    requires Run(tr) && i <= j < |tr|
    requires tr[i].phase.Judged? && tr[i].phase.seen.allocatedAt.Some?
    requires var v := Decide(tr[i].phase.seen, tr[i].phase.at); Drops(v) && !v.Finished?
    requires forall m :: i <= m < j ==> RemembersAt(tr, m)
    ensures Lost(tr[j], tr[i].alloc) && tr[i].alloc !in tr[j].finishCalls
    decreases j
  {
    if i == j {
      InvAlways(tr, i);
    } else {
      LateStatusIsLost(tr, i, j - 1);
      assert RemembersAt(tr, j - 1);
      var a :| Enabled(tr[j - 1], a) && tr[j] == Apply(tr[j - 1], a) && !Forgets(tr[j - 1], a);
      LostStep(tr[j - 1], a, tr[i].alloc);
    }
  }

  // ---------------------------------------------------------------- a restart between call and deletion

  lemma OneMore(tr: seq<State>, a: Action) returns (tr': seq<State>)
    requires Run(tr) && Enabled(tr[|tr| - 1], a)
    ensures Run(tr') && tr'[|tr'| - 1] == Apply(tr[|tr| - 1], a)
  {
    var s := Apply(tr[|tr| - 1], a);
    tr' := tr + [s];
    assert Next(tr[|tr| - 1], s);
    forall i | 0 <= i < |tr'| - 1 ensures StepAt(tr', i) {
      if i < |tr| - 1 {
        assert StepAt(tr, i);
      }
    }
  }

  /** Whoever is judged finished is judged so again by the manager that comes after a restart. */
  lemma CutShort(tr: seq<State>) returns (tr': seq<State>)
    requires Run(tr)
    requires var s := tr[|tr| - 1]; s.phase.Idle? && !s.judged && SaysFinished(s.info)
    ensures Run(tr')
    ensures var s, s' := tr[|tr| - 1], tr'[|tr'| - 1];
            && s'.phase.Idle? && !s'.judged && s'.info == s.info && s'.tracked && s'.alloc == s.alloc
            && s'.finishCalls == s.finishCalls + [s.alloc] && s'.cuts == s.cuts + [s.alloc]
  {
    tr' := OneMore(tr, Judge);
    tr' := OneMore(tr', Finish);
    tr' := OneMore(tr', Restart);
  }

  /** The failing input: as many restarts as one likes, each of them just after the call of finish_task(). */
  lemma {:induction false} FinishedAgain(n: nat) returns (tr: seq<State>)
    ensures Run(tr) && Calls(tr[|tr| - 1], 1) == n == Cuts(tr[|tr| - 1], 1)
    ensures var s := tr[|tr| - 1]; s.phase.Idle? && !s.judged && SaysFinished(s.info) && s.tracked && s.alloc == 1
  {
    if n == 0 {
      tr := [State(Absent, false, Idle, 0, 0, false, 0, [], [], None, [])];
      tr := OneMore(tr, Start);
      tr := OneMore(tr, WriteStatus);
    } else {
      tr := FinishedAgain(n - 1);
      tr := CutShort(tr);
    }
  }
}
