/**
 The fair Redis lock of common/copr_common/lock.py as a transition system.

 Every Redis command and every kill(pid, 0) is one atomic step of one process; the steps of
 different processes interleave freely.  A process may crash before any of its steps, and an
 exception or a signal may interrupt it anywhere, also inside the `finally` block.

 Each rpush carries a ticket (its position in the log of all rpush calls).  Redis never looks
 at tickets: they only let the theorems below speak about arrival order.
 */
module FairLock {

  type Pid = nat

  /** One element of the Redis list: the pushed pid, and the ticket of that push. */
  datatype Entry = Entry(pid: Pid, ticket: nat)

  /** Where a process is in `Lock.lock()`. */
  datatype Pc =
    | Outside                // not inside lock()
    | Looking                // about to read the head of the list
    | Repushing              // the head was missing, about to push again
    | Probing(head: Pid)     // about to kill(head, 0)
    | Reaping(head: Pid)     // found head dead, about to lrem it
    | Blocking               // in blpop on the own notify key
    | Holding                // inside the yield
    | Releasing              // in `finally`, about to lrem the own entry
    | Peeking                // about to read the new head
    | Notifying(next: Pid)   // about to push a token for next
    | Clearing               // about to delete the own notify key

  datatype State = State(
    queue: seq<Entry>,
    pcs: map<Pid, Pc>,
    dead: set<Pid>,
    tokens: map<Pid, nat>,
    // history, never read by a step
    pushed: seq<Pid>,        // who made the t-th rpush
    left: set<nat>,          // tickets their own process removed in `finally`
    reaped: set<nat>,        // tickets a waiter removed
    entered: seq<nat>,       // tickets of the head entries that admitted a process, in order
    leaky: set<Pid>)         // processes that once skipped the lrem of `finally`

  datatype Action =
    | Push | PushThenLeak | Look | Repush | Probe(foundDead: bool) | Reap | Wake
    | Leave | Interrupt | Release | Peek | Notify | Clear | Abort | Crash

  const Init := State([], map[], {}, map[], [], {}, {}, [], {})

  function PcOf(s: State, p: Pid): Pc {
    if p in s.pcs then s.pcs[p] else Outside
  }

  function TokensOf(s: State, p: Pid): nat {
    if p in s.tokens then s.tokens[p] else 0
  }

  predicate Live(s: State, p: Pid) {
    p !in s.dead
  }

  /** Inside the loop that waits for the head of the list. */
  predicate Waiting(pc: Pc) {
    pc.Looking? || pc.Repushing? || pc.Probing? || pc.Reaping? || pc.Blocking?
  }

  /** After the rpush and before the lrem of `finally`. */
  predicate Queued(pc: Pc) {
    Waiting(pc) || pc.Holding? || pc.Releasing?
  }

  /** A live process inside the critical section. */
  predicate InCs(s: State, p: Pid) {
    Live(s, p) && PcOf(s, p).Holding?
  }

  /** LREM queue 1 p: drop the first entry of p, if any. */
  function Lrem(q: seq<Entry>, p: Pid): (r: seq<Entry>) {
    if q == [] then []
    else if q[0].pid == p then q[1..]
    else [q[0]] + Lrem(q[1..], p)
  }

  /** The tickets removed by LREM queue 1 p. */
  function LremTickets(q: seq<Entry>, p: Pid): set<nat> {
    if q == [] then {}
    else if q[0].pid == p then {q[0].ticket}
    else LremTickets(q[1..], p)
  }

  /** The position of the first entry of p, |q| if there is none. */
  function Index(q: seq<Entry>, p: Pid): nat {
    if q == [] || q[0].pid == p then 0 else 1 + Index(q[1..], p)
  }

  function Count(q: seq<Entry>, p: Pid): nat {
    if q == [] then 0 else (if q[0].pid == p then 1 else 0) + Count(q[1..], p)
  }

  predicate Enabled(s: State, p: Pid, a: Action) {
    var pc := PcOf(s, p);
    && Live(s, p)
    && match a
       case Push => pc.Outside?
       case PushThenLeak => pc.Outside?
       case Look => pc.Looking?
       case Repush => pc.Repushing?
       case Probe(foundDead) => pc.Probing? && (foundDead ==> pc.head in s.dead)
       case Reap => pc.Reaping?
       case Wake => pc.Blocking?
       case Leave => pc.Holding?
       case Interrupt => Waiting(pc) || pc.Holding?
       case Release => pc.Releasing?
       case Peek => pc.Peeking?
       case Notify => pc.Notifying?
       case Clear => pc.Clearing?
       case Abort => pc.Releasing? || pc.Peeking? || pc.Notifying? || pc.Clearing?
       case Crash => true
  }

  function AfterPush(s: State, p: Pid): State {
    s.(queue := s.queue + [Entry(p, |s.pushed|)], pushed := s.pushed + [p])
  }

  function Goto(s: State, p: Pid, pc: Pc): State {
    s.(pcs := s.pcs[p := pc])
  }

  /** The read of the head and the branch on it. */
  function AfterLook(s: State, p: Pid): State {
    if s.queue == [] then Goto(s, p, Repushing)
    else if s.queue[0].pid == p then Goto(s, p, Holding).(entered := s.entered + [s.queue[0].ticket])
    else Goto(s, p, Probing(s.queue[0].pid))
  }

  function Apply(s: State, p: Pid, a: Action): State
    requires Enabled(s, p, a)
  {
    match a
    case Push => Goto(AfterPush(s, p), p, Looking)
    // the push reached Redis, but the caller never got into the try block
    case PushThenLeak => AfterPush(s, p).(leaky := s.leaky + {p})
    case Look => AfterLook(s, p)
    case Repush => Goto(AfterPush(s, p), p, Looking)
    case Probe(foundDead) => Goto(s, p, if foundDead then Reaping(PcOf(s, p).head) else Blocking)
    case Reap =>
      var h := PcOf(s, p).head;
      Goto(s, p, Looking).(queue := Lrem(s.queue, h), reaped := s.reaped + LremTickets(s.queue, h))
    // blpop returns with a token if there is one, else by its timeout
    case Wake =>
      var n := TokensOf(s, p);
      Goto(s, p, Looking).(tokens := s.tokens[p := if n > 0 then n - 1 else 0])
    case Leave => Goto(s, p, Releasing)
    case Interrupt => Goto(s, p, Releasing)
    case Release =>
      Goto(s, p, Peeking).(queue := Lrem(s.queue, p), left := s.left + LremTickets(s.queue, p))
    case Peek => Goto(s, p, if s.queue == [] then Clearing else Notifying(s.queue[0].pid))
    case Notify =>
      var next := PcOf(s, p).next;
      Goto(s, p, Clearing).(tokens := s.tokens[next := TokensOf(s, next) + 1])
    case Clear => Goto(s, p, Outside).(tokens := s.tokens - {p})
    case Abort => Goto(s, p, Outside).(leaky := if PcOf(s, p).Releasing? then s.leaky + {p} else s.leaky)
    case Crash => s.(dead := s.dead + {p})
  }

  ghost predicate Next(s: State, s': State) {
    exists p, a :: Enabled(s, p, a) && s' == Apply(s, p, a)
  }

  ghost predicate StepAt(tr: seq<State>, i: nat)
    requires i + 1 < |tr|
  {
    Next(tr[i], tr[i + 1])
  }

  /** A run: any finite interleaving from the empty list. */
  ghost predicate Run(tr: seq<State>) {
    && |tr| > 0
    && tr[0] == Init
    && forall i :: 0 <= i < |tr| - 1 ==> StepAt(tr, i)
  }

  // ---------------------------------------------------------------- invariant

  predicate TicketsOk(s: State) {
    && (forall i, j :: 0 <= i < j < |s.queue| ==> s.queue[i].ticket < s.queue[j].ticket)
    && (forall i :: 0 <= i < |s.queue| ==>
          s.queue[i].ticket < |s.pushed| && s.pushed[s.queue[i].ticket] == s.queue[i].pid)
  }

  predicate InQueue(q: seq<Entry>, t: nat) {
    exists i :: 0 <= i < |q| && q[i].ticket == t
  }

  predicate HistoryOk(s: State) {
    && (forall t :: 0 <= t < |s.pushed| ==> InQueue(s.queue, t) || t in s.left || t in s.reaped)
    && (forall t :: t in s.reaped ==> t < |s.pushed| && s.pushed[t] in s.dead)
  }

  /** What a process knows at its place in the code. */
  ghost predicate ProcessOk(s: State, p: Pid) {
    var pc := PcOf(s, p);
    && (pc.Holding? ==> s.queue != [] && s.queue[0].pid == p)
    && (pc.Reaping? ==> pc.head in s.dead)
    && (pc.Probing? ==> pc.head != p)
    && !pc.Repushing?
    && (Queued(pc) ==> Count(s.queue, p) > 0)
    && (p !in s.leaky ==> Count(s.queue, p) == if Queued(pc) then 1 else 0)
  }

  ghost predicate ProcessesOk(s: State) {
    forall p | Live(s, p) :: ProcessOk(s, p)
  }

  predicate EnteredOk(s: State) {
    && (forall i :: 0 <= i < |s.entered| ==> s.entered[i] < |s.pushed|)
    && (forall i, j :: 0 <= i < j < |s.entered| ==> s.entered[i] <= s.entered[j])
    && (forall i, j :: 0 <= i < |s.entered| && 0 <= j < |s.queue| ==> s.entered[i] <= s.queue[j].ticket)
  }

  /** An entry that admitted its process stays only until that process has left. */
  predicate AdmittedOk(s: State)
    requires EnteredOk(s)
  {
    && (forall j :: 0 <= j < |s.queue| && s.queue[j].ticket in s.entered ==>
          var p := s.queue[j].pid;
          !Live(s, p) || p in s.leaky || PcOf(s, p).Holding? || PcOf(s, p).Releasing?)
    && (forall i, j :: 0 <= i < j < |s.entered| && s.entered[i] == s.entered[j] ==>
          s.pushed[s.entered[i]] in s.leaky)
  }

  ghost predicate Inv(s: State) {
    TicketsOk(s) && HistoryOk(s) && ProcessesOk(s) && EnteredOk(s) && AdmittedOk(s)
  }

  // ---------------------------------------------------------------- list facts

  lemma {:induction false} CountAppend(q: seq<Entry>, e: Entry, p: Pid)
    ensures Count(q + [e], p) == Count(q, p) + if e.pid == p then 1 else 0
  {
    if q == [] {
      assert q + [e] == [e];
    } else {
      assert (q + [e])[1..] == q[1..] + [e];
      CountAppend(q[1..], e, p);
    }
  }

  lemma {:induction false} CountLrem(q: seq<Entry>, p: Pid, r: Pid)
    ensures Count(Lrem(q, p), r) == if p == r && Count(q, p) > 0 then Count(q, r) - 1 else Count(q, r)
  {
    if q != [] && q[0].pid != p {
      assert ([q[0]] + Lrem(q[1..], p))[1..] == Lrem(q[1..], p);
      CountLrem(q[1..], p, r);
    }
  }

  lemma {:induction false} CountHead(q: seq<Entry>, p: Pid)
    ensures Count(q, p) > 0 <==> exists i :: 0 <= i < |q| && q[i].pid == p
  {
    if q != [] {
      CountHead(q[1..], p);
      if i :| 0 <= i < |q| && q[i].pid == p && i > 0 {
        assert q[1..][i - 1] == q[i];
      }
      if i :| 0 <= i < |q[1..]| && q[1..][i].pid == p {
        assert q[i + 1].pid == p;
      }
    }
  }

  /** LREM drops one position at most: the first one that belongs to p. */
  lemma {:induction false} LremShape(q: seq<Entry>, p: Pid)
    ensures var k := Index(q, p);
            && k <= |q|
            && (forall i :: 0 <= i < k ==> q[i].pid != p)
            && (k == |q| ==> Lrem(q, p) == q && LremTickets(q, p) == {})
            && (k < |q| ==>
                  && q[k].pid == p
                  && LremTickets(q, p) == {q[k].ticket}
                  && |Lrem(q, p)| == |q| - 1
                  && forall j :: 0 <= j < |q| - 1 ==> Lrem(q, p)[j] == q[if j < k then j else j + 1])
  {
    if q != [] && q[0].pid != p {
      LremShape(q[1..], p);
      assert q == [q[0]] + q[1..];
      forall i | 0 <= i < Index(q, p) ensures q[i].pid != p {
        if i > 0 { assert q[i] == q[1..][i - 1]; }
      }
    }
  }

  // ---------------------------------------------------------------- the invariant is inductive

  lemma TicketsLrem(s: State, p: Pid, s': State)
    requires TicketsOk(s) && s'.queue == Lrem(s.queue, p) && s'.pushed == s.pushed
    ensures TicketsOk(s')
  {
    LremShape(s.queue, p);
    var k := Index(s.queue, p);
    forall i, j | 0 <= i < j < |s'.queue| ensures s'.queue[i].ticket < s'.queue[j].ticket {
      if k < |s.queue| {
        assert s'.queue[i] == s.queue[if i < k then i else i + 1];
        assert s'.queue[j] == s.queue[if j < k then j else j + 1];
      }
    }
  }

  lemma TicketsStep(s: State, p: Pid, a: Action)
    requires TicketsOk(s) && Enabled(s, p, a)
    ensures TicketsOk(Apply(s, p, a))
  {
    if a.Reap? {
      TicketsLrem(s, PcOf(s, p).head, Apply(s, p, a));
    } else if a.Release? {
      TicketsLrem(s, p, Apply(s, p, a));
    }
  }

  lemma LremKeepsOthers(q: seq<Entry>, p: Pid, t: nat)
    requires InQueue(q, t)
    ensures InQueue(Lrem(q, p), t) || t in LremTickets(q, p)
  {
    LremShape(q, p);
    var k := Index(q, p);
    var i :| 0 <= i < |q| && q[i].ticket == t;
    if i < k {
      assert Lrem(q, p)[i].ticket == t;
    } else if i > k {
      assert Lrem(q, p)[i - 1].ticket == t;
    }
  }

  lemma LremTicketsOwned(s: State, p: Pid, t: nat)
    requires TicketsOk(s) && t in LremTickets(s.queue, p)
    ensures t < |s.pushed| && s.pushed[t] == p
  {
    LremShape(s.queue, p);
  }

  lemma HistoryStep(s: State, p: Pid, a: Action)
    requires Inv(s) && Enabled(s, p, a)
    ensures HistoryOk(Apply(s, p, a))
  {
    var s' := Apply(s, p, a);
    forall t | 0 <= t < |s'.pushed| ensures InQueue(s'.queue, t) || t in s'.left || t in s'.reaped {
      if t == |s.pushed| {
        assert s'.queue[|s.queue|].ticket == t;
      } else if InQueue(s.queue, t) {
        if a.Reap? {
          LremKeepsOthers(s.queue, PcOf(s, p).head, t);
        } else if a.Release? {
          LremKeepsOthers(s.queue, p, t);
        } else {
          var i :| 0 <= i < |s.queue| && s.queue[i].ticket == t;
          assert s'.queue[i].ticket == t;
        }
      }
    }
    forall t | t in s'.reaped ensures t < |s'.pushed| && s'.pushed[t] in s'.dead {
      if t !in s.reaped {
        assert ProcessOk(s, p);
        LremTicketsOwned(s, PcOf(s, p).head, t);
      }
    }
  }

  /** A step moves nobody but its own process. */
  lemma Frame(s: State, p: Pid, a: Action, q: Pid)
    requires Enabled(s, p, a) && p != q
    ensures PcOf(Apply(s, p, a), q) == PcOf(s, q) && Live(Apply(s, p, a), q) == Live(s, q)
  {
  }

  /** The step of p as seen by any live process r (p included). */
  lemma ProcessStep(s: State, p: Pid, a: Action, r: Pid)
    requires Inv(s) && Enabled(s, p, a)
    requires Live(Apply(s, p, a), r)
    ensures ProcessOk(Apply(s, p, a), r)
  {
    assert ProcessOk(s, p) && ProcessOk(s, r);
    match a {
      case Push => CountAppend(s.queue, Entry(p, |s.pushed|), r);
      case PushThenLeak => CountAppend(s.queue, Entry(p, |s.pushed|), r);
      case Reap => CountLrem(s.queue, PcOf(s, p).head, r);
      case Release => CountLrem(s.queue, p, r);
      case _ =>
    }
  }

  lemma EnteredLrem(s: State, p: Pid, s': State)
    requires EnteredOk(s) && s'.queue == Lrem(s.queue, p) && s'.pushed == s.pushed && s'.entered == s.entered
    ensures EnteredOk(s')
  {
    LremShape(s.queue, p);
    var k := Index(s.queue, p);
    forall i, j | 0 <= i < |s'.entered| && 0 <= j < |s'.queue| ensures s'.entered[i] <= s'.queue[j].ticket {
      if k < |s.queue| {
        assert s'.queue[j] == s.queue[if j < k then j else j + 1];
      }
    }
  }

  lemma EnteredStep(s: State, p: Pid, a: Action)
    requires Inv(s) && Enabled(s, p, a)
    ensures EnteredOk(Apply(s, p, a))
  {
    if a.Reap? {
      EnteredLrem(s, PcOf(s, p).head, Apply(s, p, a));
    } else if a.Release? {
      EnteredLrem(s, p, Apply(s, p, a));
    }
  }

  lemma CountPositive(q: seq<Entry>, j: nat)
    requires j < |q|
    ensures Count(q, q[j].pid) > 0
  {
    CountHead(q, q[j].pid);
  }

  /** Where an entry of the list after a step was before it; |s.queue| for a new one. */
  lemma EntryBefore(s: State, p: Pid, a: Action, j: nat) returns (i: nat)
    requires Enabled(s, p, a) && j < |Apply(s, p, a).queue|
    ensures i <= |s.queue|
    ensures i < |s.queue| ==> Apply(s, p, a).queue[j] == s.queue[i]
    ensures i == |s.queue| ==> Apply(s, p, a).queue[j].ticket == |s.pushed|
  {
    if a.Reap? || a.Release? {
      var h := if a.Reap? then PcOf(s, p).head else p;
      LremShape(s.queue, h);
      i := if j < Index(s.queue, h) then j else j + 1;
    } else {
      i := j;
    }
  }

  lemma AdmittedEntryStep(s: State, p: Pid, a: Action, j: nat)
    requires Inv(s) && Enabled(s, p, a)
    requires ProcessesOk(Apply(s, p, a))
    requires j < |Apply(s, p, a).queue| && Apply(s, p, a).queue[j].ticket in Apply(s, p, a).entered
    ensures var s' := Apply(s, p, a);
            var r := s'.queue[j].pid;
            !Live(s', r) || r in s'.leaky || PcOf(s', r).Holding? || PcOf(s', r).Releasing?
  {
    var s' := Apply(s, p, a);
    var r := s'.queue[j].pid;
    var i := EntryBefore(s, p, a, j);
    if Live(s', r) {
      assert ProcessOk(s', r) && ProcessOk(s, p);
      CountPositive(s'.queue, j);
      if i < |s.queue| && s.queue[i].ticket !in s.entered {
        assert a.Look? && s'.queue[j].ticket == s.queue[0].ticket;
        assert i == 0;
      }
    }
  }

  lemma AdmittedStep(s: State, p: Pid, a: Action)
    requires Inv(s) && Enabled(s, p, a) && EnteredOk(Apply(s, p, a))
    requires ProcessesOk(Apply(s, p, a))
    ensures AdmittedOk(Apply(s, p, a))
  {
    var s' := Apply(s, p, a);
    forall j | 0 <= j < |s'.queue| && s'.queue[j].ticket in s'.entered
      ensures var r := s'.queue[j].pid;
              !Live(s', r) || r in s'.leaky || PcOf(s', r).Holding? || PcOf(s', r).Releasing?
    {
      AdmittedEntryStep(s, p, a, j);
    }
  }

  lemma InvStep(s: State, p: Pid, a: Action)
    requires Inv(s) && Enabled(s, p, a)
    ensures Inv(Apply(s, p, a))
  {
    TicketsStep(s, p, a);
    HistoryStep(s, p, a);
    forall r | Live(Apply(s, p, a), r) ensures ProcessOk(Apply(s, p, a), r) {
      ProcessStep(s, p, a, r);
    }
    EnteredStep(s, p, a);
    AdmittedStep(s, p, a);
  }

  lemma {:induction false} InvAlways(tr: seq<State>, i: nat)
    requires Run(tr) && i < |tr|
    ensures Inv(tr[i])
  {
    if i > 0 {
      InvAlways(tr, i - 1);
      assert StepAt(tr, i - 1);
      var p, a :| Enabled(tr[i - 1], p, a) && tr[i] == Apply(tr[i - 1], p, a);
      InvStep(tr[i - 1], p, a);
    }
  }

  // ---------------------------------------------------------------- theorems

  /** At most one live process is inside the yield, whoever crashed or was interrupted where. */
  lemma MutualExclusion(tr: seq<State>, i: nat, p: Pid, q: Pid)
    requires Run(tr) && i < |tr|
    requires InCs(tr[i], p) && InCs(tr[i], q)
    ensures p == q
  {
    InvAlways(tr, i);
    assert ProcessOk(tr[i], p) && ProcessOk(tr[i], q);
  }

  /**
   What a live process can rely on at every point: inside the yield it is the head of the list;
   a live process it could take for dead does not exist; the list always has its entry while it
   is between its rpush and its lrem, and has it once unless its own `finally` was once cut short;
   and the head is never missing, so the second rpush is never reached.
   */
  lemma ProcessView(tr: seq<State>, i: nat, p: Pid)
    requires Run(tr) && i < |tr| && Live(tr[i], p)
    ensures InCs(tr[i], p) ==> tr[i].queue != [] && tr[i].queue[0].pid == p
    ensures PcOf(tr[i], p).Reaping? ==> !Live(tr[i], PcOf(tr[i], p).head)
    ensures Queued(PcOf(tr[i], p)) ==> Count(tr[i].queue, p) >= 1
    ensures p !in tr[i].leaky ==> Count(tr[i].queue, p) == if Queued(PcOf(tr[i], p)) then 1 else 0
    ensures !PcOf(tr[i], p).Repushing?
  {
    InvAlways(tr, i);
    assert ProcessOk(tr[i], p);
  }

  /**
   First come, first served: when p is inside, every push that came before the push that
   admitted p was either withdrawn by its own process or belongs to a dead process.
   */
  lemma NobodyOvertaken(tr: seq<State>, i: nat, p: Pid)
    requires Run(tr) && i < |tr| && InCs(tr[i], p)
    ensures var s := tr[i];
            && s.queue != []
            && s.queue[0].pid == p
            && s.queue[0].ticket < |s.pushed|
            && forall t :: 0 <= t < s.queue[0].ticket ==> t in s.left || (t in s.reaped && s.pushed[t] in s.dead)
  {
    InvAlways(tr, i);
    assert ProcessOk(tr[i], p);
    forall t | 0 <= t < tr[i].queue[0].ticket ensures !InQueue(tr[i].queue, t) {
    }
  }

  /**
   Processes are admitted in the order of their pushes, each push at most once: a second
   admission by the same push needs a `finally` that was cut short before its lrem.
   */
  lemma AdmittedInOrder(tr: seq<State>, i: nat, m: nat, n: nat)
    requires Run(tr) && i < |tr| && m < n < |tr[i].entered|
    ensures tr[i].entered[m] <= tr[i].entered[n] < |tr[i].pushed|
    ensures tr[i].entered[m] == tr[i].entered[n] ==> tr[i].pushed[tr[i].entered[m]] in tr[i].leaky
  {
    InvAlways(tr, i);
  }

  // ---------------------------------------------------------------- progress

  datatype Outcome = Stuck | Reached(state: State)

  /** The state after a schedule, or Stuck when one of its steps was not possible. */
  function Exec(s: State, sched: seq<(Pid, Action)>): Outcome
    decreases |sched|
  {
    if sched == [] then Reached(s)
    else if Enabled(s, sched[0].0, sched[0].1) then Exec(Apply(s, sched[0].0, sched[0].1), sched[1..])
    else Stuck
  }

  predicate AheadDead(s: State, p: Pid) {
    forall i :: 0 <= i < Index(s.queue, p) <= |s.queue| ==> s.queue[i].pid in s.dead
  }

  /** The next action of a waiting process whose probe answers truthfully. */
  function OwnAction(s: State, p: Pid): Action
    requires Waiting(PcOf(s, p))
  {
    match PcOf(s, p)
    case Looking => Look
    case Repushing => Repush
    case Probing(h) => Probe(h in s.dead)
    case Reaping(_) => Reap
    case Blocking => Wake
  }

  /** Six times the queue position, plus a bonus for the place in the loop. */
  function Rank(s: State, p: Pid): nat {
    var seen := s.queue != [] && (PcOf(s, p).Probing? || PcOf(s, p).Reaping?) && s.queue[0].pid == PcOf(s, p).head;
    6 * Index(s.queue, p) + match PcOf(s, p)
    case Looking => 3
    case Probing(_) => if seen then 2 else 6
    case Reaping(_) => if seen then 1 else 5
    case Blocking => 4
    case _ => 0
  }

  lemma {:induction false} IndexInside(q: seq<Entry>, p: Pid)
    requires Count(q, p) > 0
    ensures Index(q, p) < |q|
  {
    if q[0].pid != p {
      IndexInside(q[1..], p);
    }
  }

  lemma {:induction false} IndexAppend(q: seq<Entry>, e: Entry, p: Pid)
    requires Count(q, p) > 0
    ensures Index(q + [e], p) == Index(q, p)
  {
    if q[0].pid != p {
      assert (q + [e])[1..] == q[1..] + [e];
      IndexAppend(q[1..], e, p);
    }
  }

  lemma {:induction false} IndexLrem(q: seq<Entry>, h: Pid, p: Pid)
    requires h != p
    ensures Index(Lrem(q, h), p) == if Index(q, h) < Index(q, p) then Index(q, p) - 1 else Index(q, p)
  {
    if q != [] && q[0].pid != h {
      assert ([q[0]] + Lrem(q[1..], h))[1..] == Lrem(q[1..], h);
      IndexLrem(q[1..], h, p);
    }
  }

  lemma OwnStepRanks(s: State, p: Pid)
    requires Inv(s) && Live(s, p) && Waiting(PcOf(s, p)) && AheadDead(s, p)
    ensures var s' := Apply(s, p, OwnAction(s, p));
            && Inv(s')
            && Live(s', p)
            && (PcOf(s', p).Holding? || (Waiting(PcOf(s', p)) && AheadDead(s', p) && Rank(s', p) < Rank(s, p)))
  {
    assert ProcessOk(s, p);
    var s' := Apply(s, p, OwnAction(s, p));
    InvStep(s, p, OwnAction(s, p));
    assert ProcessOk(s', p);
    IndexInside(s.queue, p);
    if PcOf(s, p).Reaping? {
      var h := PcOf(s, p).head;
      IndexLrem(s.queue, h, p);
      LremShape(s.queue, h);
      AheadDeadLrem(s, h, s', p);
    }
  }

  /** Entries ahead of p that are dead stay dead, and none is added, when another entry is removed. */
  lemma AheadDeadLrem(s: State, h: Pid, s': State, p: Pid)
    requires AheadDead(s, p) && h != p && s'.queue == Lrem(s.queue, h) && s.dead <= s'.dead
    ensures AheadDead(s', p)
  {
    LremShape(s.queue, h);
    LremShape(s.queue, p);
    IndexLrem(s.queue, h, p);
    forall i | 0 <= i < Index(s'.queue, p) <= |s'.queue| ensures s'.queue[i].pid in s'.dead {
      if Index(s.queue, h) < |s.queue| {
        assert s'.queue[i] == s.queue[if i < Index(s.queue, h) then i else i + 1];
      }
    }
  }

  /** Whatever another process does, a waiting p keeps its place and what is ahead of it stays dead. */
  lemma OtherStepRanks(s: State, r: Pid, a: Action, p: Pid)
    requires Inv(s) && Live(s, p) && Waiting(PcOf(s, p)) && AheadDead(s, p)
    requires Enabled(s, r, a) && r != p
    ensures var s' := Apply(s, r, a);
            && Inv(s') && Live(s', p) && PcOf(s', p) == PcOf(s, p)
            && AheadDead(s', p) && Rank(s', p) <= Rank(s, p)
  {
    assert ProcessOk(s, p) && ProcessOk(s, r);
    var s' := Apply(s, r, a);
    InvStep(s, r, a);
    Frame(s, r, a, p);
    IndexInside(s.queue, p);
    match a {
      case Push => IndexAppend(s.queue, Entry(r, |s.pushed|), p);
      case PushThenLeak => IndexAppend(s.queue, Entry(r, |s.pushed|), p);
      case Reap =>
        AheadDeadLrem(s, PcOf(s, r).head, s', p);
        RankLrem(s, PcOf(s, r).head, s', p);
      case Release =>
        AheadDeadLrem(s, r, s', p);
        RankLrem(s, r, s', p);
      case _ =>
    }
  }

  lemma RankLrem(s: State, h: Pid, s': State, p: Pid)
    requires h != p && s'.queue == Lrem(s.queue, h) && PcOf(s', p) == PcOf(s, p)
    requires Waiting(PcOf(s, p)) && Index(s.queue, p) < |s.queue|
    ensures Rank(s', p) <= Rank(s, p)
  {
    LremShape(s.queue, h);
    LremShape(s.queue, p);
    IndexLrem(s.queue, h, p);
  }

  /** Everybody else moves at will; p, as long as it waits, takes its truthful steps. */
  predicate Cooperative(s: State, p: Pid, sched: seq<(Pid, Action)>)
    decreases |sched|
  {
    sched != [] ==>
      && Enabled(s, sched[0].0, sched[0].1)
      && (sched[0].0 == p && Waiting(PcOf(s, p)) ==> sched[0].1 == OwnAction(s, p))
      && Cooperative(Apply(s, sched[0].0, sched[0].1), p, sched[1..])
  }

  function OwnSteps(sched: seq<(Pid, Action)>, p: Pid): nat {
    if sched == [] then 0 else (if sched[0].0 == p then 1 else 0) + OwnSteps(sched[1..], p)
  }

  /**
   Once everything ahead of a waiting process is dead, nothing the others do can keep it out: in
   every interleaving that gives it as many steps of its own as its rank says, it is inside at
   some point, here after the first k steps.
   */
  lemma {:induction false} DeadAheadIsNoObstacle(s: State, p: Pid, sched: seq<(Pid, Action)>) returns (k: nat)
    requires Inv(s) && Live(s, p) && Waiting(PcOf(s, p)) && AheadDead(s, p)
    requires Cooperative(s, p, sched) && OwnSteps(sched, p) >= Rank(s, p)
    ensures k <= |sched| && Exec(s, sched[..k]).Reached? && InCs(Exec(s, sched[..k]).state, p)
    decreases |sched|
  {
    assert ProcessOk(s, p);
    var r, a, rest := sched[0].0, sched[0].1, sched[1..];
    var s' := Apply(s, r, a);
    if r == p {
      OwnStepRanks(s, p);
    } else {
      OtherStepRanks(s, r, a, p);
    }
    if PcOf(s', p).Holding? {
      k := 1;
      assert sched[..1] == [sched[0]];
      assert Exec(s', []).Reached?;
    } else {
      var j := DeadAheadIsNoObstacle(s', p, rest);
      k := j + 1;
      assert sched[..k][1..] == rest[..j];
    }
  }

  // ---------------------------------------------------------------- hand-over

  /** The live processes with an entry ahead of p. */
  function LiveAhead(s: State, p: Pid): set<Pid> {
    set i | 0 <= i < |s.queue| && i < Index(s.queue, p) && s.queue[i].pid !in s.dead :: s.queue[i].pid
  }

  /** A step with which a process is out of the way: it dies, or it takes its only entry back. */
  predicate Yields(s: State, r: Pid, a: Action) {
    a.Crash? || (a.Release? && r !in s.leaky)
  }

  /** When another entry is removed, whoever is ahead of p was so before. */
  lemma LiveAheadLrem(s: State, h: Pid, s': State, p: Pid)
    requires h != p && s'.queue == Lrem(s.queue, h) && s'.dead == s.dead
    ensures LiveAhead(s', p) <= LiveAhead(s, p) && Index(s'.queue, p) <= Index(s.queue, p)
  {
    LremShape(s.queue, h);
    IndexLrem(s.queue, h, p);
    var k := Index(s.queue, h);
    forall i | 0 <= i < |s'.queue| && i < Index(s'.queue, p) && s'.queue[i].pid !in s'.dead
      ensures s'.queue[i].pid in LiveAhead(s, p)
    {
      if k < |s.queue| {
        assert s'.queue[i] == s.queue[if i < k then i else i + 1];
      }
    }
  }

  lemma LiveAheadPush(s: State, e: Entry, s': State, p: Pid)
    requires Count(s.queue, p) > 0 && s'.queue == s.queue + [e] && s'.dead == s.dead
    ensures LiveAhead(s', p) == LiveAhead(s, p) && Index(s'.queue, p) == Index(s.queue, p)
  {
    IndexInside(s.queue, p);
    IndexAppend(s.queue, e, p);
    assert forall i :: 0 <= i < |s.queue| ==> s'.queue[i] == s.queue[i];
  }

  /** Nobody gets ahead of a waiting p, and who yields is no longer ahead of it. */
  lemma LiveAheadStep(s: State, r: Pid, a: Action, p: Pid)
    requires Inv(s) && Live(s, p) && Waiting(PcOf(s, p)) && Enabled(s, r, a)
    requires r == p ==> a == OwnAction(s, p)
    ensures var s' := Apply(s, r, a);
            && LiveAhead(s', p) <= LiveAhead(s, p) && Index(s'.queue, p) <= Index(s.queue, p)
            && (Yields(s, r, a) ==> r !in LiveAhead(s', p))
  {
    assert ProcessOk(s, p) && ProcessOk(s, r);
    var s' := Apply(s, r, a);
    match a {
      case Push => LiveAheadPush(s, Entry(r, |s.pushed|), s', p);
      case PushThenLeak => LiveAheadPush(s, Entry(r, |s.pushed|), s', p);
      case Reap => LiveAheadLrem(s, PcOf(s, r).head, s', p);
      case Release =>
        LiveAheadLrem(s, r, s', p);
        CountLrem(s.queue, r, r);
        CountHead(s'.queue, r);
      case _ =>
    }
  }

  /** A waiting process that takes its own truthful steps goes on waiting, or is inside. */
  lemma WaitsOn(s: State, r: Pid, a: Action, p: Pid)
    requires Inv(s) && Live(s, p) && Waiting(PcOf(s, p)) && Enabled(s, r, a)
    requires r == p ==> a == OwnAction(s, p)
    ensures var s' := Apply(s, r, a);
            Inv(s') && Live(s', p) && (PcOf(s', p).Holding? || Waiting(PcOf(s', p)))
  {
    InvStep(s, r, a);
    if r != p {
      Frame(s, r, a, p);
    }
  }

  /** In the course of this schedule, r yields. */
  predicate YieldsDuring(s: State, r: Pid, sched: seq<(Pid, Action)>)
    decreases |sched|
  {
    && sched != []
    && Enabled(s, sched[0].0, sched[0].1)
    && ((sched[0].0 == r && Yields(s, r, sched[0].1))
        || YieldsDuring(Apply(s, sched[0].0, sched[0].1), r, sched[1..]))
  }

  lemma NobodyAhead(s: State, p: Pid)
    ensures LiveAhead(s, p) == {} ==> AheadDead(s, p)
  {
    if !AheadDead(s, p) {
      var i :| 0 <= i < Index(s.queue, p) <= |s.queue| && s.queue[i].pid !in s.dead;
      assert s.queue[i].pid in LiveAhead(s, p);
    }
  }

  /**
   The lock is handed on: if everybody alive ahead of a waiting process yields in the first m steps
   of an interleaving, and the process gets enough steps of its own after them, then it is inside
   at some point, here after the first k steps.  It takes no more steps than six for each place in
   the list, and six.
   */
  lemma {:induction false} HandedOn(s: State, p: Pid, sched: seq<(Pid, Action)>, m: nat) returns (k: nat)
    requires Inv(s) && Live(s, p) && Waiting(PcOf(s, p)) && m <= |sched| && Cooperative(s, p, sched)
    requires forall r :: r in LiveAhead(s, p) ==> YieldsDuring(s, r, sched[..m])
    requires OwnSteps(sched[m..], p) >= 6 * Index(s.queue, p) + 6
    ensures k <= |sched| && Exec(s, sched[..k]).Reached? && InCs(Exec(s, sched[..k]).state, p)
    decreases m
  {
    if m == 0 {
      NobodyAhead(s, p);
      assert sched[0..] == sched;
      k := DeadAheadIsNoObstacle(s, p, sched);
    } else {
      var r, a, rest := sched[0].0, sched[0].1, sched[1..];
      var s' := Apply(s, r, a);
      LiveAheadStep(s, r, a, p);
      WaitsOn(s, r, a, p);
      if PcOf(s', p).Holding? {
        k := 1;
        assert sched[..1] == [sched[0]];
        assert Exec(s', []).Reached?;
      } else {
        assert sched[..m][1..] == rest[..m - 1] && sched[m..] == rest[m - 1..];
        var j := HandedOn(s', p, rest, m - 1);
        k := j + 1;
        assert sched[..k][1..] == rest[..j];
      }
    }
  }

  // ---------------------------------------------------------------- an entry left behind

  /** Only its own process takes the entry of a live process off the list. */
  lemma EntryStays(s: State, r: Pid, a: Action, e: Entry)
    requires Inv(s) && Enabled(s, r, a) && e in s.queue && Live(s, e.pid)
    requires !(r == e.pid && a.Release?)
    ensures e in Apply(s, r, a).queue
  {
    var s' := Apply(s, r, a);
    var i :| 0 <= i < |s.queue| && s.queue[i] == e;
    if a.Reap? || a.Release? {
      var h := if a.Reap? then PcOf(s, r).head else r;
      assert ProcessOk(s, r);
      LremShape(s.queue, h);
      assert s'.queue[if i < Index(s.queue, h) then i else i - 1] == e;
    } else {
      assert s'.queue[i] == e;
    }
  }

  /** All entries of p are behind this one. */
  predicate Behind(s: State, p: Pid, e: Entry) {
    forall i :: 0 <= i < |s.queue| && s.queue[i].pid == p ==> e.ticket < s.queue[i].ticket
  }

  lemma BehindStays(s: State, r: Pid, a: Action, p: Pid, e: Entry)
    requires Inv(s) && Enabled(s, r, a) && e in s.queue && Behind(s, p, e)
    ensures Behind(Apply(s, r, a), p, e)
  {
    var s' := Apply(s, r, a);
    forall j | 0 <= j < |s'.queue| && s'.queue[j].pid == p ensures e.ticket < s'.queue[j].ticket {
      var i := EntryBefore(s, r, a, j);
    }
  }

  /** In this schedule h neither dies nor gets to the end of a lock() call. */
  predicate Spares(h: Pid, sched: seq<(Pid, Action)>) {
    forall i :: 0 <= i < |sched| && sched[i].0 == h ==> !sched[i].1.Crash? && !sched[i].1.Release?
  }

  /**
   An entry that a live process has left behind (see `leaky`), or still needs, blocks everybody
   behind it, whatever anybody does, until that process dies or releases the lock once more.
   */
  lemma {:induction false} LeftEntryBlocks(s: State, e: Entry, p: Pid, sched: seq<(Pid, Action)>)
    requires Inv(s) && e in s.queue && Live(s, e.pid) && Behind(s, p, e)
    requires Spares(e.pid, sched) && Exec(s, sched).Reached?
    ensures var s' := Exec(s, sched).state; e in s'.queue && Behind(s', p, e) && !InCs(s', p)
    decreases |sched|
  {
    if sched == [] {
      assert Live(s, p) ==> ProcessOk(s, p);
      var i :| 0 <= i < |s.queue| && s.queue[i] == e;
    } else {
      var r, a, rest := sched[0].0, sched[0].1, sched[1..];
      InvStep(s, r, a);
      EntryStays(s, r, a, e);
      BehindStays(s, r, a, p, e);
      assert forall i :: 0 <= i < |rest| ==> rest[i] == sched[i + 1];
      LeftEntryBlocks(Apply(s, r, a), e, p, rest);
    }
  }

  /** Such an entry is there after two steps: a push that is interrupted before the `try`. */
  lemma EntryIsLeft(h: Pid, p: Pid)
    requires h != p
    ensures var o := Exec(Init, [(h, PushThenLeak), (p, Push)]);
            && o.Reached? && Inv(o.state) && Live(o.state, h) && PcOf(o.state, h).Outside?
            && Entry(h, 0) in o.state.queue && Behind(o.state, p, Entry(h, 0))
  {
    InvStep(Init, h, PushThenLeak);
    var s := Apply(Init, h, PushThenLeak);
    InvStep(s, p, Push);
    var sched: seq<(Pid, Action)>, rest: seq<(Pid, Action)> := [(h, PushThenLeak), (p, Push)], [(p, Push)];
    assert sched[1..] == rest;
    assert Exec(s, rest) == Reached(Apply(s, p, Push));
    assert Apply(s, p, Push).queue[0] == Entry(h, 0);
  }

  /** Whatever the others do, the position of a queued process never grows. */
  lemma PositionNeverGrows(s: State, r: Pid, a: Action, p: Pid)
    requires Inv(s) && Enabled(s, r, a) && Live(s, p) && Queued(PcOf(s, p))
    requires !(r == p && a.Release?)
    ensures Index(Apply(s, r, a).queue, p) <= Index(s.queue, p) < |s.queue|
  {
    assert ProcessOk(s, p) && ProcessOk(s, r);
    IndexInside(s.queue, p);
    match a {
      case Push => IndexAppend(s.queue, Entry(r, |s.pushed|), p);
      case PushThenLeak => IndexAppend(s.queue, Entry(r, |s.pushed|), p);
      case Reap => IndexLrem(s.queue, PcOf(s, r).head, p);
      case Release => IndexLrem(s.queue, r, p);
      case _ =>
    }
  }

  // ---------------------------------------------------------------- tokens

  /**
   The notify tokens decide nothing: two systems that differ in tokens only can take exactly
   the same schedules, and afterwards again differ in tokens only.  So the protocol is a plain
   queue, and a lost, stale or expired token can delay a process but never let it in or keep
   it out.
   */
  lemma {:induction false} TokensDecideNothing(s: State, tokens: map<Pid, nat>, sched: seq<(Pid, Action)>)
    ensures var o, o' := Exec(s, sched), Exec(s.(tokens := tokens), sched);
            && o.Stuck? == o'.Stuck?
            && (o.Reached? ==> o'.state == o.state.(tokens := o'.state.tokens))
    decreases |sched|
  {
    if sched != [] {
      var p, a := sched[0].0, sched[0].1;
      var z := s.(tokens := tokens);
      assert PcOf(z, p) == PcOf(s, p);
      if Enabled(s, p, a) {
        var s', z' := Apply(s, p, a), Apply(z, p, a);
        assert z' == s'.(tokens := z'.tokens);
        TokensDecideNothing(s', z'.tokens, sched[1..]);
      }
    }
  }

  // ---------------------------------------------------------------- no wake-up is lost

  /** Nobody dies, and every lock() call that was entered is left in full. */
  predicate Orderly(a: Action) {
    !a.Crash? && !a.Abort? && !a.PushThenLeak?
  }

  ghost predicate OrderlyAt(tr: seq<State>, i: nat)
    requires i + 1 < |tr|
  {
    exists p, a :: Enabled(tr[i], p, a) && Orderly(a) && tr[i + 1] == Apply(tr[i], p, a)
  }

  /** Waiting for a token, or on the way to that. */
  predicate Asleep(pc: Pc) {
    pc.Blocking? || pc.Probing?
  }

  /** About to tell p, or whoever is the head by then. */
  predicate Tells(pc: Pc, p: Pid) {
    pc.Peeking? || pc == Notifying(p)
  }

  /** If the process whose turn it is sleeps, it has a token, or somebody is about to push one. */
  ghost predicate WakeOk(s: State) {
    s.queue != [] && Asleep(PcOf(s, s.queue[0].pid)) ==>
      var p := s.queue[0].pid;
      TokensOf(s, p) > 0 || exists r :: Tells(PcOf(s, r), p)
  }

  /** With nobody dead, a step changes the head only if its process releases it, or if there was none. */
  lemma HeadStep(s: State, r: Pid, a: Action)
    requires Inv(s) && s.dead == {} && Enabled(s, r, a) && Orderly(a)
    ensures var s' := Apply(s, r, a);
            && s'.dead == {}
            && (a.Release? || (s.queue != [] ==> s'.queue != [] && s'.queue[0] == s.queue[0]))
            && (s.queue == [] && s'.queue != [] ==> s'.queue[0].pid == r && PcOf(s', r).Looking?)
  {
    assert ProcessOk(s, r);
  }

  lemma WakeStep(s: State, r: Pid, a: Action)
    requires Inv(s) && s.dead == {} && WakeOk(s) && Enabled(s, r, a) && Orderly(a)
    ensures WakeOk(Apply(s, r, a))
  {
    var s' := Apply(s, r, a);
    HeadStep(s, r, a);
    if s'.queue != [] && Asleep(PcOf(s', s'.queue[0].pid)) {
      var p := s'.queue[0].pid;
      if a.Release? {
        assert Tells(PcOf(s', r), p);
      } else {
        StaysAwake(s, r, a, p);
      }
    }
  }

  /** The same head as before: what wakes it comes nearer. */
  lemma StaysAwake(s: State, r: Pid, a: Action, p: Pid)
    requires Inv(s) && s.dead == {} && WakeOk(s) && Enabled(s, r, a) && Orderly(a) && !a.Release?
    requires s.queue != [] && s.queue[0].pid == p && Asleep(PcOf(Apply(s, r, a), p))
    ensures var s' := Apply(s, r, a); TokensOf(s', p) > 0 || exists q :: Tells(PcOf(s', q), p)
  {
    var s' := Apply(s, r, a);
    assert ProcessOk(s, r) && ProcessOk(s, p);
    assert Asleep(PcOf(s, p));
    if TokensOf(s, p) == 0 {
      var q :| Tells(PcOf(s, q), p);
      if q != r {
        assert Tells(PcOf(s', q), p);
      } else if a.Peek? {
        assert Tells(PcOf(s', r), p);
      } else {
        assert TokensOf(s', p) > 0;
      }
    }
  }

  lemma OrderlyStep(s: State, s': State)
    requires Inv(s) && s.dead == {} && WakeOk(s)
    requires exists p, a :: Enabled(s, p, a) && Orderly(a) && s' == Apply(s, p, a)
    ensures Inv(s') && s'.dead == {} && WakeOk(s')
  {
    var p, a :| Enabled(s, p, a) && Orderly(a) && s' == Apply(s, p, a);
    InvStep(s, p, a);
    HeadStep(s, p, a);
    WakeStep(s, p, a);
  }

  /**
   As long as nobody dies and no `finally` is cut short, no wake-up is lost: whenever the process
   whose turn it is sleeps, a token waits for it or is about to come, so nobody depends on the
   timeout of blpop.
   */
  lemma {:induction false} NoLostWakeup(tr: seq<State>, i: nat)
    requires |tr| > 0 && tr[0] == Init && i < |tr|
    requires forall j :: 0 <= j < |tr| - 1 ==> OrderlyAt(tr, j)
    ensures Inv(tr[i]) && tr[i].dead == {} && WakeOk(tr[i])
  {
    if i > 0 {
      NoLostWakeup(tr, i - 1);
      assert OrderlyAt(tr, i - 1);
      OrderlyStep(tr[i - 1], tr[i]);
    }
  }

  /** A holder that dies takes the wake-up with it: then only the timeout helps. */
  lemma DeathLosesWakeup(h: Pid, p: Pid)
    requires h != p
    ensures var o := Exec(Init, [(h, Push), (h, Look), (p, Push), (p, Look), (p, Probe(false)), (h, Crash)]);
            && o.Reached? && o.state.queue == [Entry(h, 0), Entry(p, 1)] && AheadDead(o.state, p)
            && PcOf(o.state, p).Blocking? && TokensOf(o.state, p) == 0 && forall r :: !Tells(PcOf(o.state, r), p)
  {
    var s1 := Apply(Init, h, Push);
    var s2 := Apply(s1, h, Look);
    var s3 := Apply(s2, p, Push);
    var s4 := Apply(s3, p, Look);
    var s5 := Apply(s4, p, Probe(false));
    var s6 := Apply(s5, h, Crash);
    assert s3.queue == [Entry(h, 0), Entry(p, 1)];
    var t5: seq<(Pid, Action)> := [(h, Crash)];
    var t4 := [(p, Probe(false))] + t5;
    var t3 := [(p, Look)] + t4;
    var t2 := [(p, Push)] + t3;
    var t1 := [(h, Look)] + t2;
    assert Exec(s5, t5) == Reached(s6);
    assert t4[1..] == t5 && Exec(s4, t4) == Exec(s5, t5);
    assert t3[1..] == t4 && Exec(s3, t3) == Exec(s4, t4);
    assert t2[1..] == t3 && Exec(s2, t2) == Exec(s3, t3);
    assert t1[1..] == t2 && Exec(s1, t1) == Exec(s2, t2);
    var t0 := [(h, Push)] + t1;
    assert t0[1..] == t1 && Exec(Init, t0) == Exec(s1, t1);
    assert t0 == [(h, Push), (h, Look), (p, Push), (p, Look), (p, Probe(false)), (h, Crash)];
  }
}
