/**
 The body of `Lock.lock()` in its own form: a loop over the shared Redis list, and the release
 of `finally`.  Here one process moves and the others stand still, from its rpush (or from the
 return of a blpop) up to the point where it is inside, or would block on a live head.
 FairLock has the interleavings; LoopIsDrive and ReleaseIsFinally show that both speak of the same code.
 */
module LockLoop {
  import opened FairLock

  /** What the waiting loop makes of the list: the dead entries in front of `me` are gone. */
  function DropDead(q: seq<Entry>, me: Pid, dead: set<Pid>): seq<Entry> {
    if q == [] || q[0].pid == me || q[0].pid !in dead then q else DropDead(q[1..], me, dead)
  }

  function Settled(q: seq<Entry>, me: Pid, dead: set<Pid>, ticket: nat): seq<Entry> {
    var r := DropDead(q, me, dead);
    if r == [] then [Entry(me, ticket)] else r
  }

  /** A dead stranger at the head is the next one to go. */
  lemma DeadHead(q: seq<Entry>, me: Pid, dead: set<Pid>)
    requires q != [] && q[0].pid != me && q[0].pid in dead
    ensures Lrem(q, q[0].pid) == q[1..] && DropDead(q, me, dead) == DropDead(q[1..], me, dead)
  {
  }

  /** Exactly a prefix of dead strangers goes; the rest stays in order. */
  lemma {:induction false} DropDeadShape(q: seq<Entry>, me: Pid, dead: set<Pid>) returns (k: nat)
    ensures k <= |q| && DropDead(q, me, dead) == q[k..]
    ensures forall i :: 0 <= i < k ==> q[i].pid in dead && q[i].pid != me
    ensures k < |q| ==> q[k].pid == me || q[k].pid !in dead
  {
    if q == [] || q[0].pid == me || q[0].pid !in dead {
      k := 0;
    } else {
      k := DropDeadShape(q[1..], me, dead);
      k := k + 1;
      forall i | 0 <= i < k ensures q[i].pid in dead && q[i].pid != me {
        if i > 0 { assert q[i] == q[1..][i - 1]; }
      }
    }
  }

  /** The loop lets a live, queued process in exactly when everybody ahead of it is dead. */
  lemma {:induction false} InsideIffAheadDead(q: seq<Entry>, me: Pid, dead: set<Pid>)
    requires me !in dead && Count(q, me) > 0
    ensures DropDead(q, me, dead) != []
    ensures DropDead(q, me, dead)[0].pid == me <==> forall i :: 0 <= i < Index(q, me) <= |q| ==> q[i].pid in dead
  {
    LremShape(q, me);
    IndexInside(q, me);
    var k := DropDeadShape(q, me, dead);
    if k < Index(q, me) {
      assert q[k].pid !in dead;
    }
  }

  /** The Redis keys of one lock path, and the processes kill(pid, 0) no longer finds. */
  class SharedList {
    var queue: seq<Entry>
    var pushed: nat
    var tokens: map<Pid, nat>
    const dead: set<Pid>

    constructor (dead: set<Pid>)
      ensures queue == [] && pushed == 0 && tokens == map[] && this.dead == dead
    {
      queue, pushed, tokens := [], 0, map[];
      this.dead := dead;
    }

    method Rpush(p: Pid)
      modifies this`queue, this`pushed
      ensures queue == old(queue) + [Entry(p, old(pushed))] && pushed == old(pushed) + 1
    {
      queue, pushed := queue + [Entry(p, pushed)], pushed + 1;
    }

    /**
     The `while True` of lines 74 to 89, left either by the break (inside) or at the blpop.
     The entries it removed were all dead, and nothing else moved.
     */
    method WaitTurn(me: Pid) returns (inside: bool)
      requires me !in dead
      modifies this`queue, this`pushed
      ensures queue == Settled(old(queue), me, dead, old(pushed))
      ensures queue != [] && (inside <==> queue[0].pid == me)
      ensures !inside ==> queue[0].pid !in dead
      ensures pushed == if DropDead(old(queue), me, dead) == [] then old(pushed) + 1 else old(pushed)
    {
      ghost var start, ticket := queue, pushed;
      while true
        invariant pushed == ticket ==> DropDead(queue, me, dead) == DropDead(start, me, dead)
        invariant pushed != ticket ==>
                    && pushed == ticket + 1
                    && DropDead(start, me, dead) == []
                    && queue == [Entry(me, ticket)]
        decreases ticket + 1 - pushed, |queue|
      {
        if queue == [] {
          Rpush(me);
          continue;
        }
        var head := queue[0].pid;
        if head == me {
          return true;
        }
        if head in dead {
          DeadHead(queue, me, dead);
          queue := Lrem(queue, head);
          continue;
        }
        return false;
      }
    }

    /** The `finally` of lines 95 to 109. */
    method Release(me: Pid)
      modifies this`queue, this`tokens
      ensures (queue, tokens) == Freed(old(queue), old(tokens), me)
    {
      queue := Lrem(queue, me);
      if queue != [] {
        var n := queue[0].pid;
        tokens := tokens[n := (if n in tokens then tokens[n] else 0) + 1];
      }
      tokens := tokens - {me};
    }
  }

  /** What `finally` makes of the list and the tokens: the new head is told, the own key goes. */
  function Freed(q: seq<Entry>, tokens: map<Pid, nat>, me: Pid): (seq<Entry>, map<Pid, nat>) {
    var r := Lrem(q, me);
    if r == [] then (r, tokens - {me})
    else (r, tokens[r[0].pid := (if r[0].pid in tokens then tokens[r[0].pid] else 0) + 1] - {me})
  }

  // ---------------------------------------------------------------- the loop is the transition system

  /** The first n own steps of p, nobody else moving; stops early when p no longer waits. */
  function Drive(s: State, p: Pid, n: nat): State
    requires Live(s, p)
    decreases n
  {
    if n == 0 || !Waiting(PcOf(s, p)) then s
    else Drive(Apply(s, p, OwnAction(s, p)), p, n - 1)
  }

  /**
   The loop of WaitTurn is what the transition system does when only p moves: from the top of the
   loop it comes to a state with exactly the list and the pushes WaitTurn promises, inside if p is
   at the head, and else about to block on a live head.
   */
  lemma {:induction false} LoopIsDrive(s: State, p: Pid) returns (n: nat)
    requires Live(s, p) && PcOf(s, p).Looking?
    ensures var t := Drive(s, p, n);
            && t.queue == Settled(s.queue, p, s.dead, |s.pushed|) && t.queue != []
            && |t.pushed| == (if DropDead(s.queue, p, s.dead) == [] then |s.pushed| + 1 else |s.pushed|)
            && t.tokens == s.tokens && t.dead == s.dead
            && PcOf(t, p) == (if t.queue[0].pid == p then Holding else Blocking)
    decreases |s.queue|
  {
    var s1 := Apply(s, p, Look);
    assert Drive(s, p, 1) == Drive(s1, p, 0) == s1;
    if s.queue == [] {
      var s2 := Apply(s1, p, Repush);
      var s3 := Apply(s2, p, Look);
      n := 3;
      assert Drive(s, p, 3) == Drive(s1, p, 2) == Drive(s2, p, 1) == Drive(s3, p, 0);
    } else if s.queue[0].pid == p {
      n := 1;
    } else {
      var h := s.queue[0].pid;
      var s2 := Apply(s1, p, Probe(h in s.dead));
      assert Drive(s, p, 2) == Drive(s1, p, 1) == Drive(s2, p, 0) == s2;
      if h in s.dead {
        var s3 := Apply(s2, p, Reap);
        DeadHead(s.queue, p, s.dead);
        var m := LoopIsDrive(s3, p);
        n := m + 3;
        assert Drive(s, p, n) == Drive(s1, p, m + 2) == Drive(s2, p, m + 1) == Drive(s3, p, m);
      } else {
        n := 2;
      }
    }
  }

  /** The four steps of `finally`, nobody else moving. */
  function Finally(s: State, p: Pid): State
    requires Live(s, p) && PcOf(s, p).Releasing?
  {
    var s2 := Apply(Apply(s, p, Release), p, Peek);
    Apply(if PcOf(s2, p).Notifying? then Apply(s2, p, Notify) else s2, p, Clear)
  }

  /** Release does what the steps of `finally` do. */
  lemma ReleaseIsFinally(s: State, p: Pid)
    requires Live(s, p) && PcOf(s, p).Releasing?
    ensures (Finally(s, p).queue, Finally(s, p).tokens) == Freed(s.queue, s.tokens, p)
    ensures PcOf(Finally(s, p), p).Outside?
  {
  }

  /** A process that enters and leaves takes nothing but dead entries with it. */
  lemma {:induction false} TurnThenRelease(q: seq<Entry>, me: Pid, dead: set<Pid>)
    requires me !in dead && Count(q, me) == 1
    requires DropDead(q, me, dead) != [] && DropDead(q, me, dead)[0].pid == me
    ensures Index(q, me) < |q| && Lrem(DropDead(q, me, dead), me) == q[Index(q, me) + 1..]
  {
    var k := DropDeadShape(q, me, dead);
    LremShape(q, me);
    IndexInside(q, me);
  }
}
