/**
 What one createrepo run of a batch is asked to do: BatchedCreaterepo.options() of
 backend/copr_backend/createrepo.py, and the merge with the leader's own request in
 main_locked() of backend/run/copr-repo.
 */
module CreaterepoMerge {
  import opened Wrappers

  type Key(==) = string
  type Name = string

  const MAX_IN_BATCH := 100

  /** The JSON value of the "task" field. */
  datatype Task = Task(
    devel: bool, appstream: bool, full: bool,
    add: set<Name>, delete: set<Name>, rpmsToRemove: set<Name>)

  /** What hgetall returned for a listed key; a vanished key gives the empty hash. */
  datatype Hash = Hash(task: Option<Task>, status: Option<string>)

  datatype Listed = Listed(key: Key, hash: Hash)

  datatype Chosen = Chosen(key: Key, task: Task)

  /** The arguments of one createrepo run. */
  datatype Command = Command(full: bool, add: set<Name>, delete: set<Name>, rpmsToRemove: set<Name>)

  predicate Takes(devel: bool, appstream: bool, h: Hash) {
    && h.status.None?
    && h.task.Some?
    && h.task.value.devel == devel
    && h.task.value.appstream == appstream
  }

  /** The requests that may join the batch, in listing order. */
  function Eligible(devel: bool, appstream: bool, listed: seq<Listed>): seq<Chosen> {
    if listed == [] then []
    else
      var rest := Eligible(devel, appstream, listed[..|listed| - 1]);
      var x := listed[|listed| - 1];
      if Takes(devel, appstream, x.hash) then rest + [Chosen(x.key, x.hash.task.value)] else rest
  }

  /** How many join when `planned` keys are in notify_keys already. */
  function Quota(planned: nat): (n: nat)
    ensures n >= 1 && (planned + n == MAX_IN_BATCH - 1 || (planned >= MAX_IN_BATCH - 2 && n == 1))
  {
    if planned + 1 >= MAX_IN_BATCH - 1 then 1 else MAX_IN_BATCH - 1 - planned
  }

  function Prefix(s: seq<Chosen>, n: nat): seq<Chosen> {
    if |s| <= n then s else s[..n]
  }

  lemma PrefixUnique(c: seq<Chosen>, all: seq<Chosen>, n: nat)
    requires c <= all && |c| <= n && (|c| == n || c == all)
    ensures c == Prefix(all, n)
  {
  }

  function Keys(c: seq<Chosen>): (r: seq<Key>)
    ensures |r| == |c| && forall i :: 0 <= i < |c| ==> r[i] == c[i].key
  {
    seq(|c|, i requires 0 <= i < |c| => c[i].key)
  }

  predicate AnyFull(c: seq<Chosen>) {
    exists x :: x in c && x.task.full
  }

  function Adds(c: seq<Chosen>): set<Name> {
    set x, n | x in c && n in x.task.add :: n
  }

  function Deletes(c: seq<Chosen>): set<Name> {
    set x, n | x in c && n in x.task.delete :: n
  }

  function Removes(c: seq<Chosen>): set<Name> {
    set x, n | x in c && n in x.task.rpmsToRemove :: n
  }

  /** The declarative form of options() over the chosen requests. */
  function Merged(c: seq<Chosen>): Command {
    Command(AnyFull(c), if AnyFull(c) then {} else Adds(c), Deletes(c), Removes(c))
  }

  lemma EligibleStep(devel: bool, appstream: bool, listed: seq<Listed>, i: nat)
    requires i < |listed|
    ensures Eligible(devel, appstream, listed[..i + 1]) ==
            Eligible(devel, appstream, listed[..i]) +
            if Takes(devel, appstream, listed[i].hash) then [Chosen(listed[i].key, listed[i].hash.task.value)] else []
  {
    assert listed[..i + 1][..i] == listed[..i];
  }

  /** Listing more keys only appends. */
  lemma {:induction false} EligibleGrows(devel: bool, appstream: bool, listed: seq<Listed>, i: nat)
    requires i <= |listed|
    ensures Eligible(devel, appstream, listed[..i]) <= Eligible(devel, appstream, listed)
    decreases |listed| - i
  {
    if i == |listed| {
      assert listed[..i] == listed;
    } else {
      EligibleStep(devel, appstream, listed, i);
      EligibleGrows(devel, appstream, listed, i + 1);
    }
  }

  lemma MergedAppend(c: seq<Chosen>, x: Chosen)
    ensures AnyFull(c + [x]) == (AnyFull(c) || x.task.full)
    ensures Adds(c + [x]) == Adds(c) + x.task.add
    ensures Deletes(c + [x]) == Deletes(c) + x.task.delete
    ensures Removes(c + [x]) == Removes(c) + x.task.rpmsToRemove
  {
    assert x in c + [x];
    assert forall y :: y in c ==> y in c + [x];
  }

  /** What the loop body makes of the accumulators. */
  lemma MergedStep(c: seq<Chosen>, x: Chosen)
    ensures var m, t := Merged(c), x.task;
            var full := m.full || t.full;
            Merged(c + [x]) == Command(
              full,
              if full then {} else m.add + t.add,
              m.delete + t.delete,
              m.rpmsToRemove + t.rpmsToRemove)
    ensures Keys(c + [x]) == Keys(c) + [x.key]
  {
    MergedAppend(c, x);
  }

  /** Name by name, what options() reports of the chosen requests: once one of them is full, nothing is added. */
  lemma MergedExactly(c: seq<Chosen>, n: Name)
    ensures var m := Merged(c);
            && (m.full <==> exists x :: x in c && x.task.full)
            && (n in m.add <==> (exists x :: x in c && n in x.task.add) && forall x :: x in c ==> !x.task.full)
            && (n in m.delete <==> exists x :: x in c && n in x.task.delete)
            && (n in m.rpmsToRemove <==> exists x :: x in c && n in x.task.rpmsToRemove)
  {
  }

  class BatchedCreaterepo {
    const noop: bool
    const key: Key
    const devel: bool
    const appstream: bool
    var notifyKeys: seq<Key>

    constructor (noop: bool, key: Key, devel: bool, appstream: bool)
      ensures this.noop == noop && this.key == key && this.devel == devel && this.appstream == appstream
      ensures notifyKeys == []
    {
      this.noop, this.key, this.devel, this.appstream := noop, key, devel, appstream;
      notifyKeys := [];
    }

    /**
     The chosen requests are the eligible ones in listing order, up to the batch limit, and the
     result is their declarative merge.  That the own key is not listed is what the source
     asserts; Batch.OwnKeyNeverListed proves it of the protocol.
     */
    method Options(listed: seq<Listed>) returns (full: bool, add: set<Name>, delete: set<Name>, rpmsToRemove: set<Name>)
      requires forall i :: 0 <= i < |listed| ==> listed[i].key != key
      modifies this`notifyKeys
      ensures noop ==> notifyKeys == old(notifyKeys) && Command(full, add, delete, rpmsToRemove) == Merged([])
      ensures !noop ==>
                var chosen := Prefix(Eligible(devel, appstream, listed), Quota(|old(notifyKeys)|));
                && notifyKeys == old(notifyKeys) + Keys(chosen)
                && Command(full, add, delete, rpmsToRemove) == Merged(chosen)
      ensures full ==> add == {}
      ensures forall k :: k in notifyKeys[|old(notifyKeys)|..] ==>
                exists i :: 0 <= i < |listed| && listed[i].key == k
                            && listed[i].hash.status == None && listed[i].hash.task.Some?
                            && listed[i].hash.task.value.devel == devel
                            && listed[i].hash.task.value.appstream == appstream
      ensures !noop ==> forall i :: 0 <= i < |listed|
                                    && listed[i].hash.status == None && listed[i].hash.task.Some?
                                    && listed[i].hash.task.value.devel == devel
                                    && listed[i].hash.task.value.appstream == appstream ==>
                listed[i].key in notifyKeys[|old(notifyKeys)|..] || |notifyKeys| >= 99
    {
      if noop {
        return false, {}, {}, {};
      }
      full, add, delete, rpmsToRemove := Gather(listed);
      JoinedExactly(devel, appstream, listed, Quota(|old(notifyKeys)|));
      assert notifyKeys[|old(notifyKeys)|..] == Keys(Prefix(Eligible(devel, appstream, listed), Quota(|old(notifyKeys)|)));
    }

    /** The loop of options(). */
    method Gather(listed: seq<Listed>) returns (full: bool, add: set<Name>, delete: set<Name>, rpmsToRemove: set<Name>)
      modifies this`notifyKeys
      ensures var chosen := Prefix(Eligible(devel, appstream, listed), Quota(|old(notifyKeys)|));
              && notifyKeys == old(notifyKeys) + Keys(chosen)
              && Command(full, add, delete, rpmsToRemove) == Merged(chosen)
    {
      full, add, delete, rpmsToRemove := false, {}, {}, {};
      ghost var chosen: seq<Chosen> := [];
      var i := 0;
      while i < |listed|
        invariant 0 <= i <= |listed|
        invariant chosen == Eligible(devel, appstream, listed[..i])
        invariant |chosen| < Quota(|old(notifyKeys)|)
        invariant notifyKeys == old(notifyKeys) + Keys(chosen)
        invariant Command(full, add, delete, rpmsToRemove) == Merged(chosen)
      {
        var Listed(k, h) := listed[i];
        EligibleStep(devel, appstream, listed, i);
        i := i + 1;
        if h.task.None? && h.status.None? {
          continue;
        }
        if h.status.Some? {
          continue;
        }
        var opts := h.task.value;
        if opts.devel != devel || opts.appstream != appstream {
          continue;
        }
        MergedStep(chosen, Chosen(k, opts));
        chosen := chosen + [Chosen(k, opts)];
        notifyKeys := notifyKeys + [k];
        if opts.full {
          full := true;
          add := {};
        }
        if !full {
          add := add + opts.add;
        }
        delete := delete + opts.delete;
        rpmsToRemove := rpmsToRemove + opts.rpmsToRemove;
        if |notifyKeys| >= MAX_IN_BATCH - 1 {
          break;
        }
      }
      EligibleGrows(devel, appstream, listed, i);
      assert i == |listed| ==> listed[..i] == listed;
      PrefixUnique(chosen, Eligible(devel, appstream, listed), Quota(|old(notifyKeys)|));
    }
  }

  /** Only unprocessed requests with the leader's flags join, each from the listing. */
  lemma {:induction false} EligibleExactly(devel: bool, appstream: bool, listed: seq<Listed>, x: Chosen)
    ensures x in Eligible(devel, appstream, listed) <==>
            exists i :: 0 <= i < |listed| && listed[i].key == x.key
                        && listed[i].hash.status == None && listed[i].hash.task == Some(x.task)
                        && x.task.devel == devel && x.task.appstream == appstream
  {
    if listed != [] {
      var n := |listed| - 1;
      EligibleExactly(devel, appstream, listed[..n], x);
      if i :| 0 <= i < |listed| && listed[i].key == x.key
              && listed[i].hash.status == None && listed[i].hash.task == Some(x.task)
              && x.task.devel == devel && x.task.appstream == appstream && i < n {
        assert listed[..n][i] == listed[i];
      }
    }
  }

  /** The first n who may join: each is listed, and who may and is left out comes when they are n. */
  lemma JoinedExactly(devel: bool, appstream: bool, listed: seq<Listed>, n: nat)
    ensures var keys := Keys(Prefix(Eligible(devel, appstream, listed), n));
            && |keys| <= n
            && (forall k :: k in keys ==>
                  exists i :: 0 <= i < |listed| && listed[i].key == k && Takes(devel, appstream, listed[i].hash))
            && (forall i :: 0 <= i < |listed| && Takes(devel, appstream, listed[i].hash) ==>
                  listed[i].key in keys || |keys| == n)
  {
    var all := Eligible(devel, appstream, listed);
    var joined := Prefix(all, n);
    var keys := Keys(joined);
    forall k | k in keys
      ensures exists i :: 0 <= i < |listed| && listed[i].key == k && Takes(devel, appstream, listed[i].hash)
    {
      var j :| 0 <= j < |keys| && keys[j] == k;
      var x := joined[j];
      assert x in all;
      EligibleExactly(devel, appstream, listed, x);
      var i :| 0 <= i < |listed| && listed[i].key == x.key && Takes(devel, appstream, listed[i].hash);
    }
    forall i | 0 <= i < |listed| && Takes(devel, appstream, listed[i].hash) && |joined| != n
      ensures listed[i].key in Keys(joined)
    {
      var x := Chosen(listed[i].key, listed[i].hash.task.value);
      EligibleExactly(devel, appstream, listed, x);
      var k :| 0 <= k < |all| && all[k] == x;
      assert Keys(joined)[k] == x.key;
    }
  }

  /** A fresh leader serves at most MAX_IN_BATCH - 1 others. */
  lemma BatchSize(devel: bool, appstream: bool, listed: seq<Listed>)
    ensures |Prefix(Eligible(devel, appstream, listed), Quota(0))| <= 99
  {
  }

  // ---------------------------------------------------------------- main_locked()

  /** A request as the command line makes it: "full" means that nothing else was asked for. */
  predicate WellMade(t: Task) {
    t.full ==> t.add == {}
  }

  /** One createrepo run that serves all of them. */
  function Joint(c: seq<Chosen>): Command {
    Command(AnyFull(c), if AnyFull(c) then {} else Adds(c) - Deletes(c), Deletes(c), Removes(c))
  }

  /** Lines 322 to 346 of copr-repo: the merge of the leader's options with the batch. */
  method MainLocked(own: Task, batch: Command) returns (cmd: Command)
    requires WellMade(own)
    ensures cmd.full == (own.full || batch.full)
    ensures cmd.delete == own.delete + batch.delete
    ensures cmd.rpmsToRemove == own.rpmsToRemove + batch.rpmsToRemove
    ensures cmd.add == if cmd.full then {} else own.add + batch.add - cmd.delete
  {
    var full, add, delete, rpms := own.full, own.add, own.delete, own.rpmsToRemove;
    if batch.full {
      full := true;
      add := {};
    }
    if batch.add != {} {
      if !full {
        add := add + batch.add;
      }
    }
    delete := delete + batch.delete;
    rpms := rpms + batch.rpmsToRemove;
    var dontAdd := delete * add;
    assert add - dontAdd == add - delete;
    if dontAdd != {} {
      add := add - dontAdd;
    }
    cmd := Command(full, add, delete, rpms);
  }

  /** The command that leader `own` runs for itself and the chosen others. */
  function Led(own: Task, others: seq<Chosen>): Command {
    var batch := Merged(others);
    var full := own.full || batch.full;
    var delete := own.delete + batch.delete;
    Command(full, if full then {} else own.add + batch.add - delete, delete, own.rpmsToRemove + batch.rpmsToRemove)
  }

  method LeadBatch(b: BatchedCreaterepo, own: Task, listed: seq<Listed>) returns (cmd: Command)
    requires WellMade(own) && !b.noop && b.notifyKeys == []
    requires forall i :: 0 <= i < |listed| ==> listed[i].key != b.key
    modifies b`notifyKeys
    ensures cmd == Led(own, Prefix(Eligible(b.devel, b.appstream, listed), MAX_IN_BATCH - 1))
  {
    var full, add, delete, rpms := b.Options(listed);
    cmd := MainLocked(own, Command(full, add, delete, rpms));
  }

  /**
   Name by name: full drops additions, deletions win over them, and every request of the batch is
   listened to.
   */
  lemma LedExactly(own: Task, others: seq<Chosen>, n: Name)
    ensures var cmd, tasks := Led(own, others), {own} + set x | x in others :: x.task;
            && (cmd.full <==> exists t :: t in tasks && t.full)
            && (n in cmd.delete <==> exists t :: t in tasks && n in t.delete)
            && (n in cmd.rpmsToRemove <==> exists t :: t in tasks && n in t.rpmsToRemove)
            && (n in cmd.add <==> (exists t :: t in tasks && n in t.add) && forall t :: t in tasks ==> !t.full && n !in t.delete)
  {
    var cmd, tasks := Led(own, others), {own} + set x | x in others :: x.task;
    assert own in tasks;
    assert forall x :: x in others ==> x.task in tasks;
    assert cmd.full <==> exists t :: t in tasks && t.full;
  }

  /** The order in which Redis enumerates the chosen keys does not matter. */
  lemma OrderDoesNotMatter(c: seq<Chosen>, d: seq<Chosen>)
    requires multiset(c) == multiset(d)
    ensures Merged(c) == Merged(d) && Joint(c) == Joint(d)
  {
    forall x ensures x in c <==> x in d {
      assert x in multiset(c) <==> x in multiset(d);
    }
  }

  lemma LedIsJoint(own: Chosen, others: seq<Chosen>)
    requires WellMade(own.task)
    ensures Led(own.task, others) == Joint([own] + others)
  {
    var all := [own] + others;
    assert own in all;
    assert forall y :: y in others ==> y in all;
    assert AnyFull(all) == (own.task.full || AnyFull(others));
    assert Adds(all) == own.task.add + Adds(others);
    assert Deletes(all) == own.task.delete + Deletes(others);
    assert Removes(all) == own.task.rpmsToRemove + Removes(others);
  }

  /** Whoever of a batch takes the lock first, the same createrepo run comes out. */
  lemma LeaderDoesNotMatter(a: Chosen, others: seq<Chosen>, b: Chosen, rest: seq<Chosen>)
    requires WellMade(a.task) && WellMade(b.task)
    requires multiset([a] + others) == multiset([b] + rest)
    ensures Led(a.task, others) == Led(b.task, rest)
  {
    LedIsJoint(a, others);
    LedIsJoint(b, rest);
    OrderDoesNotMatter([a] + others, [b] + rest);
  }
}
