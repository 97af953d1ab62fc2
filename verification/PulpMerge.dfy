/**
 What one repository modification of a batch does: BatchedAddRemoveContent.options() and
 _execute_locked() of backend/copr_backend/pulp.py.
 */
module PulpMerge {
  import opened Wrappers

  type Key(==) = string
  type Unit = string

  const MAX_CONTENT_UNITS_IN_BATCH := 10000

  /** The JSON value of the "task" field; old entries have no "dirs_to_delete". */
  datatype Task = Task(add: seq<Unit>, remove: seq<Unit>, dirs: Option<seq<string>>)

  datatype Hash = Hash(task: Option<Task>, status: Option<string>)

  datatype Listed = Listed(key: Key, hash: Hash)

  /** A request that joined the batch. */
  datatype Chosen = Chosen(key: Key, task: Task)

  function Elems<T>(s: seq<T>): set<T> {
    set x | x in s
  }

  function DirsOf(t: Task): set<string> {
    if t.dirs.None? then {} else Elems(t.dirs.value)
  }

  predicate Oversized(t: Task) {
    |t.add| + |t.remove| > MAX_CONTENT_UNITS_IN_BATCH
  }

  predicate Pending(h: Hash) {
    h.status.None? && h.task.Some?
  }

  /** The requests that join: the pending ones in listing order, up to the first oversized one. */
  function ChosenOf(listed: seq<Listed>): seq<Chosen>
    decreases |listed|
  {
    if listed == [] then []
    else if !Pending(listed[0].hash) then ChosenOf(listed[1..])
    else if Oversized(listed[0].hash.task.value) then []
    else [Chosen(listed[0].key, listed[0].hash.task.value)] + ChosenOf(listed[1..])
  }

  function Tasks(c: seq<Chosen>): (r: seq<Task>)
    ensures |r| == |c| && forall i :: 0 <= i < |c| ==> r[i] == c[i].task
  {
    seq(|c|, i requires 0 <= i < |c| => c[i].task)
  }

  function Keys(c: seq<Chosen>): (r: seq<Key>)
    ensures |r| == |c| && forall i :: 0 <= i < |c| ==> r[i] == c[i].key
  {
    seq(|c|, i requires 0 <= i < |c| => c[i].key)
  }

  function Adds(ts: seq<Task>): set<Unit> {
    set t, u | t in ts && u in t.add :: u
  }

  function Removes(ts: seq<Task>): set<Unit> {
    set t, u | t in ts && u in t.remove :: u
  }

  function Dirs(ts: seq<Task>): set<string> {
    set t, d | t in ts && d in DirsOf(t) :: d
  }

  lemma AppendTask(ts: seq<Task>, t: Task)
    ensures Adds(ts + [t]) == Adds(ts) + Elems(t.add)
    ensures Removes(ts + [t]) == Removes(ts) + Elems(t.remove)
    ensures Dirs(ts + [t]) == Dirs(ts) + DirsOf(t)
  {
    assert t in ts + [t];
    assert forall y :: y in ts ==> y in ts + [t];
  }

  class BatchedAddRemoveContent {
    const noop: bool
    const key: Key
    const own: Task
    var notifyKeys: seq<Key>

    constructor (noop: bool, key: Key, own: Task)
      ensures this.noop == noop && this.key == key && this.own == own && notifyKeys == []
    {
      this.noop, this.key, this.own := noop, key, own;
      notifyKeys := [];
    }

    /**
     The merge of the own request and the chosen ones: everything asked for, except that a unit
     asked for on both sides is left alone.  The noop form returns the own request untouched.
     */
    method Options(listed: seq<Listed>) returns (add: set<Unit>, remove: set<Unit>, dirs: set<string>)
      requires forall i :: 0 <= i < |listed| ==> listed[i].key != key
      modifies this`notifyKeys
      ensures noop ==>
                && notifyKeys == old(notifyKeys)
                && add == Elems(own.add) && remove == Elems(own.remove) && dirs == DirsOf(own)
      ensures !noop ==>
                var all := [own] + Tasks(ChosenOf(listed));
                && notifyKeys == old(notifyKeys) + Keys(ChosenOf(listed))
                && add == Adds(all) - Removes(all)
                && remove == Removes(all) - Adds(all)
                && dirs == Dirs(all)
    {
      add, remove, dirs := Elems(own.add), Elems(own.remove), DirsOf(own);
      if noop {
        return;
      }
      ghost var chosen: seq<Chosen> := [];
      AppendTask([], own);
      assert [] + [own] == [own] + Tasks([]);
      var i := 0;
      while i < |listed|
        invariant 0 <= i <= |listed|
        invariant ChosenOf(listed) == chosen + ChosenOf(listed[i..])
        invariant notifyKeys == old(notifyKeys) + Keys(chosen)
        invariant add == Adds([own] + Tasks(chosen))
        invariant remove == Removes([own] + Tasks(chosen))
        invariant dirs == Dirs([own] + Tasks(chosen))
      {
        var Listed(k, h) := listed[i];
        assert listed[i..][0] == listed[i] && listed[i..][1..] == listed[i + 1..];
        i := i + 1;
        if h.task.None? && h.status.None? {
          continue;
        }
        if h.status.Some? {
          continue;
        }
        var opts := h.task.value;
        if |opts.add| + |opts.remove| > MAX_CONTENT_UNITS_IN_BATCH {
          break;
        }
        AppendTask([own] + Tasks(chosen), opts);
        assert [own] + Tasks(chosen + [Chosen(k, opts)]) == [own] + Tasks(chosen) + [opts];
        chosen := chosen + [Chosen(k, opts)];
        notifyKeys := notifyKeys + [k];
        add := add + Elems(opts.add);
        remove := remove + Elems(opts.remove);
        dirs := dirs + DirsOf(opts);
      }
      assert chosen == ChosenOf(listed);
      var common := add * remove;
      assert add - common == add - remove && remove - common == remove - add;
      add := add - common;
      remove := remove - common;
    }
  }

  /** Which requests join: each is listed, has a task and no status, and stands before the first too large one. */
  lemma {:induction false} ChosenExactly(listed: seq<Listed>) returns (n: nat)
    ensures n <= |listed|
    ensures forall i :: 0 <= i < n && listed[i].hash.status == None && listed[i].hash.task.Some? ==>
              |listed[i].hash.task.value.add| + |listed[i].hash.task.value.remove| <= 10000
    ensures n < |listed| ==>
              && listed[n].hash.status == None && listed[n].hash.task.Some?
              && |listed[n].hash.task.value.add| + |listed[n].hash.task.value.remove| > 10000
    ensures forall x :: x in ChosenOf(listed) <==>
              exists i :: 0 <= i < n && listed[i].key == x.key && listed[i].hash == Hash(Some(x.task), None)
  {
    if listed == [] {
      n := 0;
    } else if Pending(listed[0].hash) && Oversized(listed[0].hash.task.value) {
      n := 0;
    } else {
      var m := ChosenExactly(listed[1..]);
      n := m + 1;
      assert forall i :: 0 <= i < m ==> listed[1..][i] == listed[i + 1];
      forall x ensures x in ChosenOf(listed) <==>
        exists i :: 0 <= i < n && listed[i].key == x.key && listed[i].hash == Hash(Some(x.task), None)
      {
        if i :| 0 <= i < n && listed[i].key == x.key && listed[i].hash == Hash(Some(x.task), None) && i > 0 {
          assert listed[1..][i - 1] == listed[i];
        }
        if x in ChosenOf(listed[1..]) {
          var i :| 0 <= i < m && listed[1..][i].key == x.key && listed[1..][i].hash == Hash(Some(x.task), None);
          assert listed[i + 1] == listed[1..][i];
        }
      }
    }
  }

  /** Unit by unit, and directory by directory, what a batch of these requests sends and deletes. */
  lemma SentExactly(ts: seq<Task>, u: Unit, d: string)
    ensures u in Adds(ts) - Removes(ts) <==>
            (exists t :: t in ts && u in t.add) && forall t :: t in ts ==> u !in t.remove
    ensures u in Removes(ts) - Adds(ts) <==>
            (exists t :: t in ts && u in t.remove) && forall t :: t in ts ==> u !in t.add
    ensures d in Dirs(ts) <==> exists t :: t in ts && t.dirs.Some? && d in t.dirs.value
  {
    if d in Dirs(ts) {
      var t :| t in ts && d in DirsOf(t);
      assert t.dirs.Some? && d in t.dirs.value;
    }
    if t :| t in ts && t.dirs.Some? && d in t.dirs.value {
      assert d in DirsOf(t);
    }
  }

  // ---------------------------------------------------------------- the effect on the repository

  /** The content after one modify call with disjoint add and remove sets. */
  function Modify(content: set<Unit>, add: set<Unit>, remove: set<Unit>): set<Unit> {
    content - remove + add
  }

  /** One request executed alone: the batch of this request only. */
  function ApplyOne(content: set<Unit>, t: Task): set<Unit> {
    Modify(content, Elems(t.add) - Elems(t.remove), Elems(t.remove) - Elems(t.add))
  }

  /** The requests executed one by one, in order. */
  function ApplyAll(content: set<Unit>, ts: seq<Task>): set<Unit> {
    if ts == [] then content else ApplyOne(ApplyAll(content, ts[..|ts| - 1]), ts[|ts| - 1])
  }

  /** The requests executed as one batch. */
  function ApplyMerged(content: set<Unit>, ts: seq<Task>): set<Unit> {
    Modify(content, Adds(ts) - Removes(ts), Removes(ts) - Adds(ts))
  }

  /** Adds u without removing it. */
  predicate Wants(t: Task, u: Unit) {
    u in t.add && u !in t.remove
  }

  /** Removes u without adding it. */
  predicate Rejects(t: Task, u: Unit) {
    u in t.remove && u !in t.add
  }

  /** A unit named on both sides of the batch is named on both sides by every request that names it. */
  ghost predicate Agreed(ts: seq<Task>) {
    forall u, t | u in Adds(ts) && u in Removes(ts) && t in ts :: !Wants(t, u) && !Rejects(t, u)
  }

  /** What the last request with a say about u asks for. */
  function LastSay(ts: seq<Task>, u: Unit): Option<bool> {
    if ts == [] then None
    else
      var last := ts[|ts| - 1];
      if Wants(last, u) then Some(true)
      else if Rejects(last, u) then Some(false)
      else LastSay(ts[..|ts| - 1], u)
  }

  /** One by one the last request with a say decides; without one the membership stays. */
  lemma {:induction false} LastSayDecides(content: set<Unit>, ts: seq<Task>, u: Unit)
    ensures u in ApplyAll(content, ts) <==> if LastSay(ts, u).Some? then LastSay(ts, u).value else u in content
  {
    if ts != [] {
      LastSayDecides(content, ts[..|ts| - 1], u);
    }
  }

  lemma {:induction false} LastSayIsSaid(ts: seq<Task>, u: Unit)
    ensures match LastSay(ts, u)
            case None => forall t :: t in ts ==> !Wants(t, u) && !Rejects(t, u)
            case Some(wanted) => exists t :: t in ts && if wanted then Wants(t, u) else Rejects(t, u)
  {
    if ts != [] {
      var front, last := ts[..|ts| - 1], ts[|ts| - 1];
      LastSayIsSaid(front, u);
      assert ts == front + [last];
      assert last in ts;
    }
  }

  lemma AgreedIsEnough(content: set<Unit>, ts: seq<Task>, u: Unit)
    requires Agreed(ts)
    ensures u in ApplyMerged(content, ts) <==> u in ApplyAll(content, ts)
  {
    LastSayDecides(content, ts, u);
    LastSayIsSaid(ts, u);
    if u in Adds(ts) && u !in Removes(ts) {
      var t :| t in ts && u in t.add;
      assert Wants(t, u);
    } else if u in Removes(ts) && u !in Adds(ts) {
      var t :| t in ts && u in t.remove;
      assert Rejects(t, u);
    }
  }

  /** A unit on both sides keeps its membership in the batch, but not one by one. */
  lemma DisagreementShows(ts: seq<Task>, t: Task, u: Unit)
    requires u in Adds(ts) && u in Removes(ts) && t in ts && (Wants(t, u) || Rejects(t, u))
    ensures u !in ApplyMerged({}, ts) && u in ApplyMerged({u}, ts)
    ensures ApplyMerged({}, ts) != ApplyAll({}, ts) || ApplyMerged({u}, ts) != ApplyAll({u}, ts)
  {
    LastSayIsSaid(ts, u);
    LastSayDecides({}, ts, u);
    LastSayDecides({u}, ts, u);
  }

  /**
   The batch does to every repository exactly what its requests do one by one if and only if
   every unit named on both sides is named on both sides by each request that names it.
   */
  lemma MergePreservesMeaning(ts: seq<Task>)
    ensures (forall content :: ApplyMerged(content, ts) == ApplyAll(content, ts)) <==> Agreed(ts)
  {
    if Agreed(ts) {
      forall content ensures ApplyMerged(content, ts) == ApplyAll(content, ts) {
        forall u ensures u in ApplyMerged(content, ts) <==> u in ApplyAll(content, ts) {
          AgreedIsEnough(content, ts, u);
        }
      }
    } else {
      var u, t :| u in Adds(ts) && u in Removes(ts) && t in ts && (Wants(t, u) || Rejects(t, u));
      DisagreementShows(ts, t, u);
    }
  }

  /** Requests of add_content() and delete_content() are one-sided: then it needs disjoint sides. */
  lemma OneSidedRequests(ts: seq<Task>)
    requires forall t :: t in ts ==> t.add == [] || t.remove == []
    ensures Agreed(ts) <==> Adds(ts) !! Removes(ts)
  {
    if u :| u in Adds(ts) && u in Removes(ts) {
      var t :| t in ts && u in t.add;
      assert Wants(t, u);
    }
  }

  /** The merge depends on which requests joined, not on their order; so does its meaning. */
  lemma OrderDoesNotMatter(ts: seq<Task>, us: seq<Task>, content: set<Unit>)
    requires multiset(ts) == multiset(us)
    ensures ApplyMerged(content, ts) == ApplyMerged(content, us)
    ensures Adds(ts) == Adds(us) && Removes(ts) == Removes(us) && Dirs(ts) == Dirs(us)
    ensures Agreed(ts) ==> ApplyAll(content, us) == ApplyMerged(content, ts)
  {
    forall t ensures t in ts <==> t in us {
      assert t in multiset(ts) <==> t in multiset(us);
    }
    if Agreed(ts) {
      assert Agreed(us);
      MergePreservesMeaning(us);
    }
  }

  /** A unit on both sides keeps its previous membership, and the sides sent are disjoint. */
  lemma BothSidesKeep(ts: seq<Task>, content: set<Unit>, u: Unit)
    requires u in Adds(ts) && u in Removes(ts)
    ensures u in ApplyMerged(content, ts) <==> u in content
    ensures (Adds(ts) - Removes(ts)) !! (Removes(ts) - Adds(ts))
  {
    assert u !in Adds(ts) - Removes(ts);
  }

  predicate NoneOversized(listed: seq<Listed>) {
    forall l :: l in listed && Pending(l.hash) ==> !Oversized(l.hash.task.value)
  }

  /** What the batch asks for over a listing, next to the own request. */
  function Asked(own: Task, listed: seq<Listed>): (set<Unit>, set<Unit>, set<string>) {
    var all := [own] + Tasks(ChosenOf(listed));
    (Adds(all) - Removes(all), Removes(all) - Adds(all), Dirs(all))
  }

  lemma ChosenWithoutOversized(listed: seq<Listed>, x: Chosen)
    requires NoneOversized(listed)
    ensures x in ChosenOf(listed) <==> Listed(x.key, Hash(Some(x.task), None)) in listed
  {
    assert forall i :: 0 <= i < |listed| ==> listed[i] in listed;
    var n := ChosenExactly(listed);
    if x in ChosenOf(listed) {
      var i :| 0 <= i < n && listed[i].key == x.key && listed[i].hash == Hash(Some(x.task), None);
      assert listed[i] == Listed(x.key, Hash(Some(x.task), None));
    }
    if i :| 0 <= i < |listed| && listed[i] == Listed(x.key, Hash(Some(x.task), None)) {
      assert i < n;
    }
  }

  /** Without an oversized request the order of the listing decides nothing: same requests, same result. */
  lemma ListingOrderDoesNotMatter(own: Task, a: seq<Listed>, b: seq<Listed>)
    requires multiset(a) == multiset(b) && NoneOversized(a)
    ensures forall x :: x in ChosenOf(a) <==> x in ChosenOf(b)
    ensures Asked(own, a) == Asked(own, b)
  {
    forall l ensures l in a <==> l in b {
      assert l in multiset(a) <==> l in multiset(b);
    }
    forall x ensures x in ChosenOf(a) <==> x in ChosenOf(b) {
      ChosenWithoutOversized(a, x);
      ChosenWithoutOversized(b, x);
    }
    SameTasks(ChosenOf(a), ChosenOf(b));
    SameSets([own] + Tasks(ChosenOf(a)), [own] + Tasks(ChosenOf(b)));
  }

  lemma SameSets(ts: seq<Task>, us: seq<Task>)
    requires forall t :: t in ts <==> t in us
    ensures Adds(ts) == Adds(us) && Removes(ts) == Removes(us) && Dirs(ts) == Dirs(us)
  {
  }

  lemma SameTasks(c: seq<Chosen>, d: seq<Chosen>)
    requires forall x :: x in c <==> x in d
    ensures forall t :: t in Tasks(c) <==> t in Tasks(d)
  {
    forall t ensures t in Tasks(c) <==> t in Tasks(d) {
      if t in Tasks(c) {
        var i :| 0 <= i < |c| && Tasks(c)[i] == t;
        assert c[i] in d;
        var j :| 0 <= j < |d| && d[j] == c[i];
        assert Tasks(d)[j] == t;
      }
      if t in Tasks(d) {
        var i :| 0 <= i < |d| && Tasks(d)[i] == t;
        assert d[i] in c;
        var j :| 0 <= j < |c| && c[j] == d[i];
        assert Tasks(c)[j] == t;
      }
    }
  }

  /** With one it does: a request joins when it is listed before the oversized one, and not after it. */
  lemma OversizedCutsOff(x: Listed, big: Listed)
    requires Pending(x.hash) && !Oversized(x.hash.task.value)
    requires Pending(big.hash) && Oversized(big.hash.task.value)
    ensures ChosenOf([x, big]) == [Chosen(x.key, x.hash.task.value)]
    ensures ChosenOf([big, x]) == []
  {
    assert [x, big][1..] == [big];
    assert ChosenOf([big]) == [];
  }
}
