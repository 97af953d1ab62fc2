/**
 The task queue of common/copr_common/worker_manager.py: a binary heap of entries that are
 shared with a dictionary, and removal that only overwrites the task of an entry in place.
 To its callers it is an ordered map: JobQueues.JobQueue.Live().
 */
module JobQueues {
  import opened Wrappers
  import opened Tasks

  /** What the heap compares of an entry: its first two elements, which never change. */
  datatype Key = Key(priority: int, count: nat)

  /**
   The [priority, count, task] list with number `count`.  The heap and the dictionary refer to
   an entry by this number, so both see it when the task is overwritten by the placeholder (None).
   */
  datatype Cell = Cell(priority: int, task: Option<Task>)

  /** List comparison of two entries; equal counts would make Python compare the tasks. */
  predicate Less(a: Key, b: Key) {
    a.priority < b.priority || (a.priority == b.priority && a.count < b.count)
  }

  function Parent(k: int): int {
    (k - 1) / 2
  }

  predicate IsHeap(h: seq<Key>) {
    forall k {:trigger Parent(k)} :: 0 < k < |h| ==> !Less(h[k], h[Parent(k)])
  }

  /** A heap but for entry i, which may be smaller than its parent. */
  predicate HeapButUp(h: seq<Key>, i: nat) {
    && (forall k {:trigger Parent(k)} :: 0 < k < |h| && k != i ==> !Less(h[k], h[Parent(k)]))
    && (forall k {:trigger Parent(k)} :: 0 < k < |h| && Parent(k) == i && 0 < i < |h| ==> !Less(h[k], h[Parent(i)]))
  }

  /** A heap but for entry i, which may be larger than its children. */
  predicate HeapButDown(h: seq<Key>, i: nat) {
    && (forall k {:trigger Parent(k)} :: 0 < k < |h| && Parent(k) != i ==> !Less(h[k], h[Parent(k)]))
    && (forall k {:trigger Parent(k)} :: 0 < k < |h| && Parent(k) == i && 0 < i < |h| ==> !Less(h[k], h[Parent(i)]))
  }

  function Swap(h: seq<Key>, i: nat, j: nat): (r: seq<Key>)
    requires i < |h| && j < |h|
    ensures |r| == |h| && multiset(r) == multiset(h)
    ensures forall k :: 0 <= k < |h| ==> r[k] == if k == i then h[j] else if k == j then h[i] else h[k]
  {
    h[i := h[j]][j := h[i]]
  }

  lemma {:induction false} RootIsLeast(h: seq<Key>, k: nat)
    requires IsHeap(h) && k < |h|
    ensures !Less(h[k], h[0])
  {
    if k > 0 {
      RootIsLeast(h, Parent(k));
    }
  }

  /** heappush: append, then sift up. */
  method HeapPush(h: seq<Key>, e: Key) returns (r: seq<Key>)
    requires IsHeap(h)
    ensures IsHeap(r) && multiset(r) == multiset(h) + multiset{e}
  {
    r := h + [e];
    var i := |h|;
    while i > 0 && Less(r[i], r[Parent(i)])
      invariant 0 <= i < |r|
      invariant multiset(r) == multiset(h) + multiset{e}
      invariant HeapButUp(r, i)
    {
      UpStep(r, i);
      r := Swap(r, i, Parent(i));
      i := Parent(i);
    }
    UpSettled(r, i);
  }

  lemma UpStep(h: seq<Key>, i: nat)
    requires 0 < i < |h| && HeapButUp(h, i) && Less(h[i], h[Parent(i)])
    ensures HeapButUp(Swap(h, i, Parent(i)), Parent(i))
  {
  }

  lemma UpSettled(h: seq<Key>, i: nat)
    requires i < |h| && HeapButUp(h, i) && (i > 0 ==> !Less(h[i], h[Parent(i)]))
    ensures IsHeap(h)
  {
  }

  /** heappop: the root goes, the last entry takes its place and sifts down. */
  method HeapPop(h: seq<Key>) returns (least: Key, r: seq<Key>)
    requires IsHeap(h) && h != []
    ensures IsHeap(r) && multiset(h) == multiset(r) + multiset{least}
    ensures least in h && |r| == |h| - 1
    ensures forall x :: x in h ==> !Less(x, least)
  {
    least := h[0];
    forall x | x in h ensures !Less(x, least) {
      var k :| 0 <= k < |h| && h[k] == x;
      RootIsLeast(h, k);
    }
    var last := h[|h| - 1];
    var rest := h[..|h| - 1];
    assert h == rest + [last];
    if rest == [] {
      return least, [];
    }
    assert rest == [least] + rest[1..];
    r := rest[0 := last];
    assert r == [last] + rest[1..];
    r := SiftDown(r);
  }

  method SiftDown(h: seq<Key>) returns (r: seq<Key>)
    requires h != [] && HeapButDown(h, 0)
    ensures IsHeap(r) && multiset(r) == multiset(h) && |r| == |h|
  {
    r := h;
    var i := 0;
    while 2 * i + 1 < |r|
      invariant 0 <= i < |r| == |h|
      invariant multiset(r) == multiset(h)
      invariant HeapButDown(r, i)
      decreases |r| - i
    {
      var c := SmallerChildOf(r, i);
      if !Less(r[c], r[i]) {
        DownSettled(r, i, c);
        return;
      }
      DownStep(r, i, c);
      r := Swap(r, i, c);
      i := c;
    }
    DownLeaf(r, i);
  }

  /** c is the smaller child of i. */
  predicate SmallerChild(h: seq<Key>, i: nat, c: nat) {
    && i < c < |h| && Parent(c) == i
    && forall k {:trigger Parent(k)} :: 0 < k < |h| && Parent(k) == i ==> !Less(h[k], h[c])
  }

  method SmallerChildOf(h: seq<Key>, i: nat) returns (c: nat)
    requires 2 * i + 1 < |h|
    ensures SmallerChild(h, i, c)
  {
    c := 2 * i + 1;
    if c + 1 < |h| && Less(h[c + 1], h[c]) {
      c := c + 1;
    }
  }

  lemma DownLeaf(h: seq<Key>, i: nat)
    requires HeapButDown(h, i) && i < |h| <= 2 * i + 1
    ensures IsHeap(h)
  {
  }

  lemma DownSettled(h: seq<Key>, i: nat, c: nat)
    requires HeapButDown(h, i) && SmallerChild(h, i, c) && !Less(h[c], h[i])
    ensures IsHeap(h)
  {
  }

  lemma DownStep(h: seq<Key>, i: nat, c: nat)
    requires HeapButDown(h, i) && SmallerChild(h, i, c) && Less(h[c], h[i])
    ensures HeapButDown(Swap(h, i, c), c)
  {
  }

  /** h is a heap of exactly the numbered cells, each once. */
  ghost predicate Shape(h: seq<Key>, cells: map<nat, Cell>, n: nat) {
    && IsHeap(h)
    && (forall k :: k in multiset(h) ==> k.count < n && k.count in cells && cells[k.count].priority == k.priority)
    && (forall c :: c in cells ==> multiset(h)[Key(cells[c].priority, c)] == 1)
  }

  lemma PushShape(h: seq<Key>, r: seq<Key>, cells: map<nat, Cell>, n: nat, x: Cell)
    requires Shape(h, cells, n)
    requires IsHeap(r) && multiset(r) == multiset(h) + multiset{Key(x.priority, n)}
    ensures n !in cells && Shape(r, cells[n := x], n + 1) && |r| == |h| + 1
  {
    assert |multiset(r)| == |r| && |multiset(h)| == |h|;
    assert n in cells ==> multiset(h)[Key(cells[n].priority, n)] == 1;
  }

  lemma PopShape(h: seq<Key>, k: Key, r: seq<Key>, cells: map<nat, Cell>, n: nat)
    requires Shape(h, cells, n) && k in h
    requires IsHeap(r) && multiset(h) == multiset(r) + multiset{k}
    ensures k.count in cells && cells[k.count].priority == k.priority
    ensures Shape(r, cells - {k.count}, n)
  {
    assert k in multiset(h);
    forall x | x in multiset(r) ensures x.count != k.count {
      assert x in multiset(h);
    }
  }

  /** Overwriting the task of an entry in place keeps the heap as it is. */
  lemma ClearShape(h: seq<Key>, cells: map<nat, Cell>, n: nat, c: nat)
    requires Shape(h, cells, n) && c in cells
    ensures Shape(h, cells[c := cells[c].(task := None)], n)
  {
  }

  /** No two entries of a queue have the same number, so the tasks themselves are never compared. */
  lemma CountsDiffer(h: seq<Key>, cells: map<nat, Cell>, n: nat, i: nat, j: nat)
    requires Shape(h, cells, n) && i < j < |h|
    ensures h[i].count != h[j].count
  {
    assert h[i] in multiset(h) && h[j] in multiset(h);
    if h[i] == h[j] {
      TwiceInMultiset(h, i, j);
    }
  }

  lemma TwiceInMultiset(h: seq<Key>, i: nat, j: nat)
    requires i < j < |h| && h[i] == h[j]
    ensures multiset(h)[h[i]] >= 2
  {
    var rest := h[i + 1..];
    assert h == h[..i] + [h[i]] + rest;
    assert rest[j - i - 1] == h[j];
    assert h[j] in multiset(rest);
  }

  lemma LeastOf(h: seq<Key>, cells: map<nat, Cell>, n: nat, k: Key, c: nat)
    requires Shape(h, cells, n) && c in cells
    requires forall x :: x in h ==> !Less(x, k)
    ensures !Less(Key(cells[c].priority, c), k)
  {
    assert Key(cells[c].priority, c) in multiset(h);
  }

  // ---------------------------------------------------------------- the ordered map

  datatype Item = Item(priority: int, count: nat, task: Task)

  /** Earlier in the queue: smaller priority, then earlier arrival. */
  predicate Before(a: Item, b: Item) {
    a.priority < b.priority || (a.priority == b.priority && a.count < b.count)
  }

  /** id is first among the live tasks. */
  predicate First(live: map<Id, Item>, id: Id) {
    id in live && forall x :: x in live && x != id ==> Before(live[id], live[x])
  }

  /** One-to-one: the dictionary finds exactly the cells that still carry a task. */
  ghost predicate Linked(cells: map<nat, Cell>, finder: map<Id, nat>) {
    && (forall id :: id in finder ==> Finds(cells, finder[id], id))
    && (forall c :: c in cells && cells[c].task.Some? ==>
          cells[c].task.value.id in finder && finder[cells[c].task.value.id] == c)
  }

  predicate Finds(cells: map<nat, Cell>, c: nat, id: Id) {
    c in cells && cells[c].task.Some? && cells[c].task.value.id == id
  }

  function ItemOf(cells: map<nat, Cell>, c: nat): Item
    requires c in cells && cells[c].task.Some?
  {
    Item(cells[c].priority, c, cells[c].task.value)
  }

  /** What the queue holds, for its callers. */
  ghost function Live(cells: map<nat, Cell>, finder: map<Id, nat>): map<Id, Item>
    requires Linked(cells, finder)
  {
    map id | id in finder :: ItemOf(cells, finder[id])
  }

  lemma LinkNew(cells: map<nat, Cell>, finder: map<Id, nat>, n: nat, priority: int, task: Task)
    requires Linked(cells, finder) && n !in cells && task.id !in finder
    ensures var cells', finder' := cells[n := Cell(priority, Some(task))], finder[task.id := n];
            && Linked(cells', finder')
            && Live(cells', finder') == Live(cells, finder)[task.id := Item(priority, n, task)]
  {
    var cells', finder' := cells[n := Cell(priority, Some(task))], finder[task.id := n];
    forall id | id in finder' ensures Finds(cells', finder'[id], id) {
      if id != task.id { assert Finds(cells, finder[id], id); }
    }
  }

  lemma Unlink(cells: map<nat, Cell>, finder: map<Id, nat>, id: Id)
    requires Linked(cells, finder) && id in finder
    ensures Finds(cells, finder[id], id)
    ensures var cells' := cells[finder[id] := cells[finder[id]].(task := None)];
            && Linked(cells', finder - {id})
            && Live(cells', finder - {id}) == Live(cells, finder) - {id}
  {
    var cells' := cells[finder[id] := cells[finder[id]].(task := None)];
    forall x | x in finder - {id} ensures Finds(cells', finder[x], x) && finder[x] != finder[id] {
      assert Finds(cells, finder[x], x);
    }
  }

  lemma DropCell(cells: map<nat, Cell>, finder: map<Id, nat>, c: nat)
    requires Linked(cells, finder) && c in cells && cells[c].task.None?
    ensures Linked(cells - {c}, finder) && Live(cells - {c}, finder) == Live(cells, finder)
  {
    forall x | x in finder ensures Finds(cells - {c}, finder[x], x) {
      assert Finds(cells, finder[x], x);
    }
  }

  lemma DropLive(cells: map<nat, Cell>, finder: map<Id, nat>, c: nat)
    requires Linked(cells, finder) && c in cells && cells[c].task.Some?
    ensures var id := cells[c].task.value.id;
            && Linked(cells - {c}, finder - {id})
            && Live(cells - {c}, finder - {id}) == Live(cells, finder) - {id}
  {
    var id := cells[c].task.value.id;
    forall x | x in finder - {id} ensures Finds(cells - {c}, finder[x], x) {
      assert Finds(cells, finder[x], x);
    }
  }

  lemma EmptyHeap(cells: map<nat, Cell>, finder: map<Id, nat>, n: nat)
    requires Shape([], cells, n) && Linked(cells, finder)
    ensures Live(cells, finder) == map[]
  {
    assert forall id :: id in finder ==> Finds(cells, finder[id], id);
    assert forall c :: c in cells ==> multiset([])[Key(cells[c].priority, c)] == 1;
  }

  lemma LeastIsFirst(h: seq<Key>, cells: map<nat, Cell>, finder: map<Id, nat>, n: nat, k: Key)
    requires Shape(h, cells, n) && Linked(cells, finder)
    requires k.count in cells && cells[k.count].priority == k.priority && cells[k.count].task.Some?
    requires forall x :: x in h ==> !Less(x, k)
    ensures var live, task := Live(cells, finder), cells[k.count].task.value;
            First(live, task.id) && live[task.id].task == task
  {
    var live, first := Live(cells, finder), cells[k.count].task.value.id;
    forall id | id in live && id != first ensures Before(live[first], live[id]) {
      assert Finds(cells, finder[id], id);
      LeastOf(h, cells, n, k, finder[id]);
    }
  }

  lemma ReAdd(m: map<Id, Item>, id: Id, x: Item)
    ensures (m - {id})[id := x] == m[id := x]
    ensures id !in m ==> m - {id} == m
  {
  }

  class JobQueue {
    var prioQueue: seq<Key>
    var cells: map<nat, Cell>
    var entryFinder: map<Id, nat>
    var counter: nat

    ghost predicate Valid()
      reads this
    {
      Shape(prioQueue, cells, counter) && Linked(cells, entryFinder)
    }

    ghost function Tasks(): map<Id, Item>
      reads this
      requires Valid()
    {
      Live(cells, entryFinder)
    }

    constructor ()
      ensures Valid() && Tasks() == map[] && counter == 0 && prioQueue == []
    {
      prioQueue, cells, entryFinder, counter := [], map[], map[], 0;
    }

    method AddTask(task: Task, priority: int)
      requires Valid()
      modifies this
      ensures Valid()
      ensures Tasks() == old(Tasks())[task.id := Item(priority, old(counter), task)]
      ensures counter == old(counter) + 1 && |prioQueue| == |old(prioQueue)| + 1
    {
      if task.id in entryFinder {
        var _ := RemoveTaskById(task.id);
      }
      AddNewTask(task, priority);
      ReAdd(old(Tasks()), task.id, Item(priority, old(counter), task));
    }

    method AddNewTask(task: Task, priority: int)
      requires Valid() && task.id !in Tasks()
      modifies this
      ensures Valid()
      ensures Tasks() == old(Tasks())[task.id := Item(priority, old(counter), task)]
      ensures counter == old(counter) + 1 && |prioQueue| == |old(prioQueue)| + 1
    {
      var h := HeapPush(prioQueue, Key(priority, counter));
      PushShape(prioQueue, h, cells, counter, Cell(priority, Some(task)));
      LinkNew(cells, entryFinder, counter, priority, task);
      prioQueue, counter := h, counter + 1;
      cells, entryFinder := cells[counter - 1 := Cell(priority, Some(task))], entryFinder[task.id := counter - 1];
    }

    /** Returns false where the source raises KeyError. */
    method RemoveTaskById(id: Id) returns (found: bool)
      requires Valid()
      modifies this
      ensures Valid() && prioQueue == old(prioQueue) && counter == old(counter)
      ensures found <==> id in old(Tasks())
      ensures Tasks() == old(Tasks()) - {id}
    {
      if id !in entryFinder {
        return false;
      }
      Unlink(cells, entryFinder, id);
      var c := entryFinder[id];
      ClearShape(prioQueue, cells, counter, c);
      entryFinder := entryFinder - {id};
      cells := cells[c := cells[c].(task := None)];
      return true;
    }

    /** The first live task; None where the source raises KeyError. */
    method PopTask() returns (task: Option<Task>)
      requires Valid()
      modifies this
      ensures Valid() && counter == old(counter)
      ensures task.None? ==> old(Tasks()) == map[] && Tasks() == map[] && prioQueue == []
      ensures task.Some? ==>
                && First(old(Tasks()), task.value.id)
                && task.value == old(Tasks())[task.value.id].task
                && Tasks() == old(Tasks()) - {task.value.id}
                && |prioQueue| < |old(prioQueue)|
    {
      while prioQueue != []
        invariant Valid() && Tasks() == old(Tasks()) && counter == old(counter)
        invariant |prioQueue| <= |old(prioQueue)|
        decreases |prioQueue|
      {
        task := PopEntry();
        if task.Some? {
          return;
        }
      }
      EmptyHeap(cells, entryFinder, counter);
      return None;
    }

    /** What a heappop leaves, whether it took a placeholder or a live task. */
    ghost predicate Popped(was: map<Id, Item>, now: map<Id, Item>, task: Option<Task>) {
      if task.None? then now == was
      else First(was, task.value.id) && task.value == was[task.value.id].task && now == was - {task.value.id}
    }

    /** One heappop: a placeholder changes nothing, a live task is the first one. */
    method PopEntry() returns (task: Option<Task>)
      requires Valid() && prioQueue != []
      modifies this
      ensures Valid() && counter == old(counter) && |prioQueue| == |old(prioQueue)| - 1
      ensures Popped(old(Tasks()), Tasks(), task)
    {
      var k, rest := HeapPop(prioQueue);
      PopShape(prioQueue, k, rest, cells, counter);
      task := cells[k.count].task;
      if task.Some? {
        LeastIsFirst(prioQueue, cells, entryFinder, counter, k);
        DropLive(cells, entryFinder, k.count);
        entryFinder := entryFinder - {task.value.id};
      } else {
        DropCell(cells, entryFinder, k.count);
      }
      prioQueue, cells := rest, cells - {k.count};
    }
  }
}
