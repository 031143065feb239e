/** The job queue: an array heap of job wrappers that know their own position
    (pkg/types/priority_queue.go), driven through the push, pop, up and down of
    Go's container/heap. Every method here is one critical section of the queue's
    mutex; module QueueWakeups treats the condition variable. */
module PriorityQueues {
  import opened Options

  /** A job together with its priority. */
  datatype Entry = Entry(job: string, priority: int)

  class PriorityJob {
    const entry: Entry
    var index: int  // position in the heap, -1 once popped

    constructor (job: string, priority: int)
      ensures entry == Entry(job, priority)
    {
      entry := Entry(job, priority);
      index := 0;
    }
  }

  function Parent(i: nat): nat { if i == 0 then 0 else (i - 1) / 2 }

  function Rank(s: seq<PriorityJob>, i: nat): int
    requires i < |s|
  {
    s[i].entry.priority
  }

  /** No item has a greater priority than its parent. */
  ghost predicate HeapOrder(s: seq<PriorityJob>)
  {
    forall i :: 0 < i < |s| ==> Rank(s, Parent(i)) >= Rank(s, i)
  }

  function Entries(s: seq<PriorityJob>): (r: seq<Entry>)
    ensures |r| == |s| && forall i :: 0 <= i < |s| ==> r[i] == s[i].entry
  {
    seq(|s|, i requires 0 <= i < |s| => s[i].entry)
  }

  function Bag(s: seq<PriorityJob>): multiset<Entry> { multiset(Entries(s)) }

  function Exchanged<T>(s: seq<T>, i: nat, j: nat): seq<T>
    requires i < |s| && j < |s|
  {
    s[i := s[j]][j := s[i]]
  }

  lemma ExchangeKeepsBag(s: seq<PriorityJob>, i: nat, j: nat)
    requires i < |s| && j < |s|
    ensures Bag(Exchanged(s, i, j)) == Bag(s)
  {
    assert Entries(Exchanged(s, i, j)) == Exchanged(Entries(s), i, j);
  }

  lemma BagAppend(s: seq<PriorityJob>, x: PriorityJob)
    ensures Bag(s + [x]) == Bag(s) + multiset{x.entry}
  {
    assert Entries(s + [x]) == Entries(s) + [x.entry];
  }

  /** In a heap the first item has a greatest priority. */
  lemma {:induction false} RootIsGreatest(s: seq<PriorityJob>, i: nat)
    requires HeapOrder(s) && i < |s|
    ensures Rank(s, 0) >= Rank(s, i)
  {
    if i > 0 {
      RootIsGreatest(s, Parent(i));
    }
  }

  /** `e` is in the bag and nothing in the bag outranks it. */
  ghost predicate Greatest(bag: multiset<Entry>, e: Entry)
  {
    e in bag && forall x :: x in bag ==> x.priority <= e.priority
  }

  lemma RootEntryIsGreatest(s: seq<PriorityJob>)
    requires HeapOrder(s) && s != []
    ensures Greatest(Bag(s), s[0].entry)
  {
    assert Entries(s)[0] == s[0].entry;
    forall x | x in Bag(s) ensures x.priority <= s[0].entry.priority {
      assert x in Entries(s);
      var i: nat :| i < |s| && Entries(s)[i] == x;
      RootIsGreatest(s, i);
    }
  }

  class PriorityQueue {
    var items: seq<PriorityJob>
    ghost var Repr: set<PriorityJob>

    /** Each wrapper knows its position; so they are distinct objects. */
    ghost predicate Indexed()
      reads this, Repr
    {
      forall i :: 0 <= i < |items| ==> items[i] in Repr && items[i].index == i
    }

    ghost predicate Valid()
      reads this, Repr
    {
      Indexed() && HeapOrder(items)
    }

    constructor ()
      ensures Valid() && items == [] && Repr == {}
    {
      items, Repr := [], {};
    }

    predicate Less(i: nat, j: nat)
      requires i < |items| && j < |items|
      reads this
    {
      items[i].entry.priority > items[j].entry.priority
    }

    method Swap(i: nat, j: nat)
      requires i < |items| && j < |items| && Indexed()
      modifies this, Repr
      ensures items == Exchanged(old(items), i, j) && Indexed() && Repr == old(Repr)
      ensures Bag(items) == old(Bag(items))
    {
      ExchangeKeepsBag(items, i, j);
      items := items[i := items[j]][j := items[i]];
      items[i].index := i;
      items[j].index := j;
    }

    method Push(x: PriorityJob)
      requires Indexed() && x !in Repr
      modifies this, x
      ensures items == old(items) + [x] && Indexed() && Repr == old(Repr) + {x}
    {
      x.index := |items|;
      items, Repr := items + [x], Repr + {x};
    }

    method Pop() returns (x: PriorityJob)
      requires Indexed() && items != []
      modifies this, Repr
      ensures x == old(items)[|old(items)| - 1] && x.index == -1
      ensures items == old(items)[..|old(items)| - 1] && Indexed() && Repr == old(Repr) - {x}
    {
      var n := |items|;
      x := items[n - 1];
      x.index := -1;
      items, Repr := items[..n - 1], Repr - {x};
    }

    /** Restores the order when only items[at] may outrank its parent. */
    method Up(at: nat)
      requires at < |items| && Indexed()
      requires RisingAt(items, at)
      modifies this, Repr
      ensures Valid() && Bag(items) == old(Bag(items)) && |items| == |old(items)| && Repr == old(Repr)
    {
      var j: nat := at;
      while true
        invariant j < |items| == |old(items)| && Indexed() && RisingAt(items, j) && Repr == old(Repr)
        invariant Bag(items) == old(Bag(items))
        decreases j
      {
        var i := Parent(j);
        if i == j || !Less(j, i) {
          break;
        }
        RiseStep(items, j);
        Swap(i, j);
        j := i;
      }
    }

    /** Restores the order of the first n items when only items[at] may be outranked
        by a child; the items from n on stay where they are. */
    method Down(at: nat, n: nat)
      requires n <= |items| && Indexed()
      requires SinkingAt(items, at, n)
      modifies this, Repr
      ensures Indexed() && |items| == |old(items)| && Repr == old(Repr)
      ensures HeapOrder(items[..n]) && items[n..] == old(items)[n..]
      ensures Bag(items) == old(Bag(items))
    {
      var i := at;
      while true
        invariant |items| == |old(items)| && Indexed() && SinkingAt(items, i, n) && Repr == old(Repr)
        invariant items[n..] == old(items)[n..]
        invariant Bag(items) == old(Bag(items))
        decreases if n > i then n - i else 0
      {
        if 2 * i + 1 >= n {
          SinkLeaf(items, i, n);
          break;
        }
        var j := PickChild(items, i, n);
        if !Less(j, i) {
          SinkDone(items, i, j, n);
          break;
        }
        SinkStep(items, i, j, n);
        ExchangeTail(items, i, j, n);
        Swap(i, j);
        i := j;
      }
    }

    method Enqueue(job: string, priority: int)
      requires Valid()
      modifies this, Repr
      ensures Valid() && Bag(items) == old(Bag(items)) + multiset{Entry(job, priority)}
      ensures Repr >= old(Repr) && fresh(Repr - old(Repr))
    {
      var item := new PriorityJob(job, priority);
      BagAppend(items, item);
      Push(item);
      Up(|items| - 1);
    }

    /** The first half of heap.Pop: the root goes last, the rest becomes a heap. */
    method RootToEnd()
      requires Valid() && items != []
      modifies this, Repr
      ensures Indexed() && |items| == |old(items)| && items[|items| - 1] == old(items)[0] && Repr == old(Repr)
      ensures HeapOrder(items[..|items| - 1])
      ensures Bag(items[..|items| - 1]) + multiset{old(items)[0].entry} == old(Bag(items))
    {
      var n := |items| - 1;
      ghost var s, t := items, Exchanged(items, 0, n);
      SinkFromRoot(s, n);
      Swap(0, n);
      Down(0, n);
      assert items[n] == t[n] == s[0] by {
        assert items[n..][0] == t[n..][0];
      }
      BagSplit(items, n);
    }

    /** heap.Pop: takes the root out. */
    method HeapPop() returns (x: PriorityJob)
      requires Valid() && items != []
      modifies this, Repr
      ensures Valid() && x == old(items)[0] && x.index == -1 && Repr == old(Repr) - {x}
      ensures Greatest(old(Bag(items)), x.entry)
      ensures Bag(items) + multiset{x.entry} == old(Bag(items))
    {
      RootEntryIsGreatest(items);
      RootToEnd();
      x := Pop();
    }

    /** Dequeue once its wait loop has seen a non-empty queue. */
    method Dequeue() returns (job: string, ghost entry: Entry)
      requires Valid() && items != []
      modifies this, Repr
      ensures Valid() && Repr <= old(Repr) && job == entry.job && Greatest(old(Bag(items)), entry)
      ensures Bag(items) + multiset{entry} == old(Bag(items))
    {
      var item := HeapPop();
      job, entry := item.entry.job, item.entry;
    }

    method TryDequeue() returns (r: Option<string>, ghost entry: Entry)
      requires Valid()
      modifies this, Repr
      ensures Valid() && Repr <= old(Repr) && (r.None? <==> old(items) == [])
      ensures r.None? ==> items == []
      ensures r.Some? ==> r.value == entry.job && Greatest(old(Bag(items)), entry)
      ensures r.Some? ==> Bag(items) + multiset{entry} == old(Bag(items))
    {
      if |items| == 0 {
        return None, Entry("", 0);
      }
      var item := HeapPop();
      r, entry := Some(item.entry.job), item.entry;
    }
  }

  // ------------------------------------------------------- one step of either sift

  /** A heap but for items[j], which may outrank its parent. */
  ghost predicate RisingAt(s: seq<PriorityJob>, j: nat)
  {
    && (forall k :: 0 < k < |s| && k != j ==> Rank(s, Parent(k)) >= Rank(s, k))
    && (forall k :: 0 < k < |s| && Parent(k) == j && 0 < j ==> Rank(s, Parent(j)) >= Rank(s, k))
  }

  /** The first n items are a heap but for s[i], which its children may outrank. */
  ghost predicate SinkingAt(s: seq<PriorityJob>, i: nat, n: nat)
    requires n <= |s|
  {
    && (forall k :: 0 < k < n && Parent(k) != i ==> Rank(s, Parent(k)) >= Rank(s, k))
    && (forall k :: 0 < k < n && Parent(k) == i && 0 < i ==> Rank(s, Parent(i)) >= Rank(s, k))
  }

  lemma RiseStep(s: seq<PriorityJob>, j: nat)
    requires j < |s| && RisingAt(s, j) && Parent(j) != j && Rank(s, j) > Rank(s, Parent(j))
    ensures RisingAt(Exchanged(s, Parent(j), j), Parent(j))
  {}

  lemma SinkStep(s: seq<PriorityJob>, i: nat, j: nat, n: nat)
    requires n <= |s| && SinkingAt(s, i, n) && 0 < j < n && Parent(j) == i
    requires Rank(s, j) > Rank(s, i)
    requires forall k :: 0 < k < n && Parent(k) == i ==> Rank(s, j) >= Rank(s, k)
    ensures SinkingAt(Exchanged(s, i, j), j, n)
  {}

  /** The child that `down` compares with its parent: the right one only if it is
      strictly greater. */
  function PickChild(s: seq<PriorityJob>, i: nat, n: nat): (j: nat)
    requires n <= |s| && 2 * i + 1 < n
    ensures i < j < n && Parent(j) == i
    ensures forall k :: 0 < k < n && Parent(k) == i ==> Rank(s, j) >= Rank(s, k)
  {
    var left, right := 2 * i + 1, 2 * i + 2;
    if right < n && Rank(s, right) > Rank(s, left) then right else left
  }

  lemma SinkLeaf(s: seq<PriorityJob>, i: nat, n: nat)
    requires n <= |s| && SinkingAt(s, i, n) && 2 * i + 1 >= n
    ensures HeapOrder(s[..n])
  {}

  lemma SinkDone(s: seq<PriorityJob>, i: nat, j: nat, n: nat)
    requires n <= |s| && SinkingAt(s, i, n) && i < j < n && Rank(s, j) <= Rank(s, i)
    requires forall k :: 0 < k < n && Parent(k) == i ==> Rank(s, j) >= Rank(s, k)
    ensures HeapOrder(s[..n])
  {}

  lemma ExchangeTail(s: seq<PriorityJob>, i: nat, j: nat, n: nat)
    requires i < n && j < n && n <= |s|
    ensures Exchanged(s, i, j)[n..] == s[n..]
  {}

  lemma BagSplit(s: seq<PriorityJob>, n: nat)
    requires n + 1 == |s|
    ensures Bag(s) == Bag(s[..n]) + multiset{s[n].entry}
  {
    assert s == s[..n] + [s[n]];
    BagAppend(s[..n], s[n]);
  }

  lemma SinkFromRoot(s: seq<PriorityJob>, n: nat)
    requires HeapOrder(s) && n < |s|
    ensures SinkingAt(Exchanged(s, 0, n), 0, n)
  {}
}
