/**
 * The PriorityQueue container: a binary min-heap kept in a list, arranged
 * as Python's `heapq.heappush` and `heapq.heappop` arrange it.
 */
module PriorityQueues {
  import opened Values
  import opened Text
  import opened Utils

  function Parent(c: nat): nat
    requires c > 0
  {
    (c - 1) / 2
  }

  /** The min-heap invariant: no element is smaller than its parent. */
  predicate IsHeap(a: seq<int>)
  {
    forall c :: 0 < c < |a| ==> a[Parent(c)] <= a[c]
  }

  /**
   * A heap except for the edge into position `k`; the parent of `k` is no
   * larger than the children of `k`.
   */
  ghost predicate HeapExceptUp(a: seq<int>, k: nat)
  {
    k < |a| &&
    (forall c :: 0 < c < |a| && c != k ==> a[Parent(c)] <= a[c]) &&
    (k > 0 ==> forall c :: 0 < c < |a| && Parent(c) == k ==> a[Parent(k)] <= a[c])
  }

  /**
   * A heap except for the edges touching position `k`; the parent of `k` is
   * no larger than the children of `k`.
   */
  ghost predicate HeapExceptHole(a: seq<int>, k: nat)
  {
    k < |a| &&
    (forall c :: 0 < c < |a| && c != k && Parent(c) != k ==> a[Parent(c)] <= a[c]) &&
    (k > 0 ==> forall c :: 0 < c < |a| && Parent(c) == k ==> a[Parent(k)] <= a[c])
  }

  lemma ParentOf(d: nat, k: nat)
    requires d > 0
    ensures Parent(d) == k <==> d == 2 * k + 1 || d == 2 * k + 2
  {
  }

  /** At a leaf, a hole is only a hole above. */
  lemma LeafHole(a: seq<int>, k: nat)
    requires HeapExceptHole(a, k) && 2 * k + 1 >= |a|
    ensures HeapExceptUp(a, k)
  {
    forall d | 0 < d < |a| ensures Parent(d) != k {
      ParentOf(d, k);
    }
  }

  /** One step of `SiftUp`: trading places with a larger parent. */
  lemma SiftUpStep(a: seq<int>, k: nat)
    requires HeapExceptUp(a, k) && k > 0 && a[k] < a[Parent(k)]
    ensures HeapExceptUp(a[k := a[Parent(k)]][Parent(k) := a[k]], Parent(k))
  {
    var p := Parent(k);
    var b := a[k := a[p]][p := a[k]];
    forall c | 0 < c < |b| && c != p
      ensures b[Parent(c)] <= b[c]
    {
      if c == k {
      } else if Parent(c) == p {
        assert a[Parent(c)] <= a[c];
      } else if Parent(c) == k {
        assert a[Parent(k)] <= a[c];
      } else {
        assert a[Parent(c)] <= a[c];
      }
    }
    if p > 0 {
      forall c | 0 < c < |b| && Parent(c) == p
        ensures b[Parent(p)] <= b[c]
      {
        assert a[Parent(p)] <= a[p];
        if c != k {
          assert a[p] <= a[c];
        }
      }
    }
  }

  /** One step of `SiftToLeaf`: trading places with the smaller child `c`. */
  lemma SiftDownStep(a: seq<int>, k: nat, c: nat)
    requires HeapExceptHole(a, k) && c < |a| && c > 0 && Parent(c) == k
    requires forall d :: 0 < d < |a| && Parent(d) == k ==> a[c] <= a[d]
    ensures HeapExceptHole(a[k := a[c]][c := a[k]], c)
  {
    var b := a[k := a[c]][c := a[k]];
    forall d | 0 < d < |b| && d != c && Parent(d) != c
      ensures b[Parent(d)] <= b[d]
    {
      if d == k {
        assert a[Parent(k)] <= a[c];
      } else if Parent(d) == k {
        assert a[c] <= a[d];
      } else {
        assert a[Parent(d)] <= a[d];
      }
    }
    forall d | 0 < d < |b| && Parent(d) == c
      ensures b[Parent(c)] <= b[d]
    {
      assert a[Parent(d)] <= a[d];
    }
  }

  /** The child `SiftToLeaf` moves to: the smaller one, the right one on a tie. */
  function SmallerChild(a: seq<int>, k: nat): (c: nat)
    requires 2 * k + 1 < |a|
    ensures k < c < |a|
  {
    if 2 * k + 2 < |a| && !(a[2 * k + 1] < a[2 * k + 2]) then 2 * k + 2 else 2 * k + 1
  }

  /** `SiftDownStep` for the child `SiftToLeaf` picks. */
  lemma SmallerChildStep(a: seq<int>, k: nat)
    requires HeapExceptHole(a, k) && 2 * k + 1 < |a|
    ensures var c := SmallerChild(a, k);
            HeapExceptHole(a[k := a[c]][c := a[k]], c) &&
            multiset(a[k := a[c]][c := a[k]]) == multiset(a)
  {
    var c := SmallerChild(a, k);
    forall d | 0 < d < |a| && Parent(d) == k ensures a[c] <= a[d] {
      ParentOf(d, k);
    }
    ParentOf(c, k);
    SwapPreservesMultiset(a, k, c);
    SiftDownStep(a, k, c);
  }

  /** The root of a heap is its minimum. */
  lemma {:induction false} HeapMin(a: seq<int>, i: nat)
    requires IsHeap(a) && i < |a|
    ensures a[0] <= a[i]
    decreases i
  {
    if i > 0 {
      HeapMin(a, Parent(i));
    }
  }

  /**
   * `heapq._siftdown(heap, 0, k)`: the element at `k` moves up past every
   * larger ancestor.
   */
  method SiftUp(a0: seq<int>, k0: nat) returns (a: seq<int>)
    requires HeapExceptUp(a0, k0)
    ensures IsHeap(a) && |a| == |a0| && multiset(a) == multiset(a0)
  {
    a := a0;
    var k := k0;
    while k > 0 && a[k] < a[Parent(k)]
      invariant HeapExceptUp(a, k) && |a| == |a0| && multiset(a) == multiset(a0)
      decreases k
    {
      var p := Parent(k);
      SwapPreservesMultiset(a, k, p);
      SiftUpStep(a, k);
      a := a[k := a[p]][p := a[k]];
      k := p;
    }
  }

  /**
   * The first phase of `heapq._siftup(heap, 0)`: the element at the root
   * moves down to a leaf, each time trading places with the smaller child
   * (the right one on a tie).
   */
  method SiftToLeaf(a0: seq<int>) returns (a: seq<int>, k: nat)
    requires a0 != [] && HeapExceptHole(a0, 0)
    ensures HeapExceptUp(a, k) && |a| == |a0| && multiset(a) == multiset(a0)
  {
    a := a0;
    k := 0;
    while 2 * k + 1 < |a|
      invariant HeapExceptHole(a, k) && |a| == |a0| && multiset(a) == multiset(a0)
      decreases |a| - k
    {
      var c := SmallerChild(a, k);
      SmallerChildStep(a, k);
      a := a[k := a[c]][c := a[k]];
      k := c;
    }
    LeafHole(a, k);
  }

  /** `heapq.heappush(heap, item)`. */
  method HeapPush(heap: seq<int>, item: int) returns (r: seq<int>)
    requires IsHeap(heap)
    ensures IsHeap(r) && multiset(r) == multiset(heap) + multiset{item}
    ensures |r| == |heap| + 1
  {
    r := SiftUp(heap + [item], |heap|);
  }

  /** `heapq.heappop(heap)`: the root leaves, the last element fills its place. */
  method HeapPop(heap: seq<int>) returns (item: int, r: seq<int>)
    requires IsHeap(heap) && heap != []
    ensures item == heap[0]
    ensures IsHeap(r) && multiset(r) + multiset{item} == multiset(heap)
    ensures |r| == |heap| - 1
  {
    var last := heap[|heap| - 1];
    var rest := heap[..|heap| - 1];
    assert heap == rest + [last];
    if rest == [] {
      return last, rest;
    }
    item := rest[0];
    var a := rest[0 := last];
    assert multiset(a) == multiset(rest) - multiset{item} + multiset{last};
    var b, k := SiftToLeaf(a);
    r := SiftUp(b, k);
  }

  function PriorityQueueDeclareState(id: nat, name: string, comments: string): State
  {
    MakeState("priorityqueue_declare",
              VDict([Field("id", VStr(NatText(id))), Field("variable_name", VStr(name)),
                     Field("body", VList([]))]), comments)
  }

  function PriorityQueueOfferState(id: nat, name: string, body: seq<int>, element: int,
                                   comments: string): State
  {
    MakeState("priorityqueue_offer",
              VDict([Field("id", VStr(NatText(id))), Field("variable_name", VStr(name)),
                     Field("body", VList(Ints(body))), Field("element", VInt(element))]), comments)
  }

  function PriorityQueuePollState(id: nat, name: string, body: seq<int>, comments: string): State
  {
    MakeState("priorityqueue_poll",
              VDict([Field("id", VStr(NatText(id))), Field("variable_name", VStr(name)),
                     Field("body", VList(Ints(body)))]), comments)
  }

  function PriorityQueuePeekState(id: nat, name: string, body: seq<int>, comments: string): State
  {
    MakeState("priorityqueue_peek",
              VDict([Field("id", VStr(NatText(id))), Field("variable_name", VStr(name)),
                     Field("body", VList(Ints(body)))]), comments)
  }

  const EmptyPriorityQueue := ARgorithmError(["queue is empty"])

  class PriorityQueue {
    const name: string
    const id: nat
    const algo: StateSet
    var body: seq<int>

    /** The heap invariant every operation keeps. */
    predicate Valid()
      reads this`body
    {
      IsHeap(body)
    }

    /** A new empty priority queue with a fresh identity; its declaration is recorded. */
    constructor (name: string, algo: StateSet, comments: string)
      modifies algo`states, algo`nextId
      ensures Valid()
      ensures this.name == name && this.algo == algo && body == []
      ensures id == old(algo.nextId) && algo.nextId == id + 1
      ensures algo.states == old(algo.states) + [PriorityQueueDeclareState(id, name, comments)]
    {
      var fid := algo.FreshId();
      this.name := name;
      this.id := fid;
      this.algo := algo;
      body := [];
      new;
      algo.AddState(PriorityQueueDeclareState(fid, name, comments));
    }

    /** The reference other containers hold to this one. */
    function Ref(): Val
    {
      VRef(Obj(PriorityQueueClass, id))
    }

    function Len(): nat
      reads this`body
    {
      |body|
    }

    /** `empty()`: true exactly when nothing is stored. */
    function Empty(): (r: bool)
      reads this`body
      ensures r <==> body == []
    {
      Len() == 0
    }

    /**
     * `offer(element)`: the stored elements gain one copy of `element`, the
     * heap order holds and the front is the minimum.
     */
    method Offer(element: int, comments: string)
      requires Valid()
      modifies this`body, algo`states
      ensures Valid()
      ensures multiset(body) == old(multiset(body)) + multiset{element}
      ensures forall i :: 0 <= i < |body| ==> body[0] <= body[i]
      ensures algo.states ==
                old(algo.states) + [PriorityQueueOfferState(id, name, body, element, comments)]
    {
      body := HeapPush(body, element);
      forall i | 0 <= i < |body| ensures body[0] <= body[i] {
        HeapMin(body, i);
      }
      algo.AddState(PriorityQueueOfferState(id, name, body, element, comments));
    }

    /**
     * `poll()`: removes and returns one copy of the minimum. On an empty
     * queue it raises and records nothing.
     */
    method Poll(comments: string) returns (r: Result<int>)
      requires Valid()
      modifies this`body, algo`states
      ensures Valid()
      ensures old(body) == [] ==>
                r == Err(EmptyPriorityQueue) && body == [] && algo.states == old(algo.states)
      ensures old(body) != [] ==>
                r.Ok? && r.value == old(body)[0] &&
                (forall i :: 0 <= i < |old(body)| ==> r.value <= old(body)[i]) &&
                multiset(body) + multiset{r.value} == old(multiset(body)) &&
                algo.states == old(algo.states) + [PriorityQueuePollState(id, name, body, comments)]
    {
      if Empty() {
        return Err(EmptyPriorityQueue);
      }
      forall i | 0 <= i < |body| ensures body[0] <= body[i] {
        HeapMin(body, i);
      }
      var item;
      item, body := HeapPop(body);
      algo.AddState(PriorityQueuePollState(id, name, body, comments));
      return Ok(item);
    }

    /** `peek()`: the minimum, with the body left as it is. */
    method Peek(comments: string) returns (r: Result<int>)
      requires Valid()
      modifies algo`states
      ensures body == [] ==> r == Err(EmptyPriorityQueue) && algo.states == old(algo.states)
      ensures body != [] ==>
                r == Ok(body[0]) && (forall i :: 0 <= i < |body| ==> body[0] <= body[i]) &&
                algo.states == old(algo.states) + [PriorityQueuePeekState(id, name, body, comments)]
    {
      if Empty() {
        return Err(EmptyPriorityQueue);
      }
      forall i | 0 <= i < |body| ensures body[0] <= body[i] {
        HeapMin(body, i);
      }
      algo.AddState(PriorityQueuePeekState(id, name, body, comments));
      return Ok(body[0]);
    }
  }

  /**
   * `PriorityQueue(name, algo, comments)` with its argument checks: the name
   * must be a str and `algo` a StateSet (null stands for any other object).
   */
  method NewPriorityQueue(name: Val, algo: StateSet?, comments: string)
    returns (r: Result<PriorityQueue>)
    modifies algo
    ensures algo != null ==> algo.autoplay == old(algo.autoplay)
    ensures !name.VStr? ==> r == Err(ARgorithmError(["Give valid name to data structure"]))
    ensures name.VStr? && algo == null ==>
              r == Err(ARgorithmError(["Queue structure needs a reference of template to store states"]))
    ensures name.VStr? && algo != null ==> r.Ok?
    ensures r.Err? && algo != null ==> algo.states == old(algo.states)
    ensures r.Ok? ==>
              name.VStr? && algo != null && fresh(r.value) && r.value.Valid() &&
              r.value.name == name.s && r.value.algo == algo && r.value.body == [] &&
              algo.states ==
                old(algo.states) + [PriorityQueueDeclareState(r.value.id, name.s, comments)]
  {
    if !name.VStr? {
      return Err(ARgorithmError(["Give valid name to data structure"]));
    }
    if algo == null {
      return Err(ARgorithmError(["Queue structure needs a reference of template to store states"]));
    }
    var q := new PriorityQueue(name.s, algo, comments);
    return Ok(q);
  }

  /** `peek()` followed by `poll()` returns the same element twice. */
  method PeekThenPoll(q: PriorityQueue) returns (x: Result<int>, y: Result<int>)
    requires q.Valid() && q.body != []
    modifies q`body, q.algo`states
    ensures x.Ok? && x == y
  {
    x := q.Peek("");
    y := q.Poll("");
  }
}
