/**
 * Doubly linked lists: nodes whose value and pointer assignments are
 * recorded, the head/tail holder whose pointer assignments are recorded,
 * and List, a complete list built from them.
 */
module DoublyLinkedLists {
  import opened Values
  import opened Text
  import opened Utils

  /** How a record names a node: by its identity, or "none". */
  function NodeName(n: Node?): string
  {
    if n == null then "none" else NatText(n.id)
  }

  function NodeDef(id: nat, value: Val, next: string, prev: string, extra: seq<(Val, Val)>): Val
  {
    VDict([Field("id", VStr(NatText(id))), Field("variable_name", VStr(NatText(id))),
           Field("value", value), Field("next", VStr(next)), Field("prev", VStr(prev))] + extra)
  }

  /** A new node: both pointers are "none". */
  function NodeDeclareState(id: nat, value: Val, comments: string): State
  {
    MakeState("dllnode_declare", NodeDef(id, value, "none", "none", []), comments)
  }

  /** A value write; the previous value is shown unless it was None. */
  function NodeIterState(id: nat, value: Val, next: string, prev: string, last: Val): State
  {
    MakeState("dllnode_iter",
              NodeDef(id, value, next, prev, if last == VNone then [] else [Field("last_value", last)]),
              "value updated")
  }

  function NodeNextState(id: nat, value: Val, next: string, prev: string, lastNext: string): State
  {
    MakeState("dllnode_next", NodeDef(id, value, next, prev, [Field("last_next", VStr(lastNext))]),
              "next pointer updated")
  }

  function NodePrevState(id: nat, value: Val, next: string, prev: string, lastPrev: string): State
  {
    MakeState("dllnode_prev", NodeDef(id, value, next, prev, [Field("last_prev", VStr(lastPrev))]),
              "prev pointer updated")
  }

  function DllDef(id: nat, name: string, head: string, tail: string, extra: seq<(Val, Val)>): Val
  {
    VDict([Field("id", VStr(NatText(id))), Field("variable_name", VStr(name)),
           Field("head", VStr(head)), Field("tail", VStr(tail))] + extra)
  }

  function DllDeclareState(id: nat, name: string, head: string, tail: string, comments: string): State
  {
    MakeState("dll_declare", DllDef(id, name, head, tail, []), comments)
  }

  function DllHeadState(id: nat, name: string, head: string, tail: string, lastHead: string): State
  {
    MakeState("dll_head", DllDef(id, name, head, tail, [Field("last_head", VStr(lastHead))]),
              "head pointer shifts")
  }

  function DllTailState(id: nat, name: string, head: string, tail: string, lastTail: string): State
  {
    MakeState("dll_tail", DllDef(id, name, head, tail, [Field("last_tail", VStr(lastTail))]),
              "tail pointer shifts")
  }

  const EmptyList := ARgorithmError(["Empty list"])

  /** A list node. Its name is its identity. */
  class Node {
    const id: nat
    const algo: StateSet
    var value: Val
    var next: Node?
    var prev: Node?

    /** A detached node; only its declaration is recorded. */
    constructor (algo: StateSet, value: Val, comments: string)
      modifies algo`states, algo`nextId
      ensures this.algo == algo && this.value == value && next == null && prev == null
      ensures id == old(algo.nextId) && algo.nextId == id + 1
      ensures algo.states == old(algo.states) + [NodeDeclareState(id, value, comments)]
    {
      var fid := algo.FreshId();
      this.id := fid;
      this.algo := algo;
      this.value := value;
      next := null;
      prev := null;
      new;
      algo.AddState(NodeDeclareState(fid, value, comments));
    }

    /** `node.value = v`: always recorded, with the value it replaces. */
    method SetValue(v: Val)
      modifies this`value, algo`states
      ensures value == v
      ensures algo.states == old(algo.states) +
                [NodeIterState(id, v, NodeName(next), NodeName(prev), old(value))]
    {
      var last := value;
      value := v;
      algo.AddState(NodeIterState(id, v, NodeName(next), NodeName(prev), last));
    }

    /** `node.next = n`: recorded unless the pointer was and stays None. */
    method SetNext(n: Node?)
      modifies this`next, algo`states
      ensures next == n
      ensures old(next) == null && n == null ==> algo.states == old(algo.states)
      ensures old(next) != null || n != null ==>
                algo.states == old(algo.states) +
                  [NodeNextState(id, value, NodeName(n), NodeName(prev), NodeName(old(next)))]
    {
      var last := next;
      next := n;
      if last != null || n != null {
        algo.AddState(NodeNextState(id, value, NodeName(n), NodeName(prev), NodeName(last)));
      }
    }

    /** `node.prev = n`: recorded unless the pointer was and stays None. */
    method SetPrev(n: Node?)
      modifies this`prev, algo`states
      ensures prev == n
      ensures old(prev) == null && n == null ==> algo.states == old(algo.states)
      ensures old(prev) != null || n != null ==>
                algo.states == old(algo.states) +
                  [NodePrevState(id, value, NodeName(next), NodeName(n), NodeName(old(prev)))]
    {
      var last := prev;
      prev := n;
      if last != null || n != null {
        algo.AddState(NodePrevState(id, value, NodeName(next), NodeName(n), NodeName(last)));
      }
    }
  }

  /** `DoublyLinkedListNode(algo, value, comments)`. */
  method NewNode(algo: StateSet?, value: Val, comments: string) returns (r: Result<Node>)
    modifies algo
    ensures algo != null ==> algo.autoplay == old(algo.autoplay)
    ensures algo == null <==> r == Err(ARgorithmError(["algo should be of type StateSet"]))
    ensures algo != null ==> r.Ok?
    ensures r.Ok? ==>
              algo != null && fresh(r.value) && r.value.algo == algo && r.value.value == value &&
              r.value.next == null && r.value.prev == null &&
              algo.states == old(algo.states) + [NodeDeclareState(r.value.id, value, comments)]
  {
    if algo == null {
      return Err(ARgorithmError(["algo should be of type StateSet"]));
    }
    var n := new Node(algo, value, comments);
    return Ok(n);
  }

  /** The holder of a head and a tail pointer, for lists written by hand. */
  class DoublyLinkedList {
    const name: string
    const id: nat
    const algo: StateSet
    var head: Node?
    var tail: Node?

    /** Head and tail both start at `head`; only the declaration is recorded. */
    constructor (name: string, algo: StateSet, head: Node?, comments: string)
      modifies algo`states, algo`nextId
      ensures this.name == name && this.algo == algo && this.head == head && tail == head
      ensures id == old(algo.nextId) && algo.nextId == id + 1
      ensures algo.states == old(algo.states) +
                [DllDeclareState(id, name, NodeName(head), NodeName(head), comments)]
    {
      var fid := algo.FreshId();
      this.name := name;
      this.id := fid;
      this.algo := algo;
      this.head := head;
      tail := head;
      new;
      algo.AddState(DllDeclareState(fid, name, NodeName(head), NodeName(head), comments));
    }

    /** `dll.head = h`: always recorded, with the head it replaces. */
    method SetHead(h: Node?)
      modifies this`head, algo`states
      ensures head == h
      ensures algo.states == old(algo.states) +
                [DllHeadState(id, name, NodeName(h), NodeName(tail), NodeName(old(head)))]
    {
      var last := head;
      head := h;
      algo.AddState(DllHeadState(id, name, NodeName(h), NodeName(tail), NodeName(last)));
    }

    /** `dll.tail = t`: always recorded, with the tail it replaces. */
    method SetTail(t: Node?)
      modifies this`tail, algo`states
      ensures tail == t
      ensures algo.states == old(algo.states) +
                [DllTailState(id, name, NodeName(head), NodeName(t), NodeName(old(tail)))]
    {
      var last := tail;
      tail := t;
      algo.AddState(DllTailState(id, name, NodeName(head), NodeName(t), NodeName(last)));
    }
  }

  /**
   * `DoublyLinkedList(name, algo, head, comments)`: a str name, a StateSet,
   * and a head node of the same StateSet, in that order.
   */
  method NewDoublyLinkedList(name: Val, algo: StateSet?, head: Node?, comments: string)
    returns (r: Result<DoublyLinkedList>)
    modifies algo
    ensures algo != null ==> algo.autoplay == old(algo.autoplay)
    ensures !name.VStr? ==> r == Err(AssertionError("Name should be of type string"))
    ensures name.VStr? && algo == null ==> r == Err(ARgorithmError(["algo should be of type StateSet"]))
    ensures name.VStr? && algo != null && head != null && head.algo != algo ==>
              r == Err(AssertionError("The head node belongs to a different StateSet"))
    ensures name.VStr? && algo != null && (head == null || head.algo == algo) ==> r.Ok?
    ensures r.Err? && algo != null ==> algo.states == old(algo.states)
    ensures r.Ok? ==>
              name.VStr? && algo != null && (head != null ==> head.algo == algo) &&
              fresh(r.value) && r.value.name == name.s && r.value.algo == algo &&
              r.value.head == head && r.value.tail == head &&
              algo.states == old(algo.states) +
                [DllDeclareState(r.value.id, name.s, NodeName(head), NodeName(head), comments)]
  {
    if !name.VStr? {
      return Err(AssertionError("Name should be of type string"));
    }
    if algo == null {
      return Err(ARgorithmError(["algo should be of type StateSet"]));
    }
    if head != null && head.algo != algo {
      return Err(AssertionError("The head node belongs to a different StateSet"));
    }
    var d := new DoublyLinkedList(name.s, algo, head, comments);
    return Ok(d);
  }

  /** No node occurs twice. */
  ghost predicate Distinct(ns: seq<Node>)
  {
    forall i, j | 0 <= i < |ns| && 0 <= j < |ns| && i != j :: Differ(ns, i, j)
  }

  /**
   * Positions `i` and `j` of `ns` hold different nodes. Distinctness is
   * stated through this predicate so that it is used only where a proof
   * names the two positions.
   */
  ghost predicate Differ(ns: seq<Node>, i: int, j: int)
    requires 0 <= i < |ns| && 0 <= j < |ns|
  {
    ns[i] != ns[j]
  }

  /** Node `i` points forward to node `i + 1`, which points back to it. */
  ghost predicate LinkedAt(ns: seq<Node>, i: int)
    requires 0 <= i < |ns| - 1
    reads {ns[i]}`next, {ns[i + 1]}`prev
  {
    ns[i].next == ns[i + 1] && ns[i + 1].prev == ns[i]
  }

  /** Each node points forward to the next one, which points back to it. */
  ghost predicate Linked(ns: seq<Node>)
    reads ns`next, ns`prev
  {
    forall i | 0 <= i < |ns| - 1 :: LinkedAt(ns, i)
  }

  /**
   * `ns` is a well-formed chain from `head` to `tail`: distinct nodes, each
   * pointing to its neighbours, None at both ends.
   */
  ghost predicate Chain(ns: seq<Node>, head: Node?, tail: Node?)
    reads ns`next, ns`prev
  {
    Distinct(ns) && Linked(ns) &&
    (ns == [] ==> head == null && tail == null) &&
    (ns != [] ==> head == ns[0] && tail == ns[|ns| - 1] &&
                  ns[0].prev == null && ns[|ns| - 1].next == null)
  }

  /** A fresh node put before a chain extends it at the front. */
  lemma ChainCons(c: Node, ns: seq<Node>, tail: Node?)
    requires Distinct(ns) && Linked(ns) && c !in ns && c.prev == null
    requires ns == [] ==> c.next == null && tail == c
    requires ns != [] ==> c.next == ns[0] && ns[0].prev == c && tail == ns[|ns| - 1] && tail.next == null
    ensures Chain([c] + ns, c, tail)
  {
    var cs := [c] + ns;
    forall i, j | 0 <= i < |cs| && 0 <= j < |cs| && i != j
      ensures Differ(cs, i, j)
    {
      if i > 0 && j > 0 {
        assert Differ(ns, i - 1, j - 1);
      } else if i > 0 {
        assert cs[i] == ns[i - 1];
      } else {
        assert cs[j] == ns[j - 1];
      }
    }
    forall i | 0 <= i < |cs| - 1
      ensures LinkedAt(cs, i)
    {
      if i > 0 {
        assert LinkedAt(ns, i - 1);
        assert cs[i] == ns[i - 1] && cs[i + 1] == ns[i];
      }
    }
  }

  /** A fresh node put after a chain extends it at the back. */
  lemma ChainSnoc(ns: seq<Node>, c: Node, head: Node?)
    requires Distinct(ns) && Linked(ns) && c !in ns && c.next == null
    requires ns == [] ==> c.prev == null && head == c
    requires ns != [] ==> ns[|ns| - 1].next == c && c.prev == ns[|ns| - 1] && head == ns[0] && head.prev == null
    ensures Chain(ns + [c], head, c)
  {
    var cs := ns + [c];
    forall i, j | 0 <= i < |cs| && 0 <= j < |cs| && i != j
      ensures Differ(cs, i, j)
    {
      if i < |ns| && j < |ns| {
        assert Differ(ns, i, j);
      } else if i < |ns| {
        assert cs[i] == ns[i];
      } else {
        assert cs[j] == ns[j];
      }
    }
    forall i | 0 <= i < |cs| - 1
      ensures LinkedAt(cs, i)
    {
      if i < |ns| - 1 {
        assert LinkedAt(ns, i);
        assert cs[i] == ns[i] && cs[i + 1] == ns[i + 1];
      }
    }
  }

  /**
   * A fresh node put between positions `p - 1` and `p` of a chain, or after
   * its last node when `p` is its length.
   */
  lemma ChainSplice(ns: seq<Node>, c: Node, p: nat, head: Node?, tail: Node?)
    requires Distinct(ns) && 0 < p <= |ns| && c !in ns
    requires forall i | 0 <= i < |ns| - 1 && i != p - 1 :: LinkedAt(ns, i)
    requires ns[p - 1].next == c && c.prev == ns[p - 1]
    requires p < |ns| ==> c.next == ns[p] && ns[p].prev == c && tail == ns[|ns| - 1] && tail.next == null
    requires p == |ns| ==> c.next == null && tail == c
    requires head == ns[0] && head.prev == null
    ensures Chain(ns[..p] + [c] + ns[p..], head, tail)
  {
    var cs := ns[..p] + [c] + ns[p..];
    assert forall k | 0 <= k < |cs| :: cs[k] == if k < p then ns[k] else if k == p then c else ns[k - 1];
    forall i, j | 0 <= i < |cs| && 0 <= j < |cs| && i != j
      ensures Differ(cs, i, j)
    {
      if i != p && j != p {
        var i' := if i < p then i else i - 1;
        var j' := if j < p then j else j - 1;
        assert cs[i] == ns[i'] && cs[j] == ns[j'] && Differ(ns, i', j');
      }
    }
    forall i | 0 <= i < |cs| - 1
      ensures LinkedAt(cs, i)
    {
      if i < p - 1 {
        assert LinkedAt(ns, i);
      } else if i > p {
        assert LinkedAt(ns, i - 1);
      }
    }
  }

  /** Position `p` taken out of a chain of two or more nodes, its neighbours joined. */
  lemma ChainWithout(ns: seq<Node>, p: nat, head: Node?, tail: Node?)
    requires Distinct(ns) && p < |ns| && |ns| > 1
    requires forall i | 0 <= i < |ns| - 1 && i != p - 1 && i != p :: LinkedAt(ns, i)
    requires 0 < p < |ns| - 1 ==> ns[p - 1].next == ns[p + 1] && ns[p + 1].prev == ns[p - 1]
    requires head == (if p == 0 then ns[1] else ns[0]) && head.prev == null
    requires tail == (if p == |ns| - 1 then ns[p - 1] else ns[|ns| - 1]) && tail.next == null
    ensures Chain(ns[..p] + ns[p + 1..], head, tail)
  {
    var cs := ns[..p] + ns[p + 1..];
    assert forall k | 0 <= k < |cs| :: cs[k] == if k < p then ns[k] else ns[k + 1];
    forall i, j | 0 <= i < |cs| && 0 <= j < |cs| && i != j
      ensures Differ(cs, i, j)
    {
      var i' := if i < p then i else i + 1;
      var j' := if j < p then j else j + 1;
      assert cs[i] == ns[i'] && cs[j] == ns[j'] && Differ(ns, i', j');
    }
    forall i | 0 <= i < |cs| - 1
      ensures LinkedAt(cs, i)
    {
      if i < p - 1 {
        assert LinkedAt(ns, i);
      } else if i >= p {
        assert LinkedAt(ns, i + 1);
      }
    }
  }

  /** Taking out the first or the last position leaves a prefix or a suffix. */
  lemma WithoutEnds<T>(s: seq<T>)
    requires s != []
    ensures s[..0] + s[1..] == s[1..]
    ensures s[..|s| - 1] + s[|s|..] == s[..|s| - 1]
  {
  }

  /** Putting in after the last position is appending. */
  lemma InsertLast<T>(s: seq<T>, x: T)
    ensures s[..|s|] + [x] + s[|s|..] == s + [x]
  {
  }

  lemma Assoc<T>(a: seq<T>, b: seq<T>, c: seq<T>)
    ensures a + b + c == a + (b + c)
  {
  }

  /** Two records appended one at a time are the two appended together. */
  lemma Snoc2<T>(s: seq<T>, a: T, b: T)
    ensures s + [a] + [b] == s + [a, b]
  {
  }

  /** Four records appended one at a time are the four appended together. */
  lemma Snoc4<T>(s: seq<T>, a: T, b: T, c: T, d: T)
    ensures s + [a] + [b] + [c] + [d] == s + [a, b, c, d]
  {
  }

  /** Node `ns[i]` holds `vs[i]` and belongs to the recorder `a`. */
  ghost predicate Stores(ns: seq<Node>, vs: seq<Val>, a: StateSet, i: int)
    requires 0 <= i < |ns| && i < |vs|
    reads {ns[i]}`value
  {
    ns[i].value == vs[i] && ns[i].algo == a
  }

  /** Every node of `ns` holds the value at its position in `vs` and belongs to `a`. */
  ghost predicate Holds(ns: seq<Node>, vs: seq<Val>, a: StateSet)
    reads ns`value
  {
    |ns| == |vs| && forall i | 0 <= i < |ns| :: Stores(ns, vs, a, i)
  }

  lemma HoldsAppend(ns: seq<Node>, vs: seq<Val>, ms: seq<Node>, ws: seq<Val>, a: StateSet)
    requires Holds(ns, vs, a) && Holds(ms, ws, a)
    ensures Holds(ns + ms, vs + ws, a)
  {
    forall i | 0 <= i < |ns + ms|
      ensures Stores(ns + ms, vs + ws, a, i)
    {
      if i < |ns| {
        assert Stores(ns, vs, a, i);
      } else {
        assert Stores(ms, ws, a, i - |ns|);
      }
    }
  }

  /** The values after a node is put in at position `p`. */
  lemma HoldsInsert(ns: seq<Node>, vs: seq<Val>, a: StateSet, p: nat, c: Node)
    requires p <= |ns| && Holds(ns, vs, a) && c.algo == a
    ensures Holds(ns[..p] + [c] + ns[p..], InsertAt(vs, p, c.value), a)
  {
    var cs, ws := ns[..p] + [c] + ns[p..], InsertAt(vs, p, c.value);
    forall i | 0 <= i < |cs|
      ensures Stores(cs, ws, a, i)
    {
      if i < p {
        assert cs[i] == ns[i] && Stores(ns, vs, a, i);
      } else if i > p {
        assert cs[i] == ns[i - 1] && Stores(ns, vs, a, i - 1);
      }
    }
  }

  /** The values after the node at position `p` is taken out. */
  lemma HoldsRemove(ns: seq<Node>, vs: seq<Val>, a: StateSet, p: nat)
    requires p < |ns| && Holds(ns, vs, a)
    ensures Holds(ns[..p] + ns[p + 1..], vs[..p] + vs[p + 1..], a)
  {
    var cs, ws := ns[..p] + ns[p + 1..], vs[..p] + vs[p + 1..];
    forall i | 0 <= i < |cs|
      ensures Stores(cs, ws, a, i)
    {
      var j := if i < p then i else i + 1;
      assert cs[i] == ns[j] && ws[i] == vs[j] && Stores(ns, vs, a, j);
    }
  }

  /** The values after the first node is taken out. */
  lemma HoldsRest(ns: seq<Node>, vs: seq<Val>, a: StateSet)
    requires ns != [] && Holds(ns, vs, a)
    ensures Holds(ns[1..], vs[1..], a)
  {
    forall i | 0 <= i < |ns| - 1
      ensures Stores(ns[1..], vs[1..], a, i)
    {
      assert Stores(ns, vs, a, i + 1);
    }
  }

  /** The values of the first `k` nodes. */
  lemma HoldsPrefix(ns: seq<Node>, vs: seq<Val>, a: StateSet, k: nat)
    requires k <= |ns| && Holds(ns, vs, a)
    ensures Holds(ns[..k], vs[..k], a)
  {
    forall i | 0 <= i < k
      ensures Stores(ns[..k], vs[..k], a, i)
    {
      assert Stores(ns, vs, a, i);
    }
  }

  /** Position `|a|` of `a + b` taken out. */
  lemma Split<T>(a: seq<T>, b: seq<T>)
    requires b != []
    ensures (a + b)[..|a|] == a && (a + b)[|a|] == b[0] && (a + b)[|a| + 1..] == b[1..]
    ensures a + b == (a + [b[0]]) + b[1..]
  {
  }

  /** `v` inserted at position `p`. */
  function InsertAt(s: seq<Val>, p: nat, v: Val): (r: seq<Val>)
    requires p <= |s|
    ensures |r| == |s| + 1 && r[p] == v
    ensures forall i :: 0 <= i < p ==> r[i] == s[i]
    ensures forall i :: p < i < |r| ==> r[i] == s[i - 1]
  {
    s[..p] + [v] + s[p..]
  }

  /** Inserting at either end is prepending or appending. */
  lemma InsertAtEnds(s: seq<Val>, v: Val)
    ensures InsertAt(s, 0, v) == [v] + s && InsertAt(s, |s|, v) == s + [v]
  {
    assert s[..0] == [] && s[0..] == s && s[..|s|] == s && s[|s|..] == [];
  }

  /** `s` without the elements equal to `v`, in order. */
  function Filter(s: seq<Val>, v: Val): seq<Val>
  {
    if s == [] then []
    else if s[0] == v then Filter(s[1..], v)
    else [s[0]] + Filter(s[1..], v)
  }

  /** Filtering keeps exactly the values other than `v`, and never lengthens. */
  lemma {:induction false} FilterMembers(s: seq<Val>, v: Val)
    ensures |Filter(s, v)| <= |s|
    ensures forall x :: x in Filter(s, v) <==> x in s && x != v
  {
    if s != [] {
      FilterMembers(s[1..], v);
      assert forall x :: x in s <==> x == s[0] || x in s[1..];
    }
  }

  /**
   * The sequences of one step of the walk of `remove(v)`: the node visited
   * sits at position `|kept|`; dropping it, or keeping it, leaves the walk
   * one step further on.
   */
  lemma WalkStep(ns: seq<Node>, cs: seq<Val>, orig: seq<Node>, vals: seq<Val>, kept: seq<Node>, k: nat, v: Val)
    requires k < |orig| && |vals| == |orig| && ns == kept + orig[k..]
    requires |kept| == |Filter(vals[..k], v)| && cs == Filter(vals[..k], v) + vals[k..]
    ensures |kept| < |ns| && ns[|kept|] == orig[k] && cs[|kept|] == vals[k]
    ensures k + 1 < |orig| ==> |kept| + 1 < |ns| && ns[|kept| + 1] == orig[k + 1]
    ensures k + 1 == |orig| ==> |kept| + 1 == |ns|
    ensures vals[k] == v ==>
              ns[..|kept|] + ns[|kept| + 1..] == kept + orig[k + 1..] &&
              cs[..|kept|] + cs[|kept| + 1..] == Filter(vals[..k + 1], v) + vals[k + 1..] &&
              |kept| == |Filter(vals[..k + 1], v)|
    ensures vals[k] != v ==>
              ns == (kept + [orig[k]]) + orig[k + 1..] &&
              cs == Filter(vals[..k + 1], v) + vals[k + 1..] &&
              |kept| + 1 == |Filter(vals[..k + 1], v)|
    ensures |ns| == 1 ==> Filter(vals[..k + 1], v) + vals[k + 1..] == Filter(vals, v)
  {
    var done := Filter(vals[..k], v);
    Split(kept, orig[k..]);
    Split(done, vals[k..]);
    assert orig[k..][1..] == orig[k + 1..] && vals[k..][1..] == vals[k + 1..];
    FilterAppend(vals[..k], vals[k], v);
    assert vals[..k + 1] == vals[..k] + [vals[k]];
    if |ns| == 1 {
      assert vals[..k + 1] == vals && vals[k + 1..] == [];
    }
  }

  /** A walk that has seen every value has filtered all of them. */
  lemma FilterWalked(vals: seq<Val>, v: Val)
    ensures Filter(vals[..|vals|], v) + vals[|vals|..] == Filter(vals, v)
  {
    assert vals[..|vals|] == vals && vals[|vals|..] == [];
  }

  lemma {:induction false} FilterAppend(s: seq<Val>, x: Val, v: Val)
    ensures Filter(s + [x], v) == Filter(s, v) + (if x == v then [] else [x])
  {
    if s != [] {
      assert (s + [x])[1..] == s[1..] + [x];
      FilterAppend(s[1..], x, v);
    } else {
      assert [x][1..] == [];
    }
  }

  /** What a record shows of a node: identity, value and the names of its neighbours. */
  datatype NodeSnap = NodeSnap(id: nat, value: Val, next: string, prev: string)

  ghost function SnapOf(n: Node?): Option<NodeSnap>
    reads n
  {
    if n == null then None else Some(NodeSnap(n.id, n.value, NodeName(n.next), NodeName(n.prev)))
  }

  /**
   * The records of `push_front(v)` making node `c`: into an empty list the
   * node becomes head and tail; otherwise it is linked before `head`.
   */
  function PushFrontTrace(id: nat, name: string, c: nat, v: Val, head: Option<NodeSnap>, tail: string)
    : seq<State>
  {
    [NodeDeclareState(c, v, "")] + FrontLinkTrace(id, name, c, v, head, tail)
  }

  /** The records of `push_front` after the node's declaration. */
  function FrontLinkTrace(id: nat, name: string, c: nat, v: Val, head: Option<NodeSnap>, tail: string)
    : seq<State>
  {
    match head
    case None => AloneTrace(id, name, c)
    case Some(h) =>
      [NodeNextState(c, v, NatText(h.id), "none", "none"), NodePrevState(h.id, h.value, h.next, NatText(c), "none"),
       DllHeadState(id, name, NatText(c), tail, NatText(h.id))]
  }

  /** The records of a node `c` becoming head and tail of an empty list. */
  function AloneTrace(id: nat, name: string, c: nat): seq<State>
  {
    [DllHeadState(id, name, NatText(c), "none", "none"), DllTailState(id, name, NatText(c), NatText(c), "none")]
  }

  /** The records of `push_back(v)` making node `c`. */
  function PushBackTrace(id: nat, name: string, c: nat, v: Val, tail: Option<NodeSnap>, head: string)
    : seq<State>
  {
    [NodeDeclareState(c, v, "")] + BackLinkTrace(id, name, c, v, tail, head)
  }

  /** The records of `push_back` after the node's declaration. */
  function BackLinkTrace(id: nat, name: string, c: nat, v: Val, tail: Option<NodeSnap>, head: string)
    : seq<State>
  {
    match tail
    case None => AloneTrace(id, name, c)
    case Some(t) =>
      [NodePrevState(c, v, "none", NatText(t.id), "none"), NodeNextState(t.id, t.value, NatText(c), t.prev, "none"),
       DllTailState(id, name, head, NatText(c), NatText(t.id))]
  }

  /** The records of `pop_front()` unlinking head `h`, whose successor is `next`. */
  function PopFrontTrace(id: nat, name: string, h: NodeSnap, next: Option<NodeSnap>, tail: string)
    : seq<State>
  {
    match next
    case None =>
      [DllHeadState(id, name, "none", tail, NatText(h.id)), DllTailState(id, name, "none", "none", NatText(h.id))]
    case Some(n) =>
      [DllHeadState(id, name, NatText(n.id), tail, NatText(h.id)),
       NodePrevState(n.id, n.value, n.next, "none", NatText(h.id))]
  }

  /** The records of `pop_back()` unlinking tail `t`, whose predecessor is `prev`. */
  function PopBackTrace(id: nat, name: string, t: NodeSnap, prev: Option<NodeSnap>, head: string)
    : seq<State>
  {
    match prev
    case None =>
      [DllTailState(id, name, head, "none", NatText(t.id)), DllHeadState(id, name, "none", "none", NatText(t.id))]
    case Some(p) =>
      [DllTailState(id, name, head, NatText(p.id), NatText(t.id)),
       NodeNextState(p.id, p.value, "none", p.prev, NatText(t.id))]
  }

  /**
   * The records of `insert(v, i)` making node `c` and splicing it after
   * `before`: between it and `after`, or as the new tail when `after` is
   * None (the tail shift is the corrected branch).
   */
  function SpliceTrace(id: nat, name: string, c: nat, v: Val, before: NodeSnap, after: Option<NodeSnap>, head: string)
    : seq<State>
  {
    [NodeDeclareState(c, v, "")] + SpliceLinkTrace(id, name, c, v, before, after, head)
  }

  /** The records of the splice after the node's declaration. */
  function SpliceLinkTrace(id: nat, name: string, c: nat, v: Val, before: NodeSnap, after: Option<NodeSnap>, head: string)
    : seq<State>
  {
    match after
    case None =>
      [NodePrevState(c, v, "none", NatText(before.id), "none"),
       DllTailState(id, name, head, NatText(c), NatText(before.id)),
       NodeNextState(before.id, before.value, NatText(c), before.prev, "none")]
    case Some(a) =>
      [NodeNextState(c, v, NatText(a.id), "none", "none"),
       NodePrevState(c, v, NatText(a.id), NatText(before.id), "none"),
       NodePrevState(a.id, a.value, a.next, NatText(c), NatText(before.id)),
       NodeNextState(before.id, before.value, NatText(c), before.prev, NatText(a.id))]
  }

  /** The identities of the nodes `ns`, in order. */
  function Ids(ns: seq<Node>): seq<nat>
  {
    seq(|ns|, i requires 0 <= i < |ns| => ns[i].id)
  }

  /** Dropping the node at `p` drops its identity. */
  lemma IdsWithout(ns: seq<Node>, p: nat)
    requires p < |ns|
    ensures Ids(ns[..p] + ns[p + 1..]) == Ids(ns)[..p] + Ids(ns)[p + 1..]
  {
    var a, b := Ids(ns[..p] + ns[p + 1..]), Ids(ns)[..p] + Ids(ns)[p + 1..];
    assert |a| == |b|;
    forall i | 0 <= i < |a|
      ensures a[i] == b[i]
    {
      if i < p {
        assert a[i] == ns[i].id;
      } else {
        assert a[i] == ns[i + 1].id;
      }
    }
  }

  /** Dropping the node at `p` keeps every remaining node among `orig`. */
  lemma WithoutWithin(ns: seq<Node>, p: nat, orig: seq<Node>, rest: seq<Node>)
    requires p < |ns| && rest == ns[..p] + ns[p + 1..]
    requires forall i | 0 <= i < |ns| :: ns[i] in orig
    ensures forall i | 0 <= i < |rest| :: rest[i] in orig
  {
    forall i | 0 <= i < |rest|
      ensures rest[i] in orig
    {
      if i < p {
        assert rest[i] == ns[i];
      } else {
        assert rest[i] == ns[i + 1];
      }
    }
  }

  /** How a record names position `i` of a list whose nodes have the identities `ids`. */
  function IdName(ids: seq<nat>, i: int): string
  {
    if 0 <= i < |ids| then NatText(ids[i]) else "none"
  }

  /**
   * The records of `remove` unlinking the match at position `p` of a list
   * whose nodes have the identities `ids` and hold `vs`: the only node
   * leaves head and tail None; a matching head hands the head to its
   * successor; a matching tail hands the tail to its predecessor; otherwise
   * the two neighbours are joined.
   */
  function UnlinkTrace(id: nat, name: string, ids: seq<nat>, vs: seq<Val>, p: nat): seq<State>
    requires p < |ids| == |vs|
  {
    var n := |ids|;
    if n == 1 then
      [DllHeadState(id, name, "none", IdName(ids, 0), IdName(ids, 0)),
       DllTailState(id, name, "none", "none", IdName(ids, 0))]
    else if p == 0 then
      [DllHeadState(id, name, IdName(ids, 1), IdName(ids, n - 1), IdName(ids, 0)),
       NodePrevState(ids[1], vs[1], IdName(ids, 2), "none", IdName(ids, 0))]
    else if p == n - 1 then
      [NodeNextState(ids[p - 1], vs[p - 1], "none", IdName(ids, p - 2), IdName(ids, p)),
       DllTailState(id, name, IdName(ids, 0), IdName(ids, p - 1), IdName(ids, p))]
    else
      [NodeNextState(ids[p - 1], vs[p - 1], IdName(ids, p + 1), IdName(ids, p - 2), IdName(ids, p)),
       NodePrevState(ids[p + 1], vs[p + 1], IdName(ids, p + 2), IdName(ids, p - 1), IdName(ids, p))]
  }

  /**
   * The records of the walk of `remove(v)` from position `k` on, the nodes
   * before `k` being those it kept: a match at `k` is unlinked and the walk
   * goes on over the shorter list, unless that left the list empty.
   */
  function RemoveTrace(id: nat, name: string, ids: seq<nat>, vs: seq<Val>, k: nat, v: Val): seq<State>
    requires |ids| == |vs| && k <= |ids|
    decreases |ids| - k
  {
    if k == |ids| then []
    else if vs[k] != v then RemoveTrace(id, name, ids, vs, k + 1, v)
    else if |ids| == 1 then UnlinkTrace(id, name, ids, vs, k)
    else UnlinkTrace(id, name, ids, vs, k) +
         RemoveTrace(id, name, ids[..k] + ids[k + 1..], vs[..k] + vs[k + 1..], k, v)
  }

  /** The walk of `remove(v)` passes over a value other than `v` without a record. */
  lemma RemoveTraceSkip(id: nat, name: string, ids: seq<nat>, vs: seq<Val>, k: nat, v: Val)
    requires k < |ids| == |vs| && vs[k] != v
    ensures RemoveTrace(id, name, ids, vs, k, v) == RemoveTrace(id, name, ids, vs, k + 1, v)
  {
  }

  /** The walk of `remove(v)` at a match: its unlinking, then the walk over the rest. */
  lemma RemoveTraceUnlink(id: nat, name: string, ids: seq<nat>, vs: seq<Val>, k: nat, v: Val)
    requires k < |ids| == |vs| && vs[k] == v
    ensures |ids| == 1 ==> RemoveTrace(id, name, ids, vs, k, v) == UnlinkTrace(id, name, ids, vs, k)
    ensures |ids| > 1 ==>
              RemoveTrace(id, name, ids, vs, k, v) ==
              UnlinkTrace(id, name, ids, vs, k) + RemoveTrace(id, name, ids[..k] + ids[k + 1..], vs[..k] + vs[k + 1..], k, v)
  {
  }

  /**
   * `remove(v)` records two pointer shifts for every value it removes: the
   * values from `k` on that are equal to `v`.
   */
  lemma {:induction false} RemoveTraceLength(id: nat, name: string, ids: seq<nat>, vs: seq<Val>, k: nat, v: Val)
    requires |ids| == |vs| && k <= |ids|
    ensures |RemoveTrace(id, name, ids, vs, k, v)| == 2 * (|vs| - k - |Filter(vs[k..], v)|)
    decreases |ids| - k
  {
    if k < |ids| {
      assert vs[k..][0] == vs[k] && vs[k..][1..] == vs[k + 1..];
      if vs[k] != v {
        RemoveTraceLength(id, name, ids, vs, k + 1, v);
      } else if |ids| == 1 {
        assert vs[k + 1..] == [];
      } else {
        var vs' := vs[..k] + vs[k + 1..];
        assert vs'[k..] == vs[k + 1..];
        RemoveTraceLength(id, name, ids[..k] + ids[k + 1..], vs', k, v);
      }
    }
  }

  /** How the records name the nodes of a chain and their neighbours. */
  lemma ChainNames(ns: seq<Node>, head: Node?, tail: Node?, i: nat)
    requires Chain(ns, head, tail) && i < |ns|
    ensures NodeName(ns[i]) == IdName(Ids(ns), i)
    ensures NodeName(ns[i].prev) == IdName(Ids(ns), i - 1)
    ensures NodeName(ns[i].next) == IdName(Ids(ns), i + 1)
  {
    if i > 0 {
      assert LinkedAt(ns, i - 1);
    }
    if i < |ns| - 1 {
      assert LinkedAt(ns, i);
    }
  }

  /** The records of unlinking a match between two neighbours. */
  lemma MiddleTrace(id: nat, name: string, ids: seq<nat>, vs: seq<Val>, p: nat)
    requires 0 < p < |ids| - 1 && |vs| == |ids|
    ensures UnlinkTrace(id, name, ids, vs, p) ==
              [NodeNextState(ids[p - 1], vs[p - 1], IdName(ids, p + 1), IdName(ids, p - 2), IdName(ids, p)),
               NodePrevState(ids[p + 1], vs[p + 1], IdName(ids, p + 2), IdName(ids, p - 1), IdName(ids, p))]
  {
  }

  /** The records of a match between two neighbours, named through the chain `ns`. */
  lemma NamesAround(id: nat, name: string, ns: seq<Node>, head: Node?, tail: Node?, vs: seq<Val>, p: nat)
    requires Chain(ns, head, tail) && 0 < p < |ns| - 1 && |vs| == |ns|
    requires ns[p - 1].value == vs[p - 1] && ns[p + 1].value == vs[p + 1]
    ensures UnlinkTrace(id, name, Ids(ns), vs, p) ==
              [NodeNextState(ns[p - 1].id, ns[p - 1].value, NodeName(ns[p + 1]), NodeName(ns[p - 1].prev), NodeName(ns[p])),
               NodePrevState(ns[p + 1].id, ns[p + 1].value, NodeName(ns[p + 1].next), NodeName(ns[p - 1]), NodeName(ns[p]))]
  {
    MiddleTrace(id, name, Ids(ns), vs, p);
    ChainNames(ns, head, tail, p - 1);
    ChainNames(ns, head, tail, p + 1);
    ChainNames(ns, head, tail, p);
  }

  /**
   * Where `insert(v, index)` puts `v` in a list of `size` values: the front
   * for an empty list or index 0, the back for no index or one beyond
   * `size`, after the head for a negative index, otherwise at `index`.
   */
  function InsertPosition(size: nat, index: Option<int>): (p: nat)
    ensures p <= size
    ensures size > 0 && index.Some? && 0 < index.value <= size ==> p == index.value
    ensures size > 0 && index.Some? && index.value < 0 ==> p == 1
  {
    if size == 0 || index == Some(0) then 0
    else if index.None? || size < index.value then size
    else if index.value < 1 then 1
    else index.value
  }

  /** Whether `insert(v, index)` walks the list instead of pushing at an end. */
  predicate Walks(size: nat, index: Option<int>)
  {
    size != 0 && index.Some? && index.value != 0 && index.value <= size
  }

  /** Filtering drops something exactly when `v` is there. */
  lemma {:induction false} FilterShrinks(s: seq<Val>, v: Val)
    ensures |Filter(s, v)| <= |s|
    ensures |Filter(s, v)| == |s| <==> v !in s
    ensures v !in s ==> Filter(s, v) == s
  {
    if s != [] {
      FilterShrinks(s[1..], v);
      assert s == [s[0]] + s[1..];
      assert forall x :: x in s <==> x == s[0] || x in s[1..];
    }
  }

  /** What `remove` as written raises on setting `prev` through a head that became `None`. */
  const NoneHasNoPrev := AttributeError("'NoneType' object has no attribute 'prev'")

  /**
   * `remove(v)` as written, on the values from head to tail: a match lowers
   * the size, and when the size is then 1 the head and tail are cleared and
   * the walk stops, whatever is left; a match on a node with neither
   * neighbour sets the head to its missing `next` and then reaches through
   * it.
   */
  function RemoveAsWritten(s: seq<Val>, v: Val): Result<seq<Val>>
  {
    if s == [] then Err(EmptyList) else RemoveWalkAsWritten([], s, |s|, v)
  }

  /** The walk of `remove` as written: `kept` were passed, `rest` are still to visit. */
  function RemoveWalkAsWritten(kept: seq<Val>, rest: seq<Val>, size: int, v: Val): Result<seq<Val>>
    decreases |rest|
  {
    if rest == [] then Ok(kept)
    else if rest[0] != v then RemoveWalkAsWritten(kept + [rest[0]], rest[1..], size, v)
    else if size - 1 == 1 then Ok([])
    else if kept == [] && |rest| == 1 then Err(NoneHasNoPrev)
    else RemoveWalkAsWritten(kept, rest[1..], size - 1, v)
  }

  /**
   * The walk as written, compared with filtering: it agrees while at least
   * two values would remain, and empties the list once at most one would.
   */
  lemma {:induction false} RemoveWalkOutcome(kept: seq<Val>, rest: seq<Val>, size: int, v: Val)
    requires size == |kept| + |rest|
    ensures v !in rest ==> RemoveWalkAsWritten(kept, rest, size, v) == Ok(kept + rest)
    ensures |kept| + |Filter(rest, v)| >= 2 ==>
              RemoveWalkAsWritten(kept, rest, size, v) == Ok(kept + Filter(rest, v))
    ensures |kept| + |Filter(rest, v)| <= 1 && v in rest && size >= 2 ==>
              RemoveWalkAsWritten(kept, rest, size, v) == Ok([])
    decreases |rest|
  {
    if rest != [] {
      var tl := rest[1..];
      assert rest == [rest[0]] + tl;
      assert forall x :: x in rest <==> x == rest[0] || x in tl;
      FilterShrinks(tl, v);
      if rest[0] != v {
        assert Filter(rest, v) == [rest[0]] + Filter(tl, v);
        assert kept + rest == (kept + [rest[0]]) + tl;
        assert kept + Filter(rest, v) == (kept + [rest[0]]) + Filter(tl, v);
        RemoveWalkOutcome(kept + [rest[0]], tl, size, v);
      } else {
        assert Filter(rest, v) == Filter(tl, v);
        if size - 1 != 1 && !(kept == [] && |rest| == 1) {
          RemoveWalkOutcome(kept, tl, size - 1, v);
        }
      }
    } else {
      assert kept + rest == kept;
    }
  }

  /**
   * `remove(v)` as written: it raises on an empty list and on removing the
   * only value; otherwise it filters, except that when exactly one value
   * other than `v` would remain, that value is dropped too.
   */
  lemma RemoveAsWrittenOutcome(s: seq<Val>, v: Val)
    ensures s == [] ==> RemoveAsWritten(s, v) == Err(EmptyList)
    ensures s == [v] ==> RemoveAsWritten(s, v) == Err(NoneHasNoPrev)
    ensures |s| >= 2 && |Filter(s, v)| != 1 ==> RemoveAsWritten(s, v) == Ok(Filter(s, v))
    ensures |s| >= 2 && |Filter(s, v)| == 1 && v in s ==> RemoveAsWritten(s, v) == Ok([])
    ensures s != [] && v !in s ==> RemoveAsWritten(s, v) == Ok(s)
  {
    if s != [] {
      RemoveWalkOutcome([], s, |s|, v);
      FilterShrinks(s, v);
      assert [] + s == s && [] + Filter(s, v) == Filter(s, v);
      if |Filter(s, v)| == 0 {
        assert Filter(s, v) == [];
      }
      if s == [v] {
        assert s[1..] == [];
      }
    }
  }

  /**
   * Removing the first of two values empties the list, where the second
   * should stay; removing the only value raises instead of emptying it.
   */
  lemma RemoveAsWrittenLoses(a: Val, b: Val)
    requires a != b
    ensures RemoveAsWritten([a, b], a) == Ok([]) && Filter([a, b], a) == [b]
    ensures RemoveAsWritten([a], a) == Err(NoneHasNoPrev) && Filter([a], a) == []
  {
    RemoveAsWrittenOutcome([a, b], a);
    RemoveAsWrittenOutcome([a], a);
    assert [a, b][1..] == [b];
    assert [a][1..] == [];
  }

  /**
   * The list as its holder sees it: the values met following `next` from
   * the head, and the position of the node `tail` names.
   */
  datatype Ends = Ends(values: seq<Val>, tail: nat)

  /** Head and tail agree: `tail` names the last node. */
  predicate Agree(e: Ends)
  {
    e.values != [] ==> e.tail == |e.values| - 1
  }

  /**
   * The walking branch of `insert` as written: the new node goes at `p`,
   * after the node reached, and `tail` is never reassigned, so a node
   * added after the tail is not named by it.
   */
  function InsertWalkAsWritten(e: Ends, p: nat, v: Val): Ends
    requires p <= |e.values|
  {
    Ends(InsertAt(e.values, p, v), if p <= e.tail then e.tail + 1 else e.tail)
  }

  /** `push_back(v)`: the new node follows the node `tail` names and becomes the tail. */
  function PushBackEnds(e: Ends, v: Val): Ends
    requires e.values != [] ==> e.tail < |e.values|
  {
    if e.values == [] then Ends([v], 0) else Ends(e.values[..e.tail + 1] + [v], e.tail + 1)
  }

  /** With head and tail agreeing, `push_back` appends and keeps them agreeing. */
  lemma PushBackEndsAppends(e: Ends, v: Val)
    requires Agree(e)
    ensures PushBackEnds(e, v).values == e.values + [v] && Agree(PushBackEnds(e, v))
  {
    assert e.values != [] ==> e.values[..e.tail + 1] == e.values;
  }

  /**
   * Inserting at the position equal to the size, as written, leaves `tail`
   * on the old last node: `back()` then reads the old last value, and the
   * next `push_back` unhooks the inserted value from the chain.
   */
  lemma InsertAsWrittenStaleTail(e: Ends, v: Val, w: Val)
    requires Agree(e) && e.values != [] && Walks(|e.values|, Some(|e.values|))
    ensures var after := InsertWalkAsWritten(e, |e.values|, v);
            after.values == e.values + [v] && !Agree(after) &&
            after.values[after.tail] == e.values[|e.values| - 1] &&
            PushBackEnds(after, w).values == e.values + [w]
    ensures InsertPosition(|e.values|, Some(|e.values|)) == |e.values|
  {
    var after := InsertWalkAsWritten(e, |e.values|, v);
    InsertAtEnds(e.values, v);
    assert after.values[..after.tail + 1] == e.values;
  }

  /** The smallest case: `[1]`, then `insert(2, 1)`, then `push_back(3)` leaves `[1, 3]`. */
  lemma InsertAsWrittenLoses()
    ensures var after := InsertWalkAsWritten(Ends([VInt(1)], 0), 1, VInt(2));
            PushBackEnds(after, VInt(3)).values == [VInt(1), VInt(3)] &&
            InsertAt([VInt(1)], 1, VInt(2)) + [VInt(3)] == [VInt(1), VInt(2), VInt(3)]
  {
    InsertAsWrittenStaleTail(Ends([VInt(1)], 0), VInt(2), VInt(3));
    InsertAtEnds([VInt(1)], VInt(2));
  }

  /**
   * The complete doubly linked list. `nodes` and `contents` are the chain
   * from head to tail and its values; each operation first brings the size
   * and these two up to date (no record depends on that order) and then
   * relinks the nodes, recording as it goes.
   */
  class List {
    const name: string
    const id: nat
    const algo: StateSet
    var head: Node?
    var tail: Node?
    var size: int
    ghost var nodes: seq<Node>
    ghost var contents: seq<Val>

    ghost predicate Valid()
      reads this, nodes
    {
      Chain(nodes, head, tail) && size == |nodes| && Holds(nodes, contents, algo)
    }

    /** An empty list; the declaration ignores the comments it is given. */
    constructor (name: string, algo: StateSet, comments: string)
      modifies algo`states, algo`nextId
      ensures Valid() && contents == [] && this.name == name && this.algo == algo
      ensures id == old(algo.nextId) && algo.nextId == id + 1
      ensures algo.states == old(algo.states) + [DllDeclareState(id, name, "none", "none", "")]
    {
      var fid := algo.FreshId();
      this.name := name;
      this.id := fid;
      this.algo := algo;
      head := null;
      tail := null;
      size := 0;
      nodes := [];
      contents := [];
      new;
      algo.AddState(DllDeclareState(fid, name, "none", "none", ""));
    }

    /** `len(lis)`: the size counter, which is the number of values. */
    function Len(): (n: int)
      reads this, nodes
      ensures Valid() ==> n == |contents|
    {
      size
    }

    /** The head assignment the list inherits. */
    method SetHead(h: Node?)
      modifies this`head, algo`states
      ensures head == h
      ensures algo.states == old(algo.states) +
                [DllHeadState(id, name, NodeName(h), NodeName(tail), NodeName(old(head)))]
    {
      var last := head;
      head := h;
      algo.AddState(DllHeadState(id, name, NodeName(h), NodeName(tail), NodeName(last)));
    }

    /** The tail assignment the list inherits. */
    method SetTail(t: Node?)
      modifies this`tail, algo`states
      ensures tail == t
      ensures algo.states == old(algo.states) +
                [DllTailState(id, name, NodeName(head), NodeName(t), NodeName(old(tail)))]
    {
      var last := tail;
      tail := t;
      algo.AddState(DllTailState(id, name, NodeName(head), NodeName(t), NodeName(last)));
    }

    /** `push_front(v)`: a new node before the head. */
    method PushFront(v: Val)
      requires Valid()
      modifies this, nodes, algo`states, algo`nextId
      ensures Valid() && contents == [v] + old(contents)
      ensures |nodes| == |old(nodes)| + 1 && fresh(nodes[0]) && nodes[1..] == old(nodes)
      ensures algo.states == old(algo.states) +
                PushFrontTrace(id, name, old(algo.nextId), v, old(SnapOf(head)), old(NodeName(tail)))
    {
      var curr := new Node(algo, v, "");
      AttachFront(curr);
      assert nodes[1..] == old(nodes);
    }

    /** `push_front` once the node is made. */
    method AttachFront(curr: Node)
      requires Valid() && curr !in nodes && curr.next == null && curr.prev == null && curr.algo == algo
      modifies this, (if head == null then {} else {head}), curr`next, curr`prev, algo`states
      ensures Valid() && nodes == [curr] + old(nodes) && contents == [curr.value] + old(contents)
      ensures algo.states == old(algo.states) +
                FrontLinkTrace(id, name, curr.id, curr.value, old(SnapOf(head)), old(NodeName(tail)))
    {
      ghost var ns, vs := nodes, contents;
      assert Stores([curr], [curr.value], algo, 0);
      HoldsAppend([curr], [curr.value], ns, vs, algo);
      size := size + 1;
      nodes := [curr] + ns;
      contents := [curr.value] + vs;
      if head != null {
        assert Stores(ns, vs, algo, 0);
        LinkFront(curr, ns);
      } else {
        curr.SetNext(null);
        curr.SetPrev(null);
        LinkAlone(curr);
      }
      assert ([curr] + ns)[1..] == ns;
    }

    /** The branch of both pushes for an empty list: `curr` is head and tail. */
    method LinkAlone(curr: Node)
      requires head == null && tail == null && curr.next == null && curr.prev == null
      modifies this`head, this`tail, algo`states
      ensures head == curr && tail == curr && Chain([curr], head, tail)
      ensures algo.states == old(algo.states) + AloneTrace(id, name, curr.id)
    {
      SetHead(curr);
      SetTail(curr);
    }

    /** The non-empty branch of `push_front`: `curr` is linked before the head. */
    method LinkFront(curr: Node, ghost ns: seq<Node>)
      requires Chain(ns, head, tail) && ns != [] && curr !in ns
      requires curr.next == null && curr.prev == null && curr.algo == algo && head.algo == algo
      modifies this`head, curr`next, head`prev, algo`states
      ensures head == curr && Chain([curr] + ns, head, tail)
      ensures algo.states == old(algo.states) +
                FrontLinkTrace(id, name, curr.id, curr.value, old(SnapOf(head)), NodeName(tail))
    {
      ghost var s0, h := algo.states, SnapOf(head).value;
      ghost var r1 := NodeNextState(curr.id, curr.value, NatText(h.id), "none", "none");
      ghost var r2 := NodePrevState(h.id, h.value, h.next, NatText(curr.id), "none");
      ghost var r3 := DllHeadState(id, name, NatText(curr.id), NodeName(tail), NatText(h.id));
      curr.SetNext(head);
      assert algo.states == s0 + [r1];
      head.SetPrev(curr);
      assert algo.states == s0 + [r1] + [r2];
      SetHead(curr);
      assert algo.states == s0 + [r1] + [r2] + [r3];
      Snoc3(s0, r1, r2, r3);
      assert Linked(ns) by {
        forall i | 0 <= i < |ns| - 1
          ensures LinkedAt(ns, i)
        {
          assert Differ(ns, i + 1, 0);
          assert old(LinkedAt(ns, i));
        }
      }
      ChainCons(curr, ns, tail);
    }

    /** `push_back(v)`: a new node after the tail. */
    method PushBack(v: Val)
      requires Valid()
      modifies this, nodes, algo`states, algo`nextId
      ensures Valid() && contents == old(contents) + [v]
      ensures |nodes| == |old(nodes)| + 1 && fresh(nodes[|nodes| - 1])
      ensures nodes[..|nodes| - 1] == old(nodes)
      ensures algo.states == old(algo.states) +
                PushBackTrace(id, name, old(algo.nextId), v, old(SnapOf(tail)), old(NodeName(head)))
    {
      var curr := new Node(algo, v, "");
      AttachBack(curr);
      assert nodes[..|nodes| - 1] == old(nodes);
    }

    /** `push_back` once the node is made. */
    method AttachBack(curr: Node)
      requires Valid() && curr !in nodes && curr.next == null && curr.prev == null && curr.algo == algo
      modifies this, (if tail == null then {} else {tail}), curr`next, curr`prev, algo`states
      ensures Valid() && nodes == old(nodes) + [curr] && contents == old(contents) + [curr.value]
      ensures algo.states == old(algo.states) +
                BackLinkTrace(id, name, curr.id, curr.value, old(SnapOf(tail)), old(NodeName(head)))
    {
      ghost var ns, vs := nodes, contents;
      assert Stores([curr], [curr.value], algo, 0);
      HoldsAppend(ns, vs, [curr], [curr.value], algo);
      size := size + 1;
      nodes := ns + [curr];
      contents := vs + [curr.value];
      if tail != null {
        assert Stores(ns, vs, algo, |ns| - 1);
        LinkBack(curr, ns);
      } else {
        curr.SetNext(null);
        LinkAlone(curr);
      }
    }

    /** The non-empty branch of `push_back`: `curr` is linked after the tail. */
    method LinkBack(curr: Node, ghost ns: seq<Node>)
      requires Chain(ns, head, tail) && ns != [] && curr !in ns
      requires curr.next == null && curr.prev == null && curr.algo == algo && tail.algo == algo
      modifies this`tail, curr`prev, tail`next, algo`states
      ensures tail == curr && Chain(ns + [curr], head, tail)
      ensures algo.states == old(algo.states) +
                BackLinkTrace(id, name, curr.id, curr.value, old(SnapOf(tail)), NodeName(head))
    {
      ghost var s0, t := algo.states, SnapOf(tail).value;
      ghost var r1 := NodePrevState(curr.id, curr.value, "none", NatText(t.id), "none");
      ghost var r2 := NodeNextState(t.id, t.value, NatText(curr.id), t.prev, "none");
      ghost var r3 := DllTailState(id, name, NodeName(head), NatText(curr.id), NatText(t.id));
      curr.SetPrev(tail);
      assert algo.states == s0 + [r1];
      tail.SetNext(curr);
      assert algo.states == s0 + [r1] + [r2];
      SetTail(curr);
      assert algo.states == s0 + [r1] + [r2] + [r3];
      Snoc3(s0, r1, r2, r3);
      ghost var last := |ns| - 1;
      assert Linked(ns) by {
        forall i | 0 <= i < |ns| - 1
          ensures LinkedAt(ns, i)
        {
          assert Differ(ns, i, last);
          assert old(LinkedAt(ns, i));
        }
      }
      ChainSnoc(ns, curr, head);
    }

    /** `pop_front()`: the first value, unlinked; an empty list raises. */
    method PopFront() returns (r: Result<Val>)
      requires Valid()
      modifies this, nodes, algo`states
      ensures Valid()
      ensures old(contents) == [] ==>
                r == Err(EmptyList) && contents == old(contents) && algo.states == old(algo.states)
      ensures old(contents) != [] ==>
                r == Ok(old(contents)[0]) && contents == old(contents)[1..] && nodes == old(nodes)[1..] &&
                algo.states == old(algo.states) +
                  PopFrontTrace(id, name, old(SnapOf(head)).value, old(SnapOf(head.next)), old(NodeName(tail)))
    {
      if head == null {
        return Err(EmptyList);
      }
      assert Stores(nodes, contents, algo, 0);
      var data := head.value;
      DetachFront();
      return Ok(data);
    }

    /** `pop_front` once the list is known not to be empty. */
    method DetachFront()
      requires Valid() && nodes != []
      modifies this, nodes, algo`states
      ensures Valid() && contents == old(contents)[1..] && nodes == old(nodes)[1..]
      ensures algo.states == old(algo.states) +
                PopFrontTrace(id, name, old(SnapOf(head)).value, old(SnapOf(head.next)), old(NodeName(tail)))
    {
      ghost var ns, vs := nodes, contents;
      HoldsRest(ns, vs, algo);
      size := size - 1;
      nodes := ns[1..];
      contents := vs[1..];
      assert |ns| > 1 ==> LinkedAt(ns, 0) && Stores(ns, vs, algo, 1);
      if head.next != null {
        DropHead(ns[1], ns);
      } else {
        SetHead(head.next);
        SetTail(null);
      }
    }

    /** `pop_front` on two or more nodes: the second becomes the head. */
    method DropHead(ghost after: Node, ghost ns: seq<Node>)
      requires Chain(ns, head, tail) && |ns| > 1 && after == ns[1] && after.algo == algo
      modifies this`head, after`prev, algo`states
      ensures Chain(ns[1..], head, tail)
      ensures algo.states == old(algo.states) +
                PopFrontTrace(id, name, old(SnapOf(head)).value, old(SnapOf(head.next)), NodeName(tail))
    {
      assert LinkedAt(ns, 0);
      ghost var s0, h, n := algo.states, SnapOf(head).value, SnapOf(after).value;
      ghost var r1 := DllHeadState(id, name, NatText(n.id), NodeName(tail), NatText(h.id));
      ghost var r2 := NodePrevState(n.id, n.value, n.next, "none", NatText(h.id));
      SetHead(head.next);
      assert algo.states == s0 + [r1];
      head.SetPrev(null);
      assert algo.states == s0 + [r1] + [r2];
      Snoc2(s0, r1, r2);
      forall i | 0 <= i < |ns| - 1 && i != 0
        ensures LinkedAt(ns, i)
      {
        assert Differ(ns, i + 1, 1);
        assert old(LinkedAt(ns, i));
      }
      ChainWithout(ns, 0, head, tail);
      WithoutEnds(ns);
    }

    /** `pop_back()`: the last value, unlinked; an empty list raises. */
    method PopBack() returns (r: Result<Val>)
      requires Valid()
      modifies this, nodes, algo`states
      ensures Valid()
      ensures old(contents) == [] ==>
                r == Err(EmptyList) && contents == old(contents) && algo.states == old(algo.states)
      ensures old(contents) != [] ==>
                r == Ok(old(contents)[|old(contents)| - 1]) &&
                contents == old(contents)[..|old(contents)| - 1] && nodes == old(nodes)[..|old(nodes)| - 1] &&
                algo.states == old(algo.states) +
                  PopBackTrace(id, name, old(SnapOf(tail)).value, old(SnapOf(tail.prev)), old(NodeName(head)))
    {
      if head == null {
        return Err(EmptyList);
      }
      assert Stores(nodes, contents, algo, |nodes| - 1);
      var data := tail.value;
      DetachBack();
      return Ok(data);
    }

    /** `pop_back` once the list is known not to be empty. */
    method DetachBack()
      requires Valid() && nodes != []
      modifies this, nodes, algo`states
      ensures Valid() && contents == old(contents)[..|old(contents)| - 1] && nodes == old(nodes)[..|old(nodes)| - 1]
      ensures algo.states == old(algo.states) +
                PopBackTrace(id, name, old(SnapOf(tail)).value, old(SnapOf(tail.prev)), old(NodeName(head)))
    {
      ghost var ns, vs := nodes, contents;
      ghost var last := |ns| - 1;
      HoldsPrefix(ns, vs, algo, last);
      size := size - 1;
      nodes := ns[..last];
      contents := vs[..last];
      assert |ns| > 1 ==> LinkedAt(ns, last - 1) && Stores(ns, vs, algo, last - 1);
      if tail.prev != null {
        DropTail(ns[last - 1], ns);
      } else {
        SetTail(tail.prev);
        SetHead(null);
      }
    }

    /** `pop_back` on two or more nodes: the last but one becomes the tail. */
    method DropTail(ghost before: Node, ghost ns: seq<Node>)
      requires Chain(ns, head, tail) && |ns| > 1 && before == ns[|ns| - 2] && before.algo == algo
      modifies this`tail, before`next, algo`states
      ensures Chain(ns[..|ns| - 1], head, tail)
      ensures algo.states == old(algo.states) +
                PopBackTrace(id, name, old(SnapOf(tail)).value, old(SnapOf(tail.prev)), NodeName(head))
    {
      ghost var last := |ns| - 1;
      assert LinkedAt(ns, last - 1);
      ghost var s0, t, b := algo.states, SnapOf(tail).value, SnapOf(before).value;
      ghost var r1 := DllTailState(id, name, NodeName(head), NatText(b.id), NatText(t.id));
      ghost var r2 := NodeNextState(b.id, b.value, "none", b.prev, NatText(t.id));
      SetTail(tail.prev);
      assert algo.states == s0 + [r1];
      tail.SetNext(null);
      assert algo.states == s0 + [r1] + [r2];
      Snoc2(s0, r1, r2);
      forall i | 0 <= i < |ns| - 1 && i != last - 1
        ensures LinkedAt(ns, i)
      {
        assert Differ(ns, i, last - 1);
        assert old(LinkedAt(ns, i));
      }
      ChainWithout(ns, last, head, tail);
      WithoutEnds(ns);
    }

    /**
     * `insert(v, index)`: at the front for an empty list or index 0, at the
     * back for no index or one beyond the size, otherwise after a walk
     * from the head (see `InsertWalk`).
     */
    method Insert(v: Val, index: Option<int>)
      requires Valid()
      modifies this, nodes, algo`states, algo`nextId
      ensures Valid()
      ensures contents == InsertAt(old(contents), InsertPosition(old(size), index), v)
      ensures (old(size) == 0 || index == Some(0)) ==>
                algo.states == old(algo.states) +
                  PushFrontTrace(id, name, old(algo.nextId), v, old(SnapOf(head)), old(NodeName(tail)))
      ensures old(size) != 0 && index != Some(0) && !Walks(old(size), index) ==>
                algo.states == old(algo.states) +
                  PushBackTrace(id, name, old(algo.nextId), v, old(SnapOf(tail)), old(NodeName(head)))
      ensures Walks(old(size), index) ==>
                var p := InsertPosition(old(size), index);
                algo.states == old(algo.states) +
                  SpliceTrace(id, name, old(algo.nextId), v, old(SnapOf(nodes[p - 1])).value,
                              old(SnapOf(if p < |nodes| then nodes[p] else null)), old(NodeName(head)))
    {
      InsertAtEnds(contents, v);
      if size == 0 || index == Some(0) {
        PushFront(v);
      } else if index.None? || size < index.value {
        PushBack(v);
      } else {
        InsertWalk(v, index);
      }
    }

    /**
     * The walking branch of `insert`: the count starts at 1 on the head and
     * stops on reaching `index`, so a negative index inserts after the head.
     * The new node goes after the node reached; when that is the tail, the
     * tail moves to the new node (the corrected branch, see `InsertWalkAsWritten`).
     */
    method InsertWalk(v: Val, index: Option<int>)
      requires Valid() && Walks(size, index)
      modifies this, nodes, algo`states, algo`nextId
      ensures Valid()
      ensures contents == InsertAt(old(contents), InsertPosition(old(size), index), v)
      ensures var p := InsertPosition(old(size), index);
              algo.states == old(algo.states) +
                SpliceTrace(id, name, old(algo.nextId), v, old(SnapOf(nodes[p - 1])).value,
                            old(SnapOf(if p < |nodes| then nodes[p] else null)), old(NodeName(head)))
    {
      var temp, count := Walk(index.value);
      SpliceNew(v, temp, count);
    }

    /** The walk of `insert`: `count` starts at 1 on the head and stops on reaching `index`. */
    method Walk(index: int) returns (temp: Node, count: nat)
      requires Valid() && Walks(size, Some(index))
      ensures count == InsertPosition(size, Some(index)) && 0 < count <= |nodes| && temp == nodes[count - 1]
    {
      count := 1;
      temp := head;
      while index > count
        invariant 1 <= count <= (if index < 1 then 1 else index)
        invariant temp == nodes[count - 1]
        decreases index - count
      {
        assert LinkedAt(nodes, count - 1);
        count := count + 1;
        temp := temp.next;
      }
    }

    /** A new node for `v`, declared and then linked in after `temp`, at position `p`. */
    method SpliceNew(v: Val, temp: Node, ghost p: nat)
      requires Valid() && 0 < p <= |nodes| && temp == nodes[p - 1]
      modifies this, nodes, algo`states, algo`nextId
      ensures Valid() && contents == InsertAt(old(contents), p, v)
      ensures algo.states == old(algo.states) +
                SpliceTrace(id, name, old(algo.nextId), v, old(SnapOf(temp)).value,
                            old(SnapOf(if p < |nodes| then nodes[p] else null)), old(NodeName(head)))
    {
      ghost var s0, b, a, h := algo.states, SnapOf(temp).value, SnapOf(if p < |nodes| then nodes[p] else null), NodeName(head);
      var curr := new Node(algo, v, "");
      assert SnapOf(temp) == Some(b);
      Splice(curr, temp, p);
      Assoc(s0, [NodeDeclareState(curr.id, v, "")], SpliceLinkTrace(id, name, curr.id, v, b, a, h));
    }

    /** The new node `curr` linked in after `temp`, at position `p`. */
    method Splice(curr: Node, temp: Node, ghost p: nat)
      requires Valid() && 0 < p <= |nodes| && temp == nodes[p - 1] && curr !in nodes
      requires curr.next == null && curr.prev == null && curr.algo == algo
      modifies this, nodes, curr`next, curr`prev, algo`states
      ensures Valid() && contents == InsertAt(old(contents), p, curr.value)
      ensures algo.states == old(algo.states) +
                SpliceLinkTrace(id, name, curr.id, curr.value, old(SnapOf(temp)).value,
                                old(SnapOf(if p < |nodes| then nodes[p] else null)), old(NodeName(head)))
    {
      ghost var ns, vs := nodes, contents;
      HoldsInsert(ns, vs, algo, p, curr);
      assert Stores(ns, vs, algo, p - 1);
      assert p < |ns| ==> LinkedAt(ns, p - 1) && Stores(ns, vs, algo, p);
      size := size + 1;
      nodes := ns[..p] + [curr] + ns[p..];
      contents := InsertAt(vs, p, curr.value);
      if temp.next != null {
        SpliceMiddle(curr, temp, ns[p], ns, p);
      } else {
        InsertLast(ns, curr);
        SpliceEnd(curr, temp, ns);
      }
    }

    /** The splice with a node after `temp`: four pointer updates. */
    method SpliceMiddle(curr: Node, temp: Node, ghost after: Node, ghost ns: seq<Node>, ghost p: nat)
      requires Chain(ns, head, tail) && 0 < p < |ns| && temp == ns[p - 1] && after == ns[p] && curr !in ns
      requires curr.next == null && curr.prev == null
      requires curr.algo == algo && temp.algo == algo && after.algo == algo
      modifies curr`next, curr`prev, after`prev, temp`next, algo`states
      ensures Chain(ns[..p] + [curr] + ns[p..], head, tail)
      ensures algo.states == old(algo.states) +
                SpliceLinkTrace(id, name, curr.id, curr.value, old(SnapOf(temp)).value, old(SnapOf(after)), NodeName(head))
    {
      assert LinkedAt(ns, p - 1) && Differ(ns, p - 1, p);
      ghost var s0 := algo.states;
      ghost var b, a := SnapOf(temp).value, SnapOf(after).value;
      ghost var r1 := NodeNextState(curr.id, curr.value, NatText(a.id), "none", "none");
      ghost var r2 := NodePrevState(curr.id, curr.value, NatText(a.id), NatText(b.id), "none");
      ghost var r3 := NodePrevState(a.id, a.value, a.next, NatText(curr.id), NatText(b.id));
      ghost var r4 := NodeNextState(b.id, b.value, NatText(curr.id), b.prev, NatText(a.id));
      curr.SetNext(temp.next);
      assert algo.states == s0 + [r1];
      curr.SetPrev(temp);
      assert algo.states == s0 + [r1] + [r2];
      curr.next.SetPrev(curr);
      assert algo.states == s0 + [r1] + [r2] + [r3];
      curr.prev.SetNext(curr);
      assert algo.states == s0 + [r1] + [r2] + [r3] + [r4];
      Snoc4(s0, r1, r2, r3, r4);
      forall i | 0 <= i < |ns| - 1 && i != p - 1
        ensures LinkedAt(ns, i)
      {
        assert Differ(ns, i, p - 1) && Differ(ns, i + 1, p);
        assert old(LinkedAt(ns, i));
      }
      ChainSplice(ns, curr, p, head, tail);
    }

    /** The splice after the tail: `curr` becomes the tail. */
    method SpliceEnd(curr: Node, temp: Node, ghost ns: seq<Node>)
      requires Chain(ns, head, tail) && ns != [] && temp == ns[|ns| - 1] && curr !in ns
      requires curr.next == null && curr.prev == null && curr.algo == algo && temp.algo == algo
      modifies this`tail, curr`next, curr`prev, temp`next, algo`states
      ensures Chain(ns + [curr], head, tail)
      ensures algo.states == old(algo.states) +
                SpliceLinkTrace(id, name, curr.id, curr.value, old(SnapOf(temp)).value, None, NodeName(head))
    {
      ghost var s0, b := algo.states, SnapOf(temp).value;
      ghost var r1 := NodePrevState(curr.id, curr.value, "none", NatText(b.id), "none");
      ghost var r2 := DllTailState(id, name, NodeName(head), NatText(curr.id), NatText(b.id));
      ghost var r3 := NodeNextState(b.id, b.value, NatText(curr.id), b.prev, "none");
      curr.SetNext(temp.next);
      assert algo.states == s0;
      curr.SetPrev(temp);
      assert algo.states == s0 + [r1];
      SetTail(curr);
      assert algo.states == s0 + [r1] + [r2];
      curr.prev.SetNext(curr);
      assert algo.states == s0 + [r1] + [r2] + [r3];
      Snoc3(s0, r1, r2, r3);
      ghost var last := |ns| - 1;
      assert Linked(ns) by {
        forall i | 0 <= i < |ns| - 1
          ensures LinkedAt(ns, i)
        {
          assert Differ(ns, i, last);
          assert old(LinkedAt(ns, i));
        }
      }
      ChainSnoc(ns, curr, head);
    }

    /**
     * `remove(v)`: every node holding `v` is unlinked, in one walk from the
     * head; an empty list raises.
     */
    method Remove(v: Val) returns (r: Outcome)
      requires Valid()
      modifies this, nodes, algo`states
      ensures Valid()
      ensures old(contents) == [] ==>
                r == Raised(EmptyList) && contents == old(contents) && algo.states == old(algo.states)
      ensures old(contents) != [] ==>
                r == Done && contents == Filter(old(contents), v) &&
                algo.states == old(algo.states) + RemoveTrace(id, name, Ids(old(nodes)), old(contents), 0, v)
    {
      if head == null {
        return Raised(EmptyList);
      }
      RemoveAll(v);
      return Done;
    }

    /** The walk of `remove(v)` over a list that is not empty. */
    method RemoveAll(v: Val)
      requires Valid()
      modifies this, nodes, algo`states
      ensures Valid() && contents == Filter(old(contents), v)
      ensures algo.states == old(algo.states) + RemoveTrace(id, name, Ids(old(nodes)), old(contents), 0, v)
    {
      ghost var orig, vals := nodes, contents;
      ghost var goal := algo.states + RemoveTrace(id, name, Ids(nodes), contents, 0, v);
      ghost var kept: seq<Node> := [];
      ghost var k := 0;
      WalkedNone(v);
      var curr := head;
      while curr != null
        invariant Valid() && Walked(orig, vals, kept, k, v)
        invariant curr == (if k < |orig| then orig[k] else null)
        invariant forall i | 0 <= i < |nodes| :: nodes[i] in orig
        invariant |kept| <= |nodes| == |contents|
        invariant goal == algo.states + RemoveTrace(id, name, Ids(nodes), contents, |kept|, v)
        decreases |orig| - k
      {
        kept, k, curr := Advance(curr, v, orig, vals, kept, k, goal);
      }
      WalkedAll(orig, vals, kept, k, v);
      Rebase(goal, algo.states, RemoveTrace(id, name, Ids(nodes), contents, |kept|, v), algo.states, []);
      assert contents == Filter(vals, v) && algo.states == goal;
    }

    /**
     * One turn of the loop of `remove(v)`: visit `curr`, then `curr = curr.next`.
     * Emptying the list ends the walk, as if every node had been visited.
     */
    method Advance(curr: Node, v: Val, ghost orig: seq<Node>, ghost vals: seq<Val>, ghost kept: seq<Node>, ghost k: nat,
                   ghost goal: seq<State>)
      returns (ghost kept': seq<Node>, ghost k': nat, next: Node?)
      requires Valid() && Walked(orig, vals, kept, k, v) && k < |orig| && curr == orig[k]
      requires forall i | 0 <= i < |nodes| :: nodes[i] in orig
      requires |kept| <= |nodes| == |contents|
      requires goal == algo.states + RemoveTrace(id, name, Ids(nodes), contents, |kept|, v)
      modifies this, orig, algo`states
      ensures Valid() && forall i | 0 <= i < |nodes| :: nodes[i] in orig
      ensures k < k' <= |orig| && Walked(orig, vals, kept', k', v)
      ensures next == (if k' < |orig| then orig[k'] else null)
      ensures |kept'| <= |nodes| == |contents|
      ensures goal == algo.states + RemoveTrace(id, name, Ids(nodes), contents, |kept'|, v)
    {
      ghost var s0, t0 := algo.states, RemoveTrace(id, name, Ids(nodes), contents, |kept|, v);
      var emptied;
      emptied, kept' := Visit(curr, v, orig, vals, kept, k);
      if emptied {
        kept', k' := nodes, |orig|;
        assert vals[..k'] == vals && orig[k'..] == [];
        WalkedAll(orig, vals, kept', k', v);
        Rebase(goal, s0, t0, algo.states, []);
        return kept', k', null;
      }
      k' := k + 1;
      Rebase(goal, s0, t0, algo.states, RemoveTrace(id, name, Ids(nodes), contents, |kept'|, v));
      next := curr.next;
    }

    /** Before the walk, nothing is visited: every node and value is still ahead. */
    lemma WalkedNone(v: Val)
      requires Valid()
      ensures Walked(nodes, contents, [], 0, v)
      ensures head == (if 0 < |nodes| then nodes[0] else null)
    {
      assert nodes[0..] == nodes && contents[..0] == [] && contents[0..] == contents;
    }

    /** A walk that has visited every node has kept the filtered values, with nothing left to record. */
    lemma WalkedAll(orig: seq<Node>, vals: seq<Val>, kept: seq<Node>, k: nat, v: Val)
      requires Walked(orig, vals, kept, k, v) && k == |orig|
      ensures contents == Filter(vals, v) && |kept| == |nodes| == |contents|
      ensures RemoveTrace(id, name, Ids(nodes), contents, |kept|, v) == []
    {
      assert orig[k..] == [] && vals[k..] == [];
      FilterWalked(vals, v);
    }

    /** A trace still owed, restated after a step that wrote part of it. */
    lemma Rebase(goal: seq<State>, s0: seq<State>, t0: seq<State>, s1: seq<State>, t1: seq<State>)
      requires goal == s0 + t0 && s0 + t0 == s1 + t1
      ensures goal == s1 + t1
      ensures t1 == [] ==> goal == s1
    {
    }

    /**
     * The state of `remove(v)` after visiting the first `k` of the nodes
     * `orig` holding `vals`: the nodes `kept` so far, then the rest as they
     * were; the values kept so far, then the rest.
     */
    ghost predicate Walked(orig: seq<Node>, vals: seq<Val>, kept: seq<Node>, k: nat, v: Val)
      reads this
    {
      k <= |orig| && |vals| == |orig| && nodes == kept + orig[k..] &&
      |kept| == |Filter(vals[..k], v)| && contents == Filter(vals[..k], v) + vals[k..]
    }

    /**
     * One step of the walk of `remove(v)` on the node `curr` at position `k`
     * of `orig`: a match is unlinked, otherwise it is kept. The list is
     * emptied only when the match was its last node.
     */
    method Visit(curr: Node, v: Val, ghost orig: seq<Node>, ghost vals: seq<Val>, ghost kept: seq<Node>, ghost k: nat)
      returns (emptied: bool, ghost kept': seq<Node>)
      requires Valid() && Walked(orig, vals, kept, k, v) && k < |orig| && curr == orig[k]
      requires forall i | 0 <= i < |nodes| :: nodes[i] in orig
      modifies this, orig, algo`states
      ensures Valid() && forall i | 0 <= i < |nodes| :: nodes[i] in orig
      ensures emptied ==> contents == Filter(vals, v)
      ensures !emptied ==>
                Walked(orig, vals, kept', k + 1, v) && curr.next == (if k + 1 < |orig| then orig[k + 1] else null)
      ensures !emptied ==> |kept'| <= |nodes|
      ensures old(algo.states) + RemoveTrace(id, name, Ids(old(nodes)), old(contents), |kept|, v) ==
              algo.states + (if emptied then [] else RemoveTrace(id, name, Ids(nodes), contents, |kept'|, v))
    {
      WalkStep(nodes, contents, orig, vals, kept, k, v);
      assert Stores(nodes, contents, algo, |kept|);
      if curr.value == v {
        emptied := VisitMatch(curr, v, orig, vals, kept, k);
        kept' := kept;
      } else {
        VisitSkip(curr, v, orig, vals, kept, k);
        emptied, kept' := false, kept + [curr];
      }
    }

    /** The walk of `remove(v)` on a node holding `v`: it is unlinked. */
    method VisitMatch(curr: Node, v: Val, ghost orig: seq<Node>, ghost vals: seq<Val>, ghost kept: seq<Node>, ghost k: nat)
      returns (emptied: bool)
      requires Valid() && Walked(orig, vals, kept, k, v) && k < |orig| && curr == orig[k] && curr.value == v
      requires |kept| < |nodes| && nodes[|kept|] == curr && contents[|kept|] == vals[k]
      requires nodes[..|kept|] + nodes[|kept| + 1..] == kept + orig[k + 1..]
      requires contents[..|kept|] + contents[|kept| + 1..] == Filter(vals[..k + 1], v) + vals[k + 1..]
      requires |kept| == |Filter(vals[..k + 1], v)|
      requires |nodes| == 1 ==> Filter(vals[..k + 1], v) + vals[k + 1..] == Filter(vals, v)
      requires k + 1 < |orig| ==> |kept| + 1 < |nodes| && nodes[|kept| + 1] == orig[k + 1]
      requires forall i | 0 <= i < |nodes| :: nodes[i] in orig
      modifies this, orig, algo`states
      ensures Valid() && forall i | 0 <= i < |nodes| :: nodes[i] in orig
      ensures emptied ==> contents == Filter(vals, v)
      ensures !emptied ==>
                Walked(orig, vals, kept, k + 1, v) && curr.next == (if k + 1 < |orig| then orig[k + 1] else null)
      ensures !emptied ==> |kept| <= |nodes|
      ensures old(algo.states) + RemoveTrace(id, name, Ids(old(nodes)), old(contents), |kept|, v) ==
              algo.states + (if emptied then [] else RemoveTrace(id, name, Ids(nodes), contents, |kept|, v))
    {
      ghost var p := |kept|;
      assert p < |nodes| - 1 ==> LinkedAt(nodes, p);
      assert Stores(nodes, contents, algo, p);
      ghost var s0, ns, ids, vs := algo.states, nodes, Ids(nodes), contents;
      RemoveTraceUnlink(id, name, ids, vs, p, v);
      IdsWithout(ns, p);
      WithoutWithin(ns, p, orig, ns[..p] + ns[p + 1..]);
      emptied := UnlinkMatch(curr, p);
      if !emptied {
        AppendAssoc(s0, UnlinkTrace(id, name, ids, vs, p), RemoveTrace(id, name, Ids(nodes), contents, p, v));
      }
    }

    /** The walk of `remove(v)` on a node holding another value: it is kept, with no record. */
    method VisitSkip(curr: Node, v: Val, ghost orig: seq<Node>, ghost vals: seq<Val>, ghost kept: seq<Node>, ghost k: nat)
      requires Valid() && Walked(orig, vals, kept, k, v) && k < |orig| && curr == orig[k] && curr.value != v
      requires |kept| < |nodes| && nodes[|kept|] == curr && contents[|kept|] == vals[k]
      requires nodes == (kept + [orig[k]]) + orig[k + 1..]
      requires contents == Filter(vals[..k + 1], v) + vals[k + 1..]
      requires |kept| + 1 == |Filter(vals[..k + 1], v)|
      requires k + 1 < |orig| ==> |kept| + 1 < |nodes| && nodes[|kept| + 1] == orig[k + 1]
      requires k + 1 == |orig| ==> |kept| + 1 == |nodes|
      ensures Walked(orig, vals, kept + [curr], k + 1, v) && curr.next == (if k + 1 < |orig| then orig[k + 1] else null)
      ensures RemoveTrace(id, name, Ids(nodes), contents, |kept|, v) ==
              RemoveTrace(id, name, Ids(nodes), contents, |kept| + 1, v)
    {
      ghost var p := |kept|;
      assert p < |nodes| - 1 ==> LinkedAt(nodes, p);
      assert Stores(nodes, contents, algo, p);
      RemoveTraceSkip(id, name, Ids(nodes), contents, p, v);
    }

    /**
     * The branch of `remove` for a match at position `p`: the count drops
     * and the list is emptied when it reaches 0 (the corrected guard, see
     * `RemoveAsWritten`); otherwise the node is unlinked by the case that
     * fits its neighbours. Its own `next` pointer is kept for the walk.
     */
    method UnlinkMatch(curr: Node, ghost p: nat) returns (emptied: bool)
      requires Valid() && p < |nodes| && curr == nodes[p]
      modifies this, nodes, algo`states
      ensures emptied == (|old(nodes)| == 1) && Valid() && curr.next == old(curr.next)
      ensures nodes == old(nodes)[..p] + old(nodes)[p + 1..]
      ensures contents == old(contents)[..p] + old(contents)[p + 1..]
      ensures algo.states == old(algo.states) + UnlinkTrace(id, name, Ids(old(nodes)), old(contents), p)
    {
      ghost var ns, vs := nodes, contents;
      HoldsRemove(ns, vs, algo, p);
      assert p > 0 ==> Stores(ns, vs, algo, p - 1);
      assert p < |ns| - 1 ==> Stores(ns, vs, algo, p + 1);
      size := size - 1;
      nodes := ns[..p] + ns[p + 1..];
      contents := vs[..p] + vs[p + 1..];
      if size == 0 {
        ChainNames(ns, head, tail, 0);
        SetHead(null);
        SetTail(null);
        assert nodes == [] && Chain(nodes, head, tail);
        return true;
      }
      assert Holds(nodes, contents, algo);
      Relink(curr, ns, vs, p);
      assert Chain(nodes, head, tail) && Holds(nodes, contents, algo);
      return false;
    }

    /** The neighbours of the matching node `curr`, at position `p` of two or more, joined. */
    method Relink(curr: Node, ghost ns: seq<Node>, ghost vs: seq<Val>, ghost p: nat)
      requires Chain(ns, head, tail) && |ns| > 1 && |vs| == |ns| && p < |ns| && curr == ns[p]
      requires p > 0 ==> ns[p - 1].algo == algo && ns[p - 1].value == vs[p - 1]
      requires p < |ns| - 1 ==> ns[p + 1].algo == algo && ns[p + 1].value == vs[p + 1]
      modifies this`head, this`tail, ns`next, ns`prev, algo`states
      ensures Chain(ns[..p] + ns[p + 1..], head, tail) && curr.next == old(curr.next)
      ensures algo.states == old(algo.states) + UnlinkTrace(id, name, Ids(ns), vs, p)
    {
      assert p > 0 ==> LinkedAt(ns, p - 1) && Differ(ns, p - 1, p);
      assert p < |ns| - 1 ==> LinkedAt(ns, p);
      if curr.prev != null && curr.next != null {
        UnlinkMiddle(curr, ns[p - 1], ns[p + 1], ns, vs, p);
      } else if curr.prev == null {
        assert ns[..p] + ns[p + 1..] == ns[1..];
        UnlinkFirst(curr, ns[1], ns, vs);
      } else {
        assert ns[..p] + ns[p + 1..] == ns[..p];
        UnlinkLast(curr, ns[p - 1], ns, vs);
      }
    }

    /** A matching node with neighbours on both sides: they are joined. */
    method UnlinkMiddle(curr: Node, ghost before: Node, ghost after: Node, ghost ns: seq<Node>, ghost vs: seq<Val>, ghost p: nat)
      requires Chain(ns, head, tail) && 0 < p < |ns| - 1 && |vs| == |ns| && curr == ns[p]
      requires before == ns[p - 1] && after == ns[p + 1] && before.algo == algo && after.algo == algo
      requires before.value == vs[p - 1] && after.value == vs[p + 1]
      modifies before`next, after`prev, algo`states
      ensures Chain(ns[..p] + ns[p + 1..], head, tail)
      ensures algo.states == old(algo.states) + UnlinkTrace(id, name, Ids(ns), vs, p)
    {
      assert LinkedAt(ns, p - 1) && LinkedAt(ns, p) && Differ(ns, p - 1, p + 1);
      ghost var t := UnlinkTrace(id, name, Ids(ns), vs, p);
      NamesAround(id, name, ns, head, tail, vs, p);
      assert t == [NodeNextState(before.id, before.value, NodeName(after), NodeName(before.prev), NodeName(curr)),
                   NodePrevState(after.id, after.value, NodeName(after.next), NodeName(before), NodeName(curr))];
      Join(curr, before, after);
      forall i | 0 <= i < |ns| - 1 && i != p - 1 && i != p
        ensures LinkedAt(ns, i)
      {
        assert Differ(ns, i, p - 1) && Differ(ns, i + 1, p + 1);
        assert old(LinkedAt(ns, i));
      }
      ChainWithout(ns, p, head, tail);
    }

    /**
     * `curr.prev.next = curr.next` and then `curr.next.prev = curr.prev`,
     * for a node between two others.
     */
    method Join(curr: Node, ghost before: Node, ghost after: Node)
      requires curr.prev == before && curr.next == after && before.next == curr && after.prev == curr
      requires before != after && before.algo == algo && after.algo == algo
      modifies before`next, after`prev, algo`states
      ensures before.next == after && after.prev == before
      ensures algo.states == old(algo.states) +
                [NodeNextState(before.id, before.value, NodeName(after), NodeName(before.prev), NodeName(curr)),
                 NodePrevState(after.id, after.value, NodeName(after.next), NodeName(before), NodeName(curr))]
    {
      ghost var s0 := algo.states;
      ghost var r1 := NodeNextState(before.id, before.value, NodeName(after), NodeName(before.prev), NodeName(curr));
      ghost var r2 := NodePrevState(after.id, after.value, NodeName(after.next), NodeName(before), NodeName(curr));
      curr.prev.SetNext(curr.next);
      curr.next.SetPrev(curr.prev);
      Snoc2(s0, r1, r2);
    }

    /** A matching head with nodes after it: the next node becomes the head. */
    method UnlinkFirst(curr: Node, ghost after: Node, ghost ns: seq<Node>, ghost vs: seq<Val>)
      requires Chain(ns, head, tail) && |ns| > 1 && |vs| == |ns| && curr == ns[0] && after == ns[1]
      requires after.algo == algo && after.value == vs[1]
      modifies this`head, after`prev, algo`states
      ensures Chain(ns[1..], head, tail)
      ensures algo.states == old(algo.states) + UnlinkTrace(id, name, Ids(ns), vs, 0)
    {
      assert LinkedAt(ns, 0);
      ChainNames(ns, head, tail, 1);
      ChainNames(ns, head, tail, |ns| - 1);
      ghost var s0, ids := algo.states, Ids(ns);
      assert UnlinkTrace(id, name, ids, vs, 0) ==
             PopFrontTrace(id, name, SnapOf(head).value, SnapOf(head.next), NodeName(tail));
      DropHead(after, ns);
      curr.next.SetPrev(curr.prev);
    }

    /** A matching tail with nodes before it: the node before becomes the tail. */
    method UnlinkLast(curr: Node, ghost before: Node, ghost ns: seq<Node>, ghost vs: seq<Val>)
      requires Chain(ns, head, tail) && |ns| > 1 && |vs| == |ns| && curr == ns[|ns| - 1] && before == ns[|ns| - 2]
      requires before.algo == algo && before.value == vs[|ns| - 2]
      modifies this`tail, before`next, algo`states
      ensures Chain(ns[..|ns| - 1], head, tail)
      ensures algo.states == old(algo.states) + UnlinkTrace(id, name, Ids(ns), vs, |ns| - 1)
    {
      ghost var last := |ns| - 1;
      assert LinkedAt(ns, last - 1);
      ChainNames(ns, head, tail, last - 1);
      ChainNames(ns, head, tail, 0);
      ghost var s0, ids := algo.states, Ids(ns);
      ghost var r1 := NodeNextState(ids[last - 1], vs[last - 1], "none", IdName(ids, last - 2), IdName(ids, last));
      ghost var r2 := DllTailState(id, name, IdName(ids, 0), IdName(ids, last - 1), IdName(ids, last));
      assert UnlinkTrace(id, name, ids, vs, last) == [r1, r2];
      var b := curr.prev;
      assert b == before && curr.next == null;
      b.SetNext(curr.next);
      assert algo.states == s0 + [r1];
      SetTail(b);
      assert algo.states == s0 + [r1] + [r2];
      tail.SetNext(null);
      Snoc2(s0, r1, r2);
      forall i | 0 <= i < |ns| - 1 && i != last - 1
        ensures LinkedAt(ns, i)
      {
        assert Differ(ns, i, last - 1);
        assert old(LinkedAt(ns, i));
      }
      ChainWithout(ns, last, head, tail);
      WithoutEnds(ns);
      assert ns[..last] + ns[last + 1..] == ns[..|ns| - 1];
    }

    /** `front()`: the first value; an empty list raises. */
    method Front() returns (r: Result<Val>)
      requires Valid()
      ensures contents == [] ==> r == Err(EmptyList)
      ensures contents != [] ==> r == Ok(contents[0])
    {
      if head == null {
        return Err(EmptyList);
      }
      assert Stores(nodes, contents, algo, 0);
      return Ok(head.value);
    }

    /** `back()`: the last value; an empty list raises. */
    method Back() returns (r: Result<Val>)
      requires Valid()
      ensures contents == [] ==> r == Err(EmptyList)
      ensures contents != [] ==> r == Ok(contents[|contents| - 1])
    {
      if head == null {
        return Err(EmptyList);
      }
      assert Stores(nodes, contents, algo, |nodes| - 1);
      return Ok(tail.value);
    }

    /** `tolist()`: walks from the head collecting values. */
    method ToList() returns (data: seq<Val>)
      requires Valid()
      ensures data == contents
    {
      var curr := head;
      data := [];
      ghost var k := 0;
      while curr != null
        invariant 0 <= k <= |nodes|
        invariant curr == (if k < |nodes| then nodes[k] else null)
        invariant data == contents[..k]
        decreases |nodes| - k
      {
        assert k < |nodes| - 1 ==> LinkedAt(nodes, k);
        assert Stores(nodes, contents, algo, k);
        assert contents[..k + 1] == contents[..k] + [contents[k]];
        data := data + [curr.value];
        curr := curr.next;
        k := k + 1;
      }
      assert contents[..|nodes|] == contents;
    }
  }

  /**
   * `List(name, algo, comments)` with the checks it inherits from
   * DoublyLinkedList, in order: a str name, then a StateSet. The comments are
   * not passed on, so the declaration is recorded with empty comments.
   */
  method NewList(name: Val, algo: StateSet?, comments: string) returns (r: Result<List>)
    modifies algo
    ensures algo != null ==> algo.autoplay == old(algo.autoplay)
    ensures !name.VStr? ==> r == Err(AssertionError("Name should be of type string"))
    ensures name.VStr? && algo == null ==> r == Err(ARgorithmError(["algo should be of type StateSet"]))
    ensures name.VStr? && algo != null ==> r.Ok?
    ensures r.Err? && algo != null ==> algo.states == old(algo.states)
    ensures r.Ok? ==>
              name.VStr? && algo != null && fresh(r.value) && r.value.Valid() &&
              r.value.contents == [] && r.value.name == name.s && r.value.algo == algo &&
              algo.states == old(algo.states) + [DllDeclareState(r.value.id, name.s, "none", "none", "")]
  {
    if !name.VStr? {
      return Err(AssertionError("Name should be of type string"));
    }
    if algo == null {
      return Err(ARgorithmError(["algo should be of type StateSet"]));
    }
    var l := new List(name.s, algo, comments);
    return Ok(l);
  }
}
