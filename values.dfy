/**
 * The Python values the toolkit stores in its containers and writes into
 * its state records, the toolkit classes that can appear among them, and
 * the exceptions its operations raise.
 */
module Values {

  datatype Option<T> = None | Some(value: T)

  /** The outcome of an operation that may raise. */
  datatype Result<T> = Ok(value: T) | Err(error: Error)

  /** The outcome of an operation that returns nothing but may raise. */
  datatype Outcome = Done | Raised(error: Error)

  /** The exceptions raised by the toolkit, or by Python underneath it. */
  datatype Error =
    | ARgorithmError(args: seq<string>)
    | ClientError(message: string)
    | TypeError(message: string)
    | AssertionError(message: string)
    | IndexError(message: string)
    | KeyError(key: Val)
    | ValueError(message: string)
    | AttributeError(message: string)
    | OverflowError(message: string)

  /** The toolkit classes whose objects can be held inside other values. */
  datatype Cls =
    | StackClass | QueueClass | PriorityQueueClass | VectorClass | ArrayClass
    | StringClass | MapClass | SetClass | NodeClass | DllClass | ListClass
    | StateSetClass

  /** A live toolkit object: its class and its identity (`id(self)`). */
  datatype Obj = Obj(cls: Cls, id: nat)

  /**
   * A Python value. Dicts keep their insertion order as a sequence of
   * key/value pairs; a float is kept as an exact real.
   */
  datatype Val =
    | VNone
    | VBool(b: bool)
    | VInt(i: int)
    | VFloat(r: real)
    | VStr(s: string)
    | VRef(obj: Obj)
    | VList(items: seq<Val>)
    | VTuple(items: seq<Val>)
    | VSet(elems: set<Val>)
    | VDict(entries: seq<(Val, Val)>)

  /** `type(self).__name__` of each toolkit class. */
  function ClassName(c: Cls): string
  {
    match c
    case StackClass => "Stack"
    case QueueClass => "Queue"
    case PriorityQueueClass => "PriorityQueue"
    case VectorClass => "Vector"
    case ArrayClass => "Array"
    case StringClass => "String"
    case MapClass => "Map"
    case SetClass => "Set"
    case NodeClass => "DoublyLinkedListNode"
    case DllClass => "DoublyLinkedList"
    case ListClass => "List"
    case StateSetClass => "StateSet"
  }

  /** Classes decorated with `serialize`, which therefore have `to_json`. */
  predicate Serializable(c: Cls)
  {
    c in {PriorityQueueClass, VectorClass, ArrayClass, MapClass, SetClass,
          NodeClass, DllClass, ListClass}
  }

  /** Subclasses of `ARgorithmStructure`. */
  predicate IsStructure(c: Cls)
  {
    c in {PriorityQueueClass, VectorClass, ArrayClass, MapClass, SetClass,
          NodeClass, DllClass, ListClass}
  }

  /** Subclasses of `ARgorithmHashable`. */
  predicate IsHashable(c: Cls)
  {
    c in {NodeClass, DllClass, ListClass}
  }

  /** Values that pass `isinstance(x, (int, str, float, bool))`. */
  predicate IsPrimitive(v: Val)
  {
    v.VInt? || v.VStr? || v.VFloat? || v.VBool?
  }

  /** Python truthiness; a toolkit object counts as true. */
  predicate Truthy(v: Val)
  {
    match v
    case VNone => false
    case VBool(b) => b
    case VInt(i) => i != 0
    case VFloat(r) => r != 0.0
    case VStr(s) => s != ""
    case VRef(_) => true
    case VList(items) => items != []
    case VTuple(items) => items != []
    case VSet(elems) => elems != {}
    case VDict(entries) => entries != []
  }

  /** Values Python can hash: everything but lists, sets and dicts. */
  predicate Hashable(v: Val)
  {
    match v
    case VList(_) => false
    case VSet(_) => false
    case VDict(_) => false
    case VTuple(items) => forall i :: 0 <= i < |items| ==> Hashable(items[i])
    case _ => true
  }

  /** `type(v).__name__`. */
  function TypeName(v: Val): string
  {
    match v
    case VNone => "NoneType"
    case VBool(_) => "bool"
    case VInt(_) => "int"
    case VFloat(_) => "float"
    case VStr(_) => "str"
    case VRef(o) => ClassName(o.cls)
    case VList(_) => "list"
    case VTuple(_) => "tuple"
    case VSet(_) => "set"
    case VDict(_) => "dict"
  }

  /** A list of ints as Python values. */
  function Ints(s: seq<int>): (r: seq<Val>)
    ensures |r| == |s| && forall i :: 0 <= i < |s| ==> r[i] == VInt(s[i])
  {
    seq(|s|, i requires 0 <= i < |s| => VInt(s[i]))
  }

  /** Three elements appended one at a time are the three appended together. */
  lemma Snoc3<T>(s: seq<T>, a: T, b: T, c: T)
    ensures s + [a] + [b] + [c] == s + [a, b, c]
  {
  }

  /** Concatenation regroups freely; a helper for extending logs. */
  lemma AppendAssoc<T>(a: seq<T>, b: seq<T>, c: seq<T>)
    ensures (a + b) + c == a + (b + c)
  {
  }

  /** Exchanging two positions keeps the elements. */
  lemma SwapPreservesMultiset<T>(s: seq<T>, i: nat, j: nat)
    requires i < |s| && j < |s|
    ensures multiset(s[i := s[j]][j := s[i]]) == multiset(s)
  {
    if i != j {
      var t := s[i := s[j]];
      assert multiset(t) == multiset(s) - multiset{s[i]} + multiset{s[j]};
      assert multiset(t[j := s[i]]) == multiset(t) - multiset{t[j]} + multiset{s[i]};
    }
  }

  /** A `str` field of a record's `state_def`. */
  function Field(key: string, value: Val): (Val, Val)
  {
    (VStr(key), value)
  }

  /** Python's normalisation of a possibly negative index into `0 <= k < n`. */
  function PyIndex(k: int, n: nat): (r: Option<nat>)
    ensures r.Some? <==> -(n as int) <= k < n
    ensures r.Some? ==> r.value < n && (r.value == k || r.value == k + n)
  {
    if 0 <= k < n then Some(k)
    else if -(n as int) <= k < 0 then Some(k + n)
    else None
  }

  /** One bound of a slice `[lo:hi]`, clamped into `0..n` as Python does. */
  function SliceBound(b: Option<int>, dflt: nat, n: nat): (r: nat)
    ensures r <= n
  {
    if b.None? then (if dflt <= n then dflt else n)
    else if b.value < 0 then (if b.value + n < 0 then 0 else b.value + n)
    else if b.value > n then n
    else b.value
  }

  /** `s[lo:hi]` with step 1. */
  function PySlice<T>(s: seq<T>, lo: Option<int>, hi: Option<int>): (r: seq<T>)
    ensures |r| <= |s|
  {
    var a := SliceBound(lo, 0, |s|);
    var b := SliceBound(hi, |s|, |s|);
    if a <= b then s[a..b] else []
  }

  /**
   * Python's `a - b` on the values the containers hold: bools count as 0 and
   * 1, an int and a float give a float, and two sets give their difference;
   * any other operand raises TypeError.
   */
  function Subtract(a: Val, b: Val): (r: Result<Val>)
    ensures r.Ok? <==> ((a.VInt? || a.VBool? || a.VFloat?) && (b.VInt? || b.VBool? || b.VFloat?)) ||
                       (a.VSet? && b.VSet?)
    ensures a.VInt? && b.VInt? ==> r == Ok(VInt(a.i - b.i))
    ensures a.VSet? && b.VSet? ==> r.Ok? && r.value.VSet? &&
                                   forall x :: x in r.value.elems <==> x in a.elems && x !in b.elems
    ensures r.Err? ==> r.error == SubtractError(a, b)
  {
    if a.VSet? && b.VSet? then Ok(VSet(a.elems - b.elems))
    else if a.VFloat? && b.VFloat? then Ok(VFloat(a.r - b.r))
    else if a.VFloat? then
      if b.VInt? || b.VBool? then Ok(VFloat(a.r - IntOf(b) as real)) else Err(SubtractError(a, b))
    else if b.VFloat? then
      if a.VInt? || a.VBool? then Ok(VFloat(IntOf(a) as real - b.r)) else Err(SubtractError(a, b))
    else if (a.VInt? || a.VBool?) && (b.VInt? || b.VBool?) then Ok(VInt(IntOf(a) - IntOf(b)))
    else Err(SubtractError(a, b))
  }

  /** The integer an int or bool stands for. */
  function IntOf(v: Val): int
  {
    match v
    case VInt(i) => i
    case VBool(b) => if b then 1 else 0
    case _ => 0
  }

  function SubtractError(a: Val, b: Val): Error
  {
    TypeError("unsupported operand type(s) for -: '" + TypeName(a) + "' and '" + TypeName(b) + "'")
  }
}
