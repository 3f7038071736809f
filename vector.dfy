/**
 * The Vector container: a Python list with indexed reads and writes,
 * insertion, removal, comparison and swapping, each recorded in the shared
 * StateSet.
 */
module Vectors {
  import opened Values
  import opened Text
  import opened Utils

  function VectorDef(id: nat, name: string, body: seq<Val>, extra: seq<(Val, Val)>): Val
  {
    VDict([Field("id", VStr(NatText(id))), Field("variable_name", VStr(name)),
           Field("body", VList(body))] + extra)
  }

  function VectorDeclareState(id: nat, name: string, body: seq<Val>, comments: string): State
  {
    MakeState("vector_declare", VectorDef(id, name, body, []), comments)
  }

  /** A read of `index`. */
  function VectorIterState(id: nat, name: string, body: seq<Val>, index: int, comments: string): State
  {
    MakeState("vector_iter", VectorDef(id, name, body, [Field("index", VInt(index))]), comments)
  }

  /**
   * A write of `value` over `last` at `index`; the two values are only
   * recorded when `last` is not None.
   */
  function VectorWriteState(id: nat, name: string, body: seq<Val>, index: int, value: Val, last: Val)
    : State
  {
    var extra := if last == VNone then [] else [Field("value", value), Field("last_value", last)];
    MakeState("vector_iter", VectorDef(id, name, body, [Field("index", VInt(index))] + extra),
              WriteComment(value, index))
  }

  function WriteComment(value: Val, index: int): string
  {
    "Writing " + Str(value) + " at index " + IntText(index)
  }

  function VectorRemoveState(id: nat, name: string, body: seq<Val>, index: int, comments: string)
    : State
  {
    MakeState("vector_remove", VectorDef(id, name, body, [Field("index", VInt(index))]), comments)
  }

  function VectorInsertState(id: nat, name: string, body: seq<Val>, element: Val, index: int,
                             comments: string): State
  {
    MakeState("vector_insert",
              VectorDef(id, name, body, [Field("element", element), Field("index", VInt(index))]),
              comments)
  }

  function VectorSwapState(id: nat, name: string, body: seq<Val>, i: int, j: int, comments: string)
    : State
  {
    MakeState("vector_swap",
              VectorDef(id, name, body, [Field("index1", VInt(i)), Field("index2", VInt(j))]),
              comments)
  }

  function VectorCompareState(id: nat, name: string, body: seq<Val>, i: int, j: int,
                              comments: string): State
  {
    MakeState("vector_compare",
              VectorDef(id, name, body, [Field("index1", VInt(i)), Field("index2", VInt(j))]),
              comments)
  }

  const OutOfRange := IndexError("list index out of range")
  const BothGiven :=
    ARgorithmError(["Either give only a valid index or only value to be deleted , dont give both"])

  /** `list.index(v)`'s error for a value that is not there. */
  function NotInList(v: Val): Error
  {
    ValueError(Repr(v) + " is not in list")
  }

  /** `new` is `old` with exactly the element at `index` taken out. */
  ghost predicate RemovedAt(old_: seq<Val>, new_: seq<Val>, index: int)
  {
    0 <= index < |old_| && new_ == old_[..index] + old_[index + 1..]
  }

  /** `list.index(v)`: the position of the first occurrence of `v`. */
  function FirstIndex(s: seq<Val>, v: Val): (r: Option<nat>)
    ensures r.None? <==> v !in s
    ensures r.Some? ==> r.value < |s| && s[r.value] == v &&
                        forall j :: 0 <= j < r.value ==> s[j] != v
  {
    if s == [] then None
    else if s[0] == v then Some(0)
    else match FirstIndex(s[1..], v)
      case None => None
      case Some(k) => Some(k + 1)
  }

  /** The list a Vector is built over: None gives an empty list. */
  function VectorData(data: Val): (r: Result<seq<Val>>)
    ensures r.Ok? <==> data.VNone? || data.VList?
    ensures data.VNone? ==> r == Ok([])
    ensures data.VList? ==> r == Ok(data.items)
  {
    if data.VNone? then Ok([])
    else if data.VList? then Ok(data.items)
    else Err(TypeError("vector body should be list"))
  }

  /**
   * The data check as written: `isinstance(data, list) or data` lets every
   * truthy non-list through as well.
   */
  predicate VectorDataAcceptedAsWritten(data: Val)
  {
    data.VNone? || data.VList? || Truthy(data)
  }

  /** A non-empty string (or any other truthy non-list) passes the check as written. */
  lemma VectorDataCheckTooWeak()
    ensures VectorDataAcceptedAsWritten(VStr("abc")) && VectorData(VStr("abc")).Err?
    ensures VectorDataAcceptedAsWritten(VInt(7)) && VectorData(VInt(7)).Err?
  {
  }

  /** The record index `remove()` writes as written: one less than the new length. */
  function PopIndexAsWritten(body: seq<Val>): int
    requires body != []
  {
    |body[..|body| - 1]| - 1
  }

  /**
   * After `[1, 2].remove()` the record names index 0 though position 1 was
   * removed; in general the record as written is one below the position the
   * pop takes out, which is what the corrected record names.
   */
  lemma PopIndexOffByOne()
    ensures var b := [VInt(1), VInt(2)];
            PopIndexAsWritten(b) == 0 && !RemovedAt(b, b[..1], PopIndexAsWritten(b)) &&
            RemovedAt(b, b[..1], 1)
    ensures forall b: seq<Val> | b != [] :: PopIndexAsWritten(b) == |b| - 2
  {
    var b := [VInt(1), VInt(2)];
    assert b[..0] + b[1..] == [VInt(2)];
    assert b[..1][0] == VInt(1);
  }

  class Vector {
    const name: string
    const id: nat
    const algo: StateSet
    var body: seq<Val>

    /** A new vector over `data` with a fresh identity; its declaration is recorded. */
    constructor (name: string, algo: StateSet, data: seq<Val>, comments: string)
      modifies algo`states, algo`nextId
      ensures this.name == name && this.algo == algo && body == data
      ensures id == old(algo.nextId) && algo.nextId == id + 1
      ensures algo.states == old(algo.states) + [VectorDeclareState(id, name, data, comments)]
    {
      var fid := algo.FreshId();
      this.name := name;
      this.id := fid;
      this.algo := algo;
      body := data;
      new;
      algo.AddState(VectorDeclareState(fid, name, data, comments));
    }

    function Len(): nat
      reads this`body
    {
      |body|
    }

    /**
     * `vec[k]` for an int `k`: the read is recorded first, then `body[k]` is
     * returned, or IndexError raised when `k` is out of range either way.
     */
    method Get(k: int, comments: string) returns (r: Result<Val>)
      modifies algo`states
      ensures algo.states == old(algo.states) + [VectorIterState(id, name, body, k, comments)]
      ensures -(|body| as int) <= k < 0 ==> r == Ok(body[|body| + k])
      ensures 0 <= k < |body| ==> r == Ok(body[k])
      ensures !(-(|body| as int) <= k < |body|) ==> r == Err(OutOfRange)
    {
      algo.AddState(VectorIterState(id, name, body, k, comments));
      match PyIndex(k, |body|)
      case None => return Err(OutOfRange);
      case Some(j) => return Ok(body[j]);
    }

    /**
     * `vec[lo:hi]`: a new Vector named `<name>_sub` over the slice; only its
     * declaration is recorded and this vector is unchanged.
     */
    method Slice(lo: Option<int>, hi: Option<int>, comments: string) returns (r: Vector)
      modifies algo`states, algo`nextId
      ensures fresh(r) && r.name == name + "_sub" && r.algo == algo
      ensures r.body == PySlice(body, lo, hi)
      ensures algo.states == old(algo.states) + [VectorDeclareState(r.id, r.name, r.body, comments)]
    {
      r := new Vector(name + "_sub", algo, PySlice(body, lo, hi), comments);
    }

    /**
     * `vec[k] = value`: the old value is read first (IndexError, nothing
     * changed), then written over and the write recorded.
     */
    method Set(k: int, value: Val) returns (r: Outcome)
      modifies this`body, algo`states
      ensures !(-(|old(body)| as int) <= k < |old(body)|) ==>
                r == Raised(OutOfRange) && body == old(body) && algo.states == old(algo.states)
      ensures -(|old(body)| as int) <= k < |old(body)| ==>
                var j := if k < 0 then k + |old(body)| else k;
                r == Done && body == old(body)[j := value] &&
                algo.states == old(algo.states) +
                               [VectorWriteState(id, name, body, k, value, old(body)[j])]
    {
      match PyIndex(k, |body|)
      case None => return Raised(OutOfRange);
      case Some(j) =>
        var last := body[j];
        body := body[j := value];
        algo.AddState(VectorWriteState(id, name, body, k, value, last));
        return Done;
    }

    /**
     * `insert(value, index)`: at the end when no index is given, before
     * position `index` (clamped to the length) when it is not negative; a
     * negative index changes and records nothing.
     */
    method Insert(value: Val, index: Option<int>, comments: string)
      modifies this`body, algo`states
      ensures index.None? ==>
                body == old(body) + [value] &&
                algo.states == old(algo.states) +
                               [VectorInsertState(id, name, body, value, |body| - 1, comments)]
      ensures index.Some? && index.value >= 0 ==>
                var j := if index.value <= |old(body)| then index.value else |old(body)|;
                body == old(body)[..j] + [value] + old(body)[j..] &&
                algo.states == old(algo.states) +
                               [VectorInsertState(id, name, body, value, index.value, comments)]
      ensures index.Some? && index.value < 0 ==>
                body == old(body) && algo.states == old(algo.states)
    {
      if index.None? {
        body := body + [value];
        algo.AddState(VectorInsertState(id, name, body, value, |body| - 1, comments));
      } else if index.value >= 0 {
        body := PySlice(body, None, index) + [value] + PySlice(body, index, None);
        algo.AddState(VectorInsertState(id, name, body, value, index.value, comments));
      }
    }

    /**
     * `remove(value, index)`, with VNone standing for a value not given:
     * - neither given: the last element goes (IndexError on an empty vector);
     * - only an index in `0 <= index < len`: that position goes;
     * - only a value: its first occurrence goes (ValueError when absent);
     * - anything else raises ARgorithmError.
     * The record names the removed position; nothing is recorded on error.
     */
    method Remove(value: Val, index: Option<int>, comments: string) returns (r: Outcome)
      modifies this`body, algo`states
      ensures r.Raised? ==> body == old(body) && algo.states == old(algo.states)
      ensures index.None? && value.VNone? ==>
                (old(body) == [] ==> r == Raised(IndexError("pop from empty list"))) &&
                (old(body) != [] ==>
                   r == Done && RemovedAt(old(body), body, |old(body)| - 1) &&
                   algo.states == old(algo.states) +
                                  [VectorRemoveState(id, name, body, |old(body)| - 1, comments)])
      ensures index.Some? && value.VNone? ==>
                (0 <= index.value < |old(body)| <==> r == Done) &&
                (r == Done ==>
                   RemovedAt(old(body), body, index.value) &&
                   algo.states == old(algo.states) +
                                  [VectorRemoveState(id, name, body, index.value, comments)]) &&
                (r != Done ==> r == Raised(BothGiven))
      ensures index.None? && !value.VNone? ==>
                (value in old(body) <==> r == Done) &&
                (r == Done ==>
                   var k := FirstIndex(old(body), value).value;
                   RemovedAt(old(body), body, k) && old(body)[k] == value &&
                   (forall j :: 0 <= j < k ==> old(body)[j] != value) &&
                   algo.states == old(algo.states) + [VectorRemoveState(id, name, body, k, comments)]) &&
                (r != Done ==> r == Raised(NotInList(value)))
      ensures index.Some? && !value.VNone? ==> r == Raised(BothGiven)
    {
      if index.None? && value.VNone? {
        if body == [] {
          return Raised(IndexError("pop from empty list"));
        }
        var k := |body| - 1;
        body := body[..k];
        assert RemovedAt(old(body), body, k);
        algo.AddState(VectorRemoveState(id, name, body, k, comments));
        return Done;
      } else if value.VNone? && 0 <= index.value < |body| {
        var k := index.value;
        body := body[0..k] + body[k + 1..];
        assert RemovedAt(old(body), body, k);
        algo.AddState(VectorRemoveState(id, name, body, k, comments));
        return Done;
      } else if index.None? {
        match FirstIndex(body, value)
        case None =>
          return Raised(NotInList(value));
        case Some(k) =>
          body := body[..k] + body[k + 1..];
          assert RemovedAt(old(body), body, k);
          algo.AddState(VectorRemoveState(id, name, body, k, comments));
          return Done;
      } else {
        return Raised(BothGiven);
      }
    }

    /**
     * `compare(i, j, func)`: both elements are read (IndexError, nothing
     * recorded), the comparison is recorded, then `func` (by default the
     * difference) is applied.
     */
    method Compare(i: int, j: int, func: Option<(Val, Val) -> Result<Val>>, comments: string)
      returns (r: Result<Val>)
      modifies algo`states
      ensures !(-(|body| as int) <= i < |body| && -(|body| as int) <= j < |body|) ==>
                r == Err(OutOfRange) && algo.states == old(algo.states)
      ensures -(|body| as int) <= i < |body| && -(|body| as int) <= j < |body| ==>
                var x := body[if i < 0 then i + |body| else i];
                var y := body[if j < 0 then j + |body| else j];
                r == (if func.Some? then func.value(x, y) else Subtract(x, y)) &&
                algo.states == old(algo.states) + [VectorCompareState(id, name, body, i, j, comments)]
    {
      var a := PyIndex(i, |body|);
      var b := PyIndex(j, |body|);
      if a.None? || b.None? {
        return Err(OutOfRange);
      }
      var x, y := body[a.value], body[b.value];
      algo.AddState(VectorCompareState(id, name, body, i, j, comments));
      if func.Some? {
        r := func.value(x, y);
      } else {
        r := Subtract(x, y);
      }
    }

    /**
     * `swap(i, j)`: the two positions trade values and nothing else changes;
     * an index out of range raises IndexError before anything changes.
     */
    method Swap(i: int, j: int, comments: string) returns (r: Outcome)
      modifies this`body, algo`states
      ensures !(-(|old(body)| as int) <= i < |old(body)| && -(|old(body)| as int) <= j < |old(body)|) ==>
                r == Raised(OutOfRange) && body == old(body) && algo.states == old(algo.states)
      ensures -(|old(body)| as int) <= i < |old(body)| && -(|old(body)| as int) <= j < |old(body)| ==>
                var a := if i < 0 then i + |old(body)| else i;
                var b := if j < 0 then j + |old(body)| else j;
                r == Done && |body| == |old(body)| &&
                body[a] == old(body)[b] && body[b] == old(body)[a] &&
                (forall k :: 0 <= k < |body| && k != a && k != b ==> body[k] == old(body)[k]) &&
                multiset(body) == multiset(old(body)) &&
                algo.states == old(algo.states) + [VectorSwapState(id, name, body, i, j, comments)]
    {
      var a := PyIndex(i, |body|);
      var b := PyIndex(j, |body|);
      if a.None? || b.None? {
        return Raised(OutOfRange);
      }
      var temp := body[a.value];
      body := body[a.value := body[b.value]];
      body := body[b.value := temp];
      SwapPreservesMultiset(old(body), a.value, b.value);
      algo.AddState(VectorSwapState(id, name, body, i, j, comments));
      return Done;
    }
  }

  /**
   * `Vector(name, algo, data, comments)` with its argument checks, in order:
   * a str name, a StateSet, and data that is None or a list.
   */
  method NewVector(name: Val, algo: StateSet?, data: Val, comments: string)
    returns (r: Result<Vector>)
    modifies algo
    ensures algo != null ==> algo.autoplay == old(algo.autoplay)
    ensures !name.VStr? ==> r == Err(ARgorithmError(["Give valid name to data structure"]))
    ensures name.VStr? && algo == null ==>
              r == Err(ARgorithmError(["vector structure needs a reference of template to store states"]))
    ensures name.VStr? && algo != null && VectorData(data).Err? ==>
              r == Err(VectorData(data).error)
    ensures name.VStr? && algo != null && VectorData(data).Ok? ==> r.Ok?
    ensures r.Err? && algo != null ==> algo.states == old(algo.states)
    ensures r.Ok? ==>
              name.VStr? && algo != null && VectorData(data).Ok? && fresh(r.value) &&
              r.value.name == name.s && r.value.algo == algo &&
              r.value.body == VectorData(data).value &&
              algo.states ==
                old(algo.states) + [VectorDeclareState(r.value.id, name.s, r.value.body, comments)]
  {
    if !name.VStr? {
      return Err(ARgorithmError(["Give valid name to data structure"]));
    }
    if algo == null {
      return Err(ARgorithmError(["vector structure needs a reference of template to store states"]));
    }
    match VectorData(data)
    case Err(e) => return Err(e);
    case Ok(items) =>
      var v := new Vector(name.s, algo, items, comments);
      return Ok(v);
  }

  /** Removing at the position just inserted at gives back the old body. */
  method RemoveUndoesInsert(v: Vector, x: Val, i: nat) returns (r: Outcome)
    requires i <= |v.body|
    modifies v`body, v.algo`states
    ensures r == Done && v.body == old(v.body)
  {
    v.Insert(x, Some(i), "");
    assert v.body[..i] + v.body[i + 1..] == old(v.body);
    r := v.Remove(VNone, Some(i), "");
  }

  /** A read after a write at the same index sees the written value. */
  method ReadBackWrite(v: Vector, k: nat, x: Val) returns (r: Result<Val>)
    requires k < |v.body|
    modifies v`body, v.algo`states
    ensures r == Ok(x)
  {
    var _ := v.Set(k, x);
    r := v.Get(k, "");
  }

  /** Swapping the same pair twice gives back the old body. */
  method SwapTwice(v: Vector, i: nat, j: nat)
    requires i < |v.body| && j < |v.body|
    modifies v`body, v.algo`states
    ensures v.body == old(v.body)
  {
    var _ := v.Swap(i, j, "");
    var _ := v.Swap(i, j, "");
  }
}
