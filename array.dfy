/**
 * The Array container: a numpy array of ints with one or two dimensions,
 * read and written cell by cell in place. Reading a row or a slice makes a
 * new `<name>_sub` Array. The module also has the dimension check that
 * construction from nested lists goes through.
 */
module Arrays {
  import opened Values
  import opened Text
  import opened Utils

  predicate IsSequence(v: Val)
  {
    v.VList? || v.VTuple?
  }

  const FixedDimensions := ARgorithmError(["please pass array of fixed dimensions"])

  /**
   * `check_dimensions(data)` as written: 1 for anything but a list or tuple,
   * otherwise `len(data)` once every child's result equals the first
   * child's. Only the children's lengths are compared, not their shapes.
   */
  function CheckDimensions(v: Val): Result<nat>
    decreases v
  {
    if !IsSequence(v) then Ok(1)
    else if forall i :: 0 <= i < |v.items| ==>
                          CheckDimensions(v.items[i]).Ok? &&
                          CheckDimensions(v.items[i]) == CheckDimensions(v.items[0])
    then Ok(|v.items|)
    else Err(FixedDimensions)
  }

  /**
   * `v` is a rectangular nest of lists and tuples with the sizes `dims`,
   * outermost first; an empty list has the shape `[0]`, as in numpy.
   */
  predicate HasShape(v: Val, dims: seq<nat>)
    decreases v
  {
    if !IsSequence(v) then dims == []
    else dims != [] && dims[0] == |v.items| && (v.items == [] ==> dims == [0]) &&
         forall i :: 0 <= i < |v.items| ==> HasShape(v.items[i], dims[1..])
  }

  /**
   * The dimension check as intended: every child has the same shape, and
   * the result is the whole shape.
   */
  function Shape(v: Val): (r: Result<seq<nat>>)
    ensures r.Err? ==> r == Err(FixedDimensions)
    decreases v
  {
    if !IsSequence(v) then Ok([])
    else if v.items == [] then Ok([0])
    else match Shape(v.items[0])
      case Err(e) => Err(e)
      case Ok(d) =>
        if forall i :: 0 <= i < |v.items| ==> Shape(v.items[i]) == Ok(d) then Ok([|v.items|] + d)
        else Err(FixedDimensions)
  }

  lemma {:induction false} ShapeSound(v: Val)
    ensures Shape(v).Ok? ==> HasShape(v, Shape(v).value)
    decreases v
  {
    if IsSequence(v) && v.items != [] && Shape(v).Ok? {
      var d := Shape(v.items[0]).value;
      forall i | 0 <= i < |v.items| ensures HasShape(v.items[i], d) {
        ShapeSound(v.items[i]);
      }
      assert Shape(v).value[1..] == d;
    }
  }

  lemma {:induction false} ShapeComplete(v: Val, dims: seq<nat>)
    requires HasShape(v, dims)
    ensures Shape(v) == Ok(dims)
    decreases v
  {
    if IsSequence(v) && v.items != [] {
      forall i | 0 <= i < |v.items| ensures Shape(v.items[i]) == Ok(dims[1..]) {
        ShapeComplete(v.items[i], dims[1..]);
      }
      assert [|v.items|] + dims[1..] == dims;
    }
  }

  /** The intended check accepts exactly the rectangular data, and fixes its shape. */
  lemma ShapeExact(v: Val, dims: seq<nat>)
    ensures HasShape(v, dims) <==> Shape(v) == Ok(dims)
  {
    ShapeSound(v);
    if HasShape(v, dims) {
      ShapeComplete(v, dims);
    }
  }

  /** `[1, [2]]` passes the check as written although it is not rectangular. */
  lemma RaggedDataAccepted()
    ensures var v := VList([VInt(1), VList([VInt(2)])]);
            CheckDimensions(v) == Ok(2) && Shape(v) == Err(FixedDimensions) &&
            forall dims :: !HasShape(v, dims)
  {
    var v := VList([VInt(1), VList([VInt(2)])]);
    assert CheckDimensions(v.items[1]) == Ok(1) by {
      assert CheckDimensions(v.items[1].items[0]) == Ok(1);
    }
    var w := v.items[1];
    assert w == VList([VInt(2)]);
    assert Shape(w) == Ok([1]) by {
      assert |w.items| == 1 && w.items[0] == VInt(2);
      assert Shape(w.items[0]) == Ok([]);
      assert forall i :: 0 <= i < |w.items| ==> Shape(w.items[i]) == Ok([]);
      assert [|w.items|] + [] == [1];
    }
    forall dims ensures !HasShape(v, dims) {
      ShapeExact(v, dims);
    }
  }

  /** The bounds of numpy's `int64`, the dtype of an Array built from Python ints. */
  const Int64Min: int := -0x8000_0000_0000_0000
  const Int64Max: int := 0x7FFF_FFFF_FFFF_FFFF
  const Int64Span: int := 0x1_0000_0000_0000_0000

  predicate InInt64(x: int)
  {
    Int64Min <= x <= Int64Max
  }

  /**
   * The `int64` that numpy's arithmetic gives where the exact result is `x`:
   * two's-complement wrap-around, which keeps `x` modulo 2^64.
   */
  function Wrap64(x: int): (r: int)
    ensures InInt64(r)
    ensures (x - r) % Int64Span == 0
  {
    (x - Int64Min) % Int64Span + Int64Min
  }

  /** The wrapped value is the one representative of `x` modulo 2^64 in range. */
  lemma Wrap64Unique(x: int, r: int, k: int)
    requires InInt64(r) && x == r + Int64Span * k
    ensures Wrap64(x) == r
  {
    var q := (x - Int64Min) / Int64Span;
    assert x - Int64Min == Int64Span * q + (Wrap64(x) - Int64Min);
    assert Int64Span * (q - k) == r - Wrap64(x);
  }

  /** A value already in range is kept. */
  lemma Wrap64Fits(x: int)
    requires InInt64(x)
    ensures Wrap64(x) == x
  {
    Wrap64Unique(x, x, 0);
  }

  /** Adding wrapped values and wrapping again is wrapping the exact sum. */
  lemma Wrap64Add(a: int, b: int)
    ensures Wrap64(Wrap64(a) + Wrap64(b)) == Wrap64(a + b)
  {
    var qa, qb, q := (a - Int64Min) / Int64Span, (b - Int64Min) / Int64Span, (a + b - Int64Min) / Int64Span;
    assert Wrap64(a) == a - Int64Span * qa;
    assert Wrap64(b) == b - Int64Span * qb;
    assert Wrap64(a + b) == a + b - Int64Span * q;
    Wrap64Unique(Wrap64(a) + Wrap64(b), Wrap64(a + b), q - qa - qb);
  }

  /** numpy's refusal to store a Python int outside the `int64` range. */
  const TooLarge := OverflowError("Python int too large to convert to C long")

  /** Data the Array model covers: one or two dimensions of ints that fit in `int64`. */
  predicate IntGrid(v: Val)
  {
    Shape(v).Ok? && (|Shape(v).value| == 1 || |Shape(v).value| == 2) &&
    forall i :: 0 <= i < |v.items| ==>
      (if |Shape(v).value| == 1 then v.items[i].VInt? && InInt64(v.items[i].i)
       else IsSequence(v.items[i]) &&
            forall j :: 0 <= j < |v.items[i].items| ==>
              v.items[i].items[j].VInt? && InInt64(v.items[i].items[j].i))
  }

  /** The rows of an int grid (a one-dimensional grid is a single row). */
  function GridRows(v: Val): (rows: seq<seq<int>>)
    requires IntGrid(v)
    ensures |Shape(v).value| == 1 ==> |rows| == 1 && |rows[0]| == |v.items|
    ensures |Shape(v).value| == 2 ==>
              |rows| == |v.items| && forall i :: 0 <= i < |rows| ==> |rows[i]| == Shape(v).value[1]
  {
    ShapeSound(v);
    if |Shape(v).value| == 1 then [seq(|v.items|, j requires 0 <= j < |v.items| => v.items[j].i)]
    else
      assert forall i :: 0 <= i < |v.items| ==> HasShape(v.items[i], Shape(v).value[1..]);
      seq(|v.items|, i requires 0 <= i < |v.items| =>
        seq(|v.items[i].items|, j requires 0 <= j < |v.items[i].items| => v.items[i].items[j].i))
  }

  /** `body.tolist()`. */
  function BodyVal(rank: nat, rows: seq<seq<int>>): Val
  {
    if rank == 1 then VList(if rows == [] then [] else Ints(rows[0]))
    else VList(seq(|rows|, i requires 0 <= i < |rows| => VList(Ints(rows[i]))))
  }

  /** An index: an int, or a tuple of ints with one entry per axis. */
  datatype Key = KInt(i: int) | KTuple(ks: seq<int>)

  function KeyInts(k: Key): seq<int>
  {
    match k
    case KInt(i) => [i]
    case KTuple(ks) => ks
  }

  /** The key as the record shows it. */
  function IndexVal(k: Key): Val
  {
    match k
    case KInt(i) => VInt(i)
    case KTuple(ks) => VTuple(Ints(ks))
  }

  function OutOfBounds(k: int, axis: nat, size: nat): Error
  {
    IndexError("index " + IntText(k) + " is out of bounds for axis " + NatText(axis) +
               " with size " + NatText(size))
  }

  function TooManyIndices(rank: nat, given: nat): Error
  {
    IndexError("too many indices for array: array is " + NatText(rank) + "-dimensional, but " +
               NatText(given) + " were indexed")
  }

  /** The error `__getitem__` turns a numpy error into. */
  function InvalidIndex(e: Error): Error
  {
    ARgorithmError(["invalid index error : " + (if e.IndexError? then e.message else "")])
  }

  /**
   * numpy's reading of the indices `ks` against the sizes `dims` (from axis
   * `axis` on): each index normalised, or the first one out of bounds.
   */
  function Resolve(ks: seq<int>, dims: seq<nat>, axis: nat): (r: Result<seq<nat>>)
    requires |ks| <= |dims|
    ensures r.Ok? <==> forall a :: 0 <= a < |ks| ==> PyIndex(ks[a], dims[a]).Some?
    ensures r.Ok? ==> |r.value| == |ks| &&
                      forall a :: 0 <= a < |ks| ==> Some(r.value[a]) == PyIndex(ks[a], dims[a])
    ensures r.Err? ==> exists a :: 0 <= a < |ks| && PyIndex(ks[a], dims[a]).None? &&
                                   r.error == OutOfBounds(ks[a], axis + a, dims[a])
    decreases |ks|
  {
    if ks == [] then Ok([])
    else match PyIndex(ks[0], dims[0])
      case None => Err(OutOfBounds(ks[0], axis, dims[0]))
      case Some(p) =>
        match Resolve(ks[1..], dims[1..], axis + 1)
        case Err(e) => Err(e)
        case Ok(rest) =>
          assert forall a :: 1 <= a < |ks| ==> ks[a] == ks[1..][a - 1] && dims[a] == dims[1..][a - 1];
          Ok([p] + rest)
  }

  function ArrayDef(id: nat, name: string, body: Val, extra: seq<(Val, Val)>): Val
  {
    VDict([Field("id", VStr(NatText(id))), Field("variable_name", VStr(name)),
           Field("body", body)] + extra)
  }

  function ArrayDeclareState(id: nat, name: string, body: Val, comments: string): State
  {
    MakeState("array_declare", ArrayDef(id, name, body, []), comments)
  }

  function ArrayIterState(id: nat, name: string, body: Val, index: Val, comments: string): State
  {
    MakeState("array_iter", ArrayDef(id, name, body, [Field("index", index)]), comments)
  }

  /** A write: a cell's old value is an int, so `value` and `last_value` are always present. */
  function ArrayWriteState(id: nat, name: string, body: Val, index: Val, value: int, last: int)
    : State
  {
    MakeState("array_iter",
              ArrayDef(id, name, body, [Field("index", index), Field("value", VInt(value)),
                                        Field("last_value", VInt(last))]),
              "Writing " + IntText(value) + " at index " + Str(index))
  }

  function ArraySwapState(id: nat, name: string, body: Val, i: Val, j: Val, comments: string)
    : State
  {
    MakeState("array_swap", ArrayDef(id, name, body, [Field("index1", i), Field("index2", j)]),
              comments)
  }

  function ArrayCompareState(id: nat, name: string, body: Val, i: Val, j: Val, comments: string)
    : State
  {
    MakeState("array_compare", ArrayDef(id, name, body, [Field("index1", i), Field("index2", j)]),
              comments)
  }

  /** What `arr[key]` gives back: a cell's value, or a new sub-array. */
  datatype Fetched = Element(value: int) | SubArray(sub: Array)

  class Array {
    const name: string
    const id: nat
    const algo: StateSet
    const rank: nat
    /** The cells; a one-dimensional array is the single row 0. */
    const cells: array2<int>

    predicate Valid()
    {
      (rank == 1 && cells.Length0 == 1) || rank == 2
    }

    /** `body.shape`. */
    function Dims(): seq<nat>
    {
      if rank == 1 then [cells.Length1] else [cells.Length0, cells.Length1]
    }

    function Rows(): seq<seq<int>>
      reads cells
    {
      seq(cells.Length0, i requires 0 <= i < cells.Length0 reads cells =>
        seq(cells.Length1, j requires 0 <= j < cells.Length1 reads cells => cells[i, j]))
    }

    function Body(): Val
      reads cells
    {
      BodyVal(rank, Rows())
    }

    /** The cell a resolved index names. */
    function Cell(p: seq<nat>): (c: (nat, nat))
      requires Valid() && |p| == rank
      requires forall a :: 0 <= a < |p| ==> p[a] < Dims()[a]
      ensures c.0 < cells.Length0 && c.1 < cells.Length1
    {
      assert p[0] < Dims()[0];
      if rank == 1 then (0, p[0])
      else
        assert p[1] < Dims()[1];
        (p[0], p[1])
    }

    /** The cell `key` names, or numpy's IndexError. */
    function Locate(key: Key): (r: Result<(nat, nat)>)
      requires Valid() && |KeyInts(key)| == rank
      ensures r.Ok? ==> r.value.0 < cells.Length0 && r.value.1 < cells.Length1
      ensures r.Ok? <==> Resolve(KeyInts(key), Dims(), 0).Ok?
      ensures r.Err? ==> r.error == Resolve(KeyInts(key), Dims(), 0).error
      ensures r.Ok? ==> r.value == Cell(Resolve(KeyInts(key), Dims(), 0).value)
    {
      match Resolve(KeyInts(key), Dims(), 0)
      case Err(e) => Err(e)
      case Ok(p) => Ok(Cell(p))
    }

    /** A new array holding `rows`, with a fresh identity; its declaration is recorded. */
    constructor (name: string, algo: StateSet, rank: nat, rows: seq<seq<int>>, width: nat,
                 comments: string)
      requires rank == 1 || rank == 2
      requires rank == 1 ==> |rows| == 1
      requires forall i :: 0 <= i < |rows| ==> |rows[i]| == width
      modifies algo`states, algo`nextId
      ensures Valid() && this.name == name && this.algo == algo && this.rank == rank
      ensures fresh(cells) && cells.Length0 == |rows| && cells.Length1 == width
      ensures Rows() == rows
      ensures id == old(algo.nextId) && algo.nextId == id + 1
      ensures algo.states == old(algo.states) + [ArrayDeclareState(id, name, BodyVal(rank, rows), comments)]
    {
      var fid := algo.FreshId();
      this.name := name;
      this.id := fid;
      this.algo := algo;
      this.rank := rank;
      var c := new int[|rows|, width]((i, j) requires 0 <= i < |rows| && 0 <= j < width => rows[i][j]);
      this.cells := c;
      new;
      assert forall i :: 0 <= i < |rows| ==> Rows()[i] == rows[i];
      algo.AddState(ArrayDeclareState(fid, name, BodyVal(rank, rows), comments));
    }

    /** `len(arr)`: the size of the first axis. */
    function Len(): nat
      requires Valid()
    {
      Dims()[0]
    }

    /**
     * `arr[lo:hi]`: a new `<name>_sub` Array over the slice of the first
     * axis; only its declaration is recorded.
     */
    method Slice(lo: Option<int>, hi: Option<int>, comments: string) returns (r: Array)
      requires Valid()
      modifies algo`states, algo`nextId
      ensures fresh(r) && fresh(r.cells) && r.Valid() && r.name == name + "_sub" && r.rank == rank
      ensures rank == 1 ==> r.Rows() == [PySlice(Rows()[0], lo, hi)]
      ensures rank == 2 ==> r.Rows() == PySlice(Rows(), lo, hi)
      ensures algo.states == old(algo.states) + [ArrayDeclareState(r.id, r.name, r.Body(), comments)]
    {
      var rows := Rows();
      if rank == 1 {
        var part := PySlice(rows[0], lo, hi);
        r := new Array(name + "_sub", algo, 1, [part], |part|, comments);
      } else {
        var part := PySlice(rows, lo, hi);
        r := new Array(name + "_sub", algo, 2, part, cells.Length1, comments);
      }
    }

    /**
     * `arr[key]` for an int or a tuple. The read is recorded first. With
     * fewer indices than axes (an int on a two-dimensional array) the result
     * is a new `<name>_sub` Array over that part, whose declaration follows;
     * otherwise it is the cell's value. numpy's index errors, raised after
     * the read is recorded, become ARgorithmError.
     */
    method Get(key: Key, comments: string) returns (r: Result<Fetched>)
      requires Valid()
      modifies algo`states, algo`nextId
      ensures var ks := KeyInts(key);
              (key.KInt? && rank == 1) || |ks| >= rank ==>
                if |ks| > rank then
                  r == Err(InvalidIndex(TooManyIndices(rank, |ks|))) &&
                  algo.states == old(algo.states) + [ArrayIterState(id, name, Body(), IndexVal(key), comments)]
                else match Resolve(ks, Dims(), 0)
                  case Err(e) =>
                    r == Err(InvalidIndex(e)) &&
                    algo.states == old(algo.states) + [ArrayIterState(id, name, Body(), IndexVal(key), comments)]
                  case Ok(p) =>
                    r == Ok(Element(cells[Cell(p).0, Cell(p).1])) &&
                    algo.states == old(algo.states) + [ArrayIterState(id, name, Body(), IndexVal(key), comments)]
      ensures var ks := KeyInts(key);
              !((key.KInt? && rank == 1) || |ks| >= rank) && |ks| == 0 ==>
                r.Ok? && r.value.SubArray? && fresh(r.value.sub) && r.value.sub.Valid() &&
                r.value.sub.rank == rank && r.value.sub.Rows() == Rows() &&
                algo.states == old(algo.states) +
                  [ArrayIterState(id, name, Body(), IndexVal(key), comments),
                   ArrayDeclareState(r.value.sub.id, name + "_sub", Body(), comments)]
      ensures var ks := KeyInts(key);
              !((key.KInt? && rank == 1) || |ks| >= rank) && |ks| == 1 ==>
                match PyIndex(ks[0], cells.Length0)
                case None =>
                  r == Err(InvalidIndex(OutOfBounds(ks[0], 0, cells.Length0))) &&
                  algo.states == old(algo.states) + [ArrayIterState(id, name, Body(), IndexVal(key), comments)]
                case Some(i) =>
                  r.Ok? && r.value.SubArray? && fresh(r.value.sub) && r.value.sub.Valid() &&
                  r.value.sub.rank == 1 && r.value.sub.Rows() == [Rows()[i]] &&
                  algo.states == old(algo.states) +
                    [ArrayIterState(id, name, Body(), IndexVal(key), comments),
                     ArrayDeclareState(r.value.sub.id, name + "_sub", BodyVal(1, [Rows()[i]]), comments)]
    {
      var ks := KeyInts(key);
      algo.AddState(ArrayIterState(id, name, Body(), IndexVal(key), comments));
      if (key.KInt? && rank == 1) || |ks| >= rank {
        if |ks| > rank {
          return Err(InvalidIndex(TooManyIndices(rank, |ks|)));
        }
        match Resolve(ks, Dims(), 0)
        case Err(e) => return Err(InvalidIndex(e));
        case Ok(p) =>
          var c := Cell(p);
          return Ok(Element(cells[c.0, c.1]));
      }
      var rows := Rows();
      if |ks| == 0 {
        var sub := new Array(name + "_sub", algo, rank, rows, cells.Length1, comments);
        return Ok(SubArray(sub));
      }
      match PyIndex(ks[0], cells.Length0)
      case None => return Err(InvalidIndex(OutOfBounds(ks[0], 0, cells.Length0)));
      case Some(i) =>
        var sub := new Array(name + "_sub", algo, 1, [rows[i]], |rows[i]|, comments);
        return Ok(SubArray(sub));
    }

    /**
     * `arr[key] = value` for a key naming one cell: the old value is read
     * (numpy's IndexError, nothing changed), the value is stored (numpy's
     * OverflowError for an int outside `int64`, nothing changed), and the
     * write is recorded; every other cell keeps its value.
     */
    method Set(key: Key, value: int) returns (r: Outcome)
      requires Valid() && |KeyInts(key)| == rank
      modifies cells, algo`states
      ensures Locate(key).Err? ==> r == Raised(Locate(key).error)
      ensures Locate(key).Ok? && !InInt64(value) ==> r == Raised(TooLarge)
      ensures r.Raised? ==>
                algo.states == old(algo.states) &&
                forall i, j :: 0 <= i < cells.Length0 && 0 <= j < cells.Length1 ==>
                  cells[i, j] == old(cells[i, j])
      ensures Locate(key).Ok? && InInt64(value) ==>
                var c := Locate(key).value;
                r == Done && cells[c.0, c.1] == value &&
                (forall i, j ::
                   0 <= i < cells.Length0 && 0 <= j < cells.Length1 && (i, j) != c ==>
                     cells[i, j] == old(cells[i, j])) &&
                algo.states == old(algo.states) +
                  [ArrayWriteState(id, name, Body(), IndexVal(key), value, old(cells[c.0, c.1]))]
    {
      var loc := Locate(key);
      if loc.Err? {
        return Raised(loc.error);
      }
      var c := loc.value;
      var last := cells[c.0, c.1];
      if !InInt64(value) {
        return Raised(TooLarge);
      }
      cells[c.0, c.1] := value;
      var snapshot := Body();
      algo.AddState(ArrayWriteState(id, name, snapshot, IndexVal(key), value, last));
      assert snapshot == Body() && Locate(key).value == c;
      return Done;
    }

    /**
     * `compare(k1, k2, func)`: both cells are read (numpy's IndexError,
     * nothing recorded), the comparison is recorded, then `func` is applied,
     * by default the difference of the two `int64` values, which wraps.
     */
    method Compare(k1: Key, k2: Key, func: Option<(int, int) -> Val>, comments: string)
      returns (r: Result<Val>)
      requires Valid() && |KeyInts(k1)| == rank && |KeyInts(k2)| == rank
      modifies algo`states
      ensures Locate(k1).Err? ==> r == Err(Locate(k1).error) && algo.states == old(algo.states)
      ensures Locate(k1).Ok? && Locate(k2).Err? ==>
                r == Err(Locate(k2).error) && algo.states == old(algo.states)
      ensures Locate(k1).Ok? && Locate(k2).Ok? ==>
                var c1, c2 := Locate(k1).value, Locate(k2).value;
                var x, y := cells[c1.0, c1.1], cells[c2.0, c2.1];
                r == Ok(if func.Some? then func.value(x, y) else VInt(Wrap64(x - y))) &&
                algo.states == old(algo.states) +
                  [ArrayCompareState(id, name, Body(), IndexVal(k1), IndexVal(k2), comments)]
    {
      var p1 := Locate(k1);
      if p1.Err? {
        return Err(p1.error);
      }
      var p2 := Locate(k2);
      if p2.Err? {
        return Err(p2.error);
      }
      var c1, c2 := p1.value, p2.value;
      var x, y := cells[c1.0, c1.1], cells[c2.0, c2.1];
      algo.AddState(ArrayCompareState(id, name, Body(), IndexVal(k1), IndexVal(k2), comments));
      if func.Some? {
        return Ok(func.value(x, y));
      }
      return Ok(VInt(Wrap64(x - y)));
    }

    /**
     * `swap(k1, k2)`: both cells are read, the second first (numpy's
     * IndexError, nothing changed), then they trade values and the swap is
     * recorded; every other cell keeps its value.
     */
    method Swap(k1: Key, k2: Key, comments: string) returns (r: Outcome)
      requires Valid() && |KeyInts(k1)| == rank && |KeyInts(k2)| == rank
      modifies cells, algo`states
      ensures Locate(k2).Err? ==> r == Raised(Locate(k2).error)
      ensures Locate(k2).Ok? && Locate(k1).Err? ==> r == Raised(Locate(k1).error)
      ensures r.Raised? ==>
                algo.states == old(algo.states) &&
                forall i, j :: 0 <= i < cells.Length0 && 0 <= j < cells.Length1 ==>
                  cells[i, j] == old(cells[i, j])
      ensures Locate(k1).Ok? && Locate(k2).Ok? ==>
                var c1, c2 := Locate(k1).value, Locate(k2).value;
                r == Done &&
                cells[c1.0, c1.1] == old(cells[c2.0, c2.1]) &&
                cells[c2.0, c2.1] == old(cells[c1.0, c1.1]) &&
                (forall i, j ::
                   0 <= i < cells.Length0 && 0 <= j < cells.Length1 && (i, j) != c1 && (i, j) != c2 ==>
                     cells[i, j] == old(cells[i, j])) &&
                algo.states == old(algo.states) +
                  [ArraySwapState(id, name, Body(), IndexVal(k1), IndexVal(k2), comments)]
    {
      var p2 := Locate(k2);
      if p2.Err? {
        return Raised(p2.error);
      }
      var p1 := Locate(k1);
      if p1.Err? {
        return Raised(p1.error);
      }
      Exchange(p1.value, p2.value);
      algo.AddState(ArraySwapState(id, name, Body(), IndexVal(k1), IndexVal(k2), comments));
      return Done;
    }

    /** The cells `c1` and `c2` trade values; every other cell keeps its value. */
    method Exchange(c1: (nat, nat), c2: (nat, nat))
      requires c1.0 < cells.Length0 && c1.1 < cells.Length1
      requires c2.0 < cells.Length0 && c2.1 < cells.Length1
      modifies cells
      ensures cells[c1.0, c1.1] == old(cells[c2.0, c2.1])
      ensures cells[c2.0, c2.1] == old(cells[c1.0, c1.1])
      ensures forall i, j :: 0 <= i < cells.Length0 && 0 <= j < cells.Length1 && (i, j) != c1 && (i, j) != c2 ==>
                cells[i, j] == old(cells[i, j])
    {
      var x, y := cells[c1.0, c1.1], cells[c2.0, c2.1];
      cells[c1.0, c1.1] := y;
      cells[c2.0, c2.1] := x;
    }
  }

  /**
   * `Array(name, algo, data, shape, fill, comments)` with its checks in
   * order: a str name, a StateSet, then either data of fixed dimensions or
   * a shape filled with `fill`.
   */
  method NewArray(name: Val, algo: StateSet?, data: Val, shape: seq<nat>, fill: int,
                  comments: string) returns (r: Result<Array>)
    requires data.VNone? ==> (|shape| == 1 || |shape| == 2) && InInt64(fill)
    requires !data.VNone? && Shape(data).Ok? ==> IntGrid(data)
    modifies algo
    ensures algo != null ==> algo.autoplay == old(algo.autoplay)
    ensures !name.VStr? ==> r == Err(ARgorithmError(["Give valid name to data structure"]))
    ensures name.VStr? && algo == null ==>
              r == Err(ARgorithmError(["array structure needs a reference of template to store states"]))
    ensures name.VStr? && algo != null && !data.VNone? && Shape(data).Err? ==> r == Err(FixedDimensions)
    ensures name.VStr? && algo != null && (data.VNone? || Shape(data).Ok?) ==> r.Ok?
    ensures r.Err? && algo != null ==> algo.states == old(algo.states)
    ensures r.Ok? ==>
              name.VStr? && algo != null && fresh(r.value) && r.value.Valid() &&
              r.value.name == name.s && r.value.algo == algo &&
              algo.states == old(algo.states) +
                             [ArrayDeclareState(r.value.id, name.s, r.value.Body(), comments)]
    ensures r.Ok? && !data.VNone? ==>
              r.value.rank == |Shape(data).value| && r.value.Rows() == GridRows(data)
    ensures r.Ok? && data.VNone? ==>
              r.value.rank == |shape| && r.value.Dims() == shape &&
              forall i, j :: 0 <= i < r.value.cells.Length0 && 0 <= j < r.value.cells.Length1 ==>
                r.value.cells[i, j] == fill
  {
    if !name.VStr? {
      return Err(ARgorithmError(["Give valid name to data structure"]));
    }
    if algo == null {
      return Err(ARgorithmError(["array structure needs a reference of template to store states"]));
    }
    if !data.VNone? {
      match Shape(data)
      case Err(e) => return Err(e);
      case Ok(dims) =>
        var rows := GridRows(data);
        var width := if |dims| == 1 then |data.items| else dims[1];
        var a := new Array(name.s, algo, |dims|, rows, width, comments);
        return Ok(a);
    }
    var height, width := if |shape| == 1 then 1 else shape[0], shape[|shape| - 1];
    var rows := seq(height, _ => seq(width, _ => fill));
    var a := new Array(name.s, algo, |shape|, rows, width, comments);
    assert forall i, j :: 0 <= i < height && 0 <= j < width ==> a.Rows()[i][j] == a.cells[i, j];
    return Ok(a);
  }

  /** In a one-dimensional array an index in range names its cell in row 0. */
  lemma LocateFlat(a: Array, k: nat)
    requires a.Valid() && a.rank == 1 && k < a.cells.Length1
    ensures Resolve([k], a.Dims(), 0) == Ok([k])
    ensures a.Cell([k]) == (0, k)
    ensures a.Locate(KInt(k)) == Ok((0, k))
  {
    var dims := a.Dims();
    assert dims == [a.cells.Length1] && dims[1..] == [] && [k][1..] == [];
    assert PyIndex([k][0], dims[0]) == Some(k);
    assert Resolve([], [], 1) == Ok([]);
    assert [k] + [] == [k];
  }

  /** A one-row array holding `xs` cell by cell has the rows `[xs]`. */
  lemma RowsOfRow(a: Array, xs: seq<int>)
    requires a.cells.Length0 == 1 && a.cells.Length1 == |xs|
    requires forall j :: 0 <= j < |xs| ==> a.cells[0, j] == xs[j]
    ensures a.Rows() == [xs]
  {
    assert a.Rows()[0] == xs;
  }
}
