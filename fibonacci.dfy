/**
 * The Fibonacci example: an array of `n` cells starts as `0, 1, 0, ...`
 * and each later cell is written with the sum of the two before it, read
 * through the Array so that every read and write is recorded. The cells
 * are numpy `int64` values, so the sum wraps around once it leaves that
 * range.
 */
module Fibonacci {
  import opened Values
  import opened Utils
  import opened Arrays

  function Fib(i: nat): int
  {
    if i < 2 then i else Fib(i - 1) + Fib(i - 2)
  }

  /** The `i`-th Fibonacci number as an `int64` cell holds it. */
  function Fib64(i: nat): int
  {
    Wrap64(Fib(i))
  }

  /** The body once the cells below `k` hold their numbers; the rest are still 0. */
  function Filled(n: nat, k: nat): seq<int>
  {
    seq(n, j requires 0 <= j < n => if j < k then Fib64(j) else 0)
  }

  /** The first `n` Fibonacci numbers, as `int64` cells hold them. */
  function Fibs(n: nat): seq<int>
  {
    seq(n, j requires 0 <= j < n => Fib64(j))
  }

  /**
   * The records of the loop step for cell `i`: the read of cell `i - 1`,
   * the read of cell `i - 2` (both with no comments), then the write.
   */
  function Iteration(id: nat, n: nat, i: nat): seq<State>
  {
    var before := BodyVal(1, [Filled(n, i)]);
    [ArrayIterState(id, "arr", before, VInt(i - 1), ""),
     ArrayIterState(id, "arr", before, VInt(i - 2), ""),
     ArrayWriteState(id, "arr", BodyVal(1, [Filled(n, i + 1)]), VInt(i), Fib64(i), 0)]
  }

  /** The records of the loop steps for cells `2` up to `k - 1`. */
  function Trace(id: nat, n: nat, k: nat): seq<State>
  {
    if k <= 2 then [] else Trace(id, n, k - 1) + Iteration(id, n, k - 1)
  }

  /**
   * One loop step: the `int64` sum of the two cells read is the next
   * number, and writing it into cell `i` fills one more cell.
   */
  lemma FilledStep(n: nat, i: nat)
    requires 2 <= i < n
    ensures Wrap64(Filled(n, i)[i - 1] + Filled(n, i)[i - 2]) == Fib64(i)
    ensures Filled(n, i + 1) == Filled(n, i)[i := Fib64(i)]
  {
    Wrap64Add(Fib(i - 1), Fib(i - 2));
  }

  /** The `int64` sum of the two numbers before `i` is the `i`-th, wrapped. */
  lemma NextCell(i: nat, x: int, y: int)
    requires 2 <= i && x == Fib64(i - 1) && y == Fib64(i - 2)
    ensures Wrap64(x + y) == Fib64(i)
  {
    Wrap64Add(Fib(i - 1), Fib(i - 2));
  }

  /**
   * Once the loop is over, cell `j` holds the `j`-th Fibonacci number
   * wrapped into `int64`: the number itself when it fits, and a different
   * value when it does not.
   */
  lemma FilledAll(n: nat, j: nat)
    requires j < n
    ensures Filled(n, n) == Fibs(n)
    ensures InInt64(Fib(j)) <==> Filled(n, n)[j] == Fib(j)
  {
    if InInt64(Fib(j)) {
      Wrap64Fits(Fib(j));
    }
  }

  lemma {:induction false} FibGrows(i: nat, j: nat)
    requires i <= j
    ensures 0 <= Fib(i) <= Fib(j)
    decreases j
  {
    if j >= 2 {
      FibGrows(if i < j then i else 0, j - 1);
      FibGrows(0, j - 2);
    }
  }

  /** The numbers only grow, so every cell before one that holds its exact number holds its own. */
  lemma ExactBelow(n: nat, j: nat, k: nat)
    requires k <= j < n && Filled(n, n)[j] == Fib(j)
    ensures Filled(n, n)[k] == Fib(k)
  {
    FilledAll(n, j);
    FibGrows(0, k);
    FibGrows(k, j);
    FilledAll(n, k);
  }

  lemma TraceStep(id: nat, n: nat, i: nat)
    requires 2 <= i
    ensures Trace(id, n, i + 1) == Trace(id, n, i) + Iteration(id, n, i)
  {
  }

  /** Each loop step records three states. */
  lemma {:induction false} TraceLength(id: nat, n: nat, k: nat)
    ensures |Trace(id, n, k)| == if k <= 2 then 0 else 3 * (k - 2)
  {
    if k > 2 {
      TraceLength(id, n, k - 1);
    }
  }

  /**
   * The loop's last record is the write of the last cell, and its body
   * is the whole sequence of Fibonacci numbers as the cells hold them.
   */
  lemma LastWrite(id: nat, n: nat)
    requires n >= 3
    ensures var t := Trace(id, n, n);
            t != [] && t[|t| - 1] ==
              ArrayWriteState(id, "arr", BodyVal(1, [Fibs(n)]), VInt(n - 1), Fib64(n - 1), 0)
  {
    assert Filled(n, n) == Fibs(n);
  }

  /**
   * `run(n=n)`. With fewer than two cells the initial writes fail with
   * Python's IndexError before anything is recorded. Otherwise the array is
   * declared (the text passed after the data is taken for `shape`, so the
   * declaration has no comments) and the loop's reads and writes follow.
   */
  method Run(n: int) returns (r: Result<StateSet>)
    ensures n < 2 ==> r == Err(IndexError("list assignment index out of range"))
    ensures n >= 2 ==>
              r.Ok? &&
              r.value.states == [ArrayDeclareState(0, "arr", BodyVal(1, [Filled(n, 2)]), "")] + Trace(0, n, n)
  {
    var algo := new StateSet();
    if n < 2 {
      return Err(IndexError("list assignment index out of range"));
    }
    var body := seq(n, _ => 0);
    body := body[0 := 0];
    body := body[1 := 1];
    assert body == Filled(n, 2);
    var arr := new Array("arr", algo, 1, [body], n, "");
    Fill(arr, n);
    return Ok(algo);
  }

  /** The loop `for i in range(2, n)`: every cell from 2 on is filled in turn. */
  method Fill(arr: Array, n: nat)
    requires 2 <= n
    requires arr.Valid() && arr.rank == 1 && arr.name == "arr"
    requires arr.cells.Length0 == 1 && arr.cells.Length1 == n
    requires arr.Rows() == [Filled(n, 2)]
    modifies arr.cells, arr.algo`states, arr.algo`nextId
    ensures arr.Rows() == [Filled(n, n)]
    ensures arr.algo.states == old(arr.algo.states) + Trace(arr.id, n, n)
  {
    for i := 2 to n
      invariant arr.Rows() == [Filled(n, i)]
      invariant arr.algo.states == old(arr.algo.states) + Trace(arr.id, n, i)
    {
      ghost var s0 := arr.algo.states;
      Step(arr, n, i);
      TraceStep(arr.id, n, i);
      AppendAssoc(old(arr.algo.states), Trace(arr.id, n, i), Iteration(arr.id, n, i));
      assert arr.algo.states == s0 + Iteration(arr.id, n, i);
    }
  }

  /**
   * `arr[i] = arr[i-1] + arr[i-2]`: two recorded reads, then the recorded
   * write of their sum, computed on `int64` values.
   */
  method Step(arr: Array, n: nat, i: nat)
    requires 2 <= i < n
    requires arr.Valid() && arr.rank == 1 && arr.name == "arr"
    requires arr.cells.Length0 == 1 && arr.cells.Length1 == n
    requires arr.Rows() == [Filled(n, i)]
    modifies arr.cells, arr.algo`states, arr.algo`nextId
    ensures arr.Rows() == [Filled(n, i + 1)]
    ensures arr.algo.states == old(arr.algo.states) + Iteration(arr.id, n, i)
  {
    FilledStep(n, i);
    var x := Read(arr, n, i, i - 1);
    var y := Read(arr, n, i, i - 2);
    NextCell(i, x, y);
    Write(arr, n, i, Wrap64(x + y));
    ghost var before := BodyVal(1, [Filled(n, i)]);
    Snoc3(old(arr.algo.states), ArrayIterState(arr.id, "arr", before, VInt(i - 1), ""),
          ArrayIterState(arr.id, "arr", before, VInt(i - 2), ""),
          ArrayWriteState(arr.id, "arr", BodyVal(1, [Filled(n, i + 1)]), VInt(i), Fib64(i), 0));
  }

  /** `arr[i] = v` once the cells below `i` are filled and `v` is the next number. */
  method Write(arr: Array, n: nat, i: nat, v: int)
    requires i < n && v == Fib64(i)
    requires arr.Valid() && arr.rank == 1 && arr.name == "arr"
    requires arr.cells.Length0 == 1 && arr.cells.Length1 == n
    requires arr.Rows() == [Filled(n, i)]
    modifies arr.cells, arr.algo`states
    ensures arr.Rows() == [Filled(n, i + 1)]
    ensures arr.algo.states ==
              old(arr.algo.states) + [ArrayWriteState(arr.id, "arr", BodyVal(1, [Filled(n, i + 1)]), VInt(i), Fib64(i), 0)]
  {
    LocateFlat(arr, i);
    ghost var before := Filled(n, i);
    assert forall j :: 0 <= j < n ==> arr.cells[0, j] == before[j] by {
      forall j | 0 <= j < n ensures arr.cells[0, j] == before[j] {
        assert arr.cells[0, j] == arr.Rows()[0][j];
      }
    }
    var written := arr.Set(KInt(i), v);
    forall j | 0 <= j < n ensures arr.cells[0, j] == Filled(n, i + 1)[j] {
      if j != i {
        assert (0, j) != (0, i);
      }
    }
    RowsOfRow(arr, Filled(n, i + 1));
  }

  /** `arr[k]` with no comments, while the cells below `i` are filled. */
  method Read(arr: Array, n: nat, i: nat, k: nat) returns (v: int)
    requires k < i <= n
    requires arr.Valid() && arr.rank == 1 && arr.name == "arr"
    requires arr.cells.Length0 == 1 && arr.cells.Length1 == n
    requires arr.Rows() == [Filled(n, i)]
    modifies arr.algo`states, arr.algo`nextId
    ensures v == Fib64(k)
    ensures arr.algo.states ==
              old(arr.algo.states) + [ArrayIterState(arr.id, "arr", BodyVal(1, [Filled(n, i)]), VInt(k), "")]
  {
    LocateFlat(arr, k);
    assert arr.cells[0, k] == arr.Rows()[0][k];
    assert arr.Body() == BodyVal(1, [Filled(n, i)]);
    var x := arr.Get(KInt(k), "");
    v := x.value.value;
  }
}
