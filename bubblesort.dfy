/**
 * The bubble sort example: for each index `i` in turn a comment is
 * recorded, then cell `i` is compared with every later cell `j` (with
 * `check(a, b) = a > b`) and the two are swapped whenever the comparison
 * holds. Every comparison and swap goes through the Array, so each is
 * recorded with the body as it stands.
 */
module BubbleSort {
  import opened Values
  import opened Text
  import opened Utils
  import opened Arrays

  /** `check(a, b)`: the comparison function handed to `compare`. */
  function Check(a: int, b: int): Val
  {
    VBool(a > b)
  }

  function RoundComment(i: nat): string
  {
    "Iterating the array starting from the " + NatText(i) + "th index"
  }

  function CompareComment(i: nat, j: nat): string
  {
    "comparing the " + NatText(i) + "th and " + NatText(j) + "th element"
  }

  function SwapComment(i: nat, j: nat): string
  {
    "as arr[" + NatText(i) + "] > arr[" + NatText(j) + "] , we swap them"
  }

  /** One step of the inner loop: cells `i` and `j` trade values when `s[i] > s[j]`. */
  function Exchanged(s: seq<int>, i: nat, j: nat): (r: seq<int>)
    requires i < |s| && j < |s|
    ensures |r| == |s|
  {
    if s[i] > s[j] then Swapped(s, i, j) else s
  }

  /** The row with cells `i` and `j` traded. */
  function Swapped(s: seq<int>, i: nat, j: nat): seq<int>
    requires i < |s| && j < |s|
  {
    s[i := s[j]][j := s[i]]
  }

  /** The row once the inner loop for `i` has compared cell `i` with the cells `i + 1` up to `j - 1`. */
  function AfterPass(s: seq<int>, i: nat, j: nat): (r: seq<int>)
    requires i < j <= |s|
    ensures |r| == |s|
    decreases j
  {
    if j == i + 1 then s else Exchanged(AfterPass(s, i, j - 1), i, j - 1)
  }

  /** The row once the outer loop has run for the indices below `i`. */
  function AfterRounds(s: seq<int>, i: nat): (r: seq<int>)
    requires i <= |s|
    ensures |r| == |s|
  {
    if i == 0 then s else AfterPass(AfterRounds(s, i - 1), i - 1, |s|)
  }

  /** The records of one inner step on the row `s`: the comparison, then the swap if it happens. */
  function StepRecords(id: nat, s: seq<int>, i: nat, j: nat): seq<State>
    requires i < |s| && j < |s|
  {
    [ArrayCompareState(id, "arr", BodyVal(1, [s]), VInt(i), VInt(j), CompareComment(i, j))] +
    (if s[i] > s[j] then
       [ArraySwapState(id, "arr", BodyVal(1, [Exchanged(s, i, j)]), VInt(i), VInt(j), SwapComment(i, j))]
     else [])
  }

  function PassTrace(id: nat, s: seq<int>, i: nat, j: nat): seq<State>
    requires i < j <= |s|
    decreases j
  {
    if j == i + 1 then [] else PassTrace(id, s, i, j - 1) + StepRecords(id, AfterPass(s, i, j - 1), i, j - 1)
  }

  function RoundsTrace(id: nat, s: seq<int>, i: nat): seq<State>
    requires i <= |s|
  {
    if i == 0 then []
    else RoundsTrace(id, s, i - 1) + [CommentState(RoundComment(i - 1))] +
         PassTrace(id, AfterRounds(s, i - 1), i - 1, |s|)
  }

  lemma PassTraceStep(id: nat, s: seq<int>, i: nat, j: nat)
    requires i < j < |s|
    ensures PassTrace(id, s, i, j + 1) == PassTrace(id, s, i, j) + StepRecords(id, AfterPass(s, i, j), i, j)
  {
  }

  lemma RoundsTraceStep(id: nat, s: seq<int>, i: nat)
    requires i < |s|
    ensures RoundsTrace(id, s, i + 1) ==
            RoundsTrace(id, s, i) + [CommentState(RoundComment(i))] + PassTrace(id, AfterRounds(s, i), i, |s|)
  {
  }

  /** Every value from index `lo` on is at least `b`. */
  predicate Above(s: seq<int>, lo: nat, b: int)
  {
    forall k :: lo <= k < |s| ==> b <= s[k]
  }

  /** The first `i` cells are in order and none is above a later cell. */
  predicate Settled(s: seq<int>, i: nat)
  {
    i <= |s| &&
    (forall p, q :: 0 <= p < q < i ==> s[p] <= s[q]) &&
    (forall p, k :: 0 <= p < i <= k < |s| ==> s[p] <= s[k])
  }

  predicate SortedRow(s: seq<int>)
  {
    forall p, q :: 0 <= p < q < |s| ==> s[p] <= s[q]
  }

  /** The inner loop leaves the cells before `i` alone. */
  lemma {:induction false} AfterPassKeepsPrefix(s: seq<int>, i: nat, j: nat)
    requires i < j <= |s|
    ensures AfterPass(s, i, j)[..i] == s[..i]
    decreases j
  {
    if j > i + 1 {
      var t := AfterPass(s, i, j - 1);
      AfterPassKeepsPrefix(s, i, j - 1);
      ExchangedKeeps(t, i, j - 1, 0);
    }
  }

  /** One step leaves the cells before `i` alone and keeps a lower bound of the cells from `i` on. */
  lemma ExchangedKeeps(t: seq<int>, i: nat, j: nat, b: int)
    requires i < j < |t|
    ensures Exchanged(t, i, j)[..i] == t[..i]
    ensures Above(t, i, b) ==> Above(Exchanged(t, i, j), i, b)
  {
    assert Exchanged(t, i, j)[..i] == t[..i];
  }

  /** `a` holds the values of `b`, each as often. */
  predicate Perm(a: seq<int>, b: seq<int>)
  {
    multiset(a) == multiset(b)
  }

  lemma PermTrans(a: seq<int>, b: seq<int>, c: seq<int>)
    requires Perm(a, b) && Perm(b, c)
    ensures Perm(a, c)
  {
  }

  lemma ExchangedPermutes(s: seq<int>, i: nat, j: nat)
    requires i < |s| && j < |s|
    ensures Perm(Exchanged(s, i, j), s)
  {
    if s[i] > s[j] {
      SwapPreservesMultiset(s, i, j);
      assert Perm(Swapped(s, i, j), s);
    }
  }

  /** The inner loop only moves values about. */
  lemma {:induction false} AfterPassPermutes(s: seq<int>, i: nat, j: nat)
    requires i < j <= |s|
    ensures Perm(AfterPass(s, i, j), s)
    decreases j
  {
    if j > i + 1 {
      var t := AfterPass(s, i, j - 1);
      AfterPassPermutes(s, i, j - 1);
      ExchangedPermutes(t, i, j - 1);
      PermTrans(AfterPass(s, i, j), t, s);
    }
  }

  /** So do the rounds. */
  lemma {:induction false} RoundsPermute(s: seq<int>, i: nat)
    requires i <= |s|
    ensures Perm(AfterRounds(s, i), s)
  {
    if i > 0 {
      var t := AfterRounds(s, i - 1);
      RoundsPermute(s, i - 1);
      AfterPassPermutes(t, i - 1, |t|);
      PermTrans(AfterRounds(s, i), t, s);
    }
  }

  /** A lower bound of the cells from `i` on stays one, since values only move within them. */
  lemma {:induction false} AfterPassAbove(s: seq<int>, i: nat, j: nat, b: int)
    requires i < j <= |s| && Above(s, i, b)
    ensures Above(AfterPass(s, i, j), i, b)
    decreases j
  {
    if j > i + 1 {
      AfterPassAbove(s, i, j - 1, b);
      ExchangedKeeps(AfterPass(s, i, j - 1), i, j - 1, b);
    }
  }

  /** After comparing cell `i` with the cells before `j`, cell `i` holds the least of them. */
  lemma {:induction false} AfterPassLeast(s: seq<int>, i: nat, j: nat)
    requires i < j <= |s|
    ensures forall k :: i < k < j ==> AfterPass(s, i, j)[i] <= AfterPass(s, i, j)[k]
    decreases j
  {
    if j > i + 1 {
      AfterPassLeast(s, i, j - 1);
    }
  }

  /** One round of the outer loop settles one more cell. */
  lemma RoundSettles(s: seq<int>, i: nat)
    requires i < |s| && Settled(s, i)
    ensures Settled(AfterPass(s, i, |s|), i + 1)
  {
    var r := AfterPass(s, i, |s|);
    AfterPassLeast(s, i, |s|);
    forall p | 0 <= p < i
      ensures r[p] == s[p] && Above(r, i, s[p])
    {
      AfterPassKeepsPrefix(s, i, |s|);
      AfterPassAbove(s, i, |s|, s[p]);
      assert r[p] == r[..i][p];
    }
  }

  /** After `i` rounds the first `i` cells are settled. */
  lemma {:induction false} RoundsSettle(s: seq<int>, i: nat)
    requires i <= |s|
    ensures Settled(AfterRounds(s, i), i)
  {
    if i > 0 {
      var t := AfterRounds(s, i - 1);
      RoundsSettle(s, i - 1);
      RoundSettles(t, i - 1);
      assert AfterRounds(s, i) == AfterPass(t, i - 1, |t|);
    }
  }

  /** The example sorts: the final row is in order and holds the values given. */
  lemma SortsInput(s: seq<int>)
    ensures SortedRow(AfterRounds(s, |s|))
    ensures multiset(AfterRounds(s, |s|)) == multiset(s)
  {
    RoundsSettle(s, |s|);
    RoundsPermute(s, |s|);
  }

  const Comment: string := "comment"
  const Compare: string := "array_compare"
  const Swap: string := "array_swap"

  /** The number of records of type `t` in `ts`. */
  function CountOf(ts: seq<State>, t: string): nat
  {
    if ts == [] then 0
    else CountOf(ts[..|ts| - 1], t) + (if StateType(ts[|ts| - 1]) == VStr(t) then 1 else 0)
  }

  lemma {:induction false} CountOfConcat(a: seq<State>, b: seq<State>, t: string)
    ensures CountOf(a + b, t) == CountOf(a, t) + CountOf(b, t)
    decreases |b|
  {
    if b != [] {
      var b' := b[..|b| - 1];
      CountOfConcat(a, b', t);
      assert (a + b)[..|a + b| - 1] == a + b';
    } else {
      assert a + b == a;
    }
  }

  lemma CountOfEmpty(t: string)
    ensures CountOf([], t) == 0
  {
  }

  /** A single record counts once, under its own type. */
  lemma CountOne(x: State, t: string)
    ensures CountOf([x], t) == if StateType(x) == VStr(t) then 1 else 0
  {
    assert [x][..0] == [];
  }

  /** The type a record is built with is the type it reports. */
  lemma TypeOfMade(t: string, d: Val, c: string)
    ensures StateType(MakeState(t, d, c)) == VStr(t)
  {
  }

  /** One inner step records one comparison, at most one swap and no comment. */
  lemma StepCounts(id: nat, s: seq<int>, i: nat, j: nat)
    requires i < |s| && j < |s|
    ensures CountOf(StepRecords(id, s, i, j), Compare) == 1
    ensures CountOf(StepRecords(id, s, i, j), Comment) == 0
    ensures CountOf(StepRecords(id, s, i, j), Swap) == if s[i] > s[j] then 1 else 0
  {
    var c := ArrayCompareState(id, "arr", BodyVal(1, [s]), VInt(i), VInt(j), CompareComment(i, j));
    var w := ArraySwapState(id, "arr", BodyVal(1, [Exchanged(s, i, j)]), VInt(i), VInt(j), SwapComment(i, j));
    var tail: seq<State> := if s[i] > s[j] then [w] else [];
    assert StepRecords(id, s, i, j) == [c] + tail;
    TypeOfMade(Compare, ArrayDef(id, "arr", BodyVal(1, [s]), [Field("index1", VInt(i)), Field("index2", VInt(j))]), CompareComment(i, j));
    TypeOfMade(Swap, ArrayDef(id, "arr", BodyVal(1, [Exchanged(s, i, j)]), [Field("index1", VInt(i)), Field("index2", VInt(j))]), SwapComment(i, j));
    assert StateType(c) == VStr(Compare) && StateType(w) == VStr(Swap);
    CountOne(c, Compare);
    CountOne(c, Swap);
    CountOne(c, Comment);
    CountOfConcat([c], tail, Compare);
    CountOfConcat([c], tail, Swap);
    CountOfConcat([c], tail, Comment);
    if s[i] > s[j] {
      CountOne(w, Compare);
      CountOne(w, Swap);
      CountOne(w, Comment);
    }
  }

  /** A step records one comparison. */
  lemma StepComparesOnce(id: nat, s: seq<int>, i: nat, j: nat)
    requires i < |s| && j < |s|
    ensures CountOf(StepRecords(id, s, i, j), Compare) == 1
  {
    StepCounts(id, s, i, j);
  }

  /** A step records at most one swap. */
  lemma StepSwapsAtMostOnce(id: nat, s: seq<int>, i: nat, j: nat)
    requires i < |s| && j < |s|
    ensures CountOf(StepRecords(id, s, i, j), Swap) <= 1
  {
    StepCounts(id, s, i, j);
  }

  /** A step records no comment. */
  lemma StepNoComment(id: nat, s: seq<int>, i: nat, j: nat)
    requires i < |s| && j < |s|
    ensures CountOf(StepRecords(id, s, i, j), Comment) == 0
  {
    StepCounts(id, s, i, j);
  }

  /** A log split in two counts as its parts do. */
  lemma SplitCounts(whole: seq<State>, a: seq<State>, b: seq<State>, t: string)
    requires whole == a + b
    ensures CountOf(whole, t) == CountOf(a, t) + CountOf(b, t)
  {
    CountOfConcat(a, b, t);
  }

  /** An empty inner loop records nothing. */
  lemma NoPassNoRecords(id: nat, s: seq<int>, i: nat)
    requires i < |s|
    ensures CountOf(PassTrace(id, s, i, i + 1), Comment) == 0
    ensures CountOf(PassTrace(id, s, i, i + 1), Compare) == 0
    ensures CountOf(PassTrace(id, s, i, i + 1), Swap) == 0
  {
    assert PassTrace(id, s, i, i + 1) == [];
  }

  /** One more step of the inner loop adds one comparison. */
  lemma PassStepCompares(id: nat, s: seq<int>, i: nat, j: nat, c: nat)
    requires i + 1 < j <= |s| && CountOf(PassTrace(id, s, i, j - 1), Compare) == c
    ensures CountOf(PassTrace(id, s, i, j), Compare) == c + 1
  {
    PassTraceStep(id, s, i, j - 1);
    StepComparesOnce(id, AfterPass(s, i, j - 1), i, j - 1);
    SplitCounts(PassTrace(id, s, i, j), PassTrace(id, s, i, j - 1),
                StepRecords(id, AfterPass(s, i, j - 1), i, j - 1), Compare);
  }

  /** It adds at most one swap. */
  lemma PassStepSwaps(id: nat, s: seq<int>, i: nat, j: nat, c: nat)
    requires i + 1 < j <= |s| && CountOf(PassTrace(id, s, i, j - 1), Swap) <= c
    ensures CountOf(PassTrace(id, s, i, j), Swap) <= c + 1
  {
    PassTraceStep(id, s, i, j - 1);
    StepSwapsAtMostOnce(id, AfterPass(s, i, j - 1), i, j - 1);
    SplitCounts(PassTrace(id, s, i, j), PassTrace(id, s, i, j - 1),
                StepRecords(id, AfterPass(s, i, j - 1), i, j - 1), Swap);
  }

  /** It adds no comment. */
  lemma PassStepComments(id: nat, s: seq<int>, i: nat, j: nat)
    requires i + 1 < j <= |s| && CountOf(PassTrace(id, s, i, j - 1), Comment) == 0
    ensures CountOf(PassTrace(id, s, i, j), Comment) == 0
  {
    PassTraceStep(id, s, i, j - 1);
    StepNoComment(id, AfterPass(s, i, j - 1), i, j - 1);
    SplitCounts(PassTrace(id, s, i, j), PassTrace(id, s, i, j - 1),
                StepRecords(id, AfterPass(s, i, j - 1), i, j - 1), Comment);
  }

  /** The inner loop for `i` up to `j` compares `j - i - 1` times. */
  lemma {:induction false} PassCompareCount(id: nat, s: seq<int>, i: nat, j: nat)
    requires i < j <= |s|
    ensures CountOf(PassTrace(id, s, i, j), Compare) == j - i - 1
    decreases j
  {
    if j == i + 1 {
      NoPassNoRecords(id, s, i);
    } else {
      PassCompareCount(id, s, i, j - 1);
      PassStepCompares(id, s, i, j, j - i - 2);
    }
  }

  /** The inner loop for `i` up to `j` swaps at most once per comparison. */
  lemma {:induction false} PassSwapCount(id: nat, s: seq<int>, i: nat, j: nat)
    requires i < j <= |s|
    ensures CountOf(PassTrace(id, s, i, j), Swap) <= j - i - 1
    decreases j
  {
    if j == i + 1 {
      NoPassNoRecords(id, s, i);
    } else {
      PassSwapCount(id, s, i, j - 1);
      PassStepSwaps(id, s, i, j, j - i - 2);
    }
  }

  /** The inner loop records no comment. */
  lemma {:induction false} PassCommentCount(id: nat, s: seq<int>, i: nat, j: nat)
    requires i < j <= |s|
    ensures CountOf(PassTrace(id, s, i, j), Comment) == 0
    decreases j
  {
    if j == i + 1 {
      NoPassNoRecords(id, s, i);
    } else {
      PassCommentCount(id, s, i, j - 1);
      PassStepComments(id, s, i, j);
    }
  }

  /** The records of the first `i` rounds count as those of `i - 1` rounds, the comment and the last pass's. */
  lemma RoundsSplit(id: nat, s: seq<int>, i: nat, t: string)
    requires 0 < i <= |s|
    ensures CountOf(RoundsTrace(id, s, i), t) ==
            CountOf(RoundsTrace(id, s, i - 1), t) + CountOf([CommentState(RoundComment(i - 1))], t) +
            CountOf(PassTrace(id, AfterRounds(s, i - 1), i - 1, |s|), t)
  {
    var before := RoundsTrace(id, s, i - 1);
    var note := [CommentState(RoundComment(i - 1))];
    var pass := PassTrace(id, AfterRounds(s, i - 1), i - 1, |s|);
    RoundsTraceStep(id, s, i - 1);
    CountOfConcat(before, note, t);
    CountOfConcat(before + note, pass, t);
  }

  /** The round comment is a comment record. */
  lemma RoundCommentCounts(i: nat)
    ensures CountOf([CommentState(RoundComment(i))], Comment) == 1
    ensures CountOf([CommentState(RoundComment(i))], Compare) == 0
    ensures CountOf([CommentState(RoundComment(i))], Swap) == 0
  {
    var c := CommentState(RoundComment(i));
    TypeOfMade(Comment, VNone, RoundComment(i));
    CountOne(c, Comment);
    CountOne(c, Compare);
    CountOne(c, Swap);
  }

  /** The comparisons the first `i` rounds of an `n`-cell array make: `(n - 1) + (n - 2) + ...`. */
  function Compared(n: nat, i: nat): nat
    requires i <= n
  {
    if i == 0 then 0 else Compared(n, i - 1) + (n - i)
  }

  /** The sum in closed form: twice it is `i (2n - i - 1)`. */
  lemma {:induction false} ComparedClosed(n: nat, i: nat)
    requires i <= n
    ensures 2 * Compared(n, i) == i * (2 * n - i - 1)
  {
    if i > 0 {
      ComparedClosed(n, i - 1);
      assert (i - 1) * (2 * n - i) == i * (2 * n - i) - (2 * n - i);
      assert i * (2 * n - i - 1) == i * (2 * n - i) - i;
    }
  }

  /** All `n` rounds make `n (n - 1) / 2` comparisons. */
  lemma ComparedAll(n: nat)
    ensures 2 * Compared(n, n) == n * (n - 1)
  {
    ComparedClosed(n, n);
    assert 2 * n - n - 1 == n - 1;
  }

  /** Before the first round nothing is recorded. */
  lemma NoRoundsNoRecords(id: nat, s: seq<int>)
    ensures CountOf(RoundsTrace(id, s, 0), Comment) == 0
    ensures CountOf(RoundsTrace(id, s, 0), Compare) == 0 == Compared(|s|, 0)
    ensures CountOf(RoundsTrace(id, s, 0), Swap) == 0
  {
    assert RoundsTrace(id, s, 0) == [];
  }

  /** The first `i` rounds record one comment each. */
  lemma {:induction false} RoundsCommentCount(id: nat, s: seq<int>, i: nat)
    requires i <= |s|
    ensures CountOf(RoundsTrace(id, s, i), Comment) == i
  {
    if i == 0 {
      NoRoundsNoRecords(id, s);
    } else {
      RoundsCommentCount(id, s, i - 1);
      RoundsSplit(id, s, i, Comment);
      RoundCommentCounts(i - 1);
      PassCommentCount(id, AfterRounds(s, i - 1), i - 1, |s|);
    }
  }

  /** The first `i` rounds compare each of their cells with every later one. */
  lemma {:induction false} RoundsCompareCount(id: nat, s: seq<int>, i: nat)
    requires i <= |s|
    ensures CountOf(RoundsTrace(id, s, i), Compare) == Compared(|s|, i)
  {
    if i == 0 {
      NoRoundsNoRecords(id, s);
    } else {
      RoundsCompareCount(id, s, i - 1);
      RoundsSplit(id, s, i, Compare);
      RoundCommentCounts(i - 1);
      PassCompareCount(id, AfterRounds(s, i - 1), i - 1, |s|);
    }
  }

  /** The first `i` rounds swap at most once per comparison. */
  lemma {:induction false} RoundsSwapCount(id: nat, s: seq<int>, i: nat)
    requires i <= |s|
    ensures CountOf(RoundsTrace(id, s, i), Swap) <= Compared(|s|, i)
  {
    if i == 0 {
      NoRoundsNoRecords(id, s);
    } else {
      RoundsSwapCount(id, s, i - 1);
      RoundsSplit(id, s, i, Swap);
      RoundCommentCounts(i - 1);
      PassSwapCount(id, AfterRounds(s, i - 1), i - 1, |s|);
    }
  }

  /** The declaration is neither a comment, a comparison nor a swap. */
  lemma DeclareCounts(xs: seq<int>)
    ensures var d := [ArrayDeclareState(0, "arr", BodyVal(1, [xs]), "This is our unsorted array")];
            CountOf(d, Comment) == 0 && CountOf(d, Compare) == 0 && CountOf(d, Swap) == 0
  {
    var x := ArrayDeclareState(0, "arr", BodyVal(1, [xs]), "This is our unsorted array");
    TypeOfMade("array_declare", ArrayDef(0, "arr", BodyVal(1, [xs]), []), "This is our unsorted array");
    CountOne(x, Comment);
    CountOne(x, Compare);
    CountOne(x, Swap);
  }

  /** Records with none of the three types in front of a log leave its counts as they are. */
  lemma PrefixCounts(d: seq<State>, t: seq<State>, n: nat)
    requires CountOf(d, Comment) == 0 && CountOf(d, Compare) == 0 && CountOf(d, Swap) == 0
    requires CountOf(t, Comment) == n && 2 * CountOf(t, Compare) == n * (n - 1)
    requires CountOf(t, Swap) <= CountOf(t, Compare)
    ensures CountOf(d + t, Comment) == n && 2 * CountOf(d + t, Compare) == n * (n - 1)
    ensures CountOf(d + t, Swap) <= CountOf(d + t, Compare)
  {
    CountOfConcat(d, t, Comment);
    CountOfConcat(d, t, Compare);
    CountOfConcat(d, t, Swap);
  }

  /**
   * After the declaration, the run records one comment per index and one
   * comparison per pair of indices, `n (n - 1) / 2` in all, and no more
   * swaps than comparisons.
   */
  lemma RunCounts(xs: seq<int>)
    ensures var log := [ArrayDeclareState(0, "arr", BodyVal(1, [xs]), "This is our unsorted array")] +
                       RoundsTrace(0, xs, |xs|);
            CountOf(log, Comment) == |xs| &&
            2 * CountOf(log, Compare) == |xs| * (|xs| - 1) &&
            CountOf(log, Swap) <= CountOf(log, Compare)
  {
    RoundsCommentCount(0, xs, |xs|);
    RoundsCompareCount(0, xs, |xs|);
    RoundsSwapCount(0, xs, |xs|);
    ComparedAll(|xs|);
    DeclareCounts(xs);
    PrefixCounts([ArrayDeclareState(0, "arr", BodyVal(1, [xs]), "This is our unsorted array")],
                 RoundsTrace(0, xs, |xs|), |xs|);
  }

  /**
   * `run(array=xs)` for a list of ints: the array is declared, then the
   * two loops run. The array is handed back beside the state set so that
   * its final contents can be stated.
   */
  method Run(xs: seq<int>) returns (algo: StateSet, arr: Array)
    ensures arr.Valid() && arr.rank == 1 && arr.algo == algo
    ensures arr.Rows() == [AfterRounds(xs, |xs|)]
    ensures algo.states ==
              [ArrayDeclareState(0, "arr", BodyVal(1, [xs]), "This is our unsorted array")] +
              RoundsTrace(0, xs, |xs|)
  {
    algo := new StateSet();
    arr := new Array("arr", algo, 1, [xs], |xs|, "This is our unsorted array");
    ghost var declared := [ArrayDeclareState(0, "arr", BodyVal(1, [xs]), "This is our unsorted array")];
    assert algo.states == declared && arr.id == 0;
    Rounds(arr, xs);
  }

  /** The outer loop `for i in range(0, len(arr))`, over the row `s` the array holds. */
  method Rounds(arr: Array, ghost s: seq<int>)
    requires arr.Valid() && arr.rank == 1 && arr.name == "arr"
    requires arr.Rows() == [s] && |s| == arr.cells.Length1
    modifies arr.cells, arr.algo`states
    ensures arr.Rows() == [AfterRounds(s, |s|)]
    ensures arr.algo.states == old(arr.algo.states) + RoundsTrace(arr.id, s, |s|)
  {
    var n := arr.cells.Length1;
    for i := 0 to n
      invariant arr.Rows() == [AfterRounds(s, i)]
      invariant arr.algo.states == old(arr.algo.states) + RoundsTrace(arr.id, s, i)
    {
      ghost var t := AfterRounds(s, i);
      arr.algo.AddComment(RoundComment(i));
      Pass(arr, t, i);
      RoundsTraceStep(arr.id, s, i);
      AppendAssoc(old(arr.algo.states), RoundsTrace(arr.id, s, i), [CommentState(RoundComment(i))]);
      AppendAssoc(old(arr.algo.states), RoundsTrace(arr.id, s, i) + [CommentState(RoundComment(i))],
                  PassTrace(arr.id, t, i, n));
    }
  }

  /** The inner loop `for j in range(i + 1, len(arr))`, over the row `s` the array holds. */
  method Pass(arr: Array, ghost s: seq<int>, i: nat)
    requires arr.Valid() && arr.rank == 1 && arr.name == "arr"
    requires arr.Rows() == [s] && |s| == arr.cells.Length1 && i < |s|
    modifies arr.cells, arr.algo`states
    ensures arr.Rows() == [AfterPass(s, i, |s|)]
    ensures arr.algo.states == old(arr.algo.states) + PassTrace(arr.id, s, i, |s|)
  {
    var n := arr.cells.Length1;
    for j := i + 1 to n
      invariant arr.Rows() == [AfterPass(s, i, j)]
      invariant arr.algo.states == old(arr.algo.states) + PassTrace(arr.id, s, i, j)
    {
      Advance(arr, s, i, j);
      PassTraceStep(arr.id, s, i, j);
      AppendAssoc(old(arr.algo.states), PassTrace(arr.id, s, i, j), StepRecords(arr.id, AfterPass(s, i, j), i, j));
    }
  }

  /** One turn of the inner loop, for cell `j`. */
  method Advance(arr: Array, ghost s: seq<int>, i: nat, j: nat)
    requires arr.Valid() && arr.rank == 1 && arr.name == "arr"
    requires |s| == arr.cells.Length1 && i < j < |s|
    requires arr.Rows() == [AfterPass(s, i, j)]
    modifies arr.cells, arr.algo`states
    ensures arr.Rows() == [AfterPass(s, i, j + 1)]
    ensures arr.algo.states == old(arr.algo.states) + StepRecords(arr.id, AfterPass(s, i, j), i, j)
  {
    ghost var t := AfterPass(s, i, j);
    CompareAndSwap(arr, t, i, j);
    assert AfterPass(s, i, j + 1) == Exchanged(t, i, j);
  }

  /** `if arr.compare(i, j, check): arr.swap(i, j)`, with their comments. */
  method CompareAndSwap(arr: Array, ghost s: seq<int>, i: nat, j: nat)
    requires arr.Valid() && arr.rank == 1 && arr.name == "arr" && i < j < arr.cells.Length1
    requires arr.Rows() == [s] && |s| == arr.cells.Length1
    modifies arr.cells, arr.algo`states
    ensures arr.Rows() == [Exchanged(s, i, j)]
    ensures arr.algo.states == old(arr.algo.states) + StepRecords(arr.id, s, i, j)
  {
    LocateFlat(arr, i);
    LocateFlat(arr, j);
    assert arr.cells[0, i] == arr.Rows()[0][i];
    assert arr.cells[0, j] == arr.Rows()[0][j];
    assert arr.Body() == BodyVal(1, [s]);
    var holds := arr.Compare(KInt(i), KInt(j), Some(Check), CompareComment(i, j));
    if Truthy(holds.value) {
      var swapped := arr.Swap(KInt(i), KInt(j), SwapComment(i, j));
      forall k | 0 <= k < arr.cells.Length1 ensures arr.cells[0, k] == Exchanged(s, i, j)[k] {
        if k != i && k != j {
          assert (0, k) != (0, i) && (0, k) != (0, j);
          assert s[k] == old(arr.cells[0, k]);
        }
      }
      RowsOfRow(arr, Exchanged(s, i, j));
    }
  }
}
