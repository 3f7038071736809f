/**
 * The schema report script: `flatten_dict`, which turns the nested dict of
 * statuses into a flat dict keyed by the joined paths, and the loop that
 * tallies the flattened statuses into the `present`, `absent` and `error`
 * buckets.
 */
module Schema {
  import opened Values
  import opened Text
  import Maps

  /** A value `flatten_dict` walks: a dict with str keys, or any other value (a leaf). */
  datatype Tree = Leaf(value: Val) | Node(entries: seq<(string, Tree)>)

  /**
   * The key an inner key `k` gets under `prefix`: no separator, and no
   * prefix, when the prefix is the empty string (which is falsy).
   */
  function Prefixed(prefix: string, sep: string, k: string): string
  {
    if prefix != "" then prefix + sep + k else k
  }

  /** The same on a dict key (the flattened dicts only ever have str keys). */
  function Rekey(prefix: string, sep: string, k: Val): Val
  {
    if k.VStr? then VStr(Prefixed(prefix, sep, k.s)) else k
  }

  /**
   * `flatten_dict(dd, separator, prefix)`: a leaf becomes the single entry
   * `{prefix: dd}`; a dict is the comprehension over its entries `kk, vv`
   * and over the entries `k, v` of `flatten_dict(vv, separator, kk)`.
   */
  function Flatten(t: Tree, sep: string, prefix: string): Maps.Dict
    decreases t, 1
  {
    match t
    case Leaf(v) => [(VStr(prefix), v)]
    case Node(_) => FlattenFrom(t, sep, prefix, 0, [])
  }

  /** The comprehension from the `i`-th entry of `t` on, storing into `acc`. */
  function FlattenFrom(t: Tree, sep: string, prefix: string, i: nat, acc: Maps.Dict): Maps.Dict
    requires t.Node? && i <= |t.entries|
    decreases t, 0, |t.entries| - i
  {
    if i == |t.entries| then acc
    else
      assert t.entries[i] in t.entries;
      var inner := Flatten(t.entries[i].1, sep, t.entries[i].0);
      FlattenFrom(t, sep, prefix, i + 1, StoreAll(acc, inner, sep, prefix))
  }

  /**
   * The inner loop of the comprehension: each entry of `inner` is stored
   * under its prefixed key, so a key met again keeps its place and takes
   * the later value.
   */
  function StoreAll(acc: Maps.Dict, inner: Maps.Dict, sep: string, prefix: string): Maps.Dict
    decreases |inner|
  {
    if inner == [] then acc
    else StoreAll(Maps.Put(acc, Rekey(prefix, sep, inner[0].0), inner[0].1), inner[1..], sep, prefix)
  }

  /** The non-dict leaves of `t` in iteration order, each with the keys leading to it. */
  function Paths(t: Tree): seq<(seq<string>, Val)>
    decreases t, 1
  {
    match t
    case Leaf(v) => [([], v)]
    case Node(_) => PathsFrom(t, 0)
  }

  function PathsFrom(t: Tree, i: nat): seq<(seq<string>, Val)>
    requires t.Node? && i <= |t.entries|
    decreases t, 0, |t.entries| - i
  {
    if i == |t.entries| then []
    else
      assert t.entries[i] in t.entries;
      Under(t.entries[i].0, Paths(t.entries[i].1)) + PathsFrom(t, i + 1)
  }

  /** The paths `ps` one level down, under the key `k`. */
  function Under(k: string, ps: seq<(seq<string>, Val)>): (r: seq<(seq<string>, Val)>)
    ensures |r| == |ps|
  {
    seq(|ps|, j requires 0 <= j < |ps| => ([k] + ps[j].0, ps[j].1))
  }

  /** The key `flatten_dict` spells for a leaf at `path` under `prefix`. */
  function Spelled(prefix: string, path: seq<string>, sep: string): string
    decreases |path|
  {
    if path == [] then prefix else Prefixed(prefix, sep, Spelled(path[0], path[1..], sep))
  }

  /** Each leaf under its spelled key, in order, with nothing overwritten. */
  function Spell(prefix: string, ps: seq<(seq<string>, Val)>, sep: string): (r: Maps.Dict)
    ensures |r| == |ps|
  {
    seq(|ps|, j requires 0 <= j < |ps| => (VStr(Spelled(prefix, ps[j].0, sep)), ps[j].1))
  }

  /** The entries of `d` with their keys prefixed. */
  function Rekeyed(prefix: string, sep: string, d: Maps.Dict): (r: Maps.Dict)
    ensures |r| == |d|
  {
    seq(|d|, j requires 0 <= j < |d| => (Rekey(prefix, sep, d[j].0), d[j].1))
  }

  lemma SpellConcat(prefix: string, a: seq<(seq<string>, Val)>, b: seq<(seq<string>, Val)>, sep: string)
    ensures Spell(prefix, a + b, sep) == Spell(prefix, a, sep) + Spell(prefix, b, sep)
  {
    assert forall j :: 0 <= j < |b| ==> (a + b)[|a| + j] == b[j];
  }

  lemma SpellUnder(prefix: string, k: string, ps: seq<(seq<string>, Val)>, sep: string)
    ensures Spell(prefix, Under(k, ps), sep) == Rekeyed(prefix, sep, Spell(k, ps, sep))
  {
    forall j | 0 <= j < |ps|
      ensures Spelled(prefix, Under(k, ps)[j].0, sep) == Prefixed(prefix, sep, Spelled(k, ps[j].0, sep))
    {
      var path := [k] + ps[j].0;
      assert path[0] == k && path[1..] == ps[j].0;
    }
  }

  /** Prefixing keys keeps distinct keys apart. */
  lemma RekeyedDistinct(prefix: string, sep: string, d: Maps.Dict)
    requires Maps.DistinctKeys(Rekeyed(prefix, sep, d))
    ensures Maps.DistinctKeys(d)
  {
    forall i, j | 0 <= i < j < |d| ensures d[i].0 != d[j].0 {
      var r := Rekeyed(prefix, sep, d);
      assert r[i].0 != r[j].0;
    }
  }

  lemma DistinctParts(a: Maps.Dict, b: Maps.Dict)
    requires Maps.DistinctKeys(a + b)
    ensures Maps.DistinctKeys(a) && Maps.DistinctKeys(b)
    ensures forall i, j :: 0 <= i < |a| && 0 <= j < |b| ==> a[i].0 != b[j].0
  {
    forall i, j | 0 <= i < j < |b| ensures b[i].0 != b[j].0 {
      assert (a + b)[|a| + i] == b[i] && (a + b)[|a| + j] == b[j];
    }
    forall i, j | 0 <= i < |a| && 0 <= j < |b| ensures a[i].0 != b[j].0 {
      assert (a + b)[i] == a[i] && (a + b)[|a| + j] == b[j];
    }
    assert forall i :: 0 <= i < |a| ==> (a + b)[i] == a[i];
  }

  /** Storing keys none of which is there yet appends the entries in order. */
  lemma {:induction false} StoreAllAppends(acc: Maps.Dict, inner: Maps.Dict, sep: string, prefix: string)
    requires Maps.DistinctKeys(acc + Rekeyed(prefix, sep, inner))
    ensures StoreAll(acc, inner, sep, prefix) == acc + Rekeyed(prefix, sep, inner)
    decreases |inner|
  {
    if inner != [] {
      var r := Rekeyed(prefix, sep, inner);
      var k := r[0].0;
      assert r == [r[0]] + Rekeyed(prefix, sep, inner[1..]);
      DistinctParts(acc, r);
      assert forall i :: 0 <= i < |acc| ==> acc[i].0 != k;
      Maps.LookupAbsent(acc, k);
      Maps.PutNew(acc, k, inner[0].1);
      assert acc + r == (acc + [r[0]]) + Rekeyed(prefix, sep, inner[1..]);
      StoreAllAppends(acc + [r[0]], inner[1..], sep, prefix);
    }
  }

  /**
   * When no two leaves spell the same key, `flatten_dict` gives each leaf
   * once, in iteration order, under the key its path spells.
   */
  lemma {:induction false} FlattenSpellsPaths(t: Tree, sep: string, prefix: string)
    requires Maps.DistinctKeys(Spell(prefix, Paths(t), sep))
    ensures Flatten(t, sep, prefix) == Spell(prefix, Paths(t), sep)
    decreases t, 1
  {
    match t
    case Leaf(v) =>
    case Node(_) =>
      assert [] + Spell(prefix, PathsFrom(t, 0), sep) == Spell(prefix, Paths(t), sep);
      FlattenFromSpells(t, sep, prefix, 0, []);
  }

  lemma {:induction false} FlattenFromSpells(t: Tree, sep: string, prefix: string, i: nat, acc: Maps.Dict)
    requires t.Node? && i <= |t.entries|
    requires Maps.DistinctKeys(acc + Spell(prefix, PathsFrom(t, i), sep))
    ensures FlattenFrom(t, sep, prefix, i, acc) == acc + Spell(prefix, PathsFrom(t, i), sep)
    decreases t, 0, |t.entries| - i
  {
    if i < |t.entries| {
      var (k, child) := t.entries[i];
      assert t.entries[i] in t.entries;
      var inner := Spell(k, Paths(child), sep);
      var here := Rekeyed(prefix, sep, inner);
      var rest := Spell(prefix, PathsFrom(t, i + 1), sep);
      SpellConcat(prefix, Under(k, Paths(child)), PathsFrom(t, i + 1), sep);
      SpellUnder(prefix, k, Paths(child), sep);
      assert Spell(prefix, PathsFrom(t, i), sep) == here + rest;
      assert acc + Spell(prefix, PathsFrom(t, i), sep) == (acc + here) + rest;
      DistinctParts(acc + here, rest);
      DistinctParts(acc, here);
      RekeyedDistinct(prefix, sep, inner);
      FlattenSpellsPaths(child, sep, k);
      StoreAllAppends(acc, inner, sep, prefix);
      FlattenFromSpells(t, sep, prefix, i + 1, acc + here);
    }
  }

  /** Joined with the separator: the key of a leaf whose path has no empty key. */
  lemma {:induction false} SpelledJoins(prefix: string, path: seq<string>, sep: string)
    requires prefix != "" && forall i :: 0 <= i < |path| ==> path[i] != ""
    ensures Spelled(prefix, path, sep) == Join([prefix] + path, sep)
    decreases |path|
  {
    if path != [] {
      SpelledJoins(path[0], path[1..], sep);
      assert [path[0]] + path[1..] == path;
      assert ([prefix] + path)[1..] == path;
    }
  }

  /**
   * At top level (an empty prefix) a path of non-empty keys is spelled as
   * its keys joined by the separator, with no leading separator.
   */
  lemma TopLevelKeys(path: seq<string>, sep: string)
    requires forall i :: 0 <= i < |path| ==> path[i] != ""
    ensures Spelled("", path, sep) == Join(path, sep)
  {
    if path != [] {
      SpelledJoins(path[0], path[1..], sep);
      assert [path[0]] + path[1..] == path;
    }
  }

  /**
   * The number of entries is the number of non-dict leaves when no two
   * leaves spell the same key; a dict with no entries contributes none.
   */
  lemma FlattenCountsLeaves(t: Tree, sep: string)
    requires Maps.DistinctKeys(Spell("", Paths(t), sep))
    ensures |Flatten(t, sep, "")| == |Paths(t)|
    ensures Paths(Node([])) == [] && Flatten(Node([]), sep, "") == []
  {
    FlattenSpellsPaths(t, sep, "");
  }

  /**
   * Two leaves can spell the same key: the entry keeps the place of the
   * first and the value of the last, so one leaf is lost.
   */
  lemma KeyCollision()
    ensures var t := Node([("a_b", Leaf(VInt(1))), ("a", Node([("b", Leaf(VInt(2)))]))]);
            |Paths(t)| == 2 && Flatten(t, "_", "") == [(VStr("a_b"), VInt(2))]
  {
    var t := Node([("a_b", Leaf(VInt(1))), ("a", Node([("b", Leaf(VInt(2)))]))]);
    var inner := Node([("b", Leaf(VInt(2)))]);
    assert Rekey("a", "_", VStr("b")) == VStr("a_b");
    assert StoreAll([], [(VStr("b"), VInt(2))], "_", "a") == [(VStr("a_b"), VInt(2))];
    assert FlattenFrom(inner, "_", "a", 1, [(VStr("a_b"), VInt(2))]) == [(VStr("a_b"), VInt(2))];
    assert Flatten(inner, "_", "a") == [(VStr("a_b"), VInt(2))];
    var first := StoreAll([], [(VStr("a_b"), VInt(1))], "_", "");
    assert first == [(VStr("a_b"), VInt(1))];
    assert StoreAll(first, [(VStr("a_b"), VInt(2))], "_", "") == [(VStr("a_b"), VInt(2))];
    assert FlattenFrom(t, "_", "", 2, [(VStr("a_b"), VInt(2))]) == [(VStr("a_b"), VInt(2))];
    assert FlattenFrom(t, "_", "", 1, first) == [(VStr("a_b"), VInt(2))];
    assert Paths(inner) == Under("b", [([], VInt(2))]);
  }

  /** A leaf at top level is the single entry `{prefix: value}`. */
  lemma FlattenLeaf(v: Val, sep: string, prefix: string)
    ensures Flatten(Leaf(v), sep, prefix) == [(VStr(prefix), v)]
    ensures Spell(prefix, Paths(Leaf(v)), sep) == Flatten(Leaf(v), sep, prefix)
  {
  }

  /** The statuses a flattened entry may carry: each names one bucket. */
  predicate IsBucket(status: Val)
  {
    status == VStr("present") || status == VStr("absent") || status == VStr("error")
  }

  /** The `count` dict after the loop: the total and the three buckets of keys. */
  datatype Counts = Counts(total: nat, present: seq<Val>, absent: seq<Val>, error: seq<Val>)

  /**
   * What `count[status].append(f)` raises for a status that names no
   * bucket: an unhashable status is no key, "total" names an int, and any
   * other status is missing.
   */
  function StatusError(status: Val): Error
  {
    if !Hashable(status) then TypeError("unhashable type: '" + Maps.UnhashableName(status) + "'")
    else if status == VStr("total") then AttributeError("'int' object has no attribute 'append'")
    else KeyError(status)
  }

  /** The keys, in order, whose status is `status`. */
  function KeysWith(flat: Maps.Dict, status: string): (r: seq<Val>)
    ensures |r| <= |flat|
  {
    if flat == [] then []
    else KeysWith(flat[..|flat| - 1], status) +
         (if flat[|flat| - 1].1 == VStr(status) then [flat[|flat| - 1].0] else [])
  }

  /** The position of the first entry whose status names no bucket, or the length. */
  function FirstStray(flat: Maps.Dict): (r: nat)
    ensures r <= |flat|
    ensures forall i :: 0 <= i < r ==> IsBucket(flat[i].1)
    ensures r < |flat| ==> !IsBucket(flat[r].1)
  {
    if flat == [] then 0
    else if !IsBucket(flat[0].1) then 0
    else
      assert forall i :: 1 <= i < |flat| ==> flat[i] == flat[1..][i - 1];
      1 + FirstStray(flat[1..])
  }

  /**
   * The result of the tally: the total and the buckets when every status
   * names one, otherwise the error of the first that does not.
   */
  function Tallied(flat: Maps.Dict): Result<Counts>
  {
    var s := FirstStray(flat);
    if s == |flat| then
      Ok(Counts(|flat|, KeysWith(flat, "present"), KeysWith(flat, "absent"), KeysWith(flat, "error")))
    else Err(StatusError(flat[s].1))
  }

  /**
   * The loop of the script over the flattened statuses: the total goes up
   * by one and the key joins the bucket its status names.
   */
  method CountStatuses(flat: Maps.Dict) returns (r: Result<Counts>)
    ensures r == Tallied(flat)
  {
    var total := 0;
    var present, absent, error := [], [], [];
    for k := 0 to |flat|
      invariant total == k
      invariant forall i :: 0 <= i < k ==> IsBucket(flat[i].1)
      invariant present == KeysWith(flat[..k], "present")
      invariant absent == KeysWith(flat[..k], "absent")
      invariant error == KeysWith(flat[..k], "error")
    {
      assert flat[..k + 1][..k] == flat[..k];
      var (f, status) := flat[k];
      total := total + 1;
      if status == VStr("present") {
        present := present + [f];
      } else if status == VStr("absent") {
        absent := absent + [f];
      } else if status == VStr("error") {
        error := error + [f];
      } else {
        return Err(StatusError(status));
      }
    }
    assert flat[..|flat|] == flat;
    return Ok(Counts(total, present, absent, error));
  }

  /** Every entry lands in exactly one bucket when every status names one. */
  lemma {:induction false} BucketsPartition(flat: Maps.Dict)
    requires forall i :: 0 <= i < |flat| ==> IsBucket(flat[i].1)
    ensures |KeysWith(flat, "present")| + |KeysWith(flat, "absent")| + |KeysWith(flat, "error")| == |flat|
  {
    if flat != [] {
      var init := flat[..|flat| - 1];
      assert forall i :: 0 <= i < |init| ==> init[i] == flat[i];
      BucketsPartition(init);
    }
  }

  /**
   * The tally succeeds exactly when every status names a bucket; then the
   * total is the number of entries and the buckets split the entries.
   */
  lemma TalliedCounts(flat: Maps.Dict)
    ensures Tallied(flat).Ok? <==> forall i :: 0 <= i < |flat| ==> IsBucket(flat[i].1)
    ensures Tallied(flat).Ok? ==>
              var c := Tallied(flat).value;
              c.total == |flat| && |c.present| + |c.absent| + |c.error| == c.total
  {
    if FirstStray(flat) == |flat| {
      BucketsPartition(flat);
    }
  }

  /** A key lands in the bucket of its own status. */
  lemma {:induction false} KeysWithMembers(flat: Maps.Dict, status: string, i: nat)
    requires i < |flat| && flat[i].1 == VStr(status)
    ensures flat[i].0 in KeysWith(flat, status)
  {
    if i < |flat| - 1 {
      var init := flat[..|flat| - 1];
      assert init[i] == flat[i];
      KeysWithMembers(init, status, i);
    }
  }
}
