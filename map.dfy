/**
 * The Map container: a Python dict of keys to values kept twice, once as
 * given (the working dict) and once with toolkit objects replaced by their
 * reference tokens (the body that records snapshot). Lookups, writes and
 * deletions are recorded in the shared StateSet.
 */
module Maps {
  import opened Values
  import opened Text
  import opened Utils
  import opened Encoders

  /** A Python dict: its entries in insertion order. */
  type Dict = seq<(Val, Val)>

  /** `d[k]`, None when `k` is not a key. */
  function Lookup(d: Dict, k: Val): Option<Val>
  {
    if d == [] then None
    else if d[0].0 == k then Some(d[0].1)
    else Lookup(d[1..], k)
  }

  /** Every key occurs once, as in any Python dict. */
  predicate UniqueKeys(d: Dict)
  {
    d == [] || (Lookup(d[1..], d[0].0).None? && UniqueKeys(d[1..]))
  }

  /** No two entries share a key, stated position by position. */
  predicate DistinctKeys(d: Dict)
  {
    forall i, j :: 0 <= i < j < |d| ==> d[i].0 != d[j].0
  }

  /** A key no entry has is not found. */
  lemma {:induction false} LookupAbsent(d: Dict, k: Val)
    requires forall i :: 0 <= i < |d| ==> d[i].0 != k
    ensures Lookup(d, k).None?
  {
    if d != [] {
      assert forall i :: 0 <= i < |d| - 1 ==> d[1..][i] == d[i + 1];
      LookupAbsent(d[1..], k);
    }
  }

  /** With distinct keys, each entry's key finds that entry's value. */
  lemma {:induction false} LookupAt(d: Dict, i: nat)
    requires DistinctKeys(d) && i < |d|
    ensures Lookup(d, d[i].0) == Some(d[i].1)
  {
    if i > 0 {
      forall a, b | 0 <= a < b < |d| - 1 ensures d[1..][a].0 != d[1..][b].0 {
        assert d[1..][a] == d[a + 1] && d[1..][b] == d[b + 1];
      }
      assert d[1..][i - 1] == d[i];
      LookupAt(d[1..], i - 1);
    }
  }

  /** `list(d.keys())`. */
  function KeysOf(d: Dict): (r: seq<Val>)
    ensures |r| == |d| && forall i :: 0 <= i < |d| ==> r[i] == d[i].0
  {
    seq(|d|, i requires 0 <= i < |d| => d[i].0)
  }

  /** `list(d.values())`. */
  function ValuesOf(d: Dict): (r: seq<Val>)
    ensures |r| == |d| && forall i :: 0 <= i < |d| ==> r[i] == d[i].1
  {
    seq(|d|, i requires 0 <= i < |d| => d[i].1)
  }

  /** The set of keys of `d`: exactly those `Lookup` finds. */
  function KeySet(d: Dict): (r: set<Val>)
    ensures forall k :: k in r <==> Lookup(d, k).Some?
  {
    if d == [] then {} else {d[0].0} + KeySet(d[1..])
  }

  /**
   * `d[k] = v`: an existing key keeps its place and takes the new value; a
   * new key goes to the end.
   */
  function Put(d: Dict, k: Val, v: Val): (r: Dict)
    ensures Lookup(r, k) == Some(v)
    ensures forall k' :: k' != k ==> Lookup(r, k') == Lookup(d, k')
  {
    if d == [] then [(k, v)]
    else if d[0].0 == k then
      [(k, v)] + d[1..]
    else
      var t := Put(d[1..], k, v);
      assert ([d[0]] + t)[1..] == t;
      [d[0]] + t
  }

  /** A new key goes to the end. */
  lemma {:induction false} PutNew(d: Dict, k: Val, v: Val)
    requires Lookup(d, k).None?
    ensures Put(d, k, v) == d + [(k, v)]
  {
    if d != [] {
      PutNew(d[1..], k, v);
      assert d == [d[0]] + d[1..];
    }
  }

  /** An existing key keeps its place: the keys are the same, in the same order. */
  lemma PutExisting(d: Dict, k: Val, v: Val)
    requires Lookup(d, k).Some?
    ensures KeysOf(Put(d, k, v)) == KeysOf(d)
  {
    PutSameKeys(d, k, v);
    var a, b := KeysOf(Put(d, k, v)), KeysOf(d);
    forall i | 0 <= i < |a|
      ensures a[i] == b[i]
    {
    }
  }

  lemma {:induction false} PutSameKeys(d: Dict, k: Val, v: Val)
    requires Lookup(d, k).Some?
    ensures |Put(d, k, v)| == |d| && forall i :: 0 <= i < |d| ==> Put(d, k, v)[i].0 == d[i].0
  {
    if d[0].0 != k {
      PutSameKeys(d[1..], k, v);
      assert Put(d, k, v) == [d[0]] + Put(d[1..], k, v);
    }
  }

  /** A write keeps the keys distinct. */
  lemma {:induction false} PutUnique(d: Dict, k: Val, v: Val)
    requires UniqueKeys(d)
    ensures UniqueKeys(Put(d, k, v))
  {
    if d != [] && d[0].0 != k {
      PutUnique(d[1..], k, v);
      assert Put(d, k, v)[1..] == Put(d[1..], k, v);
    }
  }

  /** `del d[k]`: the entry of `k` goes, the rest keep their order. */
  function Delete(d: Dict, k: Val): (r: Dict)
    ensures forall k' :: k' != k ==> Lookup(r, k') == Lookup(d, k')
    ensures Lookup(d, k).None? ==> r == d
    ensures Lookup(d, k).Some? ==> |r| == |d| - 1
    ensures UniqueKeys(d) ==> UniqueKeys(r) && Lookup(r, k).None?
  {
    if d == [] then []
    else if d[0].0 == k then d[1..]
    else
      var t := Delete(d[1..], k);
      assert ([d[0]] + t)[1..] == t;
      [d[0]] + t
  }

  /** A dict with distinct keys has as many entries as keys. */
  lemma {:induction false} UniqueKeysCount(d: Dict)
    requires UniqueKeys(d)
    ensures |KeySet(d)| == |d|
  {
    if d != [] {
      UniqueKeysCount(d[1..]);
      assert d[0].0 !in KeySet(d[1..]);
    }
  }

  /** Keys and values a Map accepts: `(ARgorithmHashable, int, str, float, bool)`. */
  predicate ValidKey(k: Val)
  {
    IsPrimitive(k) || (k.VRef? && IsHashable(k.obj.cls))
  }

  /** `(ARgorithmStructure, int, str, float, bool)`. */
  predicate ValidValue(v: Val)
  {
    IsPrimitive(v) || (v.VRef? && IsStructure(v.obj.cls))
  }

  /** The key the body uses: a hashable toolkit object by its token. */
  function BodyKey(k: Val): Val
  {
    if k.VRef? && IsHashable(k.obj.cls) then VStr(Token(k.obj)) else k
  }

  /** The value the body holds: a toolkit structure by its token. */
  function BodyValue(v: Val): Val
  {
    if v.VRef? && IsStructure(v.obj.cls) then VStr(Token(v.obj)) else v
  }

  /** The body a working dict should have. */
  function Converted(d: Dict): (r: Dict)
    ensures |r| == |d|
  {
    if d == [] then [] else [(BodyKey(d[0].0), BodyValue(d[0].1))] + Converted(d[1..])
  }

  /** No other key of `d` has the same body key as `k`. */
  predicate NoClash(d: Dict, k: Val)
  {
    d == [] || ((d[0].0 == k || BodyKey(d[0].0) != BodyKey(k)) && NoClash(d[1..], k))
  }

  /**
   * A write keeps the body the conversion of the working dict, unless the
   * key's token collides with another key.
   */
  lemma {:induction false} PutKeepsConverted(d: Dict, k: Val, v: Val)
    requires NoClash(d, k)
    ensures Converted(Put(d, k, v)) == Put(Converted(d), BodyKey(k), BodyValue(v))
  {
    if d != [] {
      var c := Converted(d);
      assert c[0].0 == BodyKey(d[0].0) && c[1..] == Converted(d[1..]);
      if d[0].0 != k {
        PutKeepsConverted(d[1..], k, v);
        var t := Put(d[1..], k, v);
        assert ([d[0]] + t)[1..] == t;
      }
    }
  }

  /** The same for a deletion. */
  lemma {:induction false} DeleteKeepsConverted(d: Dict, k: Val)
    requires NoClash(d, k)
    ensures Converted(Delete(d, k)) == Delete(Converted(d), BodyKey(k))
  {
    if d != [] {
      var c := Converted(d);
      assert c[0].0 == BodyKey(d[0].0) && c[1..] == Converted(d[1..]);
      if d[0].0 != k {
        DeleteKeepsConverted(d[1..], k);
        var t := Delete(d[1..], k);
        assert ([d[0]] + t)[1..] == t;
      }
    }
  }

  /** Every key of `d` is of an accepted type. */
  predicate AllValidKeys(d: Dict)
  {
    d == [] || (ValidKey(d[0].0) && AllValidKeys(d[1..]))
  }

  /**
   * `set` looks `last_value` up by the raw key, but the body holds an
   * object key by its token: for an object key the recorded last value is
   * "none" whatever the key held before.
   */
  lemma {:induction false} ObjectKeyLastValueNone(d: Dict, o: Obj)
    requires AllValidKeys(d)
    ensures LastValue(Converted(d), VRef(o)) == VStr("none")
  {
    if d != [] {
      ObjectKeyLastValueNone(d[1..], o);
      var c := Converted(d);
      assert c[0].0 == BodyKey(d[0].0) && c[1..] == Converted(d[1..]);
    }
  }

  /**
   * A str key spelling an object's token and that object as a key are two
   * entries of the working dict but one of the body.
   */
  lemma TokenKeyCollides(o: Obj)
    requires IsHashable(o.cls)
    ensures var w := Put(Put([], VStr(Token(o)), VInt(1)), VRef(o), VInt(2));
            var b := Put(Put([], BodyKey(VStr(Token(o))), VInt(1)), BodyKey(VRef(o)), VInt(2));
            |w| == 2 && |b| == 1 && b != Converted(w)
  {
    var w1 := Put([], VStr(Token(o)), VInt(1));
    assert w1 == [(VStr(Token(o)), VInt(1))];
    assert Lookup(w1, VRef(o)).None?;
    var b1 := Put([], BodyKey(VStr(Token(o))), VInt(1));
    assert Lookup(b1, BodyKey(VRef(o))).Some?;
  }

  /** The type name in `unhashable type: '...'`: the innermost offender. */
  function UnhashableName(v: Val): string
    decreases v, 1
  {
    match v
    case VTuple(items) => ItemsUnhashableName(items)
    case _ => TypeName(v)
  }

  function ItemsUnhashableName(items: seq<Val>): string
    decreases items, 0
  {
    if items == [] then "tuple"
    else if !Hashable(items[0]) then UnhashableName(items[0])
    else ItemsUnhashableName(items[1..])
  }

  function InvalidKey(message: string): Error
  {
    ARgorithmError(["Invalid Key Error : " + message])
  }

  function KeyAssertion(key: Val): Error
  {
    AssertionError("Invalid key : key cannot be any type other than (ARgorithmHashable, int, str, "
                   + "float, bool), " + TypeName(key) + " is not hashable.")
  }

  const ValueAssertion := AssertionError("Invalid value : value cannot be set to any type other "
                                         + "than (ARgorithmStructure, int, str, float, bool)")

  /** `body.get(key, "none")`. */
  function LastValue(body: Dict, key: Val): Val
  {
    match Lookup(body, key)
    case Some(x) => x
    case None => VStr("none")
  }

  /** `default if default else "none"`. */
  function ShownDefault(d: Val): Val
  {
    if Truthy(d) then d else VStr("none")
  }

  function MapDef(id: nat, name: string, body: Dict, extra: seq<(Val, Val)>): Val
  {
    VDict([Field("id", VStr(NatText(id))), Field("variable_name", VStr(name)),
           Field("body", VDict(body))] + extra)
  }

  function MapDeclareState(id: nat, name: string, body: Dict, comments: string): State
  {
    MakeState("map_declare", MapDef(id, name, body, []), comments)
  }

  function MapGetState(id: nat, name: string, body: Dict, key: Val, value: Val, comments: string)
    : State
  {
    MakeState("map_get", MapDef(id, name, body, [Field("key", key), Field("value", value)]), comments)
  }

  function MapSetState(id: nat, name: string, body: Dict, key: Val, value: Val, last: Val,
                       comments: string): State
  {
    MakeState("map_set",
              MapDef(id, name, body, [Field("key", key), Field("value", value), Field("last_value", last)]),
              comments)
  }

  function MapRemoveState(id: nat, name: string, body: Dict, key: Val, value: Val, comments: string)
    : State
  {
    MakeState("map_remove", MapDef(id, name, body, [Field("key", key), Field("value", value)]), comments)
  }

  class Map {
    const name: string
    const id: nat
    const algo: StateSet
    /** The dict as the program sees it. */
    var working: Dict
    /** The dict as records show it. */
    var body: Dict

    ghost predicate Valid()
      reads this
    {
      UniqueKeys(working) && UniqueKeys(body)
    }

    /** An empty map; its declaration is recorded. */
    constructor (name: string, algo: StateSet, comments: string)
      modifies algo`states, algo`nextId
      ensures Valid() && this.name == name && this.algo == algo && working == [] && body == []
      ensures id == old(algo.nextId) && algo.nextId == id + 1
      ensures algo.states == old(algo.states) + [MapDeclareState(id, name, [], comments)]
    {
      var fid := algo.FreshId();
      this.name := name;
      this.id := fid;
      this.algo := algo;
      working := [];
      body := [];
      new;
      algo.AddState(MapDeclareState(fid, name, [], comments));
    }

    /** `len(m)`: the number of keys of the working dict. */
    function Len(): (n: nat)
      reads this`working
      ensures UniqueKeys(working) ==> n == |KeySet(working)|
    {
      if UniqueKeys(working) then UniqueKeysCount(working); |working| else |working|
    }

    /**
     * `set(key, value)`: a key or value of the wrong type fails its
     * assertion with no change; otherwise both dicts are written and the
     * write is recorded with `last_value` looked up by the raw key.
     */
    method Set(key: Val, value: Val, comments: string) returns (r: Outcome)
      requires Valid()
      modifies this`working, this`body, algo`states
      ensures Valid()
      ensures !ValidKey(key) ==>
                r == Raised(KeyAssertion(key)) && working == old(working) && body == old(body) &&
                algo.states == old(algo.states)
      ensures ValidKey(key) && !ValidValue(value) ==>
                r == Raised(ValueAssertion) && working == old(working) && body == old(body) &&
                algo.states == old(algo.states)
      ensures ValidKey(key) && ValidValue(value) ==>
                r == Done && working == Put(old(working), key, value) &&
                body == Put(old(body), BodyKey(key), BodyValue(value)) &&
                algo.states == old(algo.states) +
                  [MapSetState(id, name, body, key, value, LastValue(old(body), key), comments)]
    {
      if !ValidKey(key) {
        return Raised(KeyAssertion(key));
      }
      if !ValidValue(value) {
        return Raised(ValueAssertion);
      }
      var last := LastValue(body, key);
      PutUnique(working, key, value);
      PutUnique(body, BodyKey(key), BodyValue(value));
      working := Put(working, key, value);
      body := Put(body, BodyKey(key), BodyValue(value));
      algo.AddState(MapSetState(id, name, body, key, value, last, comments));
      return Done;
    }

    /** `m[key] = value`: `set` with empty comments. */
    method SetItem(key: Val, value: Val) returns (r: Outcome)
      requires Valid()
      modifies this`working, this`body, algo`states
      ensures Valid()
      ensures !(ValidKey(key) && ValidValue(value)) ==>
                r.Raised? && working == old(working) && body == old(body) &&
                algo.states == old(algo.states)
      ensures ValidKey(key) && ValidValue(value) ==>
                r == Done && working == Put(old(working), key, value) &&
                body == Put(old(body), BodyKey(key), BodyValue(value)) &&
                algo.states == old(algo.states) +
                  [MapSetState(id, name, body, key, value, LastValue(old(body), key), "")]
    {
      r := Set(key, value, "");
    }

    /**
     * `m[key]`: the stored value, with a `map_get` showing the body's value.
     * Every failure becomes ARgorithmError and records nothing.
     */
    method Get(key: Val) returns (r: Result<Val>)
      modifies algo`states
      ensures !Hashable(key) ==>
                r == Err(InvalidKey("unhashable type: '" + UnhashableName(key) + "'")) &&
                algo.states == old(algo.states)
      ensures Hashable(key) && Lookup(working, key).None? ==>
                r == Err(InvalidKey(Repr(key))) && algo.states == old(algo.states)
      ensures Hashable(key) && Lookup(working, key).Some? && Lookup(body, BodyKey(key)).None? ==>
                r == Err(InvalidKey(Repr(BodyKey(key)))) && algo.states == old(algo.states)
      ensures Hashable(key) && Lookup(working, key).Some? && Lookup(body, BodyKey(key)).Some? ==>
                r == Ok(Lookup(working, key).value) &&
                algo.states == old(algo.states) +
                  [MapGetState(id, name, body, key, Lookup(body, BodyKey(key)).value, "")]
    {
      if !Hashable(key) {
        return Err(InvalidKey("unhashable type: '" + UnhashableName(key) + "'"));
      }
      var v := Lookup(working, key);
      if v.None? {
        return Err(InvalidKey(Repr(key)));
      }
      var shown := Lookup(body, BodyKey(key));
      if shown.None? {
        return Err(InvalidKey(Repr(BodyKey(key))));
      }
      algo.AddState(MapGetState(id, name, body, key, shown.value, ""));
      return Ok(v.value);
    }

    /**
     * `get(key, default)`: the stored value, or `default` for a missing key
     * (recorded as "none" when it is falsy). An unhashable key raises
     * TypeError, which is not caught.
     */
    method GetDefault(key: Val, dflt: Val, comments: string) returns (r: Result<Val>)
      modifies algo`states
      ensures !Hashable(key) ==>
                r == Err(TypeError("unhashable type: '" + UnhashableName(key) + "'")) &&
                algo.states == old(algo.states)
      ensures Hashable(key) && Lookup(working, key).Some? ==>
                r == Ok(Lookup(working, key).value) &&
                algo.states == old(algo.states) +
                  [MapGetState(id, name, body, key, Lookup(working, key).value, comments)]
      ensures Hashable(key) && Lookup(working, key).None? ==>
                r == Ok(dflt) &&
                algo.states == old(algo.states) +
                  [MapGetState(id, name, body, key, ShownDefault(dflt),
                               "key not found. value efaulted to " + Str(dflt))]
    {
      if !Hashable(key) {
        return Err(TypeError("unhashable type: '" + UnhashableName(key) + "'"));
      }
      var v := Lookup(working, key);
      if v.Some? {
        algo.AddState(MapGetState(id, name, body, key, v.value, comments));
        return Ok(v.value);
      }
      algo.AddState(MapGetState(id, name, body, key, ShownDefault(dflt),
                                "key not found. value efaulted to " + Str(dflt)));
      return Ok(dflt);
    }

    /**
     * `del m[key]`: the body entry is deleted first, then the working one.
     * A key missing from the body raises with no change; a key whose body
     * entry exists but which is missing from the working dict (a token
     * collision) raises after the body entry is gone.
     */
    method DelItem(key: Val) returns (r: Outcome)
      requires Valid()
      modifies this`working, this`body, algo`states
      ensures Valid()
      ensures !Hashable(BodyKey(key)) ==>
                r == Raised(InvalidKey("unhashable type: '" + UnhashableName(key) + "'")) &&
                working == old(working) && body == old(body) && algo.states == old(algo.states)
      ensures Hashable(BodyKey(key)) && Lookup(old(body), BodyKey(key)).None? ==>
                r == Raised(InvalidKey(Repr(BodyKey(key)))) &&
                working == old(working) && body == old(body) && algo.states == old(algo.states)
      ensures Hashable(BodyKey(key)) && Lookup(old(body), BodyKey(key)).Some? ==>
                body == Delete(old(body), BodyKey(key)) && working == Delete(old(working), key)
      ensures Hashable(BodyKey(key)) && Lookup(old(body), BodyKey(key)).Some? &&
              Lookup(old(working), key).None? ==>
                r == Raised(InvalidKey(Repr(key))) && algo.states == old(algo.states)
      ensures Hashable(BodyKey(key)) && Lookup(old(body), BodyKey(key)).Some? &&
              Lookup(old(working), key).Some? ==>
                r == Done &&
                algo.states == old(algo.states) +
                  [MapRemoveState(id, name, body, key, Lookup(old(body), BodyKey(key)).value, "")]
    {
      var bk := BodyKey(key);
      if !Hashable(bk) {
        return Raised(InvalidKey("unhashable type: '" + UnhashableName(key) + "'"));
      }
      var value := Lookup(body, bk);
      if value.None? {
        return Raised(InvalidKey(Repr(bk)));
      }
      body := Delete(body, bk);
      if Lookup(working, key).None? {
        return Raised(InvalidKey(Repr(key)));
      }
      working := Delete(working, key);
      algo.AddState(MapRemoveState(id, name, body, key, value.value, ""));
      return Done;
    }

    /**
     * `remove(key)`: as `del m[key]`, but a missing key records a removal
     * of "none" instead of raising. An unhashable key raises TypeError.
     */
    method Remove(key: Val, comments: string) returns (r: Outcome)
      requires Valid()
      modifies this`working, this`body, algo`states
      ensures Valid()
      ensures !Hashable(BodyKey(key)) ==>
                r == Raised(TypeError("unhashable type: '" + UnhashableName(key) + "'")) &&
                working == old(working) && body == old(body) && algo.states == old(algo.states)
      ensures Hashable(BodyKey(key)) && Lookup(old(body), BodyKey(key)).None? ==>
                r == Done && working == old(working) && body == old(body) &&
                algo.states == old(algo.states) +
                  [MapRemoveState(id, name, body, key, VStr("none"), "key not found, nothing removed.")]
      ensures Hashable(BodyKey(key)) && Lookup(old(body), BodyKey(key)).Some? ==>
                r == Done && body == Delete(old(body), BodyKey(key)) &&
                working == Delete(old(working), key)
      ensures Hashable(BodyKey(key)) && Lookup(old(body), BodyKey(key)).Some? &&
              Lookup(old(working), key).None? ==>
                algo.states == old(algo.states) +
                  [MapRemoveState(id, name, body, key, VStr("none"), "key not found, nothing removed.")]
      ensures Hashable(BodyKey(key)) && Lookup(old(body), BodyKey(key)).Some? &&
              Lookup(old(working), key).Some? ==>
                algo.states == old(algo.states) +
                  [MapRemoveState(id, name, body, key, Lookup(old(body), BodyKey(key)).value, comments)]
    {
      var bk := BodyKey(key);
      if !Hashable(bk) {
        return Raised(TypeError("unhashable type: '" + UnhashableName(key) + "'"));
      }
      var value := Lookup(body, bk);
      if value.None? {
        algo.AddState(MapRemoveState(id, name, body, key, VStr("none"), "key not found, nothing removed."));
        return Done;
      }
      body := Delete(body, bk);
      if Lookup(working, key).None? {
        algo.AddState(MapRemoveState(id, name, body, key, VStr("none"), "key not found, nothing removed."));
        return Done;
      }
      working := Delete(working, key);
      algo.AddState(MapRemoveState(id, name, body, key, value.value, comments));
      return Done;
    }
  }

  /**
   * `Map(name, algo, comments)`: a str name and a StateSet are required, in
   * that order.
   */
  method NewMap(name: Val, algo: StateSet?, comments: string) returns (r: Result<Map>)
    modifies algo
    ensures algo != null ==> algo.autoplay == old(algo.autoplay)
    ensures !name.VStr? ==> r == Err(ARgorithmError(["Give valid name to data structure"]))
    ensures name.VStr? && algo == null ==>
              r == Err(ARgorithmError(["Map structure needs a reference of template to store states"]))
    ensures name.VStr? && algo != null ==> r.Ok?
    ensures r.Err? && algo != null ==> algo.states == old(algo.states)
    ensures r.Ok? ==>
              name.VStr? && algo != null && fresh(r.value) && r.value.Valid() &&
              r.value.name == name.s && r.value.algo == algo &&
              r.value.working == [] && r.value.body == [] &&
              algo.states == old(algo.states) + [MapDeclareState(r.value.id, name.s, [], comments)]
  {
    if !name.VStr? {
      return Err(ARgorithmError(["Give valid name to data structure"]));
    }
    if algo == null {
      return Err(ARgorithmError(["Map structure needs a reference of template to store states"]));
    }
    var m := new Map(name.s, algo, comments);
    return Ok(m);
  }

  /** The iterator over a Map: keys and values are copied when it is made. */
  class MapIterator {
    const size: nat
    const keys: seq<Val>
    const values: seq<Val>
    var index: nat

    ghost predicate Valid()
      reads this
    {
      index <= size && size == |keys| == |values|
    }

    constructor (m: Map)
      ensures Valid() && index == 0
      ensures keys == KeysOf(m.working) && values == ValuesOf(m.working) && size == |m.working|
    {
      size := |m.working|;
      keys := KeysOf(m.working);
      values := ValuesOf(m.working);
      index := 0;
    }

    /** `__next__`: the next (key, value) pair, or StopIteration (None). */
    method Next() returns (r: Option<(Val, Val)>)
      requires Valid()
      modifies this`index
      ensures Valid()
      ensures old(index) == size ==> r == None && index == old(index)
      ensures old(index) < size ==>
                r == Some((keys[old(index)], values[old(index)])) && index == old(index) + 1
    {
      if index == size {
        return None;
      }
      r := Some((keys[index], values[index]));
      index := index + 1;
    }
  }

  /** `[(k, v) for k, v in m]`: the entries in insertion order; nothing is recorded. */
  method Items(m: Map) returns (items: Dict)
    ensures items == m.working
  {
    var it := new MapIterator(m);
    items := [];
    while true
      invariant it.Valid() && it.keys == KeysOf(m.working) && it.values == ValuesOf(m.working)
      invariant items == m.working[..it.index]
      decreases it.size - it.index
    {
      var next := it.Next();
      if next.None? {
        return;
      }
      items := items + [next.value];
    }
  }

  /** Reading a key back after writing it gives the value written. */
  method ReadBackSet(m: Map, key: Val, value: Val) returns (r: Result<Val>)
    requires m.Valid() && ValidKey(key) && ValidValue(value)
    modifies m, m.algo
    ensures r == Ok(value)
  {
    var done := m.Set(key, value, "");
    r := m.Get(key);
  }

  /** After `remove(key)` of a present key, neither dict has it. */
  method RemoveDeletes(m: Map, key: Val)
    requires m.Valid() && ValidKey(key) && Lookup(m.working, key).Some? &&
             Lookup(m.body, BodyKey(key)).Some?
    modifies m, m.algo
    ensures Lookup(m.working, key).None? && Lookup(m.body, BodyKey(key)).None?
  {
    var done := m.Remove(key, "");
  }
}
