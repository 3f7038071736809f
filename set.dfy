/**
 * The Set container: a Python set kept twice, once as given (the working
 * set) and once with hashable toolkit objects replaced by their reference
 * tokens (the body that records snapshot). Additions, removals and lookups
 * are recorded; union, intersection and difference declare new Sets.
 */
module Sets {
  import opened Values
  import opened Text
  import opened Utils
  import Maps

  /** The keys the body holds for `keys`. */
  function Image(keys: set<Val>): (r: set<Val>)
    ensures forall k :: k in keys ==> Maps.BodyKey(k) in r
  {
    set k | k in keys :: Maps.BodyKey(k)
  }

  /** Elements a Set accepts. */
  predicate AllValid(keys: set<Val>)
  {
    forall k :: k in keys ==> Maps.ValidKey(k)
  }

  const InvalidElement :=
    TypeError("Invalid key error : Please provide data with ARgorithmHashable type or (int, float, bool, str)")

  /** The elements `for x in data` visits, as a set. */
  function Elements(data: Val): (r: Result<set<Val>>)
    requires !data.VRef?
    ensures r.Ok? <==> data.VList? || data.VTuple? || data.VSet? || data.VStr? || data.VDict?
  {
    match data
    case VList(items) => Ok(set i | 0 <= i < |items| :: items[i])
    case VTuple(items) => Ok(set i | 0 <= i < |items| :: items[i])
    case VSet(elems) => Ok(elems)
    case VStr(s) => Ok(set i | 0 <= i < |s| :: VStr([s[i]]))
    case VDict(entries) => Ok(set i | 0 <= i < |entries| :: entries[i].0)
    case _ => Err(TypeError("'" + TypeName(data) + "' object is not iterable"))
  }

  /**
   * The contents `Set(..., data)` starts with: nothing for falsy data,
   * otherwise every element, each of which must be accepted.
   */
  function SetData(data: Val): (r: Result<set<Val>>)
    requires !data.VRef?
    ensures r.Ok? ==> AllValid(r.value)
    ensures r.Ok? && Truthy(data) ==> r == Elements(data)
    ensures !Truthy(data) ==> r == Ok({})
    ensures Truthy(data) && Elements(data).Ok? && !AllValid(Elements(data).value) ==>
              r == Err(InvalidElement)
  {
    if !Truthy(data) then Ok({})
    else match Elements(data)
      case Err(e) => Err(e)
      case Ok(elems) => if AllValid(elems) then Ok(elems) else Err(InvalidElement)
  }

  function SetDeclareState(id: nat, name: string, body: set<Val>, comments: string): State
  {
    MakeState("set_declare",
              VDict([Field("id", VStr(NatText(id))), Field("variable_name", VStr(name)),
                     Field("body", VSet(body))]), comments)
  }

  function SetAddState(id: nat, name: string, body: set<Val>, key: Val, comments: string): State
  {
    MakeState("set_add",
              VDict([Field("id", VStr(NatText(id))), Field("variable_name", VStr(name)),
                     Field("key", key), Field("body", VSet(body))]), comments)
  }

  function SetRemoveState(id: nat, name: string, body: set<Val>, key: Val, comments: string): State
  {
    MakeState("set_remove",
              VDict([Field("id", VStr(NatText(id))), Field("variable_name", VStr(name)),
                     Field("body", VSet(body)), Field("key", key)]), comments)
  }

  function SetFindState(id: nat, name: string, body: set<Val>, key: Val, found: bool, comments: string)
    : State
  {
    MakeState("set_find",
              VDict([Field("id", VStr(NatText(id))), Field("variable_name", VStr(name)),
                     Field("key", key), Field("found", VBool(found)), Field("body", VSet(body))]),
              comments)
  }

  function InvalidKey(message: string): Error
  {
    ARgorithmError(["Invalid Key Error : " + message])
  }

  /** The comment a set operation uses when it is given none. */
  function OperationComment(comments: string, op: string, a: string, b: string): string
  {
    if comments != "" then comments else "Creating new set with " + op + " of " + a + " and " + b
  }

  class Set {
    const name: string
    const id: nat
    const algo: StateSet
    /** The set as the program sees it. */
    var working: set<Val>
    /** The set as records show it. */
    var body: set<Val>

    /**
     * Every element is of an accepted type and every body key stands for
     * an element. (The body may lack a key when a str element spells the
     * token of an object element that was removed.)
     */
    ghost predicate Valid()
      reads this
    {
      AllValid(working) && body <= Image(working)
    }

    /** A set holding `elems`, which are all accepted; the declaration is recorded. */
    constructor (name: string, algo: StateSet, elems: set<Val>, comments: string)
      requires AllValid(elems)
      modifies algo`states, algo`nextId
      ensures Valid() && this.name == name && this.algo == algo
      ensures working == elems && body == Image(elems)
      ensures id == old(algo.nextId) && algo.nextId == id + 1
      ensures algo.states == old(algo.states) + [SetDeclareState(id, name, Image(elems), comments)]
    {
      var fid := algo.FreshId();
      this.name := name;
      this.id := fid;
      this.algo := algo;
      working := elems;
      body := Image(elems);
      new;
      algo.AddState(SetDeclareState(fid, name, Image(elems), comments));
    }

    /** `len(s)`. */
    function Len(): nat
      reads this`working
    {
      |working|
    }

    /**
     * `add(key)`: a key of the wrong type raises TypeError with no change;
     * otherwise the key joins both sets and the addition is recorded, even
     * when it was already present.
     */
    method Add(key: Val, comments: string) returns (r: Outcome)
      requires Valid()
      modifies this`working, this`body, algo`states
      ensures Valid()
      ensures !Maps.ValidKey(key) ==>
                r == Raised(InvalidElement) && working == old(working) && body == old(body) &&
                algo.states == old(algo.states)
      ensures Maps.ValidKey(key) ==>
                r == Done && working == old(working) + {key} &&
                body == old(body) + {Maps.BodyKey(key)} &&
                algo.states == old(algo.states) + [SetAddState(id, name, body, key, comments)]
    {
      if !Maps.ValidKey(key) {
        return Raised(InvalidElement);
      }
      body := body + {Maps.BodyKey(key)};
      working := working + {key};
      algo.AddState(SetAddState(id, name, body, key, comments));
      return Done;
    }

    /**
     * `remove(key)`: the body key goes first, then the element. A key
     * missing from the body raises with no change; a key whose body entry
     * exists but which is not an element raises after the body entry is
     * gone. A Python set as key is retried as a frozenset, which is never an
     * element, so it raises KeyError for the set itself. Every failure
     * becomes ARgorithmError.
     */
    method Remove(key: Val, comments: string) returns (r: Outcome)
      requires Valid()
      modifies this`working, this`body, algo`states
      ensures Valid()
      ensures key.VSet? ==>
                r == Raised(InvalidKey(Repr(key))) &&
                working == old(working) && body == old(body) && algo.states == old(algo.states)
      ensures var bk := Maps.BodyKey(key);
              !Hashable(bk) && !key.VSet? ==>
                r == Raised(InvalidKey("unhashable type: '" + Maps.UnhashableName(key) + "'")) &&
                working == old(working) && body == old(body) && algo.states == old(algo.states)
      ensures var bk := Maps.BodyKey(key);
              Hashable(bk) && bk !in old(body) ==>
                r == Raised(InvalidKey(Repr(bk))) &&
                working == old(working) && body == old(body) && algo.states == old(algo.states)
      ensures var bk := Maps.BodyKey(key);
              Hashable(bk) && bk in old(body) ==>
                body == old(body) - {bk} && working == old(working) - {key}
      ensures var bk := Maps.BodyKey(key);
              Hashable(bk) && bk in old(body) && key !in old(working) ==>
                r == Raised(InvalidKey(Repr(key))) && algo.states == old(algo.states)
      ensures var bk := Maps.BodyKey(key);
              Hashable(bk) && bk in old(body) && key in old(working) ==>
                r == Done && algo.states == old(algo.states) + [SetRemoveState(id, name, body, key, comments)]
    {
      var bk := Maps.BodyKey(key);
      if key.VSet? {
        return Raised(InvalidKey(Repr(key)));
      }
      if !Hashable(bk) {
        return Raised(InvalidKey("unhashable type: '" + Maps.UnhashableName(key) + "'"));
      }
      if bk !in body {
        return Raised(InvalidKey(Repr(bk)));
      }
      body := body - {bk};
      if key !in working {
        return Raised(InvalidKey(Repr(key)));
      }
      working := working - {key};
      algo.AddState(SetRemoveState(id, name, body, key, comments));
      return Done;
    }

    /**
     * `find(key)`: membership in the working set, recorded. A Python set as
     * key is retried as a frozenset, which is never an element, so it is
     * recorded as not found; any other unhashable key raises TypeError, which
     * is not caught.
     */
    method Find(key: Val, comments: string) returns (r: Result<bool>)
      modifies algo`states
      ensures key.VSet? ==>
                r == Ok(false) &&
                algo.states == old(algo.states) + [SetFindState(id, name, body, key, false, comments)]
      ensures !Hashable(key) && !key.VSet? ==>
                r == Err(TypeError("unhashable type: '" + Maps.UnhashableName(key) + "'")) &&
                algo.states == old(algo.states)
      ensures Hashable(key) ==>
                r == Ok(key in working) &&
                algo.states == old(algo.states) + [SetFindState(id, name, body, key, key in working, comments)]
    {
      if key.VSet? {
        algo.AddState(SetFindState(id, name, body, key, false, comments));
        return Ok(false);
      }
      if !Hashable(key) {
        return Err(TypeError("unhashable type: '" + Maps.UnhashableName(key) + "'"));
      }
      var found := key in working;
      algo.AddState(SetFindState(id, name, body, key, found, comments));
      return Ok(found);
    }

    /** `intersection(other)`: a new `<a>_intersection_<b>`; both operands are unchanged. */
    method Intersection(other: Set, comments: string) returns (r: Set)
      requires Valid() && other.Valid()
      modifies algo`states, algo`nextId
      ensures fresh(r) && r.Valid() && r.algo == algo && r.name == name + "_intersection_" + other.name
      ensures r.working == working * other.working && r.body == Image(r.working)
      ensures algo.states == old(algo.states) +
                [SetDeclareState(r.id, r.name, r.body,
                                 OperationComment(comments, "intersection", name, other.name))]
    {
      r := new Set(name + "_intersection_" + other.name, algo, working * other.working,
                   OperationComment(comments, "intersection", name, other.name));
    }

    /** `union(other)`: a new `<a>_union_<b>`; both operands are unchanged. */
    method Union(other: Set, comments: string) returns (r: Set)
      requires Valid() && other.Valid()
      modifies algo`states, algo`nextId
      ensures fresh(r) && r.Valid() && r.algo == algo && r.name == name + "_union_" + other.name
      ensures r.working == working + other.working && r.body == Image(r.working)
      ensures algo.states == old(algo.states) +
                [SetDeclareState(r.id, r.name, r.body, OperationComment(comments, "union", name, other.name))]
    {
      r := new Set(name + "_union_" + other.name, algo, working + other.working,
                   OperationComment(comments, "union", name, other.name));
    }

    /** `difference(other)`: a new `<a>_difference_<b>`; both operands are unchanged. */
    method Difference(other: Set, comments: string) returns (r: Set)
      requires Valid() && other.Valid()
      modifies algo`states, algo`nextId
      ensures fresh(r) && r.Valid() && r.algo == algo && r.name == name + "_difference_" + other.name
      ensures r.working == working - other.working && r.body == Image(r.working)
      ensures algo.states == old(algo.states) +
                [SetDeclareState(r.id, r.name, r.body,
                                 OperationComment(comments, "difference", name, other.name))]
    {
      r := new Set(name + "_difference_" + other.name, algo, working - other.working,
                   OperationComment(comments, "difference", name, other.name));
    }
  }

  /**
   * `Set(name, algo, data, comments)`: a str name, a StateSet, then data
   * whose elements are all accepted; nothing is recorded on failure.
   */
  method NewSet(name: Val, algo: StateSet?, data: Val, comments: string) returns (r: Result<Set>)
    requires !data.VRef?
    modifies algo
    ensures algo != null ==> algo.autoplay == old(algo.autoplay)
    ensures !name.VStr? ==> r == Err(ARgorithmError(["Give valid name to data structure"]))
    ensures name.VStr? && algo == null ==>
              r == Err(ARgorithmError(["Set structure needs a reference of template to store states"]))
    ensures name.VStr? && algo != null && SetData(data).Err? ==> r == Err(SetData(data).error)
    ensures name.VStr? && algo != null && SetData(data).Ok? ==> r.Ok?
    ensures r.Err? && algo != null ==> algo.states == old(algo.states)
    ensures r.Ok? ==>
              name.VStr? && algo != null && SetData(data).Ok? && fresh(r.value) && r.value.Valid() &&
              r.value.name == name.s && r.value.algo == algo &&
              r.value.working == SetData(data).value && r.value.body == Image(r.value.working) &&
              algo.states == old(algo.states) +
                [SetDeclareState(r.value.id, name.s, r.value.body, comments)]
  {
    if !name.VStr? {
      return Err(ARgorithmError(["Give valid name to data structure"]));
    }
    if algo == null {
      return Err(ARgorithmError(["Set structure needs a reference of template to store states"]));
    }
    match SetData(data)
    case Err(e) =>
      return Err(e);
    case Ok(elems) =>
      var s := new Set(name.s, algo, elems, comments);
      return Ok(s);
  }

  /** The body of a union is the union of the bodies. */
  lemma ImageUnion(a: set<Val>, b: set<Val>)
    ensures Image(a + b) == Image(a) + Image(b)
  {
    forall y | y in Image(a + b) ensures y in Image(a) + Image(b) {
      var k :| k in a + b && Maps.BodyKey(k) == y;
    }
  }

  /**
   * Without a str element spelling another element's token, the body of an
   * intersection is the intersection of the bodies.
   */
  lemma ImageIntersection(a: set<Val>, b: set<Val>)
    requires forall x, y :: x in a && y in b && Maps.BodyKey(x) == Maps.BodyKey(y) ==> x == y
    ensures Image(a * b) == Image(a) * Image(b)
  {
    forall y | y in Image(a) * Image(b) ensures y in Image(a * b) {
      var x1 :| x1 in a && Maps.BodyKey(x1) == y;
      var x2 :| x2 in b && Maps.BodyKey(x2) == y;
      assert x1 == x2;
    }
  }

  /** After `add(key)` of an accepted key, `find(key)` holds. */
  method AddThenFind(s: Set, key: Val) returns (found: Result<bool>)
    requires s.Valid() && Maps.ValidKey(key)
    modifies s, s.algo
    ensures found == Ok(true)
  {
    var done := s.Add(key, "");
    found := s.Find(key, "");
  }

  /** Adding a key counts it once: the size grows only if it was absent. */
  method AddCountsOnce(s: Set, key: Val)
    requires s.Valid() && Maps.ValidKey(key)
    modifies s, s.algo
    ensures s.Len() == old(s.Len()) + (if key in old(s.working) then 0 else 1)
  {
    ghost var before := s.working;
    var done := s.Add(key, "");
    if key in before {
      assert s.working == before;
    }
  }

  /** After a successful `remove(key)`, `find(key)` does not hold. */
  method RemoveThenFind(s: Set, key: Val) returns (found: Result<bool>)
    requires s.Valid() && key in s.working && Maps.BodyKey(key) in s.body
    modifies s, s.algo
    ensures found == Ok(false)
  {
    assert Maps.ValidKey(key);
    var done := s.Remove(key, "");
    found := s.Find(key, "");
  }
}
