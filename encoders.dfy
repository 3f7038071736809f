/**
 * How toolkit objects nested inside records are written out: the reference
 * token that `serialize` gives a class as its `to_json`, and the type
 * dispatch of `StateEncoder.default`.
 */
module Encoders {
  import opened Values
  import opened Text

  const TokenPrefix := "$ARgorithmToolkit."

  /** The reference string `to_json` returns for an object. */
  function Token(o: Obj): string
  {
    TokenPrefix + ClassName(o.cls) + ":" + NatText(o.id)
  }

  /**
   * `o.to_json()`: only classes decorated with `serialize` have the method;
   * on the others the lookup fails.
   */
  function ToJson(o: Obj): (r: Result<string>)
    ensures r.Ok? <==> Serializable(o.cls)
    ensures r.Ok? ==> ParseToken(r.value) == Some(o)
  {
    TokenRoundTrip(o);
    if Serializable(o.cls) then Ok(Token(o))
    else Err(AttributeError("'" + ClassName(o.cls) + "' object has no attribute 'to_json'"))
  }

  /** The class whose name is `name`. */
  function ClassOf(name: string): Option<Cls>
  {
    if name == "Stack" then Some(StackClass)
    else if name == "Queue" then Some(QueueClass)
    else if name == "PriorityQueue" then Some(PriorityQueueClass)
    else if name == "Vector" then Some(VectorClass)
    else if name == "Array" then Some(ArrayClass)
    else if name == "String" then Some(StringClass)
    else if name == "Map" then Some(MapClass)
    else if name == "Set" then Some(SetClass)
    else if name == "DoublyLinkedListNode" then Some(NodeClass)
    else if name == "DoublyLinkedList" then Some(DllClass)
    else if name == "List" then Some(ListClass)
    else if name == "StateSet" then Some(StateSetClass)
    else None
  }

  /** The index of the first ':' in `s`. */
  function FirstColon(s: string): (r: Option<nat>)
    ensures r.Some? ==> r.value < |s| && s[r.value] == ':'
  {
    if s == [] then None
    else if s[0] == ':' then Some(0)
    else match FirstColon(s[1..])
      case None => None
      case Some(k) => Some(k + 1)
  }

  /**
   * Reads a token back, as a client of the JSON does: the prefix, the class
   * name up to the first ':', then the decimal identity.
   */
  function ParseToken(t: string): Option<Obj>
  {
    if |t| < |TokenPrefix| || t[..|TokenPrefix|] != TokenPrefix then None
    else
      var rest := t[|TokenPrefix|..];
      match FirstColon(rest)
      case None => None
      case Some(c) =>
        var digits := rest[c + 1..];
        if digits == [] || !AllDigits(digits) then None
        else match ClassOf(rest[..c])
          case None => None
          case Some(cls) => Some(Obj(cls, DigitsValue(digits)))
  }

  lemma ClassOfName(c: Cls)
    ensures ClassOf(ClassName(c)) == Some(c)
    ensures forall i :: 0 <= i < |ClassName(c)| ==> ClassName(c)[i] != ':'
  {
  }

  lemma {:induction false} FirstColonAfter(a: string, b: string)
    requires forall i :: 0 <= i < |a| ==> a[i] != ':'
    ensures FirstColon(a + ":" + b) == Some(|a|)
    decreases |a|
  {
    if a != [] {
      assert (a + ":" + b)[1..] == a[1..] + ":" + b;
      FirstColonAfter(a[1..], b);
    } else {
      assert (a + ":" + b)[0] == ':';
    }
  }

  /**
   * A token names its object exactly: reading it back gives the class and
   * identity it was made from.
   */
  lemma TokenRoundTrip(o: Obj)
    ensures ParseToken(Token(o)) == Some(o)
  {
    var name := ClassName(o.cls);
    var digits := NatText(o.id);
    var t := Token(o);
    assert t[..|TokenPrefix|] == TokenPrefix;
    var rest := t[|TokenPrefix|..];
    assert rest == name + ":" + digits;
    ClassOfName(o.cls);
    FirstColonAfter(name, digits);
    assert rest[..|name|] == name;
    assert rest[|name| + 1..] == digits;
    NatTextRoundTrip(o.id);
  }

  /** Distinct objects never share a token. */
  lemma TokenInjective(a: Obj, b: Obj)
    ensures Token(a) == Token(b) ==> a == b
  {
    TokenRoundTrip(a);
    TokenRoundTrip(b);
  }

  /** The objects `json.dumps` cannot encode itself and hands to `default`. */
  datatype Unencoded =
    | Toolkit(obj: Obj)
    | NumpyInt(i: int)
    | NumpyFloat(r: real)
    | NumpyComplex(re: real, im: real)
    | NumpyArray(rows: seq<Val>)
    | NumpyBool(b: bool)
    | NumpyVoid
    | Foreign(typeName: string)

  /**
   * The classes `inspect.getmembers(ARgorithmToolkit, inspect.isclass)`
   * finds: those the package's `__init__` star-imports by name, and, since
   * the modules re-export the `ARgorithmStructure` they import, every
   * subclass of it through `isinstance`.
   */
  predicate InPackage(c: Cls)
  {
    c in {StackClass, QueueClass, PriorityQueueClass, VectorClass, ArrayClass,
          StringClass, StateSetClass} || IsStructure(c)
  }

  function NotSerializable(typeName: string): Error
  {
    TypeError("Object of type " + typeName + " is not JSON serializable")
  }

  /** `StateEncoder.default(o)`. */
  function Default(o: Unencoded): (r: Result<Val>)
    ensures r.Err? <==>
              (o.Toolkit? && !(InPackage(o.obj.cls) && Serializable(o.obj.cls))) || o.Foreign?
    ensures o.Toolkit? ==> (r.Ok? <==> Serializable(o.obj.cls))
    ensures o.Toolkit? && r.Ok? ==> r.value.VStr? && ParseToken(r.value.s) == Some(o.obj)
    ensures o.Toolkit? && InPackage(o.obj.cls) && !Serializable(o.obj.cls) ==>
              r == Err(TypeError("Unserializable ARgorithm class"))
    ensures o.NumpyInt? ==> r == Ok(VInt(o.i))
    ensures o.NumpyFloat? ==> r == Ok(VFloat(o.r))
    ensures o.NumpyComplex? ==>
              r.Ok? && r.value.VDict? && |r.value.entries| == 2 &&
              r.value.entries[0] == (VStr("real"), VFloat(o.re)) &&
              r.value.entries[1] == (VStr("imag"), VFloat(o.im))
    ensures o.NumpyArray? ==> r == Ok(VList(o.rows))
    ensures o.NumpyBool? ==> r == Ok(VBool(o.b))
    ensures o.NumpyVoid? ==> r == Ok(VNone)
    ensures o.Foreign? ==> r == Err(NotSerializable(o.typeName))
  {
    match o
    case Toolkit(obj) =>
      if InPackage(obj.cls) then
        match ToJson(obj)
        case Ok(t) => Ok(VStr(t))
        case Err(_) => Err(TypeError("Unserializable ARgorithm class"))
      else Err(NotSerializable(ClassName(obj.cls)))
    case NumpyInt(i) => Ok(VInt(i))
    case NumpyFloat(x) => Ok(VFloat(x))
    case NumpyComplex(re, im) => Ok(VDict([Field("real", VFloat(re)), Field("imag", VFloat(im))]))
    case NumpyArray(rows) => Ok(VList(rows))
    case NumpyBool(b) => Ok(VBool(b))
    case NumpyVoid => Ok(VNone)
    case Foreign(t) => Err(NotSerializable(t))
  }
}
