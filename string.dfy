/**
 * The String container: an immutable-looking str that can only grow by
 * appending; reads of single characters are recorded, slices and `+` make
 * new String objects.
 */
module Strings {
  import opened Values
  import opened Text
  import opened Utils

  function StringDeclareState(name: string, body: string, comments: string): State
  {
    MakeState("string_declare",
              VDict([Field("variable_name", VStr(name)), Field("body", VStr(body))]), comments)
  }

  /** A read of `index`; its comment is always generated from the index. */
  function StringIterState(name: string, body: string, index: int): State
  {
    MakeState("string_iter",
              VDict([Field("variable_name", VStr(name)), Field("body", VStr(body)),
                     Field("index", VInt(index))]),
              "accessing character at " + IntText(index))
  }

  function StringAppendState(name: string, body: string, element: string, comments: string): State
  {
    MakeState("string_append",
              VDict([Field("variable_name", VStr(name)), Field("body", VStr(body)),
                     Field("element", VStr(element))]), comments)
  }

  function ConcatError(v: Val): Error
  {
    TypeError("can only concatenate str (not \"" + TypeName(v) + "\") to str")
  }

  const NoItemAssignment := TypeError("'String' object does not support item assignment")

  class String {
    const name: string
    const algo: StateSet
    var body: string

    /** A new string holding `body`; its declaration is recorded. */
    constructor (name: string, algo: StateSet, body: string, comments: string)
      modifies algo`states
      ensures this.name == name && this.algo == algo && this.body == body
      ensures algo.states == old(algo.states) + [StringDeclareState(name, body, comments)]
    {
      this.name := name;
      this.algo := algo;
      this.body := body;
      new;
      algo.AddState(StringDeclareState(name, body, comments));
    }

    function Len(): nat
      reads this`body
    {
      |body|
    }

    /**
     * `s[k]` for an int `k`: the read is recorded first, then the character
     * is returned, or IndexError raised when `k` is out of range either way.
     */
    method Get(k: int) returns (r: Result<char>)
      modifies algo`states
      ensures algo.states == old(algo.states) + [StringIterState(name, body, k)]
      ensures -(|body| as int) <= k < 0 ==> r == Ok(body[|body| + k])
      ensures 0 <= k < |body| ==> r == Ok(body[k])
      ensures !(-(|body| as int) <= k < |body|) ==> r == Err(IndexError("string index out of range"))
    {
      algo.AddState(StringIterState(name, body, k));
      match PyIndex(k, |body|)
      case None => return Err(IndexError("string index out of range"));
      case Some(j) => return Ok(body[j]);
    }

    /** `s[lo:hi]`: a new `<name>_sub` String over the slice; this one is unchanged. */
    method Slice(lo: Option<int>, hi: Option<int>) returns (r: String)
      modifies algo`states
      ensures fresh(r) && r.name == name + "_sub" && r.algo == algo
      ensures r.body == PySlice(body, lo, hi)
      ensures algo.states == old(algo.states) +
                [StringDeclareState(r.name, r.body, "creating new substring for " + SliceText(lo, hi))]
    {
      r := new String(name + "_sub", algo, PySlice(body, lo, hi),
                      "creating new substring for " + SliceText(lo, hi));
    }

    /** `s[k] = v` always raises TypeError; nothing changes. */
    method SetItem(k: int, value: Val) returns (r: Outcome)
      ensures r == Raised(NoItemAssignment)
    {
      return Raised(NoItemAssignment);
    }

    /**
     * `append(value)` for a non-String `value`: a str is added to the end and
     * the append recorded; anything else raises TypeError with no change.
     */
    method Append(value: Val, comments: string) returns (r: Outcome)
      modifies this`body, algo`states
      ensures value.VStr? ==>
                r == Done && body == old(body) + value.s &&
                algo.states == old(algo.states) + [StringAppendState(name, body, value.s, comments)]
      ensures !value.VStr? ==>
                r == Raised(ConcatError(value)) && body == old(body) && algo.states == old(algo.states)
    {
      if !value.VStr? {
        return Raised(ConcatError(value));
      }
      body := body + value.s;
      algo.AddState(StringAppendState(name, body, value.s, comments));
      return Done;
    }

    /** `append(other)` for a String `other`: its body is appended (itself too). */
    method AppendString(other: String, comments: string)
      modifies this`body, algo`states
      ensures body == old(body) + old(other.body)
      ensures algo.states == old(algo.states) + [StringAppendState(name, body, old(other.body), comments)]
    {
      var value := other.body;
      body := body + value;
      algo.AddState(StringAppendState(name, body, value, comments));
    }

    /**
     * `s + value` for a non-String `value`: a new `<name>_super` String with
     * this body is declared, then `value` is appended to it; this string is
     * unchanged. A non-str value raises after the declaration is recorded.
     */
    method Add(value: Val) returns (r: Result<String>)
      modifies algo`states
      ensures var declare := StringDeclareState(name + "_super", body,
                               "creating new string with " + Str(value) + " appended to the original string");
              if value.VStr? then
                r.Ok? && fresh(r.value) && r.value.name == name + "_super" && r.value.algo == algo &&
                r.value.body == body + value.s &&
                algo.states == old(algo.states) + [declare, StringAppendState(r.value.name, r.value.body, value.s, "")]
              else
                r == Err(ConcatError(value)) && algo.states == old(algo.states) + [declare]
    {
      var fresh_ := new String(name + "_super", algo, body,
                               "creating new string with " + Str(value) + " appended to the original string");
      var outcome := fresh_.Append(value, "");
      if outcome.Raised? {
        return Err(outcome.error);
      }
      return Ok(fresh_);
    }

    /** `s + other` for a String `other`. */
    method AddString(other: String) returns (r: String)
      modifies algo`states
      ensures fresh(r) && r.name == name + "_super" && r.algo == algo
      ensures r.body == body + other.body && body == old(body)
      ensures algo.states == old(algo.states) +
                [StringDeclareState(r.name, body,
                   "creating new string with " + other.body + " appended to the original string"),
                 StringAppendState(r.name, r.body, other.body, "")]
    {
      r := new String(name + "_super", algo, body,
                      "creating new string with " + other.body + " appended to the original string");
      r.AppendString(other, "");
    }
  }

  /**
   * `String(name, algo, body, comments)` with its checks in order: a str
   * name, a StateSet, a str body.
   */
  method NewString(name: Val, algo: StateSet?, body: Val, comments: string) returns (r: Result<String>)
    modifies algo
    ensures algo != null ==> algo.autoplay == old(algo.autoplay) && algo.nextId == old(algo.nextId)
    ensures !name.VStr? ==> r == Err(ARgorithmError(["Give valid name to data structure"]))
    ensures name.VStr? && algo == null ==>
              r == Err(ARgorithmError(["string structure needs a reference of template to store states"]))
    ensures name.VStr? && algo != null && !body.VStr? ==>
              r == Err(ARgorithmError(["String body should be of type string"]))
    ensures name.VStr? && algo != null && body.VStr? ==> r.Ok?
    ensures r.Err? && algo != null ==> algo.states == old(algo.states)
    ensures r.Ok? ==>
              name.VStr? && algo != null && body.VStr? && fresh(r.value) &&
              r.value.name == name.s && r.value.algo == algo && r.value.body == body.s &&
              algo.states == old(algo.states) + [StringDeclareState(name.s, body.s, comments)]
  {
    if !name.VStr? {
      return Err(ARgorithmError(["Give valid name to data structure"]));
    }
    if algo == null {
      return Err(ARgorithmError(["string structure needs a reference of template to store states"]));
    }
    if !body.VStr? {
      return Err(ARgorithmError(["String body should be of type string"]));
    }
    var s := new String(name.s, algo, body.s, comments);
    return Ok(s);
  }

  /** The iterator over a String: the length is fixed when it is made. */
  class StringIterator {
    const str: String
    const size: nat
    var index: nat

    constructor (s: String)
      ensures str == s && size == |s.body| && index == 0
    {
      str := s;
      size := |s.body|;
      index := 0;
    }

    /**
     * `__next__`: StopIteration (None) at the fixed size, otherwise the
     * character read through `s[index]`, which records the read.
     */
    method Next() returns (r: Result<Option<char>>)
      modifies this`index, str.algo`states
      ensures old(index) == size ==> r == Ok(None) && index == old(index) &&
                                      str.algo.states == old(str.algo.states)
      ensures old(index) < size && old(index) < |str.body| ==>
                r == Ok(Some(str.body[old(index)])) && index == old(index) + 1 &&
                str.algo.states == old(str.algo.states) + [StringIterState(str.name, str.body, old(index))]
    {
      if index == size {
        return Ok(None);
      }
      var c := str.Get(index);
      if c.Err? {
        return Err(c.error);
      }
      index := index + 1;
      return Ok(Some(c.value));
    }
  }

  /** The reads iterating over `body` records, one per index in order. */
  function IterRecords(name: string, body: string, n: nat): (r: seq<State>)
    requires n <= |body|
    ensures |r| == n && forall i :: 0 <= i < n ==> r[i] == StringIterState(name, body, i)
  {
    seq(n, i requires 0 <= i < n => StringIterState(name, body, i))
  }

  /** `[c for c in s]`: every character in order, each read recorded. */
  method Characters(s: String) returns (cs: string)
    modifies s.algo`states
    ensures cs == s.body
    ensures s.algo.states == old(s.algo.states) + IterRecords(s.name, s.body, |s.body|)
  {
    var it := new StringIterator(s);
    cs := [];
    while true
      invariant it.str == s && it.size == |s.body| && it.index <= it.size
      invariant cs == s.body[..it.index]
      invariant s.algo.states == old(s.algo.states) + IterRecords(s.name, s.body, it.index)
      decreases it.size - it.index
    {
      var next := it.Next();
      if next == Ok(None) {
        return;
      }
      cs := cs + [next.value.value];
    }
  }
}
