/**
 * The toolkit's base classes: the error type's message, the algorithm
 * template, the validated state record and the shared record log
 * (`StateSet`) that every container appends to.
 */
module Utils {
  import opened Values

  const DefaultErrorText := "There's an error within ARgorithm template usage"

  /**
   * `str(ARgorithmError(*args))`: the first argument when there is one and
   * it is non-empty, otherwise the fixed default. It is never empty.
   */
  function ErrorText(args: seq<string>): (t: string)
    ensures t != ""
    ensures |args| > 0 && args[0] != "" ==> t == args[0]
    ensures (|args| == 0 || args[0] == "") ==> t == DefaultErrorText
  {
    if |args| > 0 && args[0] != "" then args[0] else DefaultErrorText
  }

  /** The base that algorithms are written against. */
  class Template {
    var desc: string
    var states: seq<string>

    constructor ()
      ensures desc == "Not specified" && states == []
    {
      desc := "Not specified";
      states := [];
    }
  }

  /**
   * One state record. `content` is the record's three-entry map; `autoplay`
   * is the flag the post-processing pass adds (None while it is absent).
   */
  datatype State = State(content: map<string, Val>, autoplay: Option<bool>)

  /** The keyword arguments a record must be given, in the order checked. */
  const StateFields: seq<string> := ["state_type", "state_def", "comments"]

  /** `x.replace('_', '-')`. */
  function Dashed(x: string): string
  {
    seq(|x|, i requires 0 <= i < |x| => if x[i] == '_' then '-' else x[i])
  }

  function MissingFieldError(field: string): Error
  {
    ARgorithmError([field + " should be present in State arguments"])
  }

  /** The loop of the constructor: copy each field under its dashed key. */
  function Collect(fields: seq<string>, kwargs: map<string, Val>, content: map<string, Val>)
    : Result<map<string, Val>>
  {
    if fields == [] then Ok(content)
    else if fields[0] !in kwargs then Err(MissingFieldError(fields[0]))
    else Collect(fields[1..], kwargs, content[Dashed(fields[0]) := kwargs[fields[0]]])
  }

  /** `State(**kwargs)`. */
  function NewState(kwargs: map<string, Val>): Result<State>
  {
    match Collect(StateFields, kwargs, map[])
    case Ok(content) => Ok(State(content, None))
    case Err(e) => Err(e)
  }

  /** The record a container builds: all three fields given. */
  function MakeState(stateType: string, stateDef: Val, comments: string): State
  {
    State(map["state-type" := VStr(stateType), "state-def" := stateDef,
              "comments" := VStr(comments)], None)
  }

  /** The record `add_comment` appends. */
  function CommentState(comments: string): State
  {
    MakeState("comment", VNone, comments)
  }

  function StateType(s: State): Val
  {
    if "state-type" in s.content then s.content["state-type"] else VNone
  }

  predicate IsComment(s: State)
  {
    StateType(s) == VStr("comment")
  }

  lemma DashedFields()
    ensures Dashed("state_type") == "state-type"
    ensures Dashed("state_def") == "state-def"
    ensures Dashed("comments") == "comments"
  {
    var a := "state_type";
    assert a[5] == '_';
    assert forall i :: 0 <= i < |a| && i != 5 ==> a[i] != '_';
    var b := "state_def";
    assert b[5] == '_';
    assert forall i :: 0 <= i < |b| && i != 5 ==> b[i] != '_';
    var c := "comments";
    assert forall i :: 0 <= i < |c| ==> c[i] != '_';
  }

  /**
   * A record is built exactly when all three fields are given (`state_def`
   * may be None); its content then has exactly the three dashed keys.
   * Otherwise the error names the first missing field, in the order
   * state_type, state_def, comments.
   */
  lemma NewStateSpec(kwargs: map<string, Val>)
    ensures NewState(kwargs).Ok? <==>
              "state_type" in kwargs && "state_def" in kwargs && "comments" in kwargs
    ensures NewState(kwargs).Ok? ==>
              NewState(kwargs).value.content.Keys == {"state-type", "state-def", "comments"} &&
              NewState(kwargs).value.content["state-type"] == kwargs["state_type"] &&
              NewState(kwargs).value.content["state-def"] == kwargs["state_def"] &&
              NewState(kwargs).value.content["comments"] == kwargs["comments"] &&
              NewState(kwargs).value.autoplay == None
    ensures "state_type" !in kwargs ==> NewState(kwargs) == Err(MissingFieldError("state_type"))
    ensures "state_type" in kwargs && "state_def" !in kwargs ==>
              NewState(kwargs) == Err(MissingFieldError("state_def"))
    ensures "state_type" in kwargs && "state_def" in kwargs && "comments" !in kwargs ==>
              NewState(kwargs) == Err(MissingFieldError("comments"))
  {
    DashedFields();
    var f1, f2, f3 := "state_type", "state_def", "comments";
    assert StateFields[1..] == [f2, f3];
    assert StateFields[1..][1..] == [f3];
    assert StateFields[1..][1..][1..] == [];
    if f1 in kwargs && f2 in kwargs && f3 in kwargs {
      var c1 := map[][Dashed(f1) := kwargs[f1]];
      var c2 := c1[Dashed(f2) := kwargs[f2]];
      var c3 := c2[Dashed(f3) := kwargs[f3]];
      assert Collect(StateFields, kwargs, map[]) == Collect([f2, f3], kwargs, c1);
      assert Collect([f2, f3], kwargs, c1) == Collect([f3], kwargs, c2);
      assert Collect([f3], kwargs, c2) == Collect([], kwargs, c3);
    } else if f1 in kwargs && f2 in kwargs {
      var c1 := map[][Dashed(f1) := kwargs[f1]];
      var c2 := c1[Dashed(f2) := kwargs[f2]];
      assert Collect(StateFields, kwargs, map[]) == Collect([f2, f3], kwargs, c1);
      assert Collect([f2, f3], kwargs, c1) == Collect([f3], kwargs, c2);
    } else if f1 in kwargs {
      var c1 := map[][Dashed(f1) := kwargs[f1]];
      assert Collect(StateFields, kwargs, map[]) == Collect([f2, f3], kwargs, c1);
    }
  }

  /** The records containers build are exactly those `State(...)` accepts. */
  lemma MakeStateIsNewState(stateType: string, stateDef: Val, comments: string)
    ensures NewState(map["state_type" := VStr(stateType), "state_def" := stateDef,
                         "comments" := VStr(comments)])
            == Ok(MakeState(stateType, stateDef, comments))
  {
    var kwargs := map["state_type" := VStr(stateType), "state_def" := stateDef,
                      "comments" := VStr(comments)];
    NewStateSpec(kwargs);
    assert NewState(kwargs).value.content == MakeState(stateType, stateDef, comments).content;
  }

  /**
   * The shared log of state records. Records are only ever appended.
   * `nextId` issues the identities that stand for `id(self)`.
   */
  class StateSet {
    var states: seq<State>
    var autoplay: Option<bool>
    var nextId: nat

    constructor ()
      ensures states == [] && autoplay == None && nextId == 0
    {
      states := [];
      autoplay := None;
      nextId := 0;
    }

    method AddState(s: State)
      modifies this`states
      ensures states == old(states) + [s]
    {
      states := states + [s];
    }

    /** `add_comment`: a `comment` record whose `state_def` is None. */
    method AddComment(comments: string)
      modifies this`states
      ensures states == old(states) + [CommentState(comments)]
    {
      states := states + [CommentState(comments)];
    }

    /** A fresh identity: never issued before by this log. */
    method FreshId() returns (id: nat)
      modifies this`nextId
      ensures id == old(nextId) && nextId == id + 1
    {
      id := nextId;
      nextId := nextId + 1;
    }
  }
}
