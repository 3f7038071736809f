/**
 * The Stack container: a list used last-in first-out, with one record per
 * operation in the shared StateSet.
 */
module Stacks {
  import opened Values
  import opened Utils

  function StackDeclareState(name: string, comments: string): State
  {
    MakeState("stack_declare",
              VDict([Field("variable_name", VStr(name)), Field("body", VList([]))]), comments)
  }

  function StackPushState(name: string, body: seq<Val>, element: Val, comments: string): State
  {
    MakeState("stack_push",
              VDict([Field("variable_name", VStr(name)), Field("body", VList(body)),
                     Field("element", element)]), comments)
  }

  function StackPopState(name: string, body: seq<Val>, comments: string): State
  {
    MakeState("stack_pop",
              VDict([Field("variable_name", VStr(name)), Field("body", VList(body))]), comments)
  }

  function StackTopState(name: string, body: seq<Val>, comments: string): State
  {
    MakeState("stack_top",
              VDict([Field("variable_name", VStr(name)), Field("body", VList(body))]), comments)
  }

  const EmptyStack := ARgorithmError(["Stack is empty"])

  class Stack {
    const name: string
    const algo: StateSet
    var body: seq<Val>

    /** A new empty stack; its declaration is recorded. */
    constructor (name: string, algo: StateSet, comments: string)
      modifies algo`states
      ensures this.name == name && this.algo == algo && body == []
      ensures algo.states == old(algo.states) + [StackDeclareState(name, comments)]
    {
      this.name := name;
      this.algo := algo;
      body := [];
      new;
      algo.AddState(StackDeclareState(name, comments));
    }

    /** `len(stack)`. */
    function Len(): nat
      reads this`body
    {
      |body|
    }

    /** `empty()`: true exactly when nothing is stored. */
    function Empty(): (r: bool)
      reads this`body
      ensures r <==> body == []
    {
      Len() == 0
    }

    /** `push(element)`: the element goes on top; the record shows the new body. */
    method Push(element: Val, comments: string)
      modifies this`body, algo`states
      ensures body == old(body) + [element]
      ensures algo.states == old(algo.states) + [StackPushState(name, body, element, comments)]
    {
      body := body + [element];
      algo.AddState(StackPushState(name, body, element, comments));
    }

    /**
     * `pop()`: the top element is removed and returned and the record shows
     * the body after the removal. On an empty stack it raises and records
     * nothing.
     */
    method Pop(comments: string) returns (r: Result<Val>)
      modifies this`body, algo`states
      ensures old(body) == [] ==>
                r == Err(EmptyStack) && body == [] && algo.states == old(algo.states)
      ensures old(body) != [] ==>
                r == Ok(old(body)[|old(body)| - 1]) && body == old(body)[..|old(body)| - 1] &&
                algo.states == old(algo.states) + [StackPopState(name, body, comments)]
    {
      if Empty() {
        return Err(EmptyStack);
      }
      var item := body[|body| - 1];
      body := body[..|body| - 1];
      algo.AddState(StackPopState(name, body, comments));
      return Ok(item);
    }

    /** `top()`: the top element, with the body left as it is. */
    method Top(comments: string) returns (r: Result<Val>)
      modifies algo`states
      ensures body == [] ==> r == Err(EmptyStack) && algo.states == old(algo.states)
      ensures body != [] ==>
                r == Ok(body[|body| - 1]) &&
                algo.states == old(algo.states) + [StackTopState(name, body, comments)]
    {
      if Empty() {
        return Err(EmptyStack);
      }
      var item := body[|body| - 1];
      algo.AddState(StackTopState(name, body, comments));
      return Ok(item);
    }
  }

  /**
   * `Stack(name, algo, comments)` with its argument checks: the name must be
   * a str and `algo` a StateSet (null stands for any other object). A failed
   * check raises before anything is recorded.
   */
  method NewStack(name: Val, algo: StateSet?, comments: string) returns (r: Result<Stack>)
    modifies algo
    ensures algo != null ==> algo.autoplay == old(algo.autoplay) && algo.nextId == old(algo.nextId)
    ensures !name.VStr? ==> r == Err(ARgorithmError(["Give valid name to data structure"]))
    ensures name.VStr? && algo == null ==>
              r == Err(ARgorithmError(["Stack structure needs a reference of template to store states"]))
    ensures name.VStr? && algo != null ==> r.Ok?
    ensures r.Err? && algo != null ==> algo.states == old(algo.states)
    ensures r.Ok? ==>
              name.VStr? && algo != null && fresh(r.value) &&
              r.value.name == name.s && r.value.algo == algo && r.value.body == [] &&
              algo.states == old(algo.states) + [StackDeclareState(name.s, comments)]
  {
    if !name.VStr? {
      return Err(ARgorithmError(["Give valid name to data structure"]));
    }
    if algo == null {
      return Err(ARgorithmError(["Stack structure needs a reference of template to store states"]));
    }
    var s := new Stack(name.s, algo, comments);
    return Ok(s);
  }

  /** Popping right after a push returns the pushed element and restores the body. */
  method PopUndoesPush(s: Stack, element: Val, comments: string) returns (r: Result<Val>)
    modifies s`body, s.algo`states
    ensures r == Ok(element) && s.body == old(s.body)
  {
    s.Push(element, comments);
    r := s.Pop(comments);
  }
}
