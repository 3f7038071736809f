/**
 * The Queue container: a list used first-in first-out, with one record per
 * operation in the shared StateSet.
 */
module Queues {
  import opened Values
  import opened Utils

  function QueueDeclareState(name: string, comments: string): State
  {
    MakeState("queue_declare",
              VDict([Field("variable_name", VStr(name)), Field("body", VList([]))]), comments)
  }

  function QueuePushState(name: string, body: seq<Val>, element: Val, comments: string): State
  {
    MakeState("queue_push",
              VDict([Field("variable_name", VStr(name)), Field("body", VList(body)),
                     Field("element", element)]), comments)
  }

  function QueuePopState(name: string, body: seq<Val>, comments: string): State
  {
    MakeState("queue_pop",
              VDict([Field("variable_name", VStr(name)), Field("body", VList(body))]), comments)
  }

  function QueueFrontState(name: string, body: seq<Val>, comments: string): State
  {
    MakeState("queue_front",
              VDict([Field("variable_name", VStr(name)), Field("body", VList(body))]), comments)
  }

  function QueueBackState(name: string, body: seq<Val>, comments: string): State
  {
    MakeState("queue_back",
              VDict([Field("variable_name", VStr(name)), Field("body", VList(body))]), comments)
  }

  const EmptyQueue := ARgorithmError(["queue is empty"])

  class Queue {
    const name: string
    const algo: StateSet
    var body: seq<Val>

    /** A new empty queue; its declaration is recorded. */
    constructor (name: string, algo: StateSet, comments: string)
      modifies algo`states
      ensures this.name == name && this.algo == algo && body == []
      ensures algo.states == old(algo.states) + [QueueDeclareState(name, comments)]
    {
      this.name := name;
      this.algo := algo;
      body := [];
      new;
      algo.AddState(QueueDeclareState(name, comments));
    }

    /** `len(queue)`. */
    function Len(): nat
      reads this`body
    {
      |body|
    }

    /** `empty()`: true exactly when nothing is stored. */
    function Empty(): (r: bool)
      reads this`body
      ensures r <==> body == []
    {
      Len() == 0
    }

    /** `push(element)`: the element joins at the back; the record shows the new body. */
    method Push(element: Val, comments: string)
      modifies this`body, algo`states
      ensures body == old(body) + [element]
      ensures algo.states == old(algo.states) + [QueuePushState(name, body, element, comments)]
    {
      body := body + [element];
      algo.AddState(QueuePushState(name, body, element, comments));
    }

    /**
     * `pop()`: the front element is removed and returned, and the record
     * shows the rest. On an empty queue it raises and records nothing.
     */
    method Pop(comments: string) returns (r: Result<Val>)
      modifies this`body, algo`states
      ensures old(body) == [] ==>
                r == Err(EmptyQueue) && body == [] && algo.states == old(algo.states)
      ensures old(body) != [] ==>
                r == Ok(old(body)[0]) && body == old(body)[1..] &&
                algo.states == old(algo.states) + [QueuePopState(name, body, comments)]
    {
      if Empty() {
        return Err(EmptyQueue);
      }
      var item := body[0];
      body := body[1..];
      algo.AddState(QueuePopState(name, body, comments));
      return Ok(item);
    }

    /** `front()`: the front element, with the body left as it is. */
    method Front(comments: string) returns (r: Result<Val>)
      modifies algo`states
      ensures body == [] ==> r == Err(EmptyQueue) && algo.states == old(algo.states)
      ensures body != [] ==>
                r == Ok(body[0]) &&
                algo.states == old(algo.states) + [QueueFrontState(name, body, comments)]
    {
      if Empty() {
        return Err(EmptyQueue);
      }
      var item := body[0];
      algo.AddState(QueueFrontState(name, body, comments));
      return Ok(item);
    }

    /** `back()`: the back element, with the body left as it is. */
    method Back(comments: string) returns (r: Result<Val>)
      modifies algo`states
      ensures body == [] ==> r == Err(EmptyQueue) && algo.states == old(algo.states)
      ensures body != [] ==>
                r == Ok(body[|body| - 1]) &&
                algo.states == old(algo.states) + [QueueBackState(name, body, comments)]
    {
      if Empty() {
        return Err(EmptyQueue);
      }
      var item := body[|body| - 1];
      algo.AddState(QueueBackState(name, body, comments));
      return Ok(item);
    }
  }

  /**
   * `Queue(name, algo, comments)` with its argument checks: the name must be
   * a str and `algo` a StateSet (null stands for any other object). A failed
   * check raises before anything is recorded.
   */
  method NewQueue(name: Val, algo: StateSet?, comments: string) returns (r: Result<Queue>)
    modifies algo
    ensures algo != null ==> algo.autoplay == old(algo.autoplay) && algo.nextId == old(algo.nextId)
    ensures !name.VStr? ==> r == Err(ARgorithmError(["Give valid name to data structure"]))
    ensures name.VStr? && algo == null ==>
              r == Err(ARgorithmError(["Queue structure needs a reference of template to store states"]))
    ensures name.VStr? && algo != null ==> r.Ok?
    ensures r.Err? && algo != null ==> algo.states == old(algo.states)
    ensures r.Ok? ==>
              name.VStr? && algo != null && fresh(r.value) &&
              r.value.name == name.s && r.value.algo == algo && r.value.body == [] &&
              algo.states == old(algo.states) + [QueueDeclareState(name.s, comments)]
  {
    if !name.VStr? {
      return Err(ARgorithmError(["Give valid name to data structure"]));
    }
    if algo == null {
      return Err(ARgorithmError(["Queue structure needs a reference of template to store states"]));
    }
    var q := new Queue(name.s, algo, comments);
    return Ok(q);
  }

  /**
   * Elements pushed onto an empty queue one by one and then popped until it
   * is empty come out in the order they went in.
   */
  method FirstInFirstOut(q: Queue, xs: seq<Val>) returns (ys: seq<Val>)
    requires q.body == []
    modifies q`body, q.algo`states
    ensures ys == xs && q.body == []
  {
    for i := 0 to |xs|
      invariant q.body == xs[..i]
    {
      q.Push(xs[i], "");
      assert xs[..i + 1] == xs[..i] + [xs[i]];
    }
    ys := [];
    while q.body != []
      invariant |ys| <= |xs| && q.body == xs[|ys|..] && ys == xs[..|ys|]
      decreases |q.body|
    {
      var r := q.Pop("");
      assert xs[..|ys| + 1] == xs[..|ys|] + [xs[|ys|]];
      ys := ys + [r.value];
    }
  }
}
