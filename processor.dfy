/**
 * `post_process`: the pass that sets the `autoplay` flag of the records in
 * a StateSet before they are rendered.
 */
module Processor {
  import opened Values
  import opened Utils

  /** Step `i` of the default pass: mark record `i - 1` when record `i` is a comment. */
  function MarkAt(states: seq<State>, i: nat): (r: seq<State>)
    requires 1 <= i < |states|
    ensures |r| == |states|
  {
    if IsComment(states[i]) then states[i - 1 := states[i - 1].(autoplay := Some(true))]
    else states
  }

  /** Steps `i`, `i + 1`, ... of the default pass, in loop order. */
  function MarkFrom(states: seq<State>, i: nat): (r: seq<State>)
    requires 1 <= i
    ensures |r| == |states|
    decreases |states| - i
  {
    if i >= |states| then states else MarkFrom(MarkAt(states, i), i + 1)
  }

  /** The records after the pass, given the log's `autoplay` setting. */
  function PostProcessed(states: seq<State>, autoplay: Option<bool>): (r: seq<State>)
    ensures |r| == |states|
  {
    if autoplay.Some? then seq(|states|, k requires 0 <= k < |states| => states[k].(autoplay := autoplay))
    else MarkFrom(states, 1)
  }

  /**
   * `post_process(algo)` without the final `json.dumps`: it rewrites the
   * records' `autoplay` flags in place.
   */
  method PostProcess(algo: StateSet)
    modifies algo`states
    ensures algo.states == PostProcessed(old(algo.states), algo.autoplay)
  {
    var size := |algo.states|;
    if algo.autoplay.Some? {
      var i := 0;
      while i < size
        invariant 0 <= i <= size == |algo.states|
        invariant forall k :: 0 <= k < i ==>
                    algo.states[k] == old(algo.states)[k].(autoplay := algo.autoplay)
        invariant forall k :: i <= k < size ==> algo.states[k] == old(algo.states)[k]
      {
        algo.states := algo.states[i := algo.states[i].(autoplay := algo.autoplay)];
        i := i + 1;
      }
    } else {
      var i := 1;
      while i < size
        invariant 1 <= i && size == |algo.states|
        invariant MarkFrom(algo.states, i) == MarkFrom(old(algo.states), 1)
      {
        algo.states := MarkAt(algo.states, i);
        i := i + 1;
      }
    }
  }

  /** What one step changes: at most the `autoplay` of record `i - 1`. */
  lemma MarkAtSpec(states: seq<State>, i: nat)
    requires 1 <= i < |states|
    ensures |MarkAt(states, i)| == |states|
    ensures forall k :: 0 <= k < |states| ==>
              MarkAt(states, i)[k] ==
                (if k == i - 1 && IsComment(states[i]) then states[k].(autoplay := Some(true))
                 else states[k])
  {
  }

  /**
   * The default pass from step `i` on marks exactly the records whose
   * successor is a comment and lies at index `i` or later.
   */
  lemma {:induction false} MarkFromSpec(states: seq<State>, i: nat)
    requires 1 <= i
    ensures |MarkFrom(states, i)| == |states|
    ensures forall k {:trigger MarkFrom(states, i)[k]} :: 0 <= k < |states| ==>
              MarkFrom(states, i)[k] ==
                (if i <= k + 1 < |states| && IsComment(states[k + 1])
                 then states[k].(autoplay := Some(true)) else states[k])
    decreases |states| - i
  {
    if i < |states| {
      var next := MarkAt(states, i);
      MarkAtSpec(states, i);
      MarkFromSpec(next, i + 1);
      forall k | 0 <= k < |states|
        ensures MarkFrom(states, i)[k] ==
                  (if i <= k + 1 < |states| && IsComment(states[k + 1])
                   then states[k].(autoplay := Some(true)) else states[k])
      {
        assert MarkFrom(states, i) == MarkFrom(next, i + 1);
        if k + 1 < |states| {
          assert next[k + 1].content == states[k + 1].content;
          assert IsComment(next[k + 1]) == IsComment(states[k + 1]);
        }
        if k == i - 1 {
          assert MarkFrom(next, i + 1)[k] == next[k];
        } else {
          assert next[k] == states[k];
        }
      }
    }
  }

  /**
   * With `algo.autoplay` unset, the pass keeps the number, order and content
   * of the records and sets `autoplay` to True exactly on the records that
   * are immediately followed by a comment; every other record keeps the flag
   * it had.
   */
  lemma DefaultMode(states: seq<State>)
    ensures |PostProcessed(states, None)| == |states|
    ensures forall k {:trigger PostProcessed(states, None)[k]} :: 0 <= k < |states| ==>
              PostProcessed(states, None)[k].content == states[k].content
    ensures forall k {:trigger PostProcessed(states, None)[k]} :: 0 <= k < |states| ==>
              PostProcessed(states, None)[k].autoplay ==
                (if k + 1 < |states| && IsComment(states[k + 1]) then Some(true)
                 else states[k].autoplay)
  {
    assert PostProcessed(states, None) == MarkFrom(states, 1);
    MarkFromSpec(states, 1);
  }

  /** With `algo.autoplay` set, every record's flag becomes that value. */
  lemma ForcedMode(states: seq<State>, flag: bool)
    ensures |PostProcessed(states, Some(flag))| == |states|
    ensures forall k :: 0 <= k < |states| ==>
              PostProcessed(states, Some(flag))[k] == states[k].(autoplay := Some(flag))
  {
  }

  /** The default pass never writes False. */
  lemma NeverWritesFalse(states: seq<State>, k: nat)
    requires k < |states|
    ensures PostProcessed(states, None)[k].autoplay == Some(false) ==>
              states[k].autoplay == Some(false)
  {
    DefaultMode(states);
  }

  /**
   * The last record is never marked: a comment only marks the record before
   * it, so a comment at index 0 marks nothing.
   */
  lemma LastRecordUnmarked(states: seq<State>)
    requires states != []
    ensures PostProcessed(states, None)[|states| - 1] == states[|states| - 1]
  {
    DefaultMode(states);
    var last := |states| - 1;
    assert PostProcessed(states, None)[last].content == states[last].content;
    assert PostProcessed(states, None)[last].autoplay == states[last].autoplay;
  }

  /** Of two consecutive comments, the first is itself marked. */
  lemma ConsecutiveComments(states: seq<State>, k: nat)
    requires k + 1 < |states| && IsComment(states[k]) && IsComment(states[k + 1])
    ensures IsComment(PostProcessed(states, None)[k])
    ensures PostProcessed(states, None)[k].autoplay == Some(true)
  {
    DefaultMode(states);
  }
}
