/**
 * common/onceWithReset.go: a guard that runs a callback at most once until
 * it is reset. The callback itself is not modelled; `Do` reports whether
 * it would have been invoked. The mutex is left out (calls are sequential).
 */
module CommonOnce {

  class OnceWithReset {
    var triggered: bool

    /** NewOnceWithReset: a fresh guard is not triggered. */
    constructor ()
      ensures !triggered
    {
      triggered := false;
    }

    /** Do invokes the callback iff the guard was not triggered, and triggers it. */
    method Do() returns (ran: bool)
      modifies this
      ensures ran <==> !old(triggered)
      ensures triggered
    {
      ran := false;
      if !triggered {
        triggered := true;
        ran := true;
      }
    }

    /** Reset re-arms the guard. */
    method Reset()
      modifies this
      ensures !triggered
    {
      triggered := false;
    }

    /** IsTriggered reads the flag and leaves it as it is. */
    method IsTriggered() returns (t: bool)
      ensures t == triggered
    {
      t := triggered;
    }
  }

  /** A call on the guard. */
  datatype Op = DoOp | ResetOp

  /**
   * How many times a run of calls, starting with flag `t`, invokes the
   * callback. Each step does what the contracts of `OnceWithReset.Do` and
   * `OnceWithReset.Reset` say: a Do runs iff the flag is clear and sets it,
   * a Reset clears it.
   */
  function Runs(t: bool, ops: seq<Op>): nat
    decreases |ops|
  {
    if |ops| == 0 then 0
    else match ops[0]
      case DoOp => (if t then 0 else 1) + Runs(true, ops[1..])
      case ResetOp => Runs(false, ops[1..])
  }

  function Resets(ops: seq<Op>): nat
    decreases |ops|
  {
    if |ops| == 0 then 0 else (if ops[0] == ResetOp then 1 else 0) + Resets(ops[1..])
  }

  /** Without a Reset the callback runs once, at the first Do on an untriggered guard. */
  lemma {:induction false} RunsWithoutReset(t: bool, ops: seq<Op>)
    requires ResetOp !in ops
    ensures Runs(t, ops) == (if !t && DoOp in ops then 1 else 0)
    decreases |ops|
  {
    if |ops| > 0 {
      assert ops == [ops[0]] + ops[1..];
      RunsWithoutReset(true, ops[1..]);
      if DoOp in ops[1..] || ops[0] == DoOp {
        assert DoOp in ops;
      }
    }
  }

  /** Every run of the callback after the first is paid for by a Reset. */
  lemma {:induction false} RunsBound(t: bool, ops: seq<Op>)
    ensures Runs(t, ops) <= Resets(ops) + (if t then 0 else 1)
    decreases |ops|
  {
    if |ops| > 0 {
      match ops[0]
      case DoOp => RunsBound(true, ops[1..]);
      case ResetOp => RunsBound(false, ops[1..]);
    }
  }

  /** A Reset followed by a Do always runs the callback, whatever the flag was. */
  lemma {:induction false} ResetThenDoRuns(t: bool, ops: seq<Op>)
    ensures Runs(t, [ResetOp, DoOp] + ops) == 1 + Runs(true, ops)
  {
    var s := [ResetOp, DoOp] + ops;
    assert s[1..] == [DoOp] + ops;
    assert s[1..][1..] == ops;
  }
}
