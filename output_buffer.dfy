/**
 * The batching queue that coalesces streamed chunks into periodic deliveries
 * (src/lib/output-buffer.ts). The pending `setTimeout` is a flag: when it
 * fires it calls `flush`, so a firing is a `Flush` call. The `onFlush`
 * callback is recorded as the list of batches handed to it.
 *
 * The value-level functions below are the specification; the class
 * `OutputBuffer` is the in-place object proved against them.
 */
module OutputBuffers {
  import opened Optional

  /** The object's two mutable fields: `buffer` and whether `timer` is set. */
  datatype BufferState = BufferState(buffer: seq<string>, timerPending: bool)

  const EmptyBuffer := BufferState([], false)

  /** A timer is pending exactly while chunks wait to be delivered. */
  predicate Consistent(s: BufferState)
  {
    s.timerPending <==> s.buffer != []
  }

  /** `push(chunk)`: append; arm the timer unless one is already pending. */
  function PushState(s: BufferState, chunk: string): (r: BufferState)
    ensures r.buffer == s.buffer + [chunk]
    ensures r.timerPending
  {
    // a pending timer is kept, otherwise one is armed: either way one is pending
    BufferState(s.buffer + [chunk], true)
  }

  /** `flush()`: clear the timer; hand over the whole buffer if it holds anything. */
  function FlushState(s: BufferState): (BufferState, Option<seq<string>>)
  {
    if s.buffer != [] then (BufferState([], false), Some(s.buffer))
    else (BufferState([], false), None)
  }

  /** `destroy()`: clear the timer and drop the buffer without delivering it. */
  function DestroyState(s: BufferState): BufferState
  {
    BufferState([], false)
  }

  /** The three operations, as an event for sequences of calls. */
  datatype BufferOp = Push(chunk: string) | Flush | Destroy

  /** One call: the next state and the batches handed to `onFlush` (none or one). */
  function Step(s: BufferState, op: BufferOp): (BufferState, seq<seq<string>>)
  {
    match op
    case Push(c) => (PushState(s, c), [])
    case Flush =>
      var (t, out) := FlushState(s);
      (t, if out.Some? then [out.value] else [])
    case Destroy => (DestroyState(s), [])
  }

  /** A sequence of calls from state s. */
  function Run(s: BufferState, ops: seq<BufferOp>): (BufferState, seq<seq<string>>)
    decreases |ops|
  {
    if ops == [] then (s, [])
    else
      var (t, out) := Step(s, ops[0]);
      var (u, rest) := Run(t, ops[1..]);
      (u, out + rest)
  }

  function Concat(batches: seq<seq<string>>): seq<string>
  {
    if batches == [] then [] else batches[0] + Concat(batches[1..])
  }

  /** The chunks pushed by a sequence of calls, in call order. */
  function Pushed(ops: seq<BufferOp>): seq<string>
  {
    if ops == [] then [] else (if ops[0].Push? then [ops[0].chunk] else []) + Pushed(ops[1..])
  }

  /** Every call keeps "timer pending iff chunks waiting"; flush and destroy leave no timer. */
  lemma StepKeepsConsistent(s: BufferState, op: BufferOp)
    requires Consistent(s)
    ensures Consistent(Step(s, op).0)
    ensures !op.Push? ==> !Step(s, op).0.timerPending && Step(s, op).0.buffer == []
  {
  }

  /**
   * Flush hands over the whole buffer in one batch, in push order, and only
   * when it is non-empty; destroy never delivers.
   */
  lemma FlushDeliversWholeBuffer(s: BufferState)
    ensures s.buffer == [] <==> FlushState(s).1 == None
    ensures s.buffer != [] ==> FlushState(s).1 == Some(s.buffer)
    ensures Step(s, Destroy).1 == []
  {
  }

  /**
   * Between destroys nothing is lost, duplicated or reordered: the batches
   * delivered, concatenated and followed by what is still buffered, are the
   * buffered chunks plus every chunk pushed, in push order. No batch is empty.
   */
  lemma {:induction false} NoChunkLostBetweenDestroys(s: BufferState, ops: seq<BufferOp>)
    requires forall i :: 0 <= i < |ops| ==> !ops[i].Destroy?
    ensures Concat(Run(s, ops).1) + Run(s, ops).0.buffer == s.buffer + Pushed(ops)
    ensures forall k :: 0 <= k < |Run(s, ops).1| ==> Run(s, ops).1[k] != []
    decreases |ops|
  {
    if ops != [] {
      var (t, out) := Step(s, ops[0]);
      var (u, rest) := Run(t, ops[1..]);
      NoChunkLostBetweenDestroys(t, ops[1..]);
      ConcatAppend(out, rest);
      match ops[0]
      case Push(c) =>
        assert s.buffer + Pushed(ops) == (s.buffer + [c]) + Pushed(ops[1..]);
      case Flush =>
        if s.buffer != [] {
          assert Concat(out) == s.buffer;
        }
    }
  }

  lemma {:induction false} ConcatAppend(a: seq<seq<string>>, b: seq<seq<string>>)
    ensures Concat(a + b) == Concat(a) + Concat(b)
    decreases |a|
  {
    if a == [] {
      assert a + b == b;
    } else {
      assert (a + b)[1..] == a[1..] + b;
      ConcatAppend(a[1..], b);
    }
  }

  /** After a destroy the object is as good as new, whatever it held. */
  lemma DestroyForgets(s: BufferState, ops: seq<BufferOp>)
    ensures Run(s, [Destroy] + ops) == Run(EmptyBuffer, ops)
  {
    assert ([Destroy] + ops)[1..] == ops;
    var (u, rest) := Run(EmptyBuffer, ops);
    assert [] + rest == rest;
  }

  /** `OutputBuffer`: `buffer` and `timer` updated in place; `delivered` records the `onFlush` calls. */
  class OutputBuffer {
    var buffer: seq<string>
    var timerPending: bool
    var delivered: seq<seq<string>>
    /** The chunks pushed since construction or the last destroy. */
    ghost var sinceDestroy: seq<string>
    /** Where the deliveries since the last destroy start in `delivered`. */
    ghost var mark: nat

    function State(): BufferState
      reads this
    {
      BufferState(buffer, timerPending)
    }

    ghost predicate Valid()
      reads this
    {
      && Consistent(State())
      && mark <= |delivered|
      && Concat(delivered[mark..]) + buffer == sinceDestroy
      && (forall k :: mark <= k < |delivered| ==> delivered[k] != [])
    }

    constructor ()
      ensures Valid() && State() == EmptyBuffer && delivered == [] && sinceDestroy == []
    {
      buffer := [];
      timerPending := false;
      delivered := [];
      sinceDestroy := [];
      mark := 0;
    }

    method Push(chunk: string)
      requires Valid()
      modifies this
      ensures Valid()
      ensures State() == PushState(old(State()), chunk)
      ensures delivered == old(delivered) && sinceDestroy == old(sinceDestroy) + [chunk]
    {
      buffer := buffer + [chunk];
      if !timerPending {
        timerPending := true;
      }
      sinceDestroy := sinceDestroy + [chunk];
      assert Concat(delivered[mark..]) + buffer == old(Concat(delivered[mark..]) + buffer) + [chunk];
    }

    method Flush()
      requires Valid()
      modifies this
      ensures Valid()
      ensures State() == FlushState(old(State())).0
      ensures delivered == old(delivered) + (if old(buffer) != [] then [old(buffer)] else [])
      ensures sinceDestroy == old(sinceDestroy)
    {
      if timerPending {
        timerPending := false;
      }
      if |buffer| > 0 {
        var chunks := buffer;
        buffer := [];
        ConcatAppend(delivered[mark..], [chunks]);
        assert (delivered + [chunks])[mark..] == delivered[mark..] + [chunks];
        delivered := delivered + [chunks];
      }
    }

    method Destroy()
      requires Valid()
      modifies this
      ensures Valid()
      ensures State() == DestroyState(old(State()))
      ensures delivered == old(delivered) && sinceDestroy == []
    {
      if timerPending {
        timerPending := false;
      }
      buffer := [];
      sinceDestroy := [];
      mark := |delivered|;
    }
  }
}
