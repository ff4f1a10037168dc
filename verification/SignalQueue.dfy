/** The signal queue as a Go slice: a backing array with an offset, a length and the capacity up to the
    end of the array.  Every operation holds the mutex, so operations happen one at a time. */
module SignalQueue {
  import opened Wrappers
  import opened Lots

  /** A new array with a copy of a stretch of `a` at its front and `room` more elements. */
  method CopyOf(a: array<Signal>, off: nat, len: nat, room: nat) returns (b: array<Signal>)
    requires off + len <= a.Length
    ensures fresh(b) && b.Length == len + room && b[..len] == a[off..off + len]
  {
    b := new Signal[len + room];
    for i := 0 to len
      invariant b[..i] == a[off..off + i]
    {
      b[i] := a[off + i];
    }
  }

  class Queue {
    var backing: array<Signal>
    var off: nat
    var len: nat

    ghost predicate Valid()
      reads this
    {
      off + len <= backing.Length
    }

    ghost function Contents(): seq<Signal>
      reads this, backing
      requires Valid()
    {
      backing[off..off + len]
    }

    /** A nil slice. */
    constructor ()
      ensures Valid() && Contents() == [] && fresh(backing)
    {
      backing := new Signal[0];
      off, len := 0, 0;
    }

    /** append: in place while the array has room behind the slice, otherwise into a new array, whose
        size beyond the needed one (`spare`) is up to the runtime. */
    method Push(s: Signal, spare: nat)
      requires Valid()
      modifies this, backing
      ensures Valid() && Contents() == old(Contents()) + [s]
      ensures backing == old(backing) || fresh(backing)
    {
      if off + len < backing.Length {
        backing[off + len] := s;
      } else {
        var grown := CopyOf(backing, off, len, 1 + spare);
        grown[len] := s;
        backing, off := grown, 0;
      }
      len := len + 1;
    }

    method Pop() returns (r: Option<Signal>)
      requires Valid()
      modifies this
      ensures Valid() && backing == old(backing)
      ensures old(Contents()) == [] ==> r == None && Contents() == []
      ensures old(Contents()) != [] ==> r == Some(old(Contents())[0]) && Contents() == old(Contents())[1..]
    {
      if len == 0 {
        return None;
      }
      r := Some(backing[off]);
      off, len := off + 1, len - 1;
    }

    /** The copy is a new array, so nothing the queue does later can reach it. */
    method Drain() returns (out: array<Signal>)
      requires Valid()
      modifies this
      ensures Valid() && backing == old(backing) && Contents() == []
      ensures fresh(out) && out[..] == old(Contents())
    {
      out := CopyOf(backing, off, len, 0);
      assert out[..] == out[..len];
      len := 0;
    }

    method Size() returns (n: nat)
      requires Valid()
      ensures n == |Contents()|
    {
      n := len;
    }

    method Clear()
      requires Valid()
      modifies this
      ensures Valid() && backing == old(backing) && Contents() == []
    {
      len := 0;
    }
  }

  // ---- every sequence of operations ----

  datatype Op = OnPush(signal: Signal, spare: nat) | OnPop | OnDrain | OnClear

  /** What an operation takes out of a queue with these contents. */
  function Removed(op: Op, contents: seq<Signal>): seq<Signal> {
    match op
    case OnPush(_, _) => []
    case OnPop => if contents == [] then [] else contents[..1]
    case OnDrain => contents
    case OnClear => contents
  }

  function Pushed(op: Op): seq<Signal> {
    if op.OnPush? then [op.signal] else []
  }

  function AfterOp(op: Op, contents: seq<Signal>): seq<Signal> {
    match op
    case OnPush(s, _) => contents + [s]
    case OnPop => if contents == [] then [] else contents[1..]
    case OnDrain => []
    case OnClear => []
  }

  function AfterOps(ops: seq<Op>, contents: seq<Signal>): seq<Signal>
    decreases |ops|
  {
    if ops == [] then contents else AfterOps(ops[1..], AfterOp(ops[0], contents))
  }

  function AllPushed(ops: seq<Op>): seq<Signal> {
    if ops == [] then [] else Pushed(ops[0]) + AllPushed(ops[1..])
  }

  function AllRemoved(ops: seq<Op>, contents: seq<Signal>): seq<Signal>
    decreases |ops|
  {
    if ops == [] then [] else Removed(ops[0], contents) + AllRemoved(ops[1..], AfterOp(ops[0], contents))
  }

  lemma OpConserves(op: Op, contents: seq<Signal>)
    ensures contents + Pushed(op) == Removed(op, contents) + AfterOp(op, contents)
  {
  }

  lemma Associate(a: seq<Signal>, b: seq<Signal>, c: seq<Signal>)
    ensures a + (b + c) == (a + b) + c
  {
  }

  /** First in, first out: over any operations, what was there and pushed is, in order, what was popped,
      drained or cleared followed by what is left. */
  lemma {:induction false} FirstInFirstOut(ops: seq<Op>, contents: seq<Signal>)
    ensures contents + AllPushed(ops) == AllRemoved(ops, contents) + AfterOps(ops, contents)
    decreases |ops|
  {
    if ops != [] {
      var op, rest := ops[0], ops[1..];
      var next := AfterOp(op, contents);
      calc {
        contents + (Pushed(op) + AllPushed(rest));
        { Associate(contents, Pushed(op), AllPushed(rest)); OpConserves(op, contents); }
        (Removed(op, contents) + next) + AllPushed(rest);
        { Associate(Removed(op, contents), next, AllPushed(rest)); FirstInFirstOut(rest, next); }
        Removed(op, contents) + (AllRemoved(rest, next) + AfterOps(rest, next));
        { Associate(Removed(op, contents), AllRemoved(rest, next), AfterOps(rest, next)); }
        (Removed(op, contents) + AllRemoved(rest, next)) + AfterOps(rest, next);
      }
    }
  }

  /** What the drains among `ops` return. */
  function Drains(ops: seq<Op>, contents: seq<Signal>): seq<seq<Signal>>
    decreases |ops|
  {
    if ops == [] then []
    else (if ops[0].OnDrain? then [contents] else []) + Drains(ops[1..], AfterOp(ops[0], contents))
  }

  /** `removed` is what Pop returned, what Drain copied, or what Clear is about to drop. */
  method Perform(q: Queue, op: Op) returns (out: array<Signal>, removed: seq<Signal>)
    requires q.Valid()
    modifies q, q.backing
    ensures q.Valid() && q.Contents() == AfterOp(op, old(q.Contents()))
    ensures q.backing == old(q.backing) || fresh(q.backing)
    ensures removed == Removed(op, old(q.Contents()))
    ensures fresh(out) && out != q.backing && (op.OnDrain? ==> out[..] == old(q.Contents()))
  {
    out, removed := new Signal[0], [];
    match op
    case OnPush(s, spare) => q.Push(s, spare);
    case OnPop =>
      var r := q.Pop();
      removed := if r.Some? then [r.value] else [];
    case OnDrain =>
      out := q.Drain();
      removed := out[..];
    case OnClear =>
      removed := q.backing[q.off..q.off + q.len];
      q.Clear();
  }

  /** Each array holds what is listed for it. */
  ghost predicate Hold(arrays: seq<array<Signal>>, values: seq<seq<Signal>>)
    reads set a | a in arrays
  {
    |arrays| == |values| && forall i :: 0 <= i < |arrays| ==> arrays[i][..] == values[i]
  }

  lemma HoldCons(a: array<Signal>, arrays: seq<array<Signal>>, values: seq<seq<Signal>>)
    requires Hold(arrays, values)
    ensures Hold([a] + arrays, [a[..]] + values)
  {
  }

  /** Runs the operations on one queue, keeps every drained array and notes what came out.  At the end the
      queue holds what the sequence model says, what came out is what the model removes, and every array
      still holds what it held when it was returned. */
  method Replay(q: Queue, ops: seq<Op>) returns (drained: seq<array<Signal>>, removed: seq<Signal>)
    requires q.Valid()
    modifies q, q.backing
    ensures q.Valid() && q.Contents() == AfterOps(ops, old(q.Contents()))
    ensures removed == AllRemoved(ops, old(q.Contents()))
    ensures forall a <- drained :: fresh(a)
    ensures Hold(drained, Drains(ops, old(q.Contents())))
    decreases |ops|
  {
    if ops == [] {
      return [], [];
    }
    ghost var start := q.Contents();
    var out, first := Perform(q, ops[0]);
    ghost var copy := out[..];
    var rest;
    drained, rest := Replay(q, ops[1..]);
    removed := first + rest;
    if ops[0].OnDrain? {
      assert out[..] == copy == start;
      HoldCons(out, drained, Drains(ops[1..], AfterOp(ops[0], start)));
      drained := [out] + drained;
    } else {
      assert Drains(ops, start) == Drains(ops[1..], AfterOp(ops[0], start));
    }
  }
}
