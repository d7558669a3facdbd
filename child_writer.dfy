/**
  The write handle for a spawned child process's standard input.

  `ChildWriterInner` wraps an optional OS pipe (`Some` = open, `None` = closed);
  `ChildWriter` is the clonable handle whose clones all share one inner value
  behind a lock. Each locked `write` or `close` runs as one atomic step, so any
  concurrent use of the clones is some serialized sequence of steps: `Run` below
  describes every such sequence, and `Transcript` says independently which bytes
  reach the child.

  The OS is not modelled: what `write_all` and `flush` answer is supplied by the
  caller as a reply value, and the bytes the child has received so far are kept
  in the ghost field `sink`.
*/
module StdinWriter {
  import opened Wrappers

  type byte = bv8

  /** An error reported by the operating system (broken pipe, failed flush, ...). */
  datatype IoError = IoError(kind: string)

  /** `Result<(), std::io::Error>`. */
  datatype Outcome = Ok | Err(error: IoError)

  /** What the OS answers to one `write_all`: every byte accepted, or a failure
      after the pipe had already accepted the first `accepted` bytes. A failure
      always leaves at least one byte unsent, so a count that reaches the end
      of the buffer is read as all bytes but the last. */
  datatype WriteReply = AllWritten | WriteFailed(error: IoError, accepted: nat)

  /** The write half of the child's stdin pipe, as handed over by the process
      subsystem. It carries no data of its own in this model. */
  datatype ChildStdin = ChildStdin

  /** The part of `data` that reaches the pipe: all of it, or the strict prefix
      the OS accepted before failing. An empty buffer never reaches the OS. */
  function Accepted(data: seq<byte>, reply: WriteReply): (d: seq<byte>)
    ensures d <= data
    ensures d == data <==> reply.AllWritten? || data == []
  {
    if data == [] then []
    else
      match reply
      case AllWritten => data
      case WriteFailed(_, n) => if n < |data| then data[..n] else data[..|data| - 1]
  }

  /** The result `write_all(..).await?` hands back to the caller: `Ok` exactly
      when the whole buffer was delivered, otherwise the OS error unchanged. */
  function WriteOutcome(data: seq<byte>, reply: WriteReply): (r: Outcome)
    ensures r.Ok? <==> Accepted(data, reply) == data
    ensures r.Err? ==> reply.WriteFailed? && r.error == reply.error
  {
    if data == [] then Ok
    else
      match reply
      case AllWritten => Ok
      case WriteFailed(e, _) => Err(e)
  }

  // ---------------------------------------------------------------------------
  // The writer's abstract state and its serialized histories
  // ---------------------------------------------------------------------------

  /** Whether the pipe is still held, and the bytes the child has received. */
  datatype WriterState = WriterState(open: bool, sink: seq<byte>)

  /** One locked operation, together with what the OS answers to it. */
  datatype Op = Write(data: seq<byte>, reply: WriteReply) | Close(flush: Outcome)

  /** The state after one operation and the result it returns. */
  datatype Effect = Effect(state: WriterState, reply: Outcome)

  /** The state after a sequence of operations and the result of each. */
  datatype Trace = Trace(final: WriterState, replies: seq<Outcome>)

  /** One locked `write` or `close` on the inner writer. */
  function Step(w: WriterState, op: Op): (e: Effect)
    // a closed writer ignores everything and reports success
    ensures !w.open ==> e == Effect(w, Ok)
    // bytes are only ever appended to what the child has received
    ensures w.sink <= e.state.sink
    // a write never changes whether the writer is open, even when it fails
    ensures op.Write? ==> e.state.open == w.open
    // an open writer delivers the accepted bytes and passes on the OS result
    ensures op.Write? && w.open ==>
              e.state.sink == w.sink + Accepted(op.data, op.reply) && e.reply == WriteOutcome(op.data, op.reply)
    // a close always leaves the writer closed and delivers nothing, even when the flush fails
    ensures op.Close? ==> e.state == WriterState(false, w.sink)
    ensures op.Close? && w.open ==> e.reply == op.flush
  {
    match op
    case Write(data, reply) =>
      if w.open then Effect(w.(sink := w.sink + Accepted(data, reply)), WriteOutcome(data, reply))
      else Effect(w, Ok)
    case Close(flush) =>
      if w.open then Effect(w.(open := false), flush)
      else Effect(w, Ok)
  }

  /** The operations of all clones, in the order the lock serialized them. */
  function Run(w: WriterState, ops: seq<Op>): (t: Trace)
    ensures |t.replies| == |ops|
    ensures w.sink <= t.final.sink
    ensures !w.open ==> !t.final.open
    decreases |ops|
  {
    if ops == [] then Trace(w, [])
    else
      var e := Step(w, ops[0]);
      var rest := Run(e.state, ops[1..]);
      Trace(rest.final, [e.reply] + rest.replies)
  }

  /** Reference definition of what the child receives: the accepted bytes of
      every write issued before the first close, in issue order. */
  function Transcript(ops: seq<Op>): (bytes: seq<byte>)
    decreases |ops|
  {
    if ops == [] || ops[0].Close? then []
    else Accepted(ops[0].data, ops[0].reply) + Transcript(ops[1..])
  }

  /** Once closed, no sequence of operations changes anything, and every one of
      them reports success. */
  lemma {:induction false} ClosedWriterIsInert(w: WriterState, ops: seq<Op>)
    requires !w.open
    ensures Run(w, ops).final == w
    ensures forall i :: 0 <= i < |ops| ==> Run(w, ops).replies[i] == Ok
    decreases |ops|
  {
    if ops != [] {
      ClosedWriterIsInert(w, ops[1..]);
    }
  }

  /** Starting open, the child receives exactly the transcript, whole writes
      unbroken and in order, and the writer stays open exactly as long as no
      close was issued. */
  lemma {:induction false} OpenWriterDeliversTranscript(w: WriterState, ops: seq<Op>)
    requires w.open
    ensures Run(w, ops).final.sink == w.sink + Transcript(ops)
    ensures Run(w, ops).final.open <==> forall i :: 0 <= i < |ops| ==> ops[i].Write?
    decreases |ops|
  {
    if ops == [] {
    } else if ops[0].Close? {
      var e := Step(w, ops[0]);
      ClosedWriterIsInert(e.state, ops[1..]);
      assert w.sink + Transcript(ops) == w.sink;
    } else {
      var e := Step(w, ops[0]);
      OpenWriterDeliversTranscript(e.state, ops[1..]);
      assert w.sink + Accepted(ops[0].data, ops[0].reply) + Transcript(ops[1..]) == w.sink + Transcript(ops);
      assert (forall i :: 0 <= i < |ops| ==> ops[i].Write?) <==>
             (forall i :: 0 <= i < |ops[1..]| ==> ops[1..][i].Write?) by {
        forall i | 0 <= i < |ops[1..]| ensures ops[1..][i] == ops[i + 1] { }
      }
    }
  }

  /** The results seen by callers: writes issued while open get the OS result,
      the first close gets the flush result, and everything after it succeeds. */
  lemma {:induction false} RepliesAroundClose(w: WriterState, before: seq<Op>, flush: Outcome, after: seq<Op>)
    requires w.open
    requires forall i :: 0 <= i < |before| ==> before[i].Write?
    ensures var t := Run(w, before + [Close(flush)] + after);
            (forall i :: 0 <= i < |before| ==> t.replies[i] == WriteOutcome(before[i].data, before[i].reply)) &&
            t.replies[|before|] == flush &&
            (forall i :: |before| < i < |t.replies| ==> t.replies[i] == Ok)
    decreases |before|
  {
    var ops := before + [Close(flush)] + after;
    var t := Run(w, ops);
    if before == [] {
      assert ops[0] == Close(flush) && ops[1..] == after;
      var e := Step(w, ops[0]);
      ClosedWriterIsInert(e.state, after);
      forall i | 0 < i < |t.replies| ensures t.replies[i] == Ok {
        assert t.replies[i] == Run(e.state, after).replies[i - 1];
      }
    } else {
      assert ops[0] == before[0];
      assert ops[1..] == before[1..] + [Close(flush)] + after;
      var e := Step(w, ops[0]);
      RepliesAroundClose(e.state, before[1..], flush, after);
      var rest := Run(e.state, ops[1..]);
      assert t.replies == [e.reply] + rest.replies;
      forall i | 0 < i < |before| ensures t.replies[i] == WriteOutcome(before[i].data, before[i].reply) {
        assert t.replies[i] == rest.replies[i - 1];
        assert before[1..][i - 1] == before[i];
      }
    }
  }

  /** A second close (through any clone) succeeds and changes nothing, whatever
      the first close's flush answered. */
  lemma CloseIsIdempotent(w: WriterState, first: Outcome, second: Outcome)
    ensures Run(w, [Close(first), Close(second)]).final == WriterState(false, w.sink)
    ensures Run(w, [Close(first), Close(second)]).replies[1] == Ok
  {
    var e := Step(w, Close(first));
    assert [Close(first), Close(second)][1..] == [Close(second)];
    assert Run(e.state, [Close(second)]).replies == [Ok];
  }

  /** A write racing a close: whichever the lock serves first, the writer ends
      closed. Served first, the write delivers what the OS accepted (all of it
      when the OS accepts it in full) and reports the OS result; served second,
      it delivers nothing and reports `Ok`. */
  lemma WriteRacingClose(w: WriterState, data: seq<byte>, reply: WriteReply, flush: Outcome)
    requires w.open
    ensures Run(w, [Write(data, reply), Close(flush)]).final == WriterState(false, w.sink + Accepted(data, reply))
    ensures Run(w, [Write(data, reply), Close(flush)]).replies == [WriteOutcome(data, reply), flush]
    ensures Run(w, [Close(flush), Write(data, reply)]).final == WriterState(false, w.sink)
    ensures Run(w, [Close(flush), Write(data, reply)]).replies == [flush, Ok]
  {
    var writeFirst := [Write(data, reply), Close(flush)];
    var closeFirst := [Close(flush), Write(data, reply)];
    OpenWriterDeliversTranscript(w, writeFirst);
    OpenWriterDeliversTranscript(w, closeFirst);
    assert Transcript(writeFirst) == Accepted(data, reply) + Transcript([Close(flush)]);
    RepliesAroundClose(w, [Write(data, reply)], flush, []);
    assert [Write(data, reply)] + [Close(flush)] + [] == writeFirst;
    RepliesAroundClose(w, [], flush, [Write(data, reply)]);
    assert [] + [Close(flush)] + [Write(data, reply)] == closeFirst;
  }

  // ---------------------------------------------------------------------------
  // The inner writer: an optional pipe mutated in place
  // ---------------------------------------------------------------------------

  class ChildWriterInner {
    /** `Some` while the pipe is held, `None` once taken (or never given). */
    var stdin: Option<ChildStdin>
    /** The bytes the child process has received through the pipe. */
    ghost var sink: seq<byte>

    ghost function State(): WriterState
      reads this
    {
      WriterState(stdin.Some?, sink)
    }

    /** `From<ChildStdin>`: an open writer. */
    constructor FromStdin(pipe: ChildStdin)
      ensures stdin == Some(pipe)
      ensures State() == WriterState(true, [])
    {
      stdin := Some(pipe);
      sink := [];
    }

    /** `From<Option<ChildStdin>>`: open when a pipe is present, closed otherwise. */
    constructor FromOption(pipe: Option<ChildStdin>)
      ensures stdin == pipe
      ensures State() == WriterState(pipe.Some?, [])
    {
      stdin := pipe;
      sink := [];
    }

    /** Writes all of `data` when open; a no-op reporting success when closed.
        The pipe is only borrowed, never taken or replaced. */
    method Write(data: seq<byte>, reply: WriteReply) returns (r: Outcome)
      modifies this
      ensures stdin == old(stdin)
      ensures Effect(State(), r) == Step(old(State()), Op.Write(data, reply))
    {
      match stdin
      case Some(_) =>
        sink := sink + Accepted(data, reply);
        r := WriteOutcome(data, reply);
      case None =>
        r := Ok;
    }

    /** Takes the pipe out, then flushes it: the writer is closed before the
        flush can fail. On a closed writer, a no-op reporting success. */
    method Close(flush: Outcome) returns (r: Outcome)
      modifies this
      ensures stdin == None
      ensures Effect(State(), r) == Step(old(State()), Op.Close(flush))
    {
      var taken := stdin;
      stdin := None;
      match taken
      case Some(_) =>
        r := flush;
      case None =>
        r := Ok;
    }
  }

  // ---------------------------------------------------------------------------
  // The shared, clonable handle
  // ---------------------------------------------------------------------------

  /** Every clone holds the same inner writer; each method holds the lock for
      its whole duration, which makes it one atomic step on that writer. */
  class ChildWriter {
    const inner: ChildWriterInner

    /** `From<ChildStdin>` for the handle. */
    constructor FromStdin(pipe: ChildStdin)
      ensures fresh(inner)
      ensures inner.State() == WriterState(true, [])
    {
      inner := new ChildWriterInner.FromStdin(pipe);
    }

    /** `From<Option<ChildStdin>>` for the handle. */
    constructor FromOption(pipe: Option<ChildStdin>)
      ensures fresh(inner)
      ensures inner.State() == WriterState(pipe.Some?, [])
    {
      inner := new ChildWriterInner.FromOption(pipe);
    }

    /** A clone shares the inner writer; it never copies it. */
    method Clone() returns (c: ChildWriter)
      ensures fresh(c)
      ensures c.inner == inner
    {
      c := new ChildWriter.Share(inner);
    }

    constructor Share(inner: ChildWriterInner)
      ensures this.inner == inner
    {
      this.inner := inner;
    }

    method Write(data: seq<byte>, reply: WriteReply) returns (r: Outcome)
      modifies inner
      ensures Effect(inner.State(), r) == Step(old(inner.State()), Op.Write(data, reply))
    {
      r := inner.Write(data, reply);
    }

    method Close(flush: Outcome) returns (r: Outcome)
      modifies inner
      ensures Effect(inner.State(), r) == Step(old(inner.State()), Op.Close(flush))
    {
      r := inner.Close(flush);
    }
  }

  /** Two clones of one handle: a close through one makes a later write through
      the other a silent no-op that delivers nothing. */
  method CloseThroughOneClone(pipe: ChildStdin, data: seq<byte>, reply: WriteReply, flush: Outcome,
                              lateData: seq<byte>, lateReply: WriteReply)
    returns (first: Outcome, closed: Outcome, late: Outcome, ghost delivered: seq<byte>)
    ensures first == WriteOutcome(data, reply)
    ensures closed == flush
    ensures late == Ok
    ensures delivered == Accepted(data, reply)
  {
    var a := new ChildWriter.FromStdin(pipe);
    var b := a.Clone();
    first := b.Write(data, reply);
    closed := a.Close(flush);
    late := b.Write(lateData, lateReply);
    delivered := b.inner.sink;
  }

  /** A handle built without a pipe: writes succeed with nothing delivered, and
      closing succeeds. */
  method AbsentPipe(data: seq<byte>, reply: WriteReply, flush: Outcome)
    returns (written: Outcome, closed: Outcome, ghost delivered: seq<byte>)
    ensures written == Ok && closed == Ok
    ensures delivered == []
  {
    var w := new ChildWriter.FromOption(None);
    written := w.Write(data, reply);
    closed := w.Close(flush);
    delivered := w.inner.sink;
  }
}
