/**
 With no new sends, no errors and a socket that takes at least one byte per write, a session drains: every
 such run is finite, and when nothing more can happen everything accepted is on the wire.
 */
module Drain {
  import opened SessionCore
  import opened Interleaving
  import opened Delivery

  /** The steps the session and a healthy socket take by themselves. */
  predicate Internal(l: Label) {
    l.Post? || l.RunPosted? || l.RunWrite? || l.Advance? || l.Return? || (l.Took? && !l.err && l.n > 0)
  }

  function FrameWork(f: Frame): nat {
    match f
    case User => 1
    case Start => 2
    case Clear => 2
    case SwapIn => 3
    case Close => 3
    case Try => 4
    case InErr => 4
    case InReceive(_, _) => 5
    case InSend(_) => 5
    case Settle(_, _) => 6
  }

  function StackWork(io: Stack): nat { if io.Bottom? then 0 else FrameWork(io.top) + StackWork(io.below) }

  /** An upper bound on the internal steps still possible: each byte not yet taken can cost a whole cycle. */
  function Work(s: State): int {
    var t := s.x.tx;
    8 * (|t.accepted| - |t.wire|) + (if t.op.Written? then 7 else 0) + StackWork(s.io) + 5 * s.posted + 6 * s.deciding
  }

  lemma {:induction false} StepWork(s: State, l: Label)
    requires Inv(s) && Enabled(s, l) && Internal(l)
    ensures Work(Next(s, l)) < Work(s)
  {
    match l
    case Advance => AdvanceWork(s);
    case Return => ReturnWork(s);
    case Took(err, n) =>
      StepAccepted(s, l);
      StepWire(s, l);
      assert |TakenBy(s, l)| == n;
    case _ =>
  }

  lemma {:induction false} AdvanceWork(s: State)
    requires Enabled(s, Advance)
    ensures Work(Continue(s)) < Work(s)
  {
    match s.io.top
    case Try =>
    case SwapIn =>
    case Start =>
    case Settle(_, _) =>
    case Close =>
    case Clear =>
  }

  lemma {:induction false} ReturnWork(s: State)
    requires Enabled(s, Return)
    ensures Work(Resume(s)) < Work(s)
  {
  }

  lemma {:induction false} RunWork(s: State, ls: seq<Label>)
    requires Inv(s) && Possible(s, ls)
    requires forall i :: 0 <= i < |ls| ==> Internal(ls[i])
    ensures Work(End(s, ls)) >= 0 && |ls| + Work(End(s, ls)) <= Work(s)
    decreases |ls|
  {
    if ls != [] {
      StepWork(s, ls[0]);
      NextOk(s, ls[0]);
      RunWork(Next(s, ls[0]), ls[1..]);
    }
  }

  /** Number of writes the socket finishes in `ls`. */
  function Writes(ls: seq<Label>): nat {
    if ls == [] then 0 else (if ls[0].Took? then 1 else 0) + Writes(ls[1..])
  }

  lemma {:induction false} WritesAreBytes(s: State, ls: seq<Label>)
    requires Inv(s) && Possible(s, ls)
    requires forall i :: 0 <= i < |ls| ==> Internal(ls[i])
    ensures Writes(ls) <= |Taken(s, ls)| && Offered(s, ls) == []
    decreases |ls|
  {
    if ls != [] {
      NextOk(s, ls[0]);
      WritesAreBytes(Next(s, ls[0]), ls[1..]);
      if ls[0].Took? {
        assert |TakenBy(s, ls[0])| >= 1;
      }
    }
  }

  /** Each finished write strictly shrinks what is left, by the bytes it took. */
  lemma {:induction false} EachWriteShrinks(s: State, n: nat)
    requires Inv(s) && s.x.connected && Enabled(s, Took(false, n)) && n > 0
    ensures |Unsent(Next(s, Took(false, n)))| == |Unsent(s)| - n
  {
  }

  /** While anything is left to do, the session or its socket can take an internal step. */
  lemma {:induction false} Progress(s: State)
    requires Inv(s) && s.x.Ready() && Stuck(s)
    ensures s.io == Bottom && !Covered(s)
  {
    assert !Enabled(s, Advance) && !Enabled(s, Return);
    assert !Enabled(s, Post) && !Enabled(s, RunPosted) && !Enabled(s, RunWrite);
    if s.x.tx.op.Writing? {
      assert Enabled(s, Took(false, 1));
    }
  }

  // ---------------------------------------------------------------- a healthy session stays connected

  /** A frame that does not lead to a disconnect: its transfer succeeded, and its chunk is within the limit. */
  predicate HealthyFrame(f: Frame, r: Rx) {
    match f
    case Settle(err, _) => !err
    case InSend(err) => !err
    case InReceive(err, size) => !err && !(r.room == size && OverLimit(r, size))
    case InErr => false
    case Close => false
    case Clear => false
    case _ => true
  }

  predicate HealthyStack(io: Stack, r: Rx) { io.On? ==> HealthyFrame(io.top, r) && HealthyStack(io.below, r) }

  /** A ready session on which nothing has failed and no disconnect has begun. */
  predicate Healthy(s: State) {
    s.x.Ready() && HealthyStack(s.io, s.x.rx) && !(s.x.tx.op.Written? && s.x.tx.op.err)
  }

  lemma {:induction false} HealthyStep(s: State, l: Label)
    requires Inv(s) && Healthy(s) && Enabled(s, l) && Internal(l)
    ensures Healthy(Next(s, l))
  {
    match l
    case Advance => HealthyAdvance(s);
    case Return => HealthyReturn(s);
    case _ =>
  }

  lemma {:induction false} HealthyAdvance(s: State)
    requires Healthy(s) && Enabled(s, Advance)
    ensures Healthy(Continue(s))
  {
    match s.io.top
    case Try =>
    case SwapIn =>
    case Start =>
    case Settle(_, _) =>
  }

  lemma {:induction false} HealthyReturn(s: State)
    requires ReceiveInv(s) && Healthy(s) && Enabled(s, Return)
    ensures Healthy(Resume(s))
  {
    if s.io.top.InReceive? {
      assert s.io.below.Bottom?;
    }
  }

  lemma {:induction false} HealthyRun(s: State, ls: seq<Label>)
    requires Inv(s) && Healthy(s) && Possible(s, ls)
    requires forall i :: 0 <= i < |ls| ==> Internal(ls[i])
    ensures Healthy(End(s, ls))
    decreases |ls|
  {
    if ls != [] {
      NextOk(s, ls[0]);
      HealthyStep(s, ls[0]);
      HealthyRun(Next(s, ls[0]), ls[1..]);
    }
  }

  /** Nothing is left to do: no step that the session and a healthy socket could take. */
  ghost predicate Stuck(s: State) { forall l :: Internal(l) ==> !Enabled(s, l) }

  /**
   Termination of the drain.  A run of internal steps is at most `Work` long and finishes at most one write per
   unsent byte.  From a healthy session, when no internal step is possible any more, the session is still ready,
   everything accepted is on the wire, both buffers are empty, and `onEmpty` was called after the last `onSend`.
   */
  lemma {:induction false} DrainTerminates(s: State, ls: seq<Label>)
    requires Inv(s) && Possible(s, ls)
    requires forall i :: 0 <= i < |ls| ==> Internal(ls[i])
    ensures |ls| <= Work(s) && Writes(ls) <= |s.x.tx.accepted| - |s.x.tx.wire|
    ensures
      var e := End(s, ls);
      Healthy(s) && Stuck(e) ==>
        && e.x.Ready()
        && e.x.tx.wire == e.x.tx.accepted == s.x.tx.accepted
        && e.x.tx.main == [] && e.x.tx.flush == []
        && (e.x.tx.wire != [] ==> e.x.tx.notice == RanEmpty)
  {
    var e := End(s, ls);
    RunWork(s, ls);
    RunOk(s, ls);
    WritesAreBytes(s, ls);
    RunStreams(s, ls);
    assert s.x.tx.accepted + [] == s.x.tx.accepted;
    assert |e.x.tx.wire| <= |e.x.tx.accepted|;
    if Healthy(s) && Stuck(e) {
      HealthyRun(s, ls);
      Progress(e);
      AllSent(e);
    }
  }

  lemma {:induction false} AllSent(s: State)
    requires Inv(s) && s.x.Ready() && s.io == Bottom && !Covered(s)
    ensures s.x.tx.wire == s.x.tx.accepted && s.x.tx.main == [] && s.x.tx.flush == []
    ensures s.x.tx.wire != [] ==> s.x.tx.notice == RanEmpty
  {
    assert s.x.tx.wire + [] + [] == s.x.tx.wire;
  }
}
