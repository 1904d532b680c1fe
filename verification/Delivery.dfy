/**
 What holds in every run of one session, whatever its producers, its socket and its scheduler do.
 */
module Delivery {
  import opened SessionCore
  import opened Interleaving

  // ---------------------------------------------------------------- reference streams of a run

  /** The buffer that this step makes `sendAsync` accept, if it does. */
  function OfferedBy(s: State, l: Label): seq<byte> {
    match l
    case Push(data) => if Accepts(s.x.tx, data) then data else []
    case UserSend(data) => if s.x.Ready() && Accepts(s.x.tx, data) then data else []
    case _ => []
  }

  /** The part of the requested bytes, as they were when the write was requested, that the socket takes. */
  function TakenBy(s: State, l: Label): seq<byte> {
    if l.Took? && s.x.tx.op.Writing? && l.n <= |s.x.tx.op.data| then s.x.tx.op.data[..l.n] else []
  }

  /** All buffers accepted in a run, concatenated. */
  function Offered(s: State, ls: seq<Label>): seq<byte>
    requires Possible(s, ls)
    decreases |ls|
  {
    if ls == [] then [] else OfferedBy(s, ls[0]) + Offered(Next(s, ls[0]), ls[1..])
  }

  /** All requested bytes the socket took in a run, concatenated. */
  function Taken(s: State, ls: seq<Label>): seq<byte>
    requires Possible(s, ls)
    decreases |ls|
  {
    if ls == [] then [] else TakenBy(s, ls[0]) + Taken(Next(s, ls[0]), ls[1..])
  }

  /** All bytes the socket produced in a run, concatenated. */
  function Produced(ls: seq<Label>): seq<byte> {
    if ls == [] then [] else (if ls[0].Came? then ls[0].chunk else []) + Produced(ls[1..])
  }

  lemma {:induction false} StepAccepted(s: State, l: Label)
    requires Enabled(s, l)
    ensures Next(s, l).x.tx.accepted == s.x.tx.accepted + OfferedBy(s, l)
  {
    assert s.x.tx.accepted + [] == s.x.tx.accepted;
    match l
    case Push(_) =>
    case UserSend(_) =>
    case Advance => HandlersAcceptNothing(s);
    case Return => HandlersAcceptNothing(s);
    case _ =>
  }

  lemma {:induction false} HandlersAcceptNothing(s: State)
    requires s.io.On?
    ensures IsCallback(s.io.top) ==> Resume(s).x.tx == s.x.tx
    ensures !IsCallback(s.io.top) ==> Continue(s).x.tx.accepted == s.x.tx.accepted
  {
  }

  lemma {:induction false} StepWire(s: State, l: Label)
    requires Inv(s) && Enabled(s, l)
    ensures Next(s, l).x.tx.wire == s.x.tx.wire + TakenBy(s, l)
  {
    if l.Took? {
      TookWire(s, l);
    } else {
      assert s.x.tx.wire + [] == s.x.tx.wire;
      OthersWriteNothing(s, l);
    }
  }

  lemma {:induction false} TookWire(s: State, l: Label)
    requires TxOk(s.x.connected, s.x.tx, Owed(s)) && Enabled(s, l) && l.Took?
    ensures Next(s, l).x.tx.wire == s.x.tx.wire + TakenBy(s, l)
  {
    assert s.x.connected ==> From(s.x.tx.flush, s.x.tx.op.start) == s.x.tx.op.data;
  }

  lemma {:induction false} OthersWriteNothing(s: State, l: Label)
    requires Enabled(s, l) && !l.Took?
    ensures Next(s, l).x.tx.wire == s.x.tx.wire
  {
    match l
    case Advance =>
    case Return =>
    case _ =>
  }

  lemma {:induction false} StepInbound(s: State, l: Label)
    requires Enabled(s, l)
    ensures Next(s, l).x.rx.inbound == s.x.rx.inbound + (if l.Came? then l.chunk else [])
  {
    assert s.x.rx.inbound + [] == s.x.rx.inbound;
    match l
    case Advance =>
    case Return =>
    case _ =>
  }

  /** The history fields are the reference streams. */
  lemma {:induction false} RunStreams(s: State, ls: seq<Label>)
    requires Inv(s) && Possible(s, ls)
    ensures End(s, ls).x.tx.accepted == s.x.tx.accepted + Offered(s, ls)
    ensures End(s, ls).x.tx.wire == s.x.tx.wire + Taken(s, ls)
    ensures End(s, ls).x.rx.inbound == s.x.rx.inbound + Produced(ls)
    decreases |ls|
  {
    if ls == [] {
    } else {
      var s' := Next(s, ls[0]);
      NextOk(s, ls[0]);
      RunStreams(s', ls[1..]);
      StepAccepted(s, ls[0]);
      Assoc(s.x.tx.accepted, OfferedBy(s, ls[0]), Offered(s', ls[1..]));
      StepWire(s, ls[0]);
      Assoc(s.x.tx.wire, TakenBy(s, ls[0]), Taken(s', ls[1..]));
      StepInbound(s, ls[0]);
      Assoc(s.x.rx.inbound, if ls[0].Came? then ls[0].chunk else [], Produced(ls[1..]));
    }
  }

  lemma Assoc(a: seq<byte>, b: seq<byte>, c: seq<byte>)
    ensures (a + b) + c == a + (b + c)
  {
  }

  // ---------------------------------------------------------------- first in, first out

  /** The bytes still to be given to the socket, in order. */
  function Unsent(s: State): seq<byte> { From(s.x.tx.flush, s.x.tx.offset + Owed(s)) + s.x.tx.main }

  lemma {:induction false} Buffered(s: State)
    requires TxOk(s.x.connected, s.x.tx, Owed(s))
    ensures s.x.tx.wire <= s.x.tx.accepted
    ensures s.x.connected ==> s.x.tx.accepted == s.x.tx.wire + Unsent(s)
  {
    var t := s.x.tx;
    if s.x.connected {
      Assoc(t.wire, t.flush[t.offset + Owed(s)..], t.main);
    }
  }

  /**
   In every run from a fresh session the bytes taken by the socket are a prefix of the accepted bytes, and as
   long as the session is connected the accepted bytes are the taken ones followed by the buffered ones.
   */
  lemma {:induction false} FirstInFirstOut(
      ssl: bool, room: nat, sendLimit: nat, receiveLimit: nat, ls: seq<Label>)
    requires Possible(Init(ssl, room, sendLimit, receiveLimit), ls)
    ensures
      var s := Init(ssl, room, sendLimit, receiveLimit);
      && Taken(s, ls) <= Offered(s, ls)
      && (End(s, ls).x.connected ==> Offered(s, ls) == Taken(s, ls) + Unsent(End(s, ls)))
  {
    var s := Init(ssl, room, sendLimit, receiveLimit);
    InitOk(ssl, room, sendLimit, receiveLimit);
    RunOk(s, ls);
    RunStreams(s, ls);
    assert End(s, ls).x.tx.accepted == Offered(s, ls);
    assert End(s, ls).x.tx.wire == Taken(s, ls);
    Buffered(End(s, ls));
  }

  // ---------------------------------------------------------------- no lost wake-up

  lemma {:induction false} UnsentIsCovered(s: State)
    requires Inv(s) && s.x.Ready() && s.x.tx.wire != s.x.tx.accepted
    ensures Covered(s)
  {
    Buffered(s);
    assert s.x.tx.wire + [] == s.x.tx.wire;
    assert Unsent(s) != [];
  }

  /**
   A ready session that has not given every accepted byte to the socket has a write outstanding, or a handler
   on the I/O thread bound to reach `trySend` or to disconnect, or a `trySend` posted or about to be.
   */
  lemma {:induction false} NoLostWakeUp(
      ssl: bool, room: nat, sendLimit: nat, receiveLimit: nat, ls: seq<Label>)
    requires Possible(Init(ssl, room, sendLimit, receiveLimit), ls)
    ensures
      var s := Init(ssl, room, sendLimit, receiveLimit);
      End(s, ls).x.Ready() && Taken(s, ls) != Offered(s, ls) ==> Covered(End(s, ls))
  {
    InitOk(ssl, room, sendLimit, receiveLimit);
    WakeUpsLast(Init(ssl, room, sendLimit, receiveLimit), ls);
  }

  lemma {:induction false} WakeUpsLast(s: State, ls: seq<Label>)
    requires Inv(s) && s.x.tx.accepted == s.x.tx.wire == [] && Possible(s, ls)
    ensures End(s, ls).x.Ready() && Taken(s, ls) != Offered(s, ls) ==> Covered(End(s, ls))
  {
    BlankStreams(s, ls);
    RunOk(s, ls);
    if End(s, ls).x.Ready() && Taken(s, ls) != Offered(s, ls) {
      UnsentIsCovered(End(s, ls));
    }
  }

  lemma {:induction false} BlankStreams(s: State, ls: seq<Label>)
    requires Inv(s) && s.x.tx.accepted == s.x.tx.wire == [] && Possible(s, ls)
    ensures End(s, ls).x.tx.accepted == Offered(s, ls) && End(s, ls).x.tx.wire == Taken(s, ls)
  {
    RunStreams(s, ls);
    NothingFirst(Taken(s, ls));
    NothingFirst(Offered(s, ls));
  }

  lemma NothingFirst(a: seq<byte>)
    ensures [] + a == a
  {
  }

  // ---------------------------------------------------------------- one write at a time, from stable memory

  /** A new write or read is only ever requested when none is outstanding. */
  lemma {:induction false} OneAtATime(s: State, l: Label)
    requires Inv(s) && Enabled(s, l)
    ensures Next(s, l).x.tx.op.Writing? && Next(s, l).x.tx.op != s.x.tx.op ==> s.x.tx.op == NoWrite
    ensures Next(s, l).x.rx.op.Reading? && Next(s, l).x.rx.op != s.x.rx.op ==> !s.x.rx.op.Reading?
  {
    OneWrite(s, l);
    OneRead(s, l);
  }

  lemma {:induction false} OneWrite(s: State, l: Label)
    requires Control(s) && Enabled(s, l)
    ensures Next(s, l).x.tx.op.Writing? && Next(s, l).x.tx.op != s.x.tx.op ==> s.x.tx.op == NoWrite
  {
    match l
    case Advance =>
    case Return =>
    case _ =>
  }

  lemma {:induction false} OneRead(s: State, l: Label)
    requires ReceiveInv(s) && Enabled(s, l)
    ensures Next(s, l).x.rx.op.Reading? && Next(s, l).x.rx.op != s.x.rx.op ==> !s.x.rx.op.Reading?
  {
    match l
    case Advance =>
    case Return =>
    case _ =>
  }

  lemma {:induction false} StableStep(s: State, l: Label)
    requires Inv(s) && Enabled(s, l) && !l.RunWrite?
    requires s.x.tx.op != NoWrite && Next(s, l).x.connected
    ensures s.x.connected && Next(s, l).x.tx.op != NoWrite
    ensures Next(s, l).x.tx.flush == s.x.tx.flush && Next(s, l).x.tx.offset == s.x.tx.offset
    ensures !l.Took? ==> Next(s, l).x.tx.op == s.x.tx.op
  {
    match l
    case Advance => StableAdvance(s);
    case Push(data) =>
    case UserSend(data) =>
    case Took(_, _) =>
    case SetLimits(_, _) =>
    case _ => SameOwed(s, l);
  }

  lemma {:induction false} StableAdvance(s: State)
    requires Control(s) && Enabled(s, Advance) && s.x.tx.op != NoWrite && Continue(s).x.connected
    ensures s.x.connected && Continue(s).x.tx == s.x.tx
  {
    match s.io.top
    case Try =>
    case SwapIn =>
    case Start =>
    case Settle(_, _) =>
    case Close =>
    case Clear =>
  }

  /**
   From a write request until its completion handler starts, the flush buffer, and with it the memory the
   request points at, does not change, whatever producers append meanwhile.
   */
  lemma {:induction false} InFlightMemoryIsStable(s: State, ls: seq<Label>)
    requires Inv(s) && Possible(s, ls) && s.x.tx.op.Writing? && End(s, ls).x.connected
    requires forall i :: 0 <= i < |ls| ==> !ls[i].RunWrite?
    ensures s.x.connected && s.x.tx.sending && End(s, ls).x.tx.sending
    ensures From(End(s, ls).x.tx.flush, s.x.tx.op.start) == s.x.tx.op.data
  {
    StableRun(s, ls);
    RunOk(s, ls);
  }

  /** A session never comes back. */
  lemma {:induction false} StaysDown(s: State, ls: seq<Label>)
    requires !s.x.connected && Possible(s, ls)
    ensures !End(s, ls).x.connected
    decreases |ls|
  {
    if ls != [] {
      StaysDown(Next(s, ls[0]), ls[1..]);
    }
  }

  lemma {:induction false} StableRun(s: State, ls: seq<Label>)
    requires Inv(s) && Possible(s, ls) && s.x.tx.op != NoWrite && End(s, ls).x.connected
    requires forall i :: 0 <= i < |ls| ==> !ls[i].RunWrite?
    ensures s.x.connected && End(s, ls).x.tx.op != NoWrite
    ensures End(s, ls).x.tx.flush == s.x.tx.flush
    decreases |ls|
  {
    if ls != [] {
      var s' := Next(s, ls[0]);
      assert End(s, ls) == End(s', ls[1..]);
      NextOk(s, ls[0]);
      if !s'.x.connected { StaysDown(s', ls[1..]); }
      StableStep(s, ls[0]);
      StableRun(s', ls[1..]);
    }
  }

  // ---------------------------------------------------------------- counters and limits

  ghost predicate Within(t: Tx) {
    t.limit > 0 ==> |t.main| <= t.limit && |t.flush| <= t.limit
  }

  /** `_bytes_pending` and `_bytes_sending` count the buffers exactly, so the subtraction never wraps. */
  lemma {:induction false} CountersAreExact(s: State, ls: seq<Label>)
    requires Inv(s) && Possible(s, ls)
    ensures
      var t := End(s, ls).x.tx;
      && t.pending == |t.main| && t.flying == |t.flush| - t.offset && t.flying >= 0
      && (t.flush != [] ==> t.flying > 0)
      && (End(s, ls).x.connected ==> Owed(End(s, ls)) <= t.flying)
  {
    RunOk(s, ls);
  }

  lemma {:induction false} StepWithin(s: State, l: Label)
    requires Control(s) && Enabled(s, l) && !l.SetLimits? && Within(s.x.tx)
    ensures Next(s, l).x.tx.limit == s.x.tx.limit && Within(Next(s, l).x.tx)
  {
    match l
    case Push(_) =>
    case UserSend(_) =>
    case Advance => AdvanceWithin(s);
    case RunWrite =>
    case Took(_, _) =>
    case _ => SameOwed(s, l);
  }

  lemma {:induction false} AdvanceWithin(s: State)
    requires Control(s) && Enabled(s, Advance) && Within(s.x.tx)
    ensures Continue(s).x.tx.limit == s.x.tx.limit && Within(Continue(s).x.tx)
  {
    match s.io.top
    case Try =>
    case SwapIn =>
    case Start =>
    case Settle(_, _) =>
    case Close =>
    case Clear =>
  }

  /** With a fixed send limit the main buffer stays within it, and all buffered bytes within twice the limit. */
  lemma {:induction false} SendLimitBounds(s: State, ls: seq<Label>)
    requires Inv(s) && Possible(s, ls) && Within(s.x.tx)
    requires forall i :: 0 <= i < |ls| ==> !ls[i].SetLimits?
    ensures
      var t := End(s, ls).x.tx;
      t.limit == s.x.tx.limit && (t.limit > 0 ==> |t.main| <= t.limit && |t.main| + t.flying <= 2 * t.limit)
    ensures Within(End(s, ls).x.tx)
    decreases |ls|
  {
    if ls == [] {
    } else {
      NextOk(s, ls[0]);
      StepWithin(s, ls[0]);
      SendLimitBounds(Next(s, ls[0]), ls[1..]);
    }
  }

  /**
   `sendAsync` of a ready session refuses a buffer exactly when it would overrun a set limit, and then changes
   nothing, whether a producer or a callback sends it.
   */
  lemma {:induction false} RejectionChangesNothing(s: State, l: Label, data: seq<byte>)
    requires Enabled(s, l) && (l == Push(data) || (l == UserSend(data) && s.x.Ready()))
    ensures Next(s, l).x == s.x <==> s.x.tx.limit > 0 && |s.x.tx.main| + |data| > s.x.tx.limit
    ensures Next(s, l).x == s.x ==> Next(s, l) == if l.Push? then s.(checked := s.checked - 1) else s
  {
    if Accepts(s.x.tx, data) {
      assert |Next(s, l).x.tx.main| > |s.x.tx.main|;
    }
  }

  // ---------------------------------------------------------------- receiving

  /** How often `initial` can be doubled without exceeding `limit`. */
  function MaxDoublings(initial: nat, limit: nat): (k: nat)
    requires initial > 0
    ensures k > 0 ==> initial * Pow2(k) <= limit
    ensures limit < initial * Pow2(k + 1)
    decreases limit - initial
  {
    DoubleFirst(initial, 0);
    if initial * 2 > limit then 0
    else
      var k := MaxDoublings(initial * 2, limit);
      DoubleFirst(initial, k);
      DoubleFirst(initial, k + 1);
      1 + k
  }

  lemma DoubleFirst(initial: nat, k: nat)
    ensures initial * Pow2(k + 1) == initial * 2 * Pow2(k)
    ensures Pow2(0) == 1
  {
    assert Pow2(k + 1) == 2 * Pow2(k);
  }

  ghost predicate GrownWithin(r: Rx) {
    r.limit > 0 && r.doublings > 0 ==> r.room <= r.limit
  }

  lemma {:induction false} StepGrown(s: State, l: Label)
    requires Enabled(s, l) && !l.SetLimits? && GrownWithin(s.x.rx)
    ensures GrownWithin(Next(s, l).x.rx)
    ensures Next(s, l).x.rx.limit == s.x.rx.limit && Next(s, l).x.rx.initial == s.x.rx.initial
  {
    match l
    case Advance =>
    case Return =>
    case _ =>
  }

  lemma Pow2Monotone(a: nat, b: nat)
    requires a <= b
    ensures Pow2(a) <= Pow2(b)
  {
  }

  lemma Scale(c: nat, a: nat, b: nat)
    requires a <= b
    ensures c * a <= c * b
  {
  }

  lemma {:induction false} MaxDoublingsIsMax(initial: nat, limit: nat, k: nat)
    requires initial > 0 && initial * Pow2(k) <= limit
    ensures k <= MaxDoublings(initial, limit)
  {
    var m := MaxDoublings(initial, limit);
    if k > m {
      Pow2Monotone(m + 1, k);
      Scale(initial, Pow2(m + 1), Pow2(k));
    }
  }

  lemma {:induction false} GrownRun(s: State, ls: seq<Label>)
    requires Inv(s) && Possible(s, ls) && GrownWithin(s.x.rx)
    requires forall i :: 0 <= i < |ls| ==> !ls[i].SetLimits?
    ensures GrownWithin(End(s, ls).x.rx)
    ensures End(s, ls).x.rx.limit == s.x.rx.limit && End(s, ls).x.rx.initial == s.x.rx.initial
    decreases |ls|
  {
    if ls != [] {
      NextOk(s, ls[0]);
      StepGrown(s, ls[0]);
      GrownRun(Next(s, ls[0]), ls[1..]);
    }
  }

  /** In this step `onReceive` returns from a chunk that filled the buffer, and the limit lets the session go on. */
  predicate SurvivesFullRead(s: State, l: Label)
    requires Enabled(s, l)
  {
    l.Return? && s.io.top.InReceive? && s.io.top.size == s.x.rx.room && !OverLimit(s.x.rx, s.io.top.size)
  }

  /** How many full reads the session survived in a run. */
  function FullReads(s: State, ls: seq<Label>): nat
    requires Possible(s, ls)
    decreases |ls|
  {
    if ls == [] then 0
    else (if SurvivesFullRead(s, ls[0]) then 1 else 0) + FullReads(Next(s, ls[0]), ls[1..])
  }

  lemma {:induction false} StepDoublings(s: State, l: Label)
    requires Enabled(s, l)
    ensures Next(s, l).x.rx.doublings == s.x.rx.doublings + if SurvivesFullRead(s, l) then 1 else 0
  {
    match l
    case Advance =>
    case Return =>
    case _ =>
  }

  lemma {:induction false} RunDoublings(s: State, ls: seq<Label>)
    requires Possible(s, ls)
    ensures End(s, ls).x.rx.doublings == s.x.rx.doublings + FullReads(s, ls)
    decreases |ls|
  {
    if ls != [] {
      StepDoublings(s, ls[0]);
      RunDoublings(Next(s, ls[0]), ls[1..]);
    }
  }

  /**
   After `k` full reads that the session survived, the buffer is `room * 2^k`.  With a fixed positive limit a
   grown buffer is within the limit, so `k` is at most the number of doublings of `room` that fit.
   */
  lemma {:induction false} ReceiveBufferGrowth(
      ssl: bool, room: nat, sendLimit: nat, limit: nat, ls: seq<Label>)
    requires Possible(Init(ssl, room, sendLimit, limit), ls)
    requires forall i :: 0 <= i < |ls| ==> !ls[i].SetLimits?
    ensures
      var s := Init(ssl, room, sendLimit, limit);
      var k, r := FullReads(s, ls), End(s, ls).x.rx;
      && r.room == room * Pow2(k)
      && (limit > 0 && k > 0 ==> r.room <= limit)
      && (limit > 0 && room > 0 ==> k <= MaxDoublings(room, limit))
  {
    var s := Init(ssl, room, sendLimit, limit);
    InitOk(ssl, room, sendLimit, limit);
    RunOk(s, ls);
    GrownRun(s, ls);
    RunDoublings(s, ls);
    var r := End(s, ls).x.rx;
    if limit > 0 && room > 0 && r.doublings > 0 {
      MaxDoublingsIsMax(room, limit, r.doublings);
    }
  }

  /** A read that fills the buffer goes on to disconnect if and only if the doubled buffer would exceed a set limit. */
  lemma {:induction false} FullReadAtTheLimit(s: State)
    requires Inv(s) && s.io.On? && s.io.top == InReceive(false, s.x.rx.room) && s.x.rx.room > 0
    ensures
      var t := Next(s, Return);
      if s.x.rx.limit > 0 && s.x.rx.room * 2 > s.x.rx.limit
      then t.io == On(InErr, s.io.below) && t.x == s.x
      else t.x.rx.room == 2 * s.x.rx.room && (t.x.Ready() ==> t.x.rx.op == Reading(t.x.rx.room))
  {
  }

  /**
   No lost read: in every run, a ready session has a read requested, or one finished whose handler will run, or a
   handler on its I/O thread that will request one or disconnect.
   */
  lemma {:induction false} NoLostRead(
      ssl: bool, room: nat, sendLimit: nat, receiveLimit: nat, ls: seq<Label>)
    requires Possible(Init(ssl, room, sendLimit, receiveLimit), ls)
    ensures
      var e := End(Init(ssl, room, sendLimit, receiveLimit), ls);
      && (e.x.Ready() ==> e.x.rx.op != NoRead || ReadsOn(e.io))
      && (e.x.Ready() && e.io == Bottom ==> e.x.rx.receiving && e.x.rx.op != NoRead)
  {
    InitOk(ssl, room, sendLimit, receiveLimit);
    RunOk(Init(ssl, room, sendLimit, receiveLimit), ls);
    var e := End(Init(ssl, room, sendLimit, receiveLimit), ls);
    if e.x.Ready() && e.io == Bottom {
      IdleReads(e);
    }
  }

  /** A callback that asks to receive leaves a ready session with a read out. */
  lemma {:induction false} ReadOnRequest(s: State)
    requires Inv(s) && Enabled(s, UserReceive) && s.x.Ready()
    ensures Next(s, UserReceive).x.rx.op != NoRead && Next(s, UserReceive).x.rx.receiving
    ensures s.x.rx.op == NoRead ==> Next(s, UserReceive).x.rx.op == Reading(s.x.rx.room)
  {
  }

  lemma {:induction false} IdleReads(s: State)
    requires ReceiveInv(s) && s.x.Ready() && s.io == Bottom
    ensures s.x.rx.receiving && s.x.rx.op != NoRead
  {
  }

  /** The chunks handed to `onReceive` concatenate to the bytes read, in order, less at most the last chunk. */
  lemma {:induction false} ReceivedInOrder(
      ssl: bool, room: nat, sendLimit: nat, receiveLimit: nat, ls: seq<Label>)
    requires Possible(Init(ssl, room, sendLimit, receiveLimit), ls)
    ensures
      var e := End(Init(ssl, room, sendLimit, receiveLimit), ls).x;
      && e.rx.delivered <= Produced(ls) && e.rx.received == |e.rx.delivered|
      && (e.connected ==> Produced(ls) == e.rx.delivered + Undelivered(e.rx))
      && (e.connected ==> (e.rx.receiving <==> e.rx.op != NoRead))
  {
    var s := Init(ssl, room, sendLimit, receiveLimit);
    InitOk(ssl, room, sendLimit, receiveLimit);
    RunOk(s, ls);
    RunStreams(s, ls);
    HandedOver(End(s, ls).x);
    assert End(s, ls).x.rx.inbound == Produced(ls);
  }

  lemma {:induction false} HandedOver(x: Session)
    requires RxOk(x.connected, x.rx)
    ensures x.rx.delivered <= x.rx.inbound && x.rx.received == |x.rx.delivered|
    ensures x.connected ==> x.rx.inbound == x.rx.delivered + Undelivered(x.rx)
    ensures x.connected ==> (x.rx.receiving <==> x.rx.op != NoRead)
  {
  }

  /**
   Why `onReceive` must not call `receiveAsync`: arming a read inside `onReceive` leaves the outstanding read
   with fewer cells than the buffer has, because the buffer is reallocated on return, exactly when the chunk
   filled the buffer and the limit allows it to grow.
   */
  lemma {:induction false} ReentrantReceiveIsStale(s: State, size: nat)
    requires Inv(s) && s.x.Ready() && s.io.On? && s.io.top == InReceive(false, size) && size > 0
    ensures
      var t := Next(s.(x := Arm(s.x)), Return);
      t.x.rx.op.Reading? && (t.x.rx.op.room != t.x.rx.room <==> size == s.x.rx.room && !OverLimit(s.x.rx, size))
  {
  }
}
