/**
 The handlers of a session as single steps, and the proof that each is what the interleaving machine does when
 nothing interrupts it.
 */
module AtomicSession {
  import opened SessionCore
  import opened Interleaving
  import opened Drain

  function TrySend(x: Session): Session {
    if x.tx.sending || !x.Ready() then x
    else
      var t := if x.tx.flush == [] then Swap(x.tx) else x.tx;
      x.(tx := if t.flush == [] then t.(notice := RanEmpty) else Issue(t))
  }

  function Disconnected(x: Session): Session {
    if !x.connected then x
    else
      var h := Hang(x);
      h.(tx := ClearBuffs(h.tx))
  }

  /** The write completion up to where it looks at the error: the written bytes are accounted for. */
  function WriteSettled(x: Session): Session
    requires x.tx.op.Written?
  {
    var op, y := x.tx.op, x.(tx := Retire(x.tx));
    if x.Ready() && op.size > 0 then y.(tx := Acknowledge(y.tx, op.size)) else y
  }

  function WriteDone(x: Session): Session
    requires x.tx.op.Written?
  {
    var y := WriteSettled(x);
    if !x.Ready() then y else if x.tx.op.err then Disconnected(y) else TrySend(y)
  }

  function ReadDone(x: Session): Session
    requires x.rx.op.Arrived?
  {
    var op, y := x.rx.op, x.(rx := RetireRead(x.rx));
    if !x.Ready() then y
    else if op.chunk == [] then (if op.err then Disconnected(y) else Arm(y))
    else
      var r := Deliver(y.rx, op.chunk);
      if r.room == |op.chunk| && OverLimit(r, |op.chunk|) then Disconnected(y.(rx := r))
      else
        var z := y.(rx := if r.room == |op.chunk| then Grow(r, |op.chunk|) else r);
        if op.err then Disconnected(z) else Arm(z)
  }

  /** What `sendAsync` does to the session; the caller still has to dispatch `trySend` when `Wakes` says so. */
  predicate Takes(x: Session, data: seq<byte>) { x.Ready() && data != [] && Accepts(x.tx, data) }

  function SendAsync(x: Session, data: seq<byte>): Session {
    if Takes(x, data) then x.(tx := Append(x.tx, data)) else x
  }

  predicate Wakes(x: Session, data: seq<byte>) { Takes(x, data) && MustWake(x.tx) }

  function HandshakeDone(x: Session, ok: bool): Session {
    if !x.handshaked && ok then Arm(x.(handshaked := true)) else x
  }

  /** A session as `newSession` makes it: not connected, nothing buffered, no limits. */
  function NewSession(ssl: bool): Session {
    Session(false, !ssl, EMPTY_TX, Rx(false, 0, 0, 0, NoRead, [], [], 0, 0))
  }

  /** `connect` sizes the receive buffer, resets the counters, marks the session connected and starts to read. */
  function Connected(x: Session, room: nat): Session {
    var rx := x.rx.(room := room, received := 0, initial := room, doublings := 0);
    Arm(x.(connected := true, tx := x.tx.(flying := 0, sent := 0, pending := 0), rx := rx))
  }

  // ---------------------------------------------------------------- atomic handlers are uninterrupted runs

  /** The I/O thread alone, until its stack is empty. */
  function Finish(s: State): State
    decreases StackWork(s.io)
  {
    if s.io.Bottom? then s
    else if IsCallback(s.io.top) then ResumeWork(s); Finish(Resume(s))
    else ContinueWork(s); Finish(Continue(s))
  }

  lemma {:induction false} ContinueWork(s: State)
    requires s.io.On? && !IsCallback(s.io.top)
    ensures StackWork(Continue(s).io) < StackWork(s.io)
  {
  }

  lemma {:induction false} ResumeWork(s: State)
    requires s.io.On? && IsCallback(s.io.top)
    ensures StackWork(Resume(s).io) < StackWork(s.io)
  {
  }

  lemma {:induction false} FinishIsARun(s: State) returns (ls: seq<Label>)
    ensures Possible(s, ls) && End(s, ls) == Finish(s) && Finish(s).io == Bottom
    ensures forall i :: 0 <= i < |ls| ==> ls[i].Advance? || ls[i].Return?
    decreases StackWork(s.io)
  {
    if s.io.Bottom? {
      ls := [];
    } else {
      var l := if IsCallback(s.io.top) then Return else Advance;
      if l.Return? { ResumeWork(s); } else { ContinueWork(s); }
      var rest := FinishIsARun(Next(s, l));
      Prepend(s, l, rest);
      ls := [l] + rest;
    }
  }

  lemma {:induction false} FinishTry(s: State)
    requires s.io == On(Try, Bottom)
    ensures Finish(s) == s.(x := TrySend(s.x), io := Bottom)
  {
    var s1 := Continue(s);
    if s1.io.On? && s1.io.top.SwapIn? {
      assert Finish(s1) == Finish(Continue(s1));
      FinishStart(Continue(s1));
    } else if s1.io.On? {
      FinishStart(s1);
    }
  }

  lemma {:induction false} FinishStart(s: State)
    requires s.io == On(Start, Bottom)
    ensures Finish(s) ==
      s.(x := s.x.(tx := if s.x.tx.flush == [] then s.x.tx.(notice := RanEmpty) else Issue(s.x.tx)), io := Bottom)
  {
    var s1 := Continue(s);
    if s1.io.On? { FinishUser(s1); }
  }

  lemma {:induction false} FinishUser(s: State)
    requires s.io == On(User, Bottom)
    ensures Finish(s) == s.(io := Bottom)
  {
    assert Finish(Resume(s)) == Resume(s);
  }

  lemma {:induction false} FinishClose(s: State)
    requires s.io == On(Close, Bottom)
    ensures Finish(s) == s.(x := Disconnected(s.x), io := Bottom)
  {
    var s1 := Continue(s);
    if s1.io.On? {
      assert Finish(s1) == Finish(Continue(s1));
      FinishUser(Continue(s1));
    }
  }

  lemma {:induction false} FinishErr(s: State)
    requires s.io == On(InErr, Bottom)
    ensures Finish(s) == s.(x := Disconnected(s.x), io := Bottom)
  {
    assert Finish(s) == Finish(Resume(s));
    FinishClose(Resume(s));
  }

  /** Each atomic handler is the uninterrupted run of the interleaving machine for it. */
  lemma {:induction false} WriteDoneIsARun(s: State)
    requires Enabled(s, RunWrite)
    ensures Finish(Next(s, RunWrite)) == s.(x := WriteDone(s.x))
  {
    var s1 := Next(s, RunWrite);
    if s1.io.On? && s1.io.top.Settle? {
      var s2 := Continue(s1);
      assert Finish(s1) == Finish(s2);
      assert Finish(s2) == Finish(Resume(s2));
      if s.x.tx.op.err { FinishErr(Resume(s2)); } else { FinishTry(Resume(s2)); }
    } else if s1.io.On? {
      if s.x.tx.op.err { FinishErr(s1); } else { FinishTry(s1); }
    }
  }

  lemma {:induction false} ReadDoneIsARun(s: State)
    requires Enabled(s, RunRead)
    ensures Finish(Next(s, RunRead)) == s.(x := ReadDone(s.x))
  {
    var s1 := Next(s, RunRead);
    if s1.io.On? && s1.io.top.InReceive? {
      var s2 := Resume(s1);
      assert Finish(s1) == Finish(s2);
      if s2.io.On? { FinishErr(s2); }
    } else if s1.io.On? {
      FinishErr(s1);
    }
  }

  lemma {:induction false} TrySendIsARun(s: State)
    requires Enabled(s, RunPosted)
    ensures Finish(Next(s, RunPosted)) == s.(x := TrySend(s.x), posted := s.posted - 1)
  {
    FinishTry(Next(s, RunPosted));
  }

  lemma {:induction false} DisconnectedIsARun(s: State)
    requires Enabled(s, RunDisconnect)
    ensures Finish(Next(s, RunDisconnect)) == s.(x := Disconnected(s.x), discs := s.discs - 1)
  {
    FinishClose(Next(s, RunDisconnect));
  }

  lemma {:induction false} HandshakeDoneIsARun(s: State, ok: bool)
    requires Enabled(s, RunHandshake(ok))
    ensures Finish(Next(s, RunHandshake(ok))) ==
      s.(x := HandshakeDone(s.x, ok), shaking := false,
         discs := if !ok && !s.x.handshaked && s.x.connected then s.discs + 1 else s.discs)
  {
    if !s.x.handshaked {
      FinishUser(Next(s, RunHandshake(ok)));
    }
  }

  /** What a producer does for one buffer: check, append, and dispatch `trySend` if it must. */
  function Sending(x: Session, data: seq<byte>): seq<Label> {
    [Check, Push(data)] + if Wakes(x, data) then [Post] else []
  }

  /**
   The atomic send of a ready session is the whole run of a producer.  It appends the data exactly when that
   stays within the limit.
   */
  lemma {:induction false} SendAsyncIsARun(s: State, data: seq<byte>)
    requires s.x.Ready() && data != [] && s.checked == s.deciding == 0
    ensures Possible(s, Sending(s.x, data))
    ensures End(s, Sending(s.x, data)) ==
      s.(x := SendAsync(s.x, data), posted := if Wakes(s.x, data) then s.posted + 1 else s.posted)
    ensures s.x.tx.limit == 0 || |s.x.tx.main| + |data| <= s.x.tx.limit ==>
      && SendAsync(s.x, data).tx.main == s.x.tx.main + data
      && SendAsync(s.x, data).tx.accepted == s.x.tx.accepted + data
      && (Wakes(s.x, data) <==> s.x.tx.main == [] || s.x.tx.flush == [])
    ensures s.x.tx.limit > 0 && |s.x.tx.main| + |data| > s.x.tx.limit ==> SendAsync(s.x, data) == s.x
  {
    var s1 := Next(s, Check);
    var s2 := Next(s1, Push(data));
    if Wakes(s.x, data) {
      assert Possible(Next(s2, Post), []) && End(Next(s2, Post), []) == Next(s2, Post);
      Prepend(s2, Post, []);
      SendSteps(s, data, [Post] + []);
      assert Sending(s.x, data) == [Check] + ([Push(data)] + ([Post] + []));
    } else {
      assert Possible(s2, []) && End(s2, []) == s2;
      SendSteps(s, data, []);
      assert Sending(s.x, data) == [Check] + ([Push(data)] + []);
    }
  }

  lemma {:induction false} SendSteps(s: State, data: seq<byte>, ls: seq<Label>)
    requires s.x.Ready() && data != []
    requires Possible(Next(Next(s, Check), Push(data)), ls)
    ensures Possible(s, [Check] + ([Push(data)] + ls))
    ensures End(s, [Check] + ([Push(data)] + ls)) == End(Next(Next(s, Check), Push(data)), ls)
  {
    Prepend(Next(s, Check), Push(data), ls);
    Prepend(s, Check, [Push(data)] + ls);
  }

  /** Connecting a new session leads to the state the runs of Interleaving start from. */
  lemma {:induction false} ConnectedIsInit(ssl: bool, room: nat, sendLimit: nat, receiveLimit: nat)
    ensures Connected(Limited(NewSession(ssl), sendLimit, receiveLimit), room)
      == Init(ssl, room, sendLimit, receiveLimit).x
    ensures
      var x := Connected(Limited(NewSession(ssl), sendLimit, receiveLimit), room);
      && x.connected && x.handshaked == !ssl && x.tx.limit == sendLimit && x.rx.limit == receiveLimit
      && x.rx.op == (if ssl then NoRead else Reading(room))
  {
  }

  // ---------------------------------------------------------------- what atomic handlers mean

  /** A session that is down keeps nothing: neither flag, and no buffered bytes. */
  predicate Cleared(x: Session) {
    !x.connected ==>
      && !x.tx.sending && !x.rx.receiving && x.tx.main == [] && x.tx.flush == []
      && x.tx.offset == 0 && x.tx.pending == 0 && x.tx.flying == 0
  }

  lemma {:induction false} HandlersClear(x: Session)
    requires Cleared(x)
    ensures Cleared(TrySend(x)) && Cleared(Disconnected(x))
    ensures x.tx.op.Written? ==> Cleared(WriteDone(x))
    ensures x.rx.op.Arrived? ==> Cleared(ReadDone(x))
    ensures Cleared(HandshakeDone(x, true)) && Cleared(HandshakeDone(x, false))
  {
  }

  /** A write completion takes the session down exactly when it failed, and otherwise sends on what is left. */
  lemma {:induction false} WriteOutcome(x: Session, woken: bool)
    requires SessionOk(x, woken) && x.tx.op.Written? && x.Ready()
    ensures WriteDone(x).connected <==> !x.tx.op.err
    ensures WriteDone(x).connected && WriteDone(x).tx.wire != WriteDone(x).tx.accepted ==>
      WriteDone(x).tx.op.Writing?
  {
  }

  /** A read completion takes the session down exactly when it failed or overran the limit; otherwise it reads on. */
  lemma {:induction false} ReadOutcome(x: Session, woken: bool)
    requires SessionOk(x, woken) && x.rx.op.Arrived? && x.Ready()
    ensures
      var full := x.rx.room == |x.rx.op.chunk| > 0;
      ReadDone(x).connected <==> !x.rx.op.err && !(full && x.rx.limit > 0 && 2 * x.rx.room > x.rx.limit)
    ensures ReadDone(x).connected ==> ReadDone(x).rx.op == Reading(ReadDone(x).rx.room)
    ensures ReadDone(x).rx.delivered == x.rx.delivered + x.rx.op.chunk
  {
    assert x.rx.delivered + [] == x.rx.delivered;
  }

  // ---------------------------------------------------------------- what atomic handlers keep

  /** The session between two handlers; `woken` says whether a `trySend` of it is queued. */
  function AtRest(x: Session, woken: bool): State { State(x, Bottom, if woken then 1 else 0, 0, 0, 0, false) }

  /**
   The whole session invariant, wake-ups included: with no `trySend` queued, unsent bytes have a write out.  A
   ready session has a read out, and one that is down keeps nothing.
   */
  ghost predicate SessionOk(x: Session, woken: bool) { Inv(AtRest(x, woken)) && Cleared(x) }

  lemma {:induction false} MoreAwake(x: Session, woken: bool, more: bool)
    requires SessionOk(x, woken) && (woken ==> more)
    ensures SessionOk(x, more)
  {
  }

  lemma {:induction false} FinishOk(s: State)
    requires Inv(s)
    ensures Inv(Finish(s))
  {
    var ls := FinishIsARun(s);
    RunOk(s, ls);
  }

  /** Running a queued `trySend` leaves nothing to wake up for. */
  lemma {:induction false} TrySendOk(x: Session)
    requires SessionOk(x, true)
    ensures SessionOk(TrySend(x), false)
  {
    var s := AtRest(x, true);
    HandlersClear(x);
    NextOk(s, RunPosted);
    FinishOk(Next(s, RunPosted));
    TrySendIsARun(s);
  }

  lemma {:induction false} DisconnectedOk(x: Session, woken: bool)
    requires SessionOk(x, woken)
    ensures SessionOk(Disconnected(x), woken)
  {
    var s := AtRest(x, woken).(discs := 1);
    HandlersClear(x);
    NextOk(s, RunDisconnect);
    FinishOk(Next(s, RunDisconnect));
    DisconnectedIsARun(s);
  }

  lemma {:induction false} WriteDoneOk(x: Session, woken: bool)
    requires SessionOk(x, woken) && x.tx.op.Written?
    ensures SessionOk(WriteDone(x), woken)
  {
    var s := AtRest(x, woken);
    HandlersClear(x);
    NextOk(s, RunWrite);
    FinishOk(Next(s, RunWrite));
    WriteDoneIsARun(s);
  }

  lemma {:induction false} ReadDoneOk(x: Session, woken: bool)
    requires SessionOk(x, woken) && x.rx.op.Arrived?
    ensures SessionOk(ReadDone(x), woken)
  {
    var s := AtRest(x, woken);
    HandlersClear(x);
    NextOk(s, RunRead);
    FinishOk(Next(s, RunRead));
    ReadDoneIsARun(s);
  }

  /** `sendAsync` needs the wake-up it asks for. */
  lemma {:induction false} SendAsyncOk(x: Session, woken: bool, data: seq<byte>)
    requires SessionOk(x, woken)
    ensures SessionOk(SendAsync(x, data), woken || Wakes(x, data))
  {
    if Takes(x, data) {
      var s := AtRest(x, woken);
      var s1 := Next(s, Check);
      var s2 := Next(s1, Push(data));
      NextOk(s, Check);
      NextOk(s1, Push(data));
      if Wakes(x, data) {
        NextOk(s2, Post);
        assert Next(s2, Post) == AtRest(SendAsync(x, data), true).(posted := if woken then 2 else 1);
      } else {
        assert s2 == AtRest(SendAsync(x, data), woken);
      }
    }
  }

  lemma {:induction false} HandshakeDoneOk(x: Session, woken: bool, ok: bool)
    requires SessionOk(x, woken)
    ensures SessionOk(HandshakeDone(x, ok), woken)
  {
    if !x.handshaked && ok {
      var s := AtRest(x, woken).(shaking := true);
      ShakingOk(AtRest(x, woken));
      ShakenOk(s, ok);
      HandlersClear(x);
      assert Finish(Next(s, RunHandshake(ok))) == AtRest(HandshakeDone(x, ok), woken);
    }
  }

  lemma {:induction false} ShakingOk(s: State)
    requires Inv(s)
    ensures Inv(s.(shaking := true))
  {
  }

  lemma {:induction false} ShakenOk(s: State, ok: bool)
    requires Inv(s) && Enabled(s, RunHandshake(ok)) && !s.x.handshaked && ok
    ensures Inv(Finish(Next(s, RunHandshake(ok))))
    ensures Finish(Next(s, RunHandshake(ok))) == s.(x := HandshakeDone(s.x, ok), shaking := false)
  {
    NextOk(s, RunHandshake(ok));
    FinishOk(Next(s, RunHandshake(ok)));
    HandshakeDoneIsARun(s, ok);
  }

  lemma {:induction false} SocketOk(x: Session, woken: bool, l: Label)
    requires SessionOk(x, woken) && (l.Took? || l.Came?) && Enabled(AtRest(x, false), l)
    ensures SessionOk(Next(AtRest(x, false), l).x, woken)
  {
    NextOk(AtRest(x, woken), l);
  }

  lemma {:induction false} LimitedOk(x: Session, woken: bool, sendLimit: nat, receiveLimit: nat)
    requires SessionOk(x, woken)
    ensures SessionOk(Limited(x, sendLimit, receiveLimit), woken)
  {
    NextOk(AtRest(x, woken), SetLimits(sendLimit, receiveLimit));
  }

  lemma {:induction false} ConnectedOk(ssl: bool, room: nat, sendLimit: nat, receiveLimit: nat)
    ensures SessionOk(NewSession(ssl), false)
    ensures SessionOk(Connected(Limited(NewSession(ssl), sendLimit, receiveLimit), room), false)
  {
  }
}
