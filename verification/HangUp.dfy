/**
 When a session disconnects: exactly when something told it to, and nothing that told it to is lost.
 */
module HangUp {
  import opened SessionCore
  import opened Interleaving
  import opened Delivery

  /** A frame that goes on to disconnect. */
  predicate HangsUp(f: Frame) {
    match f
    case Settle(err, _) => err
    case InSend(err) => err
    case InReceive(err, _) => err
    case InErr => true
    case Close => true
    case _ => false
  }

  predicate HoldsHangUp(io: Stack) { io.On? && (HangsUp(io.top) || HoldsHangUp(io.below)) }

  /** The session is down, or a handler that takes it down is queued or under way. */
  predicate Hanging(s: State) { !s.x.connected || s.discs > 0 || HoldsHangUp(s.io) }

  /**
   What tells a connected session to disconnect: a call, a write or read that failed, a failed handshake, and a
   chunk that filled a buffer which may not grow.
   */
  predicate Fatal(s: State, l: Label)
    requires Enabled(s, l)
  {
    match l
    case AskDisconnect => true
    case RunWrite => s.x.Ready() && s.x.tx.op.err
    case RunRead => s.x.Ready() && s.x.rx.op.err
    case RunHandshake(ok) => s.x.connected && !s.x.handshaked && !ok
    case Return => s.io.top.InReceive? && s.io.top.size == s.x.rx.room && OverLimit(s.x.rx, s.x.rx.room)
    case _ => false
  }

  predicate AnyFatal(s: State, ls: seq<Label>)
    requires Possible(s, ls)
    decreases |ls|
  {
    ls != [] && (Fatal(s, ls[0]) || AnyFatal(Next(s, ls[0]), ls[1..]))
  }

  lemma {:induction false} HangingStep(s: State, l: Label)
    requires Inv(s) && Enabled(s, l)
    ensures Hanging(Next(s, l)) <==> Hanging(s) || Fatal(s, l)
  {
    match l
    case Advance => HangingAdvance(s);
    case Return => HangingReturn(s);
    case RunWrite => HangingPick(s, l);
    case RunRead => HangingPick(s, l);
    case RunHandshake(_) => HangingPick(s, l);
    case _ => HangingOther(s, l);
  }

  lemma {:induction false} HangingAdvance(s: State)
    requires Control(s) && Enabled(s, Advance)
    ensures Hanging(Continue(s)) <==> Hanging(s)
  {
    match s.io.top
    case Try =>
    case SwapIn =>
    case Start =>
    case Settle(_, _) =>
    case Close =>
    case Clear =>
  }

  lemma {:induction false} HangingReturn(s: State)
    requires Enabled(s, Return)
    ensures Hanging(Resume(s)) <==> Hanging(s) || Fatal(s, Return)
  {
  }

  lemma {:induction false} HangingPick(s: State, l: Label)
    requires Enabled(s, l) && (l.RunWrite? || l.RunRead? || l.RunHandshake?)
    ensures Hanging(Next(s, l)) <==> Hanging(s) || Fatal(s, l)
  {
  }

  lemma {:induction false} HangingOther(s: State, l: Label)
    requires Enabled(s, l)
    requires !l.Advance? && !l.Return? && !l.RunWrite? && !l.RunRead? && !l.RunHandshake?
    ensures Hanging(Next(s, l)) <==> Hanging(s) || Fatal(s, l)
  {
  }

  lemma {:induction false} HangingRun(s: State, ls: seq<Label>)
    requires Inv(s) && Possible(s, ls)
    ensures Hanging(End(s, ls)) <==> Hanging(s) || AnyFatal(s, ls)
    decreases |ls|
  {
    if ls != [] {
      NextOk(s, ls[0]);
      HangingStep(s, ls[0]);
      HangingRun(Next(s, ls[0]), ls[1..]);
    }
  }

  /**
   In every run, a session is down or has a disconnect coming if and only if some step told it to disconnect.
   So an idle session with no disconnect handler queued is connected if and only if nothing ever did.
   */
  lemma {:induction false} HangsUpExactlyWhenTold(
      ssl: bool, room: nat, sendLimit: nat, receiveLimit: nat, ls: seq<Label>)
    requires Possible(Init(ssl, room, sendLimit, receiveLimit), ls)
    ensures
      var s := Init(ssl, room, sendLimit, receiveLimit);
      var e := End(s, ls);
      && (Hanging(e) <==> AnyFatal(s, ls))
      && (e.io == Bottom && e.discs == 0 ==> (e.x.connected <==> !AnyFatal(s, ls)))
  {
    InitOk(ssl, room, sendLimit, receiveLimit);
    HangingRun(Init(ssl, room, sendLimit, receiveLimit), ls);
  }

  // ---------------------------------------------------------------- what is left of a session that is down

  /** The flags are off, and once the buffers were cleared the flush buffer stays empty. */
  predicate Down(s: State) {
    !s.x.connected ==>
      && !s.x.tx.sending && !s.x.rx.receiving
      && ((s.io.On? && s.io.top.Clear?) || (s.x.tx.flush == [] && s.x.tx.flying == 0))
  }

  lemma {:induction false} DownStep(s: State, l: Label)
    requires Control(s) && Down(s) && Enabled(s, l)
    ensures Down(Next(s, l))
  {
    match l
    case Advance => DownAdvance(s);
    case Return => DownOther(s, l);
    case _ => DownOther(s, l);
  }

  lemma {:induction false} DownAdvance(s: State)
    requires Control(s) && Down(s) && Enabled(s, Advance)
    ensures Down(Continue(s))
  {
    match s.io.top
    case Try =>
    case SwapIn =>
    case Start =>
    case Settle(_, _) =>
    case Close =>
    case Clear =>
  }

  lemma {:induction false} DownOther(s: State, l: Label)
    requires Control(s) && Down(s) && Enabled(s, l) && !l.Advance?
    ensures Down(Next(s, l))
  {
  }

  lemma {:induction false} DownRun(s: State, ls: seq<Label>)
    requires Inv(s) && Down(s) && Possible(s, ls)
    ensures Down(End(s, ls))
    decreases |ls|
  {
    if ls != [] {
      NextOk(s, ls[0]);
      DownStep(s, ls[0]);
      DownRun(Next(s, ls[0]), ls[1..]);
    }
  }

  /**
   In every run, a session that is down has both flags off, and once its handler cleared the buffers nothing is
   in flight ever after, whatever late producers still append.
   */
  lemma {:induction false} DownForGood(ssl: bool, room: nat, sendLimit: nat, receiveLimit: nat, ls: seq<Label>)
    requires Possible(Init(ssl, room, sendLimit, receiveLimit), ls)
    requires !End(Init(ssl, room, sendLimit, receiveLimit), ls).x.connected
    ensures
      var e := End(Init(ssl, room, sendLimit, receiveLimit), ls);
      && !e.x.tx.sending && !e.x.rx.receiving
      && (e.io == Bottom ==> e.x.tx.flush == [] && e.x.tx.flying == 0)
  {
    InitOk(ssl, room, sendLimit, receiveLimit);
    DownRun(Init(ssl, room, sendLimit, receiveLimit), ls);
  }
}
