/**
 One session under every interleaving of its producers with its I/O thread.

 Producers are any number of threads inside `sendAsync`: past the readiness check (`checked`), or past the
 unlock with a `trySend` still to dispatch (`deciding`).  Handlers of the session are serialised; the I/O
 thread is a stack of frames, each frame naming the fragment that runs next, so that a callback which calls
 back into the session runs `trySend` nested, as `dispatch` on that thread does.  Handlers waiting on the
 I/O service are counted, not ordered, so the results hold for every scheduling order.
 */
module Interleaving {
  import opened SessionCore

  datatype Frame =
    | Try                                  // entering trySend
    | SwapIn                               // past its guard, about to lock and swap
    | Start                                // about to test the flush buffer and write
    | Settle(err: bool, size: nat)         // write completion, about to account for size bytes
    | InSend(err: bool)                    // inside onSend
    | InErr                                // inside onErr, with disconnect to follow
    | Close                                // entering disconnect on this thread
    | Clear                                // flags dropped, about to lock and clear the buffers
    | User                                 // inside any other callback or foreign handler
    | InReceive(err: bool, size: nat)      // inside onReceive

  datatype Stack = Bottom | On(top: Frame, below: Stack)

  datatype State = State(
    x: Session, io: Stack,
    posted: nat,     // trySend handlers waiting on the I/O service
    discs: nat,      // disconnect handlers waiting on the I/O service
    checked: nat,    // producers past the readiness check
    deciding: nat,   // producers that must still dispatch trySend
    shaking: bool)   // the SSL handshake is outstanding

  datatype Label =
    // producers and other threads
    | Check | Push(data: seq<byte>) | Post | AskDisconnect | SetLimits(sendLimit: nat, receiveLimit: nat)
    // the I/O thread picks up a handler
    | RunPosted | RunDisconnect | RunWrite | RunRead | RunHandshake(ok: bool) | RunOther
    // the I/O thread continues
    | Advance | Return | UserSend(data: seq<byte>) | UserReceive
    // the socket
    | Took(err: bool, n: nat) | Came(err: bool, chunk: seq<byte>)

  predicate IsCallback(f: Frame) { f.User? || f.InSend? || f.InErr? || f.InReceive? }

  predicate InsideReceive(io: Stack) {
    io.On? && (io.top.InReceive? || InsideReceive(io.below))
  }

  predicate Enabled(s: State, l: Label) {
    match l
    case Check => s.x.Ready()
    case Push(data) => s.checked > 0 && data != []
    case Post => s.deciding > 0
    case AskDisconnect => s.x.connected
    case SetLimits(_, _) => true
    case RunPosted => s.io.Bottom? && s.posted > 0
    case RunDisconnect => s.io.Bottom? && s.discs > 0
    case RunWrite => s.io.Bottom? && s.x.tx.op.Written?
    case RunRead => s.io.Bottom? && s.x.rx.op.Arrived?
    case RunHandshake(_) => s.io.Bottom? && s.shaking
    case RunOther => s.io.Bottom?
    case Advance => s.io.On? && !IsCallback(s.io.top)
    case Return => s.io.On? && IsCallback(s.io.top)
    case UserSend(data) => s.io.On? && IsCallback(s.io.top) && data != []
    case UserReceive => s.io.On? && IsCallback(s.io.top) && !InsideReceive(s.io)
    case Took(err, n) =>
      s.x.tx.op.Writing? && n <= |s.x.tx.op.data| && (!s.x.connected ==> err && n == 0)
    case Came(err, chunk) =>
      s.x.rx.op.Reading? && |chunk| <= s.x.rx.op.room && (!s.x.connected ==> err && chunk == [])
  }

  function WithTx(s: State, t: Tx): State { s.(x := s.x.(tx := t)) }
  function WithRx(s: State, r: Rx): State { s.(x := s.x.(rx := r)) }

  /** What follows a finished transfer: `trySend` again, or on an error `onErr` and then disconnect. */
  function AfterWrite(err: bool): Frame { if err then InErr else Try }

  /** The I/O thread runs the fragment on top of its stack. */
  function Continue(s: State): State
    requires s.io.On? && !IsCallback(s.io.top)
  {
    var t, rest := s.x.tx, s.io.below;
    match s.io.top
    case Try =>
      if t.sending || !s.x.Ready() then s.(io := rest)
      else s.(io := On(if t.flush == [] then SwapIn else Start, rest))
    case SwapIn => WithTx(s, Swap(t)).(io := On(Start, rest))
    case Start =>
      if t.flush == [] then WithTx(s, t.(notice := RanEmpty)).(io := On(User, rest))
      else WithTx(s, Issue(t)).(io := rest)
    case Settle(err, size) => WithTx(s, Acknowledge(t, size)).(io := On(InSend(err), rest))
    case Close =>
      if !s.x.connected then s.(io := rest) else s.(x := Hang(s.x), io := On(Clear, rest))
    case Clear => WithTx(s, ClearBuffs(t)).(io := On(User, rest))
  }

  /** The callback on top of the stack returns to the handler that made it. */
  function Resume(s: State): State
    requires s.io.On? && IsCallback(s.io.top)
  {
    var r, rest := s.x.rx, s.io.below;
    match s.io.top
    case User => s.(io := rest)
    case InSend(err) => s.(io := On(AfterWrite(err), rest))
    case InErr => s.(io := On(Close, rest))
    case InReceive(err, size) =>
      if r.room == size && OverLimit(r, size) then s.(io := On(InErr, rest))
      else
        var s' := if r.room == size then WithRx(s, Grow(r, size)) else s;
        if err then s'.(io := On(InErr, rest)) else s'.(x := Arm(s'.x), io := rest)
  }

  function PickWrite(s: State): State
    requires s.x.tx.op.Written?
  {
    var op, s' := s.x.tx.op, WithTx(s, Retire(s.x.tx));
    if !s.x.Ready() then s'
    else if op.size > 0 then s'.(io := On(Settle(op.err, op.size), s.io))
    else s'.(io := On(AfterWrite(op.err), s.io))
  }

  function PickRead(s: State): State
    requires s.x.rx.op.Arrived?
  {
    var op, s' := s.x.rx.op, WithRx(s, RetireRead(s.x.rx));
    if !s.x.Ready() then s'
    else if |op.chunk| > 0 then
      WithRx(s', Deliver(s'.x.rx, op.chunk)).(io := On(InReceive(op.err, |op.chunk|), s.io))
    else if op.err then s'.(io := On(InErr, s.io))
    else s'.(x := Arm(s'.x))
  }

  function PickHandshake(s: State, ok: bool): State {
    var s' := s.(shaking := false);
    if s.x.handshaked then s'
    else if ok then s'.(x := Arm(s.x.(handshaked := true)), io := On(User, s.io))
    else s'.(discs := if s.x.connected then s.discs + 1 else s.discs, io := On(User, s.io))
  }

  function Next(s: State, l: Label): State
    requires Enabled(s, l)
  {
    var t := s.x.tx;
    match l
    case Check => s.(checked := s.checked + 1)
    case Push(data) =>
      var s' := s.(checked := s.checked - 1);
      if !Accepts(t, data) then s'
      else WithTx(s', Append(t, data)).(deciding := if MustWake(t) then s.deciding + 1 else s.deciding)
    case Post => s.(deciding := s.deciding - 1, posted := s.posted + 1)
    case AskDisconnect => s.(discs := s.discs + 1)
    case SetLimits(a, b) => s.(x := Limited(s.x, a, b))
    case RunPosted => s.(posted := s.posted - 1, io := On(Try, s.io))
    case RunDisconnect => s.(discs := s.discs - 1, io := On(Close, s.io))
    case RunWrite => PickWrite(s)
    case RunRead => PickRead(s)
    case RunHandshake(ok) => PickHandshake(s, ok)
    case RunOther => s.(io := On(User, s.io))
    case Advance => Continue(s)
    case Return => Resume(s)
    case UserSend(data) =>
      if !s.x.Ready() || !Accepts(t, data) then s
      else WithTx(s, Append(t, data)).(io := if MustWake(t) then On(Try, s.io) else s.io)
    case UserReceive => s.(x := Arm(s.x))
    case Took(err, n) => WithTx(s, Transfer(t, err, n))
    case Came(err, chunk) => WithRx(s, Arrive(s.x.rx, err, chunk))
  }

  /** A session right after `connect`: a TCP session already reads, an SSL session waits for its handshake. */
  function Init(ssl: bool, room: nat, sendLimit: nat, receiveLimit: nat): State {
    var rx := Rx(false, room, receiveLimit, 0, NoRead, [], [], room, 0);
    State(Arm(Session(true, !ssl, EMPTY_TX.(limit := sendLimit), rx)), Bottom, 0, 0, 0, 0, ssl)
  }

  /** The labels can be executed in order from `s`. */
  predicate Possible(s: State, ls: seq<Label>)
    decreases |ls|
  {
    ls == [] || (Enabled(s, ls[0]) && Possible(Next(s, ls[0]), ls[1..]))
  }

  function End(s: State, ls: seq<Label>): State
    requires Possible(s, ls)
    decreases |ls|
  {
    if ls == [] then s else End(Next(s, ls[0]), ls[1..])
  }

  // ---------------------------------------------------------------- the invariant

  /** Bytes on the wire that the flush offset does not count yet. */
  function Owed(s: State): nat {
    if s.io.On? && s.io.top.Settle? then s.io.top.size
    else if s.x.tx.op.Written? then s.x.tx.op.size else 0
  }

  predicate CallbacksOnly(io: Stack) { io.On? ==> IsCallback(io.top) && CallbacksOnly(io.below) }

  /** A frame that goes on to reach `trySend` with a look at both buffers, or to disconnect. */
  predicate Bound(f: Frame, t: Tx) {
    f.Try? || f.SwapIn? || f.Settle? || f.InSend? || f.InErr? || f.Close? || (f.Start? && t.flush != [])
  }

  predicate InsideBound(io: Stack) { io.On? && (io.top.InSend? || io.top.InErr? || InsideBound(io.below)) }

  /** Below the top there are only callbacks, and of their handlers only those around `onSend` and `onErr` are bound. */
  predicate BoundIn(io: Stack, t: Tx) { io.On? && (Bound(io.top, t) || InsideBound(io.below)) }

  /** Somebody will still look at the send buffers. */
  predicate Covered(s: State) {
    || s.x.tx.op != NoWrite
    || BoundIn(s.io, s.x.tx)
    || s.posted > 0
    || s.deciding > 0
  }

  ghost predicate TopOk(s: State) {
    var t := s.x.tx;
    s.io.On? ==>
      match s.io.top
      case SwapIn => s.x.Ready() && t.flush == [] && !t.sending
      case Start => s.x.Ready() && !t.sending
      case Settle(_, size) => s.x.Ready() && size > 0 && t.op == NoWrite
      case Clear => !s.x.connected
      case _ => true
  }

  /** Unsent bytes of a ready session are always covered; a non-empty flush buffer by the I/O side alone. */
  ghost predicate Woken(s: State) {
    var t := s.x.tx;
    s.x.Ready() ==>
      && (t.flush != [] ==> t.sending || BoundIn(s.io, t))
      && (t.flush == [] && t.main != [] ==> BoundIn(s.io, t) || s.posted > 0 || s.deciding > 0)
      && (t.notice.SentSome? ==> t.sending || BoundIn(s.io, t) || (s.io.On? && s.io.top.Start?))
  }

  /** Before the SSL handshake nothing was sent. */
  predicate Untouched(s: State) {
    var t := s.x.tx;
    s.checked == 0 && t.main == [] && t.flush == [] && t.accepted == [] && t.notice.Fresh?
  }

  /** Which thread holds which obligation; nothing here is about the bytes themselves. */
  ghost predicate Control(s: State) {
    && (s.io.On? ==> CallbacksOnly(s.io.below))
    && (s.x.connected ==> (s.x.tx.sending <==> s.x.tx.op != NoWrite) && (s.x.tx.sending ==> s.x.tx.flush != []))
    && TopOk(s)
    && Woken(s)
    && (!s.x.handshaked ==> Untouched(s))
  }

  /** A read completion starts only on an idle I/O thread, so its callback is the oldest frame. */
  predicate ReceiveAtBottom(io: Stack) {
    io.On? ==> (io.top.InReceive? ==> io.below.Bottom?) && ReceiveAtBottom(io.below)
  }

  /** A frame that goes on to read again or to disconnect. */
  predicate ReadsOn(io: Stack) {
    io.On? && (io.top.InReceive? || io.top.InErr? || io.top.Close? || ReadsOn(io.below))
  }

  /** No lost read: a ready session has a read out, or a handler that will request one or disconnect. */
  predicate Reads(s: State) { s.x.Ready() ==> s.x.rx.op != NoRead || ReadsOn(s.io) }

  ghost predicate ReceiveInv(s: State) {
    && RxOk(s.x.connected, s.x.rx)
    && Reads(s)
    && ReceiveAtBottom(s.io)
    && (!s.x.handshaked ==> s.x.rx.op == NoRead)
    && (InsideReceive(s.io) ==> s.x.rx.op == NoRead && !s.x.rx.receiving)
  }

  ghost predicate Inv(s: State) {
    && TxOk(s.x.connected, s.x.tx, Owed(s))
    && Control(s)
    && ReceiveInv(s)
  }

  lemma InitOk(ssl: bool, room: nat, sendLimit: nat, receiveLimit: nat)
    ensures Inv(Init(ssl, room, sendLimit, receiveLimit))
  {
  }

  /** Every step of every thread keeps the invariant. */
  lemma NextOk(s: State, l: Label)
    requires Inv(s) && Enabled(s, l)
    ensures Inv(Next(s, l))
  {
    TxNextOk(s, l);
    ControlNextOk(s, l);
    ReceiveNextOk(s, l);
  }

  lemma {:induction false} TxNextOk(s: State, l: Label)
    requires TxOk(s.x.connected, s.x.tx, Owed(s)) && Control(s) && Enabled(s, l)
    ensures TxOk(Next(s, l).x.connected, Next(s, l).x.tx, Owed(Next(s, l)))
  {
    match l
    case Push(data) => SendTxOk(s, l, data);
    case UserSend(data) => SendTxOk(s, l, data);
    case RunWrite => SocketTxOk(s, l);
    case Took(_, _) => SocketTxOk(s, l);
    case Advance => AdvanceTxOk(s);
    case _ => QuietTxOk(s, l);
  }

  lemma {:induction false} QuietTxOk(s: State, l: Label)
    requires TxOk(s.x.connected, s.x.tx, Owed(s)) && Control(s) && Enabled(s, l)
    requires !l.Push? && !l.UserSend? && !l.RunWrite? && !l.Took? && !l.Advance?
    ensures TxOk(Next(s, l).x.connected, Next(s, l).x.tx, Owed(Next(s, l)))
  {
    if l.SetLimits? {
      LimitOk(s.x.connected, s.x.tx, Owed(s), l.sendLimit);
      assert Owed(Next(s, l)) == Owed(s);
    } else {
      SameOwed(s, l);
    }
  }

  lemma {:induction false} SendTxOk(s: State, l: Label, data: seq<byte>)
    requires TxOk(s.x.connected, s.x.tx, Owed(s)) && Control(s) && Enabled(s, l)
    requires l == Push(data) || l == UserSend(data)
    ensures TxOk(Next(s, l).x.connected, Next(s, l).x.tx, Owed(Next(s, l)))
  {
    AppendOk(s.x.connected, s.x.tx, Owed(s), data);
    OnlyAppends(s, l, data);
  }

  lemma {:induction false} OnlyAppends(s: State, l: Label, data: seq<byte>)
    requires Enabled(s, l) && (l == Push(data) || l == UserSend(data))
    ensures Next(s, l).x.tx == s.x.tx || Next(s, l).x.tx == Append(s.x.tx, data)
    ensures Owed(Next(s, l)) == Owed(s) && Next(s, l).x.connected == s.x.connected
  {
  }

  lemma {:induction false} SocketTxOk(s: State, l: Label)
    requires TxOk(s.x.connected, s.x.tx, Owed(s)) && Control(s) && Enabled(s, l)
    requires l.RunWrite? || l.Took?
    ensures TxOk(Next(s, l).x.connected, Next(s, l).x.tx, Owed(Next(s, l)))
  {
    if l.RunWrite? {
      RetireOk(s.x.connected, s.x.tx, Owed(s));
    } else {
      TransferOk(s.x.connected, s.x.tx, l.err, l.n);
    }
  }

  lemma LimitOk(live: bool, t: Tx, owed: nat, a: nat)
    requires TxOk(live, t, owed)
    ensures TxOk(live, t.(limit := a), owed)
  {
  }

  /** The other labels neither touch the buffers nor account for written bytes. */
  lemma {:induction false} SameOwed(s: State, l: Label)
    requires Control(s) && Enabled(s, l)
    requires !l.Push? && !l.UserSend? && !l.RunWrite? && !l.Took? && !l.Advance? && !l.SetLimits?
    ensures Owed(Next(s, l)) == Owed(s)
    ensures Next(s, l).x.connected == s.x.connected
    ensures Next(s, l).x.tx == s.x.tx
  {
  }

  lemma AdvanceTxOk(s: State)
    requires TxOk(s.x.connected, s.x.tx, Owed(s)) && Control(s) && Enabled(s, Advance)
    ensures TxOk(Continue(s).x.connected, Continue(s).x.tx, Owed(Continue(s)))
  {
    var live, t := s.x.connected, s.x.tx;
    match s.io.top
    case Try => assert Owed(Continue(s)) == Owed(s);
    case SwapIn => SwapOk(live, t);
    case Start => if t.flush != [] { IssueOk(live, t); }
    case Settle(_, size) => AcknowledgeOk(live, t, size);
    case Close => CloseTxOk(s);
    case Clear =>
  }

  lemma {:induction false} CloseTxOk(s: State)
    requires TxOk(s.x.connected, s.x.tx, Owed(s)) && Enabled(s, Advance) && s.io.top.Close?
    ensures TxOk(Continue(s).x.connected, Continue(s).x.tx, Owed(Continue(s)))
  {
    if s.x.connected {
      HangOk(s.x.tx, Owed(s));
    } else {
      assert Continue(s).x == s.x;
    }
  }

  lemma {:induction false} ControlNextOk(s: State, l: Label)
    requires Control(s) && Enabled(s, l)
    ensures Control(Next(s, l))
  {
    match l
    case Advance => AdvanceControlOk(s);
    case Return => ReturnControlOk(s);
    case RunWrite => PickControlOk(s, l);
    case RunRead => PickControlOk(s, l);
    case RunHandshake(_) => PickControlOk(s, l);
    case UserSend(data) => UserSendControlOk(s, data);
    case Push(data) => PushControlOk(s, data);
    case Took(_, _) => ThreadControlOk(s, l);
    case Came(_, _) => ThreadControlOk(s, l);
    case UserReceive => ThreadControlOk(s, l);
    case _ => QueueControlOk(s, l);
  }

  lemma {:induction false} PushControlOk(s: State, data: seq<byte>)
    requires Control(s) && Enabled(s, Push(data))
    ensures Control(Next(s, Push(data)))
  {
  }

  lemma {:induction false} ThreadControlOk(s: State, l: Label)
    requires Control(s) && Enabled(s, l) && (l.Took? || l.Came? || l.UserReceive?)
    ensures Control(Next(s, l))
  {
  }

  lemma {:induction false} QueueControlOk(s: State, l: Label)
    requires Control(s) && Enabled(s, l)
    requires l.Check? || l.Post? || l.AskDisconnect? || l.SetLimits? || l.RunPosted? || l.RunDisconnect? || l.RunOther?
    ensures Control(Next(s, l))
  {
  }

  lemma {:induction false} PickControlOk(s: State, l: Label)
    requires Control(s) && Enabled(s, l)
    requires l.RunWrite? || l.RunRead? || l.RunHandshake?
    ensures Control(Next(s, l))
  {
  }

  lemma {:induction false} ReturnControlOk(s: State)
    requires Control(s) && Enabled(s, Return)
    ensures Control(Resume(s))
  {
  }

  lemma {:induction false} UserSendControlOk(s: State, data: seq<byte>)
    requires Control(s) && Enabled(s, UserSend(data))
    ensures Control(Next(s, UserSend(data)))
  {
  }

  lemma {:induction false} AdvanceControlOk(s: State)
    requires Control(s) && Enabled(s, Advance)
    ensures Control(Continue(s))
  {
  }

  lemma {:induction false} ReceiveNextOk(s: State, l: Label)
    requires ReceiveInv(s) && Enabled(s, l)
    ensures ReceiveInv(Next(s, l))
  {
    match l
    case RunRead => ReadOk(s);
    case Return => ReturnReceiveOk(s);
    case Came(err, chunk) => CameOk(s.x, err, chunk);
    case Advance => AdvanceReceiveOk(s);
    case RunHandshake(_) => ArmReceiveOk(s, l);
    case UserReceive => ArmReceiveOk(s, l);
    case SetLimits(_, _) => ArmReceiveOk(s, l);
    case _ => QuietReceiveOk(s, l);
  }

  lemma {:induction false} AdvanceReceiveOk(s: State)
    requires ReceiveInv(s) && Enabled(s, Advance)
    ensures ReceiveInv(Continue(s))
  {
  }

  lemma {:induction false} ArmReceiveOk(s: State, l: Label)
    requires ReceiveInv(s) && Enabled(s, l) && (l.RunHandshake? || l.UserReceive? || l.SetLimits?)
    ensures ReceiveInv(Next(s, l))
  {
  }

  lemma {:induction false} QuietReceiveOk(s: State, l: Label)
    requires ReceiveInv(s) && Enabled(s, l)
    requires !l.RunRead? && !l.Return? && !l.Came? && !l.Advance?
    requires !l.RunHandshake? && !l.UserReceive? && !l.SetLimits?
    ensures ReceiveInv(Next(s, l))
  {
    assert Next(s, l).x.rx == s.x.rx && Next(s, l).x.connected == s.x.connected;
  }

  lemma {:induction false} ReturnReceiveOk(s: State)
    requires ReceiveInv(s) && Enabled(s, Return)
    ensures ReceiveInv(Resume(s))
  {
  }

  lemma ReadOk(s: State)
    requires ReceiveInv(s) && Enabled(s, RunRead)
    ensures ReceiveInv(Next(s, RunRead))
  {
    var r, chunk := s.x.rx, s.x.rx.op.chunk;
    assert chunk == [] ==> r.delivered + chunk == r.delivered;
    assert Deliver(RetireRead(r), chunk).delivered + [] == r.delivered + chunk;
  }

  lemma CameOk(x: Session, err: bool, chunk: seq<byte>)
    requires RxOk(x.connected, x.rx) && x.rx.op.Reading? && |chunk| <= x.rx.op.room
    requires !x.connected ==> chunk == []
    ensures RxOk(x.connected, Arrive(x.rx, err, chunk))
  {
    assert x.connected ==> x.rx.delivered + [] == x.rx.delivered;
  }

  lemma {:induction false} RunOk(s: State, ls: seq<Label>)
    requires Inv(s) && Possible(s, ls)
    ensures Inv(End(s, ls))
    decreases |ls|
  {
    if ls != [] {
      NextOk(s, ls[0]);
      RunOk(Next(s, ls[0]), ls[1..]);
    }
  }

  lemma {:induction false} Prepend(s: State, l: Label, ls: seq<Label>)
    requires Enabled(s, l) && Possible(Next(s, l), ls)
    ensures Possible(s, [l] + ls) && End(s, [l] + ls) == End(Next(s, l), ls)
  {
    assert ([l] + ls)[1..] == ls;
  }
}
