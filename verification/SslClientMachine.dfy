/**
 The connection flags of the SSL client, its asynchronous connect, handshake and shutdown operations, and its
 queue of handlers.

 Handlers run one at a time in FIFO order; an API call checks and posts in one step.  Closing or replacing the
 stream queues the aborted completions of its outstanding operations at once.  `era` numbers the connections;
 the handlers that lead to a disconnect carry the era they were made in, which the code itself never looks at.
 */
module SslClientMachine {

  type Era = nat

  datatype Handler =
    | ConnectH
    | ConnectDone(err: bool)
    | HandshakeDone(err: bool)
    | DisconnectH(era: Era)
    | ShutdownDone(era: Era)
    | IoFailed(era: Era)

  datatype Client = Client(
    connecting: bool, connected: bool, handshaking: bool, handshaked: bool,
    connects: nat, handshakes: nat, shutdowns: nat, transfers: nat,   // operations outstanding on the stream
    queue: seq<Handler>, era: Era)

  datatype Outcome = Refused | BadHandshake | Established

  datatype Label =
    // API calls
    | ConnectAsync | Connect(outcome: Outcome) | DisconnectAsync | Disconnect
    // the stream
    | FinishConnect(err: bool) | FinishHandshake(err: bool) | FinishShutdown | FailTransfer | StartTransfer
    // the I/O thread; onConnectDisconnects tells whether onConnect calls disconnect()
    | RunNext(onConnectDisconnects: bool)

  predicate Idle(c: Client) { !c.connected && !c.handshaked && !c.handshaking && !c.connecting }

  /** The guard of `disconnect` and of `disconnectAsync`. */
  predicate MayDisconnect(c: Client) { c.connected && !c.connecting && !c.handshaking }

  predicate Enabled(c: Client, l: Label) {
    match l
    case FinishConnect(_) => c.connects > 0
    case FinishHandshake(_) => c.handshakes > 0
    case FinishShutdown => c.shutdowns > 0
    case FailTransfer => c.transfers > 0
    case StartTransfer => c.connected && c.handshaked
    case RunNext(_) => c.queue != []
    case _ => true
  }

  function Repeat(h: Handler, n: nat): seq<Handler> { seq(n, i => h) }

  /** The stream is closed or replaced: everything outstanding on it completes with an error. */
  function DropStream(c: Client): Client {
    c.(queue := c.queue + Repeat(ConnectDone(true), c.connects) + Repeat(HandshakeDone(true), c.handshakes)
                + Repeat(ShutdownDone(c.era), c.shutdowns) + Repeat(IoFailed(c.era), c.transfers),
       connects := 0, handshakes := 0, shutdowns := 0, transfers := 0)
  }

  function Enqueue(c: Client, h: Handler): Client { c.(queue := c.queue + [h]) }

  function Disconnected(c: Client): Client {
    if !MayDisconnect(c) then c
    else DropStream(c).(connecting := false, connected := false, handshaking := false, handshaked := false)
  }

  /** `cancel` aborts the transfers, then the TLS shutdown is started. */
  function ShuttingDown(c: Client): Client {
    if !MayDisconnect(c) then c
    else c.(queue := c.queue + Repeat(IoFailed(c.era), c.transfers), transfers := 0, shutdowns := c.shutdowns + 1)
  }

  function RunHandler(c: Client, h: Handler, onConnectDisconnects: bool): Client {
    match h
    case ConnectH => if !Idle(c) then c else c.(connecting := true, connects := c.connects + 1)
    case ConnectDone(err) =>
      var c' := c.(connecting := false);
      if !Idle(c') || err then c'
      else
        var up := c'.(connected := true, era := c.era + 1);
        var told := if onConnectDisconnects then Disconnected(up) else up;
        told.(handshaking := true, handshakes := told.handshakes + 1)
    case HandshakeDone(err) =>
      var c' := c.(handshaking := false);
      if c'.handshaked then c'
      else if err then ShuttingDown(c')
      else c'.(handshaked := true, transfers := c'.transfers + (if c'.connected then 1 else 0))
    case DisconnectH(_) => ShuttingDown(c)
    case ShutdownDone(_) => Disconnected(c)
    case IoFailed(_) => if c.connected && c.handshaked then ShuttingDown(c) else c
  }

  function Next(c: Client, l: Label): Client
    requires Enabled(c, l)
  {
    match l
    case ConnectAsync => if !Idle(c) then c else Enqueue(DropStream(c), ConnectH)
    case Connect(outcome) =>
      if !Idle(c) then c
      else if outcome.Refused? then DropStream(c)
      else DropStream(c).(connected := true, handshaked := outcome.Established?, era := c.era + 1)
    case DisconnectAsync => if !MayDisconnect(c) then c else Enqueue(c, DisconnectH(c.era))
    case Disconnect => Disconnected(c)
    case FinishConnect(err) => Enqueue(c, ConnectDone(err)).(connects := c.connects - 1)
    case FinishHandshake(err) => Enqueue(c, HandshakeDone(err)).(handshakes := c.handshakes - 1)
    case FinishShutdown => Enqueue(c, ShutdownDone(c.era)).(shutdowns := c.shutdowns - 1)
    case FailTransfer => Enqueue(c, IoFailed(c.era)).(transfers := c.transfers - 1)
    case StartTransfer => c.(transfers := c.transfers + 1)
    case RunNext(again) => RunHandler(c.(queue := c.queue[1..]), c.queue[0], again)
  }

  const INIT := Client(false, false, false, false, 0, 0, 0, 0, [], 0)

  predicate Possible(c: Client, ls: seq<Label>)
    decreases |ls|
  {
    ls == [] || (Enabled(c, ls[0]) && Possible(Next(c, ls[0]), ls[1..]))
  }

  function End(c: Client, ls: seq<Label>): Client
    requires Possible(c, ls)
    decreases |ls|
  {
    if ls == [] then c else End(Next(c, ls[0]), ls[1..])
  }

  // ---------------------------------------------------------------- invariants

  function ConnectDones(q: seq<Handler>): nat {
    if q == [] then 0 else (if q[0].ConnectDone? then 1 else 0) + ConnectDones(q[1..])
  }

  function HandshakeDones(q: seq<Handler>): nat {
    if q == [] then 0 else (if q[0].HandshakeDone? then 1 else 0) + HandshakeDones(q[1..])
  }

  lemma {:induction false} DonesAppend(a: seq<Handler>, b: seq<Handler>)
    ensures ConnectDones(a + b) == ConnectDones(a) + ConnectDones(b)
    ensures HandshakeDones(a + b) == HandshakeDones(a) + HandshakeDones(b)
  {
    if a == [] {
      assert a + b == b;
    } else {
      assert (a + b)[1..] == a[1..] + b;
      DonesAppend(a[1..], b);
    }
  }

  /** A handler that can tear a connection down. */
  predicate Tears(h: Handler) { h.DisconnectH? || h.ShutdownDone? || h.IoFailed? }

  lemma {:induction false} NoDones(q: seq<Handler>)
    requires forall h <- q :: Tears(h)
    ensures ConnectDones(q) == 0 && HandshakeDones(q) == 0
  {
    if q != [] {
      assert q[0] in q;
      NoDones(q[1..]);
    }
  }

  /** The four flags agree with one another. */
  predicate FlagsOk(c: Client) {
    && (c.handshaked ==> c.connected && !c.connecting && !c.handshaking)
    && (c.handshaking ==> c.connected && !c.connecting)
    && (c.connecting ==> !c.connected)
  }

  /** Each of the two flags of a running operation stands for exactly one, outstanding or completed and queued. */
  ghost predicate OperationsOk(c: Client) {
    && c.connects + ConnectDones(c.queue) == (if c.connecting then 1 else 0)
    && c.handshakes + HandshakeDones(c.queue) == (if c.handshaking then 1 else 0)
    && (!c.connected ==> c.shutdowns == 0 && c.transfers == 0)
  }

  /** No handler left over from an older connection can reach the current one. */
  ghost predicate Current(c: Client) {
    && (c.connected ==> forall h <- c.queue :: Tears(h) ==> h.era == c.era)
    && (!c.connected ==> forall i, j :: 0 <= i < j < |c.queue| && c.queue[i].ConnectDone? ==> !Tears(c.queue[j]))
    && (forall h <- c.queue :: Tears(h) ==> h.era <= c.era)
  }

  /** `onConnect` disconnects from inside the successful connect completion. */
  predicate Reentrant(c: Client, l: Label) {
    l.RunNext? && l.onConnectDisconnects && c.queue != [] && c.queue[0] == ConnectDone(false)
  }

  /** The synchronous connect succeeds while a handler of an older connection is still queued. */
  ghost predicate Overtakes(c: Client, l: Label) {
    l.Connect? && !l.outcome.Refused? && Idle(c) && exists h <- c.queue :: Tears(h)
  }

  ghost predicate Inv(c: Client) { FlagsOk(c) && OperationsOk(c) }

  lemma {:induction false} PushOk(c: Client, h: Handler)
    requires Inv(c) && Tears(h)
    ensures Inv(Enqueue(c, h))
  {
    DonesAppend(c.queue, [h]);
  }

  lemma {:induction false} DropOk(c: Client)
    requires Inv(c) && !c.connecting && !c.handshaking
    ensures Inv(DropStream(c)) && Inv(Disconnected(c)) && Inv(ShuttingDown(c))
  {
    var s, t := Repeat(ShutdownDone(c.era), c.shutdowns), Repeat(IoFailed(c.era), c.transfers);
    assert c.connects == 0 && c.handshakes == 0;
    assert DropStream(c).queue == c.queue + s + t;
    DonesAppend(c.queue, s);
    DonesAppend(c.queue + s, t);
    DonesAppend(c.queue, t);
    NoDones(s);
    NoDones(t);
  }

  lemma {:induction false} RunOk(c: Client, again: bool)
    requires Inv(c) && c.queue != [] && !Reentrant(c, RunNext(again))
    ensures Inv(Next(c, RunNext(again)))
  {
    var c' := c.(queue := c.queue[1..]);
    match c.queue[0]
    case ConnectDone(_) => assert ConnectDones(c'.queue) == 0 && c.connecting;
    case HandshakeDone(err) =>
      assert HandshakeDones(c'.queue) == 0 && c.handshaking;
      DropOk(c'.(handshaking := false));
    case ConnectH =>
    case _ =>
      assert Inv(c');
      if MayDisconnect(c) { DropOk(c'); }
  }

  lemma {:induction false} NextOk(c: Client, l: Label)
    requires Inv(c) && Enabled(c, l) && !Reentrant(c, l)
    ensures Inv(Next(c, l))
  {
    match l
    case ConnectAsync =>
      if Idle(c) {
        DropOk(c);
        DonesAppend(DropStream(c).queue, [ConnectH]);
      }
    case Connect(_) => if Idle(c) { DropOk(c); }
    case Disconnect => if MayDisconnect(c) { DropOk(c); }
    case DisconnectAsync => PushOk(c, DisconnectH(c.era));
    case FinishConnect(err) => DonesAppend(c.queue, [ConnectDone(err)]);
    case FinishHandshake(err) => DonesAppend(c.queue, [HandshakeDone(err)]);
    case FinishShutdown => PushOk(c, ShutdownDone(c.era));
    case FailTransfer => PushOk(c, IoFailed(c.era));
    case StartTransfer =>
    case RunNext(again) => RunOk(c, again);
  }

  // ---------------------------------------------------------------- whole runs

  predicate Quiet(c: Client, ls: seq<Label>)
    requires Possible(c, ls)
    decreases |ls|
  {
    ls == [] || (!Reentrant(c, ls[0]) && Quiet(Next(c, ls[0]), ls[1..]))
  }

  /** A new client is consistent. */
  lemma InitOk()
    ensures Inv(INIT) && Current(INIT)
  {
    assert INIT.queue == [] && ConnectDones(INIT.queue) == 0 && HandshakeDones(INIT.queue) == 0;
  }

  lemma {:induction false} RunInv(c: Client, ls: seq<Label>)
    requires Inv(c) && Possible(c, ls) && Quiet(c, ls)
    ensures Inv(End(c, ls))
    decreases |ls|
  {
    if ls != [] {
      NextOk(c, ls[0]);
      RunInv(Next(c, ls[0]), ls[1..]);
    }
  }

  /**
   In every run, from a new client or any other consistent state, in which `onConnect` does not disconnect:
   handshaked implies connected and neither connecting nor handshaking, handshaking implies connected, and at
   most one connect or handshake operation is outstanding or queued, exactly when one of the two flags is set.
   */
  lemma {:induction false} ConnectionMachine(init: Client, ls: seq<Label>)
    requires Inv(init) && Possible(init, ls) && Quiet(init, ls)
    ensures
      var c := End(init, ls);
      && (c.handshaked ==> c.connected && !c.connecting && !c.handshaking)
      && (c.handshaking ==> c.connected && !c.connecting)
      && c.connects + c.handshakes + ConnectDones(c.queue) + HandshakeDones(c.queue)
         == (if c.connecting || c.handshaking then 1 else 0)
  {
    RunInv(init, ls);
    AtMostOneOperation(End(init, ls));
  }

  lemma {:induction false} AtMostOneOperation(c: Client)
    requires Inv(c)
    ensures c.connects + c.handshakes + ConnectDones(c.queue) + HandshakeDones(c.queue)
      == (if c.connecting || c.handshaking then 1 else 0)
  {
  }

  /** A successful connect completion leaves the flags consistent if and only if `onConnect` did not disconnect. */
  lemma {:induction false} OnConnectMustNotDisconnect(c: Client, again: bool)
    requires Inv(c) && c.queue != [] && c.queue[0] == ConnectDone(false)
    ensures FlagsOk(Next(c, RunNext(again))) <==> !again
  {
    assert c.connecting;
  }

  /** A disconnect that goes through clears all four flags, so that connecting is possible again at once. */
  lemma {:induction false} DisconnectEnablesConnect(c: Client)
    requires Inv(c)
    ensures MayDisconnect(c) ==>
      && Idle(Next(c, Disconnect))
      && Next(Next(c, Disconnect), ConnectAsync).queue == Next(c, Disconnect).queue + [ConnectH]
    ensures !MayDisconnect(c) ==> Next(c, Disconnect) == c
    ensures c.connected && !MayDisconnect(c) ==> c.handshaking
  {
    if MayDisconnect(c) {
      var d := Next(c, Disconnect);
      assert DropStream(d).queue == d.queue + [] + [] + [] + [];
    }
  }

  /** A synchronous connect whose handshake fails returns with the client still marked connected. */
  lemma {:induction false} BadHandshakeStaysConnected(c: Client, outcome: Outcome)
    requires Inv(c) && Idle(c)
    ensures Next(c, Connect(outcome)).connected && !Next(c, Connect(outcome)).handshaked <==> outcome.BadHandshake?
    ensures outcome.BadHandshake? ==> Next(Next(c, Connect(outcome)), ConnectAsync) == Next(c, Connect(outcome))
  {
  }

  // ---------------------------------------------------------------- no stale teardown

  lemma {:induction false} TailCurrent(c: Client)
    requires Current(c) && c.queue != []
    ensures Current(c.(queue := c.queue[1..]))
  {
    assert forall i :: 0 <= i < |c.queue| - 1 ==> c.queue[1..][i] == c.queue[i + 1];
  }

  lemma {:induction false} DropCurrent(c: Client)
    requires Current(c) && Inv(c) && !c.connecting && !c.handshaking
    ensures Current(DropStream(c)) && Current(Disconnected(c)) && Current(ShuttingDown(c))
  {
    var s, t := Repeat(ShutdownDone(c.era), c.shutdowns), Repeat(IoFailed(c.era), c.transfers);
    assert c.connects == 0 && c.handshakes == 0 && ConnectDones(c.queue) == 0;
    NoConnectDone(c.queue);
    var q := c.queue + s + t;
    assert DropStream(c).queue == q;
    assert forall h <- q :: h in c.queue || h in s || h in t;
    assert forall i :: 0 <= i < |q| ==> q[i] in q && !q[i].ConnectDone?;
  }

  lemma {:induction false} NoConnectDone(q: seq<Handler>)
    ensures ConnectDones(q) == 0 <==> forall h <- q :: !h.ConnectDone?
  {
    if q != [] {
      NoConnectDone(q[1..]);
      assert forall h <- q :: h == q[0] || h in q[1..];
    }
  }

  lemma {:induction false} PushCurrent(c: Client, h: Handler)
    requires Current(c) && Inv(c)
    requires Tears(h) ==> c.connected && h.era == c.era
    ensures Current(Enqueue(c, h))
  {
    var q := c.queue + [h];
    assert forall k <- q :: k in c.queue || k == h;
    assert forall i :: 0 <= i < |q| ==> q[i] == if i < |c.queue| then c.queue[i] else h;
  }

  lemma {:induction false} RunCurrent(c: Client, again: bool)
    requires Inv(c) && Current(c) && c.queue != [] && !Reentrant(c, RunNext(again))
    ensures Current(Next(c, RunNext(again)))
  {
    var c' := c.(queue := c.queue[1..]);
    TailCurrent(c);
    match c.queue[0]
    case ConnectDone(err) =>
      assert c.connecting;
      assert forall h <- c'.queue :: !Tears(h) by {
        assert forall j :: 0 <= j < |c'.queue| ==> c'.queue[j] == c.queue[j + 1];
      }
    case HandshakeDone(_) =>
      assert c.handshaking && HandshakeDones(c'.queue) == 0;
      DropCurrent(c'.(handshaking := false));
    case ConnectH =>
    case _ => if MayDisconnect(c) { DropCurrent(c'); }
  }

  lemma {:induction false} CurrentNext(c: Client, l: Label)
    requires Inv(c) && Current(c) && Enabled(c, l) && !Reentrant(c, l) && !Overtakes(c, l)
    ensures Current(Next(c, l))
  {
    match l
    case ConnectAsync =>
      if Idle(c) {
        DropOk(c);
        DropCurrent(c);
        PushCurrent(DropStream(c), ConnectH);
      }
    case Connect(_) =>
      if Idle(c) {
        DropCurrent(c);
        assert DropStream(c).queue == c.queue + [] + [] + [] + [];
      }
    case Disconnect => if MayDisconnect(c) { DropCurrent(c); }
    case DisconnectAsync => if MayDisconnect(c) { PushCurrent(c, DisconnectH(c.era)); }
    case FinishConnect(err) => PushCurrent(c, ConnectDone(err));
    case FinishHandshake(err) => PushCurrent(c, HandshakeDone(err));
    case FinishShutdown => PushCurrent(c, ShutdownDone(c.era));
    case FailTransfer => PushCurrent(c, IoFailed(c.era));
    case StartTransfer =>
    case RunNext(again) => RunCurrent(c, again);
  }

  ghost predicate Orderly(c: Client, ls: seq<Label>)
    requires Possible(c, ls)
    decreases |ls|
  {
    ls == [] || (!Reentrant(c, ls[0]) && !Overtakes(c, ls[0]) && Orderly(Next(c, ls[0]), ls[1..]))
  }

  lemma {:induction false} CurrentRun(c: Client, ls: seq<Label>)
    requires Inv(c) && Current(c) && Possible(c, ls) && Orderly(c, ls)
    ensures Inv(End(c, ls)) && Current(End(c, ls))
    decreases |ls|
  {
    if ls != [] {
      NextOk(c, ls[0]);
      CurrentNext(c, ls[0]);
      CurrentRun(Next(c, ls[0]), ls[1..]);
    }
  }

  /**
   In every orderly run, from a new client on, a handler only ever tears down the connection it was made for:
   while the client is connected, each queued handler that can end a connection carries the era of this one.
   */
  lemma {:induction false} NoStaleTeardown(init: Client, ls: seq<Label>)
    requires Inv(init) && Current(init) && Possible(init, ls) && Orderly(init, ls)
    ensures
      var c := End(init, ls);
      c.connected ==> forall h <- c.queue :: Tears(h) ==> h.era == c.era
  {
    CurrentRun(init, ls);
  }

  /** A synchronous connect keeps that if and only if no such handler was queued when it connected. */
  lemma {:induction false} OvertakingIsTheOnlyWay(c: Client, outcome: Outcome)
    requires Inv(c) && Current(c) && Idle(c) && !outcome.Refused?
    ensures Current(Next(c, Connect(outcome))) <==> forall h <- c.queue :: !Tears(h)
  {
    assert DropStream(c).queue == c.queue + [] + [] + [] + [];
  }

  /** Without that order a leftover disconnect of one connection starts the shutdown of the next one. */
  lemma {:induction false} OvertakingTearsDown() returns (ls: seq<Label>)
    ensures Possible(INIT, ls) && Quiet(INIT, ls)
    ensures
      var c := End(INIT, ls);
      && c.connected && c.handshaked && c.queue == [DisconnectH(1)] && c.era == 2
      && Next(c, RunNext(false)).shutdowns == 1
  {
    ls := [Connect(Established), DisconnectAsync, Disconnect, Connect(Established)];
    var c1 := Next(INIT, ls[0]);
    assert c1 == Client(false, true, false, true, 0, 0, 0, 0, [], 1);
    var c2 := Next(c1, DisconnectAsync);
    assert c2 == c1.(queue := [DisconnectH(1)]);
    var c3 := Next(c2, Disconnect);
    assert c3 == Client(false, false, false, false, 0, 0, 0, 0, [DisconnectH(1)], 1);
    var c4 := Next(c3, Connect(Established));
    assert c4 == Client(false, true, false, true, 0, 0, 0, 0, [DisconnectH(1)], 2);
    assert Possible(c3, ls[3..]) && End(c3, ls[3..]) == c4 && Quiet(c3, ls[3..]);
    assert ls[2..][1..] == ls[3..];
    assert Possible(c2, ls[2..]) && End(c2, ls[2..]) == c4 && Quiet(c2, ls[2..]);
    assert ls[1..][1..] == ls[2..];
    assert Possible(c1, ls[1..]) && End(c1, ls[1..]) == c4 && Quiet(c1, ls[1..]);
  }
}
