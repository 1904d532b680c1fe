/**
 What becomes of the SSL client's connections: in orderly runs each one lasts exactly until something tells the
 client to leave it, and once nothing is outstanding such a connection is gone.  The reference is computed from
 the steps of the run alone.
 */
module SslClientFate {
  import opened SslClientMachine

  /**
   `Asked`: an asynchronous connect was requested and has no result yet.  `Kept`: connected and not told to
   leave; `secured` is false for a synchronous connect whose handshake failed.  `Told`: told to leave.
   */
  datatype Fate = Never | Asked | Kept(secured: bool) | Told

  function FateStep(f: Fate, c: Client, l: Label): Fate
    requires Enabled(c, l)
  {
    match l
    case ConnectAsync => if Idle(c) then Asked else f
    case Connect(outcome) => if Idle(c) && !outcome.Refused? then Kept(outcome.Established?) else f
    case Disconnect => if MayDisconnect(c) then Told else f
    case DisconnectAsync => if MayDisconnect(c) then Told else f
    case FailTransfer => Told
    case RunNext(_) =>
      if c.queue[0].ConnectDone? then (if c.queue[0].err then Never else Kept(true))
      else if c.queue[0] == HandshakeDone(true) then Told
      else f
    case _ => f
  }

  function FateAt(f: Fate, c: Client, ls: seq<Label>): Fate
    requires Possible(c, ls)
    decreases |ls|
  {
    if ls == [] then f else FateAt(FateStep(f, c, ls[0]), Next(c, ls[0]), ls[1..])
  }

  ghost predicate NoTears(q: seq<Handler>) { forall h <- q :: !Tears(h) }

  ghost predicate SomeTear(q: seq<Handler>) { exists h <- q :: Tears(h) }

  ghost predicate Fated(f: Fate, c: Client) {
    && (c.transfers > 0 ==> c.handshaked)
    && match f
       case Never => !c.connected
       case Asked => !c.connected && (c.connecting || ConnectH in c.queue)
       case Kept(secured) =>
         && c.connected && c.shutdowns == 0 && NoTears(c.queue)
         && (c.handshaking || c.handshaked <==> secured)
       case Told =>
         c.connected ==>
           && !c.handshaking && (c.shutdowns > 0 || SomeTear(c.queue))
           && (forall h <- c.queue :: h.IoFailed? ==> c.handshaked)
  }

  /** A new client; `SslClientMachine.InitOk` says that it is consistent. */
  lemma InitFated(c: Client)
    requires c.transfers == 0 && !c.connected
    ensures Fated(Never, c)
  {
  }

  lemma {:induction false} FatedPush(f: Fate, c: Client, h: Handler)
    requires Fated(f, c) && (Tears(h) ==> f.Told?) && (h.IoFailed? ==> c.handshaked)
    ensures Fated(f, Enqueue(c, h))
  {
    assert forall k <- c.queue + [h] :: k in c.queue || k == h;
    assert forall k <- c.queue :: k in c.queue + [h];
    assert h in c.queue + [h];
  }

  /** The client is told to leave, and what it posts for that is in the queue. */
  lemma {:induction false} FatedTold(c: Client, h: Handler)
    requires c.connected && !c.handshaking && Tears(h) && (h.IoFailed? ==> c.handshaked)
    requires (c.transfers > 0 ==> c.handshaked) && forall k <- c.queue :: k.IoFailed? ==> c.handshaked
    ensures Fated(Told, Enqueue(c, h))
  {
    assert forall k <- c.queue + [h] :: k in c.queue || k == h;
    assert h in c.queue + [h];
  }

  lemma {:induction false} FatedDown(c: Client)
    requires Inv(c) && MayDisconnect(c)
    ensures Fated(Told, Disconnected(c)) && Fated(Told, DropStream(c).(connected := false))
  {
  }

  lemma {:induction false} FatedShut(c: Client)
    requires Inv(c) && MayDisconnect(c) && (c.transfers > 0 ==> c.handshaked)
    requires forall h <- c.queue :: h.IoFailed? ==> c.handshaked
    ensures Fated(Told, ShuttingDown(c))
  {
    var t := Repeat(IoFailed(c.era), c.transfers);
    assert forall h <- c.queue + t :: h in c.queue || h in t;
    assert c.transfers == 0 ==> t == [];
  }

  lemma {:induction false} FatedConnect(f: Fate, c: Client, outcome: Outcome)
    requires Inv(c) && Fated(f, c) && !Overtakes(c, Connect(outcome))
    ensures Fated(FateStep(f, c, Connect(outcome)), Next(c, Connect(outcome)))
  {
    if Idle(c) {
      assert DropStream(c).queue == c.queue + [] + [] + [] + [];
    }
  }

  lemma {:induction false} FatedAsk(f: Fate, c: Client)
    requires Inv(c) && Fated(f, c)
    ensures Fated(FateStep(f, c, ConnectAsync), Next(c, ConnectAsync))
  {
    if Idle(c) {
      var q := DropStream(c).queue;
      assert (q + [ConnectH])[|q|] == ConnectH;
    }
  }

  /** The handlers of a teardown, when the client was told to leave. */
  lemma {:induction false} FatedTears(c: Client, again: bool)
    requires Inv(c) && Fated(Told, c) && c.queue != [] && Tears(c.queue[0])
    ensures Fated(Told, Next(c, RunNext(again)))
  {
    var c' := c.(queue := c.queue[1..]);
    if c.connected {
      assert forall h <- c'.queue :: h in c.queue;
      assert c.queue[0] in c.queue;
      if c.queue[0].ShutdownDone? {
        FatedDown(c');
      } else {
        FatedShut(c');
      }
    }
  }

  lemma {:induction false} FatedStale(f: Fate, c: Client, again: bool)
    requires Inv(c) && Fated(f, c) && !f.Told? && c.queue != [] && Tears(c.queue[0])
    ensures Fated(f, Next(c, RunNext(again)))
  {
    assert c.queue[0] in c.queue;
    assert !c.connected;
    if f.Asked? && !c.connecting {
      PopConnect(c);
    }
  }

  lemma {:induction false} PopConnect(c: Client)
    requires c.queue != [] && c.queue[0] != ConnectH && ConnectH in c.queue
    ensures ConnectH in c.queue[1..]
  {
  }

  lemma {:induction false} FatedConnectH(f: Fate, c: Client, again: bool)
    requires Inv(c) && Fated(f, c) && c.queue != [] && c.queue[0].ConnectH?
    ensures Fated(f, Next(c, RunNext(again)))
  {
    assert forall h <- c.queue[1..] :: h in c.queue;
    if f.Told? && c.connected && c.shutdowns == 0 {
      var h :| h in c.queue && Tears(h);
      assert h in c.queue[1..];
      assert Next(c, RunNext(again)).queue == c.queue[1..];
      assert SomeTear(c.queue[1..]);
    }
  }

  lemma {:induction false} FatedConnectDone(f: Fate, c: Client, again: bool)
    requires Inv(c) && Current(c) && Fated(f, c) && c.queue != [] && c.queue[0].ConnectDone?
    requires !Reentrant(c, RunNext(again))
    ensures Fated(FateStep(f, c, RunNext(again)), Next(c, RunNext(again)))
  {
    assert c.connecting;
    forall h | h in c.queue[1..]
      ensures !Tears(h)
    {
      var j :| 0 <= j < |c.queue| - 1 && c.queue[1..][j] == h;
      assert c.queue[j + 1] == h;
    }
  }

  lemma {:induction false} FatedHandshake(f: Fate, c: Client, again: bool)
    requires Inv(c) && Fated(f, c) && c.queue != [] && c.queue[0].HandshakeDone?
    ensures Fated(FateStep(f, c, RunNext(again)), Next(c, RunNext(again)))
  {
    assert c.handshaking && f.Kept?;
    var c' := c.(queue := c.queue[1..], handshaking := false);
    assert forall h <- c'.queue :: h in c.queue;
    if c.queue[0].err {
      FatedShut(c');
    }
  }

  lemma {:induction false} FatedRun(f: Fate, c: Client, again: bool)
    requires Inv(c) && Current(c) && Fated(f, c) && c.queue != [] && !Reentrant(c, RunNext(again))
    ensures Fated(FateStep(f, c, RunNext(again)), Next(c, RunNext(again)))
  {
    match c.queue[0]
    case ConnectH => FatedConnectH(f, c, again);
    case ConnectDone(_) => FatedConnectDone(f, c, again);
    case HandshakeDone(_) => FatedHandshake(f, c, again);
    case _ => if f.Told? { FatedTears(c, again); } else { FatedStale(f, c, again); }
  }

  lemma {:induction false} FatedStep(f: Fate, c: Client, l: Label)
    requires Inv(c) && Current(c) && Fated(f, c) && Enabled(c, l) && !Reentrant(c, l) && !Overtakes(c, l)
    ensures Fated(FateStep(f, c, l), Next(c, l))
  {
    match l
    case ConnectAsync => FatedAsk(f, c);
    case Connect(outcome) => FatedConnect(f, c, outcome);
    case Disconnect => if MayDisconnect(c) { FatedDown(c); }
    case DisconnectAsync => if MayDisconnect(c) { FatedTold(c, DisconnectH(c.era)); }
    case FailTransfer => FatedTold(c.(transfers := c.transfers - 1), IoFailed(c.era));
    case FinishConnect(err) => FatedPush(f, c, ConnectDone(err));
    case FinishHandshake(err) => FatedPush(f, c, HandshakeDone(err));
    case FinishShutdown => FatedTold(c.(shutdowns := c.shutdowns - 1), ShutdownDone(c.era));
    case StartTransfer =>
    case RunNext(again) => FatedRun(f, c, again);
  }

  lemma {:induction false} FatedAlways(f: Fate, c: Client, ls: seq<Label>)
    requires Inv(c) && Current(c) && Fated(f, c) && Possible(c, ls) && Orderly(c, ls)
    ensures Inv(End(c, ls)) && Fated(FateAt(f, c, ls), End(c, ls))
    decreases |ls|
  {
    if ls != [] {
      NextOk(c, ls[0]);
      CurrentNext(c, ls[0]);
      FatedStep(f, c, ls[0]);
      FatedAlways(FateStep(f, c, ls[0]), Next(c, ls[0]), ls[1..]);
    }
  }

  /** Nothing is queued, and no connect, handshake or shutdown is outstanding. */
  predicate AtRest(c: Client) { c.queue == [] && c.connects == c.handshakes == c.shutdowns == 0 }

  /**
   In every orderly run, from a new client or any other consistent state: a connection that nothing
   told the client to leave is still there.  At rest every requested connect has had its result, and the client is
   connected if and only if its last connection was not told to leave; then it is also handshaked, unless the
   handshake of a synchronous connect failed.
   */
  lemma {:induction false} ConnectionsLastUntilTold(f: Fate, init: Client, ls: seq<Label>)
    requires Inv(init) && Current(init) && Fated(f, init) && Possible(init, ls) && Orderly(init, ls)
    ensures
      var c, g := End(init, ls), FateAt(f, init, ls);
      && (g.Kept? ==> c.connected)
      && (AtRest(c) ==>
            && !g.Asked? && (c.connected <==> g.Kept?)
            && (g.Kept? ==> (c.handshaked <==> g.secured))
            && (!g.Kept? ==> AllClear(c)))
  {
    FatedAlways(f, init, ls);
    var c := End(init, ls);
    if AtRest(c) {
      assert ConnectDones(c.queue) == 0 && HandshakeDones(c.queue) == 0;
    }
  }

  // ---------------------------------------------------------------- the two operations from end to end

  lemma {:induction false} Prepend(c: Client, l: Label, ls: seq<Label>)
    requires Enabled(c, l) && Possible(Next(c, l), ls)
    ensures Possible(c, [l] + ls) && End(c, [l] + ls) == End(Next(c, l), ls)
  {
    assert ([l] + ls)[1..] == ls;
  }

  predicate AllClear(c: Client) { !c.connecting && !c.connected && !c.handshaking && !c.handshaked }

  /** The shutdown completion of a connection clears all four flags. */
  lemma {:induction false} ShutdownDisconnects(c: Client, again: bool)
    requires c.connected && !c.connecting && !c.handshaking && c.queue != [] && c.queue[0].ShutdownDone?
    ensures AllClear(Next(c, RunNext(again)))
    ensures Next(Next(c, RunNext(again)), ConnectAsync).queue == Next(c, RunNext(again)).queue + [ConnectH]
  {
    var d := Next(c, RunNext(again));
    assert DropStream(d).queue == d.queue + [] + [] + [] + [];
  }

  function Pops(n: nat): seq<Label> { if n == 0 then [] else [RunNext(false)] + Pops(n - 1) }

  /** The failed transfers are handled first; each starts one more shutdown. */
  lemma {:induction false} FailuresThenShutdown(c: Client, n: nat)
    requires c.connected && c.handshaked && !c.connecting && !c.handshaking && c.transfers == 0
    requires c.queue == Repeat(IoFailed(c.era), n) + [ShutdownDone(c.era)]
    ensures Possible(c, Pops(n + 1)) && AllClear(End(c, Pops(n + 1)))
    decreases n
  {
    var d := Next(c, RunNext(false));
    if n == 0 {
      ShutdownDisconnects(c, false);
      assert Possible(d, []) && End(d, []) == d;
      Prepend(c, RunNext(false), []);
      assert Pops(1) == [RunNext(false)] + [];
    } else {
      assert c.queue[0] == IoFailed(c.era);
      assert c.queue[1..] + Repeat(IoFailed(c.era), 0) == Repeat(IoFailed(c.era), n - 1) + [ShutdownDone(c.era)];
      FailuresThenShutdown(d, n - 1);
      Prepend(c, RunNext(false), Pops(n));
    }
  }

  /**
   An asynchronous disconnect of a connected and handshaked client, from its call to its completion: the
   disconnect handler, the shutdown, the transfers it aborted and the shutdown completion.
   */
  lemma {:induction false} DisconnectAsyncCompletes(c: Client)
    requires Inv(c) && c.connected && c.handshaked && c.queue == []
    ensures
      var ls := [DisconnectAsync] + ([RunNext(false)] + ([FinishShutdown] + Pops(c.transfers + 1)));
      Possible(c, ls) && AllClear(End(c, ls))
  {
    var q := Repeat(IoFailed(c.era), c.transfers);
    var c1 := c.(queue := [DisconnectH(c.era)]);
    var c2 := c.(queue := q, transfers := 0, shutdowns := c.shutdowns + 1);
    var c3 := c.(queue := q + [ShutdownDone(c.era)], transfers := 0);
    assert [] + q == q;
    assert Next(c, DisconnectAsync) == c1;
    assert Next(c1, RunNext(false)) == c2;
    assert Next(c2, FinishShutdown) == c3;
    FailuresThenShutdown(c3, c.transfers);
    Prepend(c2, FinishShutdown, Pops(c.transfers + 1));
    Prepend(c1, RunNext(false), [FinishShutdown] + Pops(c.transfers + 1));
    Prepend(c, DisconnectAsync, [RunNext(false)] + ([FinishShutdown] + Pops(c.transfers + 1)));
  }

  function ConnectRun(): seq<Label> {
    [ConnectAsync] + ([RunNext(false)] + ([FinishConnect(false)] + ([RunNext(false)] + HandshakeRun())))
  }

  function HandshakeRun(): seq<Label> { [FinishHandshake(false)] + ([RunNext(false)] + []) }

  /** An asynchronous connect of an idle client, from its call to the end of its handshake. */
  lemma {:induction false} ConnectAsyncCompletes(c: Client)
    requires Inv(c) && AllClear(c) && c.queue == []
    ensures Possible(c, ConnectRun())
    ensures
      var e := End(c, ConnectRun());
      e.connected && e.handshaked && !e.connecting && !e.handshaking && e.queue == [] && e.era == c.era + 1
  {
    assert c.connects == 0 && c.handshakes == 0 && c.shutdowns == 0 && c.transfers == 0;
    assert c.queue + [] + [] + [] + [] + [ConnectH] == [ConnectH];
    var c1 := c.(queue := [ConnectH]);
    var c2 := c.(connecting := true, connects := 1);
    var c3 := c2.(connects := 0, queue := [ConnectDone(false)]);
    var c4 := c.(connected := true, handshaking := true, handshakes := 1, era := c.era + 1);
    assert Next(c, ConnectAsync) == c1;
    assert Next(c1, RunNext(false)) == c2;
    assert Next(c2, FinishConnect(false)) == c3;
    assert Next(c3, RunNext(false)) == c4;
    HandshakeCompletes(c4);
    Prepend(c3, RunNext(false), HandshakeRun());
    Prepend(c2, FinishConnect(false), [RunNext(false)] + HandshakeRun());
    Prepend(c1, RunNext(false), [FinishConnect(false)] + ([RunNext(false)] + HandshakeRun()));
    Prepend(c, ConnectAsync, [RunNext(false)] + ([FinishConnect(false)] + ([RunNext(false)] + HandshakeRun())));
  }

  lemma {:induction false} HandshakeCompletes(c: Client)
    requires c.connected && c.handshaking && !c.connecting && !c.handshaked && c.handshakes == 1 && c.queue == []
    ensures Possible(c, HandshakeRun())
    ensures
      var e := End(c, HandshakeRun());
      e.connected && e.handshaked && !e.connecting && !e.handshaking && e.queue == [] && e.era == c.era
  {
    var c1 := c.(handshakes := 0, queue := [HandshakeDone(false)]);
    var c2 := c.(handshakes := 0, handshaking := false, handshaked := true, transfers := c.transfers + 1);
    assert Next(c, FinishHandshake(false)) == c1;
    assert Next(c1, RunNext(false)) == c2;
    assert Possible(c2, []) && End(c2, []) == c2;
    Prepend(c1, RunNext(false), []);
    Prepend(c, FinishHandshake(false), [RunNext(false)] + []);
  }
}
