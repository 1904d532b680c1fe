/**
 The server object: fields updated in place by its API methods and handlers, each proved against the steps of
 the server machine.  Its sessions are values held in `sessions`; the registry holds their numbers.
 */
module TcpServer {
  import opened SessionCore
  import opened AtomicSession
  import opened ServerMachine

  lemma {:induction false} HangupsAppend(sessions: seq<Entry>, a: seq<Sid>, b: seq<Sid>)
    ensures Hangups(sessions, a + b) == Hangups(sessions, a) + Hangups(sessions, b)
  {
    if a == [] {
      assert a + b == b;
    } else {
      assert (a + b)[1..] == a[1..] + b;
      HangupsAppend(sessions, a[1..], b);
    }
  }

  lemma {:induction false} HangupsSnoc(sessions: seq<Entry>, order: seq<Sid>, i: nat)
    requires i < |order|
    ensures Hangups(sessions, order[..i + 1]) == Hangups(sessions, order[..i])
      + (if order[i] < |sessions| && sessions[order[i]].x.connected then [DisconnectH(order[i])] else [])
  {
    assert order[..i + 1] == order[..i] + [order[i]];
    HangupsAppend(sessions, order[..i], [order[i]]);
    assert Hangups(sessions, [order[i]][1..]) == [];
  }

  lemma {:induction false} WakeupsAppend(sessions: seq<Entry>, data: seq<byte>, a: seq<Sid>, b: seq<Sid>)
    ensures Wakeups(sessions, data, a + b) == Wakeups(sessions, data, a) + Wakeups(sessions, data, b)
  {
    if a == [] {
      assert a + b == b;
    } else {
      assert (a + b)[1..] == a[1..] + b;
      WakeupsAppend(sessions, data, a[1..], b);
    }
  }

  lemma {:induction false} WakeupsSnoc(sessions: seq<Entry>, data: seq<byte>, order: seq<Sid>, i: nat)
    requires i < |order|
    ensures Wakeups(sessions, data, order[..i + 1]) == Wakeups(sessions, data, order[..i])
      + (if order[i] < |sessions| && Wakes(sessions[order[i]].x, data) then [TrySendH(order[i])] else [])
  {
    assert order[..i + 1] == order[..i] + [order[i]];
    WakeupsAppend(sessions, data, order[..i], [order[i]]);
    assert Wakeups(sessions, data, [order[i]][1..]) == [];
  }

  /** The sessions visited so far were sent the data, the others are as before. */
  ghost predicate CastSoFar(before: seq<Entry>, now: seq<Entry>, data: seq<byte>, visited: seq<Sid>) {
    && |now| == |before|
    && forall k: Sid :: k < |before| ==>
         now[k] == if k in visited then before[k].(x := SendAsync(before[k].x, data)) else before[k]
  }

  lemma {:induction false} CastOneMore(
      before: seq<Entry>, now: seq<Entry>, data: seq<byte>, visited: seq<Sid>, sid: Sid)
    requires CastSoFar(before, now, data, visited) && sid < |before| && sid !in visited
    ensures now[sid] == before[sid]
    ensures CastSoFar(before, now[sid := now[sid].(x := SendAsync(now[sid].x, data))], data, visited + [sid])
  {
  }

  lemma {:induction false} CastComplete(s: ServerMachine.Server, now: seq<Entry>, data: seq<byte>, order: seq<Sid>)
    requires CastSoFar(s.sessions, now, data, order) && Visits(order, s.registry)
    ensures now == Cast(s, data)
  {
  }

  class Server {
    const ssl: bool
    var started: bool
    var slot: Option<Sid>
    var accepting: seq<Sid>
    var registry: set<Sid>
    var sessions: seq<Entry>
    var sent: nat
    var received: nat
    var queue: seq<Handler>
    var crashed: bool
    var connects: nat
    var disconnects: nat
    var cohort: seq<Sid>
    var casts: seq<seq<byte>>

    ghost function View(): ServerMachine.Server
      reads this
    {
      ServerMachine.Server(ssl, started, slot, accepting, registry, sessions, sent, received, queue, crashed,
                           connects, disconnects, cohort, casts)
    }

    constructor (ssl: bool)
      ensures View() == Init(ssl)
    {
      this.ssl := ssl;
      started, slot, accepting, registry, sessions := false, None, [], {}, [];
      sent, received, queue, crashed := 0, 0, [], false;
      connects, disconnects, cohort, casts := 0, 0, [], [];
    }

    method Start() returns (ok: bool)
      requires !crashed
      modifies this`queue
      ensures View() == Next(old(View()), ApiStart) && (ok <==> !started)
    {
      if started {
        return false;
      }
      queue := queue + [StartH];
      return true;
    }

    method StartHandler()
      modifies this
      ensures View() == RunHandler(old(View()), StartH, 0, [])
      ensures started
      ensures !old(started) ==> sent == 0 && received == 0 && cohort == []
      ensures !old(started) ==> slot == Some(old(|sessions|)) && accepting == old(accepting) + [slot.value]
    {
      if started {
        return;
      }
      sent, received, cohort := 0, 0, [];
      started := true;
      AcceptNext();
    }

    method Stop() returns (ok: bool)
      requires !crashed
      modifies this`queue
      ensures View() == Next(old(View()), ApiStop) && (ok <==> started)
    {
      if !started {
        return false;
      }
      queue := queue + [StopH];
      return true;
    }

    method StopHandler(order: seq<Sid>)
      modifies this
      ensures View() == RunHandler(old(View()), StopH, 0, order)
      ensures !started
      ensures old(started) ==> slot == None && accepting == []
      ensures old(started) ==> queue == old(queue) + Aborted(old(accepting)) + Hangups(sessions, order)
    {
      if !started {
        return;
      }
      queue := queue + Aborted(accepting);
      accepting := [];
      slot := None;
      DisconnectAll(order);
      started := false;
    }

    /** `accept`: a fresh session's socket is handed to the acceptor. */
    method AcceptNext()
      modifies this
      ensures View() == Accept(old(View()))
    {
      if !started {
        return;
      }
      var sid := |sessions|;
      sessions := sessions + [Entry(NewSession(ssl), false, [], None, None)];
      slot := Some(sid);
      accepting := accepting + [sid];
    }

    /** The accept completion: it registers and connects whatever session is in the slot. */
    method AcceptCompleted(accepted: Sid, ok: bool, room: nat)
      modifies this
      ensures View() == RunHandler(old(View()), AcceptDone(accepted, ok), room, [])
    {
      if ok {
        if slot.None? || slot.value >= |sessions| {
          crashed := true;
          return;
        }
        RegisterSession(slot.value, room);
      }
      AcceptNext();
    }

    method RegisterSession(sid: Sid, room: nat)
      requires sid < |sessions|
      modifies this
      ensures View() == Open(old(View()), sid, room)
    {
      var e := sessions[sid];
      var x := Connected(e.x, room);
      registry := registry + {sid};
      sessions := sessions[sid := e.(x := x, shaking := ssl, events := e.events + [OnConnect],
                                     joined := if x.Ready() then Some(|casts|) else e.joined)];
      connects := connects + 1;
      cohort := cohort + [sid];
    }

    method UnregisterSession(sid: Sid)
      modifies this`registry
      ensures registry == old(registry) - {sid}
    {
      registry := registry - {sid};
    }

    /** A session's disconnect handler, with the server's part of it. */
    method DisconnectSession(sid: Sid)
      modifies this
      ensures View() == RunHandler(old(View()), DisconnectH(sid), 0, [])
      ensures old(sid < |sessions| && sessions[sid].x.connected) ==>
        && registry == old(registry) - {sid} && sid < |sessions| && !sessions[sid].x.connected
        && sessions[sid].events == old(sessions[sid].events) + [OnDisconnect]
    {
      if sid >= |sessions| || !sessions[sid].x.connected {
        return;
      }
      var e := sessions[sid];
      var gone := e.(x := Disconnected(e.x), events := e.events + [OnDisconnect], left := Some(|casts|));
      sessions := sessions[sid := gone];
      disconnects := disconnects + 1;
      UnregisterSession(sid);
    }

    /** The loop of `disconnectAll` over the registry in its iteration order: connected sessions get a handler. */
    method DisconnectAll(order: seq<Sid>)
      modifies this`queue
      ensures queue == old(queue) + Hangups(sessions, order)
    {
      var i := 0;
      while i < |order|
        invariant 0 <= i <= |order|
        invariant queue == old(queue) + Hangups(sessions, order[..i])
      {
        var sid := order[i];
        HangupsSnoc(sessions, order, i);
        if sid < |sessions| && sessions[sid].x.connected {
          queue := queue + [DisconnectH(sid)];
        }
        i := i + 1;
      }
      assert order[..i] == order;
    }

    method Multicast(data: seq<byte>, order: seq<Sid>) returns (ok: bool)
      requires !crashed && Visits(order, registry) && forall sid <- order :: sid < |sessions|
      modifies this`queue, this`sessions, this`casts
      ensures View() == Next(old(View()), ServerMachine.Multicast(data, order)) && (ok <==> started)
      ensures |sessions| == old(|sessions|)
      ensures forall sid: Sid :: sid < |sessions| && sid !in registry ==> sessions[sid] == old(sessions[sid])
      ensures ok ==> forall sid <- registry ::
        var x, y := old(sessions[sid].x), sessions[sid].x;
        && (x.Ready() && (x.tx.limit == 0 || |x.tx.main| + |data| <= x.tx.limit) ==>
              y.tx.main == x.tx.main + data && y.tx.accepted == x.tx.accepted + data)
    {
      if !started {
        return false;
      }
      if |data| == 0 {
        return true;
      }
      SendToAll(data, order);
      CastComplete(old(View()), sessions, data, order);
      casts := casts + [data];
      return true;
    }

    /** The loop of `multicast` over the registry in its iteration order. */
    method SendToAll(data: seq<byte>, order: seq<Sid>)
      requires forall i, j :: 0 <= i < j < |order| ==> order[i] != order[j]
      requires forall sid <- order :: sid < |sessions|
      modifies this`queue, this`sessions
      ensures queue == old(queue) + Wakeups(old(sessions), data, order)
      ensures CastSoFar(old(sessions), sessions, data, order)
    {
      var i := 0;
      ghost var before := sessions;
      while i < |order|
        invariant 0 <= i <= |order|
        invariant queue == old(queue) + Wakeups(before, data, order[..i])
        invariant CastSoFar(before, sessions, data, order[..i])
      {
        var sid := order[i];
        assert sid in order;
        WakeupsSnoc(before, data, order, i);
        CastOneMore(before, sessions, data, order[..i], sid);
        assert order[..i + 1] == order[..i] + [sid];
        var e := sessions[sid];
        sessions := sessions[sid := e.(x := SendAsync(e.x, data))];
        if Wakes(e.x, data) {
          queue := queue + [TrySendH(sid)];
        }
        i := i + 1;
      }
      assert order[..i] == order;
    }
  }
}
