/**
 The life of every session and the registry, over safe runs of the server.
 */
module ServerLife {
  import opened SessionCore
  import opened AtomicSession
  import opened ServerMachine
  import opened ServerAccept
  import Interleaving

  /** The handlers that run before the first start in the queue. */
  function Head(q: seq<Handler>): seq<Handler> {
    if q == [] || q[0].StartH? then [] else [q[0]] + Head(q[1..])
  }

  lemma {:induction false} HeadAppend(a: seq<Handler>, b: seq<Handler>)
    ensures forall h <- Head(a) :: h in Head(a + b)
    ensures (forall h <- a :: !h.StartH?) ==> Head(a) == a && Head(a + b) == a + Head(b)
  {
    if a == [] {
      assert a + b == b;
    } else {
      assert (a + b)[1..] == a[1..] + b;
      HeadAppend(a[1..], b);
      assert (forall h <- a :: !h.StartH?) ==> forall h <- a[1..] :: !h.StartH?;
    }
  }

  /** `onConnect` once, and `onDisconnect` at most once and only after it. */
  predicate EventsOk(e: Entry) {
    if e.x.connected then e.events == [OnConnect] else e.events == [] || e.events == [OnConnect, OnDisconnect]
  }

  ghost predicate Registered(s: Server) {
    && (forall sid: Sid :: sid in s.registry <==> sid < |s.sessions| && s.sessions[sid].x.connected)
    && (forall sid :: 0 <= sid < |s.sessions| ==> EventsOk(s.sessions[sid]))
    && s.connects == s.disconnects + |s.registry|
  }

  /** After a stop every session still connected has its disconnect queued, ahead of any start. */
  ghost predicate Leaving(s: Server) {
    !s.started ==> forall sid <- s.registry :: DisconnectH(sid) in Head(s.queue)
  }

  ghost predicate LifeInv(s: Server) { Registered(s) && Leaving(s) }

  lemma {:induction false} EnqueueLife(s: Server, hs: seq<Handler>)
    requires LifeInv(s)
    ensures LifeInv(Enqueue(s, hs))
  {
    HeadAppend(s.queue, hs);
  }

  lemma {:induction false} PutRegistered(s: Server, sid: Sid, x: Session)
    requires Registered(s) && sid < |s.sessions| && (x.connected ==> s.sessions[sid].x.connected)
    ensures Registered(Put(s, sid, x))
  {
    var t := Put(s, sid, x);
    assert forall k: Sid :: k < |s.sessions| && k != sid ==> t.sessions[k] == s.sessions[k];
    assert EventsOk(s.sessions[sid]) && t.sessions[sid].x == x;
  }

  lemma {:induction false} PutLife(s: Server, sid: Sid, x: Session)
    requires LifeInv(s) && sid < |s.sessions| && (x.connected ==> s.sessions[sid].x.connected)
    ensures LifeInv(Put(s, sid, x))
  {
    PutRegistered(s, sid, x);
  }

  /** No handler and no operation of the socket connects a session. */
  lemma {:induction false} NobodyReconnects(x: Session, data: seq<byte>)
    ensures TrySend(x).connected ==> x.connected
    ensures !Disconnected(x).connected
    ensures SendAsync(x, data).connected ==> x.connected
    ensures forall a, b :: Limited(x, a, b).connected ==> x.connected
    ensures x.tx.op.Written? && WriteDone(x).connected ==> x.connected
    ensures x.rx.op.Arrived? && ReadDone(x).connected ==> x.connected
  {
  }

  lemma {:induction false} PopLife(s: Server)
    requires LifeInv(s) && s.queue != [] && (!s.queue[0].DisconnectH? || s.started)
    ensures LifeInv(s.(queue := s.queue[1..]))
  {
  }

  lemma {:induction false} AllHungUp(sessions: seq<Entry>, order: seq<Sid>, sid: Sid)
    requires sid in order && sid < |sessions| && sessions[sid].x.connected
    ensures DisconnectH(sid) in Hangups(sessions, order)
  {
    if order[0] != sid { AllHungUp(sessions, order[1..], sid); }
  }

  lemma {:induction false} StopLife(s: Server, room: nat, order: seq<Sid>)
    requires AcceptInv(s) && LifeInv(s) && s.queue != [] && s.queue[0].StopH? && Visits(order, s.registry)
    ensures LifeInv(RunHandler(s.(queue := s.queue[1..]), StopH, room, order))
  {
    PopLife(s);
    if s.started {
      var q, hang := s.queue[1..] + Aborted(s.accepting), Hangups(s.sessions, order);
      assert forall h <- s.queue[1..] :: !h.StartH?;
      assert forall h <- q :: h in s.queue[1..] || h in Aborted(s.accepting);
      HangupsQuiet(s.sessions, order);
      HeadAppend(q, hang);
      HeadAppend(hang, []);
      forall sid | sid in s.registry
        ensures DisconnectH(sid) in q + hang
      {
        AllHungUp(s.sessions, order, sid);
      }
    }
  }

  lemma {:induction false} DisconnectLife(s: Server, sid: Sid, room: nat, order: seq<Sid>)
    requires LifeInv(s) && s.queue != [] && s.queue[0] == DisconnectH(sid)
    ensures LifeInv(RunHandler(s.(queue := s.queue[1..]), DisconnectH(sid), room, order))
  {
    var s' := s.(queue := s.queue[1..]);
    assert Head(s.queue) == [DisconnectH(sid)] + Head(s.queue[1..]);
    assert forall other <- s.registry :: other != sid ==> !s.started ==> DisconnectH(other) in Head(s'.queue);
    if sid < |s.sessions| {
      PutRegistered(s', sid, Disconnected(s.sessions[sid].x));
    }
  }

  lemma {:induction false} OpenLife(s: Server, sid: Sid, room: nat)
    requires LifeInv(s) && s.started && Untouched(s, sid)
    ensures LifeInv(Open(s, sid, room))
  {
  }

  lemma {:induction false} DoneLife(s: Server, room: nat, order: seq<Sid>)
    requires AcceptInv(s) && LifeInv(s) && s.queue != [] && s.queue[0].AcceptDone?
    ensures LifeInv(RunHandler(s.(queue := s.queue[1..]), s.queue[0], room, order))
  {
    PopLife(s);
    assert s.queue[0] in s.queue;
    if s.queue[0].ok {
      OpenLife(s.(queue := s.queue[1..]), s.slot.value, room);
    }
  }

  /** When a start takes effect, no session of an earlier cycle is left. */
  lemma {:induction false} StartIsClean(s: Server)
    requires LifeInv(s) && !s.started && s.queue != [] && s.queue[0].StartH?
    ensures s.registry == {}
  {
    assert Head(s.queue) == [];
  }

  lemma {:induction false} RunLife(s: Server, room: nat, order: seq<Sid>)
    requires AcceptInv(s) && LifeInv(s) && Enabled(s, RunNext(room, order)) && !Hazard(s, RunNext(room, order))
    ensures LifeInv(Next(s, RunNext(room, order)))
  {
    var s' := s.(queue := s.queue[1..]);
    match s.queue[0]
    case StartH => PopLife(s);
    case StopH => StopLife(s, room, order);
    case AcceptDone(_, _) => DoneLife(s, room, order);
    case DisconnectAllH =>
      PopLife(s);
      EnqueueLife(s', Hangups(s.sessions, order));
    case DisconnectH(sid) => DisconnectLife(s, sid, room, order);
    case TrySendH(sid) =>
      PopLife(s);
      if sid < |s.sessions| {
        NobodyReconnects(s.sessions[sid].x, []);
        PutLife(s', sid, TrySend(s.sessions[sid].x));
      }
  }

  lemma {:induction false} SessionLife(s: Server, l: Label)
    requires LifeInv(s) && Enabled(s, l) && (l.SendTo? || l.SetLimits? || l.Socket? || l.RunWrite? || l.RunRead?)
    ensures LifeInv(Next(s, l))
  {
    var x := s.sessions[l.sid].x;
    NobodyReconnects(x, if l.SendTo? then l.data else []);
    match l
    case SendTo(sid, data) =>
      PutLife(s, sid, SendAsync(x, data));
      EnqueueLife(Put(s, sid, SendAsync(x, data)), if Wakes(x, data) then [TrySendH(sid)] else []);
    case SetLimits(sid, a, b) => PutLife(s, sid, Limited(x, a, b));
    case Socket(sid, op) => PutLife(s, sid, Interleaving.Next(AtRest(x, false), op).x);
    case RunWrite(sid) => PutLife(s, sid, WriteDone(x));
    case RunRead(sid) => PutLife(s, sid, ReadDone(x));
  }

  lemma {:induction false} HandshakeLife(s: Server, sid: Sid, ok: bool)
    requires LifeInv(s) && Enabled(s, RunHandshake(sid, ok))
    ensures LifeInv(Next(s, RunHandshake(sid, ok)))
  {
    var s' := s.(sessions := s.sessions[sid := s.sessions[sid].(shaking := false)]);
    assert LifeInv(s');
    EnqueueLife(s', [DisconnectH(sid)]);
  }

  lemma {:induction false} CastLife(s: Server, data: seq<byte>, order: seq<Sid>)
    requires LifeInv(s) && Enabled(s, Multicast(data, order))
    ensures LifeInv(Next(s, Multicast(data, order)))
  {
    EnqueueLife(s, Wakeups(s.sessions, data, order));
    var after := Cast(s, data);
    assert forall i :: 0 <= i < |after| ==>
      after[i].x.connected == s.sessions[i].x.connected && after[i].events == s.sessions[i].events;
  }

  lemma {:induction false} LifeNext(s: Server, l: Label)
    requires AcceptInv(s) && LifeInv(s) && Enabled(s, l) && !Hazard(s, l)
    ensures LifeInv(Next(s, l))
  {
    match l
    case ApiStart => EnqueueLife(s, [StartH]);
    case ApiStop => EnqueueLife(s, [StopH]);
    case ApiDisconnectAll => EnqueueLife(s, [DisconnectAllH]);
    case ApiDisconnect(sid) => EnqueueLife(s, [DisconnectH(sid)]);
    case Incoming(i, ok) => EnqueueLife(s, [AcceptDone(s.accepting[i], ok)]);
    case Multicast(data, order) => CastLife(s, data, order);
    case RunNext(room, order) => RunLife(s, room, order);
    case RunHandshake(sid, ok) => HandshakeLife(s, sid, ok);
    case _ => SessionLife(s, l);
  }

  lemma {:induction false} LifeRun(s: Server, ls: seq<Label>)
    requires AcceptInv(s) && LifeInv(s) && Possible(s, ls) && Safe(s, ls)
    ensures AcceptInv(End(s, ls)) && LifeInv(End(s, ls))
    decreases |ls|
  {
    if ls != [] {
      AcceptNext(s, ls[0]);
      LifeNext(s, ls[0]);
      LifeRun(Next(s, ls[0]), ls[1..]);
    }
  }

  /**
   In every safe run: each session is told `onConnect` once and then `onDisconnect` at most once; the registry
   is exactly the set of connected sessions; connects minus disconnects is its size; and once the server is
   stopped and its queue drained, nothing is registered or connected.
   */
  lemma {:induction false} SessionLifecycle(ssl: bool, ls: seq<Label>)
    requires Possible(Init(ssl), ls) && Safe(Init(ssl), ls)
    ensures
      var e := End(Init(ssl), ls);
      && (forall sid :: 0 <= sid < |e.sessions| ==> e.sessions[sid].events <= [OnConnect, OnDisconnect])
      && (forall sid :: 0 <= sid < |e.sessions| ==>
            (e.sessions[sid].x.connected <==> e.sessions[sid].events == [OnConnect]))
      && (forall sid: Sid :: sid in e.registry <==> sid < |e.sessions| && e.sessions[sid].x.connected)
      && e.connects - e.disconnects == |e.registry|
      && (!e.started && e.queue == [] ==> e.registry == {} && forall x <- e.sessions :: !x.x.connected)
  {
    LifeRun(Init(ssl), ls);
    var e := End(Init(ssl), ls);
    assert forall sid :: 0 <= sid < |e.sessions| ==> EventsOk(e.sessions[sid]);
    if !e.started && e.queue == [] {
      assert Head(e.queue) == [];
      assert e.registry == {};
      forall y | y in e.sessions
        ensures !y.x.connected
      {
        var i :| 0 <= i < |e.sessions| && e.sessions[i] == y;
        assert i !in e.registry;
      }
    }
  }
}
