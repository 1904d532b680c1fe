/**
 Every session of the server keeps its own invariant through every step of the server.  It includes the
 wake-ups: a session that has bytes to send and no write out has its `trySend` in the server's queue.
 */
module ServerSessions {
  import opened SessionCore
  import opened AtomicSession
  import opened ServerMachine
  import opened ServerAccept
  import Interleaving
  import Delivery

  ghost predicate AllOk(s: Server) {
    forall sid: Sid :: sid < |s.sessions| ==> SessionOk(s.sessions[sid].x, TrySendH(sid) in s.queue)
  }

  /** The wake-ups queued in `s`, except those of session `sid`, are queued in `t`. */
  ghost predicate KeepsWakeups(s: Server, t: Server, sid: Sid) {
    forall k: Sid :: k != sid && TrySendH(k) in s.queue ==> TrySendH(k) in t.queue
  }

  ghost predicate KeepsOthers(s: Server, t: Server, sid: Sid) {
    && |t.sessions| == |s.sessions|
    && forall k: Sid :: k < |s.sessions| && k != sid ==> t.sessions[k].x == s.sessions[k].x
  }

  /** A step of one session: it is in state `x` now and has the wake-up it needs. */
  lemma {:induction false} OneAllOk(s: Server, t: Server, sid: Sid, woken: bool)
    requires AllOk(s) && sid < |s.sessions| && KeepsOthers(s, t, sid) && KeepsWakeups(s, t, sid)
    requires SessionOk(t.sessions[sid].x, woken) && (woken ==> TrySendH(sid) in t.queue)
    ensures AllOk(t)
  {
    forall k: Sid | k < |t.sessions|
      ensures SessionOk(t.sessions[k].x, TrySendH(k) in t.queue)
    {
      if k == sid {
        MoreAwake(t.sessions[k].x, woken, TrySendH(k) in t.queue);
      } else {
        MoreAwake(s.sessions[k].x, TrySendH(k) in s.queue, TrySendH(k) in t.queue);
      }
    }
  }

  lemma {:induction false} SameAllOk(s: Server, t: Server)
    requires AllOk(s) && |t.sessions| == |s.sessions|
    requires forall k: Sid :: k < |s.sessions| ==> t.sessions[k].x == s.sessions[k].x
    requires forall k: Sid :: TrySendH(k) in s.queue ==> TrySendH(k) in t.queue
    ensures AllOk(t)
  {
    forall k: Sid | k < |t.sessions|
      ensures SessionOk(t.sessions[k].x, TrySendH(k) in t.queue)
    {
      MoreAwake(s.sessions[k].x, TrySendH(k) in s.queue, TrySendH(k) in t.queue);
    }
  }

  lemma {:induction false} PutOthers(s: Server, sid: Sid, x: Session)
    requires sid < |s.sessions|
    ensures KeepsOthers(s, Put(s, sid, x), sid) && Put(s, sid, x).sessions[sid].x == x
    ensures Put(s, sid, x).queue == s.queue
  {
  }

  lemma {:induction false} PutAllOk(s: Server, t: Server, sid: Sid, x: Session, woken: bool)
    requires AllOk(s) && sid < |s.sessions| && t.sessions == Put(s, sid, x).sessions
    requires SessionOk(x, woken) && (woken ==> TrySendH(sid) in t.queue) && KeepsWakeups(s, t, sid)
    ensures AllOk(t)
  {
    PutOthers(s, sid, x);
    OneAllOk(s, t, sid, woken);
  }

  // ---------------------------------------------------------------- accepting

  lemma {:induction false} NewOk(x: Session, ssl: bool, room: nat)
    requires New(x, ssl)
    ensures SessionOk(x, false) && SessionOk(Connected(x, room), false)
  {
    assert x == Limited(NewSession(ssl), x.tx.limit, x.rx.limit);
    ConnectedOk(ssl, room, x.tx.limit, x.rx.limit);
    LimitedOk(NewSession(ssl), false, x.tx.limit, x.rx.limit);
  }

  lemma {:induction false} OneMoreAllOk(s: Server, t: Server, e: Entry)
    requires AllOk(s) && t.sessions == s.sessions + [e] && t.queue == s.queue && SessionOk(e.x, false)
    ensures AllOk(t)
  {
    forall k: Sid | k < |t.sessions|
      ensures SessionOk(t.sessions[k].x, TrySendH(k) in t.queue)
    {
      if k < |s.sessions| {
        assert t.sessions[k] == s.sessions[k];
      } else {
        assert t.sessions[k] == e;
        MoreAwake(e.x, false, TrySendH(k) in t.queue);
      }
    }
  }

  lemma {:induction false} AcceptAllOk(s: Server)
    requires AllOk(s)
    ensures AllOk(Accept(s))
  {
    if s.started {
      NewOk(NewSession(s.ssl), s.ssl, 0);
      OneMoreAllOk(s, Accept(s), Entry(NewSession(s.ssl), false, [], None, None));
    }
  }

  lemma {:induction false} OpenOthers(s: Server, sid: Sid, room: nat)
    requires sid < |s.sessions|
    ensures
      var t := Open(s, sid, room);
      KeepsOthers(s, t, sid) && t.sessions[sid].x == Connected(s.sessions[sid].x, room) && t.queue == s.queue
  {
  }

  lemma {:induction false} OpenAllOk(s: Server, sid: Sid, room: nat)
    requires AllOk(s) && Untouched(s, sid)
    ensures AllOk(Open(s, sid, room))
  {
    OpenOthers(s, sid, room);
    NewOk(s.sessions[sid].x, s.ssl, room);
    OneAllOk(s, Open(s, sid, room), sid, false);
  }

  lemma {:induction false} OpenedAllOk(s: Server, sid: Sid, room: nat)
    requires AllOk(s) && Untouched(s, sid)
    ensures AllOk(Accept(Open(s, sid, room)))
  {
    OpenAllOk(s, sid, room);
    AcceptAllOk(Open(s, sid, room));
  }

  // ---------------------------------------------------------------- posted handlers

  /** Taking a handler off the queue takes no other. */
  lemma {:induction false} PopKeeps(s: Server, h: Handler)
    requires s.queue != [] && h in s.queue && h != s.queue[0]
    ensures h in s.queue[1..]
  {
  }

  lemma {:induction false} PopAllOk(s: Server)
    requires AllOk(s) && s.queue != [] && !s.queue[0].TrySendH?
    ensures AllOk(s.(queue := s.queue[1..]))
  {
    forall k: Sid | TrySendH(k) in s.queue
      ensures TrySendH(k) in s.queue[1..]
    {
      PopKeeps(s, TrySendH(k));
    }
    SameAllOk(s, s.(queue := s.queue[1..]));
  }

  lemma {:induction false} TrySendAllOk(s: Server, sid: Sid)
    requires AllOk(s) && s.queue != [] && s.queue[0] == TrySendH(sid) && sid < |s.sessions|
    ensures AllOk(Put(s.(queue := s.queue[1..]), sid, TrySend(s.sessions[sid].x)))
  {
    var x, s' := s.sessions[sid].x, s.(queue := s.queue[1..]);
    assert TrySendH(sid) in s.queue;
    TrySendOk(x);
    PutOthers(s', sid, TrySend(x));
    forall k: Sid | k != sid && TrySendH(k) in s.queue
      ensures TrySendH(k) in s'.queue
    {
      PopKeeps(s, TrySendH(k));
    }
    OneAllOk(s, Put(s', sid, TrySend(x)), sid, false);
  }

  /** A wake-up that names no session does nothing. */
  lemma {:induction false} StrayAllOk(s: Server, sid: Sid)
    requires AllOk(s) && s.queue != [] && s.queue[0] == TrySendH(sid) && sid >= |s.sessions|
    ensures AllOk(s.(queue := s.queue[1..]))
  {
    var t := s.(queue := s.queue[1..]);
    forall k: Sid | k < |t.sessions|
      ensures SessionOk(t.sessions[k].x, TrySendH(k) in t.queue)
    {
      if TrySendH(k) in s.queue { PopKeeps(s, TrySendH(k)); }
      MoreAwake(s.sessions[k].x, TrySendH(k) in s.queue, TrySendH(k) in t.queue);
    }
  }

  lemma {:induction false} RunAllOk(s: Server, room: nat, order: seq<Sid>)
    requires AcceptInv(s) && AllOk(s) && Enabled(s, RunNext(room, order)) && !Hazard(s, RunNext(room, order))
    ensures AllOk(Next(s, RunNext(room, order)))
  {
    match s.queue[0]
    case AcceptDone(_, _) => DoneAllOk(s, room, order);
    case TrySendH(sid) => if sid < |s.sessions| { TrySendAllOk(s, sid); } else { StrayAllOk(s, sid); }
    case _ => HandlerAllOk(s, room, order);
  }

  lemma {:induction false} DoneAllOk(s: Server, room: nat, order: seq<Sid>)
    requires AcceptInv(s) && AllOk(s) && s.queue != [] && s.queue[0].AcceptDone?
    ensures AllOk(RunHandler(s.(queue := s.queue[1..]), s.queue[0], room, order))
  {
    var s' := s.(queue := s.queue[1..]);
    assert s.queue[0] in s.queue;
    PopAllOk(s);
    if s.queue[0].ok { OpenedAllOk(s', s.slot.value, room); } else { AcceptAllOk(s'); }
  }

  lemma {:induction false} HandlerAllOk(s: Server, room: nat, order: seq<Sid>)
    requires AllOk(s) && s.queue != [] && !s.queue[0].AcceptDone? && !s.queue[0].TrySendH?
    ensures AllOk(RunHandler(s.(queue := s.queue[1..]), s.queue[0], room, order))
  {
    var s' := s.(queue := s.queue[1..]);
    PopAllOk(s);
    match s.queue[0]
    case StartH => if !s.started { StartAllOk(s'); }
    case DisconnectH(sid) => if sid < |s.sessions| { DisconnectAllOk(s', sid); }
    case StopH => SameAllOk(s', RunHandler(s', StopH, room, order));
    case DisconnectAllH => SameAllOk(s', RunHandler(s', DisconnectAllH, room, order));
  }

  lemma {:induction false} StartAllOk(s: Server)
    requires AllOk(s)
    ensures AllOk(Accept(s.(started := true, sent := 0, received := 0, cohort := [])))
  {
    SameAllOk(s, s.(started := true, sent := 0, received := 0, cohort := []));
    AcceptAllOk(s.(started := true, sent := 0, received := 0, cohort := []));
  }

  lemma {:induction false} DisconnectAllOk(s: Server, sid: Sid)
    requires AllOk(s) && sid < |s.sessions|
    ensures AllOk(Put(s, sid, Disconnected(s.sessions[sid].x)))
  {
    var x := s.sessions[sid].x;
    DisconnectedOk(x, TrySendH(sid) in s.queue);
    PutOthers(s, sid, Disconnected(x));
    PutAllOk(s, Put(s, sid, Disconnected(x)), sid, Disconnected(x), TrySendH(sid) in s.queue);
  }

  // ---------------------------------------------------------------- other threads and the sockets

  /** `multicast` queues the wake-up of every session that needs one. */
  lemma {:induction false} AllWoken(sessions: seq<Entry>, data: seq<byte>, order: seq<Sid>, sid: Sid)
    requires sid in order && sid < |sessions| && Wakes(sessions[sid].x, data)
    ensures TrySendH(sid) in Wakeups(sessions, data, order)
  {
    if order[0] != sid { AllWoken(sessions, data, order[1..], sid); }
  }

  lemma {:induction false} CastAllOk(s: Server, data: seq<byte>, order: seq<Sid>)
    requires AllOk(s) && Enabled(s, Multicast(data, order)) && s.started && data != []
    ensures AllOk(Next(s, Multicast(data, order)))
  {
    var t := Next(s, Multicast(data, order));
    forall sid: Sid | sid < |t.sessions|
      ensures SessionOk(t.sessions[sid].x, TrySendH(sid) in t.queue)
    {
      CastOneOk(s, data, order, sid);
    }
  }

  lemma {:induction false} CastOneOk(s: Server, data: seq<byte>, order: seq<Sid>, sid: Sid)
    requires AllOk(s) && Visits(order, s.registry) && sid < |s.sessions|
    ensures SessionOk(Cast(s, data)[sid].x, TrySendH(sid) in s.queue + Wakeups(s.sessions, data, order))
  {
    var x, woken := s.sessions[sid].x, TrySendH(sid) in s.queue;
    var queued := TrySendH(sid) in s.queue + Wakeups(s.sessions, data, order);
    if sid in s.registry {
      SendAsyncOk(x, woken, data);
      if Wakes(x, data) { AllWoken(s.sessions, data, order, sid); }
      MoreAwake(SendAsync(x, data), woken || Wakes(x, data), queued);
    } else {
      MoreAwake(x, woken, queued);
    }
  }

  lemma {:induction false} LimitAllOk(s: Server, sid: Sid, a: nat, b: nat)
    requires AllOk(s) && Enabled(s, SetLimits(sid, a, b))
    ensures AllOk(Next(s, SetLimits(sid, a, b)))
  {
    LimitedOk(s.sessions[sid].x, TrySendH(sid) in s.queue, a, b);
    QuietAllOk(s, Next(s, SetLimits(sid, a, b)), sid, Limited(s.sessions[sid].x, a, b));
  }

  lemma {:induction false} SocketAllOk(s: Server, sid: Sid, op: Interleaving.Label)
    requires AllOk(s) && Enabled(s, Socket(sid, op))
    ensures AllOk(Next(s, Socket(sid, op)))
  {
    SocketOk(s.sessions[sid].x, TrySendH(sid) in s.queue, op);
    QuietAllOk(s, Next(s, Socket(sid, op)), sid, Interleaving.Next(AtRest(s.sessions[sid].x, false), op).x);
  }

  lemma {:induction false} WriteAllOk(s: Server, sid: Sid)
    requires AllOk(s) && Enabled(s, RunWrite(sid))
    ensures AllOk(Next(s, RunWrite(sid)))
  {
    WriteDoneOk(s.sessions[sid].x, TrySendH(sid) in s.queue);
    QuietAllOk(s, Next(s, RunWrite(sid)), sid, WriteDone(s.sessions[sid].x));
  }

  lemma {:induction false} ReadAllOk(s: Server, sid: Sid)
    requires AllOk(s) && Enabled(s, RunRead(sid))
    ensures AllOk(Next(s, RunRead(sid)))
  {
    ReadDoneOk(s.sessions[sid].x, TrySendH(sid) in s.queue);
    QuietAllOk(s, Next(s, RunRead(sid)), sid, ReadDone(s.sessions[sid].x));
  }

  lemma {:induction false} SendAllOk(s: Server, sid: Sid, data: seq<byte>)
    requires AllOk(s) && Enabled(s, SendTo(sid, data))
    ensures AllOk(Next(s, SendTo(sid, data)))
  {
    var x, t := s.sessions[sid].x, Next(s, SendTo(sid, data));
    SendAsyncOk(x, TrySendH(sid) in s.queue, data);
    PutAllOk(s, t, sid, SendAsync(x, data), TrySendH(sid) in s.queue || Wakes(x, data));
  }

  lemma {:induction false} QuietAllOk(s: Server, t: Server, sid: Sid, x: Session)
    requires AllOk(s) && sid < |s.sessions| && t.sessions == Put(s, sid, x).sessions && t.queue == s.queue
    requires SessionOk(x, TrySendH(sid) in s.queue)
    ensures AllOk(t)
  {
    PutAllOk(s, t, sid, x, TrySendH(sid) in s.queue);
  }

  lemma {:induction false} HandshakeAllOk(s: Server, sid: Sid, ok: bool)
    requires AllOk(s) && Enabled(s, RunHandshake(sid, ok))
    ensures AllOk(Next(s, RunHandshake(sid, ok)))
  {
    var t, woken := Next(s, RunHandshake(sid, ok)), TrySendH(sid) in s.queue;
    HandshakeDoneOk(s.sessions[sid].x, woken, ok);
    assert t.sessions[sid].x == HandshakeDone(s.sessions[sid].x, ok);
    OneAllOk(s, t, sid, woken);
  }

  lemma {:induction false} AllOkNext(s: Server, l: Label)
    requires AcceptInv(s) && AllOk(s) && Enabled(s, l) && !Hazard(s, l)
    ensures AllOk(Next(s, l))
  {
    match l
    case RunNext(room, order) => RunAllOk(s, room, order);
    case Multicast(data, order) => if s.started && data != [] { CastAllOk(s, data, order); }
    case RunHandshake(sid, ok) => HandshakeAllOk(s, sid, ok);
    case SendTo(sid, data) => SendAllOk(s, sid, data);
    case SetLimits(sid, a, b) => LimitAllOk(s, sid, a, b);
    case Socket(sid, op) => SocketAllOk(s, sid, op);
    case RunWrite(sid) => WriteAllOk(s, sid);
    case RunRead(sid) => ReadAllOk(s, sid);
    case _ => SameAllOk(s, Next(s, l));
  }

  // ---------------------------------------------------------------- whole runs

  lemma {:induction false} AllOkRun(s: Server, ls: seq<Label>)
    requires AcceptInv(s) && AllOk(s) && Possible(s, ls) && Safe(s, ls)
    ensures AllOk(End(s, ls))
    decreases |ls|
  {
    if ls != [] {
      AcceptNext(s, ls[0]);
      AllOkNext(s, ls[0]);
      AllOkRun(Next(s, ls[0]), ls[1..]);
    }
  }

  lemma {:induction false} SessionAwake(s: Server, sid: Sid)
    requires AllOk(s) && sid < |s.sessions|
    ensures
      var x := s.sessions[sid].x;
      && x.tx.wire <= x.tx.accepted
      && (x.Ready() && x.tx.wire != x.tx.accepted ==> x.tx.op != NoWrite || TrySendH(sid) in s.queue)
      && (x.Ready() ==> x.rx.op != NoRead)
      && (x.connected ==> x.tx.accepted == x.tx.wire + Delivery.Unsent(AtRest(x, false)))
      && (!x.connected ==> x.tx.main == [] && x.tx.flush == [] && !x.tx.sending && !x.rx.receiving)
  {
    var x := s.sessions[sid].x;
    assert SessionOk(x, TrySendH(sid) in s.queue);
    Delivery.Buffered(AtRest(x, TrySendH(sid) in s.queue));
    assert Delivery.Unsent(AtRest(x, TrySendH(sid) in s.queue)) == Delivery.Unsent(AtRest(x, false));
    if x.Ready() {
      Delivery.IdleReads(AtRest(x, TrySendH(sid) in s.queue));
      if x.tx.wire != x.tx.accepted {
        Delivery.UnsentIsCovered(AtRest(x, TrySendH(sid) in s.queue));
      }
    }
  }

  /**
   In every safe run of the server, whatever limits its sessions have: the bytes given to a session's socket are
   a prefix of the bytes it accepted, and a ready session for which they are not all of them has a write out or
   its `trySend` in the queue.  So once the queue is drained and no write is out, everything was sent.  A ready
   session always has a read out, and a session that is not connected keeps neither flag nor buffered byte.
   */
  lemma {:induction false} NoSessionSleeps(ssl: bool, ls: seq<Label>, sid: Sid)
    requires Possible(Init(ssl), ls) && Safe(Init(ssl), ls) && sid < |End(Init(ssl), ls).sessions|
    ensures
      var e, x := End(Init(ssl), ls), End(Init(ssl), ls).sessions[sid].x;
      && x.tx.wire <= x.tx.accepted
      && (x.Ready() && x.tx.wire != x.tx.accepted ==> x.tx.op != NoWrite || TrySendH(sid) in e.queue)
      && (x.Ready() ==> x.rx.op != NoRead)
      && (!x.connected ==> x.tx.main == [] && x.tx.flush == [] && !x.tx.sending && !x.rx.receiving)
  {
    AllOkRun(Init(ssl), ls);
    SessionAwake(End(Init(ssl), ls), sid);
  }
}
