/**
 The server, its acceptor and all its sessions on one I/O thread.

 Posted handlers form a FIFO queue; each handler is one step, and so is each API call of another thread, whose
 check and post are not separated.  Completions of session reads, writes and handshakes may run at any time
 once the socket finished them.  Closing the acceptor queues its aborted accept at once.

 Sessions are numbered in the order they are created.  `events`, `joined`, `left`, `cohort`, `casts`,
 `connects` and `disconnects` are history.
 */
module ServerMachine {
  import opened SessionCore
  import opened AtomicSession
  import Interleaving

  type Sid = nat

  datatype Option<T> = None | Some(value: T)

  datatype Handler =
    | StartH | StopH | DisconnectAllH
    | AcceptDone(accepted: Sid, ok: bool)
    | DisconnectH(sid: Sid) | TrySendH(sid: Sid)

  datatype Event = OnConnect | OnDisconnect

  /** A session with its callbacks so far, and how many multicasts there were when it became ready and when it left. */
  datatype Entry = Entry(x: Session, shaking: bool, events: seq<Event>, joined: Option<nat>, left: Option<nat>)

  datatype Server = Server(
    ssl: bool, started: bool, slot: Option<Sid>, accepting: seq<Sid>,
    registry: set<Sid>, sessions: seq<Entry>, sent: nat, received: nat,
    queue: seq<Handler>, crashed: bool,
    connects: nat, disconnects: nat, cohort: seq<Sid>, casts: seq<seq<byte>>)

  datatype Label =
    // other threads
    | ApiStart | ApiStop | ApiDisconnectAll | ApiDisconnect(sid: Sid)
    | Multicast(data: seq<byte>, order: seq<Sid>) | SendTo(sid: Sid, data: seq<byte>)
    | SetLimits(sid: Sid, sendLimit: nat, receiveLimit: nat)
    // the acceptor and the sockets
    | Incoming(i: nat, ok: bool) | Socket(sid: Sid, op: Interleaving.Label)
    // the I/O thread
    | RunNext(room: nat, order: seq<Sid>) | RunWrite(sid: Sid) | RunRead(sid: Sid) | RunHandshake(sid: Sid, ok: bool)

  /** `order` visits every registered session once, as iterating over the registry does. */
  ghost predicate Visits(order: seq<Sid>, registry: set<Sid>) {
    && (forall i, j :: 0 <= i < j < |order| ==> order[i] != order[j])
    && (forall sid :: sid in order <==> sid in registry)
  }

  ghost predicate Enabled(s: Server, l: Label) {
    && !s.crashed
    && match l
       case ApiDisconnect(sid) => sid < |s.sessions|
       case Multicast(_, order) => Visits(order, s.registry)
       case SendTo(sid, _) => sid < |s.sessions|
       case SetLimits(sid, _, _) => sid < |s.sessions|
       case Incoming(i, _) => i < |s.accepting|
       case Socket(sid, op) =>
         sid < |s.sessions| && (op.Took? || op.Came?) && Interleaving.Enabled(AtRest(s.sessions[sid].x, false), op)
       case RunNext(_, order) => s.queue != [] && Visits(order, s.registry)
       case RunWrite(sid) => sid < |s.sessions| && s.sessions[sid].x.tx.op.Written?
       case RunRead(sid) => sid < |s.sessions| && s.sessions[sid].x.rx.op.Arrived?
       case RunHandshake(sid, _) => sid < |s.sessions| && s.sessions[sid].shaking
       case _ => true
  }

  function Enqueue(s: Server, hs: seq<Handler>): Server { s.(queue := s.queue + hs) }

  /** A handler leaves the session in state `x`; if that disconnected it, the session is unregistered. */
  function Put(s: Server, sid: Sid, x: Session): Server
    requires sid < |s.sessions|
  {
    var e := s.sessions[sid];
    if e.x.connected && !x.connected then
      var gone := e.(x := x, events := e.events + [OnDisconnect], left := Some(|s.casts|));
      s.(sessions := s.sessions[sid := gone], registry := s.registry - {sid}, disconnects := s.disconnects + 1)
    else s.(sessions := s.sessions[sid := e.(x := x)])
  }

  /** A new session waits in the slot and its socket is handed to the acceptor. */
  function Accept(s: Server): Server {
    if !s.started then s
    else
      var sid := |s.sessions|;
      s.(sessions := s.sessions + [Entry(NewSession(s.ssl), false, [], None, None)],
         slot := Some(sid), accepting := s.accepting + [sid])
  }

  function Aborted(sids: seq<Sid>): seq<Handler> {
    seq(|sids|, i requires 0 <= i < |sids| => AcceptDone(sids[i], false))
  }

  function CloseAcceptor(s: Server): Server { Enqueue(s, Aborted(s.accepting)).(accepting := []) }

  /** `registerSession` and `connect`, both on the session in the slot. */
  function Open(s: Server, sid: Sid, room: nat): Server
    requires sid < |s.sessions|
  {
    var e := s.sessions[sid];
    var x := Connected(e.x, room);
    var e' := e.(x := x, shaking := s.ssl, events := e.events + [OnConnect],
                 joined := if x.Ready() then Some(|s.casts|) else e.joined);
    s.(registry := s.registry + {sid}, sessions := s.sessions[sid := e'],
       connects := s.connects + 1, cohort := s.cohort + [sid])
  }

  /** `disconnect` on each session: a handler is posted for those that are connected. */
  function Hangups(sessions: seq<Entry>, order: seq<Sid>): seq<Handler> {
    if order == [] then []
    else
      var sid := order[0];
      (if sid < |sessions| && sessions[sid].x.connected then [DisconnectH(sid)] else []) + Hangups(sessions, order[1..])
  }

  function Wakeups(sessions: seq<Entry>, data: seq<byte>, order: seq<Sid>): seq<Handler> {
    if order == [] then []
    else
      var sid := order[0];
      (if sid < |sessions| && Wakes(sessions[sid].x, data) then [TrySendH(sid)] else [])
      + Wakeups(sessions, data, order[1..])
  }

  function Cast(s: Server, data: seq<byte>): seq<Entry> {
    seq(|s.sessions|, i requires 0 <= i < |s.sessions| =>
      if i in s.registry then s.sessions[i].(x := SendAsync(s.sessions[i].x, data)) else s.sessions[i])
  }

  function RunHandler(s: Server, h: Handler, room: nat, order: seq<Sid>): Server {
    match h
    case StartH => if s.started then s else Accept(s.(started := true, sent := 0, received := 0, cohort := []))
    case StopH =>
      if !s.started then s
      else
        var closed := CloseAcceptor(s).(slot := None);
        Enqueue(closed, Hangups(s.sessions, order)).(started := false)
    case DisconnectAllH => if !s.started then s else Enqueue(s, Hangups(s.sessions, order))
    case AcceptDone(_, ok) =>
      if !ok then Accept(s)
      else if s.slot.None? || s.slot.value >= |s.sessions| then s.(crashed := true)
      else Accept(Open(s, s.slot.value, room))
    case DisconnectH(sid) => if sid >= |s.sessions| then s else Put(s, sid, Disconnected(s.sessions[sid].x))
    case TrySendH(sid) => if sid >= |s.sessions| then s else Put(s, sid, TrySend(s.sessions[sid].x))
  }

  function Next(s: Server, l: Label): Server
    requires Enabled(s, l)
  {
    match l
    case ApiStart => if s.started then s else Enqueue(s, [StartH])
    case ApiStop => if !s.started then s else Enqueue(s, [StopH])
    case ApiDisconnectAll => if !s.started then s else Enqueue(s, [DisconnectAllH])
    case ApiDisconnect(sid) => if !s.sessions[sid].x.connected then s else Enqueue(s, [DisconnectH(sid)])
    case Multicast(data, order) =>
      if !s.started || data == [] then s
      else Enqueue(s, Wakeups(s.sessions, data, order)).(sessions := Cast(s, data), casts := s.casts + [data])
    case SendTo(sid, data) =>
      var x := s.sessions[sid].x;
      Enqueue(Put(s, sid, SendAsync(x, data)), if Wakes(x, data) then [TrySendH(sid)] else [])
    case SetLimits(sid, a, b) => Put(s, sid, Limited(s.sessions[sid].x, a, b))
    case Incoming(i, ok) =>
      Enqueue(s, [AcceptDone(s.accepting[i], ok)]).(accepting := s.accepting[..i] + s.accepting[i + 1..])
    case Socket(sid, op) => Put(s, sid, Interleaving.Next(AtRest(s.sessions[sid].x, false), op).x)
    case RunNext(room, order) => RunHandler(s.(queue := s.queue[1..]), s.queue[0], room, order)
    case RunWrite(sid) =>
      var x := s.sessions[sid].x;
      Put(s, sid, WriteDone(x)).(sent := if x.Ready() then s.sent + x.tx.op.size else s.sent)
    case RunRead(sid) =>
      var x := s.sessions[sid].x;
      Put(s, sid, ReadDone(x)).(received := if x.Ready() then s.received + |x.rx.op.chunk| else s.received)
    case RunHandshake(sid, ok) =>
      var e := s.sessions[sid];
      if e.x.handshaked then s.(sessions := s.sessions[sid := e.(shaking := false)])
      else if ok then
        var x := HandshakeDone(e.x, true);
        var e' := e.(x := x, shaking := false, joined := if x.Ready() then Some(|s.casts|) else e.joined);
        s.(sessions := s.sessions[sid := e'])
      else
        var s' := s.(sessions := s.sessions[sid := e.(shaking := false)]);
        if e.x.connected then Enqueue(s', [DisconnectH(sid)]) else s'
  }

  function Init(ssl: bool): Server {
    Server(ssl, false, None, [], {}, [], 0, 0, [], false, 0, 0, [], [])
  }

  ghost predicate Possible(s: Server, ls: seq<Label>)
    decreases |ls|
  {
    ls == [] || (Enabled(s, ls[0]) && Possible(Next(s, ls[0]), ls[1..]))
  }

  ghost function End(s: Server, ls: seq<Label>): Server
    requires Possible(s, ls)
    decreases |ls|
  {
    if ls == [] then s else End(Next(s, ls[0]), ls[1..])
  }

  lemma {:induction false} Prepend(s: Server, l: Label, ls: seq<Label>)
    requires Enabled(s, l) && Possible(Next(s, l), ls)
    ensures Possible(s, [l] + ls) && End(s, [l] + ls) == End(Next(s, l), ls)
  {
    assert ([l] + ls)[1..] == ls;
  }
}
