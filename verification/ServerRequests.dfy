/**
 What is asked of the server is done, and nothing else: it starts and stops as last requested, a session leaves
 exactly when something told it to, and an SSL session always has its handshake outstanding or is leaving.  The
 references are computed from the steps of the run alone.
 */
module ServerRequests {
  import opened SessionCore
  import opened AtomicSession
  import opened ServerMachine
  import opened ServerAccept
  import opened ServerLife
  import Interleaving

  // ---------------------------------------------------------------- what is posted

  /** The handlers that a call, a completion or a finished accept adds to the queue. */
  function Posted(s: Server, l: Label): seq<Handler> {
    match l
    case ApiStart => if s.started then [] else [StartH]
    case ApiStop => if s.started then [StopH] else []
    case ApiDisconnectAll => if s.started then [DisconnectAllH] else []
    case ApiDisconnect(k) => if k < |s.sessions| && s.sessions[k].x.connected then [DisconnectH(k)] else []
    case Multicast(data, order) => if s.started && data != [] then Wakeups(s.sessions, data, order) else []
    case SendTo(k, data) => if k < |s.sessions| && Wakes(s.sessions[k].x, data) then [TrySendH(k)] else []
    case Incoming(i, ok) => if i < |s.accepting| then [AcceptDone(s.accepting[i], ok)] else []
    case RunHandshake(k, ok) =>
      if k < |s.sessions| && s.sessions[k].x.connected && !s.sessions[k].x.handshaked && !ok then [DisconnectH(k)]
      else []
    case _ => []
  }

  /** Every step but a run of the queue posts these, behind everything queued, and leaves the server as started. */
  lemma {:induction false} QueueGrows(s: Server, l: Label)
    requires Enabled(s, l) && !l.RunNext?
    ensures Next(s, l).queue == s.queue + Posted(s, l) && Next(s, l).started == s.started
  {
    assert s.queue + [] == s.queue;
    match l
    case SendTo(_, _) =>
    case Multicast(_, _) =>
    case RunHandshake(_, _) =>
    case RunWrite(_) =>
    case RunRead(_) =>
    case Socket(_, _) =>
    case SetLimits(_, _, _) =>
    case _ =>
  }

  // ---------------------------------------------------------------- start and stop

  /** The last request to start or to stop that was accepted. */
  datatype Wish = Nothing | Start | Stop

  function WishStep(w: Wish, s: Server, l: Label): Wish {
    if l.ApiStart? && !s.started then Start else if l.ApiStop? && s.started then Stop else w
  }

  ghost function WishAt(w: Wish, s: Server, ls: seq<Label>): Wish
    requires Possible(s, ls)
    decreases |ls|
  {
    if ls == [] then w else WishAt(WishStep(w, s, ls[0]), Next(s, ls[0]), ls[1..])
  }

  /** The wish is fulfilled, or the handler that fulfils it is queued; no handler against it has any effect. */
  ghost predicate Granted(w: Wish, s: Server) {
    match w
    case Nothing => !s.started && StartH !in s.queue
    case Start => if s.started then StopH !in s.queue else StartH in s.queue
    case Stop => if s.started then StopH in s.queue else StartH !in s.queue
  }

  /** Handlers other than start and stop come and go. */
  ghost predicate SameRequests(s: Server, t: Server) {
    && t.started == s.started
    && (StartH in t.queue <==> StartH in s.queue) && (StopH in t.queue <==> StopH in s.queue)
  }

  lemma {:induction false} EnqueueSame(s: Server, hs: seq<Handler>)
    requires forall h <- hs :: !h.StartH? && !h.StopH?
    ensures SameRequests(s, Enqueue(s, hs))
  {
  }

  /** The queue after the first handler, less that handler. */
  lemma {:induction false} InTail(q: seq<Handler>, h: Handler)
    requires q != []
    ensures h in q[1..] ==> h in q
    ensures h in q && h != q[0] ==> h in q[1..]
  {
  }

  lemma {:induction false} GrantStart(w: Wish, s: Server, room: nat, order: seq<Sid>)
    requires AcceptInv(s) && Granted(w, s) && s.queue != [] && s.queue[0].StartH?
    ensures Granted(w, RunHandler(s.(queue := s.queue[1..]), StartH, room, order))
  {
    assert s.queue[0] in s.queue;
    InTail(s.queue, StartH);
    InTail(s.queue, StopH);
    if !s.started {
      assert StopH !in s.queue[1..] by {
        assert forall j :: 1 <= j < |s.queue| ==> !s.queue[j].StopH?;
      }
    }
  }

  lemma {:induction false} GrantStop(w: Wish, s: Server, room: nat, order: seq<Sid>)
    requires AcceptInv(s) && Granted(w, s) && s.queue != [] && s.queue[0].StopH?
    ensures Granted(w, RunHandler(s.(queue := s.queue[1..]), StopH, room, order))
  {
    assert s.queue[0] in s.queue;
    InTail(s.queue, StartH);
    if s.started {
      var hang := Hangups(s.sessions, order);
      HangupsQuiet(s.sessions, order);
      assert StartH !in s.queue[1..] by {
        assert forall j :: 1 <= j < |s.queue| ==> !s.queue[j].StartH?;
      }
      assert forall h <- s.queue[1..] + Aborted(s.accepting) + hang ::
          h in s.queue[1..] || h in Aborted(s.accepting) || h in hang;
    }
  }

  lemma {:induction false} GrantRun(w: Wish, s: Server, room: nat, order: seq<Sid>)
    requires AcceptInv(s) && Granted(w, s) && s.queue != []
    ensures Granted(w, RunHandler(s.(queue := s.queue[1..]), s.queue[0], room, order))
  {
    match s.queue[0]
    case StartH => GrantStart(w, s, room, order);
    case StopH => GrantStop(w, s, room, order);
    case _ =>
      InTail(s.queue, StartH);
      InTail(s.queue, StopH);
      HangupsQuiet(s.sessions, order);
      EnqueueSame(s.(queue := s.queue[1..]), Hangups(s.sessions, order));
  }

  lemma {:induction false} GrantStep(w: Wish, s: Server, l: Label)
    requires AcceptInv(s) && Granted(w, s) && Enabled(s, l)
    ensures Granted(WishStep(w, s, l), Next(s, l))
  {
    if l.RunNext? {
      GrantRun(w, s, l.room, l.order);
    } else {
      QueueGrows(s, l);
      GrantPosted(w, s, Next(s, l), l);
    }
  }

  lemma {:induction false} GrantPosted(w: Wish, s: Server, t: Server, l: Label)
    requires Granted(w, s) && !l.RunNext? && t.queue == s.queue + Posted(s, l) && t.started == s.started
    ensures Granted(WishStep(w, s, l), t)
  {
    if l.Multicast? { WakeupsQuiet(s.sessions, l.data, l.order); }
    assert forall h <- t.queue :: h in s.queue || h in Posted(s, l);
    assert forall h <- s.queue :: h in t.queue;
    assert forall h <- Posted(s, l) :: h in t.queue;
  }

  lemma {:induction false} GrantAlways(w: Wish, s: Server, ls: seq<Label>)
    requires AcceptInv(s) && Granted(w, s) && Possible(s, ls) && Safe(s, ls)
    ensures Granted(WishAt(w, s, ls), End(s, ls))
    decreases |ls|
  {
    if ls != [] {
      AcceptNext(s, ls[0]);
      GrantStep(w, s, ls[0]);
      GrantAlways(WishStep(w, s, ls[0]), Next(s, ls[0]), ls[1..]);
    }
  }

  /** In every safe run, once the queue is drained, the server is started exactly when that was requested last. */
  lemma {:induction false} StartedExactlyWhenAsked(ssl: bool, ls: seq<Label>)
    requires Possible(Init(ssl), ls) && Safe(Init(ssl), ls)
    ensures
      var e, w := End(Init(ssl), ls), WishAt(Nothing, Init(ssl), ls);
      && (e.queue == [] ==> (e.started <==> w.Start?))
      && (e.started && StopH !in e.queue ==> w.Start?)
      && (!e.started && StartH !in e.queue ==> !w.Start?)
  {
    GrantAlways(Nothing, Init(ssl), ls);
  }

  /**
   A stop that takes effect ends the accept chain and turns everybody out: the outstanding accept completes with
   an error, the slot is empty, and every connected session has its disconnect queued.
   */
  lemma {:induction false} StopTurnsOut(s: Server, room: nat, order: seq<Sid>)
    requires LifeInv(s) && Enabled(s, RunNext(room, order)) && s.queue[0].StopH? && s.started
    ensures
      var t := Next(s, RunNext(room, order));
      && !t.started && t.slot == None && t.accepting == [] && t.sessions == s.sessions
      && (forall sid <- s.accepting :: AcceptDone(sid, false) in t.queue)
      && (forall sid: Sid :: sid < |s.sessions| && s.sessions[sid].x.connected ==> DisconnectH(sid) in t.queue)
  {
    var t, rest := Next(s, RunNext(room, order)), s.queue[1..];
    var hang := Hangups(s.sessions, order);
    assert t.queue == rest + Aborted(s.accepting) + hang;
    forall sid | sid in s.accepting
      ensures AcceptDone(sid, false) in t.queue
    {
      var i :| 0 <= i < |s.accepting| && s.accepting[i] == sid;
      assert Aborted(s.accepting)[i] == AcceptDone(sid, false);
      assert t.queue[|rest| + i] == AcceptDone(sid, false);
    }
    forall sid: Sid | sid < |s.sessions| && s.sessions[sid].x.connected
      ensures DisconnectH(sid) in t.queue
    {
      HangupsOf(s.sessions, order, sid);
      assert DisconnectH(sid) in hang;
    }
  }

  // ---------------------------------------------------------------- leaving

  /** This step tells session `sid`, which is connected, to leave. */
  ghost predicate TellsToLeave(s: Server, l: Label, sid: Sid)
    requires Enabled(s, l)
  {
    && sid < |s.sessions| && s.sessions[sid].x.connected
    && var x := s.sessions[sid].x;
       match l
       case ApiDisconnect(k) => k == sid
       case ApiDisconnectAll => s.started
       case RunNext(_, _) => s.started && (s.queue[0].StopH? || s.queue[0].DisconnectAllH?)
       case RunHandshake(k, ok) => k == sid && !ok && !x.handshaked
       case RunWrite(k) => k == sid && x.handshaked && x.tx.op.err
       case RunRead(k) =>
         && k == sid && x.handshaked
         && (x.rx.op.err || (x.rx.room == |x.rx.op.chunk| > 0 && OverLimit(x.rx, x.rx.room)))
       case _ => false
  }

  ghost predicate Told(s: Server, ls: seq<Label>, sid: Sid)
    requires Possible(s, ls)
    decreases |ls|
  {
    ls != [] && (TellsToLeave(s, ls[0], sid) || Told(Next(s, ls[0]), ls[1..], sid))
  }

  ghost predicate Connected(s: Server, sid: Sid) { sid < |s.sessions| && s.sessions[sid].x.connected }

  ghost predicate Leaves(told: bool, s: Server, sid: Sid) {
    if told then Connected(s, sid) ==> DisconnectH(sid) in s.queue || DisconnectAllH in s.queue
    else
      && DisconnectH(sid) !in s.queue
      && (sid < |s.sessions| && s.sessions[sid].events != [] ==> s.sessions[sid].x.connected)
  }

  /** The session is as it was, and so is the part of the queue that concerns it. */
  ghost predicate SameFor(s: Server, t: Server, sid: Sid) {
    && (sid < |s.sessions| ==> sid < |t.sessions|)
    && (sid < |s.sessions| ==> t.sessions[sid].x.connected == s.sessions[sid].x.connected)
    && (sid < |s.sessions| ==> t.sessions[sid].events == s.sessions[sid].events)
    && (|s.sessions| <= sid < |t.sessions| ==> !t.sessions[sid].x.connected && t.sessions[sid].events == [])
    && (DisconnectH(sid) in t.queue <==> DisconnectH(sid) in s.queue)
    && (DisconnectAllH in s.queue ==> DisconnectAllH in t.queue)
  }

  lemma {:induction false} LeavesSame(told: bool, s: Server, t: Server, sid: Sid)
    requires Leaves(told, s, sid) && SameFor(s, t, sid)
    ensures Leaves(told, t, sid)
  {
  }

  /** A connected session becomes disconnected, or is told to. */
  lemma {:induction false} LeavesTold(s: Server, t: Server, sid: Sid)
    requires Connected(t, sid) ==> DisconnectH(sid) in t.queue || DisconnectAllH in t.queue
    ensures Leaves(true, t, sid)
  {
  }

  lemma {:induction false} HangupsOf(sessions: seq<Entry>, order: seq<Sid>, sid: Sid)
    ensures DisconnectH(sid) in Hangups(sessions, order) <==>
      sid in order && sid < |sessions| && sessions[sid].x.connected
  {
    if order != [] { HangupsOf(sessions, order[1..], sid); }
  }

  lemma {:induction false} PutSame(s: Server, k: Sid, x: Session, sid: Sid)
    requires k < |s.sessions| && (k == sid ==> x.connected == s.sessions[k].x.connected)
    ensures SameFor(s, Put(s, k, x), sid)
  {
  }

  lemma {:induction false} AcceptSame(s: Server, sid: Sid)
    ensures SameFor(s, Accept(s), sid)
  {
  }

  /** A handler other than disconnect handlers is taken off the queue. */
  lemma {:induction false} PopSame(s: Server, sid: Sid)
    requires s.queue != [] && s.queue[0] != DisconnectH(sid) && !s.queue[0].DisconnectAllH?
    ensures SameFor(s, s.(queue := s.queue[1..]), sid)
  {
    InTail(s.queue, DisconnectH(sid));
    InTail(s.queue, DisconnectAllH);
  }

  /** A stop or a disconnect of all sessions tells every connected one. */
  lemma {:induction false} LeavesAll(told: bool, s: Server, order: seq<Sid>, sid: Sid)
    requires LifeInv(s) && Leaves(told, s, sid) && Visits(order, s.registry)
    requires s.queue != [] && (s.queue[0].StopH? || s.queue[0].DisconnectAllH?)
    ensures
      var t := RunHandler(s.(queue := s.queue[1..]), s.queue[0], 0, order);
      Leaves(told || (s.started && Connected(s, sid)), t, sid)
  {
    HangupsOf(s.sessions, order, sid);
    InTail(s.queue, DisconnectH(sid));
    InTail(s.queue, DisconnectAllH);
    var t := RunHandler(s.(queue := s.queue[1..]), s.queue[0], 0, order);
    assert t.sessions == s.sessions;
    if !s.started {
      if Connected(s, sid) { LeavesDown(s, sid); }
    } else if !Connected(s, sid) {
      assert DisconnectH(sid) in t.queue ==> DisconnectH(sid) in s.queue by {
        assert forall h <- t.queue ::
            h in s.queue[1..] || h in Aborted(s.accepting) || h in Hangups(s.sessions, order);
      }
    } else {
      assert DisconnectH(sid) in Hangups(s.sessions, order);
    }
  }

  /** A stopped server has a disconnect queued for every session still connected. */
  lemma {:induction false} LeavesDown(s: Server, sid: Sid)
    requires LifeInv(s) && !s.started && Connected(s, sid)
    ensures DisconnectH(sid) in s.queue
  {
    assert DisconnectH(sid) in Head(s.queue);
    HeadIn(s.queue, DisconnectH(sid));
  }

  lemma {:induction false} HeadIn(q: seq<Handler>, h: Handler)
    requires h in Head(q)
    ensures h in q
  {
    if h != q[0] { HeadIn(q[1..], h); }
  }

  lemma {:induction false} LeavesOne(told: bool, s: Server, k: Sid, sid: Sid)
    requires Leaves(told, s, sid) && s.queue != [] && s.queue[0] == DisconnectH(k)
    ensures Leaves(told, RunHandler(s.(queue := s.queue[1..]), DisconnectH(k), 0, []), sid)
  {
    var s' := s.(queue := s.queue[1..]);
    assert s.queue[0] in s.queue;
    if k != sid {
      PopSame(s, sid);
      LeavesSame(told, s, s', sid);
      if k < |s.sessions| {
        PutSame(s', k, Disconnected(s.sessions[k].x), sid);
        LeavesSame(told, s', Put(s', k, Disconnected(s.sessions[k].x)), sid);
      }
    }
  }

  lemma {:induction false} LeavesOpen(told: bool, s: Server, room: nat, sid: Sid)
    requires LifeInv(s) && Leaves(told, s, sid) && s.slot.Some? && Untouched(s, s.slot.value)
    requires told ==> sid != s.slot.value
    ensures Leaves(told, Accept(Open(s, s.slot.value, room)), sid)
  {
    var t := Open(s, s.slot.value, room);
    assert sid != s.slot.value ==> SameFor(s, t, sid);
    assert Leaves(told, t, sid);
    AcceptSame(t, sid);
    LeavesSame(told, t, Accept(t), sid);
  }

  lemma {:induction false} LeavesWake(told: bool, s: Server, k: Sid, sid: Sid)
    requires Leaves(told, s, sid) && s.queue != [] && s.queue[0] == TrySendH(k)
    ensures Leaves(told, RunHandler(s.(queue := s.queue[1..]), TrySendH(k), 0, []), sid)
  {
    var s' := s.(queue := s.queue[1..]);
    PopSame(s, sid);
    LeavesSame(told, s, s', sid);
    if k < |s.sessions| {
      PutSame(s', k, TrySend(s.sessions[k].x), sid);
      LeavesSame(told, s', Put(s', k, TrySend(s.sessions[k].x)), sid);
    }
  }

  /** A session that was told to leave has been connected. */
  ghost predicate ToldKnown(told: bool, s: Server, sid: Sid) {
    told ==> sid < |s.sessions| && s.sessions[sid].events != []
  }

  lemma {:induction false} LeavesRun(told: bool, s: Server, room: nat, order: seq<Sid>, sid: Sid)
    requires AcceptInv(s) && LifeInv(s) && Leaves(told, s, sid) && ToldKnown(told, s, sid)
    requires Enabled(s, RunNext(room, order)) && !Hazard(s, RunNext(room, order))
    ensures Leaves(told || TellsToLeave(s, RunNext(room, order), sid), Next(s, RunNext(room, order)), sid)
  {
    var s' := s.(queue := s.queue[1..]);
    match s.queue[0]
    case StartH =>
      PopSame(s, sid);
      LeavesSame(told, s, s', sid);
      if !s.started { AcceptSame(s'.(started := true, sent := 0, received := 0, cohort := []), sid); }
      LeavesSame(told, s', RunHandler(s', StartH, room, order), sid);
    case StopH => LeavesAll(told, s, order, sid);
    case DisconnectAllH => LeavesAll(told, s, order, sid);
    case AcceptDone(_, ok) => LeavesDone(told, s, room, order, sid);
    case DisconnectH(k) => LeavesOne(told, s, k, sid);
    case TrySendH(k) => LeavesWake(told, s, k, sid);
  }

  lemma {:induction false} LeavesDone(told: bool, s: Server, room: nat, order: seq<Sid>, sid: Sid)
    requires AcceptInv(s) && LifeInv(s) && Leaves(told, s, sid) && ToldKnown(told, s, sid)
    requires s.queue != [] && s.queue[0].AcceptDone?
    ensures Leaves(told, RunHandler(s.(queue := s.queue[1..]), s.queue[0], room, order), sid)
  {
    var s' := s.(queue := s.queue[1..]);
    PopSame(s, sid);
    LeavesSame(told, s, s', sid);
    assert s.queue[0] in s.queue;
    if s.queue[0].ok {
      PopLife(s);
      LeavesOpen(told, s', room, sid);
    } else {
      AcceptSame(s', sid);
      LeavesSame(told, s', Accept(s'), sid);
    }
  }

  /** A step of session `k` that adds no disconnect handler to the queue. */
  lemma {:induction false} LeavesPut(told: bool, s: Server, t: Server, k: Sid, x: Session, sid: Sid)
    requires Leaves(told, s, sid) && k < |s.sessions| && (x.connected ==> s.sessions[k].x.connected)
    requires t == Put(s, k, x).(sent := t.sent, received := t.received, queue := t.queue)
    requires DisconnectH(sid) in t.queue <==> DisconnectH(sid) in s.queue
    requires DisconnectAllH in s.queue ==> DisconnectAllH in t.queue
    ensures Leaves(told || (k == sid && s.sessions[k].x.connected && !x.connected), t, sid)
  {
    if k != sid || x.connected == s.sessions[k].x.connected {
      PutSame(s, k, x, sid);
      LeavesSame(told, s, t, sid);
    }
  }

  lemma {:induction false} ReadEnds(x: Session)
    requires x.rx.op.Arrived?
    ensures
      var ends := x.rx.op.err || (x.rx.room == |x.rx.op.chunk| > 0 && OverLimit(x.rx, x.rx.room));
      ReadDone(x).connected <==> x.connected && !(x.handshaked && ends)
  {
  }

  lemma {:induction false} WriteEnds(x: Session)
    requires x.tx.op.Written?
    ensures WriteDone(x).connected <==> x.connected && !(x.handshaked && x.tx.op.err)
  {
  }

  lemma {:induction false} LeavesSession(told: bool, s: Server, l: Label, sid: Sid)
    requires Leaves(told, s, sid) && Enabled(s, l)
    requires l.SendTo? || l.SetLimits? || l.Socket? || l.RunWrite? || l.RunRead?
    ensures Leaves(told || TellsToLeave(s, l, sid), Next(s, l), sid)
  {
    var x := s.sessions[l.sid].x;
    match l
    case SendTo(k, data) => LeavesPut(told, s, Next(s, l), k, SendAsync(x, data), sid);
    case SetLimits(k, a, b) => LeavesPut(told, s, Next(s, l), k, Limited(x, a, b), sid);
    case Socket(k, op) => LeavesPut(told, s, Next(s, l), k, Interleaving.Next(AtRest(x, false), op).x, sid);
    case RunWrite(k) => LeavesWrite(told, s, k, sid);
    case RunRead(k) => LeavesRead(told, s, k, sid);
  }

  lemma {:induction false} LeavesWrite(told: bool, s: Server, k: Sid, sid: Sid)
    requires Leaves(told, s, sid) && Enabled(s, RunWrite(k))
    ensures Leaves(told || TellsToLeave(s, RunWrite(k), sid), Next(s, RunWrite(k)), sid)
  {
    WriteEnds(s.sessions[k].x);
    LeavesPut(told, s, Next(s, RunWrite(k)), k, WriteDone(s.sessions[k].x), sid);
  }

  lemma {:induction false} LeavesRead(told: bool, s: Server, k: Sid, sid: Sid)
    requires Leaves(told, s, sid) && Enabled(s, RunRead(k))
    ensures Leaves(told || TellsToLeave(s, RunRead(k), sid), Next(s, RunRead(k)), sid)
  {
    ReadEnds(s.sessions[k].x);
    LeavesPut(told, s, Next(s, RunRead(k)), k, ReadDone(s.sessions[k].x), sid);
  }

  lemma {:induction false} LeavesHandshake(told: bool, s: Server, k: Sid, ok: bool, sid: Sid)
    requires Leaves(told, s, sid) && Enabled(s, RunHandshake(k, ok))
    ensures Leaves(told || TellsToLeave(s, RunHandshake(k, ok), sid), Next(s, RunHandshake(k, ok)), sid)
  {
    var t := Next(s, RunHandshake(k, ok));
    assert sid < |s.sessions| ==> t.sessions[sid].x.connected == s.sessions[sid].x.connected;
    assert sid < |s.sessions| ==> t.sessions[sid].events == s.sessions[sid].events;
    assert t.queue == s.queue || t.queue == s.queue + [DisconnectH(k)];
  }

  lemma {:induction false} LeavesCast(told: bool, s: Server, data: seq<byte>, order: seq<Sid>, sid: Sid)
    requires Leaves(told, s, sid) && Enabled(s, Multicast(data, order))
    ensures Leaves(told, Next(s, Multicast(data, order)), sid)
  {
    if s.started && data != [] {
      WakeupsQuiet(s.sessions, data, order);
      assert SameFor(s, Next(s, Multicast(data, order)), sid);
    }
  }

  lemma {:induction false} LeavesStep(told: bool, s: Server, l: Label, sid: Sid)
    requires AcceptInv(s) && LifeInv(s) && Leaves(told, s, sid) && ToldKnown(told, s, sid)
    requires Enabled(s, l) && !Hazard(s, l)
    ensures Leaves(told || TellsToLeave(s, l, sid), Next(s, l), sid)
    ensures ToldKnown(told || TellsToLeave(s, l, sid), Next(s, l), sid)
  {
    if sid < |s.sessions| && s.sessions[sid].events != [] { EventsStay(s, l, sid); }
    assert sid < |s.sessions| ==> EventsOk(s.sessions[sid]);
    match l
    case RunNext(room, order) => LeavesRun(told, s, room, order, sid);
    case Multicast(data, order) => LeavesCast(told, s, data, order, sid);
    case RunHandshake(k, ok) => LeavesHandshake(told, s, k, ok, sid);
    case ApiStart => assert SameFor(s, Next(s, l), sid);
    case ApiStop => assert SameFor(s, Next(s, l), sid);
    case Incoming(_, _) => assert SameFor(s, Next(s, l), sid);
    case ApiDisconnectAll => LeavesApi(told, s, l, sid);
    case ApiDisconnect(_) => LeavesApi(told, s, l, sid);
    case _ => LeavesSession(told, s, l, sid);
  }

  lemma {:induction false} LeavesApi(told: bool, s: Server, l: Label, sid: Sid)
    requires Leaves(told, s, sid) && Enabled(s, l) && (l.ApiDisconnectAll? || l.ApiDisconnect?)
    ensures Leaves(told || TellsToLeave(s, l, sid), Next(s, l), sid)
  {
    var t := Next(s, l);
    assert t.sessions == s.sessions;
    assert forall h <- s.queue :: h in t.queue;
    if t.queue != s.queue {
      assert t.queue[|s.queue|] in t.queue;
    }
  }

  /** Sessions stay, and so does a callback that was made. */
  ghost predicate KeepsEvents(s: Server, t: Server) {
    && |s.sessions| <= |t.sessions|
    && forall sid: Sid :: sid < |s.sessions| ==> s.sessions[sid].events <= t.sessions[sid].events
  }

  lemma {:induction false} PutKeeps(s: Server, k: Sid, x: Session, t: Server)
    requires k < |s.sessions| && t.sessions == Put(s, k, x).sessions
    ensures KeepsEvents(s, t)
  {
  }

  lemma {:induction false} OpenKeeps(s: Server, k: Sid, room: nat)
    requires k < |s.sessions|
    ensures KeepsEvents(s, Accept(Open(s, k, room)))
  {
    var t := Open(s, k, room);
    assert KeepsEvents(s, t);
    AcceptKeeps(t);
  }

  lemma {:induction false} AcceptKeeps(s: Server)
    ensures KeepsEvents(s, Accept(s))
  {
    assert s.sessions <= Accept(s).sessions;
  }

  lemma {:induction false} DoneKeeps(s: Server, ok: bool, room: nat, order: seq<Sid>)
    ensures KeepsEvents(s, RunHandler(s, AcceptDone(0, ok), room, order))
  {
    if !ok {
      AcceptKeeps(s);
    } else if s.slot.Some? && s.slot.value < |s.sessions| {
      OpenKeeps(s, s.slot.value, room);
    }
  }

  lemma {:induction false} RunKeeps(s: Server, room: nat, order: seq<Sid>)
    requires s.queue != []
    ensures KeepsEvents(s, RunHandler(s.(queue := s.queue[1..]), s.queue[0], room, order))
  {
    var s' := s.(queue := s.queue[1..]);
    match s.queue[0]
    case AcceptDone(_, ok) => DoneKeeps(s', ok, room, order);
    case StartH => AcceptKeeps(s'.(started := true, sent := 0, received := 0, cohort := []));
    case DisconnectH(k) =>
      if k < |s.sessions| {
        PutKeeps(s, k, Disconnected(s.sessions[k].x), Put(s', k, Disconnected(s.sessions[k].x)));
      }
    case TrySendH(k) =>
      if k < |s.sessions| { PutKeeps(s, k, TrySend(s.sessions[k].x), Put(s', k, TrySend(s.sessions[k].x))); }
    case _ =>
  }

  lemma {:induction false} EventsStay(s: Server, l: Label, sid: Sid)
    requires Enabled(s, l) && sid < |s.sessions| && s.sessions[sid].events != []
    ensures sid < |Next(s, l).sessions| && Next(s, l).sessions[sid].events != []
  {
    match l
    case RunNext(room, order) => RunKeeps(s, room, order);
    case SendTo(k, data) => PutKeeps(s, k, SendAsync(s.sessions[k].x, data), Next(s, l));
    case SetLimits(k, a, b) => PutKeeps(s, k, Limited(s.sessions[k].x, a, b), Next(s, l));
    case Socket(k, op) => PutKeeps(s, k, Interleaving.Next(AtRest(s.sessions[k].x, false), op).x, Next(s, l));
    case RunWrite(k) => PutKeeps(s, k, WriteDone(s.sessions[k].x), Next(s, l));
    case RunRead(k) => PutKeeps(s, k, ReadDone(s.sessions[k].x), Next(s, l));
    case _ =>
  }

  lemma {:induction false} LeavesAlways(told: bool, s: Server, ls: seq<Label>, sid: Sid)
    requires AcceptInv(s) && LifeInv(s) && Leaves(told, s, sid) && ToldKnown(told, s, sid)
    requires Possible(s, ls) && Safe(s, ls)
    ensures Leaves(told || Told(s, ls, sid), End(s, ls), sid)
    decreases |ls|
  {
    if ls != [] {
      AcceptNext(s, ls[0]);
      LifeNext(s, ls[0]);
      LeavesStep(told, s, ls[0], sid);
      LeavesAlways(told || TellsToLeave(s, ls[0], sid), Next(s, ls[0]), ls[1..], sid);
    }
  }

  /**
   In every safe run, a session that was accepted stays connected as long as nothing told it to leave, and one
   that was told leaves: with the queue drained it is connected if and only if it was never told.
   */
  lemma {:induction false} LeavesExactlyWhenTold(ssl: bool, ls: seq<Label>, sid: Sid)
    requires Possible(Init(ssl), ls) && Safe(Init(ssl), ls)
    requires sid < |End(Init(ssl), ls).sessions| && End(Init(ssl), ls).sessions[sid].events != []
    ensures
      var e, told := End(Init(ssl), ls), Told(Init(ssl), ls, sid);
      && (!told ==> e.sessions[sid].x.connected && DisconnectH(sid) !in e.queue)
      && (told && e.sessions[sid].x.connected ==> DisconnectH(sid) in e.queue || DisconnectAllH in e.queue)
      && (e.queue == [] ==> (e.sessions[sid].x.connected <==> !told))
  {
    LeavesAlways(false, Init(ssl), ls, sid);
  }

  // ---------------------------------------------------------------- handshakes

  /** A connected session without its handshake has it outstanding, or a disconnect queued. */
  ghost predicate Shaken(s: Server) {
    forall sid: Sid :: sid < |s.sessions| && s.sessions[sid].x.connected && !s.sessions[sid].x.handshaked ==>
      s.sessions[sid].shaking || DisconnectH(sid) in s.queue
  }

  ghost predicate SameShaking(s: Server, t: Server, sid: Sid)
    requires sid < |s.sessions|
  {
    && sid < |t.sessions| && t.sessions[sid].shaking == s.sessions[sid].shaking
    && (t.sessions[sid].x.connected ==> s.sessions[sid].x.connected)
    && t.sessions[sid].x.handshaked == s.sessions[sid].x.handshaked
    && (DisconnectH(sid) in s.queue ==> DisconnectH(sid) in t.queue)
  }

  lemma {:induction false} ShakenSame(s: Server, t: Server)
    requires Shaken(s) && forall sid: Sid :: sid < |s.sessions| ==> sid < |t.sessions| && SameShaking(s, t, sid)
    requires forall sid: Sid :: |s.sessions| <= sid < |t.sessions| ==> !t.sessions[sid].x.connected
    ensures Shaken(t)
  {
    forall sid: Sid | sid < |t.sessions| && t.sessions[sid].x.connected && !t.sessions[sid].x.handshaked
      ensures t.sessions[sid].shaking || DisconnectH(sid) in t.queue
    {
      assert SameShaking(s, t, sid);
    }
  }

  lemma {:induction false} ShakenPut(s: Server, t: Server, k: Sid, x: Session)
    requires Shaken(s) && k < |s.sessions| && t.sessions == Put(s, k, x).sessions && s.queue <= t.queue
    requires (x.connected ==> s.sessions[k].x.connected) && x.handshaked == s.sessions[k].x.handshaked
    ensures Shaken(t)
  {
    forall sid: Sid | sid < |s.sessions|
      ensures SameShaking(s, t, sid)
    {
      assert t.sessions[sid] == Put(s, k, x).sessions[sid];
    }
    ShakenSame(s, t);
  }

  lemma {:induction false} ShakenPop(s: Server)
    requires Shaken(s) && s.queue != [] && !s.queue[0].DisconnectH?
    ensures Shaken(s.(queue := s.queue[1..]))
  {
    forall sid: Sid | sid < |s.sessions|
      ensures SameShaking(s, s.(queue := s.queue[1..]), sid)
    {
      InTail(s.queue, DisconnectH(sid));
    }
    ShakenSame(s, s.(queue := s.queue[1..]));
  }

  lemma {:induction false} ShakenOpen(s: Server, room: nat)
    requires Shaken(s) && s.slot.Some? && Untouched(s, s.slot.value)
    ensures Shaken(Accept(Open(s, s.slot.value, room)))
  {
    var t := Open(s, s.slot.value, room);
    assert Shaken(t) by {
      forall sid: Sid | sid < |t.sessions| && t.sessions[sid].x.connected && !t.sessions[sid].x.handshaked
        ensures t.sessions[sid].shaking || DisconnectH(sid) in t.queue
      {
        assert sid != s.slot.value ==> t.sessions[sid] == s.sessions[sid];
      }
    }
    ShakenAccept(t);
  }

  lemma {:induction false} ShakenAccept(s: Server)
    requires Shaken(s)
    ensures Shaken(Accept(s))
  {
    forall sid: Sid | sid < |s.sessions|
      ensures SameShaking(s, Accept(s), sid)
    {
    }
    ShakenSame(s, Accept(s));
  }

  lemma {:induction false} ShakenHangUp(s: Server, k: Sid)
    requires Shaken(s) && s.queue != [] && s.queue[0] == DisconnectH(k)
    ensures Shaken(RunHandler(s.(queue := s.queue[1..]), DisconnectH(k), 0, []))
  {
    var t := RunHandler(s.(queue := s.queue[1..]), DisconnectH(k), 0, []);
    forall sid: Sid | sid < |t.sessions| && t.sessions[sid].x.connected && !t.sessions[sid].x.handshaked
      ensures t.sessions[sid].shaking || DisconnectH(sid) in t.queue
    {
      assert sid != k ==> t.sessions[sid] == s.sessions[sid];
      InTail(s.queue, DisconnectH(sid));
    }
  }

  lemma {:induction false} ShakenRun(s: Server, room: nat, order: seq<Sid>)
    requires AcceptInv(s) && Shaken(s) && s.queue != []
    ensures Shaken(RunHandler(s.(queue := s.queue[1..]), s.queue[0], room, order))
  {
    var s' := s.(queue := s.queue[1..]);
    assert s.queue[0] in s.queue;
    if !s.queue[0].DisconnectH? { ShakenPop(s); }
    match s.queue[0]
    case StartH => if !s.started { ShakenAccept(s'.(started := true, sent := 0, received := 0, cohort := [])); }
    case AcceptDone(_, ok) => if ok { ShakenOpen(s', room); } else { ShakenAccept(s'); }
    case DisconnectH(k) => ShakenHangUp(s, k);
    case TrySendH(k) =>
      if k < |s.sessions| {
        ShakenPut(s', Put(s', k, TrySend(s.sessions[k].x)), k, TrySend(s.sessions[k].x));
      }
    case StopH => ShakenSame(s', RunHandler(s', StopH, room, order));
    case DisconnectAllH => ShakenSame(s', RunHandler(s', DisconnectAllH, room, order));
  }

  lemma {:induction false} ShakenHandshake(s: Server, k: Sid, ok: bool)
    requires Shaken(s) && Enabled(s, RunHandshake(k, ok))
    ensures Shaken(Next(s, RunHandshake(k, ok)))
  {
    var t := Next(s, RunHandshake(k, ok));
    forall sid: Sid | sid < |t.sessions| && t.sessions[sid].x.connected && !t.sessions[sid].x.handshaked
      ensures t.sessions[sid].shaking || DisconnectH(sid) in t.queue
    {
      assert sid != k ==> t.sessions[sid] == s.sessions[sid];
    }
  }

  /** None of a session's handlers but the handshake's touches the handshake. */
  lemma {:induction false} HandshakeKept(x: Session, data: seq<byte>)
    ensures SendAsync(x, data).handshaked == x.handshaked && SendAsync(x, data).connected == x.connected
    ensures x.tx.op.Written? ==> WriteDone(x).handshaked == x.handshaked && (WriteDone(x).connected ==> x.connected)
    ensures x.rx.op.Arrived? ==> ReadDone(x).handshaked == x.handshaked && (ReadDone(x).connected ==> x.connected)
  {
  }

  lemma {:induction false} ShakenSession(s: Server, l: Label)
    requires Shaken(s) && Enabled(s, l)
    requires l.SendTo? || l.SetLimits? || l.Socket? || l.RunWrite? || l.RunRead?
    ensures Shaken(Next(s, l))
  {
    var x := s.sessions[l.sid].x;
    HandshakeKept(x, if l.SendTo? then l.data else []);
    match l
    case SendTo(k, data) => ShakenPut(s, Next(s, l), k, SendAsync(x, data));
    case SetLimits(k, a, b) => ShakenPut(s, Next(s, l), k, Limited(x, a, b));
    case Socket(k, op) => ShakenPut(s, Next(s, l), k, Interleaving.Next(AtRest(x, false), op).x);
    case RunWrite(k) => ShakenPut(s, Next(s, l), k, WriteDone(x));
    case RunRead(k) => ShakenPut(s, Next(s, l), k, ReadDone(x));
  }

  lemma {:induction false} ShakenStep(s: Server, l: Label)
    requires AcceptInv(s) && Shaken(s) && Enabled(s, l)
    ensures Shaken(Next(s, l))
  {
    match l
    case RunNext(room, order) => ShakenRun(s, room, order);
    case RunHandshake(k, ok) => ShakenHandshake(s, k, ok);
    case SendTo(_, _) => ShakenSession(s, l);
    case SetLimits(_, _, _) => ShakenSession(s, l);
    case Socket(_, _) => ShakenSession(s, l);
    case RunWrite(_) => ShakenSession(s, l);
    case RunRead(_) => ShakenSession(s, l);
    case _ => ShakenSame(s, Next(s, l));
  }

  lemma {:induction false} ShakenAlways(s: Server, ls: seq<Label>)
    requires AcceptInv(s) && Shaken(s) && Possible(s, ls) && Safe(s, ls)
    ensures Shaken(End(s, ls))
    decreases |ls|
  {
    if ls != [] {
      AcceptNext(s, ls[0]);
      ShakenStep(s, ls[0]);
      ShakenAlways(Next(s, ls[0]), ls[1..]);
    }
  }

  /**
   In every safe run, a connected session that is not ready yet has its handshake outstanding or a disconnect
   queued: no session is left connected and forgotten.
   */
  lemma {:induction false} NoSessionForgotten(ssl: bool, ls: seq<Label>, sid: Sid)
    requires Possible(Init(ssl), ls) && Safe(Init(ssl), ls) && sid < |End(Init(ssl), ls).sessions|
    ensures
      var e := End(Init(ssl), ls);
      e.sessions[sid].x.connected && !e.sessions[sid].x.Ready() ==>
        e.sessions[sid].shaking || DisconnectH(sid) in e.queue
  {
    ShakenAlways(Init(ssl), ls);
    assert Shaken(End(Init(ssl), ls));
  }

  // ---------------------------------------------------------------- limits

  /** Setting the limits of a session sets them, and changes nothing else. */
  lemma {:induction false} LimitsAreSet(s: Server, sid: Sid, a: nat, b: nat)
    requires Enabled(s, SetLimits(sid, a, b))
    ensures
      var t := Next(s, SetLimits(sid, a, b));
      var x, y := s.sessions[sid].x, t.sessions[sid].x;
      && y.tx.limit == a && y.rx.limit == b && Limited(y, x.tx.limit, x.rx.limit) == x
      && t == s.(sessions := s.sessions[sid := s.sessions[sid].(x := y)])
  {
  }
}
