/**
 The accept chain across start and stop: at most one accept is ever outstanding, the chain never breaks while
 the server runs, and each successful accept registers the session whose socket was accepted.
 */
module ServerAccept {
  import opened SessionCore
  import opened AtomicSession
  import opened ServerMachine
  import Interleaving

  /** Number of accept completions waiting in the queue. */
  function Dones(q: seq<Handler>): nat {
    if q == [] then 0 else (if q[0].AcceptDone? then 1 else 0) + Dones(q[1..])
  }

  lemma {:induction false} DonesAppend(a: seq<Handler>, b: seq<Handler>)
    ensures Dones(a + b) == Dones(a) + Dones(b)
  {
    if a == [] {
      assert a + b == b;
    } else {
      assert (a + b)[1..] == a[1..] + b;
      DonesAppend(a[1..], b);
    }
  }

  lemma {:induction false} DonesNone(q: seq<Handler>)
    ensures Dones(q) == 0 <==> forall h <- q :: !h.AcceptDone?
  {
    if q != [] {
      DonesNone(q[1..]);
      assert forall h <- q :: h == q[0] || h in q[1..];
    }
  }

  /** A handler that says nothing about starting, stopping or accepting. */
  predicate Quiet(h: Handler) { h.DisconnectAllH? || h.DisconnectH? || h.TrySendH? }

  ghost predicate NoStartAfterStop(q: seq<Handler>) {
    forall i, j :: 0 <= i < j < |q| && q[i].StopH? ==> !q[j].StartH?
  }

  ghost predicate StartsComeLast(q: seq<Handler>) {
    forall i, j :: 0 <= i < j < |q| && q[i].StartH? ==> !q[j].StopH? && !q[j].AcceptDone?
  }

  /** A session as it was created, except that its limits may have been set. */
  predicate New(x: Session, ssl: bool) { Limited(x, 0, 0) == NewSession(ssl) }

  ghost predicate Untouched(s: Server, sid: Sid) {
    && sid < |s.sessions| && sid !in s.registry && New(s.sessions[sid].x, s.ssl)
    && s.sessions[sid] == Entry(s.sessions[sid].x, false, [], None, None)
  }

  ghost predicate AcceptInv(s: Server) {
    && !s.crashed
    && |s.accepting| + Dones(s.queue) <= 1
    && (s.started <==> s.slot.Some?)
    && (s.started ==> |s.accepting| + Dones(s.queue) == 1 && Untouched(s, s.slot.value) && NoStartAfterStop(s.queue))
    && (!s.started ==> s.accepting == [] && StartsComeLast(s.queue))
    && (forall sid <- s.accepting :: s.slot == Some(sid))
    && (forall h <- s.queue :: h.AcceptDone? ==> if s.started then s.slot == Some(h.accepted) else !h.ok)
    && (forall sid <- s.registry :: sid < |s.sessions|)
  }

  /** The one hazard: stop takes effect while a successful accept is already queued. */
  ghost predicate Hazard(s: Server, l: Label) {
    l.RunNext? && s.started && s.queue != [] && s.queue[0].StopH? && exists h <- s.queue :: h.AcceptDone? && h.ok
  }

  lemma {:induction false} EnqueueQuiet(s: Server, hs: seq<Handler>)
    requires AcceptInv(s) && forall h <- hs :: Quiet(h)
    ensures AcceptInv(Enqueue(s, hs))
  {
    DonesAppend(s.queue, hs);
    DonesNone(hs);
    assert forall i :: |s.queue| <= i < |s.queue + hs| ==> (s.queue + hs)[i] in hs;
  }

  lemma {:induction false} PopAccept(s: Server)
    requires AcceptInv(s) && s.queue != [] && !s.queue[0].AcceptDone?
    ensures AcceptInv(s.(queue := s.queue[1..]))
  {
    var q, rest := s.queue, s.queue[1..];
    assert forall i :: 0 <= i < |rest| ==> rest[i] == q[i + 1];
    assert NoStartAfterStop(q) ==> NoStartAfterStop(rest);
    assert StartsComeLast(q) ==> StartsComeLast(rest);
  }

  lemma {:induction false} PutAccept(s: Server, sid: Sid, x: Session)
    requires AcceptInv(s) && sid < |s.sessions|
    requires s.slot == Some(sid) ==> New(x, s.ssl)
    ensures AcceptInv(Put(s, sid, x))
  {
  }

  /** The session in the slot is inert: nothing a thread or the socket can do changes it before it connects. */
  lemma {:induction false} SlotIsInert(s: Server, sid: Sid, data: seq<byte>)
    requires AcceptInv(s) && s.slot == Some(sid)
    ensures SendAsync(s.sessions[sid].x, data) == s.sessions[sid].x
    ensures TrySend(s.sessions[sid].x) == s.sessions[sid].x == Disconnected(s.sessions[sid].x)
    ensures s.sessions[sid].x.tx.op == NoWrite && s.sessions[sid].x.rx.op == NoRead && !s.sessions[sid].shaking
  {
  }

  lemma {:induction false} HangupsQuiet(sessions: seq<Entry>, order: seq<Sid>)
    ensures forall h <- Hangups(sessions, order) :: h.DisconnectH?
  {
    if order != [] { HangupsQuiet(sessions, order[1..]); }
  }

  lemma {:induction false} WakeupsQuiet(sessions: seq<Entry>, data: seq<byte>, order: seq<Sid>)
    ensures forall h <- Wakeups(sessions, data, order) :: h.TrySendH?
  {
    if order != [] { WakeupsQuiet(sessions, data, order[1..]); }
  }

  lemma {:induction false} ApiAccept(s: Server, l: Label)
    requires AcceptInv(s) && Enabled(s, l) && (l.ApiStart? || l.ApiStop? || l.Incoming?)
    ensures AcceptInv(Next(s, l))
  {
    if l.Incoming? {
      var h := AcceptDone(s.accepting[l.i], l.ok);
      DonesAppend(s.queue, [h]);
    } else {
      DonesAppend(s.queue, [StartH]);
      DonesAppend(s.queue, [StopH]);
    }
  }

  lemma {:induction false} StartAccept(s: Server, room: nat, order: seq<Sid>)
    requires AcceptInv(s) && s.queue != [] && s.queue[0].StartH?
    ensures AcceptInv(RunHandler(s.(queue := s.queue[1..]), StartH, room, order))
  {
    PopAccept(s);
    if !s.started {
      assert forall h <- s.queue[1..] :: !h.AcceptDone? && !h.StopH?;
      DonesNone(s.queue[1..]);
    }
  }

  /** What a stop that takes effect leaves in the queue. */
  lemma {:induction false} ClosingQueue(rest: seq<Handler>, accepting: seq<Sid>, hang: seq<Handler>)
    requires |accepting| <= 1 && forall h <- hang :: h.DisconnectH?
    requires forall h <- rest :: !h.StartH? && (h.AcceptDone? ==> !h.ok)
    ensures
      var q := rest + Aborted(accepting) + hang;
      && Dones(q) == Dones(rest) + |accepting|
      && (forall h <- q :: !h.StartH? && (h.AcceptDone? ==> !h.ok))
  {
    var closing := Aborted(accepting);
    DonesAppend(rest, closing);
    DonesAppend(rest + closing, hang);
    DonesNone(hang);
    if accepting == [] { assert closing == []; } else { assert closing[1..] == []; }
  }

  lemma {:induction false} StopAccept(s: Server, room: nat, order: seq<Sid>)
    requires AcceptInv(s) && s.queue != [] && s.queue[0].StopH?
    requires s.started ==> forall h <- s.queue :: h.AcceptDone? ==> !h.ok
    ensures AcceptInv(RunHandler(s.(queue := s.queue[1..]), StopH, room, order))
  {
    if s.started {
      HangupsQuiet(s.sessions, order);
      ClosingQueue(s.queue[1..], s.accepting, Hangups(s.sessions, order));
    } else {
      PopAccept(s);
    }
  }

  lemma {:induction false} DoneAccept(s: Server, room: nat, order: seq<Sid>)
    requires AcceptInv(s) && s.queue != [] && s.queue[0].AcceptDone?
    ensures AcceptInv(RunHandler(s.(queue := s.queue[1..]), s.queue[0], room, order))
    ensures s.queue[0].ok ==> s.slot == Some(s.queue[0].accepted)
  {
    assert Dones(s.queue[1..]) == 0;
    DonesNone(s.queue[1..]);
    assert s.queue[0] in s.queue;
  }

  lemma {:induction false} RunAccept(s: Server, room: nat, order: seq<Sid>)
    requires AcceptInv(s) && Enabled(s, RunNext(room, order)) && !Hazard(s, RunNext(room, order))
    ensures AcceptInv(Next(s, RunNext(room, order)))
  {
    var s' := s.(queue := s.queue[1..]);
    match s.queue[0]
    case StartH => StartAccept(s, room, order);
    case StopH => StopAccept(s, room, order);
    case AcceptDone(_, _) => DoneAccept(s, room, order);
    case DisconnectAllH =>
      PopAccept(s);
      HangupsQuiet(s.sessions, order);
      if s.started { EnqueueQuiet(s', Hangups(s.sessions, order)); }
    case DisconnectH(sid) =>
      PopAccept(s);
      if s.slot == Some(sid) { SlotIsInert(s, sid, []); }
      if sid < |s.sessions| { PutAccept(s', sid, Disconnected(s.sessions[sid].x)); }
    case TrySendH(sid) =>
      PopAccept(s);
      if s.slot == Some(sid) { SlotIsInert(s, sid, []); }
      if sid < |s.sessions| { PutAccept(s', sid, TrySend(s.sessions[sid].x)); }
  }

  lemma {:induction false} SessionAccept(s: Server, l: Label)
    requires AcceptInv(s) && Enabled(s, l) && (l.SendTo? || l.SetLimits? || l.Socket? || l.RunWrite? || l.RunRead?)
    ensures AcceptInv(Next(s, l))
  {
    if s.slot == Some(l.sid) { SlotIsInert(s, l.sid, if l.SendTo? then l.data else []); }
    var x := s.sessions[l.sid].x;
    match l
    case SendTo(sid, data) =>
      PutAccept(s, sid, SendAsync(x, data));
      EnqueueQuiet(Put(s, sid, SendAsync(x, data)), if Wakes(x, data) then [TrySendH(sid)] else []);
    case SetLimits(sid, a, b) => PutAccept(s, sid, Limited(x, a, b));
    case Socket(sid, op) => PutAccept(s, sid, Interleaving.Next(AtRest(x, false), op).x);
    case RunWrite(sid) => PutAccept(s, sid, WriteDone(x));
    case RunRead(sid) => PutAccept(s, sid, ReadDone(x));
  }

  lemma {:induction false} HandshakeAccept(s: Server, sid: Sid, ok: bool)
    requires AcceptInv(s) && Enabled(s, RunHandshake(sid, ok))
    ensures AcceptInv(Next(s, RunHandshake(sid, ok)))
  {
    var s' := s.(sessions := s.sessions[sid := s.sessions[sid].(shaking := false)]);
    assert AcceptInv(s');
    EnqueueQuiet(s', [DisconnectH(sid)]);
  }

  lemma {:induction false} CastAccept(s: Server, data: seq<byte>, order: seq<Sid>)
    requires AcceptInv(s) && Enabled(s, Multicast(data, order))
    ensures AcceptInv(Next(s, Multicast(data, order)))
  {
    if s.started && data != [] {
      WakeupsQuiet(s.sessions, data, order);
      EnqueueQuiet(s, Wakeups(s.sessions, data, order));
    }
  }

  /** Every step that is not the hazard keeps the accept chain intact. */
  lemma {:induction false} AcceptNext(s: Server, l: Label)
    requires AcceptInv(s) && Enabled(s, l) && !Hazard(s, l)
    ensures AcceptInv(Next(s, l))
  {
    match l
    case ApiStart => ApiAccept(s, l);
    case ApiStop => ApiAccept(s, l);
    case Incoming(_, _) => ApiAccept(s, l);
    case ApiDisconnectAll => EnqueueQuiet(s, [DisconnectAllH]);
    case ApiDisconnect(sid) => EnqueueQuiet(s, [DisconnectH(sid)]);
    case Multicast(data, order) => CastAccept(s, data, order);
    case RunNext(room, order) => RunAccept(s, room, order);
    case RunHandshake(sid, ok) => HandshakeAccept(s, sid, ok);
    case _ => SessionAccept(s, l);
  }

  // ---------------------------------------------------------------- whole runs

  /** No stop takes effect with a successful accept queued. */
  ghost predicate Safe(s: Server, ls: seq<Label>)
    requires Possible(s, ls)
    decreases |ls|
  {
    ls == [] || (!Hazard(s, ls[0]) && Safe(Next(s, ls[0]), ls[1..]))
  }

  lemma {:induction false} AcceptRun(s: Server, ls: seq<Label>)
    requires AcceptInv(s) && Possible(s, ls) && Safe(s, ls)
    ensures AcceptInv(End(s, ls))
    decreases |ls|
  {
    if ls != [] {
      AcceptNext(s, ls[0]);
      AcceptRun(Next(s, ls[0]), ls[1..]);
    }
  }

  /**
   In every safe run from a fresh server: it does not crash; at most one accept is outstanding or queued, and
   exactly one while the server is started; and a queued successful accept is for the session in the slot, so
   that running it registers and connects the session whose socket was accepted.
   */
  lemma {:induction false} AcceptChain(ssl: bool, ls: seq<Label>)
    requires Possible(Init(ssl), ls) && Safe(Init(ssl), ls)
    ensures
      var e := End(Init(ssl), ls);
      && !e.crashed
      && |e.accepting| + Dones(e.queue) <= 1
      && (e.started ==> |e.accepting| + Dones(e.queue) == 1)
      && (forall h <- e.queue :: h.AcceptDone? && h.ok ==> e.started && e.slot == Some(h.accepted))
    ensures
      var e := End(Init(ssl), ls);
      forall room, order :: Enabled(e, RunNext(room, order)) && e.queue[0].AcceptDone? && e.queue[0].ok ==>
        var e', sid := Next(e, RunNext(room, order)), e.queue[0].accepted;
        && e'.registry == e.registry + {sid} && sid !in e.registry
        && New(e.sessions[sid].x, ssl) && e'.sessions[sid].x == Connected(e.sessions[sid].x, room)
  {
    AcceptRun(Init(ssl), ls);
    SslIsConstant(Init(ssl), ls);
    var e := End(Init(ssl), ls);
    forall room, order | Enabled(e, RunNext(room, order)) && e.queue[0].AcceptDone? && e.queue[0].ok
      ensures
        var e', sid := Next(e, RunNext(room, order)), e.queue[0].accepted;
        && e'.registry == e.registry + {sid} && sid !in e.registry
        && New(e.sessions[sid].x, ssl) && e'.sessions[sid].x == Connected(e.sessions[sid].x, room)
    {
      DoneAccept(e, room, order);
    }
  }

  lemma {:induction false} SslIsConstant(s: Server, ls: seq<Label>)
    requires Possible(s, ls)
    ensures End(s, ls).ssl == s.ssl
    decreases |ls|
  {
    if ls != [] {
      SslIsConstant(Next(s, ls[0]), ls[1..]);
    }
  }

  // ---------------------------------------------------------------- the hazard is exactly what crashes it

  /** A successful accept is queued, ahead of any start, for a server that has stopped and emptied its slot. */
  ghost predicate Doomed(s: Server, i: nat) {
    && !s.started && s.slot == None && i < |s.queue|
    && s.queue[i].AcceptDone? && s.queue[i].ok
    && (forall j :: 0 <= j <= i ==> !s.queue[j].StartH?)
    && (forall j :: 0 <= j < i ==> !(s.queue[j].AcceptDone? && s.queue[j].ok))
  }

  lemma {:induction false} HazardDooms(s: Server, l: Label) returns (i: nat)
    requires AcceptInv(s) && Enabled(s, l) && Hazard(s, l)
    ensures Doomed(Next(s, l), i) && i < |s.queue| && !Next(s, l).crashed
  {
    i := 0;
    while !(s.queue[i + 1].AcceptDone? && s.queue[i + 1].ok)
      invariant i + 1 < |s.queue|
      invariant forall j :: 0 <= j <= i ==> !(s.queue[j].AcceptDone? && s.queue[j].ok)
      invariant exists k :: i < k < |s.queue| && s.queue[k].AcceptDone? && s.queue[k].ok
      decreases |s.queue| - i
    {
      i := i + 1;
    }
    var q := Next(s, l).queue;
    assert forall j :: 0 <= j <= i ==> q[j] == s.queue[j + 1];
  }

  /** The handler runs of the I/O thread in a label sequence. */
  function Pops(ls: seq<Label>): nat {
    if ls == [] then 0 else (if ls[0].RunNext? then 1 else 0) + Pops(ls[1..])
  }

  lemma {:induction false} DoomedStep(s: Server, l: Label, i: nat)
    requires Doomed(s, i) && Enabled(s, l)
    ensures
      if !l.RunNext? then Doomed(Next(s, l), i) && !Next(s, l).crashed
      else if i == 0 then Next(s, l).crashed
      else Doomed(Next(s, l), i - 1) && !Next(s, l).crashed
  {
    if l.RunNext? {
      DoomedPop(s, l, i);
    } else {
      DoomedStays(s, l, i);
    }
  }

  lemma {:induction false} DoomedPop(s: Server, l: Label, i: nat)
    requires Doomed(s, i) && Enabled(s, l) && l.RunNext?
    ensures i == 0 ==> Next(s, l).crashed
    ensures i > 0 ==> Doomed(Next(s, l), i - 1) && !Next(s, l).crashed
  {
    if i > 0 {
      var q := s.queue[1..];
      assert forall j :: 0 <= j < |q| ==> q[j] == s.queue[j + 1];
      assert Next(s, l).queue == q;
    }
  }

  lemma {:induction false} DoomedStays(s: Server, l: Label, i: nat)
    requires Doomed(s, i) && Enabled(s, l) && !l.RunNext?
    ensures Doomed(Next(s, l), i) && !Next(s, l).crashed
  {
    assert s.queue <= Next(s, l).queue;
  }

  /** Once the hazard happened, the server crashes as soon as the queued accept is reached, whatever else happens. */
  lemma {:induction false} DoomedRun(s: Server, ls: seq<Label>, i: nat)
    requires Doomed(s, i) && !s.crashed && Possible(s, ls)
    ensures End(s, ls).crashed <==> Pops(ls) > i
    decreases |ls|
  {
    if ls != [] {
      DoomedStep(s, ls[0], i);
      if ls[0].RunNext? && i == 0 {
        assert Next(s, ls[0]).crashed;
        assert ls[1..] == [];
      } else {
        DoomedRun(Next(s, ls[0]), ls[1..], if ls[0].RunNext? then i - 1 else i);
      }
    }
  }

  /**
   The hazard is real: a new server is started and asked to stop, a connection is accepted before the stop
   handler runs, and the accept completion then finds the slot empty.
   */
  lemma {:induction false} StopCanCrash(ssl: bool, room: nat)
    ensures
      var run := RunNext(room, []);
      var ls := [ApiStart, run, ApiStop, Incoming(0, true), run, run];
      Possible(Init(ssl), ls) && End(Init(ssl), ls).crashed
  {
    var run := RunNext(room, []);
    var s1 := Init(ssl).(queue := [StartH]);
    StartedThenCrashes(s1, room);
    assert Next(Init(ssl), ApiStart) == s1;
    Prepend(Init(ssl), ApiStart, [run] + AcceptedWhileStopping(room));
    assert [ApiStart, run, ApiStop, Incoming(0, true), run, run] == [ApiStart] + ([run] + AcceptedWhileStopping(room));
  }

  function AcceptedWhileStopping(room: nat): seq<Label> {
    [ApiStop] + ([Incoming(0, true)] + ([RunNext(room, [])] + ([RunNext(room, [])] + [])))
  }

  lemma {:induction false} StartedThenCrashes(s: Server, room: nat)
    requires s.queue == [StartH] && !s.started && s.accepting == [] && s.registry == {} && !s.crashed
    ensures
      var ls := [RunNext(room, [])] + AcceptedWhileStopping(room);
      Possible(s, ls) && End(s, ls).crashed
  {
    var t := Next(s, RunNext(room, []));
    assert t == Accept(s.(started := true, queue := [], sent := 0, received := 0, cohort := []));
    StoppingThenCrashes(t, room);
    Prepend(s, RunNext(room, []), AcceptedWhileStopping(room));
  }

  lemma {:induction false} StoppingThenCrashes(s: Server, room: nat)
    requires s.started && s.queue == [] && |s.accepting| == 1 && s.registry == {} && !s.crashed
    ensures Possible(s, AcceptedWhileStopping(room)) && End(s, AcceptedWhileStopping(room)).crashed
  {
    var run, sid := RunNext(room, []), s.accepting[0];
    var s1, s2 := s.(queue := [StopH]), s.(queue := [StopH, AcceptDone(sid, true)], accepting := []);
    StoppedThenCrashes(s2, sid, room);
    assert Next(s1, Incoming(0, true)) == s2;
    Prepend(s1, Incoming(0, true), [run] + ([run] + []));
    assert Next(s, ApiStop) == s1;
    Prepend(s, ApiStop, [Incoming(0, true)] + ([run] + ([run] + [])));
  }

  lemma {:induction false} StoppedThenCrashes(s: Server, sid: Sid, room: nat)
    requires s.queue == [StopH, AcceptDone(sid, true)] && s.started && s.accepting == []
    requires s.registry == {} && !s.crashed
    ensures
      var run := RunNext(room, []);
      Possible(s, [run] + ([run] + [])) && End(s, [run] + ([run] + [])).crashed
  {
    var run := RunNext(room, []);
    var s1 := s.(queue := [AcceptDone(sid, true)], slot := None, started := false);
    assert s.queue[1..] + Aborted([]) + [] == s1.queue;
    assert Next(s, run) == s1;
    var s2 := s1.(queue := [], crashed := true);
    assert Next(s1, run) == s2 && Possible(s2, []) && End(s2, []) == s2;
    Prepend(s1, run, []);
    Prepend(s, run, [run] + []);
  }
}
