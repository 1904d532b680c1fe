/**
 The server's byte counters are the sums of the counters of all sessions accepted since the last start,
 including those that have left.
 */
module ServerTotals {
  import opened SessionCore
  import opened AtomicSession
  import opened ServerMachine
  import opened ServerAccept
  import opened ServerLife
  import Interleaving

  ghost predicate InRange(cohort: seq<Sid>, sessions: seq<Entry>) {
    forall i :: 0 <= i < |cohort| ==> cohort[i] < |sessions|
  }

  datatype Totals = Totals(sent: nat, received: nat)

  /** The reference: the counters of the listed sessions, added up. */
  ghost function Sum(cohort: seq<Sid>, sessions: seq<Entry>): Totals
    requires InRange(cohort, sessions)
  {
    if cohort == [] then Totals(0, 0)
    else
      var rest, x := Sum(cohort[1..], sessions), sessions[cohort[0]].x;
      Totals(x.tx.sent + rest.sent, x.rx.received + rest.received)
  }

  ghost predicate CohortOk(s: Server) {
    && InRange(s.cohort, s.sessions)
    && (forall i :: 0 <= i < |s.cohort| ==> s.sessions[s.cohort[i]].events != [])
    && (forall i, j :: 0 <= i < j < |s.cohort| ==> s.cohort[i] != s.cohort[j])
    && (forall sid <- s.registry :: sid in s.cohort)
  }

  ghost predicate TotalsInv(s: Server) { CohortOk(s) && Totals(s.sent, s.received) == Sum(s.cohort, s.sessions) }

  lemma {:induction false} SumSame(cohort: seq<Sid>, a: seq<Entry>, b: seq<Entry>)
    requires InRange(cohort, a) && InRange(cohort, b)
    requires forall i :: 0 <= i < |cohort| ==>
      && a[cohort[i]].x.tx.sent == b[cohort[i]].x.tx.sent
      && a[cohort[i]].x.rx.received == b[cohort[i]].x.rx.received
    ensures Sum(cohort, a) == Sum(cohort, b)
  {
    if cohort != [] {
      SumSame(cohort[1..], a, b);
    }
  }

  /** Changing one session of the cohort changes the sum by its difference. */
  lemma {:induction false} SumPut(cohort: seq<Sid>, a: seq<Entry>, b: seq<Entry>, sid: Sid)
    requires forall i, j :: 0 <= i < j < |cohort| ==> cohort[i] != cohort[j]
    requires InRange(cohort, a) && |a| == |b| && sid < |a|
    requires forall k: Sid :: k < |a| && k != sid ==> a[k] == b[k]
    ensures sid !in cohort ==> Sum(cohort, b) == Sum(cohort, a)
    ensures sid in cohort ==>
      && Sum(cohort, b).sent - Sum(cohort, a).sent == b[sid].x.tx.sent - a[sid].x.tx.sent
      && Sum(cohort, b).received - Sum(cohort, a).received == b[sid].x.rx.received - a[sid].x.rx.received
  {
    if cohort != [] {
      SumPut(cohort[1..], a, b, sid);
      assert cohort[0] == sid ==> sid !in cohort[1..];
    }
  }

  lemma {:induction false} SumSnoc(cohort: seq<Sid>, sid: Sid, a: seq<Entry>)
    requires InRange(cohort, a) && sid < |a|
    ensures Sum(cohort + [sid], a) ==
      Totals(Sum(cohort, a).sent + a[sid].x.tx.sent, Sum(cohort, a).received + a[sid].x.rx.received)
  {
    if cohort == [] {
      assert [] + [sid] == [sid] && [sid][1..] == [];
    } else {
      assert (cohort + [sid])[1..] == cohort[1..] + [sid];
      SumSnoc(cohort[1..], sid, a);
    }
  }

  /** A handler that leaves session `sid` in state `x` is accounted for by adding what it added to its counters. */
  lemma {:induction false} PutTotals(s: Server, sid: Sid, x: Session, sent: nat, received: nat)
    requires TotalsInv(s) && sid < |s.sessions|
    requires x.tx.sent == s.sessions[sid].x.tx.sent + sent && x.rx.received == s.sessions[sid].x.rx.received + received
    requires sid in s.cohort || sent == received == 0
    ensures TotalsInv(Put(s, sid, x).(sent := s.sent + sent, received := s.received + received))
  {
    var t := Put(s, sid, x);
    PutCohort(s, sid, x);
    SumPut(s.cohort, s.sessions, t.sessions, sid);
  }

  lemma {:induction false} PutCohort(s: Server, sid: Sid, x: Session)
    requires CohortOk(s) && sid < |s.sessions|
    ensures
      var t := Put(s, sid, x);
      && CohortOk(t) && t.cohort == s.cohort && |t.sessions| == |s.sessions| && t.sessions[sid].x == x
      && forall k: Sid :: k < |s.sessions| && k != sid ==> t.sessions[k] == s.sessions[k]
  {
    var e, t := s.sessions[sid], Put(s, sid, x);
    assert t.sessions[sid].events == e.events || t.sessions[sid].events == e.events + [OnDisconnect];
  }

  lemma {:induction false} ConnectedIsCounted(s: Server, sid: Sid)
    requires LifeInv(s) && CohortOk(s) && sid < |s.sessions| && s.sessions[sid].x.connected
    ensures sid in s.cohort
  {
  }

  lemma {:induction false} SendCounts(x: Session, data: seq<byte>)
    ensures TrySend(x).tx.sent == x.tx.sent && TrySend(x).rx.received == x.rx.received
    ensures Disconnected(x).tx.sent == x.tx.sent && Disconnected(x).rx.received == x.rx.received
    ensures SendAsync(x, data).tx.sent == x.tx.sent && SendAsync(x, data).rx.received == x.rx.received
  {
  }

  lemma {:induction false} WriteCounts(x: Session)
    requires x.tx.op.Written?
    ensures WriteDone(x).tx.sent == x.tx.sent + (if x.Ready() then x.tx.op.size else 0)
    ensures WriteDone(x).rx.received == x.rx.received
  {
  }

  lemma {:induction false} ReadCounts(x: Session)
    requires x.rx.op.Arrived?
    ensures ReadDone(x).rx.received == x.rx.received + (if x.Ready() then |x.rx.op.chunk| else 0)
    ensures ReadDone(x).tx.sent == x.tx.sent
  {
  }

  lemma {:induction false} OpenTotals(s: Server, sid: Sid, room: nat)
    requires TotalsInv(s) && Untouched(s, sid)
    ensures TotalsInv(Open(s, sid, room))
  {
    var t := Open(s, sid, room);
    assert sid !in s.cohort;
    SumPut(s.cohort, s.sessions, t.sessions, sid);
    SumSnoc(s.cohort, sid, t.sessions);
  }

  lemma {:induction false} AcceptTotals(s: Server)
    requires TotalsInv(s)
    ensures TotalsInv(Accept(s))
  {
    SumSame(s.cohort, s.sessions, Accept(s).sessions);
  }

  lemma {:induction false} StartTotals(s: Server, s': Server)
    requires LifeInv(s) && TotalsInv(s') && s.queue != [] && s.queue[0].StartH? && s' == s.(queue := s.queue[1..])
    ensures TotalsInv(RunHandler(s', StartH, 0, []))
  {
    if !s.started {
      StartIsClean(s);
      AcceptTotals(s'.(started := true, sent := 0, received := 0, cohort := []));
    }
  }

  lemma {:induction false} DoneTotals(s: Server, ok: bool, room: nat)
    requires TotalsInv(s) && (ok ==> s.slot.Some? && Untouched(s, s.slot.value))
    ensures TotalsInv(RunHandler(s, AcceptDone(0, ok), room, []))
  {
    if ok {
      OpenTotals(s, s.slot.value, room);
      AcceptTotals(Open(s, s.slot.value, room));
    } else {
      AcceptTotals(s);
    }
  }

  lemma {:induction false} RunTotals(s: Server, room: nat, order: seq<Sid>)
    requires AcceptInv(s) && LifeInv(s) && TotalsInv(s) && Enabled(s, RunNext(room, order))
    requires !Hazard(s, RunNext(room, order))
    ensures TotalsInv(Next(s, RunNext(room, order)))
  {
    var s' := s.(queue := s.queue[1..]);
    QueueTotals(s, s');
    match s.queue[0]
    case StartH => StartTotals(s, s');
    case AcceptDone(_, ok) => if ok { SlotIsNew(s); } DoneTotals(s', ok, room);
    case _ => HandlerTotals(s, s', room, order);
  }

  lemma {:induction false} HandlerTotals(s: Server, s': Server, room: nat, order: seq<Sid>)
    requires TotalsInv(s') && s.queue != [] && s' == s.(queue := s'.queue)
    requires !s.queue[0].StartH? && !s.queue[0].AcceptDone?
    ensures TotalsInv(RunHandler(s', s.queue[0], room, order))
  {
    match s.queue[0]
    case StopH => QueueTotals(s', RunHandler(s', StopH, room, order).(slot := s'.slot, started := s'.started));
    case DisconnectAllH => QueueTotals(s', RunHandler(s', DisconnectAllH, room, order));
    case DisconnectH(sid) => if sid < |s.sessions| { ShiftTotals(s, s', sid, Disconnected(s.sessions[sid].x)); }
    case TrySendH(sid) => if sid < |s.sessions| { ShiftTotals(s, s', sid, TrySend(s.sessions[sid].x)); }
  }

  lemma {:induction false} SlotIsNew(s: Server)
    requires AcceptInv(s) && s.queue != [] && s.queue[0].AcceptDone? && s.queue[0].ok
    ensures s.slot.Some? && Untouched(s, s.slot.value)
  {
    assert s.queue[0] in s.queue;
  }

  lemma {:induction false} ShiftTotals(s: Server, s': Server, sid: Sid, x: Session)
    requires TotalsInv(s') && sid < |s.sessions| && s' == s.(queue := s'.queue)
    requires x == TrySend(s.sessions[sid].x) || x == Disconnected(s.sessions[sid].x)
    ensures TotalsInv(Put(s', sid, x))
  {
    SendCounts(s.sessions[sid].x, []);
    PutTotals(s', sid, x, 0, 0);
  }

  lemma {:induction false} QueueTotals(s: Server, t: Server)
    requires TotalsInv(s) && t == s.(queue := t.queue, accepting := t.accepting)
    ensures TotalsInv(t)
  {
  }

  lemma {:induction false} SendTotals(s: Server, sid: Sid, data: seq<byte>)
    requires TotalsInv(s) && Enabled(s, SendTo(sid, data))
    ensures TotalsInv(Next(s, SendTo(sid, data)))
  {
    var x := s.sessions[sid].x;
    SendCounts(x, data);
    PutTotals(s, sid, SendAsync(x, data), 0, 0);
    QueueTotals(Put(s, sid, SendAsync(x, data)), Next(s, SendTo(sid, data)));
  }

  lemma {:induction false} SocketTotals(s: Server, sid: Sid, op: Interleaving.Label)
    requires TotalsInv(s) && Enabled(s, Socket(sid, op))
    ensures TotalsInv(Next(s, Socket(sid, op)))
  {
    CountPut(s, sid, Interleaving.Next(AtRest(s.sessions[sid].x, false), op).x, 0, 0, Next(s, Socket(sid, op)));
  }

  lemma {:induction false} LimitTotals(s: Server, sid: Sid, a: nat, b: nat)
    requires TotalsInv(s) && Enabled(s, SetLimits(sid, a, b))
    ensures TotalsInv(Next(s, SetLimits(sid, a, b)))
  {
    CountPut(s, sid, Limited(s.sessions[sid].x, a, b), 0, 0, Next(s, SetLimits(sid, a, b)));
  }

  lemma {:induction false} WriteTotals(s: Server, sid: Sid)
    requires LifeInv(s) && TotalsInv(s) && Enabled(s, RunWrite(sid))
    ensures TotalsInv(Next(s, RunWrite(sid)))
  {
    var x := s.sessions[sid].x;
    WriteCounts(x);
    if x.connected { ConnectedIsCounted(s, sid); }
    CountPut(s, sid, WriteDone(x), if x.Ready() then x.tx.op.size else 0, 0, Next(s, RunWrite(sid)));
  }

  lemma {:induction false} ReadTotals(s: Server, sid: Sid)
    requires LifeInv(s) && TotalsInv(s) && Enabled(s, RunRead(sid))
    ensures TotalsInv(Next(s, RunRead(sid)))
  {
    var x := s.sessions[sid].x;
    ReadCounts(x);
    if x.connected { ConnectedIsCounted(s, sid); }
    CountPut(s, sid, ReadDone(x), 0, if x.Ready() then |x.rx.op.chunk| else 0, Next(s, RunRead(sid)));
  }

  lemma {:induction false} CountPut(s: Server, sid: Sid, x: Session, sent: nat, received: nat, t: Server)
    requires TotalsInv(s) && sid < |s.sessions|
    requires x.tx.sent == s.sessions[sid].x.tx.sent + sent && x.rx.received == s.sessions[sid].x.rx.received + received
    requires sid in s.cohort || sent == received == 0
    requires t == Put(s, sid, x).(sent := t.sent, received := t.received)
    requires t.sent == s.sent + sent && t.received == s.received + received
    ensures TotalsInv(t)
  {
    PutTotals(s, sid, x, sent, received);
  }

  lemma {:induction false} SameTotals(s: Server, t: Server)
    requires TotalsInv(s)
    requires t.cohort == s.cohort && t.registry == s.registry && |t.sessions| == |s.sessions|
    requires t.sent == s.sent && t.received == s.received
    requires forall sid: Sid :: sid < |s.sessions| ==>
      && t.sessions[sid].x.tx.sent == s.sessions[sid].x.tx.sent
      && t.sessions[sid].x.rx.received == s.sessions[sid].x.rx.received
      && t.sessions[sid].events == s.sessions[sid].events
    ensures TotalsInv(t)
  {
    SumSame(s.cohort, s.sessions, t.sessions);
  }

  lemma {:induction false} CastTotals(s: Server, data: seq<byte>, order: seq<Sid>)
    requires TotalsInv(s) && Enabled(s, Multicast(data, order))
    ensures TotalsInv(Next(s, Multicast(data, order)))
  {
    if s.started && data != [] {
      forall sid: Sid | sid < |s.sessions|
        ensures Cast(s, data)[sid].x.tx.sent == s.sessions[sid].x.tx.sent
        ensures Cast(s, data)[sid].x.rx.received == s.sessions[sid].x.rx.received
        ensures Cast(s, data)[sid].events == s.sessions[sid].events
      {
        SendCounts(s.sessions[sid].x, data);
      }
      SameTotals(s, Next(s, Multicast(data, order)));
    }
  }

  lemma {:induction false} HandshakeTotals(s: Server, sid: Sid, ok: bool)
    requires TotalsInv(s) && Enabled(s, RunHandshake(sid, ok))
    ensures TotalsInv(Next(s, RunHandshake(sid, ok)))
  {
    HandshakeEffect(s, sid, ok);
    SameTotals(s, Next(s, RunHandshake(sid, ok)));
  }

  lemma {:induction false} HandshakeEffect(s: Server, sid: Sid, ok: bool)
    requires Enabled(s, RunHandshake(sid, ok))
    ensures
      var t, e := Next(s, RunHandshake(sid, ok)), s.sessions[sid];
      && t == s.(sessions := t.sessions, queue := t.queue)
      && t.sessions == s.sessions[sid := t.sessions[sid]]
      && t.sessions[sid].x.tx == e.x.tx && t.sessions[sid].x.rx.received == e.x.rx.received
      && t.sessions[sid].events == e.events
  {
  }

  lemma {:induction false} TotalsNext(s: Server, l: Label)
    requires AcceptInv(s) && LifeInv(s) && TotalsInv(s) && Enabled(s, l) && !Hazard(s, l)
    ensures TotalsInv(Next(s, l))
  {
    match l
    case RunNext(room, order) => RunTotals(s, room, order);
    case SendTo(sid, data) => SendTotals(s, sid, data);
    case SetLimits(sid, a, b) => LimitTotals(s, sid, a, b);
    case Socket(sid, op) => SocketTotals(s, sid, op);
    case RunWrite(sid) => WriteTotals(s, sid);
    case RunRead(sid) => ReadTotals(s, sid);
    case RunHandshake(sid, ok) => HandshakeTotals(s, sid, ok);
    case Multicast(data, order) => CastTotals(s, data, order);
    case _ => QueueTotals(s, Next(s, l));
  }

  lemma {:induction false} TotalsRun(s: Server, ls: seq<Label>)
    requires AcceptInv(s) && LifeInv(s) && TotalsInv(s) && Possible(s, ls) && Safe(s, ls)
    ensures TotalsInv(End(s, ls))
    decreases |ls|
  {
    if ls != [] {
      AcceptNext(s, ls[0]);
      LifeNext(s, ls[0]);
      TotalsNext(s, ls[0]);
      TotalsRun(Next(s, ls[0]), ls[1..]);
    }
  }

  // ---------------------------------------------------------------- the cohort, from the steps of the run

  /** A start takes effect. */
  predicate Starts(s: Server, l: Label) { l.RunNext? && s.queue != [] && s.queue[0].StartH? && !s.started }

  /** The session whose accept completed successfully in this step. */
  function AcceptedBy(s: Server, l: Label): seq<Sid> {
    if l.RunNext? && s.queue != [] && s.queue[0].AcceptDone? && s.queue[0].ok then [s.queue[0].accepted] else []
  }

  /** The sessions accepted since the last start that took effect. */
  ghost function AcceptedSince(c: seq<Sid>, s: Server, ls: seq<Label>): seq<Sid>
    requires Possible(s, ls)
    decreases |ls|
  {
    if ls == [] then c
    else AcceptedSince(if Starts(s, ls[0]) then [] else c + AcceptedBy(s, ls[0]), Next(s, ls[0]), ls[1..])
  }

  lemma {:induction false} CohortRun(s: Server, room: nat, order: seq<Sid>)
    requires AcceptInv(s) && Enabled(s, RunNext(room, order))
    ensures
      var l := RunNext(room, order);
      Next(s, l).cohort == if Starts(s, l) then [] else s.cohort + AcceptedBy(s, l)
  {
    assert s.cohort + [] == s.cohort;
    if s.queue[0].AcceptDone? && s.queue[0].ok { SlotIsNew(s); }
    assert s.queue[0] in s.queue;
  }

  lemma {:induction false} CohortStep(s: Server, l: Label)
    requires AcceptInv(s) && Enabled(s, l)
    ensures Next(s, l).cohort == if Starts(s, l) then [] else s.cohort + AcceptedBy(s, l)
  {
    assert s.cohort + [] == s.cohort;
    if l.RunNext? { CohortRun(s, l.room, l.order); }
  }

  lemma {:induction false} CohortIsAccepted(s: Server, ls: seq<Label>)
    requires AcceptInv(s) && Possible(s, ls) && Safe(s, ls)
    ensures End(s, ls).cohort == AcceptedSince(s.cohort, s, ls)
    decreases |ls|
  {
    if ls != [] {
      AcceptNext(s, ls[0]);
      CohortStep(s, ls[0]);
      CohortIsAccepted(Next(s, ls[0]), ls[1..]);
    }
  }

  /**
   In every safe run the server's totals are the sums over the sessions accepted since the last start that took
   effect, gone ones included; right after that start both are 0.
   */
  lemma {:induction false} TotalsAreSums(ssl: bool, ls: seq<Label>)
    requires Possible(Init(ssl), ls) && Safe(Init(ssl), ls)
    ensures
      var e, accepted := End(Init(ssl), ls), AcceptedSince([], Init(ssl), ls);
      && InRange(accepted, e.sessions)
      && Totals(e.sent, e.received) == Sum(accepted, e.sessions)
      && (accepted == [] ==> e.sent == 0 && e.received == 0)
      && (forall sid <- e.registry :: sid in accepted)
      && (forall i, j :: 0 <= i < j < |accepted| ==> accepted[i] != accepted[j])
  {
    TotalsRun(Init(ssl), ls);
    CohortIsAccepted(Init(ssl), ls);
  }
}
