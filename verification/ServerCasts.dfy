/**
 Multicast agreement: with only multicasts and no send limits, each session accepts exactly the multicasts
 issued while it was registered and ready, in order.
 */
module ServerCasts {
  import opened SessionCore
  import opened AtomicSession
  import opened ServerMachine
  import opened ServerAccept
  import opened ServerLife
  import opened ServerSessions
  import Interleaving
  import Delivery

  /** Concatenation of a list of buffers. */
  function Flat(casts: seq<seq<byte>>): seq<byte> {
    if casts == [] then [] else casts[0] + Flat(casts[1..])
  }

  lemma {:induction false} FlatAppend(a: seq<seq<byte>>, b: seq<seq<byte>>)
    ensures Flat(a + b) == Flat(a) + Flat(b)
  {
    if a == [] {
      assert a + b == b;
    } else {
      assert (a + b)[1..] == a[1..] + b;
      FlatAppend(a[1..], b);
    }
  }

  /** How many multicasts had been issued when the session stopped hearing them, or until now. */
  function Until(e: Entry, casts: seq<seq<byte>>): nat { if e.left.Some? then e.left.value else |casts| }

  ghost predicate Heard(e: Entry, casts: seq<seq<byte>>) {
    && e.x.tx.limit == 0
    && (e.x.Ready() <==> e.joined.Some? && e.left.None?)
    && (e.joined.Some? ==> e.x.handshaked)
    && (e.left.Some? ==> !e.x.connected)
    && (e.joined.None? ==> e.x.tx.accepted == [])
    && (e.joined.Some? ==>
          && e.joined.value <= Until(e, casts) <= |casts|
          && e.x.tx.accepted == Flat(casts[e.joined.value..Until(e, casts)]))
  }

  ghost predicate CastInv(s: Server) {
    forall sid: Sid :: sid < |s.sessions| ==> Heard(s.sessions[sid], s.casts)
  }

  /** Only multicasts are sent, and no session is given a send limit. */
  predicate CastsOnly(l: Label) { !l.SendTo? && (l.SetLimits? ==> l.sendLimit == 0) }

  /** A step that accepts nothing new and changes neither send limit nor handshake. */
  predicate Deaf(x: Session, x': Session) {
    && x'.tx.accepted == x.tx.accepted && x'.tx.limit == x.tx.limit
    && x'.handshaked == x.handshaked && (x'.connected ==> x.connected)
  }

  lemma {:induction false} PutCasts(s: Server, sid: Sid, x: Session)
    requires CastInv(s) && sid < |s.sessions| && Deaf(s.sessions[sid].x, x)
    ensures CastInv(Put(s, sid, x))
  {
    var e, e' := s.sessions[sid], Put(s, sid, x).sessions[sid];
    assert Heard(e, s.casts);
    assert Heard(e', s.casts);
  }

  lemma {:induction false} HandlersAreDeaf(x: Session)
    ensures Deaf(x, TrySend(x)) && Deaf(x, Disconnected(x))
    ensures x.tx.op.Written? ==> Deaf(x, WriteDone(x))
    ensures x.rx.op.Arrived? ==> Deaf(x, ReadDone(x))
  {
  }

  lemma {:induction false} SocketIsDeaf(x: Session, op: Interleaving.Label)
    requires (op.Took? || op.Came?) && Interleaving.Enabled(AtRest(x, false), op)
    ensures Deaf(x, Interleaving.Next(AtRest(x, false), op).x)
  {
  }

  lemma {:induction false} HearsOne(e: Entry, casts: seq<seq<byte>>, data: seq<byte>)
    requires Heard(e, casts) && data != []
    ensures Heard(e.(x := SendAsync(e.x, data)), casts + [data])
    ensures !e.x.Ready() ==> SendAsync(e.x, data) == e.x
  {
    if e.joined.Some? {
      var a, b := e.joined.value, Until(e, casts);
      assert (casts + [data])[a..b] == casts[a..b];
      if e.left.None? {
        assert (casts + [data])[a..b + 1] == casts[a..b] + [data];
        FlatAppend(casts[a..b], [data]);
        assert Flat([data]) == data + Flat([]) == data;
      }
    }
  }

  lemma {:induction false} CastCasts(s: Server, data: seq<byte>, order: seq<Sid>)
    requires CastInv(s) && LifeInv(s) && Enabled(s, Multicast(data, order))
    ensures CastInv(Next(s, Multicast(data, order)))
  {
    if s.started && data != [] {
      var t := Next(s, Multicast(data, order));
      forall sid: Sid | sid < |s.sessions|
        ensures Heard(t.sessions[sid], t.casts)
      {
        HearsOne(s.sessions[sid], s.casts, data);
        assert s.sessions[sid].(x := s.sessions[sid].x) == s.sessions[sid];
      }
    }
  }

  lemma {:induction false} OpenCasts(s: Server, sid: Sid, room: nat)
    requires CastInv(s) && Untouched(s, sid)
    ensures CastInv(Open(s, sid, room))
  {
    var e := Open(s, sid, room).sessions[sid];
    assert s.casts[|s.casts|..|s.casts|] == [];
    assert Heard(e, s.casts);
  }

  lemma {:induction false} RunCasts(s: Server, room: nat, order: seq<Sid>)
    requires AcceptInv(s) && CastInv(s) && Enabled(s, RunNext(room, order)) && !Hazard(s, RunNext(room, order))
    ensures CastInv(Next(s, RunNext(room, order)))
  {
    var s' := s.(queue := s.queue[1..]);
    assert CastInv(s') && s.queue[0] in s.queue;
    match s.queue[0]
    case AcceptDone(_, ok) => if ok { OpenCasts(s', s.slot.value, room); }
    case DisconnectH(sid) =>
      if sid < |s.sessions| {
        HandlersAreDeaf(s.sessions[sid].x);
        PutCasts(s', sid, Disconnected(s.sessions[sid].x));
      }
    case TrySendH(sid) =>
      if sid < |s.sessions| {
        HandlersAreDeaf(s.sessions[sid].x);
        PutCasts(s', sid, TrySend(s.sessions[sid].x));
      }
    case _ =>
  }

  lemma {:induction false} HandshakeCasts(s: Server, sid: Sid, ok: bool)
    requires CastInv(s) && Enabled(s, RunHandshake(sid, ok))
    ensures CastInv(Next(s, RunHandshake(sid, ok)))
  {
    assert Heard(s.sessions[sid], s.casts);
    assert s.casts[|s.casts|..|s.casts|] == [];
    assert Heard(Next(s, RunHandshake(sid, ok)).sessions[sid], s.casts);
  }

  lemma {:induction false} CastNext(s: Server, l: Label)
    requires AcceptInv(s) && LifeInv(s) && CastInv(s) && Enabled(s, l) && !Hazard(s, l) && CastsOnly(l)
    ensures CastInv(Next(s, l))
  {
    match l
    case RunNext(room, order) => RunCasts(s, room, order);
    case Multicast(data, order) => CastCasts(s, data, order);
    case RunHandshake(sid, ok) => HandshakeCasts(s, sid, ok);
    case Socket(sid, op) =>
      SocketIsDeaf(s.sessions[sid].x, op);
      PutCasts(s, sid, Interleaving.Next(AtRest(s.sessions[sid].x, false), op).x);
    case SetLimits(sid, a, b) =>
      assert Heard(s.sessions[sid], s.casts);
      PutCasts(s, sid, Limited(s.sessions[sid].x, a, b));
    case RunWrite(sid) =>
      HandlersAreDeaf(s.sessions[sid].x);
      PutCasts(s, sid, WriteDone(s.sessions[sid].x));
    case RunRead(sid) =>
      HandlersAreDeaf(s.sessions[sid].x);
      PutCasts(s, sid, ReadDone(s.sessions[sid].x));
    case _ =>
  }

  // ---------------------------------------------------------------- what is sent, from the steps of the run

  /** The multicast of this step, if it is one that a started server carries out. */
  function IssuedBy(s: Server, l: Label): seq<seq<byte>> {
    if l.Multicast? && s.started && l.data != [] then [l.data] else []
  }

  /** All multicasts of a run, in order. */
  ghost function Issued(s: Server, ls: seq<Label>): seq<seq<byte>>
    requires Possible(s, ls)
    decreases |ls|
  {
    if ls == [] then [] else IssuedBy(s, ls[0]) + Issued(Next(s, ls[0]), ls[1..])
  }

  lemma {:induction false} CastsStep(s: Server, l: Label)
    requires Enabled(s, l)
    ensures Next(s, l).casts == s.casts + IssuedBy(s, l)
  {
    assert s.casts + [] == s.casts;
    match l
    case Multicast(_, _) =>
    case RunNext(_, _) =>
    case _ =>
  }

  lemma {:induction false} CastsAreIssued(s: Server, ls: seq<Label>)
    requires Possible(s, ls)
    ensures End(s, ls).casts == s.casts + Issued(s, ls)
    decreases |ls|
  {
    if ls == [] {
      assert s.casts + [] == s.casts;
    } else {
      var s' := Next(s, ls[0]);
      CastsStep(s, ls[0]);
      CastsAreIssued(s', ls[1..]);
      CastsAssoc(s.casts, IssuedBy(s, ls[0]), Issued(s', ls[1..]));
    }
  }

  lemma CastsAssoc(a: seq<seq<byte>>, b: seq<seq<byte>>, c: seq<seq<byte>>)
    ensures (a + b) + c == a + (b + c)
  {
  }

  /** The buffer stays within the session's limit, if it has one. */
  predicate Fits(x: Session, data: seq<byte>) { x.tx.limit == 0 || |x.tx.main| + |data| <= x.tx.limit }

  /** What this step sends to session `sid`: a multicast or a send of its own, if it is ready and the data fits. */
  function SentBy(s: Server, l: Label, sid: Sid): seq<byte> {
    if sid < |s.sessions| && s.sessions[sid].x.Ready()
       && ((l.SendTo? && l.sid == sid) || (l.Multicast? && s.started)) && Fits(s.sessions[sid].x, l.data)
    then l.data
    else []
  }

  ghost function SentTo(s: Server, ls: seq<Label>, sid: Sid): seq<byte>
    requires Possible(s, ls)
    decreases |ls|
  {
    if ls == [] then [] else SentBy(s, ls[0], sid) + SentTo(Next(s, ls[0]), ls[1..], sid)
  }

  function Accepted(s: Server, sid: Sid): seq<byte> {
    if sid < |s.sessions| then s.sessions[sid].x.tx.accepted else []
  }

  lemma {:induction false} SendAccepts(x: Session, data: seq<byte>)
    ensures SendAsync(x, data).tx.accepted == x.tx.accepted + if x.Ready() && Fits(x, data) then data else []
  {
    assert x.tx.accepted + [] == x.tx.accepted;
  }

  lemma {:induction false} PutAccepted(s: Server, t: Server, k: Sid, x: Session, sid: Sid)
    requires k < |s.sessions| && t.sessions == Put(s, k, x).sessions
    ensures Accepted(t, sid) == if k == sid then x.tx.accepted else Accepted(s, sid)
  {
  }

  lemma {:induction false} RunAccepts(s: Server, room: nat, order: seq<Sid>, sid: Sid)
    requires s.queue != []
    ensures Accepted(RunHandler(s.(queue := s.queue[1..]), s.queue[0], room, order), sid) == Accepted(s, sid)
  {
    var s' := s.(queue := s.queue[1..]);
    match s.queue[0]
    case DisconnectH(k) =>
      if k < |s.sessions| {
        HandlersAreDeaf(s.sessions[k].x);
        PutAccepted(s', Put(s', k, Disconnected(s.sessions[k].x)), k, Disconnected(s.sessions[k].x), sid);
      }
    case TrySendH(k) =>
      if k < |s.sessions| {
        HandlersAreDeaf(s.sessions[k].x);
        PutAccepted(s', Put(s', k, TrySend(s.sessions[k].x)), k, TrySend(s.sessions[k].x), sid);
      }
    case AcceptDone(_, ok) => if ok && s.slot.Some? && s.slot.value < |s.sessions| { OpenAccepts(s', room, sid); }
    case _ =>
  }

  lemma {:induction false} OpenAccepts(s: Server, room: nat, sid: Sid)
    requires s.slot.Some? && s.slot.value < |s.sessions|
    ensures Accepted(Accept(Open(s, s.slot.value, room)), sid) == Accepted(s, sid)
  {
    assert Accepted(Open(s, s.slot.value, room), sid) == Accepted(s, sid);
  }

  lemma {:induction false} MulticastAccepts(s: Server, data: seq<byte>, order: seq<Sid>, sid: Sid)
    requires LifeInv(s) && Enabled(s, Multicast(data, order))
    ensures Accepted(Next(s, Multicast(data, order)), sid)
      == Accepted(s, sid) + SentBy(s, Multicast(data, order), sid)
  {
    assert Accepted(s, sid) + [] == Accepted(s, sid);
    if s.started && data != [] && sid < |s.sessions| {
      SendAccepts(s.sessions[sid].x, data);
    }
  }

  lemma {:induction false} SessionAccepts(s: Server, l: Label, sid: Sid)
    requires Enabled(s, l) && (l.SendTo? || l.SetLimits? || l.Socket? || l.RunWrite? || l.RunRead?)
    ensures Accepted(Next(s, l), sid) == Accepted(s, sid) + SentBy(s, l, sid)
  {
    var x := s.sessions[l.sid].x;
    assert Accepted(s, sid) + [] == Accepted(s, sid);
    HandlersAreDeaf(x);
    match l
    case SendTo(k, data) =>
      SendAccepts(x, data);
      PutAccepted(s, Next(s, l), k, SendAsync(x, data), sid);
    case SetLimits(k, a, b) => PutAccepted(s, Next(s, l), k, Limited(x, a, b), sid);
    case Socket(k, op) =>
      SocketIsDeaf(x, op);
      PutAccepted(s, Next(s, l), k, Interleaving.Next(AtRest(x, false), op).x, sid);
    case RunWrite(k) => PutAccepted(s, Next(s, l), k, WriteDone(x), sid);
    case RunRead(k) => PutAccepted(s, Next(s, l), k, ReadDone(x), sid);
  }

  lemma {:induction false} AcceptsStep(s: Server, l: Label, sid: Sid)
    requires LifeInv(s) && Enabled(s, l)
    ensures Accepted(Next(s, l), sid) == Accepted(s, sid) + SentBy(s, l, sid)
  {
    assert Accepted(s, sid) + [] == Accepted(s, sid);
    match l
    case RunNext(room, order) => RunAccepts(s, room, order, sid);
    case Multicast(data, order) => MulticastAccepts(s, data, order, sid);
    case RunHandshake(_, _) =>
    case ApiStart =>
    case ApiStop =>
    case ApiDisconnectAll =>
    case ApiDisconnect(_) =>
    case Incoming(_, _) =>
    case _ => SessionAccepts(s, l, sid);
  }

  lemma {:induction false} AcceptsRun(s: Server, ls: seq<Label>, sid: Sid)
    requires AcceptInv(s) && LifeInv(s) && Possible(s, ls) && Safe(s, ls)
    ensures Accepted(End(s, ls), sid) == Accepted(s, sid) + SentTo(s, ls, sid)
    decreases |ls|
  {
    if ls == [] {
      assert Accepted(s, sid) + [] == Accepted(s, sid);
    } else {
      AcceptNext(s, ls[0]);
      LifeNext(s, ls[0]);
      AcceptsStep(s, ls[0], sid);
      AcceptsRun(Next(s, ls[0]), ls[1..], sid);
      Delivery.Assoc(Accepted(s, sid), SentBy(s, ls[0], sid), SentTo(Next(s, ls[0]), ls[1..], sid));
    }
  }

  /**
   In every safe run, with any mix of sends, multicasts and limits: each session accepts exactly what was sent to
   it while it was ready and fitted its limit, in order, and its socket was given a prefix of that: all of it once
   the session is ready with no write out and no `trySend` queued.
   */
  lemma {:induction false} EverythingSentIsAccepted(ssl: bool, ls: seq<Label>, sid: Sid)
    requires Possible(Init(ssl), ls) && Safe(Init(ssl), ls) && sid < |End(Init(ssl), ls).sessions|
    ensures
      var e, x := End(Init(ssl), ls), End(Init(ssl), ls).sessions[sid].x;
      && x.tx.accepted == SentTo(Init(ssl), ls, sid)
      && x.tx.wire <= SentTo(Init(ssl), ls, sid)
      && (x.Ready() && x.tx.op == NoWrite && TrySendH(sid) !in e.queue ==> x.tx.wire == SentTo(Init(ssl), ls, sid))
  {
    AcceptsRun(Init(ssl), ls, sid);
    assert Accepted(Init(ssl), sid) + SentTo(Init(ssl), ls, sid) == SentTo(Init(ssl), ls, sid);
    AllOkRun(Init(ssl), ls);
    SessionAwake(End(Init(ssl), ls), sid);
  }

  // ---------------------------------------------------------------- whole runs

  lemma {:induction false} CastRun(s: Server, ls: seq<Label>)
    requires AcceptInv(s) && LifeInv(s) && CastInv(s) && AllOk(s) && Possible(s, ls) && Safe(s, ls)
    requires forall i :: 0 <= i < |ls| ==> CastsOnly(ls[i])
    ensures CastInv(End(s, ls)) && AllOk(End(s, ls))
    decreases |ls|
  {
    if ls != [] {
      AcceptNext(s, ls[0]);
      LifeNext(s, ls[0]);
      CastNext(s, ls[0]);
      AllOkNext(s, ls[0]);
      CastRun(Next(s, ls[0]), ls[1..]);
    }
  }

  /**
   In every safe run with only multicasts, what a session accepted is the concatenation of the multicasts of the
   run in one window, from when it became ready until it left or until now.  The bytes given to its socket are
   a prefix of that, and all of it once the session has no write out and no `trySend` queued.
   */
  lemma {:induction false} MulticastWindows(ssl: bool, ls: seq<Label>, sid: Sid)
    requires Possible(Init(ssl), ls) && Safe(Init(ssl), ls)
    requires forall i :: 0 <= i < |ls| ==> CastsOnly(ls[i])
    requires sid < |End(Init(ssl), ls).sessions|
    ensures
      var e, casts := End(Init(ssl), ls).sessions[sid], Issued(Init(ssl), ls);
      && (e.x.Ready() <==> e.joined.Some? && e.left.None?)
      && (e.joined.None? ==> e.x.tx.accepted == [])
      && (e.joined.Some? ==> e.joined.value <= Until(e, casts) <= |casts|
                             && e.x.tx.accepted == Flat(casts[e.joined.value..Until(e, casts)]))
      && e.x.tx.wire <= e.x.tx.accepted
      && (e.x.Ready() && e.x.tx.op == NoWrite && TrySendH(sid) !in End(Init(ssl), ls).queue ==>
            e.x.tx.wire == Flat(casts[e.joined.value..]))
  {
    CastRun(Init(ssl), ls);
    CastsFromInit(ssl, ls);
    SessionAwake(End(Init(ssl), ls), sid);
    WindowNow(End(Init(ssl), ls).sessions[sid], Issued(Init(ssl), ls));
  }

  lemma {:induction false} WindowNow(e: Entry, casts: seq<seq<byte>>)
    requires Heard(e, casts)
    ensures e.x.Ready() ==>
      && e.joined.Some? && e.joined.value <= |casts|
      && e.x.tx.accepted == Flat(casts[e.joined.value..])
  {
    if e.x.Ready() {
      assert casts[e.joined.value..Until(e, casts)] == casts[e.joined.value..];
    }
  }

  lemma {:induction false} CastsFromInit(ssl: bool, ls: seq<Label>)
    requires Possible(Init(ssl), ls)
    ensures End(Init(ssl), ls).casts == Issued(Init(ssl), ls)
  {
    CastsAreIssued(Init(ssl), ls);
    assert [] + Issued(Init(ssl), ls) == Issued(Init(ssl), ls);
  }

  /** The multicasts `[from, to)` were issued while the session was ready. */
  predicate ReadyDuring(e: Entry, casts: seq<seq<byte>>, from: nat, to: nat) {
    e.joined.Some? && e.joined.value <= from <= to <= Until(e, casts) <= |casts|
  }

  /** The session accepted those multicasts contiguously, after the earlier and before the later ones it heard. */
  predicate AcceptedRange(e: Entry, casts: seq<seq<byte>>, from: nat, to: nat)
    requires ReadyDuring(e, casts, from, to)
  {
    e.x.tx.accepted == Flat(casts[e.joined.value..from]) + Flat(casts[from..to]) + Flat(casts[to..Until(e, casts)])
  }

  lemma {:induction false} SplitWindow(e: Entry, casts: seq<seq<byte>>, from: nat, to: nat)
    requires Heard(e, casts) && ReadyDuring(e, casts, from, to)
    ensures AcceptedRange(e, casts, from, to)
  {
    var a, b := e.joined.value, Until(e, casts);
    assert casts[a..b] == casts[a..from] + casts[from..to] + casts[to..b];
    FlatAppend(casts[a..from] + casts[from..to], casts[to..b]);
    FlatAppend(casts[a..from], casts[from..to]);
  }

  /**
   So two sessions agree: on any range of multicasts issued while both were ready, both accepted the same
   bytes, contiguously and in the same order.
   */
  lemma {:induction false} MulticastAgreement(ssl: bool, ls: seq<Label>, a: Sid, b: Sid, from: nat, to: nat)
    requires Possible(Init(ssl), ls) && Safe(Init(ssl), ls)
    requires forall i :: 0 <= i < |ls| ==> CastsOnly(ls[i])
    requires a < |End(Init(ssl), ls).sessions| && b < |End(Init(ssl), ls).sessions|
    requires ReadyDuring(End(Init(ssl), ls).sessions[a], Issued(Init(ssl), ls), from, to)
    requires ReadyDuring(End(Init(ssl), ls).sessions[b], Issued(Init(ssl), ls), from, to)
    ensures AcceptedRange(End(Init(ssl), ls).sessions[a], Issued(Init(ssl), ls), from, to)
    ensures AcceptedRange(End(Init(ssl), ls).sessions[b], Issued(Init(ssl), ls), from, to)
  {
    CastRun(Init(ssl), ls);
    CastsFromInit(ssl, ls);
    var e := End(Init(ssl), ls);
    assert Heard(e.sessions[a], e.casts) && Heard(e.sessions[b], e.casts);
    SplitWindow(e.sessions[a], e.casts, from, to);
    SplitWindow(e.sessions[b], e.casts, from, to);
  }

  /** The session is ready before, after and between the steps of the run. */
  ghost predicate ReadyThroughout(s: Server, ls: seq<Label>, sid: Sid)
    requires Possible(s, ls)
    decreases |ls|
  {
    && sid < |s.sessions| && s.sessions[sid].x.Ready()
    && (ls == [] || ReadyThroughout(Next(s, ls[0]), ls[1..], sid))
  }

  /**
   Agreement said of the steps alone: in any stretch of a run, every session that is ready throughout accepts
   exactly the multicasts of the stretch, so any two such sessions accept the same bytes.
   */
  lemma {:induction false} ReadySessionsHearAll(s: Server, ls: seq<Label>, sid: Sid)
    requires AcceptInv(s) && LifeInv(s) && CastInv(s) && Possible(s, ls) && Safe(s, ls)
    requires forall i :: 0 <= i < |ls| ==> CastsOnly(ls[i])
    requires ReadyThroughout(s, ls, sid)
    ensures SentTo(s, ls, sid) == Flat(Issued(s, ls))
    ensures Accepted(End(s, ls), sid) == Accepted(s, sid) + Flat(Issued(s, ls))
    decreases |ls|
  {
    AcceptsRun(s, ls, sid);
    if ls != [] {
      var s' := Next(s, ls[0]);
      AcceptNext(s, ls[0]);
      LifeNext(s, ls[0]);
      CastNext(s, ls[0]);
      HeardStep(s, ls[0], sid);
      ReadySessionsHearAll(s', ls[1..], sid);
      FlatAppend(IssuedBy(s, ls[0]), Issued(s', ls[1..]));
    }
  }

  lemma {:induction false} HeardStep(s: Server, l: Label, sid: Sid)
    requires LifeInv(s) && CastInv(s) && Enabled(s, l) && CastsOnly(l)
    requires sid < |s.sessions| && s.sessions[sid].x.Ready()
    ensures SentBy(s, l, sid) == Flat(IssuedBy(s, l))
  {
    assert Heard(s.sessions[sid], s.casts);
    if l.Multicast? {
      assert [l.data][1..] == [];
      assert l.data + [] == l.data;
    }
  }
}
