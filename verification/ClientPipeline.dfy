/**
 The send pipeline of the TCP client within one connection.  It is the session's, except that the client asks
 the socket to write its flush buffer from cell 0 whatever the flush offset says.  The requests of a run are
 right exactly when each was made with the offset at 0; a completion handler makes a wrong one exactly when
 its write took only part of the flush buffer.
 */
module ClientPipeline {
  import opened SessionCore
  import opened Interleaving
  import opened Delivery
  import opened AtomicSession

  function AsClient(s: State): State { s.(x := s.x.(tx := s.x.tx.(resume := false))) }

  /** A finished write that took anything took the whole request. */
  predicate Whole(s: State, l: Label) {
    l.Took? && l.n > 0 && s.x.tx.op.Writing? ==> l.n == |s.x.tx.op.data|
  }

  predicate WholeRun(s: State, ls: seq<Label>)
    requires Possible(s, ls)
    decreases |ls|
  {
    ls == [] || (Whole(s, ls[0]) && WholeRun(Next(s, ls[0]), ls[1..]))
  }

  /** The client's request is the session's request if and only if nothing of the buffer was written before. */
  lemma {:induction false} RequestsAgree(t: Tx)
    requires t.resume && t.flush != [] && t.offset < |t.flush|
    ensures Issue(t.(resume := false)).op == Issue(t).op <==> t.offset == 0
  {
  }

  /** The outstanding write asks for the next bytes to be sent: with those still in the main buffer, all the rest. */
  predicate Right(s: State) {
    var t := s.x.tx;
    s.x.connected && t.op.Writing? ==> t.wire + t.op.data + t.main == t.accepted
  }

  predicate AlwaysRight(s: State, ls: seq<Label>)
    requires Possible(s, ls)
    decreases |ls|
  {
    Right(s) && (ls == [] || AlwaysRight(Next(s, ls[0]), ls[1..]))
  }

  /** If this step requests a write, nothing of the flush buffer was written before. */
  predicate FromZero(s: State, l: Label) {
    l.Advance? && s.io.On? && s.io.top.Start? && s.x.tx.flush != [] ==> s.x.tx.offset == 0
  }

  predicate AlwaysFromZero(s: State, ls: seq<Label>)
    requires Possible(s, ls)
    decreases |ls|
  {
    ls == [] || (FromZero(s, ls[0]) && AlwaysFromZero(Next(s, ls[0]), ls[1..]))
  }

  // ---------------------------------------------------------------- the client step by step against the session

  lemma {:induction false} SameStep(s: State, l: Label)
    requires Enabled(AsClient(s), l) && FromZero(AsClient(s), l)
    ensures Enabled(s, l) && Next(AsClient(s), l) == AsClient(Next(s, l))
  {
    assert AsClient(s).x.Ready() == s.x.Ready();
    match l
    case Advance => SameAdvance(s);
    case Return => SameReturn(s);
    case RunRead => SamePick(s, l);
    case RunWrite => SamePick(s, l);
    case RunHandshake(_) => SamePick(s, l);
    case _ => SameOther(s, l);
  }

  lemma {:induction false} SameOther(s: State, l: Label)
    requires Enabled(s, l) && !l.Advance? && !l.Return? && !l.RunRead? && !l.RunWrite? && !l.RunHandshake?
    ensures Next(AsClient(s), l) == AsClient(Next(s, l))
  {
    match l
    case Push(_) =>
    case UserSend(_) =>
    case Took(_, _) =>
    case _ =>
  }

  lemma {:induction false} SameReturn(s: State)
    requires Enabled(s, Return)
    ensures Resume(AsClient(s)) == AsClient(Resume(s))
  {
    if s.io.top.InReceive? {
      SameReceived(s);
    }
  }

  lemma {:induction false} SameReceived(s: State)
    requires s.io.On? && s.io.top.InReceive?
    ensures Resume(AsClient(s)) == AsClient(Resume(s))
  {
    var size := s.io.top.size;
    if !(s.x.rx.room == size && OverLimit(s.x.rx, size)) {
      SameArm(if s.x.rx.room == size then s.x.(rx := Grow(s.x.rx, size)) else s.x);
    }
  }

  lemma {:induction false} SameArm(x: Session)
    ensures Arm(x.(tx := x.tx.(resume := false))) == Arm(x).(tx := x.tx.(resume := false))
  {
  }

  lemma {:induction false} SamePick(s: State, l: Label)
    requires Enabled(s, l) && (l.RunRead? || l.RunWrite? || l.RunHandshake?)
    ensures Next(AsClient(s), l) == AsClient(Next(s, l))
  {
    assert AsClient(s).x.Ready() == s.x.Ready();
  }

  lemma {:induction false} SameAdvance(s: State)
    requires Enabled(s, Advance) && FromZero(s, Advance)
    ensures Continue(AsClient(s)) == AsClient(Continue(s))
  {
    match s.io.top
    case Try => SameTest(s);
    case Close => SameTest(s);
    case Start => SameWrite(s);
    case _ => SameBuffers(s);
  }

  lemma {:induction false} SameTest(s: State)
    requires Enabled(s, Advance) && (s.io.top.Try? || s.io.top.Close?)
    ensures Continue(AsClient(s)) == AsClient(Continue(s))
  {
    assert AsClient(s).x.Ready() == s.x.Ready();
  }

  lemma {:induction false} SameWrite(s: State)
    requires Enabled(s, Advance) && s.io.top.Start? && FromZero(s, Advance)
    ensures Continue(AsClient(s)) == AsClient(Continue(s))
  {
  }

  lemma {:induction false} SameBuffers(s: State)
    requires Enabled(s, Advance) && (s.io.top.SwapIn? || s.io.top.Settle? || s.io.top.Clear?)
    ensures Continue(AsClient(s)) == AsClient(Continue(s))
  {
  }

  /** A client run that requests only from offset 0 is, step by step, a run of the session. */
  lemma {:induction false} FromZeroRunsAreSessionRuns(s: State, ls: seq<Label>)
    requires Possible(AsClient(s), ls) && AlwaysFromZero(AsClient(s), ls)
    ensures Possible(s, ls) && End(AsClient(s), ls) == AsClient(End(s, ls))
    decreases |ls|
  {
    if ls != [] {
      SameStep(s, ls[0]);
      FromZeroRunsAreSessionRuns(Next(s, ls[0]), ls[1..]);
    }
  }

  // ---------------------------------------------------------------- when the client is right

  lemma {:induction false} SessionIsRight(s: State)
    requires TxOk(s.x.connected, s.x.tx, Owed(s)) && Control(s)
    ensures Right(s) && Right(AsClient(s))
  {
  }

  /** A request made with part of the flush buffer written asks for bytes the socket already took. */
  lemma {:induction false} SplitRequestIsWrong(s: State)
    requires Inv(s) && Enabled(s, Advance) && !FromZero(s, Advance)
    ensures !Right(Next(AsClient(s), Advance))
  {
    var t := s.x.tx;
    assert AsClient(s).x.tx.flush == t.flush && Owed(s) == 0;
    assert Next(AsClient(s), Advance).x.tx.op.data == t.flush;
    assert |t.wire + t.flush[t.offset..] + t.main| < |t.wire + t.flush + t.main|;
  }

  /**
   The exact condition, for every run in every interleaving: all requests of a client ask for the next bytes to
   be sent if and only if each was made with the flush offset at 0.
   */
  lemma {:induction false} RightExactlyFromZero(s: State, ls: seq<Label>)
    requires Inv(s) && Possible(AsClient(s), ls)
    ensures AlwaysRight(AsClient(s), ls) <==> AlwaysFromZero(AsClient(s), ls)
    decreases |ls|
  {
    SessionIsRight(s);
    if ls != [] {
      if FromZero(AsClient(s), ls[0]) {
        SameStep(s, ls[0]);
        NextOk(s, ls[0]);
        RightExactlyFromZero(Next(s, ls[0]), ls[1..]);
      } else {
        SplitRequestIsWrong(s);
        WrongFromHere(Next(AsClient(s), ls[0]), ls[1..]);
      }
    }
  }

  lemma {:induction false} WrongFromHere(c: State, ls: seq<Label>)
    requires Possible(c, ls) && !Right(c)
    ensures !AlwaysRight(c, ls)
  {
  }

  /**
   The same condition on one completion, in terms of its size: after an error-free write whose request was
   right, the handler's next request, if it makes one, is right if and only if the write took the whole flush
   buffer.  If it took only part, the handler does make one.
   */
  lemma {:induction false} CompletionDecides(x: Session, woken: bool)
    requires SessionOk(x, woken) && x.Ready() && x.tx.offset == 0
    requires x.tx.op.Written? && !x.tx.op.err && x.tx.op.size > 0
    ensures
      var y := WriteDone(x.(tx := x.tx.(resume := false)));
      && (y.tx.op.Writing? ==>
            (y.tx.wire + y.tx.op.data + y.tx.main == y.tx.accepted <==> x.tx.op.size == |x.tx.flush|))
      && (x.tx.op.size < |x.tx.flush| ==> y.tx.op.Writing?)
  {
    var t, size := x.tx, x.tx.op.size;
    var a := Acknowledge(Retire(t), size).(resume := false);
    assert TxOk(true, t, size);
    assert t.accepted == t.wire + t.flush[size..] + t.main;
    var y := WriteDone(x.(tx := x.tx.(resume := false)));
    if size < |t.flush| {
      assert y.tx == Issue(a);
      assert |t.wire + t.flush + t.main| > |t.accepted|;
    } else {
      assert y.tx == if t.main == [] then Swap(a).(notice := RanEmpty) else Issue(Swap(a));
      assert t.wire + t.main + [] == t.wire + [] + t.main;
    }
  }

  /** So after any whole run the next error-free completion is handled rightly if and only if it is whole too. */
  lemma {:induction false} NextCompletionDecides(
      ssl: bool, room: nat, sendLimit: nat, receiveLimit: nat, ls: seq<Label>, n: nat)
    requires
      var c := AsClient(Init(ssl, room, sendLimit, receiveLimit));
      && Possible(c, ls) && WholeRun(c, ls)
      && End(c, ls).x.Ready() && End(c, ls).io == Bottom
      && End(c, ls).x.tx.op.Writing? && 0 < n <= |End(c, ls).x.tx.op.data|
    ensures
      var c := End(AsClient(Init(ssl, room, sendLimit, receiveLimit)), ls);
      Right(Finish(Next(Next(c, Took(false, n)), RunWrite))) <==> n == |c.x.tx.op.data|
  {
    var s := Init(ssl, room, sendLimit, receiveLimit);
    InitOk(ssl, room, sendLimit, receiveLimit);
    WholeRunsAreSessionRuns(s, ls);
    WholeInv(s, ls);
    HandlerDecides(End(s, ls), n);
  }

  lemma {:induction false} HandlerDecides(s: State, n: nat)
    requires Inv(s) && Unsplit(s) && s.x.Ready() && s.io == Bottom
    requires s.x.tx.op.Writing? && 0 < n <= |s.x.tx.op.data|
    ensures Right(Finish(Next(Next(AsClient(s), Took(false, n)), RunWrite))) <==> n == |s.x.tx.op.data|
  {
    var s1 := Next(s, Took(false, n));
    SameStep(s, Took(false, n));
    NextOk(s, Took(false, n));
    WriteDoneIsARun(AsClient(s1));
    AnyRest(s1);
    CompletionDecides(s1.x, true);
  }

  /** What an idle I/O thread leaves to others may as well be a queued `trySend`. */
  lemma {:induction false} AnyRest(s: State)
    requires Inv(s) && s.io == Bottom && s.x.connected
    ensures SessionOk(s.x, true)
  {
    var t := AtRest(s.x, true);
    assert Owed(t) == Owed(s);
    assert Control(t);
    assert ReceiveInv(t);
  }

  // ---------------------------------------------------------------- whole writes

  /** No flush buffer is partly written. */
  ghost predicate Unsplit(s: State) {
    var t := s.x.tx;
    && t.offset == 0
    && (t.op.Writing? && s.x.connected ==> t.op.data == t.flush)
    && (t.op.Written? && s.x.connected ==> t.op.size == 0 || t.op.size == |t.flush|)
    && (s.io.On? && s.io.top.Settle? ==> s.io.top.size == |t.flush|)
  }

  lemma {:induction false} StaysUnsplit(s: State, l: Label)
    requires Inv(s)
    requires Unsplit(s) && Enabled(s, l) && Whole(s, l)
    ensures Unsplit(Next(s, l))
  {
    match l
    case Push(data) => UnsplitSend(s, l, data);
    case UserSend(data) => UnsplitSend(s, l, data);
    case Advance => UnsplitAdvance(s);
    case RunWrite => UnsplitSocket(s, l);
    case Took(_, _) => UnsplitSocket(s, l);
    case _ => UnsplitOther(s, l);
  }

  lemma {:induction false} UnsplitOther(s: State, l: Label)
    requires Control(s) && Unsplit(s) && Enabled(s, l)
    requires !l.Push? && !l.UserSend? && !l.RunWrite? && !l.Took? && !l.Advance?
    ensures Unsplit(Next(s, l))
  {
    if !l.SetLimits? {
      SameOwed(s, l);
    }
  }

  lemma {:induction false} UnsplitSend(s: State, l: Label, data: seq<byte>)
    requires Unsplit(s) && Enabled(s, l) && (l == Push(data) || l == UserSend(data))
    ensures Unsplit(Next(s, l))
  {
  }

  lemma {:induction false} UnsplitSocket(s: State, l: Label)
    requires Control(s) && Unsplit(s) && Enabled(s, l) && Whole(s, l) && (l.RunWrite? || l.Took?)
    ensures Unsplit(Next(s, l))
  {
  }

  lemma {:induction false} UnsplitAdvance(s: State)
    requires TxOk(s.x.connected, s.x.tx, Owed(s)) && Control(s) && Unsplit(s) && Enabled(s, Advance)
    ensures Unsplit(Continue(s))
  {
    match s.io.top
    case Try =>
    case SwapIn =>
    case Start =>
    case Settle(_, size) => UnsplitSettle(s.x.tx, size);
    case Close =>
    case Clear =>
  }

  lemma {:induction false} UnsplitSettle(t: Tx, size: nat)
    requires t.offset == 0 && size == |t.flush|
    ensures Acknowledge(t, size).offset == 0 && Acknowledge(t, size).op == t.op
  {
  }

  lemma {:induction false} WholeInv(s: State, ls: seq<Label>)
    requires Inv(s) && Unsplit(s) && Possible(s, ls)
    requires Possible(AsClient(s), ls) && WholeRun(AsClient(s), ls)
    ensures Inv(End(s, ls)) && Unsplit(End(s, ls))
    decreases |ls|
  {
    if ls != [] {
      SameStep(s, ls[0]);
      StaysUnsplit(s, ls[0]);
      NextOk(s, ls[0]);
      WholeInv(Next(s, ls[0]), ls[1..]);
    }
  }

  /** A client run whose finished writes are whole requests only from offset 0. */
  lemma {:induction false} WholeRunsAreFromZero(s: State, ls: seq<Label>)
    requires Inv(s) && Unsplit(s)
    requires Possible(AsClient(s), ls) && WholeRun(AsClient(s), ls)
    ensures AlwaysFromZero(AsClient(s), ls)
    decreases |ls|
  {
    if ls != [] {
      SameStep(s, ls[0]);
      StaysUnsplit(s, ls[0]);
      NextOk(s, ls[0]);
      WholeRunsAreFromZero(Next(s, ls[0]), ls[1..]);
    }
  }

  /** Such a run is, step by step, a run of the session. */
  lemma {:induction false} WholeRunsAreSessionRuns(s: State, ls: seq<Label>)
    requires Inv(s) && Unsplit(s)
    requires Possible(AsClient(s), ls) && WholeRun(AsClient(s), ls)
    ensures Possible(s, ls) && End(AsClient(s), ls) == AsClient(End(s, ls))
  {
    WholeRunsAreFromZero(s, ls);
    FromZeroRunsAreSessionRuns(s, ls);
  }

  /** So such a client keeps first in, first out, and all its requests are right. */
  lemma {:induction false} WholeRunsAreFaithful(
      ssl: bool, room: nat, sendLimit: nat, receiveLimit: nat, ls: seq<Label>)
    requires
      var c := AsClient(Init(ssl, room, sendLimit, receiveLimit));
      Possible(c, ls) && WholeRun(c, ls)
    ensures
      var c := AsClient(Init(ssl, room, sendLimit, receiveLimit));
      var e := End(c, ls);
      && AlwaysRight(c, ls)
      && e.x.tx.wire <= e.x.tx.accepted
      && (e.x.connected ==> e.x.tx.accepted == e.x.tx.wire + Unsent(e))
  {
    var s := Init(ssl, room, sendLimit, receiveLimit);
    InitOk(ssl, room, sendLimit, receiveLimit);
    WholeRunsAreFromZero(s, ls);
    FromZeroRunsAreFaithful(s, ls);
  }

  lemma {:induction false} FromZeroRunsAreFaithful(s: State, ls: seq<Label>)
    requires Inv(s) && Possible(AsClient(s), ls) && AlwaysFromZero(AsClient(s), ls)
    ensures AlwaysRight(AsClient(s), ls)
    ensures
      var e := End(AsClient(s), ls);
      && e.x.tx.wire <= e.x.tx.accepted
      && (e.x.connected ==> e.x.tx.accepted == e.x.tx.wire + Unsent(e))
  {
    RightExactlyFromZero(s, ls);
    FromZeroRunsAreSessionRuns(s, ls);
    RunOk(s, ls);
    ClientBuffered(End(s, ls));
  }

  lemma {:induction false} ClientBuffered(s: State)
    requires TxOk(s.x.connected, s.x.tx, Owed(s))
    ensures
      var c := AsClient(s);
      && c.x.tx.wire <= c.x.tx.accepted
      && (c.x.connected ==> c.x.tx.accepted == c.x.tx.wire + Unsent(c))
  {
    Buffered(s);
    assert Unsent(AsClient(s)) == Unsent(s);
  }

  // ---------------------------------------------------------------- a partial write

  /** What the completion handler of a partial write runs through. */
  function Retrying(): seq<Label> { [RunWrite, Advance, Return, Advance, Advance] }

  /** Running that handler: the client asks for the whole buffer once more. */
  lemma {:induction false} Retry(c: State, n: nat, ls: seq<Label>)
    requires !c.x.tx.resume && c.x.Ready() && c.io == Bottom
    requires c.x.tx.op == Written(false, n) && 0 < c.x.tx.offset + n < |c.x.tx.flush| && n > 0
    requires Possible(WithTx(c, Issue(Acknowledge(Retire(c.x.tx), n))), ls)
    ensures Possible(c, Retrying() + ls)
    ensures End(c, Retrying() + ls) == End(WithTx(c, Issue(Acknowledge(Retire(c.x.tx), n))), ls)
  {
    AskAgain(Settled(c, n), ls);
    Handled(c, n, [Return, Advance, Advance] + ls);
    assert Retrying() + ls == [RunWrite, Advance] + ([Return, Advance, Advance] + ls);
  }

  /** The completion handler of an error-free write, once it has accounted for it. */
  function Settled(c: State, n: nat): State {
    WithTx(c, Acknowledge(Retire(c.x.tx), n)).(io := On(InSend(false), Bottom))
  }

  lemma {:induction false} Handled(c: State, n: nat, ls: seq<Label>)
    requires c.x.Ready() && c.io == Bottom && c.x.tx.op == Written(false, n) && n > 0
    requires Possible(Settled(c, n), ls)
    ensures Possible(c, [RunWrite, Advance] + ls) && End(c, [RunWrite, Advance] + ls) == End(Settled(c, n), ls)
  {
    var c1 := WithTx(c, Retire(c.x.tx)).(io := On(Settle(false, n), Bottom));
    assert Next(c1, Advance) == Settled(c, n);
    Prepend(c1, Advance, ls);
    assert Next(c, RunWrite) == c1;
    Prepend(c, RunWrite, [Advance] + ls);
    assert [RunWrite, Advance] + ls == [RunWrite] + ([Advance] + ls);
  }

  lemma {:induction false} AskAgain(c: State, ls: seq<Label>)
    requires c.x.Ready() && !c.x.tx.sending && c.io == On(InSend(false), Bottom) && c.x.tx.flush != []
    requires Possible(WithTx(c, Issue(c.x.tx)).(io := Bottom), ls)
    ensures Possible(c, [Return, Advance, Advance] + ls)
    ensures End(c, [Return, Advance, Advance] + ls) == End(WithTx(c, Issue(c.x.tx)).(io := Bottom), ls)
  {
    var c1, c2 := c.(io := On(Try, Bottom)), c.(io := On(Start, Bottom));
    assert Next(c2, Advance) == WithTx(c, Issue(c.x.tx)).(io := Bottom);
    Prepend(c2, Advance, ls);
    assert Next(c1, Advance) == c2;
    Prepend(c1, Advance, [Advance] + ls);
    Prepend(c, Return, [Advance] + ([Advance] + ls));
    assert [Return, Advance, Advance] + ls == [Return] + ([Advance] + ([Advance] + ls));
  }

  /** Part of a write finishes, its handler runs, and then all of the next request is written and handled. */
  function PartThenAll(n: nat, all: nat): seq<Label> {
    [Took(false, n)] + (Retrying() + WholeWrite(all))
  }

  lemma {:induction false} CancelPrefix(w: seq<byte>, a: seq<byte>, b: seq<byte>)
    ensures w + a <= w + b <==> a <= b
  {
    if w + a <= w + b {
      assert (w + b)[..|w + a|] == w + a;
      assert a == (w + b)[|w|..|w + a|] == b[..|a|];
    }
    if a <= b {
      assert w + b == (w + a) + b[|a|..];
    }
  }

  /**
   One partial completion suffices to break the client, even with a healthy socket.  From every state with a
   write of a whole flush buffer outstanding, taking part of it and then all of the next request puts that part
   on the wire twice, and the counter of bytes in flight goes below zero.  The wire is then still a prefix of
   the accepted bytes if and only if the bytes to come happen to read the same.
   */
  lemma {:induction false} PartialWriteDuplicates(s: State, n: nat)
    requires Inv(s) && Unsplit(s) && s.x.Ready() && s.io == Bottom
    requires s.x.tx.op.Writing? && 0 < n < |s.x.tx.flush|
    ensures
      var c, ls := AsClient(s), PartThenAll(n, |s.x.tx.flush|);
      var t := c.x.tx;
      && Possible(c, ls)
      && End(c, ls).x.tx.wire == t.wire + t.flush[..n] + t.flush
      && End(c, ls).x.tx.accepted == t.accepted
      && (End(c, ls).x.tx.wire <= t.accepted <==> t.flush[..n] + t.flush <= t.flush + t.main)
      && End(c, ls).x.tx.flying + n == 0
  {
    var c, all := AsClient(s), |s.x.tx.flush|;
    var c1 := WithTx(c, c.x.tx.(op := Written(false, n), wire := c.x.tx.wire + c.x.tx.flush[..n]));
    assert Next(c, Took(false, n)) == c1;
    var c2 := WithTx(c1, Issue(Acknowledge(Retire(c1.x.tx), n)));
    assert c2.x.tx.op == Writing(0, c.x.tx.flush) && c2.x.tx.flush == c.x.tx.flush;
    var c3 := WriteAll(c2);
    Retry(c1, n, WholeWrite(all));
    Prepend(c, Took(false, n), Retrying() + WholeWrite(all));
    SentTwice(s, n, c3.x.tx.wire);
  }

  function WholeWrite(all: nat): seq<Label> { [Took(false, all), RunWrite, Advance] }

  /** The whole flush buffer is written from its start, and the completion handler accounts for it. */
  lemma {:induction false} WriteAll(c: State) returns (c': State)
    requires c.x.Ready() && c.io == Bottom && c.x.tx.flush != [] && c.x.tx.op == Writing(0, c.x.tx.flush)
    ensures Possible(c, WholeWrite(|c.x.tx.flush|)) && End(c, WholeWrite(|c.x.tx.flush|)) == c'
    ensures c'.x.tx.wire == c.x.tx.wire + c.x.tx.flush && c'.x.tx.accepted == c.x.tx.accepted
    ensures c'.x.tx.flying == c.x.tx.flying - |c.x.tx.flush|
  {
    var all, t := |c.x.tx.flush|, c.x.tx;
    var c1 := WithTx(c, t.(op := Written(false, all), wire := t.wire + t.flush));
    c' := Settled(c1, all);
    assert t.flush[..all] == t.flush;
    assert Possible(c', []) && End(c', []) == c';
    Handled(c1, all, []);
    assert Next(c, Took(false, all)) == c1;
    Prepend(c, Took(false, all), [RunWrite, Advance] + []);
    assert [Took(false, all)] + ([RunWrite, Advance] + []) == WholeWrite(all);
  }

  lemma {:induction false} SentTwice(s: State, n: nat, wire: seq<byte>)
    requires Inv(s) && Unsplit(s) && s.x.Ready() && s.io == Bottom
    requires s.x.tx.op.Writing? && n <= |s.x.tx.flush|
    requires wire == s.x.tx.wire + s.x.tx.flush[..n] + s.x.tx.flush
    ensures
      var t := s.x.tx;
      wire <= t.accepted <==> t.flush[..n] + t.flush <= t.flush + t.main
  {
    var t := s.x.tx;
    assert t.flush[0..] == t.flush;
    assert t.accepted == t.wire + (t.flush + t.main);
    assert wire == t.wire + (t.flush[..n] + t.flush);
    CancelPrefix(t.wire, t.flush[..n] + t.flush, t.flush + t.main);
  }

  /** A producer sends one buffer and the I/O thread requests its write. */
  function SendOnce(data: seq<byte>): seq<Label> {
    [Check, Push(data), Post, RunPosted] + ThreeAdvances()
  }

  /**
   From a client that has just connected: one buffer is sent, part of its write finishes and then all of the
   next request.  The peer received the first part twice.
   */
  lemma {:induction false} ClientRepeatsItself(room: nat, data: seq<byte>, n: nat)
    requires 0 < n < |data|
    ensures
      var c, ls := AsClient(Init(false, room, 0, 0)), SendOnce(data) + PartThenAll(n, |data|);
      && Possible(c, ls)
      && End(c, ls).x.tx.accepted == data
      && End(c, ls).x.tx.wire == data[..n] + data
      && !(End(c, ls).x.tx.wire <= End(c, ls).x.tx.accepted)
  {
    var s := Init(false, room, 0, 0);
    InitOk(false, room, 0, 0);
    RepeatsRequest(s, data, n);
    FirstRequest(AsClient(s), data, PartThenAll(n, |data|));
  }

  lemma {:induction false} RepeatsRequest(s: State, data: seq<byte>, n: nat)
    requires Inv(s) && s.x.Ready() && s.io == Bottom && s.x.tx == EMPTY_TX && 0 < n < |data|
    ensures
      var c, ls := Requesting(AsClient(s), data), PartThenAll(n, |data|);
      && Possible(c, ls)
      && End(c, ls).x.tx.accepted == data
      && End(c, ls).x.tx.wire == data[..n] + data
  {
    RequestingOk(s, data);
    SameRequest(s, data);
    FirstWriteRepeats(Requesting(s, data), n);
  }

  lemma {:induction false} FirstWriteRepeats(s: State, n: nat)
    requires Inv(s) && Unsplit(s) && s.x.Ready() && s.io == Bottom
    requires s.x.tx.op.Writing? && 0 < n < |s.x.tx.flush| && s.x.tx.wire == []
    ensures
      var c, ls := AsClient(s), PartThenAll(n, |s.x.tx.flush|);
      && Possible(c, ls)
      && End(c, ls).x.tx.accepted == s.x.tx.accepted
      && End(c, ls).x.tx.wire == s.x.tx.flush[..n] + s.x.tx.flush
  {
    PartialWriteDuplicates(s, n);
    assert [] + s.x.tx.flush[..n] + s.x.tx.flush == s.x.tx.flush[..n] + s.x.tx.flush;
  }

  lemma {:induction false} SameRequest(s: State, data: seq<byte>)
    requires s.x.tx == EMPTY_TX && data != []
    ensures AsClient(Requesting(s, data)) == Requesting(AsClient(s), data)
    ensures Requesting(s, data).x.tx.flush == data == Requesting(s, data).x.tx.accepted
    ensures Requesting(s, data).x.tx.wire == []
  {
  }

  /** The only buffer sent so far, and where it is. */
  function Filled(t: Tx, data: seq<byte>): Tx { t.(main := data, pending := |data|, accepted := data) }

  function Requesting(s: State, data: seq<byte>): State { WithTx(s, Issue(Swap(Filled(s.x.tx, data)))) }

  predicate Blank(t: Tx) { t == EMPTY_TX.(resume := t.resume) }

  lemma {:induction false} RequestingOk(s: State, data: seq<byte>)
    requires Inv(s) && s.x.Ready() && s.io == Bottom && Blank(s.x.tx) && data != []
    ensures Inv(Requesting(s, data)) && Unsplit(Requesting(s, data))
    ensures Requesting(s, data).x.tx.op == Writing(0, data)
  {
    assert data[0..] == data && [] + data + [] == data;
  }

  lemma {:induction false} FirstRequest(c: State, data: seq<byte>, ls: seq<Label>)
    requires c.x.Ready() && c.io == Bottom && c.posted == c.deciding == c.checked == 0 && data != []
    requires Blank(c.x.tx) && Possible(Requesting(c, data), ls)
    ensures Possible(c, SendOnce(data) + ls)
    ensures End(c, SendOnce(data) + ls) == End(Requesting(c, data), ls)
  {
    var c1 := WithTx(c, Filled(c.x.tx, data)).(posted := 1);
    var c2 := WithTx(c, Filled(c.x.tx, data)).(io := On(Try, Bottom));
    Requested(c2, ls);
    assert Next(c1, RunPosted) == c2;
    Prepend(c1, RunPosted, ThreeAdvances() + ls);
    Sent(c, data, [RunPosted] + (ThreeAdvances() + ls));
    assert SendOnce(data) + ls == [Check, Push(data), Post] + ([RunPosted] + (ThreeAdvances() + ls));
  }

  function ThreeAdvances(): seq<Label> { [Advance, Advance, Advance] }

  /** A producer's three steps on an empty pipeline. */
  lemma {:induction false} Sent(c: State, data: seq<byte>, ls: seq<Label>)
    requires c.x.Ready() && c.posted == c.deciding == c.checked == 0 && data != [] && Blank(c.x.tx)
    requires Possible(WithTx(c, Filled(c.x.tx, data)).(posted := 1), ls)
    ensures Possible(c, [Check, Push(data), Post] + ls)
    ensures End(c, [Check, Push(data), Post] + ls) == End(WithTx(c, Filled(c.x.tx, data)).(posted := 1), ls)
  {
    var c1, c2 := c.(checked := 1), WithTx(c, Filled(c.x.tx, data)).(deciding := 1);
    assert [] + data == data;
    assert Append(c.x.tx, data) == Filled(c.x.tx, data);
    Prepend(c2, Post, ls);
    assert Next(c1, Push(data)) == c2;
    Prepend(c1, Push(data), [Post] + ls);
    Prepend(c, Check, [Push(data)] + ([Post] + ls));
    assert [Check, Push(data), Post] + ls == [Check] + ([Push(data)] + ([Post] + ls));
  }

  /** A `trySend` that finds only the main buffer filled swaps it in and requests all of it. */
  lemma {:induction false} Requested(c: State, ls: seq<Label>)
    requires c.x.Ready() && c.io == On(Try, Bottom) && !c.x.tx.sending
    requires c.x.tx.main != [] && c.x.tx.flush == []
    requires Possible(WithTx(c, Issue(Swap(c.x.tx))).(io := Bottom), ls)
    ensures Possible(c, ThreeAdvances() + ls)
    ensures End(c, ThreeAdvances() + ls) == End(WithTx(c, Issue(Swap(c.x.tx))).(io := Bottom), ls)
  {
    var c1, c2 := c.(io := On(SwapIn, Bottom)), WithTx(c, Swap(c.x.tx)).(io := On(Start, Bottom));
    assert Next(c2, Advance) == WithTx(c, Issue(Swap(c.x.tx))).(io := Bottom);
    Prepend(c2, Advance, ls);
    assert Next(c1, Advance) == c2;
    Prepend(c1, Advance, [Advance] + ls);
    Prepend(c, Advance, [Advance] + ([Advance] + ls));
    assert ThreeAdvances() + ls == [Advance] + ([Advance] + ([Advance] + ls));
  }
}
