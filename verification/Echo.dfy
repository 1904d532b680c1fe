/**
 The echo session: `onReceive` sends back what it got, and nobody else sends.  It is the receive loop composed
 with the send pipeline, still under every interleaving of handlers, partial reads and partial writes.
 */
module Echo {
  import opened SessionCore
  import opened Interleaving
  import opened Delivery

  /** Only the echo itself sends, and the send limit stays unset. */
  predicate EchoEnabled(s: State, l: Label) {
    Enabled(s, l) && !l.Check? && !l.Push? && !l.UserSend? && !l.SetLimits?
  }

  predicate HandsOver(s: State, l: Label)
    requires Enabled(s, l)
  {
    l.RunRead? && Next(s, l).io.On? && Next(s, l).io.top.InReceive?
  }

  /** A read completion that calls `onReceive` sends the chunk from inside that callback. */
  function EchoNext(s: State, l: Label): State
    requires EchoEnabled(s, l)
  {
    if HandsOver(s, l) then Next(Next(s, l), UserSend(s.x.rx.op.chunk)) else Next(s, l)
  }

  predicate EchoPossible(s: State, ls: seq<Label>)
    decreases |ls|
  {
    ls == [] || (EchoEnabled(s, ls[0]) && EchoPossible(EchoNext(s, ls[0]), ls[1..]))
  }

  function EchoEnd(s: State, ls: seq<Label>): State
    requires EchoPossible(s, ls)
    decreases |ls|
  {
    if ls == [] then s else EchoEnd(EchoNext(s, ls[0]), ls[1..])
  }

  /** What was accepted for sending is what was handed to `onReceive`. */
  ghost predicate EchoInv(s: State) {
    && Inv(s)
    && NobodyElse(s)
    && s.x.tx.accepted == s.x.rx.delivered
  }

  predicate NobodyElse(s: State) { s.x.tx.limit == 0 && s.checked == 0 && s.deciding == 0 && s.posted == 0 }

  /** What one step of the session hands to `onReceive`. */
  function HandedBy(s: State, l: Label): seq<byte> {
    if l.RunRead? && s.x.Ready() && s.x.rx.op.Arrived? then s.x.rx.op.chunk else []
  }

  lemma {:induction false} BaseStep(s: State, l: Label)
    requires EchoEnabled(s, l) && NobodyElse(s)
    ensures NobodyElse(Next(s, l))
    ensures Next(s, l).x.tx.accepted == s.x.tx.accepted
    ensures Next(s, l).x.rx.delivered == s.x.rx.delivered + HandedBy(s, l)
  {
    StepAccepted(s, l);
    StepDelivered(s, l);
    StaysAlone(s, l);
  }

  lemma {:induction false} StaysAlone(s: State, l: Label)
    requires EchoEnabled(s, l) && NobodyElse(s)
    ensures NobodyElse(Next(s, l)) && OfferedBy(s, l) == []
  {
    match l
    case Advance =>
    case Return =>
    case _ =>
  }

  lemma {:induction false} StepDelivered(s: State, l: Label)
    requires Enabled(s, l)
    ensures Next(s, l).x.rx.delivered == s.x.rx.delivered + HandedBy(s, l)
  {
    assert s.x.rx.delivered + [] == s.x.rx.delivered;
    match l
    case Advance =>
    case Return =>
    case _ =>
  }

  lemma {:induction false} EchoStep(s: State, l: Label)
    requires EchoInv(s) && EchoEnabled(s, l)
    ensures EchoInv(EchoNext(s, l))
    ensures EchoNext(s, l).x.rx.inbound == s.x.rx.inbound + (if l.Came? then l.chunk else [])
  {
    NextOk(s, l);
    BaseStep(s, l);
    StepInbound(s, l);
    if HandsOver(s, l) {
      EchoRead(s);
    } else if l.RunRead? {
      assert s.x.Ready() ==> s.x.rx.op.chunk == [];
      assert s.x.rx.delivered + [] == s.x.rx.delivered;
    }
  }

  lemma {:induction false} EchoRead(s: State)
    requires EchoInv(s) && EchoEnabled(s, RunRead) && HandsOver(s, RunRead)
    ensures EchoInv(EchoNext(s, RunRead))
    ensures EchoNext(s, RunRead).x.rx.inbound == Next(s, RunRead).x.rx.inbound
  {
    var s' := Next(s, RunRead);
    NextOk(s, RunRead);
    BaseStep(s, RunRead);
    var l := UserSend(s.x.rx.op.chunk);
    NextOk(s', l);
    StepInbound(s', l);
    StepAccepted(s', l);
  }

  lemma {:induction false} EchoRun(s: State, ls: seq<Label>)
    requires EchoInv(s) && EchoPossible(s, ls)
    ensures EchoInv(EchoEnd(s, ls))
    ensures EchoEnd(s, ls).x.rx.inbound == s.x.rx.inbound + Produced(ls)
    decreases |ls|
  {
    if ls == [] {
      assert s.x.rx.inbound + [] == s.x.rx.inbound;
    } else {
      EchoStep(s, ls[0]);
      EchoRun(EchoNext(s, ls[0]), ls[1..]);
      Assoc(s.x.rx.inbound, if ls[0].Came? then ls[0].chunk else [], Produced(ls[1..]));
    }
  }

  /**
   In every run of an echo session the bytes it wrote are a prefix of the bytes it was handed, which are a
   prefix of the bytes its peer sent.  Whenever the session is ready, no write is outstanding and its I/O
   thread is idle, it has written back everything it was handed; with no chunk waiting, everything it was sent.
   */
  lemma {:induction false} EchoesFaithfully(ssl: bool, room: nat, receiveLimit: nat, ls: seq<Label>)
    requires EchoPossible(Init(ssl, room, 0, receiveLimit), ls)
    ensures
      var e := EchoEnd(Init(ssl, room, 0, receiveLimit), ls);
      && e.x.tx.wire <= e.x.rx.delivered <= Produced(ls)
      && (e.x.Ready() && e.x.tx.op == NoWrite && e.io == Bottom ==>
            && e.x.tx.wire == e.x.rx.delivered
            && (!e.x.rx.op.Arrived? ==> e.x.tx.wire == Produced(ls)))
  {
    var s := Init(ssl, room, 0, receiveLimit);
    InitOk(ssl, room, 0, receiveLimit);
    EchoRun(s, ls);
    var e := EchoEnd(s, ls);
    assert e.x.rx.inbound == Produced(ls);
    if e.x.Ready() && e.x.tx.op == NoWrite && e.io == Bottom {
      assert e.x.tx.flush == [] && e.x.tx.main == [];
      assert e.x.tx.wire + [] + [] == e.x.tx.wire;
      assert e.x.rx.delivered + [] == e.x.rx.delivered;
    }
  }
}
