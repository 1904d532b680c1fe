/**
 The state of one TCP or SSL session, and the effect of each fragment of its handlers.

 A session is split into its send half (`Tx`) and its receive half (`Rx`).  Every function below is one
 fragment that the C++ code runs without releasing control: a region under `_send_lock`, or a run of
 unlocked statements of one handler.  The interleaving machine takes these fragments as its steps, and the
 atomic handlers of the session class are compositions of them.

 `accepted`, `wire`, `inbound` and `delivered` are history: the bytes `sendAsync` accepted, the bytes the
 socket took, the bytes the socket produced and the bytes handed to `onReceive`.
 */
module SessionCore {

  newtype byte = x: int | 0 <= x < 256

  /** The one asynchronous write of a session: requested, or finished with its completion not yet handled. */
  datatype WriteOp = NoWrite | Writing(start: nat, data: seq<byte>) | Written(err: bool, size: nat)

  /** The one asynchronous read of a session. */
  datatype ReadOp = NoRead | Reading(room: nat) | Arrived(err: bool, chunk: seq<byte>)

  /** The last of the callbacks `onSend` and `onEmpty` that was made. */
  datatype Notice = Fresh | SentSome | RanEmpty

  /** The send half.  `resume` says whether a write is requested from `offset` (the session) or from 0 (the client). */
  datatype Tx = Tx(
    main: seq<byte>, flush: seq<byte>, offset: nat, sending: bool,
    pending: nat, flying: int, sent: nat, limit: nat, resume: bool,
    op: WriteOp, notice: Notice, accepted: seq<byte>, wire: seq<byte>)

  /** The receive half.  `room` is the size of the receive buffer; `initial` and `doublings` are its history. */
  datatype Rx = Rx(
    receiving: bool, room: nat, limit: nat, received: nat, op: ReadOp,
    inbound: seq<byte>, delivered: seq<byte>, initial: nat, doublings: nat)

  datatype Session = Session(connected: bool, handshaked: bool, tx: Tx, rx: Rx) {
    /** `isConnectionComplete`: a TCP session is modelled with `handshaked` set from the start. */
    predicate Ready() { connected && handshaked }
  }

  // ---------------------------------------------------------------- send fragments

  const EMPTY_TX := Tx([], [], 0, false, 0, 0, 0, 0, true, NoWrite, Fresh, [], [])

  predicate Accepts(t: Tx, data: seq<byte>) {
    !(|t.main| + |data| > t.limit && t.limit > 0)
  }

  /** `multiple_sends`: the producer that appends must also schedule `trySend`. */
  predicate MustWake(t: Tx) { t.main == [] || t.flush == [] }

  function Append(t: Tx, data: seq<byte>): Tx {
    t.(main := t.main + data, pending := |t.main + data|, accepted := t.accepted + data)
  }

  function Swap(t: Tx): Tx {
    t.(flush := t.main, main := t.flush, offset := 0, pending := 0, flying := t.flying + |t.main|)
  }

  /** The cells of a vector from `i` on; a pointer past the end designates no cells. */
  function From(s: seq<byte>, i: nat): seq<byte> { if i <= |s| then s[i..] else [] }

  function Issue(t: Tx): Tx {
    var start := if t.resume then t.offset else 0;
    t.(sending := true, op := Writing(start, From(t.flush, start)))
  }

  /** The socket takes `n` bytes out of the memory the request points at, as that memory is now. */
  function Transfer(t: Tx, err: bool, n: nat): Tx
    requires t.op.Writing?
  {
    var memory := From(t.flush, t.op.start);
    t.(op := Written(err, n), wire := t.wire + (if n <= |memory| then memory[..n] else []))
  }

  /** The completion handler starts: the operation is over. */
  function Retire(t: Tx): Tx { t.(op := NoWrite, sending := false) }

  /** The completion handler accounts for `size` bytes and empties a flush buffer that is fully written. */
  function Acknowledge(t: Tx, size: nat): Tx {
    var t' := t.(flying := t.flying - size, sent := t.sent + size, notice := SentSome);
    if t.offset + size == |t.flush| then t'.(flush := [], offset := 0) else t'.(offset := t.offset + size)
  }

  function ClearBuffs(t: Tx): Tx {
    t.(main := [], flush := [], offset := 0, pending := 0, flying := 0)
  }

  // ---------------------------------------------------------------- receive fragments

  function Arm(x: Session): Session {
    if x.rx.receiving || !x.Ready() then x
    else x.(rx := x.rx.(receiving := true, op := Reading(x.rx.room)))
  }

  function Arrive(r: Rx, err: bool, chunk: seq<byte>): Rx {
    r.(op := Arrived(err, chunk), inbound := r.inbound + chunk)
  }

  function RetireRead(r: Rx): Rx { r.(op := NoRead, receiving := false) }

  function Deliver(r: Rx, chunk: seq<byte>): Rx {
    r.(received := r.received + |chunk|, delivered := r.delivered + chunk)
  }

  predicate OverLimit(r: Rx, size: nat) { size * 2 > r.limit && r.limit > 0 }

  function Grow(r: Rx, size: nat): Rx {
    r.(room := size * 2, doublings := r.doublings + 1)
  }

  /** `setSendBuffLimit` and `setReceiveBuffLimit`; 0 is no limit. */
  function Limited(x: Session, sendLimit: nat, receiveLimit: nat): Session {
    x.(tx := x.tx.(limit := sendLimit), rx := x.rx.(limit := receiveLimit))
  }

  /** The disconnect handler closes the socket and drops the flags; `ClearBuffs` follows under the lock. */
  function Hang(x: Session): Session {
    x.(connected := false, tx := x.tx.(sending := false), rx := x.rx.(receiving := false))
  }

  // ---------------------------------------------------------------- what every fragment keeps

  /**
   The send half is consistent.  `owed` is the number of bytes the socket took that the completion handler has
   not accounted for yet.  While the session is live, the accepted bytes are exactly the wire, then the rest of
   the flush buffer, then the main buffer; afterwards the wire is still a prefix of what was accepted.
   */
  ghost predicate TxOk(live: bool, t: Tx, owed: nat) {
    && t.resume
    && t.offset <= |t.flush|
    && (t.flush != [] ==> t.offset < |t.flush|)
    && t.pending == |t.main|
    && t.flying == |t.flush| - t.offset
    && t.wire <= t.accepted
    && (t.notice.Fresh? ==> t.sent == 0)
    && (live ==>
          && t.sent + owed == |t.wire|
          && t.offset + owed <= |t.flush|
          && t.accepted == t.wire + t.flush[t.offset + owed..] + t.main
          && (t.sending <==> t.op != NoWrite)
          && (t.op.Writing? ==>
                owed == 0 && t.flush != [] && t.op.start == t.offset && t.op.data == t.flush[t.offset..])
          && (t.op.Written? ==> owed == t.op.size && t.flush != []))
  }

  function Pow2(k: nat): nat { if k == 0 then 1 else 2 * Pow2(k - 1) }

  /** The chunk that arrived and was not handed over yet. */
  function Undelivered(r: Rx): seq<byte> { if r.op.Arrived? then r.op.chunk else [] }

  ghost predicate RxOk(live: bool, r: Rx) {
    && r.room == r.initial * Pow2(r.doublings)
    && r.received == |r.delivered|
    && r.delivered <= r.inbound
    && |Undelivered(r)| <= r.room
    && (live ==>
          && (r.receiving <==> r.op != NoRead)
          && (r.op.Reading? ==> r.op.room == r.room)
          && r.inbound == r.delivered + Undelivered(r))
  }

  lemma AppendOk(live: bool, t: Tx, owed: nat, data: seq<byte>)
    requires TxOk(live, t, owed)
    ensures TxOk(live, Append(t, data), owed)
  {
    if live {
      var rest := t.flush[t.offset + owed..];
      assert t.wire + rest + (t.main + data) == (t.wire + rest + t.main) + data;
    }
  }

  lemma SwapOk(live: bool, t: Tx)
    requires TxOk(live, t, 0) && t.flush == [] && !t.sending
    ensures TxOk(live, Swap(t), 0)
  {
    if live {
      assert t.wire + t.flush[t.offset..] + t.main == t.wire + t.main[0..] + [];
    }
  }

  lemma IssueOk(live: bool, t: Tx)
    requires TxOk(live, t, 0) && t.flush != [] && !t.sending
    ensures TxOk(live, Issue(t), 0)
  {
  }

  lemma TransferOk(live: bool, t: Tx, err: bool, n: nat)
    requires TxOk(live, t, 0) && t.op.Writing? && n <= |t.op.data|
    requires !live ==> n == 0
    ensures TxOk(live, Transfer(t, err, n), n)
  {
    if live {
      MoveBytes(t.wire, t.flush, t.main, t.offset, n);
    } else {
      assert t.wire + [] == t.wire;
    }
  }

  /** The first `n` bytes from `offset` on go from the buffer to the wire. */
  lemma MoveBytes(wire: seq<byte>, flush: seq<byte>, main: seq<byte>, offset: nat, n: nat)
    requires offset + n <= |flush|
    ensures
      var moved := wire + flush[offset..][..n];
      && moved + flush[offset + n..] + main == wire + flush[offset..] + main
      && |moved| == |wire| + n
      && moved <= wire + flush[offset..] + main
  {
    assert flush[offset..] == flush[offset..][..n] + flush[offset + n..];
  }

  lemma RetireOk(live: bool, t: Tx, owed: nat)
    requires TxOk(live, t, owed) && t.op.Written?
    ensures TxOk(live, Retire(t), owed)
  {
  }

  lemma AcknowledgeOk(live: bool, t: Tx, size: nat)
    requires TxOk(live, t, size) && live && t.op == NoWrite
    ensures TxOk(live, Acknowledge(t, size), 0)
  {
    var t' := Acknowledge(t, size);
    assert t'.flush[t'.offset..] == t.flush[t.offset + size..];
  }

  lemma HangOk(t: Tx, owed: nat)
    requires TxOk(true, t, owed)
    ensures TxOk(false, t.(sending := false), 0)
    ensures TxOk(false, ClearBuffs(t.(sending := false)), 0)
  {
  }
}
