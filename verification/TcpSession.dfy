/**
 The session object: flags, receive buffer and send pipeline updated in place by its methods and completion
 handlers.  Each is proved against the value functions of AtomicSession, whose properties the other modules
 prove.  `read` is the read operation requested from the socket.
 */
module TcpSession {
  import opened SessionCore
  import opened AtomicSession
  import opened SendPipeline

  class Session {
    const out: Pipeline
    var connected: bool
    var handshaked: bool
    var receiving: bool
    var room: nat
    var receiveLimit: nat
    var received: nat
    var read: ReadOp
    ghost var inbound: seq<byte>
    ghost var delivered: seq<byte>
    ghost var initial: nat
    ghost var doublings: nat

    ghost function Receiving(): Rx
      reads this
    {
      Rx(receiving, room, receiveLimit, received, read, inbound, delivered, initial, doublings)
    }

    ghost function View(): SessionCore.Session
      reads this, out
    {
      SessionCore.Session(connected, handshaked, out.View(), Receiving())
    }

    constructor (ssl: bool)
      ensures fresh(out) && View() == NewSession(ssl)
    {
      out := new Pipeline(true);
      connected, handshaked := false, !ssl;
      receiving, room, receiveLimit, received, read := false, 0, 0, 0, NoRead;
      inbound, delivered, initial, doublings := [], [], 0, 0;
    }

    predicate IsConnectionComplete()
      reads this
    {
      connected && handshaked
    }

    method Connect(socketRoom: nat)
      modifies this, out
      ensures View() == Connected(old(View()), socketRoom)
    {
      SizeBuffer(socketRoom);
      out.ResetCounters();
      connected := true;
      TryReceive();
    }

    /** The receive buffer takes the size of the socket's, and its counter starts over. */
    method SizeBuffer(socketRoom: nat)
      modifies this
      ensures Receiving() == old(Receiving()).(room := socketRoom, received := 0, initial := socketRoom, doublings := 0)
      ensures connected == old(connected) && handshaked == old(handshaked)
    {
      room, received := socketRoom, 0;
      initial, doublings := socketRoom, 0;
    }

    /** `hangUp` tells that a disconnect handler is posted. */
    method HandshakeCompleted(ok: bool) returns (hangUp: bool)
      modifies this
      ensures View() == HandshakeDone(old(View()), ok)
      ensures hangUp <==> !old(handshaked) && !ok && old(connected)
    {
      if handshaked {
        return false;
      }
      if !ok {
        return connected;
      }
      handshaked := true;
      TryReceive();
      return false;
    }

    method SetReceiveBuffLimit(limit: nat)
      modifies this`receiveLimit
      ensures View() == Limited(old(View()), old(out.limit), limit)
    {
      receiveLimit := limit;
    }

    method SetSendBuffLimit(limit: nat)
      modifies out
      ensures View() == Limited(old(View()), limit, old(receiveLimit))
    {
      out.SetLimit(limit);
    }

    /** `wake` tells the caller to dispatch `TrySend`. */
    method SendAsync(data: seq<byte>) returns (ok: bool, wake: bool)
      modifies out
      ensures View() == AtomicSession.SendAsync(old(View()), data)
      ensures ok <==> IsConnectionComplete() && (data == [] || Accepts(old(out.View()), data))
      ensures wake <==> Wakes(old(View()), data)
      ensures ok && data != [] ==>
        && out.main == old(out.main) + data && out.accepted == old(out.accepted) + data
        && out.pending == |out.main| && (wake <==> old(out.main == [] || out.flush == []))
      ensures !ok || data == [] ==> !wake && out.View() == old(out.View())
    {
      if !IsConnectionComplete() {
        return false, false;
      }
      if |data| == 0 {
        return true, false;
      }
      ok, wake := out.Append(data);
    }

    method TrySend()
      modifies out
      ensures View() == AtomicSession.TrySend(old(View()))
    {
      if out.sending || !IsConnectionComplete() {
        return;
      }
      out.TrySend();
    }

    method WriteCompleted()
      requires out.write.Written?
      modifies this, out
      ensures View() == WriteDone(old(View()))
    {
      var err, size := out.write.err, out.write.size;
      out.Retire();
      if !IsConnectionComplete() {
        return;
      }
      if size > 0 {
        out.Settle(size);
      }
      if !err {
        TrySend();
      } else {
        DisconnectHandler();
      }
    }

    method TryReceive()
      modifies this
      ensures View() == Arm(old(View()))
      ensures !old(receiving) && IsConnectionComplete() ==> receiving && read == Reading(room)
    {
      if receiving || !IsConnectionComplete() {
        return;
      }
      receiving := true;
      read := Reading(room);
    }

    method ReadCompleted()
      requires read.Arrived?
      modifies this, out
      ensures View() == ReadDone(old(View()))
    {
      var err, chunk := read.err, read.chunk;
      var size := |chunk|;
      read := NoRead;
      receiving := false;
      if !IsConnectionComplete() {
        return;
      }
      if size > 0 {
        HandOver(chunk);
        if room == size {
          if size * 2 > receiveLimit && receiveLimit > 0 {
            DisconnectHandler();
            return;
          }
          room := size * 2;
          doublings := doublings + 1;
        }
      }
      if !err {
        TryReceive();
      } else {
        DisconnectHandler();
      }
    }

    /** The chunk is counted and given to `onReceive`. */
    method HandOver(chunk: seq<byte>)
      modifies this
      ensures Receiving() == Deliver(old(Receiving()), chunk)
      ensures connected == old(connected) && handshaked == old(handshaked)
    {
      received := received + |chunk|;
      delivered := delivered + chunk;
    }

    method DisconnectHandler()
      modifies this, out
      ensures View() == Disconnected(old(View()))
      ensures !connected
    {
      if !connected {
        return;
      }
      connected, receiving := false, false;
      out.StopSending();
      out.ClearBuffs();
    }
  }
}
