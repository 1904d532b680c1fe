/**
 The TCP client object: the send pipeline with the client's own write request, and its asynchronous connect.
 `log` records the connection callbacks and the start of a read; the receive loop is the session's and is not
 repeated here.
 */
module TcpClient {
  import opened SessionCore
  import opened AtomicSession
  import opened SendPipeline

  datatype Event = OnConnect | OnDisconnect | OnEmpty | StartsReading

  class Client {
    const out: Pipeline
    var connecting: bool
    var connected: bool
    var log: seq<Event>

    /** The client as a session that asks for its writes from cell 0. */
    ghost function View(): Session
      reads this, out
    {
      Session(connected, true, out.View(), NewSession(false).rx)
    }

    constructor ()
      ensures fresh(out) && out.View() == EMPTY_TX.(resume := false)
      ensures !connected && !connecting && log == []
    {
      out := new Pipeline(false);
      connecting, connected, log := false, false, [];
    }

    /** The handler that `connectAsync` posts; `started` tells that an asynchronous connect was requested. */
    method ConnectHandler() returns (started: bool)
      modifies this`connecting
      ensures started <==> !connected && !old(connecting)
      ensures connecting == (old(connecting) || started)
    {
      if connected || connecting {
        return false;
      }
      connecting := true;
      return true;
    }

    /** The connect completion, which calls `onConnect` twice on success, before and after it starts to read. */
    method ConnectCompleted(err: bool)
      modifies this, out
      ensures !connecting && connected == (old(connected) || !err)
      ensures out.View() ==
        if old(connected) || err then old(out.View()) else old(out.View()).(flying := 0, sent := 0, pending := 0)
      ensures log == old(log) +
        (if old(connected) then []
         else if err then [OnDisconnect]
         else [OnConnect, StartsReading, OnConnect] + if old(out.main) == [] then [OnEmpty] else [])
    {
      connecting := false;
      if connected || connecting {
        return;
      }
      if err {
        log := log + [OnDisconnect];
        return;
      }
      out.ResetCounters();
      connected := true;
      log := log + [OnConnect];
      log := log + [StartsReading];
      log := log + [OnConnect];
      if out.main == [] {
        log := log + [OnEmpty];
      }
    }

    /** Unlike the session, the client refuses an empty buffer. */
    method SendAsync(data: seq<byte>) returns (ok: bool, wake: bool)
      modifies out
      ensures View() == AtomicSession.SendAsync(old(View()), data)
      ensures ok <==> Takes(old(View()), data)
      ensures wake <==> Wakes(old(View()), data)
      ensures ok ==>
        && out.main == old(out.main) + data && out.accepted == old(out.accepted) + data
        && out.pending == |out.main| && (wake <==> old(out.main == [] || out.flush == []))
      ensures !ok ==> !wake && out.View() == old(out.View())
    {
      if !connected || |data| == 0 {
        return false, false;
      }
      ok, wake := out.Append(data);
    }

    method TrySend()
      modifies out
      ensures View() == AtomicSession.TrySend(old(View()))
    {
      if out.sending || !connected {
        return;
      }
      out.TrySend();
    }

    /** On an error the client disconnects, except while it is connecting, when `disconnectAsync` refuses. */
    method WriteCompleted()
      requires out.write.Written?
      modifies this, out
      ensures
        var x := old(View());
        View() == if old(connecting && out.write.err) then WriteSettled(x) else WriteDone(x).(rx := x.rx)
      ensures log == old(log) + if old(connected && out.write.err && !connecting) then [OnDisconnect] else []
      ensures connecting == old(connecting)
    {
      var err, size := out.write.err, out.write.size;
      out.Retire();
      if !connected {
        return;
      }
      if size > 0 {
        out.Settle(size);
      }
      if !err {
        TrySend();
      } else {
        var _ := DisconnectAsync();
      }
    }

    /** `disconnectAsync` with dispatch, called on the I/O thread. */
    method DisconnectAsync() returns (ok: bool)
      modifies this, out
      ensures ok <==> old(connected && !connecting)
      ensures View() == if ok then Disconnected(old(View())).(rx := old(View()).rx) else old(View())
      ensures log == old(log) + if ok then [OnDisconnect] else []
      ensures connecting == old(connecting)
    {
      if !connected || connecting {
        return false;
      }
      Disconnect();
      return true;
    }

    method Disconnect()
      modifies this, out
      ensures View() == Disconnected(old(View())).(rx := old(View()).rx)
      ensures log == if old(connected) then old(log) + [OnDisconnect] else old(log)
      ensures connecting == (old(connecting) && !old(connected))
    {
      if !connected {
        return;
      }
      connecting, connected := false, false;
      out.StopSending();
      out.ClearBuffs();
      log := log + [OnDisconnect];
    }
  }
}
