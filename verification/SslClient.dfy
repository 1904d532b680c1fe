/**
 The SSL client object: its flags, operations and queue updated in place, proved against the connection machine.
 */
module SslClient {
  import opened SslClientMachine

  class Client {
    var connecting: bool
    var connected: bool
    var handshaking: bool
    var handshaked: bool
    var connects: nat
    var handshakes: nat
    var shutdowns: nat
    var transfers: nat
    var queue: seq<Handler>
    var era: Era

    ghost function View(): SslClientMachine.Client
      reads this
    {
      SslClientMachine.Client(connecting, connected, handshaking, handshaked,
                              connects, handshakes, shutdowns, transfers, queue, era)
    }

    constructor ()
      ensures View() == INIT
    {
      connecting, connected, handshaking, handshaked := false, false, false, false;
      connects, handshakes, shutdowns, transfers, queue, era := 0, 0, 0, 0, [], 0;
    }

    method ResetStream()
      modifies this
      ensures View() == DropStream(old(View()))
    {
      queue := queue + Repeat(ConnectDone(true), connects) + Repeat(HandshakeDone(true), handshakes)
        + Repeat(ShutdownDone(era), shutdowns) + Repeat(IoFailed(era), transfers);
      connects, handshakes, shutdowns, transfers := 0, 0, 0, 0;
    }

    method Disconnect() returns (ok: bool)
      modifies this
      ensures View() == Next(old(View()), SslClientMachine.Disconnect)
      ensures ok <==> old(MayDisconnect(View()))
    {
      if !connected || connecting || handshaking {
        return false;
      }
      handshaked := false;
      handshaking := false;
      ResetStream();
      connecting := false;
      connected := false;
      return true;
    }

    method DisconnectAsync() returns (ok: bool)
      modifies this
      ensures View() == Next(old(View()), SslClientMachine.DisconnectAsync)
      ensures ok <==> old(MayDisconnect(View()))
    {
      if !connected || connecting || handshaking {
        return false;
      }
      queue := queue + [DisconnectH(era)];
      return true;
    }

    /** The handler of `disconnectAsync`, which error paths also run directly. */
    method DisconnectHandler()
      modifies this
      ensures View() == ShuttingDown(old(View()))
    {
      if !connected || connecting || handshaking {
        return;
      }
      queue := queue + Repeat(IoFailed(era), transfers);
      transfers := 0;
      shutdowns := shutdowns + 1;
    }

    method Connect(outcome: Outcome) returns (ok: bool)
      modifies this
      ensures View() == Next(old(View()), SslClientMachine.Connect(outcome))
      ensures ok <==> old(Idle(View())) && outcome.Established?
    {
      if connected || handshaked || handshaking || connecting {
        return false;
      }
      ResetStream();
      if outcome.Refused? {
        return false;
      }
      era := era + 1;
      connected := true;
      if outcome.BadHandshake? {
        return false;
      }
      handshaked := true;
      return true;
    }

    method ConnectAsync() returns (ok: bool)
      modifies this
      ensures View() == Next(old(View()), SslClientMachine.ConnectAsync)
      ensures ok <==> old(Idle(View()))
    {
      if connected || handshaked || handshaking || connecting {
        return false;
      }
      ResetStream();
      queue := queue + [ConnectH];
      return true;
    }

    method ConnectHandler()
      modifies this
      ensures View() == RunHandler(old(View()), ConnectH, false)
    {
      if connected || handshaked || handshaking || connecting {
        return;
      }
      connecting := true;
      connects := connects + 1;
    }

    method ConnectEndpoint(err: bool, onConnectDisconnects: bool)
      modifies this
      ensures View() == RunHandler(old(View()), ConnectDone(err), onConnectDisconnects)
    {
      connecting := false;
      if connected || handshaked || handshaking || connecting {
        return;
      }
      if err {
        return;
      }
      connected := true;
      era := era + 1;
      if onConnectDisconnects {
        var _ := Disconnect();
      }
      handshaking := true;
      handshakes := handshakes + 1;
    }

    method HandshakeCompleted(err: bool)
      modifies this
      ensures View() == RunHandler(old(View()), HandshakeDone(err), false)
    {
      handshaking := false;
      if handshaked {
        return;
      }
      if err {
        DisconnectHandler();
        return;
      }
      handshaked := true;
      if connected {
        transfers := transfers + 1;
      }
    }
  }
}
