/**
 The send half of a session or of a client as an object: its buffers, offset, flag and counters, updated in
 place.  Both C++ classes hold these members themselves; they differ in where a write request starts (`resume`).
 `write` is the operation requested from the socket.
 */
module SendPipeline {
  import opened SessionCore
  import opened AtomicSession

  class Pipeline {
    const resume: bool
    var main: seq<byte>
    var flush: seq<byte>
    var offset: nat
    var sending: bool
    var pending: nat
    var flying: int
    var sent: nat
    var limit: nat
    var write: WriteOp
    ghost var notice: Notice
    ghost var accepted: seq<byte>
    ghost var wire: seq<byte>

    ghost function View(): Tx
      reads this
    {
      Tx(main, flush, offset, sending, pending, flying, sent, limit, resume, write, notice, accepted, wire)
    }

    constructor (resume: bool)
      ensures View() == EMPTY_TX.(resume := resume)
    {
      this.resume := resume;
      main, flush, offset, sending, pending, flying, sent, limit := [], [], 0, false, 0, 0, 0, 0;
      write := NoWrite;
      notice, accepted, wire := Fresh, [], [];
    }

    /** The locked region of `sendAsync`. */
    method Append(data: seq<byte>) returns (ok: bool, wake: bool)
      modifies this
      ensures ok <==> limit == 0 || old(|main|) + |data| <= limit
      ensures wake <==> ok && old(main == [] || flush == [])
      ensures ok ==> main == old(main) + data && accepted == old(accepted) + data && pending == |main|
      ensures View() == if ok then SessionCore.Append(old(View()), data) else old(View())
    {
      var multipleSends := main == [] || flush == [];
      if |main| + |data| > limit && limit > 0 {
        return false, false;
      }
      main := main + data;
      accepted := accepted + data;
      pending := |main|;
      return true, multipleSends;
    }

    /** `trySend` past its guard. */
    method TrySend()
      modifies this
      ensures
        var t := if old(flush) == [] then Swap(old(View())) else old(View());
        View() == if t.flush == [] then t.(notice := RanEmpty) else Issue(t)
      ensures old(flush) == [] ==> flush == old(main) && main == [] && offset == 0
      ensures old(flush) != [] ==> flush == old(flush) && main == old(main) && offset == old(offset)
      ensures flush != [] ==>
        var start := if resume then offset else 0;
        sending && write == Writing(start, From(flush, start))
    {
      if flush == [] {
        SwapBuffers();
      }
      if flush == [] {
        notice := RanEmpty;
        return;
      }
      sending := true;
      var start := if resume then offset else 0;
      write := Writing(start, From(flush, start));
    }

    /** The locked region of `trySend`. */
    method SwapBuffers()
      modifies this
      ensures View() == Swap(old(View()))
      ensures flush == old(main) && main == old(flush) && offset == 0
      ensures pending == 0 && flying == old(flying) + |flush|
    {
      flush, main := main, flush;
      offset := 0;
      pending := 0;
      flying := flying + |flush|;
    }

    /** The completion handler starts. */
    method Retire()
      modifies this
      ensures View() == SessionCore.Retire(old(View()))
    {
      write := NoWrite;
      sending := false;
    }

    /** The part of the write completion that accounts for `size` bytes. */
    method Settle(size: nat)
      modifies this
      ensures View() == Acknowledge(old(View()), size)
      ensures flying == old(flying) - size && sent == old(sent) + size
      ensures if old(offset) + size == old(|flush|) then flush == [] && offset == 0
              else flush == old(flush) && offset == old(offset) + size
    {
      flying := flying - size;
      sent := sent + size;
      offset := offset + size;
      if offset == |flush| {
        flush := [];
        offset := 0;
      }
      notice := SentSome;
    }

    method StopSending()
      modifies this
      ensures View() == old(View()).(sending := false)
    {
      sending := false;
    }

    method SetLimit(size: nat)
      modifies this
      ensures View() == old(View()).(limit := size)
    {
      limit := size;
    }

    method ClearBuffs()
      modifies this
      ensures View() == SessionCore.ClearBuffs(old(View()))
      ensures main == flush == [] && offset == pending == 0 && flying == 0 && sent == old(sent)
    {
      main, flush := [], [];
      offset, pending, flying := 0, 0, 0;
    }

    method ResetCounters()
      modifies this
      ensures View() == old(View()).(flying := 0, sent := 0, pending := 0)
    {
      flying, sent, pending := 0, 0, 0;
    }
  }
}
