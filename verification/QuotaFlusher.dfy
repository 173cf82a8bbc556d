/** The flush loop itself, with other goroutines' grants and finishes landing while a save is in flight. */
module QuotaFlusher {
  import opened Wrappers
  import M = QuotaModel
  import D = QuotaDurability
  import opened QuotaLedger

  /** A critical section of another goroutine. */
  datatype Event = Grant(req: M.Request) | Settle(r: M.Reservation, written: int)

  predicate EventOk(e: Event) { e.Settle? ==> e.r.bytes >= 0 }

  /** One save: what other goroutines do while it runs, the store's answer, and
      whether a failed write landed anyway. */
  datatype SaveTurn = SaveTurn(events: seq<Event>, saved: bool, landed: bool, failedAt: M.Time)

  datatype FlushEnd = Drained | Failed | StillSaving

  /** Other goroutines' sections; the flusher holds the guard, so none of them starts another flush. */
  method Meanwhile(ledger: Ledger, events: seq<Event>, ghost covered: M.Content)
    requires ledger.hasStore && ledger.flushing && D.MemoryOk(ledger.View())
    requires !ledger.flushPending ==> D.Covers(covered, ledger.View())
    requires forall i :: 0 <= i < |events| ==> EventOk(events[i])
    modifies ledger
    ensures ledger.flushing && D.MemoryOk(ledger.View()) && ledger.flushErr == old(ledger.flushErr)
    ensures !ledger.flushPending ==> D.Covers(covered, ledger.View())
  {
    hide D.MemoryOk, D.Covers, M.GrantedUsage, M.Granting, M.RaisesFlush, M.Reserved, M.Finish;
    for i := 0 to |events|
      invariant ledger.flushing && D.MemoryOk(ledger.View()) && ledger.flushErr == old(ledger.flushErr)
      invariant !ledger.flushPending ==> D.Covers(covered, ledger.View())
    {
      match events[i]
      case Grant(req) =>
        D.GrantKeeps(ledger.View(), req, true);
        if !ledger.flushPending { StillCovered(covered, ledger.View(), req); }
        var granted, start := ledger.GrantLocked(req);
        assert !start;
      case Settle(r, written) =>
        assert EventOk(events[i]);
        D.FinishKeeps(ledger.View(), r, written);
        D.FinishShape(ledger.View(), r, written);
        if !ledger.flushPending { D.SameWatermarkCovers(covered, ledger.View(), M.Finish(ledger.View(), r, written)); }
        var reservation := new QuotaReservation(ledger, r);
        reservation.Finish(written);
    }
  }

  lemma StillCovered(c: M.Content, m: M.Memory, req: M.Request)
    requires D.Covers(c, m) && D.MemoryOk(m)
    ensures !M.AfterGrant(m, req, true).flushPending ==> D.Covers(c, M.AfterGrant(m, req, true))
  {
    hide D.Covers, D.MemoryOk;
    if !M.AfterGrant(m, req, true).flushPending { D.GrantKeepsCover(c, m, req); }
  }

  lemma SnapshotCovers(m: M.Memory, m': M.Memory)
    requires D.MemoryOk(m) && m'.states == m.states
    ensures D.MemoryOk(m') && D.Covers(M.DurableContent(m), m')
  {
    D.OwnContentCovers(m);
    D.CoverIgnoresFlags(M.DurableContent(m), m, m');
  }

  /** Saves until nothing is pending.  When it reports a drained queue, the store
      covers the whole in-memory watermark, whatever other goroutines did during the saves;
      when a save fails, the error gates what follows and the guard is free again.
      A script that ends first leaves the flusher at work; the unbounded loop is
      the run of RoundTop and save steps of QuotaMachine. */
  method RunFlush(ledger: Ledger, onDisk: M.Content, script: seq<SaveTurn>) returns (how: FlushEnd, stored: M.Content)
    requires ledger.hasStore && ledger.flushing && D.MemoryOk(ledger.View())
    requires !ledger.flushPending ==> D.Covers(onDisk, ledger.View())
    requires forall i :: 0 <= i < |script| ==> forall j :: 0 <= j < |script[i].events| ==> EventOk(script[i].events[j])
    modifies ledger
    ensures D.MemoryOk(ledger.View())
    ensures how.Drained? ==>
      !ledger.flushing && !ledger.flushErr && !ledger.flushPending && D.Covers(stored, ledger.View())
    ensures how.Failed? ==> !ledger.flushing && ledger.flushErr
    ensures how.StillSaving? ==> ledger.flushing
    ensures how.Drained? && !old(ledger.flushPending) ==> stored == onDisk
  {
    hide D.MemoryOk, D.Covers, M.DurableContent;
    stored := onDisk;
    for i := 0 to |script|
      invariant ledger.flushing && D.MemoryOk(ledger.View())
      invariant !ledger.flushPending ==> D.Covers(stored, ledger.View())
      invariant i == 0 ==> stored == onDisk && ledger.flushPending == old(ledger.flushPending)
      invariant !old(ledger.flushPending) ==> i == 0
    {
      ghost var before := ledger.View();
      var snapshot := ledger.RoundTop();
      D.CoverIgnoresFlags(stored, before, ledger.View());
      if snapshot.None? { return Drained, stored; }
      SnapshotCovers(before, ledger.View());
      Meanwhile(ledger, script[i].events, snapshot.value);
      if !script[i].saved {
        before := ledger.View();
        ledger.SaveFailed(script[i].failedAt);
        D.CoverIgnoresFlags(stored, before, ledger.View());
        return Failed, if script[i].landed then snapshot.value else stored;
      }
      stored := snapshot.value;
    }
    how := StillSaving;
  }
}
