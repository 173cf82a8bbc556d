/** One direction of a relayed TCP connection: read, wait, reserve quota, write,
    settle, report. */
module CopyLoop {
  import opened Wrappers
  import M = QuotaModel
  import opened QuotaLedger

  type Byte = bv8

  datatype Ending = More | Eof | Broken

  /** What the ledger answers: no reservation is needed, a reservation it has charged, or one of the two refusals. */
  datatype Answer = Unmetered | Grant(reservation: M.Reservation) | Exceeded | StateLost

  /** One turn of the loop as its surroundings decide it. */
  datatype Turn = Turn(data: seq<Byte>, ending: Ending, limiterOk: bool, trafficOk: bool, answer: Answer, wrote: nat, writeOk: bool)
  {
    function Allowed(): int { if answer.Grant? then answer.reservation.bytes else |data| }

    /** The quota grants some of what is asked or refuses; a writer takes at most what it is given. */
    predicate Ok(metered: bool)
    {
      data != [] ==> answer.Unmetered? == !metered && (answer.Grant? ==> 1 <= Allowed() <= |data|) && wrote <= Allowed()
    }
  }

  datatype Outcome = Copying | Copied | LimitStopped | QuotaExceeded | QuotaStateLost | WriteFailed | ShortWrite | ReadFailed

  /** How a turn ends the copy; Copying when it does not. */
  function Ends(t: Turn): Outcome
  {
    var failed := if t.data == [] then Copying else TransferEnds(t);
    if failed != Copying then failed
    else match t.ending case More => Copying case Eof => Copied case Broken => ReadFailed
  }

  function TransferEnds(t: Turn): Outcome
  {
    if !t.limiterOk || !t.trafficOk then LimitStopped
    else if t.answer == Exceeded then QuotaExceeded
    else if t.answer == StateLost then QuotaStateLost
    else if !t.writeOk then WriteFailed
    else if t.wrote == |t.data| then Copying
    else if t.wrote == t.Allowed() then QuotaExceeded
    else ShortWrite
  }

  function Read(turns: seq<Turn>): seq<Byte>
  {
    if turns == [] then [] else Read(turns[..|turns| - 1]) + turns[|turns| - 1].data
  }

  /** Both ends of the connection and the accounts that watch it: `made` are its
      reservations, `charged` the bytes of them that stand. */
  class Connection {
    const turns: seq<Turn>
    const metered: bool
    const ledger: Ledger
    var next: nat
    var received: seq<Byte>
    var reported: nat
    var rejected: nat
    ghost var made: set<QuotaReservation>
    ghost var charged: int

    constructor (turns: seq<Turn>, metered: bool, ledger: Ledger)
      ensures this.turns == turns && this.metered == metered && this.ledger == ledger
      ensures next == 0 && received == [] && reported == rejected == 0 && made == {} && charged == 0
    {
      this.turns, this.metered, this.ledger := turns, metered, ledger;
      next, received, reported, rejected, made, charged := 0, [], 0, 0, {}, 0;
    }
  }

  /** What the turns' settlements do to the ledger. */
  function Settled(m: M.Memory, turns: seq<Turn>): M.Memory
  {
    if turns == [] then m else SettledTurn(Settled(m, turns[..|turns| - 1]), turns[|turns| - 1])
  }

  /** A granted turn finishes its reservation with the bytes written, unless the limiter stopped it before. */
  function SettledTurn(m: M.Memory, t: Turn): M.Memory
  {
    if t.data != [] && t.limiterOk && t.trafficOk && t.answer.Grant? then M.Finish(m, t.answer.reservation, t.wrote) else m
  }

  /** Bytes read that the quota kept from being written, in a turn that ends with this outcome. */
  function Withheld(t: Turn): nat
  {
    if Ends(t) != QuotaExceeded then 0 else if t.answer == Exceeded then |t.data| else if t.Allowed() <= |t.data| then |t.data| - t.Allowed() else 0
  }

  /** Bytes of the turn that reach the destination. */
  function Passed(t: Turn): seq<Byte>
  {
    if t.data == [] || !t.limiterOk || !t.trafficOk || t.answer.Exceeded? || t.answer.StateLost? || t.wrote > |t.data| then []
    else t.data[..t.wrote]
  }

  /** One turn's transfer: limiter, quota, write, settlement and report. */
  method Transfer(c: Connection, t: Turn) returns (written: nat, outcome: Outcome)
    requires t.Ok(c.metered) && t.data != []
    modifies c`received, c`reported, c`rejected, c`made, c`charged, c.ledger
    ensures outcome == TransferEnds(t)
    ensures c.received == old(c.received) + Passed(t) && written == |Passed(t)|
    ensures c.reported == old(c.reported) + written
    ensures c.charged == old(c.charged) + if c.metered then written else 0
    ensures old(c.made) <= c.made && forall r :: r in c.made ==> r in old(c.made) || (fresh(r) && r.done)
    ensures c.ledger.View() == SettledTurn(old(c.ledger.View()), t)
    ensures c.rejected == old(c.rejected) + Withheld(t)
  {
    written := 0;
    if !t.limiterOk || !t.trafficOk { return 0, LimitStopped; }
    if t.answer == Exceeded {
      c.rejected := c.rejected + |t.data|;
      return 0, QuotaExceeded;
    }
    if t.answer == StateLost { return 0, QuotaStateLost; }
    var allowed := t.Allowed();
    if t.answer.Grant? {
      var reservation := new QuotaReservation(c.ledger, t.answer.reservation);
      c.received := c.received + t.data[..allowed][..t.wrote];
      reservation.Finish(t.wrote);
      c.made := c.made + {reservation};
      c.charged := c.charged + reservation.kept;
    } else {
      c.received := c.received + t.data[..allowed][..t.wrote];
    }
    assert t.data[..allowed][..t.wrote] == t.data[..t.wrote];
    written := t.wrote;
    c.reported := c.reported + written;
    if !t.writeOk { return written, WriteFailed; }
    if written != |t.data| {
      if written == allowed && allowed < |t.data| {
        c.rejected := c.rejected + (|t.data| - allowed);
        return written, QuotaExceeded;
      }
      return written, ShortWrite;
    }
    outcome := Copying;
  }

  /** The copy over a finite script of turns; Copying means the script ran out first.
      What arrives is a prefix of what was read, all of it unless an error stopped
      the copy; its length is the total returned, the traffic reported and the net
      quota charge, and no reservation is left open on any exit. */
  method CopyWithTrafficOptions(c: Connection) returns (total: nat, outcome: Outcome)
    requires c.next <= |c.turns| && forall i :: c.next <= i < |c.turns| ==> c.turns[i].Ok(c.metered)
    modifies c, c.ledger
    ensures old(c.next) <= c.next <= |c.turns|
    ensures var read := Read(c.turns[old(c.next)..c.next]);
      && total <= |read| && c.received == old(c.received) + read[..total]
      && (outcome in {Copying, Copied, ReadFailed} ==> total == |read|)
      && c.rejected - old(c.rejected) == if outcome == QuotaExceeded then |read| - total else 0
    ensures c.reported - old(c.reported) == total
    ensures c.charged - old(c.charged) == if c.metered then total else 0
    ensures old(c.made) <= c.made && forall r :: r in c.made ==> r in old(c.made) || (fresh(r) && r.done)
    ensures c.ledger.View() == Settled(old(c.ledger.View()), c.turns[old(c.next)..c.next])
    ensures outcome == Copying ==> c.next == |c.turns|
    ensures outcome != Copying ==> c.next > old(c.next) && outcome == Ends(c.turns[c.next - 1])
    ensures forall i :: old(c.next) <= i < c.next && (outcome == Copying || i < c.next - 1) ==> Ends(c.turns[i]) == Copying
  {
    hide Passed, Withheld, TransferEnds, Read, Settled;
    ghost var ledger0 := c.ledger.View();
    total := 0;
    ghost var start, before := c.next, c.received;
    NothingRead();
    NothingSettled(ledger0);
    assert c.turns[start..start] == [];
    while c.next < |c.turns|
      invariant start <= c.next <= |c.turns|
      invariant total == |Read(c.turns[start..c.next])| && c.received == old(c.received) + Read(c.turns[start..c.next])
      invariant c.rejected == old(c.rejected) && c.reported == old(c.reported) + total
      invariant c.charged - old(c.charged) == if c.metered then total else 0
      invariant old(c.made) <= c.made && forall r :: r in c.made ==> r in old(c.made) || (fresh(r) && r.done)
      invariant c.ledger.View() == Settled(old(c.ledger.View()), c.turns[start..c.next])
      invariant forall i :: start <= i < c.next ==> Ends(c.turns[i]) == Copying
    {
      var t := c.turns[c.next];
      ReadMore(c.turns, start, c.next);
      SettledMore(ledger0, c.turns, start, c.next);
      ghost var sofar := Read(c.turns[start..c.next]);
      c.next := c.next + 1;
      if t.data != [] {
        PassedFacts(t);
        ExtendPrefix(before, sofar, t.data, Passed(t));
        var written, failed := Transfer(c, t);
        total := total + written;
        if failed != Copying { return total, failed; }
      }
      if t.ending == Eof { return total, Copied; }
      if t.ending == Broken { return total, ReadFailed; }
    }
    outcome := Copying;
  }

  lemma NothingRead()
    ensures Read([]) == []
  {
  }

  lemma NothingSettled(m: M.Memory)
    ensures Settled(m, []) == m
  {
  }

  lemma SettledMore(m: M.Memory, turns: seq<Turn>, start: nat, n: nat)
    requires start <= n < |turns|
    ensures Settled(m, turns[start..n + 1]) == SettledTurn(Settled(m, turns[start..n]), turns[n])
  {
    assert turns[start..n + 1][..n - start] == turns[start..n];
  }

  lemma ReadMore(turns: seq<Turn>, start: nat, n: nat)
    requires start <= n < |turns|
    ensures Read(turns[start..n + 1]) == Read(turns[start..n]) + turns[n].data
  {
    assert turns[start..n + 1][..n - start] == turns[start..n];
  }

  lemma ExtendPrefix(before: seq<Byte>, sofar: seq<Byte>, data: seq<Byte>, passed: seq<Byte>)
    requires passed <= data
    ensures (before + sofar) + passed == before + (sofar + data)[..|sofar| + |passed|]
    ensures passed == data ==> (before + sofar) + passed == before + (sofar + data)
  {
  }

  lemma PassedFacts(t: Turn)
    requires t.wrote <= t.Allowed() && (t.answer.Grant? ==> t.Allowed() <= |t.data|)
    requires t.data != []
    ensures Passed(t) <= t.data
    ensures TransferEnds(t) == Copying ==> Passed(t) == t.data && Withheld(t) == 0
    ensures Withheld(t) == if TransferEnds(t) == QuotaExceeded then |t.data| - |Passed(t)| else 0
    ensures TransferEnds(t) !in {Copied, ReadFailed}
  {
  }
}
