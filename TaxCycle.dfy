/** The periodic tax tick: the online players are visited in order; each
    one whose countdown is running and out of time is charged and has the
    countdown restarted. The tick is given as a fold over the players
    (TickTimers, TickCharges) and, independently, as a one-shot settlement
    of every due player (Settle); TickSettles proves the two agree. */
module TaxCycle {
  import opened Countdown
  import opened Tax

  /** One chargeTax call: whom it charged, the balance it read, what it did. */
  datatype Charge = Charge(player: Uuid, balance: int, outcome: TaxOutcome)

  /** The countdown state after visiting `online` in order at `now`. */
  function TickTimers(t: Timers, online: seq<Uuid>, now: int): Timers
    decreases |online|
  {
    if online == [] then t
    else Expire(TickTimers(t, online[..|online| - 1], now), online[|online| - 1], now)
  }

  /** The chargeTax calls made while visiting `online` in order at `now`;
      `look` gives each player's point balance. */
  function TickCharges(t: Timers, online: seq<Uuid>, now: int, look: Uuid -> int): seq<Charge>
    decreases |online|
  {
    if online == [] then []
    else
      var before := online[..|online| - 1];
      var u := online[|online| - 1];
      TickCharges(t, before, now, look) +
      (if Due(TickTimers(t, before, now), u, now) then [Charge(u, look(u), ChargeTax(look(u)))] else [])
  }

  /** The players the tick finds due, judged on the state before the tick. */
  function DueSet(t: Timers, online: seq<Uuid>, now: int): (d: set<Uuid>)
    ensures d <= t.joins.Keys
  {
    set u | u in online && Due(t, u, now)
  }

  /** Reference definition: every player in `due` restarts from a full
      budget at `now`, every other entry is kept. */
  function Settle(t: Timers, due: set<Uuid>, now: int): Timers
  {
    Timers(map u | u in t.joins :: if u in due then now else t.joins[u],
           map u | u in t.remaining.Keys + due :: if u in due then FULL_CYCLE_TICKS else t.remaining[u])
  }

  /** A settled player is no longer due at the same instant. */
  lemma SettledNotDue(t: Timers, due: set<Uuid>, now: int, u: Uuid)
    requires due <= t.joins.Keys && u in due
    ensures !Due(Settle(t, due, now), u, now)
  {
  }

  /** Settling one more due player is one more Expire step. */
  lemma SettleStep(t: Timers, due: set<Uuid>, now: int, u: Uuid)
    requires due <= t.joins.Keys
    ensures Expire(Settle(t, due, now), u, now) ==
      Settle(t, if u !in due && Due(t, u, now) then due + {u} else due, now)
  {
  }

  /** The tick, player by player, ends in the settlement of exactly the
      players that were due when it started: the ones skipped (no join
      instant) and the ones with time left keep their entries, and a
      player listed twice is settled once. */
  lemma {:induction false} TickSettles(t: Timers, online: seq<Uuid>, now: int)
    ensures TickTimers(t, online, now) == Settle(t, DueSet(t, online, now), now)
  {
    if online == [] {
      var s := Settle(t, {}, now);
      assert s.joins == t.joins;
      assert s.remaining == t.remaining;
    } else {
      var before := online[..|online| - 1];
      var u := online[|online| - 1];
      TickSettles(t, before, now);
      var d := DueSet(t, before, now);
      SettleStep(t, d, now, u);
      var d' := if u !in d && Due(t, u, now) then d + {u} else d;
      assert DueSet(t, online, now) == d' by {
        assert forall v :: v in online <==> v in before || v == u;
      }
    }
  }

  /** `cs` charges each player of `due` exactly once, and nobody else,
      with the outcome of that player's own balance. */
  ghost predicate ChargesExactly(cs: seq<Charge>, due: set<Uuid>, look: Uuid -> int)
  {
    (forall i | 0 <= i < |cs| ::
       cs[i].player in due && cs[i] == Charge(cs[i].player, look(cs[i].player), ChargeTax(look(cs[i].player)))) &&
    (forall u | u in due :: exists i :: 0 <= i < |cs| && cs[i].player == u) &&
    (forall i, j | 0 <= i < j < |cs| :: cs[i].player != cs[j].player)
  }

  /** Appending the charge of a player not charged before keeps the
      charges exact for the enlarged set of due players. */
  lemma ChargesExtend(prev: seq<Charge>, due: set<Uuid>, u: Uuid, look: Uuid -> int)
    requires ChargesExactly(prev, due, look) && u !in due
    ensures ChargesExactly(prev + [Charge(u, look(u), ChargeTax(look(u)))], due + {u}, look)
  {
    var cs := prev + [Charge(u, look(u), ChargeTax(look(u)))];
    forall i | 0 <= i < |prev| ensures cs[i] == prev[i] && prev[i].player != u {
      assert prev[i].player in due;
    }
    forall v | v in due + {u} ensures exists i :: 0 <= i < |cs| && cs[i].player == v {
      if v == u {
        assert cs[|prev|].player == u;
      } else {
        var i :| 0 <= i < |prev| && prev[i].player == v;
        assert cs[i] == prev[i];
      }
    }
  }

  /** The player visited last is found due by the fold exactly when it was
      due at the start and not visited before. */
  lemma DueAfterPrefix(t: Timers, before: seq<Uuid>, now: int, u: Uuid)
    ensures Due(TickTimers(t, before, now), u, now) <==> u !in DueSet(t, before, now) && Due(t, u, now)
  {
  }

  /** The tick charges exactly the players that were due when it started,
      each of them once (even one listed twice) and with the outcome of its
      own balance. */
  lemma {:induction false} TickChargesOnce(t: Timers, online: seq<Uuid>, now: int, look: Uuid -> int)
    ensures ChargesExactly(TickCharges(t, online, now, look), DueSet(t, online, now), look)
  {
    if online != [] {
      var before := online[..|online| - 1];
      var u := online[|online| - 1];
      TickChargesOnce(t, before, now, look);
      DueAfterPrefix(t, before, now, u);
      var d := DueSet(t, before, now);
      assert DueSet(t, online, now) == if u !in d && Due(t, u, now) then d + {u} else d by {
        assert forall v :: v in online <==> v in before || v == u;
      }
      var prev := TickCharges(t, before, now, look);
      if u !in d && Due(t, u, now) {
        assert TickCharges(t, online, now, look) == prev + [Charge(u, look(u), ChargeTax(look(u)))];
        ChargesExtend(prev, d, u, look);
      } else {
        assert TickCharges(t, online, now, look) == prev;
      }
    }
  }
}
