/** The plugin object's countdown state, updated in place: the two maps
    `joinTimestamps` (ms) and `remainingTime` (ticks) keyed by UUID. The
    wall clock is passed in as `now`; the ghost field `clock` is the latest
    instant an operation has seen, and callers never pass an earlier one
    (the clock does not run backwards). Each method is proved to produce
    the state its pure counterpart in Countdown or TaxCycle describes. */
module Plugin {
  import opened Countdown
  import opened Tax
  import opened TaxCycle

  class TimeTaxPlugin {
    var joinTimestamps: map<Uuid, int>
    var remainingTime: map<Uuid, int>
    ghost var clock: int

    function State(): Timers
      reads this
    {
      Timers(joinTimestamps, remainingTime)
    }

    /** Budgets stay within a full cycle and no countdown started in the future. */
    ghost predicate Valid()
      reads this
    {
      Bounded(State()) && StartedBy(State(), clock)
    }

    constructor (ghost start: int)
      ensures Valid() && clock == start
      ensures joinTimestamps == map[] && remainingTime == map[]
    {
      joinTimestamps := map[];
      remainingTime := map[];
      clock := start;
    }

    /** startTracking (putIfAbsent on both maps). */
    method StartTracking(uuid: Uuid, now: int)
      requires Valid() && clock <= now
      modifies this
      ensures Valid() && clock == now
      ensures State() == Start(old(State()), uuid, now)
    {
      clock := now;
      if uuid !in joinTimestamps {
        joinTimestamps := joinTimestamps[uuid := now];
      }
      if uuid !in remainingTime {
        remainingTime := remainingTime[uuid := FULL_CYCLE_TICKS];
      }
    }

    /** pauseTracking: a no-op without a join instant; otherwise the budget
        becomes max(budget - elapsed ticks, 0) and the join instant goes. */
    method PauseTracking(uuid: Uuid, now: int)
      requires Valid() && clock <= now
      modifies this
      ensures Valid() && clock == now
      ensures State() == Pause(old(State()), uuid, now)
    {
      clock := now;
      if uuid !in joinTimestamps {
        return;
      }
      var joinTime := joinTimestamps[uuid];
      var elapsedTicks := ElapsedTicks(now - joinTime);
      var timeLeft := Budget(State(), uuid) - elapsedTicks;
      remainingTime := remainingTime[uuid := Max(timeLeft, 0)];
      joinTimestamps := joinTimestamps - {uuid};
    }

    /** resumeTracking: the join instant becomes `now`, unconditionally. */
    method ResumeTracking(uuid: Uuid, now: int)
      requires Valid() && clock <= now
      modifies this
      ensures Valid() && clock == now
      ensures State() == Resume(old(State()), uuid, now)
    {
      clock := now;
      joinTimestamps := joinTimestamps[uuid := now];
    }

    /** The periodic tax runnable: every online player with a join instant
        whose time left is at most 0 is charged (its balance read through
        `look`) and restarts from a full budget at `now`. Returns the
        chargeTax calls in the order they were made. */
    method TaxTick(online: seq<Uuid>, now: int, look: Uuid -> int) returns (charges: seq<Charge>)
      requires Valid() && clock <= now
      modifies this
      ensures Valid() && clock == now
      ensures State() == TickTimers(old(State()), online, now)
      ensures charges == TickCharges(old(State()), online, now, look)
    {
      ghost var start := State();
      clock := now;
      charges := [];
      for i := 0 to |online|
        invariant Valid() && clock == now
        invariant State() == TickTimers(start, online[..i], now)
        invariant charges == TickCharges(start, online[..i], now, look)
      {
        assert online[..i + 1][..i] == online[..i];
        var uuid := online[i];
        if uuid in joinTimestamps {
          var joinTime := joinTimestamps[uuid];
          var elapsedTicks := ElapsedTicks(now - joinTime);
          var timeLeft := Budget(State(), uuid) - elapsedTicks;
          if timeLeft <= 0 {
            var points := look(uuid);
            charges := charges + [Charge(uuid, points, ChargeTax(points))];
            joinTimestamps := joinTimestamps[uuid := now];
            remainingTime := remainingTime[uuid := FULL_CYCLE_TICKS];
          }
        }
      }
      assert online[..|online|] == online;
    }
  }
}
