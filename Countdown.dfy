/** The per-player countdown kept by the plugin: two maps keyed by the
    player's UUID. `joins` holds the wall-clock instant (milliseconds) at
    which the countdown last started running and is present only while it
    runs; `remaining` holds the budget (server ticks) left when it last
    stopped or was reset. The operations below are the pure meaning of
    startTracking, pauseTracking, resumeTracking and of one player's step in
    the tax tick; the class in module Plugin performs them in place. */
module Countdown {

  /** A player's java.util.UUID; only its equality matters. */
  type Uuid = int

  /** 20 minutes of 20 ticks per second. */
  const FULL_CYCLE_TICKS: int := 20 * 60 * 20
  const MILLIS_PER_TICK: int := 50

  datatype Timers = Timers(joins: map<Uuid, int>, remaining: map<Uuid, int>)

  function Max(a: int, b: int): int { if a < b then b else a }

  /** Java's `ms / 50L`: division that truncates toward zero. */
  function ElapsedTicks(ms: int): (ticks: int)
    ensures 0 <= ms ==> 0 <= ticks && MILLIS_PER_TICK * ticks <= ms < MILLIS_PER_TICK * ticks + MILLIS_PER_TICK
    ensures ms < 0 ==> ticks <= 0 && MILLIS_PER_TICK * ticks - MILLIS_PER_TICK < ms <= MILLIS_PER_TICK * ticks
  {
    if ms >= 0 then ms / MILLIS_PER_TICK else -((-ms) / MILLIS_PER_TICK)
  }

  /** `remainingTime.getOrDefault(uuid, FULL_CYCLE_TICKS)` */
  function Budget(t: Timers, u: Uuid): int
  {
    if u in t.remaining then t.remaining[u] else FULL_CYCLE_TICKS
  }

  /** The unclamped time left of a running countdown at `now`. */
  function TimeLeft(t: Timers, u: Uuid, now: int): int
    requires u in t.joins
  {
    Budget(t, u) - ElapsedTicks(now - t.joins[u])
  }

  /** Every stored budget lies between 0 and a full cycle. */
  ghost predicate Bounded(t: Timers)
  {
    forall v | v in t.remaining :: 0 <= t.remaining[v] <= FULL_CYCLE_TICKS
  }

  /** No running countdown started after `clock`. */
  ghost predicate StartedBy(t: Timers, clock: int)
  {
    forall v | v in t.joins :: t.joins[v] <= clock
  }

  /** startTracking: creates the entries that are absent and keeps the others. */
  function Start(t: Timers, u: Uuid, now: int): (r: Timers)
    ensures u in r.joins && r.joins[u] == (if u in t.joins then t.joins[u] else now)
    ensures u in r.remaining && r.remaining[u] == (if u in t.remaining then t.remaining[u] else FULL_CYCLE_TICKS)
    ensures r.joins - {u} == t.joins - {u} && r.remaining - {u} == t.remaining - {u}
    ensures Bounded(t) ==> Bounded(r)
  {
    Timers(if u in t.joins then t.joins else t.joins[u := now],
           if u in t.remaining then t.remaining else t.remaining[u := FULL_CYCLE_TICKS])
  }

  /** pauseTracking: folds the ticks elapsed since the join into the
      budget, clamped at 0, and stops the clock. */
  function Pause(t: Timers, u: Uuid, now: int): (r: Timers)
    ensures u !in t.joins ==> r == t
    ensures u in t.joins ==> u !in r.joins && u in r.remaining && r.remaining[u] >= 0
    ensures u in t.joins ==> r.remaining[u] == Max(TimeLeft(t, u, now), 0)
    ensures u in t.joins && t.joins[u] <= now ==> r.remaining[u] <= Max(Budget(t, u), 0)
    ensures r.joins - {u} == t.joins - {u} && r.remaining - {u} == t.remaining - {u}
    ensures Bounded(t) && StartedBy(t, now) ==> Bounded(r)
  {
    if u !in t.joins then t
    else
      var timeLeft := TimeLeft(t, u, now);
      Timers(t.joins - {u}, t.remaining[u := Max(timeLeft, 0)])
  }

  /** resumeTracking: restarts the clock, whether or not it was running. */
  function Resume(t: Timers, u: Uuid, now: int): (r: Timers)
    ensures u in r.joins && r.joins[u] == now && r.joins - {u} == t.joins - {u}
    ensures r.remaining == t.remaining
  {
    Timers(t.joins[u := now], t.remaining)
  }

  /** The tax tick's test for one player: running and out of time. */
  predicate Due(t: Timers, u: Uuid, now: int)
  {
    u in t.joins && TimeLeft(t, u, now) <= 0
  }

  /** One player's step of the tax tick: a due player's countdown restarts
      from a full budget at `now`; everyone else is left alone. */
  function Expire(t: Timers, u: Uuid, now: int): (r: Timers)
    ensures !Due(t, u, now) ==> r == t
    ensures Due(t, u, now) ==> u in r.joins && r.joins[u] == now && !Due(r, u, now)
    ensures Due(t, u, now) ==> u in r.remaining && r.remaining[u] == FULL_CYCLE_TICKS
    ensures r.joins - {u} == t.joins - {u} && r.remaining - {u} == t.remaining - {u}
    ensures Bounded(t) ==> Bounded(r)
  {
    if Due(t, u, now) then Timers(t.joins[u := now], t.remaining[u := FULL_CYCLE_TICKS]) else t
  }

  /** The sidebar's side effect: a missing join instant becomes `now`. */
  function Touch(t: Timers, u: Uuid, now: int): (r: Timers)
    ensures u in r.joins && r.remaining == t.remaining
    ensures u in t.joins ==> r == t
    ensures u !in t.joins ==> r.joins[u] == now && r.joins - {u} == t.joins - {u}
  {
    if u in t.joins then t else Timers(t.joins[u := now], t.remaining)
  }

  /** The time left the sidebar shows, in ticks, clamped at 0. */
  function ShownTicks(t: Timers, u: Uuid, now: int): int
  {
    Max(TimeLeft(Touch(t, u, now), u, now), 0)
  }

  /** Starting an already started player, at any later instant, changes
      nothing: startTracking never overwrites. */
  lemma StartIdempotent(t: Timers, u: Uuid, now1: int, now2: int)
    ensures Start(Start(t, u, now1), u, now2) == Start(t, u, now1)
  {
  }

  /** A pause and a resume at the same instant change nothing the player sees. */
  lemma PauseThenResume(t: Timers, u: Uuid, now: int)
    requires u in t.joins
    ensures var r := Resume(Pause(t, u, now), u, now);
      r.joins == t.joins[u := now] && r.remaining == t.remaining[u := ShownTicks(t, u, now)] &&
      ShownTicks(r, u, now) == ShownTicks(t, u, now)
  {
  }

  /** A resume and a pause at the same instant leave a paused, non-negative
      budget exactly as it was. */
  lemma ResumeThenPause(t: Timers, u: Uuid, now: int)
    requires u !in t.joins && u in t.remaining && t.remaining[u] >= 0
    ensures Pause(Resume(t, u, now), u, now) == t
  {
  }

  /** The budget stored by a pause is the time shown at the pause, and the
      first reading after the countdown restarts, at whatever instant,
      starts from it. */
  lemma PausedBudgetFrozen(t: Timers, u: Uuid, now: int, later: int)
    requires u in t.joins
    ensures Budget(Pause(t, u, now), u) == ShownTicks(t, u, now)
    ensures ShownTicks(Pause(t, u, now), u, later) == ShownTicks(t, u, now)
  {
  }

  /** While running, the time shown never grows; until it reaches 0 it falls
      by one tick per 50 ms of wall-clock time, give or take one tick of
      rounding. */
  lemma RunningCountsDown(t: Timers, u: Uuid, now1: int, now2: int)
    requires u in t.joins && t.joins[u] <= now1 <= now2
    ensures ShownTicks(t, u, now2) <= ShownTicks(t, u, now1)
    ensures ShownTicks(t, u, now1) - ShownTicks(t, u, now2) <= (now2 - now1) / MILLIS_PER_TICK + 1
    ensures ShownTicks(t, u, now2) > 0 ==>
      ShownTicks(t, u, now1) - ShownTicks(t, u, now2) >= (now2 - now1) / MILLIS_PER_TICK
  {
  }

  /** After the tick resets a due player, the sidebar shows a full cycle. */
  lemma ExpireShowsFullCycle(t: Timers, u: Uuid, now: int)
    requires Due(t, u, now)
    ensures ShownTicks(Expire(t, u, now), u, now) == FULL_CYCLE_TICKS
  {
  }

  /** A player who joins at 0, leaves at 500 s and returns at 900 s is due
      at 1600 s: 700 s were used before the break and 700 s after it. */
  lemma PauseResumeScenario(u: Uuid)
    ensures var t0 := Start(Timers(map[], map[]), u, 0);
      var t1 := Pause(t0, u, 500_000);
      var t2 := Resume(t1, u, 900_000);
      t1.remaining[u] == 14_000 && TimeLeft(t2, u, 1_600_000) == 0 && Due(t2, u, 1_600_000) &&
      Expire(t2, u, 1_600_000).remaining[u] == FULL_CYCLE_TICKS
  {
  }
}
