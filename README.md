# TimeTax countdown and tax cycle, in Dafny

TimeTax is a game-server plugin. It keeps a 20-minute countdown for each player. The countdown runs while the player is online and is frozen while they are offline. A periodic task charges 8% of the player's points (rounded up) when their countdown has run out, then restarts it. A sidebar shows each player the time left and their balance, refreshed every second.

This project models the plugin's countdown state machine, the tax tick, the tax rule and the sidebar's time/diff logic:

- `Countdown` holds the pure meaning of the per-player state. The state is two maps keyed by UUID: join instants in ms, and budgets in ticks. The module defines startTracking, pauseTracking, resumeTracking, one player's tax step, and the sidebar's side effect. Java's truncating `/ 50L` and `getOrDefault` are written out.
- `TaxCycle` describes the tax runnable in two ways. One is a fold over the online players, in order. The other is an independent one-shot settlement of every player who was due. A proof shows the two agree, and that each due player is charged exactly once.
- `Tax` holds the tax amount, `ceil(8 * points / 100)`, and the debit decision.
- `Plugin` is the plugin object. Its class `TimeTaxPlugin` has the two `map` fields, updated in place. Each method is proved to produce the state its `Countdown` / `TaxCycle` function describes. The tax tick is a loop over the online players.
- `Sidebar` covers the ticks → (minutes, seconds) conversion and the diffing of the two sidebar lines. The calls made on the scoreboard are recorded. The class `SidebarUpdater` holds the runnable's captured fields `lastTimeLine`/`lastBalanceLine` and the board's entries.
- `Listener` holds the join and quit handlers.

Inputs that come from outside the program are parameters:
- the wall clock: `now`, in ms;
- the online players: a `seq` of UUIDs;
- the points balance: `look`, or `points`.

Outputs are recorded values:
- chargeTax calls: `Charge` records, holding the debit amount or the "no points" notice;
- scoreboard updates: `ScoreboardCall` records.

Where the intended design of the plugin and its code differ, the model follows the code:
- resumeTracking overwrites the join instant even when the countdown is already running.
- The join handler calls only resumeTracking. A player who first joins after start-up therefore has no budget entry, and reads as a full cycle through `getOrDefault`.
- The sidebar refresh is not side-effect free. It creates a join instant when one is missing.
- The tax tick compares the unclamped time left with `<= 0`.
- A negative balance, not only a zero one, leads to "no points to tax".

## Model

| member | source | states |
|---|---|---|
| Countdown.ElapsedTicks | src/main/java/com/taxes/timetax/TimeTaxPlugin.java:63 | elapsed ms become ticks by division truncating toward zero: for non-negative ms, the largest tick count whose 50 ms fit; for negative ms, the smallest whose 50 ms reach it |
| Countdown.Start | src/main/java/com/taxes/timetax/TimeTaxPlugin.java:52-57 | an existing join instant or budget is kept; absent ones become `now` and FULL_CYCLE_TICKS; other players' entries are unchanged; budgets stay within [0, full cycle] |
| Countdown.Pause | src/main/java/com/taxes/timetax/TimeTaxPlugin.java:59-67 | without a join instant nothing changes; otherwise the join instant is removed and the budget becomes max(time left, 0), never negative and, with the clock not running backwards, never above the old budget; no other player is touched |
| Countdown.Resume | src/main/java/com/taxes/timetax/TimeTaxPlugin.java:69-71 | the join instant becomes `now` whether or not one existed; budgets and other players unchanged |
| Countdown.Expire | src/main/java/com/taxes/timetax/TimeTaxPlugin.java:189-202 | a player without a join instant, or with time left above 0, is unchanged; a due player restarts with a full budget at `now` and is then no longer due; other players untouched |
| Countdown.Touch | src/main/java/com/taxes/timetax/TimeTaxPlugin.java:105-109 | the sidebar leaves a join instant for the player: the existing one, or `now` if it was missing; budgets unchanged |
| Countdown.StartIdempotent | src/main/java/com/taxes/timetax/TimeTaxPlugin.java:55-56 | starting an already started player at any later instant changes nothing |
| Countdown.PauseThenResume | src/main/java/com/taxes/timetax/TimeTaxPlugin.java:59-71 | a pause and a resume at the same instant store the shown time left as the budget, restart the clock at `now`, and leave the time shown unchanged |
| Countdown.ResumeThenPause | src/main/java/com/taxes/timetax/TimeTaxPlugin.java:59-71 | a resume and a pause at the same instant leave a paused, non-negative budget and both maps exactly as they were |
| Countdown.PausedBudgetFrozen | src/main/java/com/taxes/timetax/TimeTaxPlugin.java:59-67 | the budget stored by a pause equals the time shown at the pause, and the first reading after the countdown restarts, at any instant, shows that same time |
| Countdown.RunningCountsDown | src/main/java/com/taxes/timetax/TimeTaxPlugin.java:110-113 | while running, the time shown never increases; it drops by at most one tick per full 50 ms elapsed plus one, and, while still above 0, by at least one tick per full 50 ms elapsed |
| Countdown.ExpireShowsFullCycle | src/main/java/com/taxes/timetax/TimeTaxPlugin.java:199-201 | right after a due player is reset, the time shown is exactly a full cycle |
| Countdown.PauseResumeScenario | src/main/java/com/taxes/timetax/TimeTaxPlugin.java:52-71 | join at 0 s, leave at 500 s, rejoin at 900 s: the budget stored is 14000 ticks (700 s) and the player is due at 1600 s, after which the budget is full again |
| Tax.TaxAmount | src/main/java/com/taxes/timetax/TimeTaxPlugin.java:149 | the tax is the ceiling of 8% of the balance (100·(tax−1) < 8·points ≤ 100·tax); it is positive exactly when the balance is, and never exceeds a non-negative balance |
| Tax.ChargeTax | src/main/java/com/taxes/timetax/TimeTaxPlugin.java:146-157 | a debit happens exactly when the balance is positive, for exactly the tax amount, between 1 and the balance; otherwise only the "no points" notice |
| Tax.TaxExamples | src/main/java/com/taxes/timetax/TimeTaxPlugin.java:149-156 | balance 0 gives no debit, 1 a debit of 1, 100 a debit of 8, 12 a debit of 1 and 13 a debit of 2 |
| TaxCycle.TickSettles | src/main/java/com/taxes/timetax/TimeTaxPlugin.java:186-203 | visiting the online players in order equals settling, all at once, the players that were due when the tick started: skipped and not-yet-due players keep their entries, and a player listed twice is settled once |
| TaxCycle.TickChargesOnce | src/main/java/com/taxes/timetax/TimeTaxPlugin.java:186-203 | the tick charges every player that was due when it started and nobody else, each exactly once, with the outcome of that player's balance |
| Plugin.TimeTaxPlugin.constructor | src/main/java/com/taxes/timetax/TimeTaxPlugin.java:17-18 | both maps start empty |
| Plugin.TimeTaxPlugin.StartTracking | src/main/java/com/taxes/timetax/TimeTaxPlugin.java:52-57 | the maps become `Start` of their old value; budgets stay within [0, full cycle] and no join instant lies in the future |
| Plugin.TimeTaxPlugin.PauseTracking | src/main/java/com/taxes/timetax/TimeTaxPlugin.java:59-67 | the maps become `Pause` of their old value, keeping the same invariant |
| Plugin.TimeTaxPlugin.ResumeTracking | src/main/java/com/taxes/timetax/TimeTaxPlugin.java:69-71 | the maps become `Resume` of their old value, keeping the same invariant |
| Plugin.TimeTaxPlugin.TaxTick | src/main/java/com/taxes/timetax/TimeTaxPlugin.java:183-205 | the loop leaves the maps equal to the fold `TickTimers`, and returns the chargeTax calls `TickCharges`, keeping the invariant |
| Sidebar.Display | src/main/java/com/taxes/timetax/TimeTaxPlugin.java:110-117 | the shown minutes are non-negative and the seconds are in [0, 60); minutes·60 + seconds is the time left clamped at 0 and rounded down to whole seconds; a budget within a full cycle shows at most 20 minutes |
| Sidebar.DisplayChangesEachSecond | src/main/java/com/taxes/timetax/TimeTaxPlugin.java:113-122 | two times left show the same (minutes, seconds) exactly when they hold the same whole seconds, so the time line changes only when a second has passed |
| Sidebar.RefreshCalls | src/main/java/com/taxes/timetax/TimeTaxPlugin.java:122-132 | a line is reset and replaced exactly when the new line differs from the last one shown: a changed line's old text is reset and the new one set, and every reset names a previously shown line that changed; no calls at all exactly when both lines are unchanged, so a second run with the same inputs makes none |
| Sidebar.ReplaceTimeLine | src/main/java/com/taxes/timetax/TimeTaxPlugin.java:122-126 | resetting the old time line and setting the new one at score 3 leaves the board holding the labels, the new time line and the balance line |
| Sidebar.ReplaceBalanceLine | src/main/java/com/taxes/timetax/TimeTaxPlugin.java:128-132 | resetting the old balance line and setting the new one at score 1 leaves the board holding the labels, the time line and the new balance line |
| Sidebar.RefreshKeepsBoard | src/main/java/com/taxes/timetax/TimeTaxPlugin.java:122-132 | after a refresh's calls, the board holds exactly the three labels and the two remembered lines, at scores 5, 4, 2, 3 and 1 |
| Sidebar.SidebarUpdater.constructor | src/main/java/com/taxes/timetax/TimeTaxPlugin.java:78-96 | the board holds the labels and the "Loading..."/"Fetching..." placeholders, which are also the remembered last lines |
| Sidebar.SidebarUpdater.Run | src/main/java/com/taxes/timetax/TimeTaxPlugin.java:105-132 | a missing join instant is created at `now`; afterwards the remembered lines equal the computed time and balance lines; the calls made are `RefreshCalls` of the old lines; the board is the old board with those calls applied, and still shows exactly the remembered lines |
| Listener.OnPlayerJoin | src/main/java/com/taxes/timetax/TimeTaxPlugin.java:161-168 | the maps become `Resume` of their old value, and a fresh sidebar for the player is built |
| Listener.OnPlayerQuit | src/main/java/com/taxes/timetax/TimeTaxPlugin.java:170-177 | the maps become `Pause` of their old value |

## Left out

- Plugin start-up and shutdown are not modelled: onEnable, onDisable, the PlayerPoints dependency check, listener registration, and onEnable's loop calling startTracking and startSidebar for players already online. This is host plumbing. `StartTracking` is modelled on its own.
- The scoreboard objects are not modelled, nor the `sidebarTasks`/`sideboards` maps or stopSidebar. The board is modelled only as the map of its entries to scores that one sidebar holds.
- Scheduling is not modelled: the 20-minute and 1-second timer intervals, task cancellation and `player.isOnline()`. These belong to the host runtime. Each tick or refresh is one method call.
- PlayerPoints `look` and `take` and `sendMessage` are foreign calls. A balance is an input (`look`, `points`). A debit or notice is a recorded `TaxOutcome`. The tick reads all balances from one snapshot `look`; that is enough because no player is charged twice in a tick.
- Tax.TaxAmount: the exact ceiling of 8·points/100 stands for `(int) Math.ceil(points * 0.08)` on doubles. This is not verified against IEEE arithmetic. The double nearest 0.08 exceeds it by about 2·10⁻¹⁷ relative. That is under half an ulp, so for 32-bit balances the rounded product lands on the exact value when 8·points/100 is an integer. Otherwise it stays at least 1/25 away from the next integer.
- Java `long` overflow is not modelled. Timestamps near the current epoch and tick budgets are far from the 64-bit bounds.
- The string formatting (`%d`, `%02d`, the `§` colour prefixes) is not modelled. Lines are values: a (minutes, seconds) pair, a balance, fixed labels and placeholders. These formats are one-to-one and never collide with each other, so comparing values is comparing texts.
- `System.currentTimeMillis()` becomes the parameter `now`.
- Every clock read inside one tax tick or one sidebar refresh is taken as the same instant `now`. The refresh reads the clock twice (TimeTaxPlugin.java:107 and :110). The tick reads it for each player at :192 and again at :200, after chargeTax's foreign calls. Under this simplification, "due when the tick started" (TaxCycle.TickSettles) and "nobody else is charged" (TaxCycle.TickChargesOnce) hold. In the source, a player with 1 tick left when the loop starts may be charged if the loop reaches them 50 ms or more later. The single balance snapshot `look` relies on the same simplification.
- Plugin.TimeTaxPlugin.StartTracking: requires `now` to be no earlier than the ghost `clock` (the latest instant seen), because the wall clock is taken never to run backwards; the pure functions carry no such requirement.
- Plugin.TimeTaxPlugin.PauseTracking: requires `now` to be no earlier than the ghost `clock` (the latest instant seen), because the wall clock is taken never to run backwards; the pure functions carry no such requirement.
- Plugin.TimeTaxPlugin.ResumeTracking: requires `now` to be no earlier than the ghost `clock` (the latest instant seen), because the wall clock is taken never to run backwards; the pure functions carry no such requirement.
- Plugin.TimeTaxPlugin.TaxTick: requires `now` to be no earlier than the ghost `clock` (the latest instant seen), because the wall clock is taken never to run backwards; the pure functions carry no such requirement.
- Sidebar.SidebarUpdater.Run: requires `now` to be no earlier than the ghost `clock` (the latest instant seen), because the wall clock is taken never to run backwards; the pure functions carry no such requirement.
- Listener.OnPlayerJoin: requires `now` to be no earlier than the ghost `clock` (the latest instant seen), because the wall clock is taken never to run backwards; the pure functions carry no such requirement.
- Listener.OnPlayerQuit: requires `now` to be no earlier than the ghost `clock` (the latest instant seen), because the wall clock is taken never to run backwards; the pure functions carry no such requirement.
