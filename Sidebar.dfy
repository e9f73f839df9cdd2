/** The per-player sidebar refreshed every second: the time left is shown
    as minutes and seconds, the balance as a number, and each of the two
    lines is replaced on the scoreboard only when its text changed since it
    was last shown. Lines are kept as values rather than formatted text:
    "%dm %02ds" is one-to-one on (minutes, seconds) pairs with seconds below
    60, a balance line is "§a" followed by a number, and neither can equal
    the other or a fixed label, so comparing the values compares the texts. */
module Sidebar {
  import opened Countdown
  import opened Plugin

  datatype Clock = Clock(minutes: int, secs: int)

  /** The conversion of the time left (ticks) into what the sidebar shows:
      clamped at 0, then whole seconds split into minutes and seconds. */
  function Display(timeLeft: int): (c: Clock)
    ensures 0 <= c.minutes && 0 <= c.secs < 60
    ensures var shown := 20 * (60 * c.minutes + c.secs); shown <= Max(timeLeft, 0) < shown + 20
    ensures timeLeft <= FULL_CYCLE_TICKS ==> c.minutes <= 20
  {
    var ticks := if timeLeft < 0 then 0 else timeLeft;
    var seconds := ticks / 20;
    Clock(seconds / 60, seconds % 60)
  }

  /** The time line changes exactly when the whole seconds left change. */
  lemma DisplayChangesEachSecond(a: int, b: int)
    ensures Display(a) == Display(b) <==> Max(a, 0) / 20 == Max(b, 0) / 20
  {
  }

  /** The scoreboard entries of the sidebar objective. */
  datatype Line =
    | Divider | NextTaxLabel | BalanceLabel   // the fixed labels
    | Loading | Fetching                      // the placeholders shown before the first refresh
    | TimeLine(clock: Clock)
    | BalanceLine(points: int)

  const TIME_SCORE: int := 3
  const BALANCE_SCORE: int := 1

  /** The calls the refresh makes on the scoreboard. */
  datatype ScoreboardCall = ResetScores(line: Line) | SetScore(line: Line, score: int)

  /** The last lines shown, as remembered by the refresh task. */
  datatype Panel = Panel(lastTimeLine: Line, lastBalanceLine: Line)

  /** The scoreboard as the setup leaves it. */
  function InitialBoard(): map<Line, int>
  {
    map[Divider := 5, NextTaxLabel := 4, BalanceLabel := 2, Loading := TIME_SCORE, Fetching := BALANCE_SCORE]
  }

  /** The board shows the fixed labels and exactly the two remembered lines,
      each at its own score. */
  ghost predicate Shows(board: map<Line, int>, p: Panel)
  {
    (p.lastTimeLine.Loading? || p.lastTimeLine.TimeLine?) &&
    (p.lastBalanceLine.Fetching? || p.lastBalanceLine.BalanceLine?) &&
    board == map[Divider := 5, NextTaxLabel := 4, BalanceLabel := 2,
                 p.lastTimeLine := TIME_SCORE, p.lastBalanceLine := BALANCE_SCORE]
  }

  function ApplyCall(board: map<Line, int>, call: ScoreboardCall): map<Line, int>
  {
    match call
    case ResetScores(l) => board - {l}
    case SetScore(l, s) => board[l := s]
  }

  function Apply(board: map<Line, int>, calls: seq<ScoreboardCall>): map<Line, int>
    decreases |calls|
  {
    if calls == [] then board else Apply(ApplyCall(board, calls[0]), calls[1..])
  }

  /** The calls one refresh makes: a line is reset and replaced only when
      the newly computed line differs from the one last shown. */
  function RefreshCalls(p: Panel, c: Clock, points: int): (calls: seq<ScoreboardCall>)
    ensures calls == [] <==> p == Panel(TimeLine(c), BalanceLine(points))
    ensures SetScore(TimeLine(c), TIME_SCORE) in calls <==> p.lastTimeLine != TimeLine(c)
    ensures SetScore(BalanceLine(points), BALANCE_SCORE) in calls <==> p.lastBalanceLine != BalanceLine(points)
    ensures p.lastTimeLine != TimeLine(c) ==> ResetScores(p.lastTimeLine) in calls
    ensures p.lastBalanceLine != BalanceLine(points) ==> ResetScores(p.lastBalanceLine) in calls
    ensures forall l :: ResetScores(l) in calls ==>
      (l == p.lastTimeLine && l != TimeLine(c)) || (l == p.lastBalanceLine && l != BalanceLine(points))
  {
    (if TimeLine(c) != p.lastTimeLine
     then [ResetScores(p.lastTimeLine), SetScore(TimeLine(c), TIME_SCORE)] else []) +
    (if BalanceLine(points) != p.lastBalanceLine
     then [ResetScores(p.lastBalanceLine), SetScore(BalanceLine(points), BALANCE_SCORE)] else [])
  }

  lemma ApplyPair(board: map<Line, int>, x: ScoreboardCall, y: ScoreboardCall)
    ensures Apply(board, [x, y]) == ApplyCall(ApplyCall(board, x), y)
  {
    var b1 := ApplyCall(board, x);
    assert [x, y][0] == x && [x, y][1..] == [y];
    assert Apply(board, [x, y]) == Apply(b1, [y]);
    assert [y][0] == y && [y][1..] == [];
    assert Apply(b1, [y]) == Apply(ApplyCall(b1, y), []);
  }

  /** Replacing the time line keeps the board showing exactly the remembered lines. */
  lemma ReplaceTimeLine(board: map<Line, int>, p: Panel, t: Line)
    requires Shows(board, p) && t.TimeLine?
    ensures Shows(Apply(board, [ResetScores(p.lastTimeLine), SetScore(t, TIME_SCORE)]), Panel(t, p.lastBalanceLine))
  {
    var calls := [ResetScores(p.lastTimeLine), SetScore(t, TIME_SCORE)];
    ApplyPair(board, calls[0], calls[1]);
    var after := (board - {p.lastTimeLine})[t := TIME_SCORE];
    var want := map[Divider := 5, NextTaxLabel := 4, BalanceLabel := 2,
                    t := TIME_SCORE, p.lastBalanceLine := BALANCE_SCORE];
    assert after.Keys == want.Keys;
    assert after == want;
  }

  /** Replacing the balance line keeps the board showing exactly the remembered lines. */
  lemma ReplaceBalanceLine(board: map<Line, int>, p: Panel, b: Line)
    requires Shows(board, p) && b.BalanceLine?
    ensures Shows(Apply(board, [ResetScores(p.lastBalanceLine), SetScore(b, BALANCE_SCORE)]), Panel(p.lastTimeLine, b))
  {
    var calls := [ResetScores(p.lastBalanceLine), SetScore(b, BALANCE_SCORE)];
    ApplyPair(board, calls[0], calls[1]);
    var after := (board - {p.lastBalanceLine})[b := BALANCE_SCORE];
    var want := map[Divider := 5, NextTaxLabel := 4, BalanceLabel := 2,
                    p.lastTimeLine := TIME_SCORE, b := BALANCE_SCORE];
    assert after.Keys == want.Keys;
    assert after == want;
  }

  lemma {:induction false} ApplyConcat(board: map<Line, int>, xs: seq<ScoreboardCall>, ys: seq<ScoreboardCall>)
    ensures Apply(board, xs + ys) == Apply(Apply(board, xs), ys)
    decreases |xs|
  {
    if xs == [] {
      assert xs + ys == ys;
    } else {
      assert (xs + ys)[1..] == xs[1..] + ys;
      ApplyConcat(ApplyCall(board, xs[0]), xs[1..], ys);
    }
  }

  /** A refresh keeps the board showing the fixed labels and exactly the
      lines it now remembers, each at its own score. */
  lemma RefreshKeepsBoard(board: map<Line, int>, p: Panel, c: Clock, points: int)
    requires Shows(board, p)
    ensures Shows(Apply(board, RefreshCalls(p, c, points)), Panel(TimeLine(c), BalanceLine(points)))
  {
    var t, b := TimeLine(c), BalanceLine(points);
    var first: seq<ScoreboardCall> := if t != p.lastTimeLine then [ResetScores(p.lastTimeLine), SetScore(t, TIME_SCORE)] else [];
    var mid := Panel(t, p.lastBalanceLine);
    if t != p.lastTimeLine {
      ReplaceTimeLine(board, p, t);
    }
    var board1 := Apply(board, first);
    assert Shows(board1, mid);
    var second: seq<ScoreboardCall> := if b != p.lastBalanceLine then [ResetScores(p.lastBalanceLine), SetScore(b, BALANCE_SCORE)] else [];
    if b != p.lastBalanceLine {
      ReplaceBalanceLine(board1, mid, b);
    }
    assert Shows(Apply(board1, second), Panel(t, b));
    assert RefreshCalls(p, c, points) == first + second;
    ApplyConcat(board, first, second);
  }

  /** The refresh task of one player (the runnable built by startSidebar). */
  class SidebarUpdater {
    const uuid: Uuid
    var lastTimeLine: Line
    var lastBalanceLine: Line
    var board: map<Line, int>

    function View(): Panel
      reads this
    {
      Panel(lastTimeLine, lastBalanceLine)
    }

    ghost predicate Valid()
      reads this
    {
      Shows(board, View())
    }

    /** startSidebar's setup: the fixed labels and the two placeholders. */
    constructor (uuid: Uuid)
      ensures Valid() && this.uuid == uuid
      ensures lastTimeLine == Loading && lastBalanceLine == Fetching && board == InitialBoard()
    {
      this.uuid := uuid;
      lastTimeLine := Loading;
      lastBalanceLine := Fetching;
      board := InitialBoard();
    }

    /** One refresh with the player's balance `points`: the player's join
        instant is created at `now` when missing, the time left is computed
        from the plugin's maps, and only changed lines are replaced. */
    method Run(plugin: TimeTaxPlugin, now: int, points: int) returns (calls: seq<ScoreboardCall>)
      requires Valid() && plugin.Valid() && plugin.clock <= now
      modifies this, plugin
      ensures Valid() && plugin.Valid() && plugin.clock == now
      ensures plugin.State() == Touch(old(plugin.State()), uuid, now)
      ensures View() == Panel(TimeLine(Display(TimeLeft(plugin.State(), uuid, now))), BalanceLine(points))
      ensures calls == RefreshCalls(old(View()), Display(TimeLeft(plugin.State(), uuid, now)), points)
      ensures board == Apply(old(board), calls)
    {
      plugin.clock := now;
      var joinTime: int;
      if uuid in plugin.joinTimestamps {
        joinTime := plugin.joinTimestamps[uuid];
      } else {
        joinTime := now;
        plugin.joinTimestamps := plugin.joinTimestamps[uuid := joinTime];
      }
      assert plugin.State() == Touch(old(plugin.State()), uuid, now);
      assert plugin.Valid();
      var elapsedTicks := ElapsedTicks(now - joinTime);
      var timeLeft := Budget(plugin.State(), uuid) - elapsedTicks;
      assert timeLeft == TimeLeft(plugin.State(), uuid, now);
      var timeLine := TimeLine(Display(timeLeft));
      var balanceLine := BalanceLine(points);

      ghost var before, board0 := View(), board;
      var first: seq<ScoreboardCall> := [];
      if timeLine != lastTimeLine {
        first := [ResetScores(lastTimeLine), SetScore(timeLine, TIME_SCORE)];
        board := ApplyCall(ApplyCall(board, first[0]), first[1]);
        lastTimeLine := timeLine;
      }
      var second: seq<ScoreboardCall> := [];
      if balanceLine != lastBalanceLine {
        second := [ResetScores(lastBalanceLine), SetScore(balanceLine, BALANCE_SCORE)];
        board := ApplyCall(ApplyCall(board, second[0]), second[1]);
        lastBalanceLine := balanceLine;
      }
      calls := first + second;
      ApplyPair(board0, ResetScores(before.lastTimeLine), SetScore(timeLine, TIME_SCORE));
      ApplyPair(Apply(board0, first), ResetScores(before.lastBalanceLine), SetScore(balanceLine, BALANCE_SCORE));
      ApplyConcat(board0, first, second);
      RefreshKeepsBoard(board0, before, Display(timeLeft), points);
    }
  }
}
