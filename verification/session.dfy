/** The play session in App.tsx: the rank shown on the home screen, the game
    screen's answer handling with its feedback timers, and the move to the next
    level after a completion. */
module Session {
  import opened Types

  /** `RANKS`: titles and the experience each starts at, in ascending order. */
  const RankTitles: seq<string> := ["Explorer", "Pattern Scout", "Pattern Pro", "Pattern Hero", "Pattern Master"]
  const RankFloors: seq<int> := [0, 300, 900, 1800, 3200]

  /** Index of `[...RANKS].reverse().find((rank) => stats.xp >= rank.minXp) || RANKS[0]`. */
  function CurrentRank(xp: int): (r: nat)
    ensures r < |RankFloors|
    ensures xp >= 0 ==> RankFloors[r] <= xp
    ensures forall j :: r < j < |RankFloors| ==> xp < RankFloors[j]
  {
    if xp >= 3200 then 4
    else if xp >= 1800 then 3
    else if xp >= 900 then 2
    else if xp >= 300 then 1
    else 0
  }

  /** Index of `RANKS.find((rank) => rank.minXp > stats.xp)`, if any. */
  function NextRank(xp: int): (r: Option<nat>)
    ensures r.Some? ==> r.value < |RankFloors| && xp < RankFloors[r.value]
    ensures r.Some? ==> forall j :: 0 <= j < r.value ==> RankFloors[j] <= xp
    ensures r.None? ==> forall j :: 0 <= j < |RankFloors| ==> RankFloors[j] <= xp
  {
    if xp < 0 then Some(0)
    else if xp < 300 then Some(1)
    else if xp < 900 then Some(2)
    else if xp < 1800 then Some(3)
    else if xp < 3200 then Some(4)
    else None
  }

  /** More experience never lowers the rank. */
  lemma RankMonotone(a: int, b: int)
    requires a <= b
    ensures CurrentRank(a) <= CurrentRank(b)
  {
  }

  /** For a non-negative total the next rank is the one right after the current. */
  lemma NextRankFollowsCurrent(xp: int)
    requires xp >= 0
    ensures NextRank(xp).Some? <==> CurrentRank(xp) < |RankFloors| - 1
    ensures NextRank(xp).Some? ==> NextRank(xp).value == CurrentRank(xp) + 1
  {
  }

  /** `currentLevelId < LEVELS.length ? currentLevelId + 1 : home`: the level
      played after a completion, or `None` for the home screen. */
  function NextLevel(currentId: int, levelCount: nat): (r: Option<int>)
    ensures r.Some? <==> currentId < levelCount
    ensures r.Some? ==> r.value == currentId + 1 && r.value <= levelCount
  {
    if currentId < levelCount then Some(currentId + 1) else None
  }

  /** From level 1, completing levels one after another visits every id up to
      the last, and completing the last returns home. */
  lemma NextLevelWalk(id: int, levelCount: nat)
    requires 1 <= id <= levelCount
    ensures NextLevel(id, levelCount).Some? ==> 1 <= NextLevel(id, levelCount).value <= levelCount
    ensures id == levelCount ==> NextLevel(id, levelCount).None?
  {
  }

  /** One completion as `handleLevelComplete` performs it. The test reads
      `captured`, the id in the callback's closure; the update
      `prev => prev + 1` adds one to `current`, the id at the time React
      applies it. `None` is the home screen, which leaves the id alone. */
  function Advance(captured: int, current: int, levelCount: nat): Option<int>
  {
    if captured < levelCount then Some(current + 1) else None
  }

  /** A completion whose closure is up to date is exactly `NextLevel`. */
  lemma AdvanceFresh(id: int, levelCount: nat)
    ensures Advance(id, id, levelCount) == NextLevel(id, levelCount)
  {
  }

  /** The level id after `n` completions reported by callbacks that all
      captured `captured`, starting from `current`; `None` once the game has
      gone home. */
  function IdAfter(captured: int, current: int, n: nat, levelCount: nat): Option<int>
    decreases n
  {
    if n == 0 then Some(current)
    else
      match Advance(captured, current, levelCount)
      case None => None
      case Some(next) => IdAfter(captured, next, n - 1, levelCount)
  }

  /** Every completion whose captured id is below the last adds one to the
      id, whatever the id has become in the meantime; otherwise the game goes
      home. */
  lemma {:induction false} IdAfterAdds(captured: int, current: int, n: nat, levelCount: nat)
    ensures captured < levelCount ==> IdAfter(captured, current, n, levelCount) == Some(current + n)
    ensures captured >= levelCount && n > 0 ==> IdAfter(captured, current, n, levelCount).None?
    decreases n
  {
    if n > 0 && captured < levelCount {
      IdAfterAdds(captured, current + 1, n - 1, levelCount);
    }
  }

  // ---------------------------------------------------------------------
  // The game screen's answer handling (`handleChoice`, App.tsx)

  datatype Feedback = NoFeedback | Correct | Wrong

  /** What a pending `setTimeout` callback does when it fires. */
  datatype TimerAction =
    | ClearWrong
      /** `onComplete({ mistakes, usedHint, solveMs })` with the values captured at the click. */
    | Finish(mistakes: nat, usedHint: bool)

  datatype Timer = Timer(due: int, action: TimerAction)

  /** The screen's state: the clock (milliseconds since the level started),
      `feedback`, `selectedId`, `mistakes`, `usedHint`, the pending timers in
      scheduling order, and the results reported through `onComplete`. */
  datatype Board = Board(
    clock: int,
    feedback: Feedback,
    selected: Option<string>,
    mistakes: nat,
    usedHint: bool,
    timers: seq<Timer>,
    reported: seq<LevelResult>)

  /** A freshly mounted game screen. */
  function Start(): Board {
    Board(0, NoFeedback, None, 0, false, [], [])
  }

  const WrongDelayMs := 800
  const CompleteDelayMs := 1000

  /** `handleChoice(id)` at time `at`: ignored once the answer is right; a right
      choice schedules the completion, a wrong one counts a mistake and
      schedules clearing the feedback. */
  function Choose(b: Board, id: string, correctId: string, at: int): (r: Board)
    ensures b.feedback == Correct ==> r == b
    ensures b.feedback != Correct && id == correctId ==>
      r.feedback == Correct && r.mistakes == b.mistakes
      && r.timers == b.timers + [Timer(at + CompleteDelayMs, Finish(b.mistakes, b.usedHint))]
    ensures b.feedback != Correct && id != correctId ==>
      r.feedback == Wrong && r.mistakes == b.mistakes + 1
      && r.timers == b.timers + [Timer(at + WrongDelayMs, ClearWrong)]
    ensures r.reported == b.reported
  {
    if b.feedback == Correct then b
    else if id == correctId then
      b.(clock := at, feedback := Correct, selected := Some(id),
         timers := b.timers + [Timer(at + CompleteDelayMs, Finish(b.mistakes, b.usedHint))])
    else
      b.(clock := at, feedback := Wrong, selected := Some(id), mistakes := b.mistakes + 1,
         timers := b.timers + [Timer(at + WrongDelayMs, ClearWrong)])
  }

  /** `getHint()`: the completion reports that the hint was used. */
  function AskHint(b: Board, at: int): (r: Board)
    ensures r.usedHint && r.feedback == b.feedback && r.timers == b.timers && r.reported == b.reported
  {
    b.(clock := at, usedHint := true)
  }

  /** Index of the timer that fires first: the earliest due, the earliest
      scheduled among equals. */
  function FirstDue(ts: seq<Timer>): (k: nat)
    requires |ts| > 0
    ensures k < |ts|
    ensures forall j :: 0 <= j < |ts| ==> ts[k].due <= ts[j].due
    ensures forall j :: 0 <= j < k ==> ts[k].due < ts[j].due
    decreases |ts|
  {
    if |ts| == 1 then 0
    else
      var k := FirstDue(ts[..|ts| - 1]);
      if ts[|ts| - 1].due < ts[k].due then |ts| - 1 else k
  }

  function RemoveAt(ts: seq<Timer>, k: nat): (r: seq<Timer>)
    requires k < |ts|
    ensures |r| == |ts| - 1
    ensures multiset(r) == multiset(ts) - multiset{ts[k]}
  {
    assert ts == ts[..k] + [ts[k]] + ts[k + 1..];
    ts[..k] + ts[k + 1..]
  }

  /** What a timer callback does, as written: the 800 ms callback clears the
      feedback whatever it is by then. */
  function RunTimer(b: Board, t: Timer): (r: Board)
    ensures t.action.ClearWrong? ==> r.feedback == NoFeedback && r.reported == b.reported
    ensures t.action.Finish? ==>
      r.feedback == b.feedback && r.reported == b.reported + [LevelResult(t.action.mistakes, t.action.usedHint, t.due)]
  {
    match t.action
    case ClearWrong => b.(feedback := NoFeedback, selected := None)
    case Finish(m, h) => b.(reported := b.reported + [LevelResult(m, h, t.due)])
  }

  /** The corrected callback: the 800 ms timer clears only a feedback that is
      still `wrong` (`setFeedback((f) => f === 'wrong' ? null : f)`). */
  function RunTimerGuarded(b: Board, t: Timer): (r: Board)
    ensures t.action.ClearWrong? && b.feedback == Wrong ==> r.feedback == NoFeedback
    ensures t.action.ClearWrong? && b.feedback != Wrong ==> r == b
    ensures t.action.Finish? ==> r == RunTimer(b, t)
  {
    match t.action
    case ClearWrong => if b.feedback == Wrong then b.(feedback := NoFeedback, selected := None) else b
    case Finish(_, _) => RunTimer(b, t)
  }

  /** The next timer fires; its time becomes the clock. `guarded` selects the
      corrected 800 ms callback. */
  function Fire(b: Board, guarded: bool): (r: Board)
    ensures |b.timers| > 0 ==> |r.timers| == |b.timers| - 1
    ensures |b.timers| == 0 ==> r == b
  {
    if |b.timers| == 0 then b
    else
      var k := FirstDue(b.timers);
      var rest := b.(clock := b.timers[k].due, timers := RemoveAt(b.timers, k));
      if guarded then RunTimerGuarded(rest, b.timers[k]) else RunTimer(rest, b.timers[k])
  }

  /** What happens on the game screen: a click, a hint request, or the next timer. */
  datatype Event = Click(id: string, at: int) | Hint(at: int) | Tick

  /** Events happen in time order: a click or hint request is not earlier than
      the clock and no timer is due before it. */
  predicate OnTime(b: Board, e: Event) {
    match e
    case Click(_, at) => b.clock <= at && forall t :: t in b.timers ==> at <= t.due
    case Hint(at) => b.clock <= at && forall t :: t in b.timers ==> at <= t.due
    case Tick => |b.timers| > 0
  }

  function Step(b: Board, e: Event, correctId: string, guarded: bool): Board {
    match e
    case Click(id, at) => Choose(b, id, correctId, at)
    case Hint(at) => AskHint(b, at)
    case Tick => Fire(b, guarded)
  }

  /** The board after `events`. */
  function Run(b: Board, events: seq<Event>, correctId: string, guarded: bool): Board
    decreases |events|
  {
    if |events| == 0 then b
    else Run(Step(b, events[0], correctId, guarded), events[1..], correctId, guarded)
  }

  /** Every event of `events` happens on time. */
  predicate Timely(b: Board, events: seq<Event>, correctId: string, guarded: bool)
    decreases |events|
  {
    |events| == 0 ||
    (OnTime(b, events[0]) && Timely(Step(b, events[0], correctId, guarded), events[1..], correctId, guarded))
  }

  /** The click sequence of the race: a wrong answer at 0 ms, the right one at
      100 ms, the wrong answer's timer at 800 ms, the right one again at 900 ms. */
  function RaceEvents(): seq<Event> {
    [Click("opt-wrong-1", 0), Click("opt-correct", 100), Tick, Click("opt-correct", 900), Tick, Tick]
  }

  const RaceFinish := Timer(1100, Finish(1, false))
  const RetryFinish := Timer(1900, Finish(1, false))

  /** The board after the first `n` events of the race, on the screen as written. */
  function WrittenBoard(n: nat): Board {
    if n == 0 then Start()
    else if n == 1 then Board(0, Wrong, Some("opt-wrong-1"), 1, false, [Timer(800, ClearWrong)], [])
    else if n == 2 then Board(100, Correct, Some("opt-correct"), 1, false, [Timer(800, ClearWrong), RaceFinish], [])
    else if n == 3 then Board(800, NoFeedback, None, 1, false, [RaceFinish], [])
    else if n == 4 then Board(900, Correct, Some("opt-correct"), 1, false, [RaceFinish, RetryFinish], [])
    else if n == 5 then Board(1100, Correct, Some("opt-correct"), 1, false, [RetryFinish], [LevelResult(1, false, 1100)])
    else Board(1900, Correct, Some("opt-correct"), 1, false, [],
               [LevelResult(1, false, 1100), LevelResult(1, false, 1900)])
  }

  /** The board after the first `n` events of the race, on the corrected screen. */
  function GuardedBoard(n: nat): Board {
    if n <= 2 then WrittenBoard(n)
    else if n <= 4 then Board(800, Correct, Some("opt-correct"), 1, false, [RaceFinish], [])
    else Board(1100, Correct, Some("opt-correct"), 1, false, [], [LevelResult(1, false, 1100)])
  }

  /** The two clicks of the race, identical on both screens. */
  lemma RaceClicks(k: nat, guarded: bool)
    requires k < 2
    ensures OnTime(WrittenBoard(k), RaceEvents()[k])
    ensures Step(WrittenBoard(k), RaceEvents()[k], "opt-correct", guarded) == WrittenBoard(k + 1)
  {
  }

  /** At 800 ms the wrong answer's timer clears the right answer's feedback. */
  lemma WrittenClearsRight()
    ensures OnTime(WrittenBoard(2), RaceEvents()[2])
    ensures Step(WrittenBoard(2), RaceEvents()[2], "opt-correct", false) == WrittenBoard(3)
  {
    var ts := WrittenBoard(2).timers;
    assert FirstDue(ts) == 0;
    assert RemoveAt(ts, 0) == [RaceFinish];
  }

  /** So the right answer can be chosen again, scheduling a second completion. */
  lemma WrittenRetry()
    ensures OnTime(WrittenBoard(3), RaceEvents()[3])
    ensures Step(WrittenBoard(3), RaceEvents()[3], "opt-correct", false) == WrittenBoard(4)
  {
  }

  lemma WrittenFirstFinish()
    ensures OnTime(WrittenBoard(4), RaceEvents()[4])
    ensures Step(WrittenBoard(4), RaceEvents()[4], "opt-correct", false) == WrittenBoard(5)
  {
    var ts := WrittenBoard(4).timers;
    assert FirstDue(ts) == 0;
    assert RemoveAt(ts, 0) == [RetryFinish];
  }

  lemma WrittenSecondFinish()
    ensures OnTime(WrittenBoard(5), RaceEvents()[5])
    ensures Step(WrittenBoard(5), RaceEvents()[5], "opt-correct", false) == WrittenBoard(6)
  {
    var ts := WrittenBoard(5).timers;
    assert FirstDue(ts) == 0;
    assert RemoveAt(ts, 0) == [];
  }

  /** A run through boards `bs(0), bs(1), ...`, each the step of the one before it. */
  ghost predicate Steps(bs: nat -> Board, events: seq<Event>, correctId: string, guarded: bool) {
    forall k :: 0 <= k < |events| ==> Step(bs(k), events[k], correctId, guarded) == bs(k + 1)
  }

  lemma {:induction false} StepsRun(bs: nat -> Board, events: seq<Event>, correctId: string, guarded: bool)
    requires Steps(bs, events, correctId, guarded)
    ensures Run(bs(0), events, correctId, guarded) == bs(|events|)
    ensures (forall k :: 0 <= k < |events| ==> OnTime(bs(k), events[k])) ==> Timely(bs(0), events, correctId, guarded)
    decreases |events|
  {
    if |events| > 0 {
      hide Step, OnTime;
      var next: nat -> Board := (k: nat) => bs(k + 1);
      var rest := events[1..];
      assert Step(bs(0), events[0], correctId, guarded) == next(0);
      assert Steps(next, rest, correctId, guarded) by {
        forall k | 0 <= k < |rest|
          ensures Step(next(k), rest[k], correctId, guarded) == next(k + 1)
        {
          assert rest[k] == events[k + 1];
        }
      }
      StepsRun(next, rest, correctId, guarded);
      assert Run(bs(0), events, correctId, guarded) == Run(next(0), rest, correctId, guarded);
      if forall k :: 0 <= k < |events| ==> OnTime(bs(k), events[k]) {
        forall k | 0 <= k < |rest|
          ensures OnTime(next(k), rest[k])
        {
          assert rest[k] == events[k + 1];
        }
        assert Timely(bs(0), events, correctId, guarded);
      }
    }
  }

  /** As written, a right answer given within 800 ms of a wrong one has its
      feedback cleared by the wrong answer's timer, so the right answer can be
      clicked again and the level reports two completions. */
  lemma DoubleCompletionAsWritten()
    ensures Timely(Start(), RaceEvents(), "opt-correct", false)
    ensures |Run(Start(), RaceEvents(), "opt-correct", false).reported| == 2
  {
    var c := "opt-correct";
    assert |RaceEvents()| == 6 && WrittenBoard(0) == Start() && |WrittenBoard(6).reported| == 2;
    hide *;
    forall k | 0 <= k < 6
      ensures OnTime(WrittenBoard(k), RaceEvents()[k])
      ensures Step(WrittenBoard(k), RaceEvents()[k], c, false) == WrittenBoard(k + 1)
    {
      if k < 2 {
        RaceClicks(k, false);
      } else if k == 2 {
        WrittenClearsRight();
      } else if k == 3 {
        WrittenRetry();
      } else if k == 4 {
        WrittenFirstFinish();
      } else {
        WrittenSecondFinish();
      }
    }
    StepsRun(WrittenBoard, RaceEvents(), c, false);
  }

  /** Completions already reported plus completions still pending. */
  function Finishes(ts: seq<Timer>): (n: nat)
    ensures n <= |ts|
  {
    if |ts| == 0 then 0
    else (if ts[0].action.Finish? then 1 else 0) + Finishes(ts[1..])
  }

  lemma {:induction false} FinishesConcat(a: seq<Timer>, b: seq<Timer>)
    ensures Finishes(a + b) == Finishes(a) + Finishes(b)
    decreases |a|
  {
    if |a| > 0 {
      assert (a + b)[0] == a[0];
      assert (a + b)[1..] == a[1..] + b;
      FinishesConcat(a[1..], b);
    } else {
      assert a + b == b;
    }
  }

  /** The corrected screen's invariant: a completion is pending or reported
      exactly while the feedback says `correct`, and never twice. */
  predicate OneCompletion(b: Board) {
    |b.reported| + Finishes(b.timers) == (if b.feedback == Correct then 1 else 0)
  }

  lemma StepKeepsOneCompletion(b: Board, e: Event, correctId: string)
    requires OneCompletion(b)
    ensures OneCompletion(Step(b, e, correctId, true))
  {
    match e
    case Click(id, at) => ChooseKeepsOneCompletion(b, id, correctId, at);
    case Hint(_) =>
    case Tick => FireKeepsOneCompletion(b);
  }

  lemma ChooseKeepsOneCompletion(b: Board, id: string, correctId: string, at: int)
    requires OneCompletion(b)
    ensures OneCompletion(Choose(b, id, correctId, at))
  {
    if b.feedback != Correct {
      var t := if id == correctId then Timer(at + CompleteDelayMs, Finish(b.mistakes, b.usedHint))
               else Timer(at + WrongDelayMs, ClearWrong);
      FinishesConcat(b.timers, [t]);
    }
  }

  lemma FireKeepsOneCompletion(b: Board)
    requires OneCompletion(b)
    ensures OneCompletion(Fire(b, true))
  {
    if |b.timers| > 0 {
      var k := FirstDue(b.timers);
      FinishesRemoveAt(b.timers, k);
    }
  }

  /** Removing a timer removes its pending completion, if it has one. */
  lemma FinishesRemoveAt(ts: seq<Timer>, k: nat)
    requires k < |ts|
    ensures Finishes(ts) == Finishes(RemoveAt(ts, k)) + (if ts[k].action.Finish? then 1 else 0)
  {
    assert RemoveAt(ts, k) == ts[..k] + ts[k + 1..];
    FinishesSplit(ts, k);
    FinishesTail(ts[k..]);
    assert ts[k..][1..] == ts[k + 1..];
    FinishesConcat(ts[..k], ts[k + 1..]);
  }

  lemma FinishesSplit(ts: seq<Timer>, k: nat)
    requires k <= |ts|
    ensures Finishes(ts) == Finishes(ts[..k]) + Finishes(ts[k..])
  {
    assert ts[..k] + ts[k..] == ts;
    FinishesConcat(ts[..k], ts[k..]);
  }

  lemma FinishesTail(ts: seq<Timer>)
    requires |ts| > 0
    ensures Finishes(ts) == (if ts[0].action.Finish? then 1 else 0) + Finishes(ts[1..])
  {
  }

  lemma {:induction false} RunKeepsOneCompletion(b: Board, events: seq<Event>, correctId: string)
    requires OneCompletion(b)
    ensures OneCompletion(Run(b, events, correctId, true))
    decreases |events|
  {
    if |events| > 0 {
      StepKeepsOneCompletion(b, events[0], correctId);
      RunKeepsOneCompletion(Step(b, events[0], correctId, true), events[1..], correctId);
    }
  }

  /** With the guarded callback a level reports at most one completion,
      whatever the player clicks and however the timers interleave. */
  lemma AtMostOneCompletion(events: seq<Event>, correctId: string)
    ensures |Run(Start(), events, correctId, true).reported| <= 1
  {
    RunKeepsOneCompletion(Start(), events, correctId);
  }

  /** As written, the two completions of the race both captured the level
      being played. On level 109 of 110 the id moves to 111, which no level
      has; on an earlier level the id skips the next level. */
  lemma StaleCompletionsOverrun()
    ensures IdAfter(109, 109, |Run(Start(), RaceEvents(), "opt-correct", false).reported|, 110) == Some(111)
    ensures forall id :: 1 <= id < 109 ==>
      IdAfter(id, id, |Run(Start(), RaceEvents(), "opt-correct", false).reported|, 110) == Some(id + 2)
  {
    DoubleCompletionAsWritten();
    var n := |Run(Start(), RaceEvents(), "opt-correct", false).reported|;
    hide Run;
    IdAfterAdds(109, 109, n, 110);
    forall id | 1 <= id < 109
      ensures IdAfter(id, id, n, 110) == Some(id + 2)
    {
      IdAfterAdds(id, id, n, 110);
    }
  }

  /** Corrected: with the guarded timer a level reports at most one
      completion, so the id stays a level's id or the game goes home. */
  lemma GuardedStaysInCatalog(events: seq<Event>, correctId: string, id: int, levelCount: nat)
    requires 1 <= id <= levelCount
    ensures var r := IdAfter(id, id, |Run(Start(), events, correctId, true).reported|, levelCount);
      r.Some? ==> 1 <= r.value <= levelCount
  {
    var n := |Run(Start(), events, correctId, true).reported|;
    AtMostOneCompletion(events, correctId);
    hide Run;
    IdAfterAdds(id, id, n, levelCount);
  }

  /** The corrected 800 ms timer leaves the right answer's feedback alone, so
      the second click is ignored and only one completion fires. */
  lemma GuardedTimers(k: nat)
    requires 2 <= k < 6
    ensures Step(GuardedBoard(k), RaceEvents()[k], "opt-correct", true) == GuardedBoard(k + 1)
  {
    if k == 2 {
      var ts := GuardedBoard(2).timers;
      assert FirstDue(ts) == 0;
      assert RemoveAt(ts, 0) == [RaceFinish];
    } else if k == 4 {
      var ts := GuardedBoard(4).timers;
      assert FirstDue(ts) == 0;
      assert RemoveAt(ts, 0) == [];
    }
  }

  /** The corrected screen still completes the race's level, once. */
  lemma RaceCompletesOnceGuarded()
    ensures |Run(Start(), RaceEvents(), "opt-correct", true).reported| == 1
  {
    var c := "opt-correct";
    assert |RaceEvents()| == 6 && GuardedBoard(0) == Start() && |GuardedBoard(6).reported| == 1;
    assert forall k: nat :: k <= 2 ==> GuardedBoard(k) == WrittenBoard(k);
    hide *;
    forall k | 0 <= k < 6
      ensures Step(GuardedBoard(k), RaceEvents()[k], c, true) == GuardedBoard(k + 1)
    {
      if k < 2 {
        RaceClicks(k, true);
      } else {
        GuardedTimers(k);
      }
    }
    StepsRun(GuardedBoard, RaceEvents(), c, true);
  }
}
