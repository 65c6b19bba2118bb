/** The player's statistics in App.tsx: the defaults, the daily reset, badge
    unlocking and the update `handleLevelComplete` applies when a level is
    solved. The current date (`getTodayKey()`) and time (`new Date()`) are
    parameters. */
module Progression {
  import opened Types
  import opened Seqs

  const FirstBoss := "first_boss"
  const Streak10 := "streak_10"
  const Speedster := "speedster"
  const Perfectionist := "perfectionist"

  /** Solves at or under this many milliseconds earn the speed bonus and the speedster badge. */
  const FastSolveMs := 7000

  /** A day's counters, all zero. */
  function FreshDaily(today: string): DailyStats {
    DailyStats(today, 0, 0, 0)
  }

  /** What every statistics record reachable from the defaults satisfies. */
  ghost predicate Healthy(s: UserStats) {
    && 1 <= s.streak <= s.bestStreak
    && s.stars >= 0 && s.xp >= 0
    && s.bossesCompleted >= 0 && s.perfectCompletions >= 0
    && NoDups(s.completedLevels) && NoDups(s.badges)
    && 0 <= s.daily.perfectToday <= s.daily.completedToday
    && 0 <= s.daily.bossesToday <= s.daily.completedToday
    && BadgesEarned(s)
  }

  /** `b` is a badge the record's counters qualify for. */
  predicate Qualifies(s: UserStats, b: string) {
    || (b == FirstBoss && s.bossesCompleted >= 1)
    || (b == Streak10 && s.bestStreak >= 10)
    || (b == Speedster && s.fastestSolveMs.Some? && s.fastestSolveMs.value <= FastSolveMs)
    || (b == Perfectionist && s.perfectCompletions >= 20)
  }

  /** Every badge the counters qualify for has been awarded. */
  ghost predicate BadgesEarned(s: UserStats) {
    forall b :: Qualifies(s, b) ==> b in s.badges
  }

  /** `createDefaultStats()`: a new player, every category unlocked. */
  function DefaultStats(today: string, now: string): (s: UserStats)
    ensures Healthy(s)
    ensures s.daily == FreshDaily(today)
    ensures |s.completedLevels| == 0 && |s.badges| == 0 && s.unlockedGroups == AllTypes
  {
    UserStats(0, 1, 1, [], AllTypes, now, 0, [], None, 0, 0, FreshDaily(today))
  }

  /** `withFreshDaily(stats)`: a record from an earlier day starts today's counters at zero. */
  function WithFreshDaily(s: UserStats, today: string): (r: UserStats)
    ensures r.daily.dateKey == today
    ensures r.(daily := s.daily) == s
    ensures s.daily.dateKey == today ==> r == s
    ensures s.daily.dateKey != today ==> r.daily == FreshDaily(today)
  {
    if s.daily.dateKey == today then s else s.(daily := FreshDaily(today))
  }

  /** Resetting twice on the same day is resetting once. */
  lemma WithFreshDailyIdempotent(s: UserStats, today: string)
    ensures WithFreshDaily(WithFreshDaily(s, today), today) == WithFreshDaily(s, today)
  {
  }

  /** The daily reset keeps a healthy record healthy. */
  lemma WithFreshDailyHealthy(s: UserStats, today: string)
    requires Healthy(s)
    ensures Healthy(WithFreshDaily(s, today))
  {
    var r := WithFreshDaily(s, today);
    assert forall b :: Qualifies(r, b) == Qualifies(s, b);
  }

  /** The badges the counters qualify for, in the order `unlockBadges` adds them. */
  function Qualifying(s: UserStats): (r: seq<string>)
    ensures forall b :: b in r <==> Qualifies(s, b)
  {
    (if s.bossesCompleted >= 1 then [FirstBoss] else [])
    + (if s.bestStreak >= 10 then [Streak10] else [])
    + (if s.fastestSolveMs.Some? && s.fastestSolveMs.value <= FastSolveMs then [Speedster] else [])
    + (if s.perfectCompletions >= 20 then [Perfectionist] else [])
  }

  /** `unlockBadges(stats)`: the old badges, once each and in their order,
      followed by the newly qualifying ones. */
  function UnlockBadges(s: UserStats): (r: seq<string>)
    ensures NoDups(r)
    ensures forall b :: b in r <==> b in s.badges || Qualifies(s, b)
    ensures NoDups(s.badges) ==> |r| >= |s.badges| && r[..|s.badges|] == s.badges
  {
    DedupeKeepsPrefix(s.badges, Qualifying(s));
    Dedupe(s.badges + Qualifying(s))
  }

  lemma DedupeKeepsPrefix<T>(s: seq<T>, t: seq<T>)
    ensures NoDups(s) ==> |Dedupe(s + t)| >= |s| && Dedupe(s + t)[..|s|] == s
  {
    if NoDups(s) {
      DedupePrefix(s, t);
    }
  }

  /** Unlocking again changes nothing. */
  lemma UnlockBadgesIdempotent(s: UserStats)
    ensures UnlockBadges(s.(badges := UnlockBadges(s))) == UnlockBadges(s)
  {
    var once := UnlockBadges(s);
    var t := s.(badges := once);
    assert Qualifying(t) == Qualifying(s);
    var twice := UnlockBadges(t);
    assert |twice| >= |once| && twice[..|once|] == once;
    NoDupsSubsetLength(twice, once);
    assert twice == twice[..|once|];
  }

  /** `tierBonus`: 10, 25 or 45 points by difficulty. */
  function TierBonus(d: Difficulty): int {
    match d
    case Beginner => 10
    case Intermediate => 25
    case Advanced => 45
  }

  /** A solve without mistakes and without the hint. */
  predicate Perfect(result: LevelResult) {
    result.mistakes == 0 && !result.usedHint
  }

  /** `xpGain`: 60 points plus the tier, boss, speed and perfection bonuses. */
  function XpGain(level: Level, result: LevelResult): (g: int)
    ensures 70 <= g <= 235
    ensures g == 235 <==> level.difficulty == Advanced && level.isBoss && result.solveMs <= FastSolveMs && Perfect(result)
    ensures g == 70 <==> level.difficulty == Beginner && !level.isBoss && result.solveMs > FastSolveMs && !Perfect(result)
  {
    60 + TierBonus(level.difficulty)
       + (if level.isBoss then 80 else 0)
       + (if result.solveMs <= FastSolveMs then 20 else 0)
       + (if Perfect(result) then 30 else 0)
  }

  /** Stars: 50 for a first completion, 50 more if it is a boss, and 10 for a replay. */
  function StarGain(isNewLevel: bool, isBoss: bool): (g: int)
    ensures g == 100 <==> isNewLevel && isBoss
    ensures g == 50 <==> isNewLevel && !isBoss
    ensures g == 10 <==> !isNewLevel
  {
    if isNewLevel then 50 + (if isBoss then 50 else 0) else 10
  }

  /** The `setStats` update of `handleLevelComplete` for solving `level`,
      whose id the screen knows as `levelId`, on day `today` at time `now`. */
  function Complete(prev: UserStats, levelId: int, level: Level, result: LevelResult,
                    today: string, now: string): UserStats
  {
    var refreshed := WithFreshDaily(prev, today);
    var isNewLevel := levelId !in prev.completedLevels;
    var perfect := if Perfect(result) then 1 else 0;
    var boss := if level.isBoss then 1 else 0;
    var nextStreak := if result.mistakes == 0 then refreshed.streak + 1 else 1;
    var next := refreshed.(
      stars := refreshed.stars + StarGain(isNewLevel, level.isBoss),
      xp := refreshed.xp + XpGain(level, result),
      streak := nextStreak,
      bestStreak := if refreshed.bestStreak >= nextStreak then refreshed.bestStreak else nextStreak,
      completedLevels := Dedupe(refreshed.completedLevels + [levelId]),
      fastestSolveMs :=
        match refreshed.fastestSolveMs
        case None => Some(result.solveMs)
        case Some(f) => Some(if f <= result.solveMs then f else result.solveMs),
      bossesCompleted := refreshed.bossesCompleted + boss,
      perfectCompletions := refreshed.perfectCompletions + perfect,
      daily := refreshed.daily.(
        completedToday := refreshed.daily.completedToday + 1,
        perfectToday := refreshed.daily.perfectToday + perfect,
        bossesToday := refreshed.daily.bossesToday + boss),
      lastPlayed := now);
    next.(badges := UnlockBadges(next))
  }

  /** What one completion does to each counter. */
  lemma CompleteEffects(prev: UserStats, levelId: int, level: Level, result: LevelResult,
                        today: string, now: string)
    ensures var r := Complete(prev, levelId, level, result, today, now);
      var day := WithFreshDaily(prev, today).daily;
      && r.stars == prev.stars + StarGain(levelId !in prev.completedLevels, level.isBoss)
      && r.xp == prev.xp + XpGain(level, result)
      && (result.mistakes == 0 ==> r.streak == prev.streak + 1)
      && (result.mistakes > 0 ==> r.streak == 1)
      && r.bestStreak >= prev.bestStreak && r.bestStreak >= r.streak
      && (r.bestStreak == prev.bestStreak || r.bestStreak == r.streak)
      && r.fastestSolveMs.Some?
      && r.fastestSolveMs.value <= result.solveMs
      && (prev.fastestSolveMs.Some? ==> r.fastestSolveMs.value <= prev.fastestSolveMs.value)
      && (r.fastestSolveMs.value == result.solveMs || r.fastestSolveMs == prev.fastestSolveMs)
      && r.bossesCompleted == prev.bossesCompleted + (if level.isBoss then 1 else 0)
      && r.perfectCompletions == prev.perfectCompletions + (if Perfect(result) then 1 else 0)
      && r.daily.dateKey == today
      && r.daily.completedToday == day.completedToday + 1
      && r.daily.perfectToday == day.perfectToday + (if Perfect(result) then 1 else 0)
      && r.daily.bossesToday == day.bossesToday + (if level.isBoss then 1 else 0)
      && r.lastPlayed == now
      && r.unlockedGroups == prev.unlockedGroups
  {
  }

  /** The completed list gains the level and loses nothing; the badges are
      kept and every badge the new counters qualify for is added. */
  lemma CompleteRecords(prev: UserStats, levelId: int, level: Level, result: LevelResult,
                        today: string, now: string)
    ensures var r := Complete(prev, levelId, level, result, today, now);
      && (forall id :: id in r.completedLevels <==> id in prev.completedLevels || id == levelId)
      && NoDups(r.completedLevels)
      && (NoDups(prev.completedLevels) ==>
            |r.completedLevels| >= |prev.completedLevels|
            && r.completedLevels[..|prev.completedLevels|] == prev.completedLevels)
      && (forall b :: b in prev.badges ==> b in r.badges)
      && BadgesEarned(r)
      && NoDups(r.badges)
  {
    var r := Complete(prev, levelId, level, result, today, now);
    DedupeKeepsPrefix(prev.completedLevels, [levelId]);
    assert forall b :: Qualifies(r, b) ==> b in r.badges;
  }

  /** Solving keeps a healthy record healthy. */
  lemma CompleteHealthy(prev: UserStats, levelId: int, level: Level, result: LevelResult,
                        today: string, now: string)
    requires Healthy(prev)
    ensures Healthy(Complete(prev, levelId, level, result, today, now))
  {
    CompleteEffects(prev, levelId, level, result, today, now);
    CompleteRecords(prev, levelId, level, result, today, now);
  }

  /** Replaying a level already solved adds no new entry and only the 10-star replay reward. */
  lemma ReplayKeepsLevels(prev: UserStats, levelId: int, level: Level, result: LevelResult,
                          today: string, now: string)
    requires NoDups(prev.completedLevels)
    requires levelId in prev.completedLevels
    ensures var r := Complete(prev, levelId, level, result, today, now);
      r.completedLevels == prev.completedLevels && r.stars == prev.stars + 10
  {
    var r := Complete(prev, levelId, level, result, today, now);
    CompleteRecords(prev, levelId, level, result, today, now);
    NoDupsSubsetLength(r.completedLevels, prev.completedLevels);
    assert r.completedLevels == r.completedLevels[..|prev.completedLevels|];
  }

  /** A level reported complete twice in a row counts the second time as a
      replay: the list is as after the first report and the second earns
      only the 10-star replay reward. */
  lemma RepeatedCompletionIsReplay(prev: UserStats, levelId: int, level: Level, result: LevelResult,
                                   today: string, now: string)
    requires NoDups(prev.completedLevels)
    ensures var first := Complete(prev, levelId, level, result, today, now);
      var second := Complete(first, levelId, level, result, today, now);
      second.completedLevels == first.completedLevels && second.stars == first.stars + 10
  {
    var first := Complete(prev, levelId, level, result, today, now);
    CompleteRecords(prev, levelId, level, result, today, now);
    ReplayKeepsLevels(first, levelId, level, result, today, now);
  }
}
