/**
 * The achievement engine (`AchievementSystem`): a statistics record folded
 * from the match history or updated after a game, eleven achievements
 * unlocked once their condition holds, and a progress percentage for each.
 */
module Achievements {
  import opened Wrappers
  import opened Text
  import opened Series
  import opened Runs
  import opened ScoreManage

  /**
   * The `stats` dictionary. A key missing from a stored dictionary reads
   * as the default its `.get` call gives (0 or `False`), the values of
   * `NO_STATS`.
   */
  datatype Stats = Stats(
    gamesPlayed: int, totalScore: int, totalTime: int,
    bestScore: int, bestSurvivalTime: int, maxFoodInGame: int,
    bestFoodEfficiency: real, longestSession: int, consecutiveGrowth: int,
    playedMorning: bool, playedNight: bool)

  const NO_STATS := Stats(0, 0, 0, 0, 0, 0, 0.0, 0, 0, false, false)

  datatype AchievementId =
    | FirstBlood | Survivor | FoodMaster | SpeedDemon
    | Centurion | FiveHundred | ThousandClub
    | Perfectionist | Marathon | EarlyBird | NightOwl

  /** The definitions in the order the dictionary lists them, which is the order they are checked. */
  const DEFINITIONS: seq<AchievementId> := [
    FirstBlood, Survivor, FoodMaster, SpeedDemon, Centurion, FiveHundred,
    ThousandClub, Perfectionist, Marathon, EarlyBird, NightOwl
  ]

  /** The dictionary key of an achievement. */
  function Key(a: AchievementId): string {
    match a
    case FirstBlood => "first_blood"
    case Survivor => "survivor"
    case FoodMaster => "food_master"
    case SpeedDemon => "speed_demon"
    case Centurion => "centurion"
    case FiveHundred => "five_hundred"
    case ThousandClub => "thousand_club"
    case Perfectionist => "perfectionist"
    case Marathon => "marathon"
    case EarlyBird => "early_bird"
    case NightOwl => "night_owl"
  }

  /** The achievement a key names, if any. */
  function IdOf(key: string): (a: Option<AchievementId>)
    ensures a.Some? ==> Key(a.value) == key
    ensures forall b :: Key(b) == key ==> a == Some(b)
  {
    if key == "first_blood" then Some(FirstBlood)
    else if key == "survivor" then Some(Survivor)
    else if key == "food_master" then Some(FoodMaster)
    else if key == "speed_demon" then Some(SpeedDemon)
    else if key == "centurion" then Some(Centurion)
    else if key == "five_hundred" then Some(FiveHundred)
    else if key == "thousand_club" then Some(ThousandClub)
    else if key == "perfectionist" then Some(Perfectionist)
    else if key == "marathon" then Some(Marathon)
    else if key == "early_bird" then Some(EarlyBird)
    else if key == "night_owl" then Some(NightOwl)
    else None
  }

  lemma DefinitionsComplete(a: AchievementId)
    ensures a in DEFINITIONS
  {
  }

  datatype Definition = Definition(name: string, desc: string, icon: string)

  function Describe(a: AchievementId): Definition {
    match a
    case FirstBlood => Definition("初出茅庐", "完成第一局游戏", "🎮")
    case Survivor => Definition("生存专家", "单局生存时间超过3分钟", "⏱️")
    case FoodMaster => Definition("美食家", "单局吃到50个食物", "🍎")
    case SpeedDemon => Definition("速度之星", "每秒食物效率超过2.0", "⚡")
    case Centurion => Definition("百分达人", "单局得分超过100分", "💯")
    case FiveHundred => Definition("五百俱乐部", "单局得分超过500分", "🎯")
    case ThousandClub => Definition("千分王者", "单局得分超过1000分", "👑")
    case Perfectionist => Definition("完美主义者", "连续3局分数增长", "📈")
    case Marathon => Definition("马拉松选手", "单次游戏时长超过10分钟", "🏃")
    case EarlyBird => Definition("早起鸟儿", "在早上6-9点之间玩游戏", "🌅")
    case NightOwl => Definition("夜猫子", "在晚上10点后玩游戏", "🌙")
  }

  /** The unlock condition of each achievement. */
  predicate Condition(a: AchievementId, st: Stats) {
    match a
    case FirstBlood => st.gamesPlayed >= 1
    case Survivor => st.bestSurvivalTime >= 180
    case FoodMaster => st.maxFoodInGame >= 50
    case SpeedDemon => st.bestFoodEfficiency >= 2.0
    case Centurion => st.bestScore >= 100
    case FiveHundred => st.bestScore >= 500
    case ThousandClub => st.bestScore >= 1000
    case Perfectionist => st.consecutiveGrowth >= 3
    case Marathon => st.longestSession >= 600
    case EarlyBird => st.playedMorning
    case NightOwl => st.playedNight
  }

  /** Higher thresholds are harder: a best score that unlocks one milestone unlocks the lower ones. */
  lemma MilestonesNest(st: Stats)
    ensures Condition(ThousandClub, st) ==> Condition(FiveHundred, st)
    ensures Condition(FiveHundred, st) ==> Condition(Centurion, st)
  {
  }

  datatype Unlock = Unlock(unlockedAt: string, name: string, desc: string, icon: string)

  function UnlockOf(a: AchievementId, now: string): Unlock {
    Unlock(now, Describe(a).name, Describe(a).desc, Describe(a).icon)
  }

  /** The food a game is estimated to have eaten: whole fifties of the score above one point per second. */
  function FoodCount(score: int, time: int): (food: int)
    ensures food >= 0
    ensures score - time < 50 ==> food == 0
    ensures score - time >= 50 ==> 50 * food <= score - time < 50 * (food + 1)
  {
    var f := (score - time) / 50;
    if f > 0 then f else 0
  }

  function FoodRate(food: int, time: int): real
    requires time > 0
  {
    food as real / time as real
  }

  predicate MorningHour(h: int) {
    6 <= h < 9
  }

  predicate NightHour(h: int) {
    h >= 22 || h < 4
  }

  predicate IsLeapYear(y: int) {
    y % 4 == 0 && (y % 100 != 0 || y % 400 == 0)
  }

  function DaysInMonth(y: int, m: int): int {
    if m == 2 then (if IsLeapYear(y) then 29 else 28)
    else if m == 4 || m == 6 || m == 9 || m == 11 then 30
    else 31
  }

  /** The number two ASCII digits spell, if both are digits. */
  function TwoDigits(a: char, b: char): (v: Option<int>)
    ensures v.Some? ==> 0 <= v.value < 100
  {
    if IsDigitChar(a) && IsDigitChar(b) then Some(DigitValue(a) * 10 + DigitValue(b)) else None
  }

  /**
   * The hour of a date in the `YYYY-MM-DD HH:MM:SS` layout the game itself
   * writes, or `None` for any other text: a different layout, a field that
   * is not two (or four) digits, or a date or time of day that does not
   * exist. `datetime.strptime` also accepts a few texts the game never
   * writes (single-digit fields, for one); those read as `None` here.
   */
  function ParseHour(d: string): (h: Option<int>)
    ensures h.Some? ==> 0 <= h.value < 24
  {
    if |d| != 19 || d[4] != '-' || d[7] != '-' || d[10] != ' ' || d[13] != ':' || d[16] != ':' then None
    else
      var century, yy := TwoDigits(d[0], d[1]), TwoDigits(d[2], d[3]);
      var month, day := TwoDigits(d[5], d[6]), TwoDigits(d[8], d[9]);
      var hour, minute, second := TwoDigits(d[11], d[12]), TwoDigits(d[14], d[15]), TwoDigits(d[17], d[18]);
      if century.None? || yy.None? || month.None? || day.None? || hour.None? || minute.None? || second.None? then None
      else
        var year := century.value * 100 + yy.value;
        if year < 1 || !(1 <= month.value <= 12) || !(1 <= day.value <= DaysInMonth(year, month.value)) then None
        else if hour.value > 23 || minute.value > 59 || second.value > 59 then None
        else Some(hour.value)
  }

  /** The hour a record was played at: only a date containing a space is parsed. */
  function RecordHour(date: string): Option<int> {
    if ' ' in date then ParseHour(date) else None
  }

  /** The figures `load_game_data_from_scores` accumulates over the records. */
  datatype Tally = Tally(
    totalScore: int, totalTime: int, bestScore: int, bestSurvivalTime: int,
    maxFood: int, bestEfficiency: real, morning: bool, night: bool,
    scores: seq<int>, times: seq<int>)

  const EMPTY_TALLY := Tally(0, 0, 0, 0, 0, 0.0, false, false, [], [])

  /** One pass of the loop body of `load_game_data_from_scores`; a record whose time is not an integer is skipped. */
  function Count(t: Tally, r: Record): Tally {
    match ParseInt(r.time)
    case None => t
    case Some(time) =>
      var food := FoodCount(r.score, time);
      var hour := RecordHour(r.date);
      Tally(
        t.totalScore + r.score, t.totalTime + time,
        if r.score > t.bestScore then r.score else t.bestScore,
        if time > t.bestSurvivalTime then time else t.bestSurvivalTime,
        if food > t.maxFood then food else t.maxFood,
        if time > 0 && FoodRate(food, time) > t.bestEfficiency then FoodRate(food, time) else t.bestEfficiency,
        t.morning || (hour.Some? && MorningHour(hour.value)),
        t.night || (hour.Some? && NightHour(hour.value)),
        t.scores + [r.score], t.times + [time])
  }

  /** The tally over `rs`, one record after the other. */
  function TallyOf(rs: seq<Record>): Tally {
    if rs == [] then EMPTY_TALLY else Count(TallyOf(rs[..|rs| - 1]), rs[|rs| - 1])
  }

  /** A record whose time field is an integer, which every record `get_rankings` returns is. */
  predicate Counted(r: Record) {
    ParseInt(r.time).Some?
  }

  /** A counted record adds its score and time at the end of the lists; any other leaves the tally as it is. */
  lemma CountStep(t: Tally, r: Record)
    ensures !Counted(r) ==> Count(t, r) == t
    ensures Counted(r) ==> Count(t, r).scores == t.scores + [r.score] &&
                           Count(t, r).times == t.times + [ParseInt(r.time).value]
    ensures Count(t, r).morning == (t.morning || PlayedAt(r, 6, 9))
    ensures Count(t, r).night == (t.night || PlayedAt(r, 22, 24) || PlayedAt(r, 0, 4))
  {
  }

  /** The totals are the sums of the counted scores and times. */
  lemma {:induction false} TallyTotals(rs: seq<Record>)
    ensures var t := TallyOf(rs);
      |t.scores| == |t.times| && t.totalScore == Sum(t.scores) && t.totalTime == Sum(t.times)
  {
    if rs != [] {
      var p := rs[..|rs| - 1];
      TallyTotals(p);
      CountStep(TallyOf(p), rs[|rs| - 1]);
    }
  }

  /** `best_score` is the largest counted score, or 0 when that is larger. */
  lemma {:induction false} TallyBestScore(rs: seq<Record>)
    ensures var t := TallyOf(rs);
      t.bestScore >= 0 && (forall i :: 0 <= i < |t.scores| ==> t.bestScore >= t.scores[i]) &&
      (t.bestScore == 0 || exists i :: 0 <= i < |t.scores| && t.bestScore == t.scores[i])
  {
    if rs != [] {
      var p := rs[..|rs| - 1];
      TallyBestScore(p);
      var t0, t := TallyOf(p), TallyOf(rs);
      CountStep(t0, rs[|rs| - 1]);
      if t != t0 && t.bestScore != 0 {
        if t.bestScore == t0.bestScore {
          var i :| 0 <= i < |t0.scores| && t0.bestScore == t0.scores[i];
          assert t.scores[i] == t0.scores[i];
        } else {
          assert t.bestScore == t.scores[|t.scores| - 1];
        }
      }
    }
  }

  /** `best_survival_time` is the largest counted time, or 0 when that is larger. */
  lemma {:induction false} TallyBestTime(rs: seq<Record>)
    ensures var t := TallyOf(rs);
      t.bestSurvivalTime >= 0 && (forall i :: 0 <= i < |t.times| ==> t.bestSurvivalTime >= t.times[i]) &&
      (t.bestSurvivalTime == 0 || exists i :: 0 <= i < |t.times| && t.bestSurvivalTime == t.times[i])
  {
    if rs != [] {
      var p := rs[..|rs| - 1];
      TallyBestTime(p);
      var t0, t := TallyOf(p), TallyOf(rs);
      CountStep(t0, rs[|rs| - 1]);
      if t != t0 && t.bestSurvivalTime != 0 {
        if t.bestSurvivalTime == t0.bestSurvivalTime {
          var i :| 0 <= i < |t0.times| && t0.bestSurvivalTime == t0.times[i];
          assert t.times[i] == t0.times[i];
        } else {
          assert t.bestSurvivalTime == t.times[|t.times| - 1];
        }
      }
    }
  }

  /** `max_food_in_game` is the largest food estimate of a counted record, or 0 when there is none. */
  lemma {:induction false} TallyMaxFood(rs: seq<Record>)
    ensures var t := TallyOf(rs);
      |t.scores| == |t.times| &&
      (forall i :: 0 <= i < |t.scores| ==> t.maxFood >= FoodCount(t.scores[i], t.times[i])) &&
      (t.maxFood == 0 || exists i :: 0 <= i < |t.scores| && t.maxFood == FoodCount(t.scores[i], t.times[i]))
  {
    TallyTotals(rs);
    if rs != [] {
      var p := rs[..|rs| - 1];
      TallyMaxFood(p);
      CountStep(TallyOf(p), rs[|rs| - 1]);
    }
  }

  /** Every counted score comes from a record, in record order. */
  lemma {:induction false} TallyScoresFromRecords(rs: seq<Record>)
    ensures var t := TallyOf(rs);
      |t.scores| <= |rs| &&
      forall i :: 0 <= i < |t.scores| ==> exists k :: 0 <= k < |rs| && rs[k].score == t.scores[i]
  {
    if rs != [] {
      var p := rs[..|rs| - 1];
      TallyScoresFromRecords(p);
      var t0, t := TallyOf(p), TallyOf(rs);
      CountStep(t0, rs[|rs| - 1]);
      forall i | 0 <= i < |t.scores| ensures exists k :: 0 <= k < |rs| && rs[k].score == t.scores[i] {
        if i < |t0.scores| {
          var k :| 0 <= k < |p| && p[k].score == t0.scores[i];
          assert rs[k] == p[k];
          if t != t0 {
            assert t.scores[i] == t0.scores[i];
          }
        } else {
          assert rs[|rs| - 1].score == t.scores[i];
        }
      }
    }
  }

  /** Records in descending score order give counted scores in descending order. */
  lemma {:induction false} TallyScoresDescending(rs: seq<Record>)
    requires forall i, j :: 0 <= i < j < |rs| ==> rs[i].score >= rs[j].score
    ensures NonIncreasing(TallyOf(rs).scores)
  {
    if rs != [] {
      var p := rs[..|rs| - 1];
      TallyScoresDescending(p);
      TallyScoresFromRecords(p);
      var t0, t := TallyOf(p), TallyOf(rs);
      CountStep(t0, rs[|rs| - 1]);
      if t != t0 {
        forall i, j | 0 <= i < j < |t.scores| ensures t.scores[i] >= t.scores[j] {
          if j == |t.scores| - 1 {
            var k :| 0 <= k < |p| && p[k].score == t0.scores[i];
            assert t.scores[i] == rs[k].score;
          } else {
            assert t.scores[i] == t0.scores[i] && t.scores[j] == t0.scores[j];
          }
        }
      }
    }
  }

  /** A counted record whose date has an hour in `[lo, hi)`. */
  predicate PlayedAt(r: Record, lo: int, hi: int) {
    Counted(r) && RecordHour(r.date).Some? && lo <= RecordHour(r.date).value < hi
  }

  /** A counted record played in the morning hours. */
  predicate MorningRecord(r: Record) {
    PlayedAt(r, 6, 9)
  }

  /** A counted record played in the night hours. */
  predicate NightRecord(r: Record) {
    PlayedAt(r, 22, 24) || PlayedAt(r, 0, 4)
  }

  /** Some record of `rs` satisfies `f`. */
  predicate AnyRecord(rs: seq<Record>, f: Record -> bool) {
    exists k :: 0 <= k < |rs| && f(rs[k])
  }

  /** Adding a record at the end adds its own answer to the question. */
  lemma AnyRecordSnoc(rs: seq<Record>, f: Record -> bool)
    requires rs != []
    ensures AnyRecord(rs, f) <==> AnyRecord(rs[..|rs| - 1], f) || f(rs[|rs| - 1])
  {
    var p := rs[..|rs| - 1];
    if AnyRecord(p, f) {
      var k :| 0 <= k < |p| && f(p[k]);
      assert rs[k] == p[k];
    }
    if AnyRecord(rs, f) {
      var k :| 0 <= k < |rs| && f(rs[k]);
      if k < |p| {
        assert rs[k] == p[k];
      }
    }
  }

  /** `played_morning` and `played_night` hold iff some counted record has a parsable hour in range. */
  lemma {:induction false} TallyFlags(rs: seq<Record>)
    ensures TallyOf(rs).morning <==> AnyRecord(rs, MorningRecord)
    ensures TallyOf(rs).night <==> AnyRecord(rs, NightRecord)
  {
    if rs != [] {
      var p := rs[..|rs| - 1];
      TallyFlags(p);
      CountStep(TallyOf(p), rs[|rs| - 1]);
      AnyRecordSnoc(rs, MorningRecord);
      AnyRecordSnoc(rs, NightRecord);
    }
  }

  /** The stats `load_game_data_from_scores` computes from a non-empty history. */
  ghost predicate StatsOfHistory(st: Stats, rs: seq<Record>) {
    var t := TallyOf(rs);
    st.gamesPlayed == |rs| && st.totalScore == t.totalScore && st.totalTime == t.totalTime &&
    st.bestScore == t.bestScore && st.bestSurvivalTime == t.bestSurvivalTime &&
    st.maxFoodInGame == t.maxFood && st.bestFoodEfficiency == t.bestEfficiency &&
    st.longestSession == (if t.times == [] then 0 else MaxOf(t.times)) &&
    IsLongestRun(Rises(t.scores), st.consecutiveGrowth) &&
    st.playedMorning == t.morning && st.playedNight == t.night
  }

  /** A non-increasing score list has no consecutive growth. */
  lemma NoGrowthWithoutRises(s: seq<int>, n: int)
    requires NonIncreasing(s)
    requires IsLongestRun(Rises(s), n)
    ensures n == 0
  {
    NonIncreasingNoRises(s);
    NoTrueNoRun(Rises(s), n);
  }

  /** A history in descending score order has no growth at all. */
  lemma DescendingHistoryNoGrowth(rs: seq<Record>, n: int)
    requires forall i, j :: 0 <= i < j < |rs| ==> rs[i].score >= rs[j].score
    requires IsLongestRun(Rises(TallyOf(rs).scores), n)
    ensures n == 0
  {
    TallyScoresDescending(rs);
    NoGrowthWithoutRises(TallyOf(rs).scores, n);
  }

  /**
   * The history `get_rankings` gives is in descending score order, so the
   * consecutive growth recomputed from it is always 0.
   */
  lemma LoadedGrowthIsZero(lines: seq<string>, st: Stats)
    requires StatsOfHistory(st, Rankings(lines))
    ensures st.consecutiveGrowth == 0
  {
    RankingsOrder(lines);
    DescendingHistoryNoGrowth(Rankings(lines), st.consecutiveGrowth);
  }

  /** The stats after one more game (`update_stats`), played at `hour`. */
  function AfterGame(st: Stats, score: int, time: int, session: int, hour: int): (r: Stats)
    ensures r.gamesPlayed == st.gamesPlayed + 1
    ensures r.totalScore == st.totalScore + score && r.totalTime == st.totalTime + time
    ensures r.bestScore >= st.bestScore && r.bestScore >= score && (r.bestScore == st.bestScore || r.bestScore == score)
    ensures r.bestSurvivalTime >= st.bestSurvivalTime && r.bestSurvivalTime >= time
    ensures r.maxFoodInGame >= st.maxFoodInGame && r.maxFoodInGame >= FoodCount(score, time)
    ensures r.bestFoodEfficiency >= st.bestFoodEfficiency
    ensures time > 0 ==> r.bestFoodEfficiency >= FoodRate(FoodCount(score, time), time)
    ensures r.longestSession >= st.longestSession && r.longestSession >= session
    ensures r.consecutiveGrowth == st.consecutiveGrowth
    ensures r.playedMorning == (st.playedMorning || MorningHour(hour))
    ensures r.playedNight == (st.playedNight || NightHour(hour))
  {
    var food := FoodCount(score, time);
    Stats(
      st.gamesPlayed + 1, st.totalScore + score, st.totalTime + time,
      if score > st.bestScore then score else st.bestScore,
      if time > st.bestSurvivalTime then time else st.bestSurvivalTime,
      if food > st.maxFoodInGame then food else st.maxFoodInGame,
      if time > 0 && FoodRate(food, time) > st.bestFoodEfficiency then FoodRate(food, time) else st.bestFoodEfficiency,
      if session > st.longestSession then session else st.longestSession,
      st.consecutiveGrowth,
      st.playedMorning || MorningHour(hour),
      st.playedNight || NightHour(hour))
  }

  /** The unlocked map after checking the achievements `ids` in order. */
  function AfterCheck(u: map<string, Unlock>, st: Stats, ids: seq<AchievementId>, now: string): map<string, Unlock> {
    if ids == [] then u
    else
      var before := AfterCheck(u, st, ids[..|ids| - 1], now);
      var a := ids[|ids| - 1];
      if Key(a) !in before && Condition(a, st) then before[Key(a) := UnlockOf(a, now)] else before
  }

  /** The achievements that checking `ids` in order unlocks, in that order. */
  function NewlyUnlocked(u: map<string, Unlock>, st: Stats, ids: seq<AchievementId>, now: string): seq<AchievementId> {
    if ids == [] then []
    else
      var before := AfterCheck(u, st, ids[..|ids| - 1], now);
      var a := ids[|ids| - 1];
      NewlyUnlocked(u, st, ids[..|ids| - 1], now) + (if Key(a) !in before && Condition(a, st) then [a] else [])
  }

  /**
   * Checking never removes or changes an unlocked entry, adds entries only
   * for met conditions, and leaves every met condition unlocked.
   */
  lemma {:induction false} CheckMonotone(u: map<string, Unlock>, st: Stats, ids: seq<AchievementId>, now: string)
    ensures var r := AfterCheck(u, st, ids, now);
      (forall k :: k in u ==> k in r && r[k] == u[k]) &&
      (forall k :: k in r && k !in u ==> exists a :: a in ids && Key(a) == k && Condition(a, st) && r[k] == UnlockOf(a, now)) &&
      (forall a :: a in ids && Condition(a, st) ==> Key(a) in r)
  {
    if ids != [] {
      var p := ids[..|ids| - 1];
      CheckMonotone(u, st, p, now);
      forall a | a in p ensures a in ids {
      }
    }
  }

  /** The ids reported are exactly the conditions met and not yet unlocked, each once. */
  lemma {:induction false} NewlyUnlockedExactly(u: map<string, Unlock>, st: Stats, ids: seq<AchievementId>, now: string)
    requires forall i, j :: 0 <= i < j < |ids| ==> ids[i] != ids[j]
    ensures forall a :: a in NewlyUnlocked(u, st, ids, now) <==> a in ids && Key(a) !in u && Condition(a, st)
    ensures forall k :: k in AfterCheck(u, st, ids, now) <==>
      k in u || exists a :: a in NewlyUnlocked(u, st, ids, now) && Key(a) == k
  {
    if ids != [] {
      var p := ids[..|ids| - 1];
      var a := ids[|ids| - 1];
      NewlyUnlockedExactly(u, st, p, now);
      CheckMonotone(u, st, p, now);
      var before := AfterCheck(u, st, p, now);
      assert a !in p;
      if Key(a) in before && Key(a) !in u {
        var b :| b in NewlyUnlocked(u, st, p, now) && Key(b) == Key(a);
        KeyInjective(a, b);
      }
      forall b | b in ids ensures b in p || b == a {
        var i :| 0 <= i < |ids| && ids[i] == b;
        if i < |ids| - 1 {
          assert p[i] == b;
        }
      }
    }
  }

  lemma KeyInjective(a: AchievementId, b: AchievementId)
    requires Key(a) == Key(b)
    ensures a == b
  {
  }

  /** Once every met condition is unlocked, checking again unlocks nothing. */
  lemma {:induction false} CheckSettled(u: map<string, Unlock>, st: Stats, ids: seq<AchievementId>, now: string)
    requires forall a :: a in ids && Condition(a, st) ==> Key(a) in u
    ensures AfterCheck(u, st, ids, now) == u
    ensures NewlyUnlocked(u, st, ids, now) == []
  {
    if ids != [] {
      var p := ids[..|ids| - 1];
      forall a | a in p ensures a in ids {
      }
      CheckSettled(u, st, p, now);
    }
  }

  /** A second check with unchanged stats finds nothing new. */
  lemma CheckIdempotent(u: map<string, Unlock>, st: Stats, now: string, later: string)
    ensures var r := AfterCheck(u, st, DEFINITIONS, now);
      NewlyUnlocked(r, st, DEFINITIONS, later) == [] && AfterCheck(r, st, DEFINITIONS, later) == r
  {
    CheckMonotone(u, st, DEFINITIONS, now);
    CheckSettled(AfterCheck(u, st, DEFINITIONS, now), st, DEFINITIONS, later);
  }

  function Min100(x: real): real {
    if x < 100.0 then x else 100.0
  }

  /** `min(100, value / threshold * 100)`. */
  function Share(value: real, threshold: real): real
    requires threshold > 0.0
  {
    Min100(value / threshold * 100.0)
  }

  /** The progress percentage of an achievement that is not unlocked yet. */
  function Progress(a: AchievementId, st: Stats): real {
    match a
    case FirstBlood => if st.gamesPlayed < 1 then Min100(st.gamesPlayed as real / 1.0 * 100.0) else 100.0
    case Centurion => Share(st.bestScore as real, 100.0)
    case FiveHundred => Share(st.bestScore as real, 500.0)
    case ThousandClub => Share(st.bestScore as real, 1000.0)
    case Survivor => Share(st.bestSurvivalTime as real, 180.0)
    case FoodMaster => Share(st.maxFoodInGame as real, 50.0)
    case SpeedDemon => Share(st.bestFoodEfficiency, 2.0)
    case Marathon => Share(st.longestSession as real, 600.0)
    case Perfectionist => Share(st.consecutiveGrowth as real, 3.0)
    case EarlyBird => if Condition(a, st) then 100.0 else 0.0
    case NightOwl => if Condition(a, st) then 100.0 else 0.0
  }

  lemma ShareFull(value: real, threshold: real)
    requires threshold > 0.0
    ensures Share(value, threshold) <= 100.0
    ensures Share(value, threshold) == 100.0 <==> value >= threshold
  {
    if value >= threshold {
      assert value / threshold >= 1.0;
    } else {
      assert value / threshold < 1.0;
    }
  }

  /** A progress is at most 100, and reaches 100 exactly when the condition holds. */
  lemma ProgressMatchesCondition(a: AchievementId, st: Stats)
    ensures Progress(a, st) <= 100.0
    ensures Progress(a, st) == 100.0 <==> Condition(a, st)
  {
    match a
    case FirstBlood =>
    case Centurion => ShareFull(st.bestScore as real, 100.0);
    case FiveHundred => ShareFull(st.bestScore as real, 500.0);
    case ThousandClub => ShareFull(st.bestScore as real, 1000.0);
    case Survivor => ShareFull(st.bestSurvivalTime as real, 180.0);
    case FoodMaster => ShareFull(st.maxFoodInGame as real, 50.0);
    case SpeedDemon => ShareFull(st.bestFoodEfficiency, 2.0);
    case Marathon => ShareFull(st.longestSession as real, 600.0);
    case Perfectionist => ShareFull(st.consecutiveGrowth as real, 3.0);
    case EarlyBird =>
    case NightOwl =>
  }

  /** What is saved in `achievements.json`. */
  datatype Snapshot = Snapshot(stats: Stats, unlocked: map<string, Unlock>)

  class AchievementSystem {
    var stats: Stats
    var unlocked: map<string, Unlock>
    /** The contents of the achievements file. */
    var saved: Snapshot

    /** `__init__`: the state stored in the file, or nothing when there is no usable file. */
    constructor(stored: Snapshot)
      ensures stats == stored.stats && unlocked == stored.unlocked && saved == stored
    {
      stats := stored.stats;
      unlocked := stored.unlocked;
      saved := stored;
    }

    /**
     * `check_achievements()`: unlocks, in definition order, every
     * achievement whose condition holds and that is not unlocked yet; saves
     * when something was unlocked.
     */
    method CheckAchievements(now: string) returns (newIds: seq<AchievementId>)
      modifies this
      ensures stats == old(stats)
      ensures unlocked == AfterCheck(old(unlocked), stats, DEFINITIONS, now)
      ensures newIds == NewlyUnlocked(old(unlocked), stats, DEFINITIONS, now)
      ensures newIds != [] ==> saved == Snapshot(stats, unlocked)
      ensures newIds == [] ==> saved == old(saved) && unlocked == old(unlocked)
    {
      newIds := UnlockMet(DEFINITIONS, now);
      if newIds != [] {
        saved := Snapshot(stats, unlocked);
      }
    }

    /** The loop of `check_achievements` over the definitions `ids`, in order. */
    method UnlockMet(ids: seq<AchievementId>, now: string) returns (newIds: seq<AchievementId>)
      modifies this
      ensures stats == old(stats) && saved == old(saved)
      ensures unlocked == AfterCheck(old(unlocked), stats, ids, now)
      ensures newIds == NewlyUnlocked(old(unlocked), stats, ids, now)
      ensures newIds == [] ==> unlocked == old(unlocked)
    {
      var u0 := unlocked;
      newIds := [];
      var i := 0;
      while i < |ids|
        invariant 0 <= i <= |ids|
        invariant stats == old(stats) && saved == old(saved)
        invariant unlocked == AfterCheck(u0, stats, ids[..i], now)
        invariant newIds == NewlyUnlocked(u0, stats, ids[..i], now)
        invariant newIds == [] ==> unlocked == u0
      {
        var a := ids[i];
        assert ids[..i + 1][..i] == ids[..i];
        if Key(a) !in unlocked && Condition(a, stats) {
          unlocked := unlocked[Key(a) := UnlockOf(a, now)];
          newIds := newIds + [a];
        }
        i := i + 1;
      }
      assert ids[..|ids|] == ids;
    }

    /** `calculate_consecutive_growth(scores)`: the longest run of strict increases between neighbours. */
    static method CalculateConsecutiveGrowth(scores: seq<int>) returns (maxStreak: int)
      ensures IsLongestRun(Rises(scores), maxStreak)
    {
      ghost var bs := Rises(scores);
      ScanRunsLongest(bs);
      if |scores| < 2 {
        return 0;
      }
      maxStreak := 0;
      var currentStreak := 0;
      var i := 1;
      while i < |scores|
        invariant 1 <= i <= |scores|
        invariant Streak(currentStreak, maxStreak) == ScanRuns(bs[..i - 1])
      {
        assert bs[..i][..i - 1] == bs[..i - 1];
        if scores[i] > scores[i - 1] {
          currentStreak := currentStreak + 1;
          maxStreak := if maxStreak > currentStreak then maxStreak else currentStreak;
        } else {
          currentStreak := 0;
        }
        i := i + 1;
      }
      assert bs[..i - 1] == bs;
    }

    /**
     * One pass of the loop of `load_game_data_from_scores`: a record whose
     * time is an integer adds to the totals, raises the maxima it beats,
     * sets the time-of-day flags and joins the score and time lists.
     */
    static method AbsorbRecord(t: Tally, r: Record) returns (t': Tally)
      ensures t' == Count(t, r)
    {
      t' := t;
      match ParseInt(r.time) {
        case None =>
        case Some(time) =>
          t' := t'.(totalScore := t'.totalScore + r.score, totalTime := t'.totalTime + time);
          if r.score > t'.bestScore {
            t' := t'.(bestScore := r.score);
          }
          if time > t'.bestSurvivalTime {
            t' := t'.(bestSurvivalTime := time);
          }
          var food := FoodCount(r.score, time);
          if food > t'.maxFood {
            t' := t'.(maxFood := food);
          }
          if time > 0 {
            var efficiency := FoodRate(food, time);
            if efficiency > t'.bestEfficiency {
              t' := t'.(bestEfficiency := efficiency);
            }
          }
          var morning, night := MarkTimeOfDay(r.date, t'.morning, t'.night);
          t' := t'.(morning := morning, night := night, scores := t'.scores + [r.score], times := t'.times + [time]);
      }
    }

    /** The inner `try` of the loop: a date that parses raises the morning or night flag its hour falls in. */
    static method MarkTimeOfDay(date: string, morning: bool, night: bool) returns (morning': bool, night': bool)
      ensures morning' == (morning || (RecordHour(date).Some? && MorningHour(RecordHour(date).value)))
      ensures night' == (night || (RecordHour(date).Some? && NightHour(RecordHour(date).value)))
    {
      morning', night' := morning, night;
      match RecordHour(date) {
        case None =>
        case Some(hour) =>
          if MorningHour(hour) {
            morning' := true;
          }
          if NightHour(hour) {
            night' := true;
          }
      }
    }

    /**
     * `load_game_data_from_scores()` on the history `rankings`: an empty
     * history changes nothing; otherwise the stats are recomputed from the
     * history and the achievements checked, which saves them only when
     * something was unlocked.
     */
    method LoadGameDataFromScores(rankings: seq<Record>, now: string)
      modifies this
      ensures rankings == [] ==> unchanged(this)
      ensures rankings != [] ==> StatsOfHistory(stats, rankings)
      ensures rankings != [] ==> unlocked == AfterCheck(old(unlocked), stats, DEFINITIONS, now)
      ensures rankings != [] ==>
        saved == (if NewlyUnlocked(old(unlocked), stats, DEFINITIONS, now) != [] then Snapshot(stats, unlocked)
                  else old(saved))
    {
      if rankings == [] {
        return;
      }
      var tally := EMPTY_TALLY;
      var i := 0;
      while i < |rankings|
        invariant 0 <= i <= |rankings|
        invariant tally == TallyOf(rankings[..i])
        invariant unchanged(this)
      {
        assert rankings[..i + 1][..i] == rankings[..i];
        tally := AbsorbRecord(tally, rankings[i]);
        i := i + 1;
      }
      assert rankings[..|rankings|] == rankings;
      var growth := CalculateConsecutiveGrowth(tally.scores);
      var longest := if tally.times != [] then MaxOf(tally.times) else 0;
      stats := Stats(|rankings|, tally.totalScore, tally.totalTime, tally.bestScore, tally.bestSurvivalTime,
        tally.maxFood, tally.bestEfficiency, longest, growth, tally.morning, tally.night);
      assert StatsOfHistory(stats, rankings);
      var _ := CheckAchievements(now);
    }

    /** `update_stats(game_data)` for a game played at `hour`: the stats absorb it, then are checked and saved. */
    method UpdateStats(score: int, time: int, session: int, hour: int, now: string)
      modifies this
      ensures stats == AfterGame(old(stats), score, time, session, hour)
      ensures unlocked == AfterCheck(old(unlocked), stats, DEFINITIONS, now)
      ensures saved == Snapshot(stats, unlocked)
    {
      stats := AbsorbGame(stats, score, time, session, hour);
      var _ := CheckAchievements(now);
      saved := Snapshot(stats, unlocked);
    }

    /** The updates `update_stats` makes to the stats, one figure after the other. */
    static method AbsorbGame(st: Stats, score: int, time: int, session: int, hour: int) returns (st': Stats)
      ensures st' == AfterGame(st, score, time, session, hour)
    {
      var bestScore, bestTime, maxFood := st.bestScore, st.bestSurvivalTime, st.maxFoodInGame;
      var bestEfficiency, longest := st.bestFoodEfficiency, st.longestSession;
      var morning, night := st.playedMorning, st.playedNight;
      if score > bestScore {
        bestScore := score;
      }
      if time > bestTime {
        bestTime := time;
      }
      var food := FoodCount(score, time);
      if food > maxFood {
        maxFood := food;
      }
      if time > 0 {
        var efficiency := FoodRate(food, time);
        if efficiency > bestEfficiency {
          bestEfficiency := efficiency;
        }
      }
      if MorningHour(hour) {
        morning := true;
      }
      if NightHour(hour) {
        night := true;
      }
      if session > longest {
        longest := session;
      }
      st' := Stats(st.gamesPlayed + 1, st.totalScore + score, st.totalTime + time,
        bestScore, bestTime, maxFood, bestEfficiency, longest, st.consecutiveGrowth, morning, night);
    }

    /** `get_progress(achievement_id)`. */
    function GetProgress(key: string): (p: real)
      reads this
      ensures key in unlocked ==> p == 100.0
      ensures key !in unlocked && IdOf(key).None? ==> p == 0.0
      ensures key !in unlocked && IdOf(key).Some? ==> p == Progress(IdOf(key).value, stats)
    {
      if key in unlocked then 100.0
      else match IdOf(key)
        case None => 0.0
        case Some(a) => Progress(a, stats)
    }
  }

  /** After a check, an achievement shows 100 % exactly when it is unlocked or its condition holds. */
  lemma ProgressAfterCheck(u: map<string, Unlock>, st: Stats, now: string, a: AchievementId)
    requires Key(a) !in u
    ensures var r := AfterCheck(u, st, DEFINITIONS, now);
      Key(a) in r <==> Condition(a, st)
  {
    CheckMonotone(u, st, DEFINITIONS, now);
    var r := AfterCheck(u, st, DEFINITIONS, now);
    if Key(a) in r {
      var b :| b in DEFINITIONS && Key(b) == Key(a) && Condition(b, st) && r[Key(a)] == UnlockOf(b, now);
      KeyInjective(a, b);
    }
  }

  /** A best score of 150 shows `thousand_club` at 15 %. */
  lemma ThousandClubExample(st: Stats)
    requires st.bestScore == 150
    ensures Progress(ThousandClub, st) == 15.0
  {
  }

  /** The scores 100, 200, 150, 300 rise at most once in a row. */
  lemma GrowthExample()
    ensures IsLongestRun(Rises([100, 200, 150, 300]), 1)
  {
    var bs := Rises([100, 200, 150, 300]);
    assert bs == [true, false, true];
    assert RunAt(bs, 0, 1);
    forall lo, hi | AllTrue(bs, lo, hi) ensures hi - lo <= 1 {
      RunAvoids(bs, 1, lo, hi);
    }
  }
}
