/**
 * The level catalogue `levels.json` and the best-result table
 * `level_scores.json` (`LevelManager`): five built-in levels seeded on
 * first run, custom levels appended with generated ids, the catalogue
 * ordering, lookup by id, and the "keep only the best result" rule.
 *
 * Both files are in-memory values; a file `json.load` cannot read is the
 * `Corrupt...` case, which every reader treats as the source's `except`
 * fallback does.
 */
module LevelManage {
  import opened Wrappers
  import opened Text
  import opened Sorting
  import opened Series
  import opened Geometry

  datatype Level = Level(
    levelId: string, name: string, scoreTarget: int, timeLimit: int,
    speed: int, obstacles: seq<Rect>, isCustom: bool)

  /** `LEVEL_TEMPLATE`: the value of every field a new level does not supply. */
  const TEMPLATE := Level("", "", 0, 0, 10, [], false)

  /** The 40 by 40 obstacle every built-in level uses. */
  function Block(x: int, y: int): Rect {
    Rect(x, y, 40, 40)
  }

  /** The catalogue `init_builtin_levels` writes on first run. */
  const BUILTIN_LEVELS: seq<Level> := [
    Level("level_1", "新手教程", 200, 60, 8, [], false),
    Level("level_2", "初级挑战", 350, 70, 9,
          [Block(200, 200), Block(400, 300), Block(600, 150)], false),
    Level("level_3", "中级挑战", 500, 80, 10,
          [Block(150, 150), Block(350, 250), Block(550, 350), Block(250, 350), Block(450, 150)], false),
    Level("level_4", "高级挑战", 700, 90, 11,
          [Block(100, 100), Block(200, 300), Block(300, 500), Block(400, 200), Block(500, 400),
           Block(600, 100)], false),
    Level("level_5", "终极挑战", 1000, 120, 12,
          [Block(100, 200), Block(180, 350), Block(260, 100), Block(340, 450), Block(420, 200),
           Block(500, 350), Block(580, 100), Block(660, 450)], false)
  ]

  /** `levels.json`: absent, unreadable, or a list of levels. */
  datatype LevelsFile = NoLevelsFile | CorruptLevels | LevelsJson(levels: seq<Level>)

  /** `level_scores.json`: absent, unreadable, or a table from level id to (score, time). */
  datatype ScoresFile = NoScoresFile | CorruptScores | ScoresJson(best: map<string, (int, int)>)

  /**
   * The fields a caller hands to `add_custom_level`; `None` marks a field
   * the dictionary does not hold.
   */
  datatype LevelData = LevelData(
    levelId: Option<string>, name: Option<string>, scoreTarget: Option<int>,
    timeLimit: Option<int>, speed: Option<int>, obstacles: Option<seq<Rect>>,
    isCustom: Option<bool>)

  function Given<T>(o: Option<T>, otherwise: T): T {
    if o.Some? then o.value else otherwise
  }

  /** The sort key `(is_custom, level_id)`: `False` sorts before `True`, then ids as strings. */
  function LevelKey(l: Level): seq<int> {
    [if l.isCustom then 1 else 0] + Codes(l.levelId)
  }

  /** `get_all_levels()`: the sorted catalogue, or nothing when the file cannot be read. */
  function AllLevels(file: LevelsFile): (levels: seq<Level>)
    ensures file.LevelsJson? ==> |levels| == |file.levels|
  {
    if file.LevelsJson? then SortByKey(file.levels, LevelKey) else []
  }

  /** The catalogue is the file's levels, built-in ones first, each group ordered by id as text. */
  lemma AllLevelsOrder(file: LevelsFile)
    ensures file.LevelsJson? ==> multiset(AllLevels(file)) == multiset(file.levels)
    ensures !file.LevelsJson? ==> AllLevels(file) == []
    ensures forall i, j :: 0 <= i < j < |AllLevels(file)| && AllLevels(file)[i].isCustom ==>
      AllLevels(file)[j].isCustom
    ensures forall i, j :: 0 <= i < j < |AllLevels(file)| && AllLevels(file)[i].isCustom == AllLevels(file)[j].isCustom ==>
      !LexLess(Codes(AllLevels(file)[j].levelId), Codes(AllLevels(file)[i].levelId))
  {
    if file.LevelsJson? {
      var s := AllLevels(file);
      SortByKeySorted(file.levels, LevelKey);
      forall i, j | 0 <= i < j < |s| ensures !LexLess(LevelKey(s[j]), LevelKey(s[i])) {
      }
      forall i, j | 0 <= i < j < |s| && s[i].isCustom == s[j].isCustom
        ensures !LexLess(Codes(s[j].levelId), Codes(s[i].levelId))
      {
        assert !LexLess(LevelKey(s[j]), LevelKey(s[i]));
        assert LevelKey(s[i])[1..] == Codes(s[i].levelId);
        assert LevelKey(s[j])[1..] == Codes(s[j].levelId);
      }
    }
  }

  /** Ids order as text, not as numbers: `custom_10` is listed before `custom_2`. */
  lemma CustomTenBeforeTwo(file: LevelsFile, i: int, j: int)
    requires 0 <= i < |AllLevels(file)| && 0 <= j < |AllLevels(file)|
    requires AllLevels(file)[i] == Level("custom_10", "", 0, 0, 10, [], true)
    requires AllLevels(file)[j] == Level("custom_2", "", 0, 0, 10, [], true)
    ensures i < j
  {
    AllLevelsOrder(file);
    var a, b := Codes("custom_10"), Codes("custom_2");
    assert a[..7] == b[..7] && a[7] < b[7];
    assert LexLess(a[7..], b[7..]);
    assert LexLess(a[6..], b[6..]);
    assert LexLess(a[5..], b[5..]);
    assert LexLess(a[4..], b[4..]);
    assert LexLess(a[3..], b[3..]);
    assert LexLess(a[2..], b[2..]);
    assert LexLess(a[1..], b[1..]);
    assert LexLess(a, b);
  }

  /** `get_level_by_id`'s answer: the first level in `levels` with the id, if any. */
  function FirstWithId(levels: seq<Level>, id: string): Option<Level> {
    if levels == [] then None
    else if levels[0].levelId == id then Some(levels[0])
    else FirstWithId(levels[1..], id)
  }

  /** The lookup finds a level exactly when one has the id, and then the first such one. */
  lemma {:induction false} FirstWithIdMeaning(levels: seq<Level>, id: string)
    ensures FirstWithId(levels, id).None? <==> forall i :: 0 <= i < |levels| ==> levels[i].levelId != id
    ensures FirstWithId(levels, id).Some? ==>
      exists i :: 0 <= i < |levels| && levels[i] == FirstWithId(levels, id).value && levels[i].levelId == id &&
        forall j :: 0 <= j < i ==> levels[j].levelId != id
  {
    if levels != [] && levels[0].levelId != id {
      FirstWithIdMeaning(levels[1..], id);
      assert forall i :: 1 <= i < |levels| ==> levels[i] == levels[1..][i - 1];
      if FirstWithId(levels, id).Some? {
        var k :| 0 <= k < |levels[1..]| && levels[1..][k] == FirstWithId(levels, id).value &&
          levels[1..][k].levelId == id && forall j :: 0 <= j < k ==> levels[1..][j].levelId != id;
        assert forall j :: 0 <= j < k + 1 ==> levels[j].levelId != id by {
          forall j | 0 <= j < k + 1 ensures levels[j].levelId != id {
            if j > 0 { assert levels[j] == levels[1..][j - 1]; }
          }
        }
        assert levels[k + 1] == FirstWithId(levels, id).value;
      }
    }
  }

  /** The text after the first `_` of a custom id as a number: `int(level_id.split("_")[1])`. */
  function IdNumber(id: string): Option<int> {
    var parts := Split(id, '_');
    if |parts| < 2 then None else ParseInt(parts[1])
  }

  /**
   * The list `custom_ids` of `add_custom_level`, in catalogue order; `None`
   * stands for the IndexError or ValueError a malformed custom id raises.
   */
  function CustomNumbers(levels: seq<Level>): (r: Option<seq<int>>)
    ensures r.Some? <==> forall i :: 0 <= i < |levels| && levels[i].isCustom ==> IdNumber(levels[i].levelId).Some?
    ensures r.Some? ==> forall i :: 0 <= i < |levels| && levels[i].isCustom ==> IdNumber(levels[i].levelId).value in r.value
    ensures r.Some? ==> forall n :: n in r.value ==>
      exists i :: 0 <= i < |levels| && levels[i].isCustom && IdNumber(levels[i].levelId) == Some(n)
  {
    if levels == [] then Some([])
    else
      var init, l := levels[..|levels| - 1], levels[|levels| - 1];
      assert forall i :: 0 <= i < |init| ==> init[i] == levels[i];
      match CustomNumbers(init)
      case None => None
      case Some(ns) =>
        if !l.isCustom then Some(ns)
        else match IdNumber(l.levelId)
          case None => None
          case Some(n) => Some(ns + [n])
  }

  /** `max(custom_ids) + 1 if custom_ids else 1`. */
  function NextNumber(ns: seq<int>): int {
    if ns == [] then 1 else MaxOf(ns) + 1
  }

  /** The id `custom_<k>`. */
  function CustomId(k: int): string {
    "custom_" + IntToString(k)
  }

  lemma CustomIdNumber(k: int)
    ensures IdNumber(CustomId(k)) == Some(k)
  {
    IntToStringChars(k);
    assert '_' !in IntToString(k);
    assert CustomId(k) == "custom" + ['_'] + IntToString(k);
    SplitPrefix("custom", IntToString(k), '_');
    SplitNoSep(IntToString(k), '_');
    IntToStringRoundTrip(k);
  }

  /** The generated id belongs to no custom level already in the catalogue. */
  lemma NewIdFresh(levels: seq<Level>)
    requires CustomNumbers(levels).Some?
    ensures forall i :: 0 <= i < |levels| && levels[i].isCustom ==>
      levels[i].levelId != CustomId(NextNumber(CustomNumbers(levels).value))
  {
    var ns := CustomNumbers(levels).value;
    var k := NextNumber(ns);
    forall i | 0 <= i < |levels| && levels[i].isCustom
      ensures levels[i].levelId != CustomId(k)
    {
      CustomIdNumber(k);
      assert IdNumber(levels[i].levelId).value in ns;
    }
  }

  /** The level `add_custom_level` builds: the template, the new id and `is_custom`, then the caller's fields. */
  function NewLevel(id: string, data: LevelData): Level {
    Level(Given(data.levelId, id), Given(data.name, TEMPLATE.name),
          Given(data.scoreTarget, TEMPLATE.scoreTarget), Given(data.timeLimit, TEMPLATE.timeLimit),
          Given(data.speed, TEMPLATE.speed), Given(data.obstacles, TEMPLATE.obstacles),
          Given(data.isCustom, true))
  }

  /**
   * A caller that leaves out the id and the custom flag, as the level
   * editor does, gets a custom level under the generated id; every field
   * it does supply is kept and every other one is the template's.
   */
  lemma NewLevelFields(id: string, data: LevelData)
    requires data.levelId.None? && data.isCustom.None?
    ensures NewLevel(id, data).levelId == id && NewLevel(id, data).isCustom
    ensures data.name.Some? ==> NewLevel(id, data).name == data.name.value
    ensures data.name.None? ==> NewLevel(id, data).name == ""
    ensures data.scoreTarget.Some? ==> NewLevel(id, data).scoreTarget == data.scoreTarget.value
    ensures data.scoreTarget.None? ==> NewLevel(id, data).scoreTarget == 0
    ensures data.timeLimit.Some? ==> NewLevel(id, data).timeLimit == data.timeLimit.value
    ensures data.timeLimit.None? ==> NewLevel(id, data).timeLimit == 0
    ensures data.speed.Some? ==> NewLevel(id, data).speed == data.speed.value
    ensures data.speed.None? ==> NewLevel(id, data).speed == 10
    ensures data.obstacles.Some? ==> NewLevel(id, data).obstacles == data.obstacles.value
    ensures data.obstacles.None? ==> NewLevel(id, data).obstacles == []
  {
  }

  /** The table from level id to best (score, time) `save_level_score` starts from. */
  function Stored(file: ScoresFile): map<string, (int, int)> {
    if file.ScoresJson? then file.best else map[]
  }

  /** Whether (score, time) replaces the stored result: a higher score, or the same score sooner. */
  predicate Beats(score: int, time: int, stored: (int, int)) {
    score > stored.0 || (score == stored.0 && time < stored.1)
  }

  /** The table after `save_level_score(level_id, score, time_used)`. */
  function Recorded(best: map<string, (int, int)>, levelId: string, score: int, time: int): map<string, (int, int)> {
    if levelId in best && !Beats(score, time, best[levelId]) then best
    else best[levelId := (score, time)]
  }

  /** `a` is at least as good a result as `b`. */
  predicate NoWorse(a: (int, int), b: (int, int)) {
    a.0 > b.0 || (a.0 == b.0 && a.1 <= b.1)
  }

  /**
   * The first result for a level is stored as it is; later, the stored
   * result is the better of the old one and the new one, so it never gets
   * worse; every other level keeps its entry.
   */
  lemma RecordedBest(best: map<string, (int, int)>, levelId: string, score: int, time: int)
    ensures var r := Recorded(best, levelId, score, time);
      levelId in r && NoWorse(r[levelId], (score, time)) &&
      (levelId !in best ==> r[levelId] == (score, time)) &&
      (levelId in best ==>
        NoWorse(r[levelId], best[levelId]) && (r[levelId] == best[levelId] || r[levelId] == (score, time)))
    ensures var r := Recorded(best, levelId, score, time);
      forall k :: k != levelId ==> (k in r <==> k in best) && (k in best ==> r[k] == best[k])
  {
  }

  /** `get_level_score(level_id)`: the stored result, if the file can be read and holds one. */
  function Lookup(file: ScoresFile, levelId: string): (r: Option<(int, int)>)
    ensures r.Some? <==> file.ScoresJson? && levelId in file.best
  {
    if file.ScoresJson? && levelId in file.best then Some(file.best[levelId]) else None
  }

  /** The results a sequence of attempts at one level leaves in the table. */
  function Replay(best: map<string, (int, int)>, levelId: string, attempts: seq<(int, int)>): map<string, (int, int)> {
    if attempts == [] then best
    else
      var last := attempts[|attempts| - 1];
      Recorded(Replay(best, levelId, attempts[..|attempts| - 1]), levelId, last.0, last.1)
  }

  lemma NoWorseTransitive(a: (int, int), b: (int, int), c: (int, int))
    requires NoWorse(a, b) && NoWorse(b, c)
    ensures NoWorse(a, c)
  {
  }

  /** After any attempts at a level never played before, the table holds the best of them. */
  lemma {:induction false} ReplayKeepsBest(best: map<string, (int, int)>, levelId: string, attempts: seq<(int, int)>)
    requires levelId !in best && attempts != []
    ensures levelId in Replay(best, levelId, attempts)
    ensures Replay(best, levelId, attempts)[levelId] in attempts
    ensures forall i :: 0 <= i < |attempts| ==> NoWorse(Replay(best, levelId, attempts)[levelId], attempts[i])
  {
    var init, last := attempts[..|attempts| - 1], attempts[|attempts| - 1];
    var r := Replay(best, levelId, attempts);
    if init == [] {
      RecordedBest(best, levelId, last.0, last.1);
    } else {
      ReplayKeepsBest(best, levelId, init);
      var prev := Replay(best, levelId, init);
      RecordedBest(prev, levelId, last.0, last.1);
      assert r[levelId] in attempts by {
        assert prev[levelId] in init;
      }
      forall i | 0 <= i < |attempts| ensures NoWorse(r[levelId], attempts[i]) {
        if i < |init| {
          assert attempts[i] == init[i];
          NoWorseTransitive(r[levelId], prev[levelId], attempts[i]);
        }
      }
    }
  }

  class LevelManager {
    var levelFile: LevelsFile
    var scoreFile: ScoresFile

    /** `LevelManager()`: opens the catalogue and seeds it on first run. */
    constructor(levels: LevelsFile, scores: ScoresFile)
      ensures levelFile == (if levels.NoLevelsFile? then LevelsJson(BUILTIN_LEVELS) else levels)
      ensures scoreFile == scores
    {
      levelFile := levels;
      scoreFile := scores;
      new;
      InitBuiltinLevels();
    }

    /** `init_builtin_levels()`: writes the five built-in levels only when there is no file. */
    method InitBuiltinLevels()
      modifies this
      ensures levelFile == (if old(levelFile).NoLevelsFile? then LevelsJson(BUILTIN_LEVELS) else old(levelFile))
      ensures scoreFile == old(scoreFile)
    {
      if levelFile.NoLevelsFile? {
        levelFile := LevelsJson(BUILTIN_LEVELS);
      }
    }

    /** `get_level_by_id(level_id)`: a linear search of the sorted catalogue. */
    method GetLevelById(levelId: string) returns (level: Option<Level>)
      ensures level == FirstWithId(AllLevels(levelFile), levelId)
    {
      var levels := AllLevels(levelFile);
      var i := 0;
      while i < |levels|
        invariant 0 <= i <= |levels|
        invariant FirstWithId(levels[i..], levelId) == FirstWithId(levels, levelId)
      {
        assert levels[i..][1..] == levels[i + 1..];
        if levels[i].levelId == levelId {
          return Some(levels[i]);
        }
        i := i + 1;
      }
      return None;
    }

    /**
     * `add_custom_level(level_data)`: appends one level under the next
     * custom id and writes the catalogue back in sorted order. The
     * required-field check always passes, so the answer is `True`, unless a
     * malformed custom id makes the id generation raise (`None`), which
     * leaves the file as it was.
     */
    method AddCustomLevel(data: LevelData) returns (added: Option<bool>)
      modifies this
      ensures scoreFile == old(scoreFile)
      ensures added.None? <==> CustomNumbers(AllLevels(old(levelFile))).None?
      ensures added.None? ==> levelFile == old(levelFile)
      ensures added.Some? ==>
        added.value &&
        levelFile == LevelsJson(AllLevels(old(levelFile)) +
          [NewLevel(CustomId(NextNumber(CustomNumbers(AllLevels(old(levelFile))).value)), data)])
    {
      var levels := AllLevels(levelFile);
      var customIds := CustomNumbers(levels);
      if customIds.None? {
        return None;
      }
      var newId := CustomId(NextNumber(customIds.value));
      var customLevel := NewLevel(newId, data);
      levelFile := LevelsJson(levels + [customLevel]);
      return Some(true);
    }

    /** `save_level_score(level_id, score, time_used)`: keeps only the best result per level. */
    method SaveLevelScore(levelId: string, score: int, timeUsed: int)
      modifies this
      ensures levelFile == old(levelFile)
      ensures scoreFile == ScoresJson(Recorded(Stored(old(scoreFile)), levelId, score, timeUsed))
    {
      var scores := Stored(scoreFile);
      if levelId in scores {
        var (oldScore, oldTime) := scores[levelId];
        if score > oldScore || (score == oldScore && timeUsed < oldTime) {
          scores := scores[levelId := (score, timeUsed)];
        }
      } else {
        scores := scores[levelId := (score, timeUsed)];
      }
      scoreFile := ScoresJson(scores);
    }

    /** `get_level_score(level_id)`. */
    method GetLevelScore(levelId: string) returns (result: Option<(int, int)>)
      ensures result == Lookup(scoreFile, levelId)
    {
      if !scoreFile.ScoresJson? {
        return None;
      }
      if levelId in scoreFile.best {
        return Some(scoreFile.best[levelId]);
      }
      return None;
    }
  }

  /** A save followed by a lookup finds a result no worse than the one saved, or than the one stored before. */
  lemma SaveThenLookup(file: ScoresFile, levelId: string, score: int, time: int)
    ensures var after := ScoresJson(Recorded(Stored(file), levelId, score, time));
      Lookup(after, levelId).Some? && NoWorse(Lookup(after, levelId).value, (score, time)) &&
      (Lookup(file, levelId).Some? ==> NoWorse(Lookup(after, levelId).value, Lookup(file, levelId).value))
  {
    RecordedBest(Stored(file), levelId, score, time);
  }

  /** The key of built-in level `i`: not custom, then `level_` and one digit. */
  lemma BuiltinKey(i: nat)
    requires i < |BUILTIN_LEVELS|
    ensures LevelKey(BUILTIN_LEVELS[i]) == ([0] + Codes("level_")) + ['1' as int + i]
  {
  }

  /** A fresh catalogue lists the five built-in levels in the order they are written. */
  lemma BuiltinCatalogue()
    ensures AllLevels(LevelsJson(BUILTIN_LEVELS)) == BUILTIN_LEVELS
  {
    var l := BUILTIN_LEVELS;
    var p := [0] + Codes("level_");
    forall i, j | 0 <= i < j < |l| ensures !LexLess(LevelKey(l[j]), LevelKey(l[i])) {
      BuiltinKey(i);
      BuiltinKey(j);
      LexLessCommonPrefix(p, ['1' as int + j], ['1' as int + i]);
    }
    SortedFixed(l, LevelKey);
  }
}
