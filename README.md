# Snake game core in Dafny

This project models the game logic of a pygame Snake game (python-snake) and
proves properties of that model. It covers:

- the free, level and evolution game modes as a state machine (`GameState`);
- the plain-text score file, `scores.txt`, written as `score,seconds,date` lines and read back as a descending ranking;
- the pausable game clock;
- the theme settings;
- the achievement system: statistics, unlock conditions, progress percentages and the longest run of rising scores;
- the history analysis: ordering by date, per-game food counts and efficiencies, growth rates, the chart's scroll window and dragging;
- the evolution stages and their timed effects;
- the level catalogue: built-in and custom levels, `custom_N` id allocation and best level scores;
- the level editor, with its parameter dialog, obstacle placement and dragging;
- the paged level-selection screen.

Each source module is one Dafny module:

- `ScoreManage` models `score_manage.py`;
- `TimeManage` models `time_manager.py`;
- `Themes` models `themes.py`;
- `Achievements` models `achievements.py`;
- `Analysis` models `analysis.py`;
- `Evolution` models `evolution_mode.py`;
- `LevelManage` models `level_manage.py`;
- `LevelEdit` models `level_editor.py`;
- `LevelSelection` models `level_select.py`;
- `Game` models `game_state.py`.

Support modules hold what several of them share:

- `Text`: Python's `int()`, `str()`, `strip()` and `split()` on strings;
- `Sorting`: Python's stable `sort(key=...)`;
- `Series`: sums, rises and column projections;
- `Runs`: the longest run of `True` values;
- `Geometry`: pygame's `Rect.collidepoint`;
- `Wrappers`: `Option`.

Objects whose methods update their fields are classes:

- `ScoreFile` (the lines of `scores.txt`);
- `TimeManager`;
- `ThemeSettings`;
- `AchievementSystem`;
- `ChartView`;
- `EvolutionMode`;
- `LevelManager`;
- `ParamDialog`;
- `LevelEditor`;
- `LevelSelect`;
- `GameState`.

Each method states its new state in terms of specification functions, and the lemmas prove what those functions mean. Files on disk are fields of the owning object: a `seq<string>` of lines, or a datatype for a JSON document that may be missing or unreadable.

Several behaviours of the program are modelled exactly as the code has them:

- Both the achievement loader and `calculate_consecutive_growth` see the ranking sorted by descending score. The loaded consecutive-growth figure is therefore always 0 (`LoadedGrowthIsZero`).
- Pausing evolution mode records `PLAY_LEVEL` as the state to resume, because `enter_pause` knows only the free and level modes.
- The level selector shows 12 cards per page but counts pages in eights, so a catalogue of 17 levels has an empty last page (`LastPageEmpty`).
- With more than 100 pages, the page indicator divides by zero (`IndicatorJump`).
- In the level mode, a snake that hits the wall on the frame that reaches the target still records the pass on the following frame (`WallOnWinningFrame`).
- On an evolution frame, the new stage's ability is applied twice: once inside `check_evolution` and once by its caller.
- Custom level ids compare as strings, so `custom_10` is listed before `custom_2` (`CustomTenBeforeTwo`).

## Model

| member | source | states |
|---|---|---|
| Text.ParseInt | score_manage.py:28-38 | an accepted text is an optional sign followed by digits only |
| Text.IntToStringRoundTrip | score_manage.py:28-38 | `int(str(n)) == n` for every integer, so a written score or time is read back unchanged |
| Text.IntToStringInjective | score_manage.py:4-10 | distinct integers are written as distinct texts |
| Text.NatToStringValue | time_manager.py:37-42 | the decimal digits written for `n` denote `n` |
| Text.Pad2 | time_manager.py:37-42 | the `:02d` rendering is at least two characters long and parses back to the number |
| Text.StripBlank | score_manage.py:19-20 | `strip()` gives the empty string exactly when every character is whitespace in the sense of `str.isspace()`, the Unicode spaces and separators included |
| Text.StripLeftBlank | score_manage.py:19-20 | stripping the left side empties the string exactly when it holds no non-space character |
| Text.StripRightBlank | score_manage.py:19-20 | the same for the right side |
| Text.LeadingBlank | score_manage.py:19-20 | a leading space does not change whether the string holds a non-space character |
| Text.StripUnpadded | level_editor.py:63-79 | a string with no surrounding whitespace is its own `strip()` |
| Text.Strip | score_manage.py:19-20 | a stripped string neither starts nor ends with a `str.isspace()` character |
| Text.Split | score_manage.py:21-25 | `split(',')` yields at least one part, and no part contains the separator |
| Text.SplitJoin | score_manage.py:21-25 | splitting the comma-joined parts gives back the parts |
| Text.SplitPrefix | score_manage.py:21-25 | a separator-free prefix becomes the first part of the split |
| Text.SplitNoSep | score_manage.py:21-25 | a text without the separator splits into itself |
| Text.CodesInjective | score_manage.py:44 | string sort keys identify the string |
| Text.LexLessTotal | level_manage.py:89-99 | string comparison is a total order: two keys are equal or one is smaller |
| Text.LexLessTransitive | level_manage.py:89-99 | string comparison is transitive |
| Text.LexLessIrreflexive | level_manage.py:89-99 | no key is smaller than itself |
| Sorting.SortByKey | score_manage.py:44 | sorting by a key permutes its input |
| Sorting.SortByKeySorted | score_manage.py:44 | the sorted result is ordered by the key |
| Sorting.SortByKeyStable | analysis.py:34-38 | the sort is stable: the elements sharing a key keep their relative order |
| Sorting.SortedFixed | analysis.py:34-38 | an already ordered sequence is returned unchanged |
| Sorting.InsertFrontSorted | score_manage.py:44 | inserting into an ordered sequence keeps it ordered |
| Sorting.InsertFrontFilter | analysis.py:34-38 | insertion places an element after every element with an equal key |
| Series.SumPermutation | analysis.py:74-78 | a total does not depend on the order of the games |
| Series.SumAppend | analysis.py:74-78 | the total of a concatenation is the sum of the totals |
| Series.Rises | achievements.py:211-226 | entry `i` is true exactly when score `i+1` is greater than score `i` |
| Series.NonIncreasingNoRises | achievements.py:211-226 | a non-increasing history has no rises |
| Series.ProjectPermutation | analysis.py:34-38 | permuting the records permutes each column in the same way |
| Series.ProjectAt | analysis.py:34-38 | a column holds each record's field at the record's position |
| Series.ProjectAppend | analysis.py:34-38 | the column of a concatenation is the concatenation of the columns |
| Series.RemoveMatching | analysis.py:34-38 | removing matching elements from two permutations leaves permutations |
| Series.ProjectSplice | analysis.py:34-38 | removing one element removes its field from the column's multiset |
| Series.MaxOf | achievements.py:196-200 | the maximum bounds every entry and is one of them |
| Runs.ScanRunsLongest | achievements.py:211-226 | the counting loop's final best is the length of the longest run of rises |
| Runs.ScanUpTo | achievements.py:211-226 | after each prefix, the loop's counters are the current run length and the longest run so far |
| Runs.ScanStep | achievements.py:219-224 | one iteration of the counting loop keeps the scan invariant on both branches |
| Runs.ScanStart | achievements.py:216-217 | the counters start as a correct scan of the empty prefix |
| Runs.ScanDone | achievements.py:219-226 | a finished scan yields the longest run |
| Runs.LongestRunUnique | achievements.py:211-226 | the longest run length is unique |
| Runs.NoTrueNoRun | achievements.py:211-226 | without a rise, the longest run is 0 |
| Runs.RunStart | achievements.py:219-224 | a non-empty run starts on a rise inside the sequence |
| Runs.RunAvoids | achievements.py:219-224 | a run of rises never spans a non-rise |
| ScoreManage.ParseLine | score_manage.py:19-43 | a line is accepted exactly when its stripped text has 3 comma fields, an integer score, an integer time and a `-` in the date; an accepted line keeps the time as text |
| ScoreManage.ScoreFile.constructor | score_manage.py:12-15 | a missing file reads as no lines |
| ScoreManage.ScoreFile.SaveScore | score_manage.py:4-10 | the record is appended as one new line |
| ScoreManage.ScoreFile.GetRankings | score_manage.py:12-48 | returns the accepted records of the file, ordered by descending score |
| ScoreManage.RankingsOrder | score_manage.py:44 | the ranking is a permutation of the accepted records, by descending score, and records with equal scores keep their file order |
| ScoreManage.ParseFormatted | score_manage.py:4-10 | a line written by the game parses back to the same score, time and date |
| ScoreManage.SaveThenAccept | score_manage.py:4-48 | saving a score adds exactly that record to the accepted records |
| TimeManage.Trunc | time_manager.py:30-35 | `int()` truncates toward zero |
| TimeManage.TruncMonotone | time_manager.py:30-35 | truncation is monotone |
| TimeManage.TimeManager.constructor | time_manager.py:5-9 | a new clock is stopped at zero and not paused |
| TimeManage.TimeManager.Start | time_manager.py:11-15 | starting resets the elapsed time, unpauses, and reads zero at the start instant |
| TimeManage.TimeManager.Pause | time_manager.py:17-22 | pausing banks the running time, so the reading is frozen at every later instant; pausing twice changes nothing |
| TimeManage.TimeManager.Resume | time_manager.py:24-28 | resuming keeps the reading and restarts the running interval; resuming an unpaused clock changes nothing |
| TimeManage.TimeManager.GetElapsed | time_manager.py:30-35 | the whole seconds elapsed, the floor of a non-negative reading |
| TimeManage.TimeManager.ElapsedMonotone | time_manager.py:30-35 | whether running or paused, the elapsed seconds read later are never fewer |
| TimeManage.FormatClockReadsBack | time_manager.py:37-42 | `MM:SS` names the elapsed seconds: minutes times 60 plus seconds, with the seconds below 60 |
| Themes.Loaded | themes.py:45-57 | the saved theme name if the settings file holds one, the default theme otherwise (missing or unreadable file, missing key) |
| Themes.SaveLoadRoundTrip | themes.py:59-65 | saving a theme name and loading the settings gives back that name |
| Themes.ThemeSettings.constructor | themes.py:67-68 | the current theme is the one loaded from the file at start-up |
| Themes.ThemeSettings.LoadThemeSettings | themes.py:45-57 | the current theme becomes the loaded one; the file is untouched |
| Themes.ThemeSettings.SetTheme | themes.py:74-81 | succeeds exactly for a known theme, then makes it current and saves it so that it loads back; an unknown name changes nothing |
| Themes.ThemeSettings.GetCurrentTheme | themes.py:70-72 | the current theme's colours, exactly when the name is a known theme |
| Achievements.IdOf | achievements.py:312-313 | finds the unique achievement with the given key, and nothing for an unknown key |
| Achievements.DefinitionsComplete | achievements.py:14-99 | every achievement is in the definition list |
| Achievements.KeyInjective | achievements.py:14-99 | no two achievements share a key |
| Achievements.MilestonesNest | achievements.py:14-99 | the 1000-point condition implies the 500-point one, which implies the 100-point one |
| Achievements.FoodCount | achievements.py:163 | the food count is `(score - time) // 50`, clipped at zero: the largest multiple of 50 within the points not earned by time |
| Achievements.ParseHour | achievements.py:174-185 | a parsed hour lies in 0..23 |
| Achievements.TwoDigits | achievements.py:174-185 | a two-digit field lies in 0..99 |
| Achievements.CountStep | achievements.py:144-193 | a record with an integer time adds its score and time; any record may set the morning and night flags |
| Achievements.TallyTotals | achievements.py:144-193 | the loaded total score and total time are the sums of the counted games |
| Achievements.TallyBestScore | achievements.py:144-193 | the loaded best score bounds every counted score and is one of them, or 0 |
| Achievements.TallyBestTime | achievements.py:144-193 | the loaded best survival time bounds every counted time and is one of them, or 0 |
| Achievements.TallyMaxFood | achievements.py:163-171 | the loaded most food bounds every game's food count and is one of them, or 0 |
| Achievements.TallyScoresFromRecords | achievements.py:144-193 | every collected score comes from a record of the ranking |
| Achievements.TallyScoresDescending | achievements.py:144-196 | a ranking sorted by descending score yields non-increasing collected scores |
| Achievements.TallyFlags | achievements.py:174-185 | the morning flag is set exactly when some record was played at 06:00-08:59; the night flag exactly when some record was played at 22:00-23:59 or 00:00-03:59 |
| Achievements.AnyRecordSnoc | achievements.py:174-185 | some record of a longer history matches exactly when some record of the shorter one matches or the new record does |
| Achievements.NoGrowthWithoutRises | achievements.py:211-226 | a non-increasing score list has a longest rising run of 0 |
| Achievements.DescendingHistoryNoGrowth | achievements.py:196 | applied to the descending ranking, the growth streak is 0 |
| Achievements.LoadedGrowthIsZero | achievements.py:120-209 | statistics rebuilt from the ranking always have consecutive growth 0 |
| Achievements.AfterGame | achievements.py:228-270 | one game adds one played game, its score and its time to the totals, and raises each best value (score, time, food, food rate, session) to at least this game's; the hour sets the morning and night flags |
| Achievements.CheckMonotone | achievements.py:272-298 | checking keeps every earlier unlock unchanged; each new unlock belongs to an achievement whose condition holds; every met condition ends up unlocked |
| Achievements.NewlyUnlockedExactly | achievements.py:272-298 | the reported achievements are exactly those whose condition holds and that were not unlocked before |
| Achievements.CheckSettled | achievements.py:272-298 | when every met condition is already unlocked, checking changes nothing and reports nothing |
| Achievements.CheckIdempotent | achievements.py:272-298 | checking twice with the same statistics unlocks nothing the second time |
| Achievements.ShareFull | achievements.py:317-349 | a progress share is at most 100, and exactly 100 when the value reaches the threshold |
| Achievements.ProgressMatchesCondition | achievements.py:304-353 | the progress is at most 100, and exactly 100 when the achievement's condition holds |
| Achievements.ProgressAfterCheck | achievements.py:272-298 | after a check, a previously locked achievement is unlocked exactly when its condition holds |
| Achievements.ThousandClubExample | achievements.py:317-349 | a best score of 150 is 15% of the 1000-point achievement |
| Achievements.GrowthExample | achievements.py:211-226 | the scores 100, 200, 150, 300 have a longest rising run of 1 |
| Achievements.AchievementSystem.constructor | achievements.py:101-110 | statistics and unlocks start as the stored snapshot |
| Achievements.AchievementSystem.CheckAchievements | achievements.py:272-298 | unlocks every met, not yet unlocked achievement, returns those, and saves only when something was unlocked |
| Achievements.AchievementSystem.UnlockMet | achievements.py:277-293 | walks the definitions in order, unlocking and listing each met, not yet unlocked one |
| Achievements.AchievementSystem.CalculateConsecutiveGrowth | achievements.py:211-226 | returns the longest run of consecutive score increases, 0 for fewer than two scores |
| Achievements.AchievementSystem.AbsorbRecord | achievements.py:144-193 | one loop iteration counts one ranking record |
| Achievements.AchievementSystem.MarkTimeOfDay | achievements.py:174-185 | a record's hour sets the morning flag for 6-8 and the night flag for 22-23 or 0-3; an unreadable date sets nothing |
| Achievements.AchievementSystem.LoadGameDataFromScores | achievements.py:120-209 | an empty ranking changes nothing; otherwise the statistics are rebuilt from the whole history and the achievements are checked, and the save file is rewritten exactly when something was unlocked |
| Achievements.AchievementSystem.UpdateStats | achievements.py:228-270 | folds one finished game into the statistics, checks the achievements and saves |
| Achievements.AchievementSystem.AbsorbGame | achievements.py:230-267 | the step-by-step field updates compute the one-game statistics |
| Achievements.AchievementSystem.GetProgress | achievements.py:304-353 | 100 for an unlocked key, 0 for an unknown key, otherwise the achievement's progress share |
| Analysis.ParseTimes | analysis.py:21-27 | converts every time field, failing exactly when some field is not an integer |
| Analysis.ParseTimesFails | analysis.py:21-27 | one unreadable time makes the whole analysis fail |
| Analysis.Rows | analysis.py:34-38 | the rows pair each record's score, converted time and date, position by position |
| Analysis.RowsColumns | analysis.py:34-38 | the score and time columns of the rows are the ranking's scores and the converted times |
| Analysis.ByDateOrdered | analysis.py:34-38 | sorting by date orders the rows, permutes them, and keeps same-date rows in ranking order |
| Analysis.ByDateColumns | analysis.py:34-38 | after the sort, the score and time columns are permutations of the originals |
| Analysis.ConvertTimes | analysis.py:21-27 | the conversion loop computes the converted times or the failure |
| Analysis.CountFood | analysis.py:41-44 | the loop computes every game's food count |
| Analysis.LongestPositiveStreak | analysis.py:81-88 | returns the longest run of positive growth rates after the first game |
| Analysis.AnalyzeData | analysis.py:9-109 | fails exactly for fewer than two games or an unreadable time; otherwise the report is computed from the date-ordered history |
| Analysis.AnalysisTotals | analysis.py:74-78 | the report counts every game, sums every time, and averages the scores over all games |
| Analysis.AnalysisOrder | analysis.py:34-38 | the report's score and time series follow the date-sorted history |
| Analysis.AnalysisFood | analysis.py:41-44 | every game's food count uses the time of the ranking's last record, as the code does |
| Analysis.FoodCounts | analysis.py:41-44 | one food count per game |
| Analysis.FoodEfficiency | analysis.py:47-52 | one food rate per game |
| Analysis.FoodEfficiencyMeaning | analysis.py:47-52 | the food rate is food divided by time, or 0 when the time is not positive |
| Analysis.GrowthRates | analysis.py:55-60 | one growth rate per game, the first being 0 |
| Analysis.GrowthRateSign | analysis.py:55-60 | a growth rate is positive exactly when the score rose over a positive previous score, and 0 after a zero score |
| Analysis.GrowthRatesMeaning | analysis.py:55-60 | over a whole history, each rate is 0 after a zero score and positive exactly at a rise |
| Analysis.PositiveGrowthIsRise | analysis.py:81-88 | for positive scores, the longest positive growth streak is the longest run of rising scores |
| Analysis.Efficiency | analysis.py:63-67 | one efficiency per game |
| Analysis.EfficiencyMeaning | analysis.py:63-67 | the efficiency is time divided by score, or 0 for a zero score |
| Analysis.QuotientTimes | analysis.py:47-67 | the exact quotient times the divisor is the dividend |
| Analysis.DatePrefix | analysis.py:70-71 | the label's date is the first ten characters, a prefix of the date |
| Analysis.DateLabels | analysis.py:70-71 | one label per game |
| Analysis.DateLabelsMeaning | analysis.py:70-71 | label `i` is the 1-based index, a dot, and the date prefix |
| Analysis.MinReal | analysis.py:75 | the best efficiency is at most every game's efficiency and is one of them |
| Analysis.Positives | analysis.py:81-88 | marks exactly the positive growth rates |
| Analysis.MaxOffset | analysis.py:516 | the largest scroll offset is non-negative and leaves room for a full view |
| Analysis.Window | analysis.py:257-262 | the visible slice stays inside the data, holds at most one view of items, and starts at the offset when there is more than one view |
| Analysis.ChartView.constructor | analysis.py:140-142 | the chart starts unscrolled and not dragging |
| Analysis.ChartView.HandleChartDrag | analysis.py:505-543 | a left press in the chart starts a drag; the wheel scrolls one step, clamped to 0..max; a motion of more than 15 pixels moves one step against the drag and restarts from the mouse; a left release ends the drag; other events change nothing; the offset stays in 0..max |
| Evolution.AbilityEffects | evolution_mode.py:201-229 | a stage adds at most one effect, with a positive timer |
| Evolution.Decay | evolution_mode.py:231-236 | one round keeps only effects whose lowered timer is still positive, each one lower than before |
| Evolution.DecaySurvivors | evolution_mode.py:231-236 | every effect whose timer was above one survives the round with its timer lowered by one, and the round keeps exactly as many effects as there are of those |
| Evolution.DecayAppend | evolution_mode.py:231-236 | counting down works effect by effect and keeps the order |
| Evolution.DecayLowers | evolution_mode.py:231-236 | a round lowers every surviving timer by at least one |
| Evolution.EffectsExpire | evolution_mode.py:231-236 | once as many rounds have passed as the longest timer, every effect has expired |
| Evolution.StagesClimb | evolution_mode.py:13-56 | each later stage is faster and needs more food |
| Evolution.EvolutionMode.constructor | evolution_mode.py:87-91 | a new state is at the first stage with no food and no effects |
| Evolution.EvolutionMode.ApplySpecialAbility | evolution_mode.py:201-229 | appends the current stage's effect |
| Evolution.EvolutionMode.CheckEvolution | evolution_mode.py:184-198 | moves up exactly one stage when enough food has been eaten for the next one, restarting the count and applying the ability; otherwise nothing changes |
| Evolution.EvolutionMode.UpdateEffects | evolution_mode.py:231-236 | performs one round of counting down |
| Evolution.EvolutionMode.GetCurrentSpeed | evolution_mode.py:238-244 | the stage's speed, plus 4 while a speed boost is active |
| LevelManage.AllLevels | level_manage.py:89-99 | one entry per stored level |
| LevelManage.AllLevelsOrder | level_manage.py:89-99 | the levels are a permutation of the stored ones with built-in before custom, each group ordered by id string; an unreadable file gives no levels |
| LevelManage.CustomTenBeforeTwo | level_manage.py:89-99 | `custom_10` is listed before `custom_2` |
| LevelManage.BuiltinCatalogue | level_manage.py:22-87 | the built-in levels are listed in their own order |
| LevelManage.BuiltinKey | level_manage.py:22-87 | the sort key of built-in level `i` ends in its digit |
| LevelManage.FirstWithIdMeaning | level_manage.py:101-107 | the lookup finds the first level with the id, and nothing exactly when no level has it |
| LevelManage.CustomNumbers | level_manage.py:121-122 | reads the number of every custom id, failing exactly when some custom id is not `custom_<int>` |
| LevelManage.CustomIdNumber | level_manage.py:121-122 | the number is read back from a new id |
| LevelManage.NewIdFresh | level_manage.py:121-122 | the new custom id differs from every existing custom id |
| LevelManage.NewLevelFields | level_manage.py:124-130 | a new level takes each given field and the template's value otherwise, with the new id and the custom flag |
| LevelManage.RecordedBest | level_manage.py:141-167 | the stored best for the level is no worse than both the new attempt and the old best, and is one of them; other levels keep their best |
| LevelManage.NoWorseTransitive | level_manage.py:155-160 | "no worse" (higher score, or equal score and less time) is transitive |
| LevelManage.ReplayKeepsBest | level_manage.py:141-167 | after a series of attempts the stored best is one of them and no worse than any |
| LevelManage.Lookup | level_manage.py:169-179 | a level's best is found exactly when the score file is readable and holds the level |
| LevelManage.SaveThenLookup | level_manage.py:141-179 | after saving, the level's best is found and is no worse than the attempt and the previous best |
| LevelManage.LevelManager.constructor | level_manage.py:18-20 | a missing level file is created with the built-in levels |
| LevelManage.LevelManager.InitBuiltinLevels | level_manage.py:22-87 | writes the built-in levels only when no level file exists |
| LevelManage.LevelManager.GetLevelById | level_manage.py:101-107 | the first level with that id, if any |
| LevelManage.LevelManager.AddCustomLevel | level_manage.py:117-139 | appends the new level with the next free `custom_N` id; fails, leaving the file unchanged, when an existing custom id is not numeric |
| LevelManage.LevelManager.SaveLevelScore | level_manage.py:141-167 | records the attempt under the level's best rule |
| LevelManage.LevelManager.GetLevelScore | level_manage.py:169-179 | returns the level's recorded best, if any |
| LevelSelection.Slice | level_select.py:37-44 | Python slicing: the elements from start up to end that exist |
| LevelSelection.VisibleLevelsMeaning | level_select.py:37-44 | a page shows at most 12 levels, starting at `offset*12`, is empty exactly past the end, and scrolling is offered exactly beyond 12 levels |
| LevelSelection.TotalPagesCeil | level_select.py:97-98 | the page count is the ceiling of the level count over 8 |
| LevelSelection.LastPageEmpty | level_select.py:97-98 | with 17 levels, the last counted page shows nothing |
| LevelSelection.FirstCard | level_select.py:159-168 | the first card under the mouse, and nothing exactly when no visible card is hit |
| LevelSelection.LevelSelect.constructor | level_select.py:9-35 | the buttons are laid out as in the code and the list starts at page 0 |
| LevelSelection.LevelSelect.GetVisibleLevels | level_select.py:37-44 | returns the page at the current offset and whether scrolling applies |
| LevelSelection.LevelSelect.HandleEvents | level_select.py:136-191 | the events are processed in order, stopping at the first one that yields a choice |
| LevelSelection.WheelScroll | level_select.py:183-189 | the wheel moves one page, clamped, only when scrolling applies, and chooses nothing |
| LevelSelection.IndicatorJump | level_select.py:171-180 | a click on the indicator jumps to the clicked page, clamped to the last page, and crashes exactly when there are more than 100 pages |
| LevelSelection.CardPlays | level_select.py:159-168 | a click on card `idx` starts exactly `visible_levels[idx]`'s level, and does not scroll; the cards do not overlap |
| LevelSelection.StepInRange | level_select.py:136-191 | one event keeps the offset within the page range |
| LevelSelection.RunInRange | level_select.py:136-191 | any event sequence keeps the offset within the page range |
| LevelEdit.Set | level_editor.py:191-223 | editing one field leaves the other fields unchanged |
| LevelEdit.DefaultParamsValid | level_editor.py:11-23 | the default parameters are valid |
| LevelEdit.DefaultNumbersRead | level_editor.py:11-23 | the default numeric texts parse to their values |
| LevelEdit.NameOf | level_editor.py:63-79 | the stripped name, or the default name when it strips to nothing (every `str.isspace()` character counts as blank); never blank |
| LevelEdit.GetParamsValid | level_editor.py:63-79 | confirming yields valid parameters when every number parses, and keeps the stored ones otherwise |
| LevelEdit.GetParamsDefaults | level_editor.py:63-79 | blank fields confirm to the default parameters |
| LevelEdit.ConfirmUnedited | level_editor.py:56-79 | confirming the texts of valid parameters gives them back |
| LevelEdit.ConfirmIdempotent | level_editor.py:63-79 | confirming twice is the same as confirming once |
| LevelEdit.NumberReadsBack | level_editor.py:56-79 | a positive number's text parses back to it |
| LevelEdit.NextField | level_editor.py:185-190 | tab always moves to a different field |
| LevelEdit.TabCycles | level_editor.py:185-190 | four tabs return to the same field after visiting all four |
| LevelEdit.Backspaced | level_editor.py:191-196 | backspace removes exactly the last character |
| LevelEdit.TypedMeaning | level_editor.py:198-223 | typing appends or ignores; the name grows only below 20 characters; a number field accepts only digits that keep it a positive integer |
| LevelEdit.ZeroNotFirst | level_editor.py:198-223 | a number field cannot start with 0 |
| LevelEdit.ParamDialog.constructor | level_editor.py:7-54 | the dialog is centred, inactive, and holds the default parameters and texts |
| LevelEdit.ParamDialog.ClickedField | level_editor.py:146-170 | the clicked input box, or none when no box is hit |
| LevelEdit.ParamDialog.SetParams | level_editor.py:56-61 | opens the dialog with the parameters and their texts, with no field focused |
| LevelEdit.ParamDialog.HandleClick | level_editor.py:146-170 | confirm closes with the parsed parameters; cancel closes with the old ones; any other click focuses the box under the mouse; parameters stay valid |
| LevelEdit.ParamDialog.HandleKey | level_editor.py:172-225 | return unfocuses, escape cancels, tab cycles, backspace and typing edit the focused field; without focus keys do nothing |
| LevelEdit.ClampBounds | level_editor.py:388-396 | clamping lands in the range and fixes values already in it |
| LevelEdit.FirstHit | level_editor.py:376-383 | the first obstacle under the mouse, and none exactly when no obstacle is hit |
| LevelEdit.DraggedInside | level_editor.py:388-396 | a dragged obstacle stays inside the editor area |
| LevelEdit.LevelEditor.constructor | level_editor.py:228-269 | an empty editor with default parameters and a closed dialog |
| LevelEdit.LevelEditor.AddObstacle | level_editor.py:358-361 | appends a 40x40 obstacle centred in the editor area |
| LevelEdit.LevelEditor.DeleteObstacle | level_editor.py:364-369 | removes the dragged obstacle, or the last one when none is dragged; a stale drag index raises and changes nothing |
| LevelEdit.LevelEditor.StartDrag | level_editor.py:376-383 | grabs the first obstacle under the mouse and remembers the grip offset |
| LevelEdit.LevelEditor.Drag | level_editor.py:388-396 | moves only the dragged obstacle, clamped inside the editor area; a stale index raises |
| LevelEdit.LevelEditor.SaveCustomLevel | level_editor.py:400-440 | invalid parameters save nothing; otherwise the level is added as a new custom level and the editor is cleared |
| LevelEdit.LevelEditor.DialogEvent | level_editor.py:330-342 | while the dialog is open, events go to it. Confirm sets the editor's parameters to `get_params()` of the texts typed, falling back to the dialog's old parameters; nothing else changes them. Cancel closes the dialog; a press on a box focuses it. Return, escape, tab, backspace and typing act as in `handle_key`. |
| LevelEdit.LevelEditor.MouseDownEvent | level_editor.py:345-383 | back leaves without changes; leaving happens only through back or save |
| LevelEdit.LevelEditor.HandleEvent | level_editor.py:323-398 | routes one event to the dialog or the editor. With the dialog open, every event acts as in `DialogEvent`, and only a confirm changes the editor's parameters. With it closed: a release ends any drag; motion while dragging moves the dragged obstacle as `Drag` does, raising on a stale index, and changes nothing otherwise; a key and other events change nothing. |
| Game.FreeTickScore | game_state.py:152-163 | a live frame earns 1 point, or 51 with food; a dead frame earns nothing |
| Game.SavedAtMostOnce | game_state.py:171-179 | a free game writes its score at most once, and is marked saved afterwards |
| Game.ScoresNeverFall | game_state.py:152-163 | the score never decreases during a game |
| Game.LevelFrameMeaning | game_state.py:668-764 | a frozen level attempt keeps its score; death comes only from the wall or an obstacle; the pass is recorded exactly once the target is reached, unless the snake leaves the screen on that live frame; failure comes only from death or timeout |
| Game.WallOnWinningFrame | game_state.py:694-741 | hitting the wall on the frame that reaches the target still records the pass on the next frame |
| Game.LevelSavedAtMostOnce | game_state.py:738-764 | a level attempt records its pass at most once |
| Game.ResumeTarget | game_state.py:569-572 | pausing records the free mode when paused from it, the level mode otherwise |
| Game.MenuDisjoint | game_state.py:387-397 | no point lies on two menu buttons |
| Game.GameState.constructor | game_state.py:27-53 | the game starts in the main menu with a fresh attempt and the fixed button layout |
| Game.GameState.ResetGame | game_state.py:559-567 | starts a fresh attempt and restarts the clock |
| Game.GameState.EnterPause | game_state.py:569-573 | enters the pause screen, records the mode to resume, and freezes the clock |
| Game.GameState.ExitPause | game_state.py:575-578 | returns to the recorded mode with the clock running again, keeping its reading |
| Game.GameState.ResetEvolutionGame | game_state.py:1038-1052 | starts a fresh attempt and puts the evolution state back to its first stage with no effects |
| Game.GameState.LoadLevel | game_state.py:588-606 | loads the first level with the id and starts a fresh timed attempt at its speed; an unknown id goes back to level selection |
| Game.GameState.StartAttempt | game_state.py:600-606 | a fresh attempt, a restarted clock and the level's speed |
| Game.GameState.HandleLevelSelect | game_state.py:580-586 | the selector's answer leads to the main menu, stays, or loads the chosen level |
| Game.GameState.MainMenuClick | game_state.py:436-478 | each menu button leads to its screen and records the menu as the previous screen; the evolution button also restarts the clock and the evolution ladder; the exit button quits; a press on no button changes nothing |
| Game.GameState.PlayButtons | game_state.py:117-122 | the back button leaves to the target screen with the clock paused; the pause button pauses; elsewhere nothing changes |
| Game.GameState.PauseKey | game_state.py:107-111 | P pauses a running mode and resumes a paused one |
| Game.GameState.PlayingEvent | game_state.py:91-123 | quit ends the game; space restarts a dead game; P toggles the pause; the back button pauses the clock and returns to the menu, overriding the pause button, which otherwise pauses; a press on neither changes nothing |
| Game.GameState.PausedEvent | game_state.py:480-549 | P, escape and the resume button return to the recorded mode with the clock running; the menu button goes to the main menu with the clock still paused; a press elsewhere, other keys and other input change nothing; the clock reading never changes |
| Game.GameState.PlayingTick | game_state.py:152-179 | one frame of the free mode: the score update, the death check, and exactly one score line written on the first dead frame |
| Game.GameState.PlayLevelEvent | game_state.py:608-645 | space restarts the level after death or success, reloading it by id; P toggles the pause; the back button pauses the clock and returns to level selection, the pause button pauses; a press on neither changes nothing |
| Game.GameState.PlayLevelTick | game_state.py:608-764 | one level frame: the elapsed time is sampled, the frame is played, and the level's best is recorded exactly on a pass; a missing level returns to selection |
| Game.GameState.SettleLevel | game_state.py:738-764 | the end-of-frame checks record the pass or mark the failure |
| Game.GameState.EvolutionEvent | game_state.py:791-829 | space restarts a dead game, resetting the clock and the evolution ladder, and changes nothing while alive; P pauses, recording the level mode; the back button pauses the clock and returns to the menu, the pause button pauses; a press on neither, escape, other keys and other events change nothing |
| Game.GameState.EnsureEvolution | game_state.py:793-795 | the evolution state is created on first entry and kept afterwards |
| Game.GameState.EatOnLadder | game_state.py:868-873 | eating counts the food and evolves once the next stage's requirement is met, applying its ability twice |
| Game.GameState.EvolutionTick | game_state.py:857-918 | one evolution frame: feeding and evolution, death ignored while invincible, one score line on the first dead frame, and one round of effect decay |
| Game.GameState.EvolutionSettle | game_state.py:879-918 | death is ignored while an invincibility effect is active; the first dead frame writes the score once; the effects count down |

## Left out

- Drawing, fonts, colours, sound, music and the background-music button are not modelled. The snake's body, its movement and food placement are not modelled either. Their outcomes (food eaten, death, leaving the screen, hitting an obstacle) are parameters of each frame.
- Clocks and the wall-clock date are parameters: `now` (seconds), `endTime` (from `get_game_end_time`) and the hour used by the achievements. `datetime.now()` and `time.time()` are not called.
- The mouse position is a parameter of each event handler. Events are handled one at a time, except in the level selector, which takes the whole sequence.
- Files are fields of their owner objects. Read and write errors, encodings and the JSON syntax are not modelled; an unreadable JSON file is one datatype case.
- Newlines inside saved data are not modelled.
- Python's `int()` is modelled as an optional sign followed by ASCII digits. Surrounding whitespace, underscores and non-ASCII digits are not accepted.
- Floating-point arithmetic is modelled with exact reals. `round()` in progress percentages and chart labels is left out.
- Analysis.AnalyzeData: the report's rates are exact quotients, without `round()`. The chart normalisation and the tooltip of the analysis screen are not modelled.
- The ranking, analysis, theme, achievement and exit screens are not modelled: their drawing and the nested event loops of `handle_ranking`, `handle_analysis` and the theme and achievement menus. Only the state each menu button enters is modelled.
- The editor's own `run` loop is not modelled. It returns only to level selection, which `MouseDownEvent` states.
- `update_theme_colors` is not modelled. It copies theme colours into the game state.
- Game.GameState.PlayingTick: the second save block after the frame is not modelled. It can never fire, because the first block has already set the saved flag on a dead frame.
- The achievement update after a free game is not modelled. The code is unreachable.
- `achievement_system` is a module-level singleton in the code. Here it is an object passed to its callers.
- Each screen in the code builds its own `LevelManager`. Here one manager object is shared.
- LevelEdit.LevelEditor.DeleteObstacle and LevelEdit.LevelEditor.Drag: a successful save empties the obstacles but keeps the drag index (level_editor.py:430-438). A later motion or delete with that stale index raises `IndexError` in the code. Here it is reported as a result and changes nothing.
- Achievements.ParseHour: only the `YYYY-MM-DD HH:MM:SS` layout with two-digit fields (four for the year) is read. Texts `strptime` also accepts, such as single-digit fields (`2024-1-5 7:03:09`), read as no hour and set no time-of-day flag. The game writes only the two-digit layout.
- LevelEdit.LevelEditor.MouseDownEvent: only the back button's exit and the exit condition are stated. The other buttons are stated by `AddObstacle`, `DeleteObstacle`, `SaveCustomLevel` and `StartDrag`.
- Rectangles with negative width or height are not specially handled. Hit-testing follows `collidepoint` on the given numbers.
- The process exit on `QUIT` is modelled as a `quit` result.
