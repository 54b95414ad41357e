# Scoring and aggregation core of the career-discovery platform

This Dafny project models the logic that turns mini-game play into numbers on
the platform: students play small skill games, their scores are stored as
`game_results` rows, a dashboard recommends the game that trains their weakest
skill, and a performance page draws a five-axis talent radar. The model covers:

- **Catalog** (`catalog.dfy`, src/constants.ts): the five skill categories,
  the `GAMES` catalog with its `metrics` weights (kept as integer tenths), and
  `INITIAL_RADAR_DATA`.
- **Recommendation engine and goal list** (`student_dashboard.dfy`,
  src/views/StudentDashboard.tsx):
  - `fetchRecommendation` is modelled as `Dashboard.FetchRecommendation`.
    Its nested loops are the method `Accumulate`, proved against prefix-fold
    specification functions that keep the insertion order of the `totals`
    object.
  - The weakest-skill scan is `PickWeakest`. It compares averages exactly,
    by cross-multiplication.
  - The threshold lookup of a game is `Recommend`.
  - `addGoal`, `toggleGoal` and `deleteGoal` are methods of the `Dashboard`
    class.
- **Talent radar** (`performance.dfy`, src/views/Performance.tsx):
  - `processGameData` attributes each row by keyword.
  - It then computes the rounded average per category (the `Tally` loop,
    the chart loop) and picks the best entry with `reduce` semantics.
  - The label update at the end of `fetchData` is modelled too.
- **Five mini-games**, each with its state as a class and a pure step
  function that the handlers are proved to follow:
  - `recipe_builder.dfy`, `gift_wrapper.dfy`: drag in a fixed order, with a
    clamped penalty.
  - `pattern_weaver.dfy`: click the dots in order, with an unclamped penalty.
  - `color_sorter.dfy`: ten items, then ten times the score.
  - `desktop_ranger.dfy`: ±1 clicks floored at 0, then a 15-tick countdown
    and twenty times the score.

  Whole games are modelled too: `Play` folds the step over a sequence of
  player inputs, which makes properties of complete games provable.
- **Profile settings** (`profile_settings.dfy`, src/views/ProfileSettings.tsx):
  - the completeness test;
  - the progress percentage;
  - field updates;
  - the password change with its validation order and backend outcomes.
- **JavaScript helpers** (`js.dfy`):
  - `Math.round` of a quotient, computed on the exact rational;
  - `trim`, with ECMAScript's white-space set, and the blank test it serves;
  - `includes`, through the `indexOf` search.
- **Option type** (`wrappers.dfy`).

Randomness, clocks and backend answers are parameters:
- the colour or icon that `Math.random` picks;
- `Date.now()` at mount and at the drop;
- the rows a query returns;
- whether sign-in fails and the error `updateUser` returns.

## Model

| member | source | states |
|---|---|---|
| Js.Round | src/views/Performance.tsx:112 | `Math.round(n / d)` is the nearest integer to the exact quotient, halves rounded up: `2dr - d <= 2n < 2dr + d` |
| Js.RoundWithin | src/views/Performance.tsx:112 | rounding a quotient that lies in [lo, hi] stays in [lo, hi] |
| Js.RoundExact | src/views/ProfileSettings.tsx:76 | rounding an exact integer quotient returns it |
| Js.SkipLeading | src/views/StudentDashboard.tsx:55 | the index of the first character that `trim` keeps: everything before it is white space, and it is the length of `s` or a non-white character |
| Js.SkipTrailing | src/views/StudentDashboard.tsx:55 | the end of the part `trim` keeps: everything from it to the end is white space, and the character before it is not |
| Js.Trim | src/views/StudentDashboard.tsx:55 | the result starts at the first non-white character, runs to a non-white last character, and only white space follows it; white space is ECMAScript's WhiteSpace and LineTerminator sets |
| Js.BlankIffTrimEmpty | src/views/StudentDashboard.tsx:55 | `s.trim()` is empty exactly when every character of `s` is white space, which is how `IsBlank` is defined |
| Js.IndexFrom | src/views/Performance.tsx:97-100 | the search from an index finds the first occurrence at or after it, or -1 when there is none |
| Js.IndexOf | src/views/Performance.tsx:97-100 | `indexOf` is -1 exactly when the substring does not occur (`includes` is false), and otherwise the first index where it occurs |
| Catalog.Categories | src/views/StudentDashboard.tsx:117 | `Object.entries(game.metrics)` yields one category per entry, in order |
| Catalog.Weight | src/views/StudentDashboard.tsx:138 | `metrics[c]` is the weight of the first entry listed for `c` (the only one in a well-formed object), and 0 (falsy) when `c` is absent |
| Catalog.WeightOfPair | src/constants.ts:11-67 | on a two-entry `metrics` object, the shape of every catalog game, `metrics[c]` is the first entry's weight, the second's, or 0 |
| Catalog.CategoriesClosed | src/constants.ts:4 | the category set is exactly the five buckets, all distinct |
| Catalog.CategoryNamesDistinct | src/constants.ts:4 | category names identify categories |
| Catalog.GameIdsDistinct | src/constants.ts:11-67 | catalog game ids are pairwise distinct |
| Catalog.GamesWellFormed | src/constants.ts:21-65 | every game lists each category at most once, has a non-empty `metrics` and weights in (0, 1] |
| Catalog.WeightsSumToOne | src/constants.ts:21-65 | each game's weights add up to 1.0 |
| Catalog.EveryCategoryHasStrongGame | src/constants.ts:21-65 | every category has a game weighing it at 0.4 or more |
| Catalog.FallbackIsPatternWeaver | src/constants.ts:11-22 | `GAMES[0]`, the fallback recommendation, is pattern-weaver |
| Catalog.InitialRadarDataIsEmpty | src/constants.ts:70-76 | `INITIAL_RADAR_DATA` lists the five categories at 0 with `fullMark` 100 |
| StudentDashboard.FindGame | src/views/StudentDashboard.tsx:115 | `GAMES.find` by id returns the first game with that id, or none exactly when no game has it |
| StudentDashboard.FirstQualifying | src/views/StudentDashboard.tsx:137-139 | the first game whose weight for the skill is at least 0.4, or none exactly when no game qualifies |
| StudentDashboard.Recommend | src/views/StudentDashboard.tsx:137-140 | the recommended game is in the catalog; when some game reaches 0.4 in the category it is one that does, with no qualifying game before it; when none does it is `GAMES[0]` |
| StudentDashboard.RecommendIsFirstQualifying | src/views/StudentDashboard.tsx:137-139 | the game at the first index reaching 0.4 is the recommendation |
| StudentDashboard.AddRow | src/views/StudentDashboard.tsx:117-120 | one row adds its full score and 1 to every category its game lists, whatever the weight; new categories become the last keys |
| StudentDashboard.Accumulate | src/views/StudentDashboard.tsx:111-122 | the loops build exactly the specified key order, totals and counts of the rows |
| StudentDashboard.TallyAfterRow | src/views/StudentDashboard.tsx:114-121 | the tally after one more known row is the tally of the longer row list |
| StudentDashboard.PickWeakest | src/views/StudentDashboard.tsx:124-133 | the scan returns the key of lowest average below 101, the earliest one on a tie, and none exactly when no average is below 101 |
| StudentDashboard.InsertKeysMembers | src/views/StudentDashboard.tsx:118 | after the assignments the keys are the old keys plus the listed categories |
| StudentDashboard.KeyOrderCounted | src/views/StudentDashboard.tsx:118-119 | a category is a key of `totals` exactly when its count is positive; an uncounted category totals 0 |
| StudentDashboard.InsertKeysDistinct | src/views/StudentDashboard.tsx:118 | inserting keys never duplicates one |
| StudentDashboard.KeyOrderDistinct | src/views/StudentDashboard.tsx:127 | `Object.keys(totals)` has no repeats |
| StudentDashboard.SpecTallied | src/views/StudentDashboard.tsx:128 | every key has a positive count, so the average is defined |
| StudentDashboard.RowContribution | src/views/StudentDashboard.tsx:114-121 | a row adds its score and 1 to its game's categories and nothing to others |
| StudentDashboard.UnknownGameIgnored | src/views/StudentDashboard.tsx:115-116 | a row whose game is not in the catalog changes no key, total or count |
| StudentDashboard.NoMatchFallsBack | src/views/StudentDashboard.tsx:141-143 | when no row names a catalog game, no weak skill is found and the fallback branch is taken |
| StudentDashboard.TotalBounded | src/views/StudentDashboard.tsx:118-119 | with scores in [0, 100] a total lies between 0 and 100 times its count |
| StudentDashboard.CountPositive | src/views/StudentDashboard.tsx:114-120 | a row counts once for every category its game lists |
| StudentDashboard.MatchedRowMakesKey | src/views/StudentDashboard.tsx:114-120 | one row naming a catalog game with metrics puts a key into `totals` |
| StudentDashboard.WeakSkillFound | src/views/StudentDashboard.tsx:124-135 | with scores in [0, 100] and one row naming a catalog game with metrics, a weak skill is always found |
| StudentDashboard.WeakestUnique | src/views/StudentDashboard.tsx:127-132 | the strict `<` tie-break makes the weakest skill unique |
| StudentDashboard.FindSameCategories | src/views/StudentDashboard.tsx:115 | the lookup by id does not depend on the weights |
| StudentDashboard.InsertKeysByCategories | src/views/StudentDashboard.tsx:117-118 | the key order depends only on the listed categories |
| StudentDashboard.RowMetricsSameCategories | src/views/StudentDashboard.tsx:115-117 | a row's categories do not depend on the weights |
| StudentDashboard.WeightsIgnoredKeys | src/views/StudentDashboard.tsx:117 | catalogs differing only in weights give the same key order |
| StudentDashboard.WeightsIgnoredTotals | src/views/StudentDashboard.tsx:117-118 | ... the same totals |
| StudentDashboard.WeightsIgnoredCounts | src/views/StudentDashboard.tsx:117-119 | ... and the same counts |
| StudentDashboard.TechnicalRecommendsGiftWrapper | src/views/StudentDashboard.tsx:137-139 | the first qualifying game wins, not the heaviest: Technical recommends the gift wrapper (0.4) over the desktop ranger (0.7) |
| StudentDashboard.SocialRecommendsRecipeBuilder | src/views/StudentDashboard.tsx:137-139 | Social recommends the recipe builder, the desktop ranger's 0.3 being below the threshold |
| StudentDashboard.CatalogNeverFallsBack | src/views/StudentDashboard.tsx:140 | with `GAMES` the lookup for any category finds a game |
| StudentDashboard.Toggled | src/views/StudentDashboard.tsx:74 | same length, ids and labels; `done` becomes `!currentStatus` on the goals with the id, unchanged elsewhere |
| StudentDashboard.Without | src/views/StudentDashboard.tsx:89 | filtering never lengthens the list |
| StudentDashboard.WithoutMembers | src/views/StudentDashboard.tsx:89 | the result holds exactly the goals whose id differs |
| StudentDashboard.ToggleFlips | src/views/StudentDashboard.tsx:72-84 | called with the goal's own status, the toggle flips exactly the goals with that id, and toggling back restores the list |
| StudentDashboard.WithoutDistributes | src/views/StudentDashboard.tsx:89 | deletion keeps the order of the rest: it distributes over concatenation |
| StudentDashboard.WithoutIdempotent | src/views/StudentDashboard.tsx:89 | deleting twice is deleting once |
| StudentDashboard.WithoutAbsent | src/views/StudentDashboard.tsx:89 | deleting an absent id leaves the list unchanged |
| StudentDashboard.Dashboard.constructor | src/views/StudentDashboard.tsx:53-150 | no goals, empty input, no recommendation yet, loading |
| StudentDashboard.Dashboard.SetNewGoal | src/views/StudentDashboard.tsx:55 | the input text changes and nothing else |
| StudentDashboard.Dashboard.AddGoal | src/views/StudentDashboard.tsx:53-70 | a blank label makes no backend call; a stored goal is prepended, not done, and the input cleared; a failed insert changes nothing |
| StudentDashboard.Dashboard.ToggleGoal | src/views/StudentDashboard.tsx:72-84 | the list becomes `Toggled` of the old list; nothing else changes |
| StudentDashboard.Dashboard.DeleteGoal | src/views/StudentDashboard.tsx:86-94 | without confirmation nothing changes; otherwise exactly the goals with the id are removed |
| StudentDashboard.Dashboard.FetchRecommendation | src/views/StudentDashboard.tsx:97-150 | no rows: `GAMES[0]` and "Start your journey"; otherwise the unique weakest skill of the tally and its recommended game, or `GAMES[0]` with the label unchanged when none is found; loading ends |
| Performance.Attribute | src/views/Performance.tsx:95-100 | each keyword group wins exactly when no earlier group matched, Practical being the default |
| Performance.MentionsIffFound | src/views/Performance.tsx:97-100 | `career?.includes(word)` is true exactly when there is a career and `indexOf(word)` is not -1 |
| Performance.ScoreOf | src/views/Performance.tsx:103 | the score read with a 0 default is 0 exactly for a falsy score (null or 0), and otherwise the score itself |
| Performance.AverageOf | src/views/Performance.tsx:112 | with rows, the nearest integer to the average, halves up; with none, 0; an average of scores in [0, 100] lies in [0, 100] |
| Performance.Chart | src/views/Performance.tsx:108-115 | five entries in the order Creative, Analytical, Technical, Social, Practical, each with `fullMark` 100 |
| Performance.Best | src/views/Performance.tsx:120 | the `reduce` returns a maximal entry, the last one among equal maxima |
| Performance.Tally | src/views/Performance.tsx:83-105 | after the loop every category's sum and count are those of the rows attributed to it |
| Performance.ProcessGameData | src/views/Performance.tsx:78-120 | the chart data and the best entry are `Chart(rows)` and `Best(Chart(rows))` |
| Performance.CountsCoverRows | src/views/Performance.tsx:95-104 | every row goes to exactly one category: the counts add up to the number of rows |
| Performance.SumBounded | src/views/Performance.tsx:103 | with scores in [0, 100] a sum lies between 0 and 100 times its count |
| Performance.ChartBounded | src/views/Performance.tsx:112 | with scores in [0, 100] every chart value lies in [0, 100] |
| Performance.UnusedCategoryIsZero | src/views/Performance.tsx:112 | a category no row was attributed to shows 0 |
| Performance.NullScoreCounts | src/views/Performance.tsx:103-104 | a row with a null score adds 0 to the sum and 1 to the count |
| Performance.KeywordPriority | src/views/Performance.tsx:97-98 | the tests are ordered substring matches: "Design Engineer" and "Artificial Intelligence Engineer" are Creative |
| Performance.PerformanceView.constructor | src/views/Performance.tsx:9-26 | the chart starts as the all-zero data; labels "Explore Games" and "Undiscovered" |
| Performance.PerformanceView.Load | src/views/Performance.tsx:61-124 | no or empty results keep chart and labels; otherwise the chart is the computed one and the labels name the best category only when its value is positive |
| RecipeBuilder.NamesDistinct | src/views/games/RecipeBuilder.tsx:19-23 | comparing ingredient names is comparing ingredients |
| RecipeBuilder.Start | src/views/games/RecipeBuilder.tsx:13-17 | step 0, no mistakes, nothing dragged, empty bowl |
| RecipeBuilder.DragStart | src/views/games/RecipeBuilder.tsx:27-29 | the dragged ingredient is set and nothing else changes |
| RecipeBuilder.FinalScore | src/views/games/RecipeBuilder.tsx:45 | the score is never negative, at most 100, 100 exactly without mistakes, 0 exactly from ten mistakes on |
| RecipeBuilder.Drop | src/views/games/RecipeBuilder.tsx:31-55 | no drag changes nothing; right ingredient: bowl grows by it and the step advances (stays at the last); wrong: one more mistake; the drag is cleared; `onEnd` exactly for Sugar at the last step, with the final score and the elapsed time rounded to the nearest second |
| RecipeBuilder.Next | src/views/games/RecipeBuilder.tsx:27-55 | a gesture keeps the state valid and the start time |
| RecipeBuilder.Play | src/views/games/RecipeBuilder.tsx:13-55 | any sequence of gestures keeps the step within the recipe and the start time |
| RecipeBuilder.PlaySnoc | src/views/games/RecipeBuilder.tsx:31-55 | playing one more gesture is one more step |
| RecipeBuilder.GesturesAccounted | src/views/games/RecipeBuilder.tsx:37-53 | steps advanced, mistakes and `onEnd` calls add up to the gestures made |
| RecipeBuilder.BowlInRecipeOrder | src/views/games/RecipeBuilder.tsx:39-40 | the bowl holds one ingredient per correct drop, in recipe order |
| RecipeBuilder.FirstFinishScore | src/views/games/RecipeBuilder.tsx:42-46 | the first `onEnd`, after n gestures, scores `max(0, 100 - 10(n - 4))` with the rounded elapsed seconds |
| RecipeBuilder.FinishingGesture | src/views/games/RecipeBuilder.tsx:37-53 | a gesture after n gestures without an `onEnd` that does finish scores `FinalScore(n - 3)` with the rounded elapsed seconds |
| RecipeBuilder.PerfectGame | src/views/games/RecipeBuilder.tsx:10-46 | Water, Flour, Eggs, Sugar in 2.5 s scores 100 in 3 s |
| RecipeBuilder.Session.constructor | src/views/games/RecipeBuilder.tsx:13-17 | the component state is `Start(now)` |
| RecipeBuilder.Session.HandleDragStart | src/views/games/RecipeBuilder.tsx:27-29 | the state follows `DragStart` |
| RecipeBuilder.Session.HandleDrop | src/views/games/RecipeBuilder.tsx:31-55 | the state and `onEnd` call follow `Drop` |
| GiftWrapper.NamesDistinct | src/views/games/GiftWrapper.tsx:13-18 | comparing item names is comparing items |
| GiftWrapper.Start | src/views/games/GiftWrapper.tsx:8-11 | step 0, no mistakes, nothing dragged |
| GiftWrapper.DragStart | src/views/games/GiftWrapper.tsx:20-22 | the dragged item is set and nothing else changes |
| GiftWrapper.FinalScore | src/views/games/GiftWrapper.tsx:35 | the score is never negative, at most 100, 100 exactly without mistakes, 0 exactly from ten mistakes on |
| GiftWrapper.Drop | src/views/games/GiftWrapper.tsx:24-46 | no drag changes nothing; right item advances the step (stays at the last); wrong: one more mistake; the drag is cleared; `onEnd` exactly for Label at the last step, with the final score and the elapsed time rounded to the nearest second |
| GiftWrapper.Next | src/views/games/GiftWrapper.tsx:20-46 | a gesture keeps the state valid and the start time |
| GiftWrapper.Play | src/views/games/GiftWrapper.tsx:8-46 | any sequence of gestures keeps the step within `SEQUENCE` and the start time |
| GiftWrapper.PlaySnoc | src/views/games/GiftWrapper.tsx:24-46 | playing one more gesture is one more step |
| GiftWrapper.GesturesAccounted | src/views/games/GiftWrapper.tsx:30-43 | steps advanced, mistakes and `onEnd` calls add up to the gestures made; after an `onEnd` the step is the last |
| GiftWrapper.FirstFinishScore | src/views/games/GiftWrapper.tsx:32-36 | the first `onEnd`, after n gestures, scores `max(0, 100 - 10(n - 4))` with the rounded elapsed seconds |
| GiftWrapper.FinishingGesture | src/views/games/GiftWrapper.tsx:30-43 | a gesture after n gestures without an `onEnd` that does finish scores `FinalScore(n - 3)` with the rounded elapsed seconds |
| GiftWrapper.OneMistakeGame | src/views/games/GiftWrapper.tsx:5-46 | one misplaced item costs 10 points |
| GiftWrapper.Session.constructor | src/views/games/GiftWrapper.tsx:8-11 | the component state is `Start(now)` |
| GiftWrapper.Session.HandleDragStart | src/views/games/GiftWrapper.tsx:20-22 | the state follows `DragStart` |
| GiftWrapper.Session.HandleDrop | src/views/games/GiftWrapper.tsx:24-46 | the state and `onEnd` call follow `Drop` |
| PatternWeaver.Start | src/views/games/PatternWeaver.tsx:5-6 | dot 0 active, no mistakes |
| PatternWeaver.FinalScore | src/views/games/PatternWeaver.tsx:21 | at most 100, 100 exactly without mistakes, negative exactly beyond ten mistakes |
| PatternWeaver.Click | src/views/games/PatternWeaver.tsx:17-29 | the active dot advances by one, a wrong click adds a mistake, the active last dot ends the game with the final score; the active dot stays within the five |
| PatternWeaver.Next | src/views/games/PatternWeaver.tsx:17-29 | a click keeps the state valid |
| PatternWeaver.Play | src/views/games/PatternWeaver.tsx:9-29 | any sequence of clicks keeps the active dot within the five |
| PatternWeaver.PlaySnoc | src/views/games/PatternWeaver.tsx:17-29 | playing one more click is one more step |
| PatternWeaver.PlayAppend | src/views/games/PatternWeaver.tsx:17-29 | playing two sequences is playing the second from where the first left off |
| PatternWeaver.ClicksAccounted | src/views/games/PatternWeaver.tsx:18-28 | dots advanced, mistakes and `onEnd` calls add up to the clicks made |
| PatternWeaver.FirstEndScore | src/views/games/PatternWeaver.tsx:20-21 | the first `onEnd`, after n clicks, passes `100 - 10(n - 5)` |
| PatternWeaver.WrongClicks | src/views/games/PatternWeaver.tsx:25-28 | k clicks on an inactive dot add k mistakes and nothing else |
| PatternWeaver.ScoreCanBeNegative | src/views/games/PatternWeaver.tsx:21 | eleven wrong clicks and the five dots in order end the game with -10 |
| PatternWeaver.Session.constructor | src/views/games/PatternWeaver.tsx:5-6 | the component state is `Start()` |
| PatternWeaver.Session.HandleDotClick | src/views/games/PatternWeaver.tsx:17-29 | the state and `onEnd` call follow `Click` |
| ColorSorter.Start | src/views/games/ColorSorter.tsx:6-8 | no points, a red item, ten items left |
| ColorSorter.Sort | src/views/games/ColorSorter.tsx:11-25 | a matching bin adds a point, a wrong one nothing; with items left one is taken and the drawn colour shown; otherwise `onEnd` gets ten times the score read before this sort |
| ColorSorter.PlaySnoc | src/views/games/ColorSorter.tsx:20-25 | playing one more press is one more step |
| ColorSorter.PressesAccounted | src/views/games/ColorSorter.tsx:6-25 | items taken plus `onEnd` calls equal the presses; the count stays in [0, 10]; the score is at most one per press |
| ColorSorter.ScoreIsHits | src/views/games/ColorSorter.tsx:16-23 | while items are left the score is the number of hits and the item shown the last colour drawn |
| ColorSorter.FirstEnd | src/views/games/ColorSorter.tsx:12-14 | the eleventh press ends the game with ten times the hits of the first ten, in [0, 100] |
| ColorSorter.NoEarlyEnd | src/views/games/ColorSorter.tsx:12-16 | no press before the eleventh ends the game |
| ColorSorter.Session.constructor | src/views/games/ColorSorter.tsx:6-8 | the component state is `Start()` |
| ColorSorter.Session.HandleSort | src/views/games/ColorSorter.tsx:20-25 | the state and `onEnd` call follow `Sort` |
| ColorSorter.Session.NextItem | src/views/games/ColorSorter.tsx:11-18 | with items left one is taken and the colour shown; otherwise `onEnd` gets ten times the rendered score; the score is untouched |
| DesktopRanger.Start | src/views/games/DesktopRanger.tsx:7-18 | target Folder, score 0, 15 seconds, the folder shown |
| DesktopRanger.Click | src/views/games/DesktopRanger.tsx:45-52 | the target shown adds a point, another icon takes one off down to 0; the icon moves |
| DesktopRanger.Tick | src/views/games/DesktopRanger.tsx:21-31 | the clock goes down by one; at 1 or below it reads 0 and `onEnd` gets twenty times the score |
| DesktopRanger.GameInvariant | src/views/games/DesktopRanger.tsx:7-52 | the target stays Folder, the score stays in [0, clicks], the clock reads 15 less the ticks down to 0, and `onEnd` comes once per tick from the fifteenth on, with a score in [0, 20 clicks]; ticks after the fifteenth stand for intervals restarted by a score change |
| DesktopRanger.Session.constructor | src/views/games/DesktopRanger.tsx:7-18 | the component state is `Start()` |
| DesktopRanger.Session.MoveIcon | src/views/games/DesktopRanger.tsx:36-43 | only the icon shown changes |
| DesktopRanger.Session.HandleClick | src/views/games/DesktopRanger.tsx:45-52 | the state follows `Click` |
| DesktopRanger.Session.OnTick | src/views/games/DesktopRanger.tsx:21-31 | the state and `onEnd` call follow `Tick` |
| ProfileSettings.With | src/views/ProfileSettings.tsx:79-81 | the named field takes the value and every other field keeps its own |
| ProfileSettings.IsProfileFullyComplete | src/views/ProfileSettings.tsx:14-24 | complete exactly when the seven required fields are non-empty; blood group and avatar are not required |
| ProfileSettings.FilledCount | src/views/ProfileSettings.tsx:72-75 | at most eight fields are counted |
| ProfileSettings.FilledIffTrimNonEmpty | src/views/ProfileSettings.tsx:75 | `f && f.toString().trim() !== ''` holds exactly when the trimmed value is non-empty: the truthiness test adds nothing |
| ProfileSettings.CalculateProgress | src/views/ProfileSettings.tsx:71-77 | the percentage lies in [0, 100] |
| ProfileSettings.AllCountedFilled | src/views/ProfileSettings.tsx:72-75 | the count is eight exactly when every counted field is filled |
| ProfileSettings.ProgressFullIffAllFilled | src/views/ProfileSettings.tsx:74-76 | the bar shows 100 exactly when all eight fields are non-blank, otherwise at most 88 |
| ProfileSettings.FullProgressIsComplete | src/views/ProfileSettings.tsx:14-77 | a full bar implies a complete profile |
| ProfileSettings.CompleteBelowFull | src/views/ProfileSettings.tsx:14-77 | a complete profile can show 88 (no blood group) or 0 (fields of spaces) |
| ProfileSettings.EmptyProfileProgress | src/views/ProfileSettings.tsx:42-52 | a new profile shows 0 and is not complete |
| ProfileSettings.WithPassword | src/views/ProfileSettings.tsx:83-85 | the named password field takes the value and the others keep theirs |
| ProfileSettings.Utf16Length | src/views/ProfileSettings.tsx:170 | `length` counts between one and two code units per character |
| ProfileSettings.Validate | src/views/ProfileSettings.tsx:170-177 | too short exactly below 6 code units; mismatch exactly when long enough and different; accepted otherwise |
| ProfileSettings.ChangePassword | src/views/ProfileSettings.tsx:164-205 | sign-in is attempted exactly when the checks pass, the update exactly when sign-in succeeds; success exactly when the update reports no error, then the form is cleared; every other outcome is an error with the form kept, an update error showing the backend's own message |
| ProfileSettings.ShortBeforeMismatch | src/views/ProfileSettings.tsx:170-177 | a short password is reported as short even when the confirmation differs |
| ProfileSettings.AstralCharactersCountTwice | src/views/ProfileSettings.tsx:170 | three characters outside the Basic Multilingual Plane pass the 6-character check |
| ProfileSettings.Settings.constructor | src/views/ProfileSettings.tsx:33-69 | the loaded profile, an empty password form, no message, not loading |
| ProfileSettings.Settings.HandleChange | src/views/ProfileSettings.tsx:79-81 | only the named profile field changes |
| ProfileSettings.Settings.HandlePasswordChangeInput | src/views/ProfileSettings.tsx:83-85 | only the named password field changes |
| ProfileSettings.Settings.HandleChangePassword | src/views/ProfileSettings.tsx:164-205 | message, form and backend calls follow `ChangePassword`; loading ends; the profile is untouched |

## Left out

- Supabase: every query, insert, update, delete, sign-in and avatar upload
  is a call into a hosted backend. Query results are inputs. Backend
  outcomes are parameters: the inserted goal id (`None` for a failed
  insert), `Backend.signInFails` and `Backend.updateError`.
- The error paths that only log or re-fetch are not modelled:
  - `toggleGoal`'s re-fetch after a failed update (`fetchGoals`);
  - the `catch` of `fetchRecommendation`, which leaves the recommendation and
    weak skill as they were (loading still ends);
  - the thrown query error of `fetchData`, modelled as `None` results.
- React rendering, routing, navigation, `handleSaveProfile`, `uploadAvatar`
  and the `loading`/`uploading`/`message` flags of the profile page are UI
  or backend work. `passLoading` is modelled only at the end of a password
  change.
- `Math.random`, `Date.now` and `setInterval` are inputs: the next colour
  or icon, the drop time, and each interval callback as an event. The icon's
  screen position is layout only.
- Timing is not modelled:
  - DesktopRanger's interval is restarted whenever the score changes;
  - when the clock reaches 0 the interval clears itself, so a tick after
    the fifteenth, and the repeated `onEnd` it brings, happens only after a
    click changed the score and restarted the interval;
  - a React updater may run twice in development mode.
  The model takes one callback per elapsed second and lets ticks follow in
  any order with clicks, which includes every sequence the source can
  produce.
- The ParentDashboard retry loop, the search filters and the root-level
  legacy files are outside this core.
- Floating point: the `metrics` weights are tenths. Averages are exact
  rationals compared by cross-multiplication. `Math.round` of a quotient is
  rounded on the exact rational. This agrees with the floating-point
  computation for sums and counts of any realistic size.
- StudentDashboard.ResultRow: scores are integers. A null `score` in the
  recommendation engine adds 0 (JavaScript's `x + null`), so a caller
  passes 0 for it.
- RecipeBuilder.Drop and GiftWrapper.Drop take the dragged name from a
  closed set of items, because `handleDragStart` is only ever called from
  the pantry or the packing station with those names. The bowl keeps
  ingredient names where the source keeps their icons.
- The goal list is a `seq` value reassigned by the `Dashboard` methods.
  Only the local list is modelled, not the database row.
- Dashboard.AddGoal: the list update is modelled as if no other goal handler
  ran during the insert. The source prepends to the `goals` captured when the
  form was submitted, so a `toggleGoal`, a `deleteGoal` or the initial
  `fetchGoals` that lands while the insert is pending is undone on screen.
- Nothing of the weakest-skill scan is left out. JavaScript lists the keys
  of `totals` in insertion order, because they are not numeric, and the
  model keeps that order. A tie goes to the earlier key, because the code
  compares with a strict `<`.
