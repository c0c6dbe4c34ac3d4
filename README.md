# UFC-Predictor: a verified model of the feature pipeline and the scraped-data cleaning

UFC-Predictor scrapes bouts, fighters and per-fighter bout statistics from
the UFC statistics site, cleans them in Scrapy item pipelines, stores them,
and then builds a training table. That table has one row per bout, made of
leakage-free form features for the red and the blue corner. This project
models two cores of the system in Dafny and proves what they promise.

**The feature-aggregation pipeline** (`src/feature_engineering.py`) is modelled
as pure functions over tables. A table is a `seq` of rows in table order.
Nullable values are `Option`, and averages and rates are exact `real`s.
The stages are:

- the opponent mirror within each fight group;
- the sort by fighter, date and bout, then the adjusted span-5
  exponentially weighted mean, shifted by one bout;
- the null-guarded rates, and the deltas against the opponent;
- the profile join, and the whole-bout exclusions for a missing date of
  birth and for excluded categories;
- the win and loss streaks, the longest streak, the wins by method, the
  age and the debut flag;
- the red/blue pivot, which keeps the first row's shared block, and the
  attribute deltas.

Modules:

- `Ewma` holds the mean and its weighted-sum meaning.
- `Streaks` holds the pandas streak formulas and their run-length meaning.
- `Groups` holds `groupby` by position: `cumcount`, reversal within a group
  and `drop_duplicates`.
- `Chrono` holds dates, the sort key order and the sort.

**The ingestion side** models three parts:

- the item pipelines of the newer crawler (`src/scrapy/crawler/pipelines.py`);
- the older crawler's `CleanItemPipeline` and its loader helpers
  (`crawler/crawler/pipelines.py`, `crawler/crawler/loaders.py`, and the
  later copy `data/crawler/loaders.py`);
- the pure helpers of the older fighter spider.

A Scrapy item is the class `Items.Item`:

- It has a fixed item class and a fixed set of declared fields.
- Its mutable `fields: map<string, Value>` may only hold declared fields.
- Assigning an undeclared field raises `KeyError`.

Each pipeline step is a `method` that changes the item in place. It is
proved equal to a specification function `Step(fields, error)` of the old
fields, and the properties are lemmas about that function. The values are
Python's `None`, `str`, `int`, `float`, `bool` and `date`. A raised
exception is `Some(PyError)`.

Three points where the code's behaviour differs from what a reader might expect:

- **The averages.** They are not the textbook span-5 recurrence
  `avg = x/3 + 2avg'/3`. The code calls `ewm(span=5).mean()`, whose default
  `adjust=True` divides a weighted sum by the total weight, so the history
  [10, 20] gives 16 rather than 13.33 (`Ewma.AdjustedDiffersFromRecurrence`).
- **The shared block of the wide table.** It is the first row's, whichever
  corner that is, not red minus blue.
- **The fight pipeline's call order.** It runs `handle_results` before
  `handle_winners_and_losers`, and the model keeps that order.

`data/crawler/loaders.py` repeats four functions of `crawler/crawler/loaders.py`
character for character: `extract_id`, `determine_gender`,
`extract_scheduled_rounds` and `convert_seconds`. The older spider's
`extract_scheduled_rounds` and `convert_seconds` are the same code too. All
of them are the single `Loaders` definitions. Their rows below cite each copy
through a different lemma about the same member.

Likewise, `parse_height`, `parse_weight` and `parse_reach` of the two pipeline
files are the same code, and so are the `ScrapyPipelines` definitions.

## Model

| member | source | states |
|---|---|---|
| Groups.Mirror | src/feature_engineering.py:53-75 | the row whose values a group reversal hands to row i belongs to the same fight |
| Groups.MirrorInvolution | src/feature_engineering.py:53-75 | reversing a group twice gives back every row |
| Groups.MirrorOfPair | src/feature_engineering.py:53-75 | in a fight of exactly two rows the reversal swaps them |
| FeatureEngineering.MirrorAbsorbReceive | src/feature_engineering.py:53-75 | the mirror stage keeps the number of rows and each row's bout and fighter; the columns it fills are stated by `FeatureProperties.MirrorAt` |
| FeatureProperties.MirrorAt | src/feature_engineering.py:53-75 | each row's absorbed/received strike and takedown columns are the landed/attempted columns of its mirrored row in the same fight; all else unchanged |
| FeatureProperties.MirrorSwapsPair | src/feature_engineering.py:53-75 | in a two-row fight each row's absorbed and received counts are the other row's landed and attempted counts |
| Chrono.Sort | src/feature_engineering.py:90 | sorting keeps every row (same multiset, same length) |
| Chrono.SortSorted | src/feature_engineering.py:90 | the sorted table is ordered by (fighter, date, fight) |
| Chrono.SortOfSorted | src/feature_engineering.py:90 | sorting an already sorted table changes nothing |
| Groups.Positions | src/feature_engineering.py:92 | a group's rows are exactly the rows with its key, listed in increasing table order |
| Groups.PositionAtRank | src/feature_engineering.py:92-96 | row i is the cumcount(i)-th row of its group |
| Groups.GroupValuesBefore | src/feature_engineering.py:92-96 | row i's value sits at position cumcount(i) of its group's values |
| FeatureEngineering.History | src/feature_engineering.py:92 | a fighter's column lists the values of exactly that fighter's rows, in table order |
| Ewma.Series | src/feature_engineering.py:93 | entry k of `ewm(span=5).mean()` is the mean of observations 0..k |
| Ewma.NumIsWeightedSum | src/feature_engineering.py:93 | the numerator recurrence S_t = x_t + (2/3) S_{t-1} is the sum of (2/3)^(t-i) x_i |
| Ewma.DenIsWeightTotal | src/feature_engineering.py:93 | the denominator recurrence is the total of the weights (2/3)^(t-i) |
| Ewma.MeanIsWeightedAverage | src/feature_engineering.py:93 | the mean is the weighted average with weights (1-alpha)^(t-i), alpha = 1/3 (adjust=True) |
| Ewma.DenClosedForm | src/feature_engineering.py:93 | the total weight is 3(1-(2/3)^n), always below 3 |
| Ewma.MeanBounds | src/feature_engineering.py:93 | the mean lies between the smallest and the largest observation |
| Ewma.MeanMono | src/feature_engineering.py:93 | pointwise ordered histories have ordered means |
| Ewma.MeanConstant | src/feature_engineering.py:93 | a constant history averages to that constant |
| Ewma.AdjustedDiffersFromRecurrence | src/feature_engineering.py:93 | for history [10, 20] the mean is 16, while the plain recurrence gives 40/3 |
| Ewma.Shift | src/feature_engineering.py:95-96 | `shift(1)`: first entry null, every other entry the previous value |
| Ewma.Causal | src/feature_engineering.py:91-98 | one feature per observation, and the first observation's feature is null |
| Ewma.CausalIsMeanOfEarlier | src/feature_engineering.py:91-98 | the feature of observation k is null for k = 0 and otherwise the mean of observations 0..k-1 |
| Ewma.CausalNoLookAhead | src/feature_engineering.py:91-98 | the feature of observation k is unaffected by observation k and everything after it |
| FeatureEngineering.WithAverages | src/feature_engineering.py:90-100 | the averaging stage keeps the number of rows, and every output row carries the bout, fighter and total duration of some input row: it reorders rows and never invents one |
| FeatureProperties.AvgIsMeanOfEarlier | src/feature_engineering.py:90-98 | `avg_<m>` is null on a fighter's first row and otherwise the adjusted mean over that fighter's earlier rows |
| FeatureProperties.AvgNoLookAhead | src/feature_engineering.py:90-98 | changing a fighter's row i or any later row leaves row i's average unchanged |
| FeatureProperties.AveragesSorted | src/feature_engineering.py:90-100 | the averaging stage outputs a table sorted by (fighter, date, fight) |
| FeatureProperties.AveragesAreCausal | src/feature_engineering.py:90-100 | on the output of the averaging stage, each row's averages are null on the debut and otherwise the mean of exactly the fighter's rows with a smaller sort key |
| FeatureProperties.EarlierInGroup | src/feature_engineering.py:90-96 | in the sorted table a fighter's rows before row i are exactly those with a smaller key |
| FeatureEngineering.Rates | src/feature_engineering.py:126-192 | the rate stage keeps the number of rows and each row's bout, fighter and total duration; its values are stated by the guard and delta lemmas below |
| FeatureEngineering.RatesAt | src/feature_engineering.py:126-192 | row i of the rate stage has row i's bout, fighter and total duration |
| FeatureEngineering.Div | src/feature_engineering.py:128-165 | a quotient is present iff both operands are and the divisor is non-zero, and then times the divisor it gives the dividend |
| FeatureEngineering.DivIfPositive | src/feature_engineering.py:130-169 | `np.where(b > 0, a / b, nan)`: present iff both operands are present and b > 0; then the quotient |
| FeatureEngineering.Minus | src/feature_engineering.py:135-192 | a difference is present iff both operands are; adding b back gives a |
| FeatureProperties.AccuracyGuards | src/feature_engineering.py:126-167 | StrAcc, TDacc and str_eff are present iff their denominator is present and positive, and are then landed/attempted and sig/total |
| FeatureProperties.DefenceGuards | src/feature_engineering.py:133-145 | StrDef and TDdef are present iff received is present and positive, and are then (received-absorbed)/received |
| FeatureProperties.DurationGuards | src/feature_engineering.py:126-138 | per-minute and per-15-minute rates are present iff the count and a nonzero duration are, and divide by duration/60 and duration/900 |
| FeatureProperties.UnitRatios | src/feature_engineering.py:130-146 | for counts 0 <= l <= h, l/h and (h-l)/h are null or within [0, 1] |
| FeatureProperties.MeansOrdered | src/feature_engineering.py:93 | pointwise ordered non-negative histories have ordered non-negative means |
| FeatureProperties.AveragesBounded | src/feature_engineering.py:91-98 | when every row has 0 <= lo <= hi, avg_lo and avg_hi are both null or both present with 0 <= avg_lo <= avg_hi |
| FeatureProperties.RatesInUnit | src/feature_engineering.py:130-146 | with ordered averaged counts the accuracy and defence rates are null or in [0, 1] |
| FeatureProperties.MirrorKeepsCountsOrdered | src/feature_engineering.py:53-75 | ordered own counts give ordered opponent counts after the mirror |
| FeatureProperties.SortKeepsCountsOrdered | src/feature_engineering.py:90 | a property of every row survives the sort |
| FeatureProperties.AvgRowIs | src/feature_engineering.py:91-100 | the averages joined to row i are those computed on the sorted table |
| FeatureProperties.AvgRowOrdered | src/feature_engineering.py:91-100 | ordered counts on every row give ordered averages on every row |
| FeatureProperties.GuardedRatiosWithinUnit | src/feature_engineering.py:126-146 | if every bout has landed <= attempted, every accuracy and defence rate of the pipeline is null or in [0, 1] |
| FeatureProperties.DeltaAntisymmetric | src/feature_engineering.py:175-192 | in a two-row fight, each row's delta_X is the negation of the other's, and net_str_eff is its net striking minus the other's |
| FeatureEngineering.JoinProfiles | src/feature_engineering.py:246-249 | the left merge keeps every row and its order; a known fighter gets its profile, an unknown one nulls |
| FeatureEngineering.FightsWhere | src/feature_engineering.py:259 | the fights flagged are exactly those having some row that fails the rule |
| FeatureEngineering.DropFights | src/feature_engineering.py:260 | the rows kept are exactly the input rows whose fight is not flagged |
| FeatureProperties.DropWhereKeeps | src/feature_engineering.py:259-260 | a row survives iff no row of its fight is bad, and nothing else is kept |
| FeatureProperties.RewritesKeepKey | src/feature_engineering.py:256-268 | defaulting the stance and the string encodings keep each row's fight, fighter, date and dob |
| FeatureEngineering.HandleNulls | src/feature_engineering.py:251-262 | the null-handling stage only drops rows, and every row it keeps has a date of birth and a stance |
| FeatureProperties.HandleNullsDropsWholeFights | src/feature_engineering.py:251-262 | stance defaults to Orthodox, and a row survives iff every row of its fight has a date of birth |
| FeatureEngineering.EncodeCategorical | src/feature_engineering.py:264-290 | the encoding stage only drops rows, and no row it keeps carries an excluding category |
| FeatureProperties.EncodeDropsWholeFights | src/feature_engineering.py:264-290 | a row survives, encoded, iff no row of its fight carries a DQ, Draw, NC, OTHER_DEC, Sideways or Open Stance dummy |
| FeatureProperties.EncodeKeepsOnlyEncodedRows | src/feature_engineering.py:264-290 | every row kept by the encoding stage is an encoded input row without an excluding dummy |
| FeatureProperties.DropFightsSorted | src/feature_engineering.py:260 | dropping rows keeps the remaining rows in order |
| FeatureProperties.RatesJoinSorted | src/feature_engineering.py:126-249 | the rate and profile stages keep the averaging stage's order |
| FeatureProperties.HandleNullsSorted | src/feature_engineering.py:251-262 | the null-handling stage keeps the table sorted |
| FeatureProperties.EncodeSorted | src/feature_engineering.py:264-290 | the encoding stage keeps the table sorted |
| FeatureProperties.CleanedTableSorted | src/feature_engineering.py:298-305 | the rows reaching the streak stage are still sorted by (fighter, date, fight), so the later re-sorts by (fighter, date) change no fighter's order |
| Streaks.ShiftFill | src/feature_engineering.py:318 | `shift(fill_value=0)`: first entry 0, every other entry the previous value |
| Streaks.RunStarts | src/feature_engineering.py:310 | one flag per row for `is_win != shifted is_win` |
| Streaks.StreakGroupStep | src/feature_engineering.py:309-311 | the streak group number grows by one exactly where the result changes |
| Streaks.RunningStreakIsRunLength | src/feature_engineering.py:309-315 | `running_streak` is the length of the run of equal results ending at the row |
| Streaks.RunOnTrueIsTrailingRun | src/feature_engineering.py:313-316 | the unshifted win streak is the run of wins ending at the row, 0 on a loss |
| Streaks.CurrentStreak | src/feature_engineering.py:298-322 | one streak value per row, and 0 on the debut |
| Streaks.CurrentStreakIsTrailingRun | src/feature_engineering.py:298-322 | `win_streak` on row k is the number of consecutive wins immediately before row k, 0 on the debut |
| Streaks.Not | src/feature_engineering.py:325 | `is_loss` is the complement of `is_win` row by row |
| Streaks.ExactlyOneStreak | src/feature_engineering.py:324-340 | after the debut exactly one of win_streak and lose_streak is positive, the one matching the previous result |
| Streaks.RunWinsIsRunLength | src/feature_engineering.py:346-347 | counting the wins of the row's streak group gives the length of its winning run |
| Streaks.RunWinsIsRunOnTrue | src/feature_engineering.py:346-347 | the cumsum-within-group formulation agrees with the cumcount formulation of the win streak |
| Streaks.CumMaxIsLongestRun | src/feature_engineering.py:346-348 | the running maximum of the win streak is the longest run of wins so far |
| Streaks.LongestRunBounds | src/feature_engineering.py:342-352 | no run of wins in the history is longer than the longest run |
| Streaks.LongestRunAttained | src/feature_engineering.py:342-352 | some run of wins attains the longest run |
| Streaks.LongestStreak | src/feature_engineering.py:342-352 | one value per row, and 0 on the debut |
| Streaks.LongestStreakIsLongestRun | src/feature_engineering.py:342-352 | `longest_win_streak` on row k is the longest run of wins among rows before k, 0 on the debut |
| Streaks.LongestStreakProperties | src/feature_engineering.py:342-352 | the longest streak never decreases and is never below the current win streak |
| Streaks.WinsWith | src/feature_engineering.py:366-367 | the win signal for a method is set exactly on wins carrying that method's dummy |
| Streaks.WinsBy | src/feature_engineering.py:355-376 | one count per row, and 0 on the debut |
| Streaks.WinsByCountsEarlierWins | src/feature_engineering.py:355-376 | `wins_by_<M>` on row k counts exactly the earlier rows that are wins carrying dummy M, 0 on the debut |
| Streaks.WinsByMono | src/feature_engineering.py:355-376 | `wins_by_<M>` never decreases along a fighter's rows |
| Streaks.WinsByStep | src/feature_engineering.py:355-376 | `wins_by_<M>` grows from one row to the next by one exactly when the previous row was a win by M |
| FeatureEngineering.Results | src/feature_engineering.py:307 | a fighter's `is_win` column holds, in table order, whether each of that fighter's rows is a win |
| FeatureEngineering.Methods | src/feature_engineering.py:366-367 | a fighter's method column holds, in table order, each of that fighter's rows' method dummy |
| FeatureEngineering.WithForm | src/feature_engineering.py:298-396 | the form stage keeps every row and its order; the colour is Red iff the fighter is the bout's red fighter, and the age is present iff the date of birth is |
| FeatureProperties.FormOfRow | src/feature_engineering.py:298-396 | per row: colour is Red iff the fighter is the red fighter; the win and lose streaks are the runs of wins and losses just before the row, exactly one of them positive after the debut; the longest streak is the longest earlier run; each wins-by count is the number of earlier wins by that method; the age is the completed years; the row is the debut iff it is the fighter's first |
| FeatureProperties.FormAt | src/feature_engineering.py:342-376 | the longest-streak and method-count columns are the fighter's sequences at the row's rank |
| FeatureProperties.FormMonotone | src/feature_engineering.py:342-376 | along a fighter's rows the longest streak and method counts never decrease, and a method count grows by at most one per bout |
| FeatureEngineering.Age | src/feature_engineering.py:378-388 | age is the number of birthdays reached by the event date: the n with anniversary n <= event < anniversary n+1 |
| FeatureProperties.DebutIsFirstRow | src/feature_engineering.py:390-396 | `is_debut` is set exactly on the first row of each fighter |
| FeatureProperties.DebutOncePerFighter | src/feature_engineering.py:390-396 | every fighter in the table has exactly one debut row |
| FeatureProperties.DebutIsEarliest | src/feature_engineering.py:390-396 | in the sorted table the debut is the fighter's earliest row by (date, fight) |
| Groups.FirstOfEachMembers | src/feature_engineering.py:428 | `drop_duplicates` keeps exactly the values of the first row of each group |
| FeatureEngineering.SidesOf | src/feature_engineering.py:422-426 | the red (blue) blocks are exactly the blocks of the red (blue) rows |
| FeatureEngineering.Merge | src/feature_engineering.py:430 | the inner merge holds exactly the combinations of a shared row with a red and a blue block of the same fight |
| FeatureProperties.SharedFromFirstRow | src/feature_engineering.py:428 | a shared block in the wide table comes from the first row of its fight |
| FeatureProperties.SideFromRow | src/feature_engineering.py:422-426 | a side block of a colour comes from a row of that colour |
| FeatureEngineering.ToWide | src/feature_engineering.py:398-432 | every wide row has a red block coloured Red and a blue block coloured Blue, both of the shared block's fight |
| FeatureProperties.WideRowsComeFromFights | src/feature_engineering.py:398-432 | every wide row is built from a fight's first row and a red and a blue row of that fight |
| FeatureProperties.FightsGiveWideRows | src/feature_engineering.py:398-432 | every first row with a red and a blue row of its fight gives a wide row |
| FeatureProperties.WideRowsAreWholeFights | src/feature_engineering.py:398-432 | a row is in the wide table iff it combines a fight's first-row shared block with a red and a blue row of that fight |
| FeatureEngineering.IntMinus | src/feature_engineering.py:434-439 | a red-minus-blue attribute delta is present iff both sides are; adding blue back gives red |
| FeatureEngineering.AttributeDeltas | src/feature_engineering.py:434-439 | keeps every wide row in order; each delta is present iff both corners' values are, and then blue plus delta is red |
| FeatureEngineering.DeltasKeepSides | src/feature_engineering.py:434-439 | adding the deltas keeps each wide row's corner blocks and their colours |
| FeatureEngineering.Pipeline | src/feature_engineering.py:469-483 | the stages chained in the order `main` runs them; every final row's red block is Red, its blue block Blue, and both belong to the shared block's fight |
| ScrapyPipelines.InchRun | src/scrapy/crawler/pipelines.py:66 | `[\d"]+` is greedy: the longest prefix of inch characters |
| ScrapyPipelines.HeightMatch | src/scrapy/crawler/pipelines.py:66 | a match has a non-empty digit group and a non-empty group of digits and quotes |
| ScrapyPipelines.HeightMatchSound | src/scrapy/crawler/pipelines.py:66 | a match splits the text as the pattern says: feet, quote, whitespace, inch group, rest |
| ScrapyPipelines.HeightMatchComplete | src/scrapy/crawler/pipelines.py:66 | any text of the pattern's shape is matched with exactly those groups |
| ScrapyPipelines.InchesValue | src/scrapy/crawler/pipelines.py:70 | the inch conversion fails exactly when the group has no digit |
| ScrapyPipelines.InchesValueIsInt | src/scrapy/crawler/pipelines.py:70 | the inch conversion is `int()` of the stripped, unquoted digits |
| ScrapyPipelines.HeightTextMatches | src/scrapy/crawler/pipelines.py:66 | `F' I"` matches with groups F and `I"` |
| ScrapyPipelines.ParseHeight | src/scrapy/crawler/pipelines.py:63-71 | a parsed height is never negative; truthy non-text raises TypeError, and text raises at most ValueError from `int()` |
| ScrapyPipelines.ParseHeightOfMatch | src/scrapy/crawler/pipelines.py:63-71 | `parse_height` of matched text is what the two groups give |
| ScrapyPipelines.HeightRoundTrip | src/scrapy/crawler/pipelines.py:63-71 | `parse_height` of `F' I"` printed from numbers gives F*12 + I |
| ScrapyPipelines.HeightOfDigits | src/scrapy/crawler/pipelines.py:63-71 | `parse_height` of `F' I"` for any digit strings gives F*12 + I |
| ScrapyPipelines.ParseNumber | src/scrapy/crawler/pipelines.py:73-83 | on text never raises, and gives None iff the text has no digit; falsy input gives None |
| ScrapyPipelines.NumberRoundTrip | src/scrapy/crawler/pipelines.py:73-83 | a number after digit-free text and before a non-digit is the number read |
| ScrapyPipelines.NumberAtStart | src/scrapy/crawler/pipelines.py:76-77 | a number at the start, before a non-digit, is the number read |
| ScrapyPipelines.OptionValue | src/scrapy/crawler/pipelines.py:85-87 | a parsed measurement is stored as None iff it is absent, otherwise as that integer |
| ScrapyPipelines.ProcessFighter | src/scrapy/crawler/pipelines.py:85-91 | the step raises only TypeError or ValueError, and otherwise the fields are the old ones plus height, weight, reach, stance and dob |
| ScrapyPipelines.ProcessFighterItem | src/scrapy/crawler/pipelines.py:59-91 | on a FighterItem the new fields are the pipeline's result; other classes pass untouched |
| ScrapyPipelines.ProcessFighterTouchesOnlyMeasurements | src/scrapy/crawler/pipelines.py:85-91 | no value changes but height, weight and reach; stance and dob may only be added as None |
| ScrapyPipelines.ProcessFighterStoresParses | src/scrapy/crawler/pipelines.py:85-91 | the pipeline raises iff a parser raises; otherwise each field holds its parser's result |
| ScrapyPipelines.ProcessFighterEmpty | src/scrapy/crawler/pipelines.py:63-91 | absent or empty measurements are stored as None without error |
| DateFormatting.FormatDate | src/scrapy/crawler/pipelines.py:99-113 | falsy input or text with "--" gives None; a non-text truthy value raises TypeError; a present result is the parsed ISO text |
| DateFormatting.DateField | src/scrapy/crawler/pipelines.py:115-120 | the field rewritten is the first present of event_date, date, dob, and none iff none is present |
| DateFormatting.FormatDates | src/scrapy/crawler/pipelines.py:96-123 | other item classes and items without a date pass unchanged; the set of fields never changes |
| DateFormatting.FormatDatesStep | src/scrapy/crawler/pipelines.py:96-123 | the method leaves the item as `FormatDates` says |
| DateFormatting.FormatDatesTouchesOne | src/scrapy/crawler/pipelines.py:115-120 | only the chosen date field can change |
| DateFormatting.FormatDatesStores | src/scrapy/crawler/pipelines.py:115-120 | the chosen field holds the formatted date and nothing raises |
| DateFormatting.FormattedDateValidates | src/scrapy/crawler/pipelines.py:99-113 | a formatted date is None or passes the validation's date check |
| DateFormatting.FormatDateTwiceIsNone | src/scrapy/crawler/pipelines.py:99-113 | when neither strptime format reads the ISO text it writes (as with `%B %d, %Y` and `%b %d, %Y`), formatting an already formatted date gives None |
| FightPipeline.DetermineDecision | src/scrapy/crawler/pipelines.py:201-209 | the decision subtype is one of U-DEC, S-DEC, M-DEC, OTHER-DEC |
| FightPipeline.DecisionPriority | src/scrapy/crawler/pipelines.py:201-209 | each subtype is chosen iff its keyword occurs and no higher-priority one does (unanimous > split > majority) |
| FightPipeline.FinishType | src/scrapy/crawler/pipelines.py:187-197 | the finish type is one of KO/TKO, SUB, DEC, DQ, OTHER |
| FightPipeline.HandleResults | src/scrapy/crawler/pipelines.py:177-199 | raises (AttributeError) iff `method_raw` is not text; keeps `result_type`; otherwise the finish type is one of the seven, and a decision subtype (always None or one of the four) is set iff the finish is DEC or Draw |
| FightPipeline.HandleResultsStep | src/scrapy/crawler/pipelines.py:177-199 | the method leaves the item as `handle_results` says |
| FightPipeline.ResultsByKeyword | src/scrapy/crawler/pipelines.py:186-197 | outside NC and Draw the finish type is the first keyword among ko, submission, decision, dq; only a decision gets a decision type |
| FightPipeline.ResultsOfKnownResult | src/scrapy/crawler/pipelines.py:181-185 | a result already NC or Draw becomes its own finish type |
| FightPipeline.ResultsIgnoreCase | src/scrapy/crawler/pipelines.py:180 | the method text is read only through its lower-case form |
| FightPipeline.HandleTime | src/scrapy/crawler/pipelines.py:164-175 | adds no field but `time_scheduled` and `total_duration`, and can raise only TypeError |
| FightPipeline.HandleTimeStep | src/scrapy/crawler/pipelines.py:164-175 | the method leaves the item as `handle_time` says |
| FightPipeline.TimeOfIntegers | src/scrapy/crawler/pipelines.py:164-175 | on integers: time_scheduled = rounds*300, total_duration = (end_round-1)*300 + time; nothing else changes |
| FightPipeline.DurationWithinSchedule | src/scrapy/crawler/pipelines.py:169-173 | a bout ending inside a scheduled round lasted at most its scheduled time |
| FightPipeline.TimeUntouched | src/scrapy/crawler/pipelines.py:169-173 | without the inputs, the durations are left as they were |
| FightPipeline.HandleTimeIdempotent | src/scrapy/crawler/pipelines.py:164-175 | running `handle_time` twice is running it once |
| FightPipeline.TimeKeeps | src/scrapy/crawler/pipelines.py:164-175 | `handle_time` writes no field but the two durations |
| FightPipeline.HandleWinnersAndLosers | src/scrapy/crawler/pipelines.py:139-162 | raises only AttributeError or KeyError, and otherwise leaves the result Win, Draw or NC |
| FightPipeline.HandleWinnersAndLosersStep | src/scrapy/crawler/pipelines.py:139-162 | the method leaves the item as `handle_winners_and_losers` says |
| FightPipeline.WinnerIffWin | src/scrapy/crawler/pipelines.py:139-162 | with both corners named: the result is Win, Draw or NC, and winner and loser are set iff it is Win |
| FightPipeline.WinnersSymmetric | src/scrapy/crawler/pipelines.py:144-155 | exchanging the corners names the same winner, loser and result, with the colour exchanged |
| FightPipeline.WinnersOfStatus | src/scrapy/crawler/pipelines.py:144-159 | W: red wins; L: blue wins; D: Draw; anything else: NC |
| FightPipeline.WinnersKeep | src/scrapy/crawler/pipelines.py:139-162 | the step writes no field but winner, loser, colour and result |
| FightPipeline.ProcessFight | src/scrapy/crawler/pipelines.py:127-137 | a fought bout processed without error has result Win, Draw or NC |
| FightPipeline.ProcessFightItem | src/scrapy/crawler/pipelines.py:127-137 | on a FightItem the new fields are results, then time, then winners; upcoming bouts and other classes pass |
| FightPipeline.FinishBeforeResult | src/scrapy/crawler/pipelines.py:133-135 | with the result loaded as None the finish type comes from the method keywords even for a draw or no contest |
| FightPipeline.DrawRecordedAsDecision | src/scrapy/crawler/pipelines.py:133-135 | a drawn bout with a decision method is recorded as a Draw with finish type DEC |
| FightPipeline.DecisionText | src/scrapy/crawler/pipelines.py:187-193 | a method starting with "decision" and having no k or u reads as DEC |
| FightPipeline.SplitDrawText | src/scrapy/crawler/pipelines.py:187-193 | "Decision - Split" reads as DEC |
| FightPipeline.ProcessFightCorrected | src/scrapy/crawler/pipelines.py:127-137 | with the winners step first, a fought bout processed without error has result Win, Draw or NC and one of the seven finish types |
| FightPipeline.CorrectedFinishOfResult | src/scrapy/crawler/pipelines.py:133-135 | with the result resolved first, a draw has finish type Draw and a no contest finish type NC |
| Items.NullOut | src/scrapy/crawler/pipelines.py:217-231 | clearing fields sets exactly those to None and keeps every other field |
| FightPipeline.UpcomingFight | src/scrapy/crawler/pipelines.py:211-233 | the event status and every field outside the cleared list keep their values |
| FightPipeline.UpcomingFightItem | src/scrapy/crawler/pipelines.py:211-233 | the method clears a FightItem as `UpcomingFight` says; other classes pass |
| FightPipeline.UpcomingFightClears | src/scrapy/crawler/pipelines.py:211-233 | an uncompleted bout has every outcome field None and keeps the rest; a completed one is untouched; applying it twice is applying it once |
| ScrapyPipelines.SplitCounts | src/scrapy/crawler/pipelines.py:283-295 | the two counts are both None or both integers |
| ScrapyPipelines.SplitRoundTrip | src/scrapy/crawler/pipelines.py:283-295 | "X of Y", in any case and with any whitespace, splits into X and Y |
| ScrapyPipelines.CountsOfPieces | src/scrapy/crawler/pipelines.py:286-292 | digit strings around "of" split into the numbers they denote |
| ScrapyPipelines.SplitWithoutOf | src/scrapy/crawler/pipelines.py:284-295 | None, non-text, or text without "of" gives (None, None) |
| FighterFightPipeline.RawDataMapNamed | src/scrapy/crawler/constants.py:30-40 | every entry reads `<stem>_raw` and writes `<stem>_landed` and `<stem>_attempted` |
| FighterFightPipeline.RawDataMapDeclared | src/scrapy/crawler/constants.py:30-40 | every field written is declared by FighterFightItem |
| FighterFightPipeline.RawDataMapSeparate | src/scrapy/crawler/constants.py:30-40 | no entry reads a field any entry writes, and no field is written twice |
| FighterFightPipeline.WithCountsAt | src/scrapy/crawler/pipelines.py:249-254 | with separate entries, each written pair is the split of its raw field as it was before the loop |
| FighterFightPipeline.WithCountsKeys | src/scrapy/crawler/pipelines.py:249-254 | the fields afterwards are the old ones plus every written one |
| FighterFightPipeline.HandleRawValues | src/scrapy/crawler/pipelines.py:248-256 | the fields afterwards are the old ones plus every landed/attempted field the table writes |
| FighterFightPipeline.HandleRawValuesStep | src/scrapy/crawler/pipelines.py:248-256 | the loop leaves the item as `HandleRawValues` says |
| FighterFightPipeline.RawValuesSplit | src/scrapy/crawler/pipelines.py:248-256 | every entry's landed and attempted fields hold the split of its raw text; all other fields keep their values |
| FighterFightPipeline.RawValuesIdempotent | src/scrapy/crawler/pipelines.py:248-256 | splitting twice is splitting once |
| FighterFightPipeline.IntegerFieldsDeclared | src/scrapy/crawler/pipelines.py:259-271 | every converted field is declared by FighterFightItem |
| FighterFightPipeline.Trunc | src/scrapy/crawler/pipelines.py:277 | `int()` of a float truncates toward zero |
| FighterFightPipeline.IntOfValue | src/scrapy/crawler/pipelines.py:277 | an integer value converts to itself |
| FighterFightPipeline.Converted | src/scrapy/crawler/pipelines.py:273-279 | a field is either kept or becomes an integer |
| FighterFightPipeline.ConvertedIdempotent | src/scrapy/crawler/pipelines.py:273-279 | converting a converted value changes nothing, and convertibility is kept |
| FighterFightPipeline.ConvertRaisesIffUnconvertible | src/scrapy/crawler/pipelines.py:273-279 | as written the loop raises AttributeError iff some listed field is unconvertible; otherwise it equals the intended loop |
| FighterFightPipeline.ConvertStopsAtError | src/scrapy/crawler/pipelines.py:273-279 | once a conversion raises, the rest of the loop never runs |
| FighterFightPipeline.LoggedFieldAt | src/scrapy/crawler/pipelines.py:273-279 | the intended loop never raises, converts each listed field when it can and keeps every other field |
| FighterFightPipeline.ConvertFields | src/scrapy/crawler/pipelines.py:273-279 | the conversion loop as written keeps the set of fields and can raise only AttributeError |
| FighterFightPipeline.ConvertFieldsLogged | src/scrapy/crawler/pipelines.py:273-279 | the intended loop, which logs and goes on, keeps the set of fields |
| FighterFightPipeline.ConvertToNumericsStep | src/scrapy/crawler/pipelines.py:258-281 | the method leaves the item as the loop as written says |
| FighterFightPipeline.ConvertFieldsStep | src/scrapy/crawler/pipelines.py:273-279 | the loop over any declared fields leaves the item as `ConvertFields` says |
| FighterFightPipeline.ProcessFighterFight | src/scrapy/crawler/pipelines.py:237-246 | on a fought bout the fields afterwards are the old ones plus the split counts; the only error is AttributeError |
| FighterFightPipeline.ProcessFighterFightItem | src/scrapy/crawler/pipelines.py:237-246 | on a FighterFightItem: an upcoming bout passes, otherwise split then convert; other classes pass |
| FighterFightPipeline.ProcessedCounts | src/scrapy/crawler/pipelines.py:243-244 | on a fought bout the counts survive conversion as the split of their raw text |
| FighterFightPipeline.UnparsableCountRaises | src/scrapy/crawler/pipelines.py:279 | a knockdown count `float()` rejects makes the pipeline raise AttributeError |
| FighterFightPipeline.KnockdownsNotWritten | src/scrapy/crawler/pipelines.py:248-260 | the split loop never writes `knockdowns` |
| FighterFightPipeline.UpcomingFighterFight | src/scrapy/crawler/pipelines.py:297-338 | the event status and every field outside the cleared list keep their values |
| FighterFightPipeline.UpcomingFighterFightItem | src/scrapy/crawler/pipelines.py:301-338 | the method clears a FighterFightItem as `UpcomingFighterFight` says; other classes pass |
| Items.Item.ClearAll | src/scrapy/crawler/pipelines.py:306-336 | assigning None to each listed field in turn leaves the fields `NullOut` describes: the listed ones None, every other one as it was |
| FighterFightPipeline.UpcomingFighterFightClears | src/scrapy/crawler/pipelines.py:297-338 | an uncompleted bout has every statistic None and keeps the rest; a completed one is untouched; idempotent |
| ValidationPipeline.FirstFailingIff | src/scrapy/crawler/pipelines.py:469-473 | a field-list check raises iff some listed field is bad, naming the first one |
| ValidationPipeline.FirstFailingAgree | src/scrapy/crawler/pipelines.py:469-473 | a check reads only its listed fields |
| ValidationPipeline.ValidateFighter | src/scrapy/crawler/pipelines.py:361-380 | a rejection is always ValueError, and an empty or missing fighter_id is always rejected |
| ValidationPipeline.FighterRaisesIff | src/scrapy/crawler/pipelines.py:361-380 | a fighter is rejected iff id or name is blank, a measurement is set and not a number, or a set dob is not a date |
| ValidationPipeline.ProcessedFighterMeasurements | src/scrapy/crawler/pipelines.py:370-375 | measurements left by the fighter pipeline pass the numeric checks |
| ValidationPipeline.ValidateFight | src/scrapy/crawler/pipelines.py:382-424 | a rejection is always ValueError, and an accepted fight has a valid outcome |
| ValidationPipeline.FightRaisesIff | src/scrapy/crawler/pipelines.py:382-424 | a fight is rejected iff an identity field is blank, the outcome is inconsistent, end_round is not an int >= 1, end_round_time not an int >= 0, or a set event_date is not a date |
| ValidationPipeline.WinNamesBoth | src/scrapy/crawler/pipelines.py:404-409 | after the winners step a Win names both the winner and the loser |
| ValidationPipeline.ProcessedFightOutcomeValid | src/scrapy/crawler/pipelines.py:387-409 | a fought bout processed without error, with both corners named, has a valid outcome |
| ValidationPipeline.UpcomingFightValidation | src/scrapy/crawler/pipelines.py:382-424 | a cleared upcoming bout is rejected only for a blank identity field or a bad event date |
| ValidationPipeline.ValidateEvent | src/scrapy/crawler/pipelines.py:426-444 | a rejection is always ValueError, and an empty or missing event_id is always rejected |
| ValidationPipeline.EventRaisesIff | src/scrapy/crawler/pipelines.py:426-444 | an event is rejected iff id or name is blank, or a set date is not a date; an unknown status never raises |
| ValidationPipeline.ValidateFighterFight | src/scrapy/crawler/pipelines.py:446-467 | a rejection is always ValueError, and an accepted fighter-bout does not name the fighter as their own opponent |
| ValidationPipeline.FighterFightRaisesIff | src/scrapy/crawler/pipelines.py:446-467 | a fighter-bout is rejected iff an identity field is blank, fighter equals opponent, or a statistic is set and not a number |
| ValidationPipeline.NumericIsIntegerPlusControl | src/scrapy/crawler/pipelines.py:456-463 | the numeric list is the converted list with ctrl_time added after reversals |
| ValidationPipeline.ProcessedStatsNumeric | src/scrapy/crawler/pipelines.py:455-467 | after the fighter-fight pipeline every converted statistic passes the numeric check |
| ValidationPipeline.ControlTimeNotSplit | src/scrapy/crawler/pipelines.py:456-463 | ctrl_time is neither split nor converted |
| ValidationPipeline.Validate | src/scrapy/crawler/pipelines.py:347-359 | an item that passes comes back unchanged; a rejection is ValueError |
| ScrapyPipelines.HeightField | crawler/crawler/pipelines.py:17-25 | the site's `5' 11"` height reads as inches |
| ScrapyPipelines.NumberField | crawler/crawler/pipelines.py:28-39 | the site's `155 lbs.` and `72"` read as the leading number |
| CleanItem.ParseFloat | crawler/crawler/pipelines.py:50-56 | falsy input or a value `float()` rejects gives None; a truthy number is itself |
| CleanItem.ParsePercent | crawler/crawler/pipelines.py:42-47 | falsy gives None; a truthy non-string raises TypeError; text is read as a float |
| CleanItem.PercentSign | crawler/crawler/pipelines.py:45-47 | "s%" reads as s/100, plain "s" as s |
| CleanItem.ParseDob | crawler/crawler/pipelines.py:59-66 | a date is produced iff the input is non-empty text the date format accepts |
| CleanItem.CleanValue | crawler/crawler/pipelines.py:17-66 | only the height, weight/reach and percent cleanings can raise |
| CleanItem.Clean | crawler/crawler/pipelines.py:69-82 | a line after an error does nothing; a line writes at most its own declared field |
| CleanItem.ErrorSticks | crawler/crawler/pipelines.py:69-82 | once a line raises, the remaining lines do nothing |
| CleanItem.AllKeeps | crawler/crawler/pipelines.py:69-82 | lines that do not name a field leave it as it was |
| CleanItem.AllClean | crawler/crawler/pipelines.py:69-82 | distinct declared fields whose cleanings do not raise: no error and each holds its cleaning |
| CleanItem.LinesFitFighterItem | crawler/crawler/pipelines.py:69-82 | the twelve lines name twelve different fields, all declared by FighterItem |
| CleanItem.CleanField | crawler/crawler/pipelines.py:69 | one assignment line leaves the item as `Clean` says |
| CleanItem.CleanAllKeys | crawler/crawler/pipelines.py:69-82 | the assignment lines add no field the item class does not declare |
| CleanItem.ProcessItem | crawler/crawler/pipelines.py:15-84 | the cleaned item holds only its old fields and declared ones |
| CleanItem.ProcessItemStep | crawler/crawler/pipelines.py:15-84 | the method leaves the item as the twelve lines in order say |
| CleanItem.ProcessItemKeeps | crawler/crawler/pipelines.py:69-84 | only the twelve cleaned fields can change |
| CleanItem.IdentityUnchanged | crawler/crawler/pipelines.py:69-84 | fighter_id, name and stance pass unchanged |
| CleanItem.ProcessFighterItem | crawler/crawler/pipelines.py:69-84 | on a FighterItem with non-raising cleanings, every cleaned field holds its cleaning |
| CleanItem.OtherItemsRaise | crawler/crawler/pipelines.py:69 | any other item class raises KeyError("height") and is left as it was |
| CleanItem.WithoutHeightRaises | crawler/crawler/pipelines.py:69 | a class without `height` fails at the first line, before anything is stored |
| Loaders.CleanNa | crawler/crawler/loaders.py:6-9 | None, empty text or a placeholder gives None; otherwise the stripped, non-empty text |
| Loaders.CleanNaIdempotent | crawler/crawler/loaders.py:6-9 | cleaning a cleaned value changes nothing |
| Loaders.ExtractId | crawler/crawler/loaders.py:11-12 | the id is None iff the URL is None or empty |
| Loaders.ExtractIdOfUrl | crawler/crawler/loaders.py:11-12 | the id of `base/id` is `id` when `id` has no '/' |
| Loaders.GroupEnd | crawler/crawler/loaders.py:17 | the lazy group ends at the first word after which " Title Bout" or " Bout" can follow |
| Loaders.FirstMatch | crawler/crawler/loaders.py:17 | the match starts at the first start whose group can end, and none exists otherwise |
| Loaders.ParseWeight | crawler/crawler/loaders.py:14-21 | None or empty input gives "Unknown" |
| Loaders.ParseWeightFinds | crawler/crawler/loaders.py:14-21 | a class is found iff some word after the first starts with "Bout", otherwise "Unknown" |
| Loaders.SplitJoinWords | crawler/crawler/loaders.py:16 | collapsing whitespace: splitting words joined by single spaces gives back the words |
| Loaders.ParseWeightDecorated | crawler/crawler/loaders.py:14-21 | "UFC", "Interim" and "Title" around a class name are dropped, in any case |
| Loaders.CheckTitle | crawler/crawler/loaders.py:23-27 | the flag is 0 or 1 |
| Loaders.TitleBoutFlagged | crawler/crawler/loaders.py:23-27 | every title bout is flagged 1 |
| Loaders.DetermineGender | crawler/crawler/loaders.py:29-30 | the gender is "Women" or "Men" |
| Loaders.WomenInAnyCase | crawler/crawler/loaders.py:29-30 | "women" in any case anywhere gives "Women" |
| Loaders.ExtractScheduledRounds | crawler/crawler/loaders.py:32-33 | blank text raises IndexError, a non-integer first word ValueError |
| Loaders.ConvertSeconds | crawler/crawler/loaders.py:35-39 | the empty text gives None; any failure is ValueError |
| Loaders.ConvertSecondsOfDashes | crawler/crawler/loaders.py:35-39 | the placeholder "--" raises ValueError |
| DataLoaders.CleanNa | data/crawler/loaders.py:6-11 | falsy input or a placeholder gives None; otherwise the stripped text |
| DataLoaders.CleanNaAgrees | data/crawler/loaders.py:6-11 | the restructured `clean_na` agrees with the older one on every input |
| Loaders.ExtractIdIsLastSegment | data/crawler/loaders.py:13-14 | the id is a '/'-free suffix of the URL: the whole URL or what follows its last '/' |
| DataLoaders.CheckTitle | data/crawler/loaders.py:16-20 | True iff "title" occurs in the lower-cased text |
| DataLoaders.CheckTitleAgrees | data/crawler/loaders.py:16-20 | True exactly where the older copy gives 1, False where it gives 0 |
| Loaders.GenderByOccurrence | data/crawler/loaders.py:22-23 | "Women" iff "women" occurs in the lower-cased text |
| Loaders.ScheduledRoundsOf | data/crawler/loaders.py:25-26 | "N Rnd (...)" gives N |
| Loaders.ConvertSecondsOfMinutes | data/crawler/loaders.py:28-32 | "M:SS" gives 60*M + SS |
| FighterSpider.ConvertRoundsSeconds | crawler/crawler/spiders/fighter_spider.py:95-101 | fails exactly when the round count fails, with the same error; otherwise a multiple of 300 |
| FighterSpider.ScheduledSecondsOf | crawler/crawler/spiders/fighter_spider.py:99-101 | "N Rnd (...)" is scheduled for 300*N seconds |
| Loaders.ConvertSecondsOfClock | crawler/crawler/spiders/fighter_spider.py:130-134 | a clock printed from n seconds reads back as n |
| FighterSpider.DetermineOpponent | crawler/crawler/spiders/fighter_spider.py:150-154 | column 1 (blue opponent) iff the current name is the red name, otherwise column 2 |
| FighterSpider.OpponentsPair | crawler/crawler/spiders/fighter_spider.py:150-154 | with distinct names each corner names the other as opponent and reads the other column |
| FighterSpider.UnmatchedNameReadsBlue | crawler/crawler/spiders/fighter_spider.py:150-154 | a name matching neither corner is taken as blue |
| FighterSpider.PostProcess | crawler/crawler/spiders/fighter_spider.py:165-180 | the two counts are both None or both present |
| FighterSpider.PostProcessRoundTrip | crawler/crawler/spiders/fighter_spider.py:165-180 | "X of Y" with any padding reads as X and Y, as the newer `split` reads it |
| FighterSpider.PostProcessWithoutOf | crawler/crawler/spiders/fighter_spider.py:171-180 | text without a lower-case "of" gives (None, None) |
| FighterSpider.PostProcessCaseSensitive | crawler/crawler/spiders/fighter_spider.py:169-171 | "X OF Y" gives (None, None), while the newer `split` reads X and Y |
| FighterSpider.Assign | crawler/crawler/spiders/fighter_spider.py:186-192 | assigning a field succeeds iff the item class declares it |
| FighterSpider.TotalStats | crawler/crawler/spiders/fighter_spider.py:183-192 | only the stat's own declared fields can be added, and a run without error means the item declares all of them |
| FighterSpider.PopulateTotalStats | crawler/crawler/spiders/fighter_spider.py:183-192 | the method leaves the item as `TotalStats` says |
| FighterSpider.TotalStatsWrites | crawler/crawler/spiders/fighter_spider.py:183-192 | only the stat's own fields change: counts for sig_str/tot_str/td, raw time and seconds for ctrl, the text otherwise |
| FighterSpider.TotalsFitFighterFightItem | crawler/crawler/spiders/fighter_spider.py:26-27 | every field the totals write is declared by FighterFightItem |
| FighterSpider.TotalsRaiseOnFightItem | crawler/crawler/spiders/fighter_spider.py:183-192 | `populate_total_stats` given this crawler's FightItem raises KeyError("knockdowns") on the first total and leaves the item unchanged |
| FighterSpider.PopulateIdentity | crawler/crawler/spiders/fighter_spider.py:157-162 | the five identity assignments in order, the first undeclared field raising KeyError |
| FighterSpider.IdentityStored | crawler/crawler/spiders/fighter_spider.py:157-162 | an item declaring the five identity fields gets the URL's last segment as bout id and the four names and ids, and nothing else changes |
| FighterSpider.IdentityRaisesOnFightItem | crawler/crawler/spiders/fighter_spider.py:157-162 | on the FightItem `parse_fights` builds (crawler/crawler/items.py:30-35), the bout id is stored and then `fighter_name` raises KeyError, before any result or total |
| FighterSpider.ControlDashesRaise | crawler/crawler/spiders/fighter_spider.py:188-190 | a "--" control time is stored raw, then its conversion raises ValueError |
| FighterSpider.ControlTimeSeconds | crawler/crawler/spiders/fighter_spider.py:188-190 | a printed control time is stored raw and as its seconds |

## Left out

- Floating point is not modelled. Averages and rates are exact `real`s, and no rounding is modelled.
- Python's `float()` text parser is a parameter: `Parsers.float` and `parseFloat`.
- `strptime`/`strftime` are parameters: `parse` in `DateFormatting` and `Parsers.dob`. "A valid YYYY-MM-DD date" is an abstract predicate `isDate`. Only the rule that empty text or text containing "--" gives None is fixed.
- `FeatureEngineering.Div`: a division by a zero duration or a zero landed count is None. pandas gives plus or minus infinity or NaN there.
- The weight-class median imputation of height and reach in `handle_NaNs` (src/feature_engineering.py:252-254) is not part of this model.
- NaN propagation inside `ewm` is not modelled. The averaged columns are complete numbers on every row.
- `get_dummies` column naming is not modelled. A dummy is a predicate on the encoded string.
- The column bookkeeping is left out: `merge_tables`, `drop_avg_cols`, the `final_cols` selection, and `clean_up_for_training`'s drops and renames.
- Sorting is modelled once, by (fighter, date, fight), with a stable insertion sort. The later re-sorts by (fighter, date) are proved to change no fighter's order.
- `FeatureEngineering.ToWide`: the shared block is the one of the bout's first row in (fighter, date, fight) order, that is, the row with the smaller `fighter_id`. The multi-key re-sort at src/feature_engineering.py:391 is a stable lexicographic sort of a table that arrives in (fighter_id, event_date) order from line 364, so `drop_duplicates` keeps that same row.
- `FeatureEngineering.ToWide`: the order of the wide rows is not modelled. The model emits the bouts in the order their first rows appear in the (fighter, date, fight) table; pandas emits them in `shared_df` order, (event_date, fight_id), and `clean_up_for_training` sorts them that way again (src/feature_engineering.py:441). Only which wide rows exist is proved (`WideRowsAreWholeFights`).
- The two-rows-per-bout shape, each row naming the other as opponent, is the precondition of the pair lemmas (`MirrorSwapsPair`, `DeltaAntisymmetric`). It is not derived from the scraper.
- I/O is left out: database reads and writes, the Postgres pipelines, `print`, logging, parquet output and the scheduler. `_validate_event`'s warning for an unknown status is a no-op.
- The network- and DOM-bound spider code is left out: XPath, `response`, `populate_result_details`, `parse_fights`, and the fighter id and name getters. So is all of the newer spider. `populate_identity` is modelled with the page URL as a parameter; on the FightItem `parse_fights` builds it raises KeyError("fighter_name") (`FighterSpider.IdentityRaisesOnFightItem`), so the totals `parse_fights` would read next are never reached.
- The Scrapy loader classes (`MapCompose`, `TakeFirst`) are library semantics.
- The item and constants files are used only as declared field sets and as the `RAW_DATA_MAP` table.
- Regular expressions are modelled at the level these patterns need: the height pattern and the word-level `parse_weight` search.
- `\d`, `int()` and `str.lower()`/`upper()` are modelled on ASCII digits and letters. Unicode digits and underscores in `int()` are not modelled.
- A Scrapy item's `in` test ("the field is set") is map membership.

## Findings

| source | as written | input that shows it | evidently intended | confidence | as-written member | corrected member |
|---|---|---|---|---|---|---|
| src/scrapy/crawler/pipelines.py:133-135 | `handle_results` runs before `handle_winners_and_losers`, so it sees the `result_type` loaded as None and classifies draws and no contests by keyword | a bout with red status "D" and method "Decision - Split" is stored with finish type "DEC", never "Draw" | resolve the result first, so a draw gets finish type "Draw" and a no contest "NC", as the validator's allowed finish types expect | not executed | FightPipeline.DrawRecordedAsDecision | FightPipeline.CorrectedFinishOfResult |
| src/scrapy/crawler/pipelines.py:279 | `FighterFightProcessorPipeline` has no `__init__`, so the warning in `convert_to_numerics` reaches an undefined `self.logger` and raises AttributeError | a fought bout whose knockdown count is text such as "abc", which `clean_na` keeps and `float()` rejects (a "--" is already None) | log the failed conversion and keep the field | not executed | FighterFightPipeline.UnparsableCountRaises | FighterFightPipeline.LoggedFieldAt |
