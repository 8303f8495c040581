# Resume-table normalisation of parse_dataset.py, in Dafny

`parse_dataset.py` turns a table of scraped resumes into numeric features. The table comes from an
hh.ru CSV export. A chain of handlers does the work. Each handler reads one free-text column and
derives one or more integer, flag or salary columns from it. It may drop the rows it cannot parse
and then removes the column it read. After the chain, the salary column is split off as the
target.

The model has eight modules:

- `Text` (text.dfy): the string operations the handlers use.
  - Python's substring `in`, `str.lower()` and `str.split` with one separator.
  - `"".join`, `str.replace(c, "")` and the `\d+` scan of `re.findall`.
  - `int()` and `float()` on short tokens.
- `RowFilter` (row_filter.dfy): the row-dropping policy. The `drops`, kept positions and
  `output` lists are built by one pass over a column. `df.drop(df.index[drops])` followed by
  `reset_index(drop=True)` keeps the remaining positions (`Survivors`).
- `Frame` (frame.dfy): the table. It is a row count, an ordered list of column names, and a map
  from name to column. It also holds `df[c] = vals` and `df.drop(columns=...)`. `Reshaped` states
  what a handler does to the table's shape:
  - which rows survive, in order;
  - which columns go and which are assigned;
  - that every other column carries over, row for row.
- `Rules` (rules.dfy): the per-row rule of every handler, as pure functions, with lemmas on what
  each rule yields.
- `Handlers` (handlers.dfy): one method per handler. Each keeps the source's accumulator loops.
  Each is proved equal to its per-row rule followed by the row filter.
- `ChainSpec` (chain_spec.dfy): what a stretch of the chain does, stated row by row against the
  table the stretch starts from. `KeepsPassing` says which rows survive: those every dropping
  handler's test accepts. `FailsSomewhere` says when it raises: a surviving row fails a
  conversion. `Derives` says how each assigned column is computed from the cells of the same
  input row. Its lemmas compose these statements for two stretches run one after the other.
- `Pipeline` (pipeline.dfy): the chain of responsibility `GetProcessedDF` wires up, and the X/y
  split of `ConvertToNumpy`.
  - `ChainFromX` runs handler X and then hands the result to its successor, as `handle` does.
  - `GetDataframe` is the whole chain after the loader.
- `Examples` (examples.dfy): concrete cells run through the rules.

The model keeps these behaviours of the source as written:

- Line 271 lists five senior keywords: "старш", "ведущ", "эксперт", "директор" and "senior".
- Line 59 keeps the first two characters of the age piece and line 63 applies `int()` to them, so
  an age can be 0 or negative ("-5").
- Line 53 deletes only ' ' from the age/sex pieces, not other whitespace.
- Line 125 tests "не готова к переезду" for the business-trip flag. That is the relocation
  phrase, so it clears both city flags (`Rules.RefusalToRelocateClearsBoth`,
  `Examples.WillTravelButNotMove`).
- Line 181 tests "высшее" before line 183 tests "неоконченное", so "Неоконченное высшее"
  (incomplete higher) gets 4 (`Rules.HigherWins`, `Examples.IncompleteHigher`).

A handler whose `int()` (line 63) or `float()` (line 231) raises is modelled as
`Err(ValueError(column))`, which stops the chain. The other exceptions the source can raise are
excluded by preconditions:

- A missing column raises `KeyError`.
- A cell that is not text (pandas reads an empty cell as a float NaN) raises `AttributeError` at
  `.split` (lines 52, 205, 230) or `.lower()` (lines 86, 121, 144, 181) when its handler reads it.
- A title that is not text raises `TypeError` at the `in` tests of line 271, but only in a row
  whose experience is under 60 months: the `or` stops at `exp_list[i] >= 60` otherwise. The
  model follows this: `Handlers.TitleLevel` reads the title only below 60 months, and
  `ProcessEmployeeLevel` requires text titles only there (`TitlesReadable`). A row of 60 months or
  more with a non-text title gets level 3.
- A non-text cell in a row that an earlier handler has already dropped is never read, so it
  raises nothing. `Loaded` is stricter than that (see "Left out").

## Model

| member | source | states |
|---|---|---|
| Text.ContainsIff | parse_dataset.py:86 | `p in s` holds exactly when p occurs at some offset of s (both directions) |
| Text.ContainsAt | parse_dataset.py:86 | an occurrence at a given offset makes `p in s` true |
| Text.Lower | parse_dataset.py:86 | `item.lower()` leaves no capital of the modelled alphabet, keeps the length and every other character |
| Text.LowerIdempotent | parse_dataset.py:86 | lower-casing a lower-cased text changes nothing |
| Text.JoinSplit | parse_dataset.py:52 | joining the pieces of `s.split(d)` with d gives s back |
| Text.SplitPieces | parse_dataset.py:52-54 | no piece holds the separator; there are two or more pieces exactly when the separator occurs |
| Text.SplitHead | parse_dataset.py:205 | the first piece is the text before the first separator |
| Text.SplitNone | parse_dataset.py:205 | a text without the separator splits into itself alone |
| Text.RemoveAll | parse_dataset.py:53 | `s.replace(c, "")` holds no c and is not longer than s |
| Text.ConcatSplit | parse_dataset.py:230-231 | `"".join(s.split(d))` is s with every d deleted |
| Text.Prefix | parse_dataset.py:59 | `s[:k]` is the first min(k, len s) characters of s |
| Text.LeadingDigits | parse_dataset.py:207 | the length of the maximal run of digits at the front |
| Text.DigitRuns | parse_dataset.py:207 | every match of `\d+` is a non-empty string of digits |
| Text.RunsSkip | parse_dataset.py:207 | text without digits yields no match and leaves later matches alone |
| Text.RunsTake | parse_dataset.py:207 | a digit run not followed by a digit is one whole match |
| Text.RunsAreTheDigits | parse_dataset.py:207 | the matches, concatenated, are exactly the digits of the text in order |
| Text.DigitsKept | parse_dataset.py:207 | keeping the digits of d + s keeps all of d, then the digits of s |
| Text.KeepDigits | parse_dataset.py:207 | the kept characters are all digits |
| Text.DigitsValueBound | parse_dataset.py:59-63 | k digits denote a number below 10^k |
| Text.DigitsValueSnoc | parse_dataset.py:63 | appending a digit multiplies by ten and adds the digit |
| Text.FracValueBound | parse_dataset.py:231 | the fractional part that `float()` reads is in [0, 1) |
| Text.ParseIntAccepts | parse_dataset.py:63 | `int()` accepts exactly one optional sign followed by one or more digits; unsigned or '+' gives a value of at least 0 |
| Text.ParseDecimalDigits | parse_dataset.py:231 | `float()` of a plain digit string is its decimal value |
| RowFilter.DropsMembers | parse_dataset.py:51-57 | `drops` is increasing, in range, and holds exactly the rows whose parse fails |
| RowFilter.KeptMembers | parse_dataset.py:51-60 | the kept positions are increasing, in range, and exactly the rows that parse |
| RowFilter.CollectValues | parse_dataset.py:180-191 | the k-th derived value is the parse of the k-th surviving row |
| RowFilter.FilterStep | parse_dataset.py:206-219 | one loop iteration appends the row to `drops`, or its parse to `output` |
| RowFilter.KeptAndDropped | parse_dataset.py:220-221 | kept plus dropped rows are all rows: output row count = input row count - number dropped |
| RowFilter.Survivors | parse_dataset.py:61-62 | drop + reset_index keeps, in order, exactly the positions not in `drops` |
| RowFilter.SurvivorsAreKept | parse_dataset.py:192-193 | dropping the collected positions leaves exactly the rows that parsed |
| RowFilter.IncreasingBelowLength | parse_dataset.py:257-258 | increasing positions below n number at most n: no handler adds rows |
| RowFilter.SelectSelect | parse_dataset.py:192-193 | two successive row filters are one filter through the composed positions, again increasing |
| RowFilter.SelectIdentity | parse_dataset.py:111 | keeping every position leaves a column unchanged |
| Frame.Without | parse_dataset.py:73 | a name stays exactly when it is not dropped; names stay distinct |
| Frame.AddAll | parse_dataset.py:71-72 | a name is present after the assignments exactly when it was before or was assigned; names stay distinct |
| Frame.Table.Texts | parse_dataset.py:45 | `to_list()` of a text column: one string per row, cell for cell |
| Frame.Table.Ints | parse_dataset.py:268 | `to_list()` of an integer column: one integer per row, cell for cell |
| Frame.DropRows | parse_dataset.py:61-62 | every column keeps the surviving cells in order; names unchanged |
| Frame.Assign | parse_dataset.py:71 | `df[c] = vals` sets column c and appends c to the names if it is new |
| Frame.DropColumns | parse_dataset.py:73 | `df.drop(columns=...)` removes exactly those columns, names in order |
| Frame.WithoutAppend | parse_dataset.py:73 | dropping names from a concatenation drops them from each part |
| Frame.WithoutWithout | parse_dataset.py:73 | dropping two name sets in turn drops their union |
| Frame.AddAllWithout | parse_dataset.py:71-73 | assigning names never dropped commutes with the drop |
| Frame.AddAllAppend | parse_dataset.py:106-110 | assigning two lists of columns in turn is assigning their concatenation |
| Frame.Chain | parse_dataset.py:332-341 | two handlers in succession: rows through the composed positions, the union of removed columns, the assigned columns in order, everything else carried over |
| Rules.SexAgeFieldsDrop | parse_dataset.py:52-57 | a row is dropped exactly when its entry has no ','; otherwise no field holds a space and the age text has at most two characters |
| Rules.SexCode | parse_dataset.py:65-69 | "0" exactly for "Female" and "Женщина", "1" for every other token |
| Rules.SplitAround | parse_dataset.py:52 | splitting a + d + b, where a has no d, gives a followed by the pieces of b |
| Rules.SexAgeOf | parse_dataset.py:52-59 | "<sex>,<age>[,...]" gives the sex piece and the first two characters of the age piece, spaces deleted |
| Rules.SplitHeadOf | parse_dataset.py:59 | the first ',' piece of age + rest is age followed by the first piece of rest |
| Rules.AgeRange | parse_dataset.py:59-63 | an age read from two characters lies in [-9, 99] |
| Rules.Flag | parse_dataset.py:86-105 | every employment and schedule flag is 0 or 1 |
| Rules.FlagIgnoresCase | parse_dataset.py:144-163 | a text and its lower-cased form get the same flag |
| Rules.Relocation | parse_dataset.py:121-124 | the relocation flag is 0 or 1 |
| Rules.BusinessTrips | parse_dataset.py:125-128 | the business-trip flag is 0 or 1 |
| Rules.RefusalToRelocateClearsBoth | parse_dataset.py:121-128 | "не готова к переезду" zeroes both the relocation and the business-trip flag |
| Rules.EduLevel | parse_dataset.py:181-191 | a level is in 1..4; no level (row dropped) exactly when none of the six keywords occurs |
| Rules.HigherWins | parse_dataset.py:181-182 | a text with "высшее" or "higher" gets 4 whatever else it says |
| Rules.ExperienceMonths | parse_dataset.py:205-218 | months are never negative; the row survives exactly when the first line has one or two digit runs |
| Rules.ExperienceFirstLine | parse_dataset.py:205 | only the text before the first line break matters |
| Rules.TwoRuns | parse_dataset.py:207 | "<y> text <m> text" has the digit runs y and m |
| Rules.FirstLineOf | parse_dataset.py:205 | a text without a line break is its own first line |
| Rules.ExperienceOfRuns | parse_dataset.py:208-214 | two runs give 12*first + second; one run gives n with "мес"/"month" (case-sensitive) and 12*n without |
| Rules.ExperienceYearsMonths | parse_dataset.py:208-209 | "<y> ... <m> ..." gives 12*y + m months |
| Rules.ExperienceOneNumber | parse_dataset.py:210-214 | "<n> ..." gives n months when the line says "мес" or "month", else 12*n |
| Rules.AmountToken | parse_dataset.py:230-231 | the amount is the first space token with its non-breaking spaces removed |
| Rules.CurrencyToken | parse_dataset.py:232 | the label is the last space token, so it holds no space |
| Rules.CurrencyOf | parse_dataset.py:232 | for "<amount> <label>" with no space inside either part, the label read is exactly that label |
| Rules.Salary | parse_dataset.py:249-255 | a salary exists exactly when the amount parses and the label is one of the eleven rate-table keys |
| Rules.SalaryOfDigits | parse_dataset.py:230-255 | "<digits> <label>" with a known label is the amount times that label's rate |
| Rules.Level | parse_dataset.py:271-276 | the level is always 1, 2 or 3 |
| Rules.LevelMonotone | parse_dataset.py:271-276 | more experience never lowers the level for a given title |
| Handlers.EmploymentNames | parse_dataset.py:106-111 | the five employment columns are distinct and differ from the source column |
| Handlers.CityNames | parse_dataset.py:129-131 | the two city columns are distinct and differ from the source column |
| Handlers.ScheduleNames | parse_dataset.py:164-169 | the five schedule columns are distinct and differ from the source column |
| Handlers.FlagCellsStep | parse_dataset.py:85-105 | one loop iteration appends the row's flag to its list |
| Handlers.IntCellsStep | parse_dataset.py:120-128 | one loop iteration appends the row's city flag to its list |
| Handlers.FieldsStep | parse_dataset.py:58-59 | one split entry appends its sex to `sex` and its age text to `age` |
| Handlers.SexCellsStep | parse_dataset.py:65-69 | one loop iteration appends the token's code to `sex_correct_list` |
| Handlers.CarriedText | parse_dataset.py:61-62 | a text column a handler neither reads-and-removes nor assigns keeps its surviving cells |
| Handlers.CarriedInts | parse_dataset.py:220-221 | the same for an integer column |
| Handlers.AssignEach | parse_dataset.py:106-110 | assigning columns of row-count length keeps the table well formed and its row count |
| Handlers.AssignEachNames | parse_dataset.py:106-110 | the new names are appended in assignment order |
| Handlers.AssignEachKeys | parse_dataset.py:164-168 | the assignments add exactly the assigned columns |
| Handlers.AssignEachOthers | parse_dataset.py:164-168 | the assignments leave every other column as it was |
| Handlers.AssignEachNew | parse_dataset.py:164-168 | each assigned column holds its list |
| Handlers.ReplaceColumns | parse_dataset.py:61-73 | drop rows, assign, drop the source: the result is well formed with the surviving row count |
| Handlers.Replaced | parse_dataset.py:61-73 | the table keeps the surviving rows, gains the new columns with their lists, and loses the source column |
| Handlers.FilteredColumn | parse_dataset.py:220-222 | the rows left after dropping are the rows that parsed; the derived list has one value per surviving row |
| Handlers.SurvivorsNone | parse_dataset.py:111 | dropping no position keeps every row in place |
| Handlers.ReplacedAll | parse_dataset.py:106-111 | a handler that drops no row keeps every row and gains its columns |
| Handlers.RemoveUnusedColumns | parse_dataset.py:35-41 | exactly the four listed columns go; row count and all other columns unchanged |
| Handlers.SplitEntries | parse_dataset.py:51-60 | the first loop's `drops`, `sex` and `age` are the dropped rows and the fields of the rows that split |
| Handlers.ParseAges | parse_dataset.py:63 | `int()` of every age text, failing exactly when one of them is not an integer |
| Handlers.AgeSexTable | parse_dataset.py:61-73 | once all ages parse, the table holds the sex code and age of each surviving entry, aligned row for row |
| Handlers.ProcessAgeSex | parse_dataset.py:43-76 | ValueError exactly when a surviving age text is not an integer; otherwise rows without ',' go, and row k holds the sex code and `int()` age of the k-th remaining entry |
| Handlers.ProcessEmployment | parse_dataset.py:78-114 | rows unchanged; each of the five columns is the keyword flag of every row; the source column goes |
| Handlers.ProcessCity | parse_dataset.py:116-134 | rows unchanged; the relocation and business-trip flags of every row; the source column goes |
| Handlers.ProcessSchedule | parse_dataset.py:136-172 | rows unchanged; each of the five columns is the keyword flag of every row; the source column goes |
| Handlers.ProcessEducation | parse_dataset.py:174-198 | rows without a level go; row k holds the level of the k-th remaining text |
| Handlers.ProcessExperience | parse_dataset.py:200-226 | rows without one or two numbers go; row k holds the months of the k-th remaining text |
| Handlers.SalaryStep | parse_dataset.py:249-256 | one loop iteration drops a row with an unknown label, or appends amount times rate |
| Handlers.ParseAmounts | parse_dataset.py:230-231 | `float()` of every amount token, failing exactly when one of them is not a number |
| Handlers.ConvertSalaries | parse_dataset.py:249-256 | the loop's `drops` and `output` are the dropped rows and the salaries of the others |
| Handlers.IncomeTable | parse_dataset.py:257-260 | once all amounts parse, a row survives exactly when its label is in the rate table, with its salary |
| Handlers.ProcessIncome | parse_dataset.py:228-263 | ValueError exactly when some amount (kept row or not) is not a number; otherwise a row survives exactly when its label is known, holding amount times rate |
| Handlers.TitleLevel | parse_dataset.py:271-276 | the level of a title cell that need not be text: 3 from 60 months on without reading the title, otherwise the level of the title text, always 1 to 3 |
| Handlers.CarriedTitles | parse_dataset.py:268-271 | a handler that leaves the experience and title columns alone keeps every title below 60 months text |
| Handlers.ProcessEmployeeLevel | parse_dataset.py:265-281 | rows unchanged; row i holds the level of experience i and title cell i, reading the title only below 60 months (a non-text title at 60 months or more gives 3); the title column goes |
| Pipeline.CarriedRange | parse_dataset.py:332-341 | a later handler keeps the value range of a column it neither removes nor assigns |
| Pipeline.CarriedColumns | parse_dataset.py:37-38 | columns a handler neither removes nor assigns stay present for RemoveUnusedColumns |
| Pipeline.ExperienceCellsAreInts | parse_dataset.py:209-214 | every experience cell is an integer, as the level handler needs |
| Pipeline.EducationCellsInRange | parse_dataset.py:181-188 | every education cell is in 1..4 |
| Pipeline.CityApart | parse_dataset.py:129-131 | the city columns differ from the four unused columns |
| Pipeline.LevelApart | parse_dataset.py:277-278 | the level and title columns differ from the later handlers' columns |
| Pipeline.ScheduleApart | parse_dataset.py:164-169 | the schedule columns differ from the columns the later handlers read or assign |
| Pipeline.IncomeApart | parse_dataset.py:259-260 | the salary and income columns differ from the columns the later handlers read or assign |
| Pipeline.EducationApart | parse_dataset.py:194-195 | the education columns differ from the columns the later handlers read or assign |
| Pipeline.ExperienceApart | parse_dataset.py:222-223 | the experience columns differ from the columns the later handlers read or assign |
| Pipeline.EmploymentApart | parse_dataset.py:106-111 | the employment columns differ from the columns the later handlers read or assign |
| Pipeline.AgeSexApart | parse_dataset.py:71-73 | the sex and age columns differ from the columns the later handlers read or assign |
| ChainSpec.CarriesFrom | parse_dataset.py:61-73 | a handler hands on, cut to its kept rows, every column it neither removes nor assigns |
| ChainSpec.PassesCarried | parse_dataset.py:61-62 | a row a handler keeps passes a later test exactly when the input row it came from does, since the tested column is carried |
| ChainSpec.KeepsCompose | parse_dataset.py:332-341 | two stretches in a row keep exactly the input rows that pass the tests of both, in order |
| ChainSpec.FailsCompose | parse_dataset.py:228-231 | a later `float()` raises on a row it sees exactly when an input row that passes the earlier tests has an amount it rejects |
| ChainSpec.DerivesLater | parse_dataset.py:332-341 | a column the first stretch assigns and the second carries still holds, in each surviving row, the first handler's value for that input row |
| ChainSpec.DerivesEarlier | parse_dataset.py:332-341 | a column the second stretch computes from carried columns holds its rule of the same input row |
| ChainSpec.DerivesAllAppend | parse_dataset.py:332-341 | the rules of two lists hold exactly when each list's rules hold |
| ChainSpec.KeepsAllRows | parse_dataset.py:111 | increasing kept positions chosen by no test at all are every row in order |
| ChainSpec.PassingDetermines | parse_dataset.py:61-62 | the tests fix the kept positions completely: two increasing position lists that keep exactly the passing rows are equal |
| ChainSpec.PassingIsKept | parse_dataset.py:180-193 | increasing positions that keep exactly the rows one parse test accepts are the positions the handler applying that parse keeps, as its drop loop computes them |
| ChainSpec.CollectedDerives | parse_dataset.py:180-195 | a handler that parses one text column keeps exactly the rows the parse accepts, and row k of its column is the parse of the k-th kept input row |
| ChainSpec.KeepsEverything | parse_dataset.py:111 | keeping every position keeps exactly the rows that pass no test |
| ChainSpec.Compose | parse_dataset.py:332-341 | a handler followed by its successor: the kept input rows are those passing both handlers' tests, and both handlers' columns hold their rules of the same input row |
| Pipeline.FlagDerives | parse_dataset.py:85-105 | a keyword-pair column holds, in every row, that row's flag |
| Pipeline.TextDerives | parse_dataset.py:120-128 | a city column holds, in every row, the flag of that row's city text |
| Pipeline.LevelDerives | parse_dataset.py:268-276 | the level column holds, in every row, the level of that row's experience and title |
| Pipeline.CarriedTextTitles | parse_dataset.py:205-214 | a handler that leaves the experience text and title alone keeps every title whose experience parses below 60 months text |
| Pipeline.ExperienceTitles | parse_dataset.py:205-221 | after ProcessExperience every title below 60 months is text, so ProcessEmployeeLevel can read it |
| Pipeline.LevelFromText | parse_dataset.py:205-214 | the level of a row ProcessExperience kept is the level of the months parsed from its experience text and its title |
| Pipeline.AgeSexDerives | parse_dataset.py:51-72 | ProcessAgeSex keeps exactly the rows whose entry holds a ',', and row k holds the sex code and the age of the k-th kept entry |
| Pipeline.AgeFails | parse_dataset.py:61-63 | the age's ValueError comes exactly from a row whose entry splits and whose age `int()` rejects |
| Pipeline.AgeFailsAt | parse_dataset.py:63 | an input row that splits and has a bad age gives a bad age in the list `int()` reads |
| Pipeline.AgeFailsOf | parse_dataset.py:63 | a bad age in that list comes from an input row that splits |
| Pipeline.AmountFails | parse_dataset.py:230-231 | ProcessIncome raises exactly when some amount, kept row or not, is rejected by `float()` |
| Pipeline.EducationFails | parse_dataset.py:192-197 | after ProcessEducation, ProcessIncome raises exactly when an input row with a known education has a bad amount |
| Pipeline.ExperienceFails | parse_dataset.py:220-225 | after ProcessExperience, the chain raises exactly when an input row with a parsed experience and a known education has a bad amount |
| Pipeline.EmploymentFails | parse_dataset.py:111-113 | ProcessEmployment keeps every row, so the rest raises on the same input rows |
| Pipeline.AgeSexFails | parse_dataset.py:61-75 | after ProcessAgeSex, the rest raises exactly when an input row that splits, with a parsed experience and a known education, has a bad amount |
| Pipeline.CityComposes | parse_dataset.py:116-134 | ProcessCity then RemoveUnusedColumns keeps every row, each with its two city flags |
| Pipeline.LevelComposes | parse_dataset.py:265-281 | ProcessEmployeeLevel and its successors keep every row, each with its level and city flags |
| Pipeline.ScheduleComposes | parse_dataset.py:136-172 | ProcessSchedule and its successors keep every row, each with its schedule flags, level and city flags |
| Pipeline.IncomeComposes | parse_dataset.py:228-263 | ProcessIncome and its successors keep exactly the rows with a known currency, each with its salary and later columns |
| Pipeline.EducationComposes | parse_dataset.py:174-198 | ProcessEducation and its successors keep exactly the rows with a known education and currency |
| Pipeline.ExperienceComposes | parse_dataset.py:200-226 | ProcessExperience and its successors keep exactly the rows with a parsed experience, a known education and currency; the level is that of the experience text |
| Pipeline.EmploymentComposes | parse_dataset.py:78-114 | ProcessEmployment and its successors keep the same rows, adding the five employment flags |
| Pipeline.AgeSexComposes | parse_dataset.py:43-76 | the whole chain keeps exactly the loaded rows passing all four tests and fills every assigned column by its rule |
| Pipeline.ChainFromCity | parse_dataset.py:116-134 | ProcessCity then RemoveUnusedColumns: every row stays, the city and unused columns go, and each row holds the relocation and business-trip flags of its own city text |
| Pipeline.ChainFromLevel | parse_dataset.py:265-281 | ProcessEmployeeLevel and its successors: every row stays and holds the level of its own experience and title, 1 to 3, and its city flags |
| Pipeline.ChainFromSchedule | parse_dataset.py:136-172 | ProcessSchedule and its successors: every row stays and holds the schedule flags of its own text, its level and city flags |
| Pipeline.ChainFromIncome | parse_dataset.py:228-263 | ProcessIncome and its successors: ValueError exactly when some amount is not a number; otherwise the rows kept are exactly those with a known currency, each holding the salary of its own income text and the later handlers' columns |
| Pipeline.ChainFromEducation | parse_dataset.py:174-198 | ProcessEducation and its successors: ValueError exactly when a row with a known education has a bad amount; otherwise the rows with a known education and currency stay, education 1 to 4 |
| Pipeline.ChainFromExperience | parse_dataset.py:200-226 | ProcessExperience and its successors: ValueError exactly when a row with parsed experience and known education has a bad amount; otherwise exactly the rows passing the three tests stay, each with the columns its own cells give |
| Pipeline.ChainFromEmployment | parse_dataset.py:78-114 | ProcessEmployment and its successors: the same raising condition and kept rows as the rest of the chain, each row with its five employment flags |
| Pipeline.AfterAgeSex | parse_dataset.py:73-75 | what ProcessAgeSex leaves holds every column its successors read |
| Pipeline.GetDataframe | parse_dataset.py:321-342 | the fixed order: ValueError for the age exactly when a row that splits has a bad age, else ValueError for the amount exactly when a row passing the tests of ProcessAgeSex, ProcessExperience and ProcessEducation has a bad amount; otherwise the result holds exactly the loaded rows that every dropping handler accepts, in order, every assigned column holds its handler's value of that row's loaded cells, the parsed and unused columns are gone, every other column is carried, level 1 to 3 and education 1 to 4 |
| Pipeline.FeaturesAndTarget | parse_dataset.py:309-310 | X has every column but "Зарплата", y is that column, with equal row counts |
| Pipeline.SplitRoundTrip | parse_dataset.py:309-310 | putting y back as a column restores the table's columns, with "Зарплата" moved to the end |
| Examples.SalaryInDollars | parse_dataset.py:241 | "100000 USD" is 7700000 roubles |
| Examples.SalaryInUnknownCurrency | parse_dataset.py:250-253 | "100000 GBP" has no salary, so its row is dropped |
| Examples.IncompleteHigher | parse_dataset.py:181-184 | "Неоконченное высшее" gets 4 |
| Examples.FiveYearsThreeMonths | parse_dataset.py:207-209 | "5 лет 3 месяца" is 63 months |
| Examples.WillTravelButNotMove | parse_dataset.py:121-128 | "не готова к переезду, готова к командировкам" gets 0 for travel as well as for relocation |

## Left out

- LoaderCSV, `np.save`, SaveBarChart and the command-line entry point are file I/O and
  plotting. The loaded table is an input of `GetDataframe`. Its precondition `Loaded` states the
  columns the chain reads.
- The successor wiring (`set_successor`) is not modelled as objects. Each `ChainFromX` calls the
  next stage directly, in the order of lines 332-340.
- regression.py and classificator.py (model training) are not part of this model.
- Floating point: amounts and rates are exact `real`s. `float()` is modelled as:
  - an optional sign;
  - digits with at most one '.';
  - at least one digit.
  Exponents, "inf", "nan", underscores, surrounding whitespace and non-ASCII digits (which
  `float()` accepts, as `int()` does) are not modelled.
- `int()` is modelled over an optional sign and ASCII digits. Surrounding whitespace and
  non-ASCII digits are not modelled. The age text holds no spaces there anyway.
- `str.lower()` covers ASCII and the basic Cyrillic block (U+0400-U+042F). Other scripts are left
  unchanged.
- Python's `\d` in a str pattern matches every Unicode decimal digit. `DigitRuns` (the
  `re.findall` of line 207) matches ASCII digits only.
- pandas index labels are not modelled. A table is positions 0..n-1. The drop at line 61 removes
  rows by label, and those labels are the CSV's first column (`index_col=0`, line 30). The model
  assumes they are unique; a repeated label would make that drop remove every row carrying it.
  Every later drop (lines 192, 220, 257) follows `reset_index(drop=True)`, so its labels are
  positions.
- Pipeline.GetDataframe: its precondition `Loaded` requires text in every row of the seven
  columns the handlers parse with string methods, including rows an earlier handler drops. It
  requires a text title in every row whose experience text gives under 60 months
  (`TitlesReadableByText`), again including rows an earlier handler drops. The source reads a
  column only in the rows still present, so a non-text cell in an already dropped row raises
  nothing there. Such loaded tables are outside the model.
- ProcessAgeSex: the second `int()` pass (line 70) is applied to values that are already
  integers. It is idempotent and is modelled once.
- Column dtypes: sex codes are strings "0"/"1", as the source stores them. Flags and levels are
  integers, salaries are reals.
- Handlers.ProcessAgeSex, Handlers.ProcessIncome: each source loop is modelled as its own helper
  method (SplitEntries, ParseAges, ParseAmounts, ConvertSalaries), in the same order and with the
  same accumulators.
