# trello-reports: a Dafny model of the aggregation core

trello-reports is a read-only analytics dashboard over a Trello board. It
takes a board snapshot (cards, lists, members) and produces the reports its
screens show:

- a filter over the cards;
- key figures;
- per-list and per-owner rankings;
- a chart by list;
- a monthly series with a running-total mode;
- a 14-day trend of the three busiest lists;
- JSON and CSV export rows;
- a plain-text weekly digest.

The mobile quick view computes its own ranks and a list × owner heat map
from the open cards. A small serverless proxy checks the request and
forwards four Trello REST reads.

This project models that core in Dafny and proves what it promises:

- counting identities;
- rankings that are sorted, stable and complete;
- the shape of the trend grid and the heat map;
- the layout of the CSV and the digest text;
- the order of the proxy's checks.

The modules follow the source files.

| module | file | models |
|---|---|---|
| `Board` | board.dfy | cards, lists, members, due dates and activity instants; the `"none"` owner |
| `Filters` | filters.dfy | `dateInside`, `filteredCards`, `activeFilterCount`, `clearFilters`, `toggleSet` |
| `Names` | names.dfy | `listNameById`, `memberNameById` |
| `Initials` | initials.dfy | both `initialsOf` functions (dashboard and quick view) |
| `Aggregates` | aggregates.dfy | `kpis`, `listsAgg`, `ownersAgg`, `chartByList`, `chartByListSorted` |
| `Months` | months.dfy | `fmtMonth`, `monthly` |
| `Trend` | trend.dfy | `daysBack`, `trend14` |
| `Digest` | digest.dfy | `weeklyDigest` |
| `Export` | export.dfy | `toCSV` and the JSON/CSV export rows |
| `QuickView` | quickview.dfy | the quick view's `data` memo |
| `Proxy` | proxy.dfy | `api/board.ts` |
| `Seqs`, `Sorting`, `Strings`, `OrderedMaps`, `Tallies` | | the JavaScript built-ins the code relies on |

The built-in modules cover the following:

- **`Array.prototype.sort`** is a stable insertion sort. Its comparator returns a JavaScript number, and a NaN result counts as "equal", as ECMAScript's SortCompare does.
- **`Map`** is an insertion-ordered `OMap` (a key sequence and a map).
- **`trim`, `split(/\s+/)`, `padStart`, `replace`, `join`** are modelled on strings, together with `<` and `>` on strings. A Dafny `char` is a Unicode scalar value, so the model compares strings by code point, where JavaScript compares UTF-16 code units.

The loops of the source are methods with loop invariants. Each method is
proved equal to a specification function, and the properties are proved as
lemmas about those functions. The proxy's `res` object is a class whose
methods update its status, headers and body.

### Conventions

- **Timestamps.** Each timestamp is an `Instant` with its millisecond value and its local year, month and day number worked out beforehand. The filter's date bounds are the local start of the chosen day. The digest's limit is `now` minus seven days.
- **Missing text fields.** A missing text field is modelled as empty (`""`). Most of the code only tests such a field for falsiness or writes `x || ""`. The places where a missing field prints differently from an empty one are listed under "Left out".
- **Query and environment values.** A query value is absent, a single string, or repeated (an array). An environment variable is `Option<string>`, and it is truthy when it is set and non-empty.
- **Where the code and its description differ, the model follows the code.** The quick view's owner rows (src/components/MobileQuickView.jsx:74-80) are built without a `count` field. So `b.count - a.count` is NaN, the sort keeps first-encountered order, and `totals.maxOwner` is always 0. The description says these rows are ranked by count. `QuickView.OwnerRowsUnsorted` and `QuickView.MaxOwnerZero` state what the code does.

## Model

| member | source | states |
|---|---|---|
| `Board.Owners` | src/dashboard.jsx:236 | a card with members counts under exactly its members; a card with none counts under `["none"]` |
| `Names.DisplayName` | src/dashboard.jsx:159 | the first non-empty of full name, username and initials, in that order, else the id; empty only when all four are |
| `Names.ListNameById` | src/dashboard.jsx:152-154 | one entry per list id; for repeated ids the last list's name wins |
| `Names.MemberNameById` | src/dashboard.jsx:156-162 | one entry per member id, holding its display name; the last occurrence wins |
| `Filters.EndOfDay` | src/dashboard.jsx:185 | the upper bound lies within the chosen day (23:59:59.999) |
| `Filters.DateInside` | src/dashboard.jsx:181-187 | true iff there is a due date, it is not before `from` when `from` is set, and it is not after the end of `to`'s day when `to` is set |
| `Filters.AnySelected` | src/dashboard.jsx:193-203 | the `ok` loop is true iff some selected id is among the card's ids |
| `Filters.Keep` | src/dashboard.jsx:190-210 | the per-card callback keeps a card iff the list, label, member and due criteria all hold |
| `Filters.FilteredCards` | src/dashboard.jsx:189-212 | the result is exactly the cards meeting all criteria |
| `Filters.FilteredInOrder` | src/dashboard.jsx:189-212 | the filtered cards are an order-preserving subsequence of the cards; a card is in it iff it is a card that matches |
| `Filters.NoActiveFilterKeepsAll` | src/dashboard.jsx:189-212 | with no list, label or member selected and no due bound, every card is kept |
| `Filters.ActiveFilterCount` | src/dashboard.jsx:85-87 | zero iff the filter is the cleared state; at least the total size of the three selection sets |
| `Filters.ClearFilters` | src/dashboard.jsx:383-388 | the cleared filter lets every card through |
| `Filters.ToggleSet` | src/dashboard.jsx:389-393 | the value's membership flips, every other element stays, and the size changes by one |
| `Initials.InitialsOf` | src/dashboard.jsx:23-28 | never empty; `"—"` for a blank name; one upper-cased letter for one word; first and last words' letters otherwise |
| `Initials.TrimmedWordHeads` | src/dashboard.jsx:24 | splitting a trimmed name yields words whose first letters exist, the first one being the name's first character |
| `Initials.QuickInitialsOf` | src/components/MobileQuickView.jsx:3-7 | empty iff the name is blank; otherwise the first and last words' letters, upper-cased |
| `Initials.InitialsCompared` | src/components/MobileQuickView.jsx:3-7 | the two `initialsOf` agree on several words; on one word the quick view repeats the letter; on a blank name they give `"—"` and `""` |
| `Initials.SingleWordExample` | src/components/MobileQuickView.jsx:3-7 | `"Ana"` gives `"A"` on the dashboard and `"AA"` in the quick view |
| `Aggregates.KpisOf` | src/dashboard.jsx:215-221 | totals of cards, lists and members; unassigned plus assigned cards is the total |
| `Aggregates.OpenListIdsFacts` | src/dashboard.jsx:226 | only open cards are counted, each once under its list |
| `Aggregates.CountOpenLists` | src/dashboard.jsx:225-226 | the counting loop builds the ordered tally of the open cards' lists |
| `Aggregates.ListsAgg` | src/dashboard.jsx:224-230 | the rows are the ranking; `max` is the first row's count or 0, and no row exceeds it |
| `Aggregates.ListsRankingRows` | src/dashboard.jsx:226-227 | a row's count is the positive number of open cards in its list; its name is the list's name or its id |
| `Aggregates.ListsRankingCovers` | src/dashboard.jsx:225-227 | every list with an open card has a row, and there is one row per distinct list |
| `Aggregates.ListsRankingTotal` | src/dashboard.jsx:226-228 | the counts add up to the number of open filtered cards, and the rows are non-increasing by count |
| `Aggregates.ListsRankingStable` | src/dashboard.jsx:228 | rows with equal counts keep their first-encountered order |
| `Aggregates.OwnerKeys` | src/dashboard.jsx:236-237 | the owner tally has Σ max(1, \|idMembers\|) entries |
| `Aggregates.NoOwnerCount` | src/dashboard.jsx:236-237 | the `"none"` counter is the number of cards without members, unless a member id is `"none"` itself |
| `Aggregates.MemberCount` | src/dashboard.jsx:236-237 | a member's counter is the number of times that member appears across the cards |
| `Aggregates.BumpEach` | src/dashboard.jsx:237 | the inner loop adds one per owner to the tally |
| `Aggregates.CountOwners` | src/dashboard.jsx:234-238 | the counting loop builds the ordered tally of every owner of every filtered card |
| `Aggregates.OwnersAgg` | src/dashboard.jsx:232-246 | the rows are the owner ranking; `max` is the first row's count or 0, and no row exceeds it |
| `Aggregates.OwnersRankingRows` | src/dashboard.jsx:239-243 | a row's count is its owner's positive tally; `"none"` is named `"Sem responsável"` with initials `"—"`; another owner is named by the member's name or `"Responsável"`, and its initials come from the member's name |
| `Aggregates.OwnerRowFields` | src/dashboard.jsx:239-243 | the row callback keeps id and count; `"none"` gets the fixed name and `"—"`; a member gets its name or `"Responsável"`, and the initials of its name |
| `Aggregates.OwnersRankingCovers` | src/dashboard.jsx:234-239 | every owner of a filtered card has a row, and there is one row per distinct owner |
| `Aggregates.OwnersRankingStable` | src/dashboard.jsx:244 | owner rows with equal counts keep the order in which their owners were first met |
| `Aggregates.OwnersRankingTotal` | src/dashboard.jsx:234-244 | the counts add up to Σ max(1, \|idMembers\|) over the filtered cards, closed ones included; the rows are non-increasing |
| `Aggregates.OwnerFanOut` | src/dashboard.jsx:235-237 | that sum is at least the number of cards, with equality iff no card has two or more members |
| `Aggregates.ListIdsCount` | src/dashboard.jsx:250 | a list's entry counts the filtered cards in that list |
| `Aggregates.CountLists` | src/dashboard.jsx:249-250 | the counting loop builds the tally of every filtered card's list |
| `Aggregates.ChartByList` | src/dashboard.jsx:248-254 | one row per distinct list in first-encountered order, valued by its number of cards |
| `Aggregates.ChartTotal` | src/dashboard.jsx:248-254 | one row per distinct list, and the values add up to the number of filtered cards |
| `Aggregates.ChartByListSorted` | src/dashboard.jsx:255-258 | a permutation of the chart rows, non-increasing by value, with ties kept in order |
| `Aggregates.ChartStable` | src/dashboard.jsx:256 | rows of equal value appear in the same relative order before and after sorting |
| `Months.MonthDigits` | src/dashboard.jsx:30 | two digits, `01` to `12` |
| `Months.MonthDigitsPadded` | src/dashboard.jsx:30 | equal to `String(month + 1).padStart(2, "0")` |
| `Months.FmtMonth` | src/dashboard.jsx:29-31 | for a four-digit year, seven characters with `-` at index 4 |
| `Months.FmtMonthOrder` | src/dashboard.jsx:29-31 | string order of the keys is chronological order; equal keys mean the same year and month |
| `Months.MonthKeysLength` | src/dashboard.jsx:264-266 | exactly the cards with a last activity get a month key |
| `Months.CountMonths` | src/dashboard.jsx:263-269 | the loop builds the ordered tally of the month keys |
| `Months.MonthlyPoints` | src/dashboard.jsx:270-272 | one point per month, sorted by key |
| `Months.MonthlyTotal` | src/dashboard.jsx:263-272 | the monthly values add up to the number of cards with a last activity |
| `Months.MonthlyAscending` | src/dashboard.jsx:270-272 | month keys strictly ascend; each value is that month's positive number of cards |
| `Months.Accumulate` | src/dashboard.jsx:273-276 | each value is the prefix sum; the series is non-decreasing; the last is the grand total |
| `Months.Monthly` | src/dashboard.jsx:262-278 | `mensal` gives the monthly points; `acumulado` gives their prefix sums, non-decreasing, ending at the number of cards with activity |
| `Trend.Window` | src/dashboard.jsx:32-38 | n consecutive days ending today, oldest first, all distinct |
| `Trend.DaysBack` | src/dashboard.jsx:32-38 | the generator's loop yields exactly that window |
| `Trend.HitsFilter` | src/dashboard.jsx:292-298 | a day's counter for a list is the number of its cards last active that day |
| `Trend.SeedDays` | src/dashboard.jsx:288-291 | every day of the window starts with a zero counter for every list |
| `Trend.CountCard` | src/dashboard.jsx:292-298 | one card bumps its list's counter on its activity day, if that day is in the window |
| `Trend.CountDays` | src/dashboard.jsx:288-298 | every day of the window ends with the counters of its activity, and no other day is kept |
| `Trend.AddDay` | src/dashboard.jsx:302 | adding one day's counters extends every list's window total by that day |
| `Trend.SumTotals` | src/dashboard.jsx:301-302 | `totals` holds each list's activity summed over the window |
| `Trend.WindowHitsCount` | src/dashboard.jsx:292-302 | a list's total counts each of its cards last active inside the window once, and ignores activity outside it |
| `Trend.RankedEntries` | src/dashboard.jsx:301-303 | the ranked entries are exactly the lists with their window totals |
| `Trend.RankedTotalsStable` | src/dashboard.jsx:301-303 | entries with equal totals keep the order in which their lists were first met |
| `Trend.TopIds` | src/dashboard.jsx:303 | min(3, number of distinct lists) ids |
| `Trend.TopIdsAreLists` | src/dashboard.jsx:303 | the top ids are lists of the filtered cards |
| `Trend.TopIdsOrdered` | src/dashboard.jsx:303 | the top ids are in non-increasing order of their totals |
| `Trend.TopIdsBusiest` | src/dashboard.jsx:303 | no list left out has a larger total than a chosen one |
| `Trend.TopIdsTies` | src/dashboard.jsx:301-303 | a list left out whose total equals a chosen one's was first met after it: ties go to the earlier list |
| `Trend.TopIdsOf` | src/dashboard.jsx:303 | the sort, slice and map compute the top ids |
| `Trend.BuildRow` | src/dashboard.jsx:309-310 | the row loop writes `day` and one counter per top list |
| `Trend.BuildData` | src/dashboard.jsx:306-312 | one row per day of the window |
| `Trend.TrendData` | src/dashboard.jsx:306-312 | exactly 14 rows |
| `Trend.TrendSeries` | src/dashboard.jsx:314-317 | min(3, number of distinct lists) series |
| `Trend.CountWindow` | src/dashboard.jsx:282-303 | the window, the per-day counters and the top ids, as the specification functions define them |
| `Trend.Trend14` | src/dashboard.jsx:281-320 | `data` and `series` are the trend grid and its series |
| `Trend.RowKeys` | src/dashboard.jsx:309-310 | every row has `day` and a counter under every series key (`day` keeps its value unless a list is named `day`) |
| `Trend.RowCells` | src/dashboard.jsx:310 | with distinct keys, each key holds its list's count for that day |
| `Trend.TrendDays` | src/dashboard.jsx:306-312 | row i is labelled with the i-th day of the window, unless a list's display name is `day`, whose counter then takes the label's place |
| `Trend.TrendKeys` | src/dashboard.jsx:306-317 | every row of the grid holds a counter for every series, zero-filled |
| `Trend.TrendCounts` | src/dashboard.jsx:292-317 | row i, series j holds the number of cards of that list last active on the i-th day |
| `Digest.DigestOwners` | src/dashboard.jsx:332 | a card with members is listed under exactly its members; a card with none under `["(Sem responsável)"]` |
| `Digest.EnsureList` | src/dashboard.jsx:331 | the list's section exists afterwards |
| `Digest.AddItem` | src/dashboard.jsx:335-336 | pushing a title keeps the section order |
| `Digest.PushItem` | src/dashboard.jsx:335-336 | the push on the nested map is the item insertion |
| `Digest.PushOwners` | src/dashboard.jsx:333-337 | the owner loop adds the title under each owner's display name |
| `Digest.GroupRecent` | src/dashboard.jsx:329-338 | the grouping loop builds the nested list → owner → titles map |
| `Digest.GroupedLists` | src/dashboard.jsx:330-331 | sections are the distinct list labels in first-encountered order |
| `Digest.GroupedOwners` | src/dashboard.jsx:332-335 | owners within a section are in first-encountered order |
| `Digest.GroupedItems` | src/dashboard.jsx:332-336 | an owner's items are the titles of that section's cards naming that owner, once per mention, in card order |
| `Digest.HeadLines` | src/dashboard.jsx:340-342 | the header is non-empty and has no space at either end |
| `Digest.DigestTitle` | src/dashboard.jsx:340 | the report name, else the board name, else `"Relatório"`; never empty |
| `Digest.AppendItems` | src/dashboard.jsx:347 | one bullet line per item |
| `Digest.AppendOwner` | src/dashboard.jsx:346-347 | an owner's heading with its item count, then its bullets |
| `Digest.AppendOwners` | src/dashboard.jsx:345-348 | the owner blocks in map order |
| `Digest.AppendSection` | src/dashboard.jsx:344-349 | a list heading, its owners, a blank line |
| `Digest.AppendSections` | src/dashboard.jsx:343-350 | the sections in map order |
| `Digest.WeeklyDigest` | src/dashboard.jsx:324-352 | the text is the digest of the cards active in the last seven days |
| `Digest.DigestOpens` | src/dashboard.jsx:340-342 | the text opens with the title, the period line and the number of recent cards |
| `Digest.DigestEmpty` | src/dashboard.jsx:340-351 | with no recent card the text is just the header with total 0 |
| `Export.Keys` | src/dashboard.jsx:12 | the headers are the first row's keys, in order |
| `Export.Lookup` | src/dashboard.jsx:14 | `r[h]`, or `""` when the key is missing |
| `Export.Esc` | src/dashboard.jsx:13 | an escaped value has no line break |
| `Export.EscRoundTrip` | src/dashboard.jsx:13 | escaping is undone by un-doubling quotes when the value had no line break |
| `Export.UndoubleDoubled` | src/dashboard.jsx:13 | doubling quotes loses nothing |
| `Export.Quote` | src/dashboard.jsx:14 | a quoted cell has no line break |
| `Export.Cells` | src/dashboard.jsx:14 | one quoted cell per header, in header order |
| `Export.Lines` | src/dashboard.jsx:14 | one joined line per row |
| `Export.ToCsv` | src/dashboard.jsx:10-15 | the CSV is empty iff there are no rows |
| `Export.ToCsvLines` | src/dashboard.jsx:10-15 | split on line breaks, the CSV is the header line and then one line per row |
| `Export.LabelTexts` | src/dashboard.jsx:368 | each label's name or else its colour |
| `Export.Exported` | src/dashboard.jsx:366-370 | the flattened card: id, title, list name or id, the label texts and the member names each joined by `", "`, due or `""`, link |
| `Export.CsvRows` | src/dashboard.jsx:375-380 | one CSV row per filtered card |
| `Export.HeadersDistinct` | src/dashboard.jsx:376-379 | the seven CSV headers are distinct and have no line break |
| `Export.CsvRowLookup` | src/dashboard.jsx:376-379 | each header looks up its own field |
| `Export.CsvRowCells` | src/dashboard.jsx:375-381 | a card's CSV cells are its seven quoted fields |
| `Export.ExportSplit` | src/dashboard.jsx:374-381 | the CSV file is the header line plus one line per card |
| `Export.ExportLines` | src/dashboard.jsx:374-381 | each card's line is its quoted fields joined by commas |
| `Export.ExportCsvLines` | src/dashboard.jsx:374-381 | the export file, split on line breaks, is the header line and then each card's line |
| `Export.ExportCsv` | src/dashboard.jsx:374-381 | the CSV file is empty iff no card is selected |
| `Export.Flat` | src/dashboard.jsx:13 | line breaks become spaces; a value without them is unchanged |
| `Export.EscFlat` | src/dashboard.jsx:13 | escaping doubles the quotes of the flattened value |
| `Export.ReadDoubled` | src/dashboard.jsx:13-14 | a CSV reader that takes `""` as one quote reads a doubled value back up to its closing quote |
| `Export.ReadQuote` | src/dashboard.jsx:13-14 | a quoted cell reads back as its value with line breaks turned into spaces |
| `Export.ReadJoined` | src/dashboard.jsx:14 | a line of comma-separated quoted cells reads back as the flattened values, in order |
| `Export.ExportReadBack` | src/dashboard.jsx:374-381 | line i + 1 of the CSV file reads back as card i's seven flattened fields |
| `Export.ExportRoundTrip` | src/dashboard.jsx:374-381 | exporting and reading back gives each card's id, title, list and due date; a value without line breaks comes back unchanged |
| `Export.ExportsAgree` | src/dashboard.jsx:365-381 | JSON and CSV rows hold the same seven values in the same order, under their own keys |
| `QuickView.ListById` | src/components/MobileQuickView.jsx:45 | the keys are the open lists' ids |
| `QuickView.MemberById` | src/components/MobileQuickView.jsx:46 | the keys are exactly the members' ids |
| `QuickView.ListByIdLast` | src/components/MobileQuickView.jsx:45 | under the id of a list that no later list shares is that list: of repeated ids the last entry wins |
| `QuickView.MemberByIdLast` | src/components/MobileQuickView.jsx:46 | under the id of a member that no later member shares is that member: of repeated ids the last entry wins |
| `QuickView.ListHits` | src/components/MobileQuickView.jsx:60 | only cards of a known open list count |
| `QuickView.ListHitsCount` | src/components/MobileQuickView.jsx:60 | a list's hits are its cards when its id is non-empty and names an open list, otherwise none |
| `QuickView.ListHitsLength` | src/components/MobileQuickView.jsx:60 | one hit per counted card |
| `QuickView.MatrixBumpCell` | src/components/MobileQuickView.jsx:57 | a bump raises exactly one cell by one |
| `QuickView.MatrixBumpAllCell` | src/components/MobileQuickView.jsx:62-67 | bumping a card's owners raises each (list, owner) cell by that owner's count |
| `QuickView.MatrixCells` | src/components/MobileQuickView.jsx:59-68 | a matrix cell is the number of (card, owner) pairs with that list and owner |
| `QuickView.BumpOwners` | src/components/MobileQuickView.jsx:62-67 | the owner loop bumps the member counter and the matrix once per owner |
| `QuickView.CountCard` | src/components/MobileQuickView.jsx:59-68 | one card's effect on the three tallies |
| `QuickView.CountOpen` | src/components/MobileQuickView.jsx:59-68 | the loop builds the list tally, the owner tally and the matrix over the open cards |
| `QuickView.SeededRows` | src/components/MobileQuickView.jsx:52-71 | a pre-seeded tally yields one row per seeded id, counting its hits |
| `QuickView.ListRowsRead` | src/components/MobileQuickView.jsx:52-72 | `listRows` as the code builds it is the ranking function |
| `QuickView.OwnerRowsRead` | src/components/MobileQuickView.jsx:53-80 | `ownerRows` as the code builds it is the owner-row function |
| `QuickView.ListRowsOnePerList` | src/components/MobileQuickView.jsx:52-72 | exactly one row per open list, including lists with no card |
| `QuickView.ListRowsCount` | src/components/MobileQuickView.jsx:52-72 | a row's count is the number of open cards in that list; its name is the list's or `"Lista"` |
| `QuickView.ListRowsStable` | src/components/MobileQuickView.jsx:70-72 | list rows with equal counts keep the order of the open lists |
| `QuickView.ListRowsRanked` | src/components/MobileQuickView.jsx:70-94 | rows are non-increasing, none exceeds `maxList`, and the counts add up to the counted cards |
| `QuickView.OwnerRowsUnsorted` | src/components/MobileQuickView.jsx:74-80 | owner rows stay in first-encountered order, one per distinct owner |
| `QuickView.MaxOwnerZero` | src/components/MobileQuickView.jsx:95 | `maxOwner` is always 0 |
| `QuickView.OwnerKeysTally` | src/components/MobileQuickView.jsx:61-64 | an owner's tally counts its mentions across the cards |
| `QuickView.MemberCounts` | src/components/MobileQuickView.jsx:61-64 | `memberCounts` has one key per distinct owner, holding its tally over open cards, whatever the list |
| `QuickView.HeatOf` | src/components/MobileQuickView.jsx:83-88 | one row per heat list and one column per heat owner; a missing pair reads 0 |
| `QuickView.HeatCells` | src/components/MobileQuickView.jsx:83-88 | cell (l, o) is the number of open cards in list l with owner o |
| `QuickView.TallySplit` | src/components/MobileQuickView.jsx:61-67 | an owner's tally splits into the rows shown and those of lists not shown |
| `QuickView.LostNone` | src/components/MobileQuickView.jsx:65-67 | when every card's list is shown, nothing is lost |
| `QuickView.LostPositive` | src/components/MobileQuickView.jsx:65-67 | a card whose list is not shown loses its owners' counts |
| `QuickView.ColumnHeat` | src/components/MobileQuickView.jsx:83-88 | a heat column sums the shown lists' cells for that owner |
| `QuickView.HeatColumn` | src/components/MobileQuickView.jsx:83-88 | a column total of the heat map is the owner's count over the heat lists |
| `QuickView.ColumnGap` | src/components/MobileQuickView.jsx:59-88 | a column total plus the owner's count in lists not shown equals `memberCounts` |
| `QuickView.OwnersCovered` | src/components/MobileQuickView.jsx:61-84 | every owner of an open card is a heat column |
| `QuickView.HeatColumns` | src/components/MobileQuickView.jsx:59-88 | every column sums to its `memberCounts` entry iff every open card's list is open |
| `QuickView.Data` | src/components/MobileQuickView.jsx:42-108 | the memo's rows, heat matrix, indexes and totals (open cards, open lists, owners, `maxList`, `maxOwner`) |
| `Proxy.EarlyReply` | api/board.ts:5-17 | an early reply happens iff a check fails; it is an error without details and no cache header |
| `Proxy.UpstreamUrls` | api/board.ts:19-26 | four URLs, each starting with the board's path and ending with the credentials |
| `Proxy.UpstreamCalls` | api/board.ts:13-27 | no upstream call when a check fails; four otherwise |
| `Proxy.FirstFailure` | api/board.ts:22-27 | there is a failure message iff some read failed |
| `Proxy.FirstFailureAt` | api/board.ts:22-27 | the message is that of the first failed read |
| `Proxy.DeniedFirst` | api/board.ts:5-8 | a wrong `access` with the token set gives 401 `unauthorized` before anything else |
| `Proxy.AccessIgnored` | api/board.ts:5-8 | without the token, `access` does not matter |
| `Proxy.MissingBoardFirst` | api/board.ts:9-11 | next, a missing or non-string `boardId` gives 400 |
| `Proxy.CredentialsChecked` | api/board.ts:13-17 | next, missing credentials give 500 and no upstream call |
| `Proxy.OnlyCallsMatter` | api/board.ts:22-27 | the reply depends on the upstream only through the URLs read |
| `Proxy.Forward` | api/board.ts:22-34 | 200 iff all four reads parsed |
| `Proxy.Handle` | api/board.ts:1-35 | a failed check gives its early reply; otherwise the reply is 200 iff every URL read parses |
| `Proxy.Forwarded` | api/board.ts:19-34 | all four reads parsed gives 200 with the four documents and the cache header; otherwise 500 `internal_error` with the first failure's message |
| `Proxy.ReplyShapes` | api/board.ts:1-35 | the status is 200, 400, 401 or 500; 200 exactly when cached, and exactly when the body is the payload |
| `Proxy.Response.constructor` | api/board.ts:1 | a fresh response: 200, no header, no body |
| `Proxy.Response.SetHeader` | api/board.ts:29 | appends one header, nothing else changes |
| `Proxy.Response.Status` | api/board.ts:30 | sets the status only |
| `Proxy.Response.Json` | api/board.ts:30 | sets the body only |
| `Proxy.Handler` | api/board.ts:1-35 | the response's status, body and headers are those of the reply the cascade chooses |
| `Sorting.SortDescSorted` | src/dashboard.jsx:228 | sorting by `b.count - a.count` gives non-increasing counts |
| `Sorting.SortDescStable` | src/dashboard.jsx:228 | equal counts keep their order |
| `Sorting.SortDescKeepsTies` | src/dashboard.jsx:228 | two elements with equal keys are in the same order before and after sorting |
| `Sorting.SortSum` | src/dashboard.jsx:228 | sorting preserves sums |
| `Sorting.SortNeutral` | src/components/MobileQuickView.jsx:80 | a comparator that is always 0 or NaN leaves the order as it was |
| `Sorting.SortAscStrict` | src/dashboard.jsx:272 | on distinct keys, `a.month > b.month ? 1 : -1` sorts strictly ascending |
| `OrderedMaps.Bump` | src/components/MobileQuickView.jsx:57 | `bump` raises one counter by one and appends a new key at the end |
| `OrderedMaps.CountFresh` | src/dashboard.jsx:234-238 | a tally from empty has the distinct keys in first-encountered order and counts each key's occurrences |
| `OrderedMaps.CountPresent` | src/components/MobileQuickView.jsx:52-60 | a tally over pre-seeded keys keeps its key order and adds the occurrences |
| `OrderedMaps.Seed` | src/components/MobileQuickView.jsx:52 | `new Map(ids.map(id => [id, 0]))`: distinct ids in order, all zero |
| `Strings.Trim` | src/dashboard.jsx:24 | no space at either end |
| `Strings.SplitTrimmedWords` | src/dashboard.jsx:24 | splitting a trimmed non-empty string gives non-empty words |
| `Strings.PadStart` | src/dashboard.jsx:30 | left padding to the width |
| `Strings.NatToStringRoundTrip` | src/dashboard.jsx:342 | the decimal rendering of a count reads back as that count |
| `Strings.ReplaceCharRemoves` | src/dashboard.jsx:13 | replacing every `\n` by a space removes them all |
| `Strings.SplitOnJoin` | src/dashboard.jsx:14 | splitting lines joined by a separator they do not contain gives the lines back |

## Left out

- **Time zones and calendars.** Real `Date` arithmetic, time zones and daylight-saving changes are out. The source mixes UTC parsing with local `setHours` (src/dashboard.jsx:184-185) and keys trend days by `toISOString` of local midnights (src/dashboard.jsx:283, 294). Instants carry their local calendar day, month and year already computed, and day keys are day numbers, not `YYYY-MM-DD` strings.
- Filters.DateInside: the `from` bound is compared with the start of its day as given. A date-only string that parses to UTC midnight is not modelled.
- Strings.Less: compares code points, while JavaScript's `<` on strings compares UTF-16 code units. The two orders differ only when a string holds a character outside the Basic Multilingual Plane.
- Initials.Head: takes the first code point, while `s[0]` in JavaScript takes the first UTF-16 code unit (src/dashboard.jsx:25, src/components/MobileQuickView.jsx:6). On a character outside the Basic Multilingual Plane JavaScript yields half a surrogate pair.
- **Missing versus empty text.** A missing field and an empty one print differently in three places, and the model gives both the empty string. The digest writes `c.name` as it is, so a card without a name is listed as `undefined` (src/dashboard.jsx:336, 347). The quick view's `initialsOf` receives `null` for a member whose full name is empty and whose username is `null`, and `String(null)` makes that the one word `"null"`, whose initials are `"NN"` (src/components/MobileQuickView.jsx:4, 78). `JSON.stringify` leaves out a `title` whose value is `undefined` (src/dashboard.jsx:367).
- **CSV reading.** The source only writes CSV. `Export.ReadCells` is a reference reader used to state the export's round trip. It is not part of the source.
- Months.FmtMonth: its format and sort-order guarantees are stated only for four-digit years, because `getFullYear()` is not padded.
- **`allLabels`** (src/dashboard.jsx:164-178) is not modelled. It sorts with `localeCompare`, which depends on the locale.
- **Floating-point values.** `BarRow`'s `Math.round` percentage and the heat map's opacity are not modelled.
- **Browser side effects.** `download` (Blob and object URLs), `copyDigest` (the clipboard) and `mailDigest` (`mailto` navigation) are not modelled.
- **JSON export.** `JSON.stringify` of the export rows is not modelled. The JSON side stops at the row values.
- **Plain-object key order.** For `chartByList`'s `acc = {}`, JavaScript lists integer-like keys first, in numeric order, but the model keeps plain insertion order. Trello list ids are 24-digit hex strings, which are not integer-like. `Object.fromEntries` is a Dafny `map` in which the last entry wins.
- **Upper-casing (`toUpperCase`)** is modelled for ASCII letters only.
- **No aliasing of maps.** The JavaScript `Map`s are values that the loops reassign. The quick view's inner matrix maps, which are mutated in place through `matrix.get(...)`, are therefore modelled without aliasing.
- **Proxy: `Promise.all` timing.** When several upstream reads fail, the model reports the first failure in URL order. `Promise.all` rejects with whichever settles first, and timing is not modelled.
- **Proxy: other errors.** `console.error` is not modelled. The exceptions modelled are the upstream read and parse failures, and the upstream documents are kept as opaque text.
- **Data loading** (src/dashboard.jsx:109-149) is asynchronous Power-Up and fetch I/O, and is not modelled.
- **User interface.** Rendering, the dashboard's own inline quick view, filter drawers and event listeners are not modelled.
- **Other files.** The Power-Up registration files, the build configuration and the mount glue have no logic and are not part of this model.
