# guspy query builders, in Dafny

guspy builds SOQL query strings for a Salesforce-backed issue tracker. This project
models three parts of it and proves properties of the model:

- **Filter fragments** (`guspy/filters.py`), in module `Filters`. These functions render
  predicates (`field = 'v'`, `field IN v`, `field LIKE 'p'`) and join them with
  ` AND ` / ` OR `. Python's `None` is `Option`, and a missing or empty argument makes a
  builder return `None` rather than raise.
- **The query assembler and the builders** (`guspy/__init__.py`):
  - Module `Queries` holds `Query` (alias lookup through the schema table, then
    `SELECT … FROM … [WHERE …] [ORDER BY …] [LIMIT …]`). It also holds a pure
    specification of every builder step: `fields`, `filters`, `__init__`, `generate`,
    and the relationship filters of the entity builders.
  - Module `Builders` holds `GUSObject` as a Dafny class with the source's mutable
    attributes. Its setters, `generate` and the `create` method of every subclass are
    methods proved against that specification.
- **The parsers** (`guspy/parsers.py`), in module `Parsers`:
  - `CaseCommentParser` picks CLI-style values out of a comment. Its nested loops
    become the methods `Split` (outer loop) and `SplitKey` (inner loop, with its
    `break`), proved against a fold over the command table; `format` becomes the
    method `FormatInPlace`.
  - `ShiftParser` maps a day and a shift name to a time window.

Modules `Wrappers` (Option, Result, the Python exceptions, truthiness) and `Text` (the
`str` operations the code uses) support the rest.

Two tables that the package loads from JSON files at import time are parameters here:
- the schema table (`objects.json`, alias to `{"Object": name, …}`), as a map;
- the command table (`cli.json`), as an ordered sequence of (key, command words) pairs.

Exceptions are `Failure` values that carry `TypeError`, `KeyError`, `AttributeError`
or `ValueError`. A `create` that raises stops where the source stops: the
`query_object` it already performed stays done, and nothing after the raise happens.

Points where the code behaves differently from what its comments, the usage script or
the commented-out legacy classes suggest; the model follows the live code:
- `filters()` (`guspy/__init__.py:70-74`) keeps only the newest fragment: the f-string at
  line 72 drops the stored filter (see "## Findings").
- `fields()` (`guspy/__init__.py:62-68`) raises `TypeError` for anything but a `str` or a
  `list`, `None` included; only the commented-out legacy classes (`guspy/__init__.py:315`
  and following) fall back to `"Id"` when no fields are given.
- CaseComment and Chatter (`guspy/__init__.py:127-152`) filter `ParentId` on the given
  values directly; the commented-out legacy CaseComment (`guspy/__init__.py:321-339`)
  went through a Case subquery.
- The class comments (`guspy/__init__.py:53` and the comment above each subclass) and the
  usage script (`examples.py:27`, `examples.py:39`) mention `gre()`, but only the
  commented-out legacy classes define it (`guspy/__init__.py:345` and following).

## Model

| member | source | states |
|---|---|---|
| Filters.Quote | guspy/filters.py:44-45 | adds exactly one `'` on each side and leaves the text between untouched |
| Filters.Bracket | guspy/filters.py:48-49 | adds exactly one `(` before and one `)` after, the text between untouched |
| Filters.BracketQuote | guspy/filters.py:44-49 | `bracket(quote(x)) == "('" + x + "')"`, four characters longer than `x` |
| Filters.Equals | guspy/filters.py:4-9 | a result exists iff field and value are both non-empty; it is `field = 'value'` with the value unescaped |
| Filters.IsIn | guspy/filters.py:12-17 | a result exists iff both are non-empty; the field, then ` IN `, then the value verbatim with no brackets added |
| Filters.Like | guspy/filters.py:20-25 | a result exists iff both are non-empty; it is `field LIKE '<value with every identifier replaced by %>'` |
| Filters.LikePattern | guspy/filters.py:22 | with a one-character identifier the pattern has the value's length, and only identifier characters become `%` |
| Filters.Combine | guspy/filters.py:28-41 | fewer than two fragments give None; two or more are joined in order, and a None among them is a TypeError from `join` |
| Filters.Incl | guspy/filters.py:28-33 | fewer than two fragments give None; two fragments give `a AND b` |
| Filters.Excl | guspy/filters.py:36-41 | fewer than two fragments give None; two fragments give `a OR b` |
| Filters.CombineExtend | guspy/filters.py:28-41 | joining is associative: `incl(a, b, c) == incl(incl(a, b), c)`, and the same for `excl` |
| Text.ReplaceChar | guspy/filters.py:22 | replacing one character by one character keeps the length and maps every position independently |
| Text.Replace | guspy/filters.py:22 | `str.replace`: a non-empty pattern and a replacement of the same length keep the length; an empty pattern adds one copy of the replacement per character plus one |
| Text.ReplaceEmpty | guspy/filters.py:22 | with an empty pattern the result starts with the replacement, then the first character, then the replacement of the rest; an empty text gives the replacement alone |
| Text.ReplaceAbsent | guspy/filters.py:22 | a non-empty pattern that occurs nowhere in the text leaves it unchanged |
| Text.SplitOn | guspy/parsers.py:109-111 | `split(c)` is never empty and no piece holds `c`; the first piece runs to the first `c`; there are two or more pieces iff `c` occurs |
| Text.SplitOnJoin | guspy/__init__.py:66 | splitting a comma-join of comma-free items gives the items back in order |
| Text.Join | guspy/__init__.py:66 | `",".join(xs)` is empty for no items and otherwise begins with the first item; `SplitOnJoin` and `JoinSplitOn` give the round trip |
| Text.IndexOf | guspy/parsers.py:15-16 | `list.index(x)` for a present `x`: a position holding `x` with no `x` before it |
| Text.JoinSplitOn | guspy/parsers.py:109 | joining the pieces of a split with the separator restores the text |
| Text.JoinFreeOfSeparator | guspy/__init__.py:109-111 | a join of separator-free items holds the separator iff there are at least two items |
| Text.Words | guspy/parsers.py:71 | `split()` yields only non-empty tokens without whitespace; `WordsSkipSpace`, `WordsSkipRun` and `WordsCons` show they are the maximal runs of non-whitespace, in order |
| Text.WordsSkipSpace | guspy/parsers.py:71 | a whitespace character in front of the text adds no token; with `WordsCons` and the empty text this fixes `split()` on every input |
| Text.WordsSkipRun | guspy/parsers.py:71 | a run of whitespace of any length in front of the text adds no token |
| Text.WordsOfJoin | guspy/parsers.py:71 | a space-joined sequence of tokens splits back into exactly those tokens |
| Text.StripLeft | guspy/parsers.py:119 | removes only leading `c` characters, and all of them |
| Text.StripRight | guspy/parsers.py:119 | removes only trailing `c` characters, and all of them |
| Text.Strip | guspy/parsers.py:119 | `strip(c)` is no longer than its input, neither starts nor ends with `c`, and leaves a text without `c` unchanged |
| Text.NatToString | guspy/__init__.py:47 | `str(n)` is one or more decimal digits with no leading zero |
| Text.ParseIntToString | guspy/__init__.py:47 | the rendered limit reads back as the same integer |
| Text.IntToString | guspy/__init__.py:47 | `str(limit)` is non-empty and starts with `-` exactly for a negative limit |
| Queries.NewQuery | guspy/__init__.py:32-37 | a catalogued alias resolves to its "Object" entry; an unknown alias is used literally; a catalogued alias without "Object" raises KeyError |
| Queries.Create | guspy/__init__.py:39-48 | the query is the head `SELECT fields FROM obj`, then the WHERE, ORDER BY and LIMIT clauses in that order, each present only when its arguments are truthy |
| Queries.CreateWhereIff | guspy/__init__.py:41-45 | right after the head the query continues with ` WHERE ` iff the filter is truthy, and then with the filter text |
| Queries.CreateLimit | guspy/__init__.py:46-47 | with a truthy limit the query ends in ` LIMIT ` and digits that read back as the limit; with None or 0 there is no LIMIT clause |
| Queries.FieldsValue | guspy/__init__.py:62-68 | a str is stored verbatim, a list is comma-joined, and any other value (None included) raises TypeError |
| Queries.FieldsListOrder | guspy/__init__.py:65-66 | a list of comma-free names is stored in order with no spaces: splitting at the commas gives the list back |
| Queries.FilterUpdate | guspy/__init__.py:70-74 | with no truthy filter set, the argument is stored; otherwise ` AND x` (or ` OR x`) replaces the old value |
| Queries.FilterUpdateForgets | guspy/__init__.py:71-72 | once a filter is set, what `filters()` stores does not depend on the earlier filter |
| Queries.FilterUpdateIntended | guspy/__init__.py:71-72 | the corrected update keeps the earlier fragment as a prefix and appends ` AND x` / ` OR x` |
| Queries.FilterUpdateAsWritten | guspy/__init__.py:71 | reading a never-assigned `filter_value` raises AttributeError; otherwise it behaves as `FilterUpdate` |
| Queries.ConstructorAlwaysRaises | guspy/__init__.py:55-58 | as written, `GUSObject(...)` always raises: TypeError for a non-str, non-list `fields`, AttributeError otherwise |
| Queries.InitialAsWritten | guspy/__init__.py:55-58 | as written, the constructor fails for every argument: `filters()` reads the never-assigned `filter_value` |
| Queries.Initial | guspy/__init__.py:55-60 | with `filter_value` starting absent, the constructor fails exactly when `fields()` does; otherwise it stores the given settings |
| Queries.Generated | guspy/__init__.py:86-94 | `generate()` raises without a query object; otherwise the rendering starts with the builder's head |
| Queries.RawFilterShape | guspy/__init__.py:131-137 | raw values give `key IN (values)` when they hold a comma, and `key = 'value'` otherwise |
| Queries.RawFilter | guspy/__init__.py:134-137 | with non-empty keys, a filter exists iff the joined text is non-empty; it starts with the many-values key when the text holds a comma and with the one-value key otherwise |
| Queries.RawExtra | guspy/__init__.py:131-137 | CaseComment and Chatter add a filter iff the argument is truthy, and that filter is absent only for an empty joined text |
| Queries.RawCreateShape | guspy/__init__.py:129-138 | with no earlier filter, a CaseComment/Chatter `create` renders its query with exactly that raw-value WHERE predicate |
| Queries.TaskExtraShape | guspy/__init__.py:232-238 | Task filters several ids with `WhatId IN (…)` but one id with `ParentId = '…'` |
| Queries.TaskExtra | guspy/__init__.py:232-238 | Task adds a filter iff the ids are truthy, and that filter is absent only for an empty joined text |
| Queries.ScrumExtraShape | guspy/__init__.py:189-195 | ScrumMember reads its key from the schema table only when a team name is given, and raises KeyError exactly when that entry is missing |
| Queries.ScrumExtra | guspy/__init__.py:189-195 | ScrumMember adds no filter for a falsy team name; its only failures are the KeyErrors of the table lookup; on success with a team name it adds a filter |
| Queries.ListArgumentForm | guspy/__init__.py:109-111 | a list of comma-free values takes the IN form iff it has at least two items |
| Queries.Joined | guspy/__init__.py:109-110 | a single str is kept; an empty list gives ""; a non-empty list's join begins with its first item |
| Queries.JoinedRoundTrip | guspy/__init__.py:109-110 | splitting the comma-join of comma-free case numbers on commas gives the list back |
| Queries.NestedExtraRaises | guspy/__init__.py:108-116 | as written, any truthy case number makes the nested `Case(...)` raise TypeError; a falsy one adds no filter |
| Queries.NestedExtraVia | guspy/__init__.py:108-116 | a falsy case number adds no filter; with a truthy one, a failure carries exactly the error that building the Case query for `CaseNumber IN (…)` or `CaseNumber = '…'` raised, and a success adds a filter |
| Queries.NestedExtra | guspy/__init__.py:108-116 | as written, the nested filter succeeds iff the case number is falsy, and otherwise fails with TypeError |
| Queries.NestedExtraIntended | guspy/__init__.py:108-116 | as intended, a falsy case number adds no filter; a truthy one succeeds iff the Case alias resolves, and then adds a filter (its text is `NestedIntendedMany`/`NestedIntendedOne`) |
| Queries.CaseSubquery | guspy/__init__.py:112 | as written, `Case(filters=…).create()` always fails with TypeError, from `fields(None)` |
| Queries.CaseSubqueryIntended | guspy/__init__.py:112 | corrected: the Case subquery exists iff the "Case" alias resolves, and then starts with `SELECT Id FROM <Case object>` |
| Queries.CaseSubqueryIntendedText | guspy/__init__.py:121-124 | the corrected Case subquery is `SELECT Id FROM <Case object> WHERE <filter>` |
| Queries.ManySubquery | guspy/__init__.py:112 | the corrected subquery for several numbers filters `CaseNumber IN (<numbers>)` |
| Queries.OneSubquery | guspy/__init__.py:115 | the corrected subquery for one number filters `CaseNumber = '<number>'` |
| Queries.NestedIntendedMany | guspy/__init__.py:111-113 | corrected: several numbers give `key IN (SELECT Id FROM <Case> WHERE CaseNumber IN (<numbers>))` |
| Queries.NestedIntendedOne | guspy/__init__.py:114-116 | corrected: one number gives `key = '<whole Case subquery>'`, the subquery compared as a quoted literal |
| Queries.CreateStepRendersState | guspy/__init__.py:99-245 | every `create` leaves fields, limit and sort unchanged; a relationship filter is stored through `filters(x)` and no filter leaves `filter_value` as it was; it succeeds iff the alias resolves and the relationship filter builds; it returns and caches what `generate()` renders from the new state |
| Queries.CreateStep | guspy/__init__.py:99-245 | a `create` succeeds iff the alias resolves and the relationship filter builds; an unresolved alias changes nothing; otherwise `query_obj` is set and `filter_value` becomes `FilterUpdate(filter_value, x, True)` for a relationship filter `x` and stays as it was without one; on success the result is `Create` over the new state, starts with the head and is cached; on failure the cache is untouched |
| Builders.GUSObject.Blank | guspy/__init__.py:56 | a new builder has `field_value` "Id" and every other attribute absent |
| Builders.GUSObject.Fields | guspy/__init__.py:62-68 | stores what `FieldsValue` gives; on TypeError `field_value` is unchanged |
| Builders.GUSObject.Filters | guspy/__init__.py:70-74 | changes only `filter_value`, to `FilterUpdate` of the old value |
| Builders.GUSObject.Limit | guspy/__init__.py:76-77 | changes only `limit_value`; the default is 15 |
| Builders.GUSObject.Sort | guspy/__init__.py:79-81 | changes only `sort_by` and `sort_seq`; the default order is "DESC" |
| Builders.GUSObject.QueryObject | guspy/__init__.py:83-84 | sets `query_obj` to the resolved `Query`, or raises the KeyError and changes nothing |
| Builders.GUSObject.Generate | guspy/__init__.py:86-94 | returns `Generated` of the current attributes and caches the result in `query` |
| Builders.GUSObject.GenerateTwice | guspy/__init__.py:86-94 | two `generate()` calls with no setter between them return the same result |
| Builders.GUSObject.CreateWith | guspy/__init__.py:99-245 | the shared `create` sequence ends in the state and result that `CreateStep` specifies |
| Builders.GUSObject.CreateApprise | guspy/__init__.py:98-101 | queries "AppriseLogs" with no relationship filter |
| Builders.GUSObject.CreateAttachment | guspy/__init__.py:105-117 | filters `ParentId` against a nested Case query; as written, that raises TypeError for any truthy case number |
| Builders.GUSObject.CreateCase | guspy/__init__.py:121-124 | queries "Case" with no relationship filter |
| Builders.GUSObject.CreateCaseComment | guspy/__init__.py:128-138 | filters `ParentId` on the raw case numbers |
| Builders.GUSObject.CreateChatter | guspy/__init__.py:142-152 | filters `ParentId` on the raw ids |
| Builders.GUSObject.CreateCIStep | guspy/__init__.py:156-168 | filters `Case__c` against a nested Case query |
| Builders.GUSObject.CreateClusterInstanceLink | guspy/__init__.py:172-175 | queries the "CTCLock" alias |
| Builders.GUSObject.CreateCTCLock | guspy/__init__.py:179-182 | queries "CTCLock" with no relationship filter |
| Builders.GUSObject.CreateScrumMember | guspy/__init__.py:186-196 | filters on the schema table's TeamName field with the raw team names |
| Builders.GUSObject.CreateUser | guspy/__init__.py:200-203 | queries "User" with no relationship filter |
| Builders.GUSObject.CreateRelease | guspy/__init__.py:207-210 | queries "Release" with no relationship filter |
| Builders.GUSObject.CreateReleaseEvent | guspy/__init__.py:213-225 | filters `ChangeCase__c` against a nested Case query |
| Builders.GUSObject.CreateTask | guspy/__init__.py:229-239 | filters `WhatId` for several ids and `ParentId` for one |
| Builders.GUSObject.CreateInstanceDatacenter | guspy/__init__.py:242-245 | queries "InstanceDatacenter" with no relationship filter |
| Builders.NewGUSObject | guspy/__init__.py:55-60 | construction fails with TypeError exactly when `Initial` does; otherwise the fresh builder's attributes are `Initial`'s state |
| Parsers.LastItem | guspy/parsers.py:15-16 | raises ValueError iff the item is absent; otherwise true iff the item is last and occurs nowhere before |
| Parsers.Search | guspy/parsers.py:73-79 | yields a token iff the word occurs before the last position; the token follows the word's first occurrence |
| Parsers.SearchAfter | guspy/parsers.py:75-76 | in `pre word rest`, with `pre` free of the word, `search` yields the first token of `rest` |
| Parsers.SearchInComment | guspy/parsers.py:71-79 | a comment `pre word value post`, with `pre` free of `word`, yields `value` |
| Parsers.Check | guspy/parsers.py:81-85 | refuses exactly a value that starts with `-`; every other value, None included, passes unchanged |
| Parsers.Accepted | guspy/parsers.py:91 | a command yields a value only when it occurs before the last token; the value is the token after its first occurrence and does not start with `-` |
| Parsers.FirstAccepted | guspy/parsers.py:89-94 | the accepted value of the earliest command that yields one; None iff no command does |
| Parsers.KeyOutcome | guspy/parsers.py:95-96 | None is recorded only when the last command does not also occur earlier in the list |
| Parsers.Scan | guspy/parsers.py:90-96 | one key's pass from any command index adds at most that key, changes no other key, and stores None or a truthy value |
| Parsers.Parsed | guspy/parsers.py:88-96 | the parsed dictionary holds only configured keys, each mapped to None or a truthy value |
| Parsers.ScanFrom | guspy/parsers.py:90-96 | the inner loop from any command index writes the first accepted value, or None under the `last_item` condition, or nothing |
| Parsers.ScanOutcome | guspy/parsers.py:90-96 | one key's pass writes exactly `KeyOutcome` under that key and touches no other key |
| Parsers.ParsedOnlyKeys | guspy/parsers.py:88-96 | only configured keys appear in the parsed dictionary |
| Parsers.ParsedEntry | guspy/parsers.py:88-96 | with distinct keys, each key maps to the first accepted value of its commands, or to None, or is absent, as `KeyOutcome` says |
| Parsers.SplitKey | guspy/parsers.py:90-96 | the inner loop over one key's commands, with its `break`, leaves the dictionary that `Scan` specifies |
| Parsers.Split | guspy/parsers.py:87-98 | the loop over the command table, through `SplitKey` and then `FormatInPlace`, returns `Format(Parsed(…))` of the comment's tokens |
| Parsers.Format | guspy/parsers.py:100-105 | only truthy "Version" and "Chatter" entries are reformatted; no key is added or removed |
| Parsers.FormatInPlace | guspy/parsers.py:100-105 | the two in-place overwrites of `format` leave the dictionary that `Format` specifies |
| Parsers.VersionFormat | guspy/parsers.py:107-116 | a version without `@` is unchanged; otherwise the result holds neither `@` nor `,` |
| Parsers.VersionSegment | guspy/parsers.py:107-116 | with an `@`, the result is the longest run after the first `@` that holds neither `@` nor `,` |
| Parsers.CutTwice | guspy/parsers.py:109-111 | splitting at `@` and then at `,` keeps the longest prefix free of both |
| Parsers.ChatterFormat | guspy/parsers.py:118-119 | the result is no longer than the input and neither starts nor ends with `"` |
| Parsers.ChatterUnquote | guspy/parsers.py:118-119 | any number of surrounding `"` is removed and the inner text comes back whole |
| Parsers.DayIndex | guspy/parsers.py:56-59 | the weekday index is in 0..6 |
| Parsers.IsWeekday | guspy/parsers.py:61-65 | a day is a weekday iff its index is neither 5 (Saturday) nor 6 (Sunday) |
| Parsers.NextDay | guspy/parsers.py:165-166 | the next day (`+ timedelta(days=1)`) has the next weekday index, modulo 7 |
| Parsers.WeekdayCycle | guspy/parsers.py:56-65 | weekdays repeat every seven days, day 1 is a Monday, and no weekend lasts more than two days |
| Parsers.NextDayIndex | guspy/parsers.py:61-65 | the day after has the next index, so Friday is followed by a weekend day and Sunday by a weekday |
| Parsers.GetTiming | guspy/parsers.py:127-152 | start and end are both present or both absent; every hour is below 24 and every minute is 0 |
| Parsers.TimingTable | guspy/parsers.py:127-152 | the timing is exactly the table (weekday: SIN 1→9, DUB 9→16, USA 16→1, ALL 1→1; weekend: SIN 1→13, USA 13→1, ALL 1→1); any other pair has none |
| Parsers.ShiftWindow | guspy/parsers.py:154-166 | the window exists iff a timing exists; it starts on the given day and lasts more than 0 and at most 24 hours |
| Parsers.WindowEnds | guspy/parsers.py:160-166 | the end is on the same day when the start hour is before the end hour, and on the next day otherwise |
| Parsers.UsaOvernight | guspy/parsers.py:136-148 | USA always ends at 01:00 the next day; it starts at 16:00 on weekdays and 13:00 on weekends |
| Parsers.AllDay | guspy/parsers.py:139-151 | ALL runs from 01:00 for exactly 24 hours |
| Parsers.DaytimeShifts | guspy/parsers.py:130-145 | SIN and DUB stay within the day; the only missing window among them is DUB on a weekend |
| Parsers.SoqlStandard | guspy/parsers.py:41-44 | the stamp begins with the date and ends with the zeroed seconds and microseconds `:00.000000Z`; its length is the date's, the two padded clock fields' and 13 more |
| Parsers.TwoDigits | guspy/parsers.py:43 | an hour or minute renders as exactly two digits that read back as it |
| Parsers.StampClock | guspy/parsers.py:41-44 | for an hour below 24 and a minute below 60: `T` follows the date, then two digits that read back as the hour, `:`, and two digits that read back as the minute; 17 characters follow the date |
| Parsers.GetShifts | guspy/parsers.py:154-169 | both stamps are absent iff there is no timing; otherwise they are the SOQL renderings of the two ends of `ShiftWindow`, both end in `:00.000000Z`, and the start begins with the given day's date |
| Parsers.ShiftEndDate | guspy/parsers.py:160-168 | the rendered end begins with the date of the day the window ends on, the next day for an overnight shift |
| Parsers.ShiftClock | guspy/parsers.py:154-169 | each rendered end carries the timing table's hour in its hour digits and 0 in its minute digits |

## Left out

- `guspy/access.py` is not part of this model. It handles the login, the session and the query execution over the network, plus DataFrame conversion.
- The usage script `examples.py`, `setup.py` and the test suite are not part of this model. The test suite exercises a different program.
- The JSON tables are not read from files. Loading `objects.json` and `cli.json` at import time (`guspy/__init__.py:8-20`, `guspy/parsers.py:5-12`) is file I/O, so the tables are parameters.
- Calendar arithmetic and the date library are not modelled. `DateTimeParser.convert`, `sf_standard`, `easy_view_standard` and `hour` wrap `strptime`/`strftime`.
  - A date is its day number, with Monday as index 0, as in `datetime.weekday()`.
  - The next day is the next number.
  - Rendering a day as `YYYY-MM-DD` is a function parameter of `SoqlStandard` and `GetShifts`.
- Unparsable date strings are not modelled. In the source, `convert` then returns the string itself and the following `weekday()` or `replace(hour=…)` raises; the model always starts from a parsed date.
- `logging` and `print` calls are left out: they are diagnostics.
- The unreachable `except` in `Query.create` (`guspy/__init__.py:49-50`) is left out.
- The commented-out legacy classes are dead code and are left out.
- Only str values are modelled:
  - filters, sort fields and field names are `Option<string>`;
  - limits are `Option<int>`;
  - case numbers are a string or a list of strings.
  The source accepts any object in an f-string, raises TypeError from `join` for a list holding a non-str, and raises from `"," in x` for a non-str case number. None of these is modelled.
- Builders.GUSObject: the subclasses are not separate classes. Each subclass's `create` is a method of the one builder class, so the model does not capture that an `Apprise` object offers only `Apprise.create`.
- Builders.GUSObject.Blank: `filter_value` starts as None, not unassigned. This is the documented deviation under Findings; it is what makes construction possible at all.
- Builders.GUSObject.CreateAttachment, Builders.GUSObject.CreateCIStep, Builders.GUSObject.CreateReleaseEvent and Builders.GUSObject.Filters keep the source's behaviour. The corrected nested subquery and the corrected appending `filters()` are proved (see Findings) but not wired into the builder class.
- Text.Replace: for a pattern of two or more characters the positions of the replacements are not characterised; only the length (for a same-length replacement) and the unchanged text when the pattern does not occur are stated. The call in `like` uses the one-character default, which `ReplaceChar` characterises fully.
- Parsers.Split: the parsed dictionary is a Dafny map, so it does not keep the insertion order of a Python dict.

## Findings

| source | as written | input that shows it | evidently intended | confidence | as-written member | corrected member |
|---|---|---|---|---|---|---|
| guspy/__init__.py:55-72 | `__init__` calls `filters()`, which reads `self.filter_value` before anything assigns it | `GUSObject(fields="Id")` raises AttributeError, and so does every subclass constructor | `filter_value` starts empty and the constructor stores the given settings | high, not executed | Queries.ConstructorAlwaysRaises | Queries.Initial |
| guspy/__init__.py:112 | the nested `Case(filters=…)` passes no `fields`, so `fields(None)` raises TypeError | even with the constructor corrected, `Attachment(fields="Id").create("00123")` raises TypeError, and likewise CIStep and ReleaseEvent | the Case subquery selects `Id` and is embedded in the relationship filter | high, not executed | Queries.NestedExtraRaises | Queries.NestedIntendedMany |
| guspy/__init__.py:71-72 | a second `filters()` call stores ` AND x`, discarding the earlier filter | `filters("A = '1'")` then `filters("B = '2'")` renders `WHERE  AND B = '2'` | the earlier filter is kept: `A = '1' AND B = '2'` | medium, not executed | Queries.FilterUpdateForgets | Queries.FilterUpdateIntended |

The builder class uses the corrected constructor (`Queries.Initial`), because no builder
could exist otherwise. For the other two rows, the builder class keeps the behaviour as
written, and the corrected definitions stand beside it with their properties proved.
