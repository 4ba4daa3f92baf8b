# Self-organizing memory store and Telegram table formatter, in Dafny

This project models the core of a chat assistant's long-term memory:

* **The taxonomy and the record schema.** There are twenty fixed categories. Each has a default starting importance and a per-day decay rate. The schema also has a loose category matcher (`normalizeCategory`), record construction (`createMemory`) and record validation (`validateMemory`).
* **The memory store.** Four indexes are kept in a key-value backend over one logical record:
  * the per-id record hash;
  * the importance sorted set `ALL`;
  * one membership set per category;
  * the recency sorted set `ACCESSED`, trimmed to the 100 latest ids on every boosted read.

  The backend also holds a `STATS` counter hash and the `LAST_DECAY` time. The operations are add, read (with or without a boost), list by category, substring search, update, delete, the decay sweep, the prune sweep and statistics.
* **The Telegram formatter.** `parseTables` is a line-by-line reader that turns the markdown tables of a memory text into `{title, headers, rows}`. The other helpers render those tables as framed, icon-headed text.

## Layout

| file | module | what it holds |
|---|---|---|
| `wrappers.dfy` | `Wrappers` | `Option` (JavaScript's `null`/`undefined`) and `Result` (a thrown error) |
| `strings.dfy` | `Strings` | the JavaScript string built-ins the code uses: `trim`, `toLowerCase`, `includes`, `split`, `join`, `repeat`, `padEnd`, `slice(0, n)` and whole-number rendering |
| `sortedsets.dfy` | `SortedSets` | the read side of the backend: `ZRANGE`/`ZREVRANGE` as a listing ordered by score, and `SMEMBERS` as a listing in some order |
| `sorting.dfy` | `Sorting` | `Array.prototype.sort` with a highest-first comparator, modelled as a stable insertion sort |
| `schema.dfy` | `Schema` | `api/memory/schema.js` |
| `store.dfy` | `MemoryStore` | `api/memory/index.js`: a `Store` class whose fields are the backend's keys |
| `formatter.dfy` | `Formatter` | `api/utils/formatter.js` |

The store is a class with six fields, one per backend key:
* `entries: map<string, Memory>`
* `all: map<string, real>`
* `cats: map<string, set<string>>`
* `accessed: map<string, int>`
* `stats: map<string, int>`
* `lastDecay: Option<int>`

`Store.Valid()` is the cross-index invariant (`Coherent`). It has four parts:
* the importance set and the record hash hold the same ids;
* every score equals its record's importance;
* every id lies in the set of its record's category and in no other;
* the recency set holds only ids that have a record.

Every store method that changes state requires `Valid()` and ensures it again. Each method also states its whole new state in terms of the old one.

The clock (`Date.now()`) and the id generator are parameters: `now` and `id`.

Sorted-set listings leave ties between equal scores in an unspecified order. The `SortedSets.Ranked` predicate allows any such order.

Importance and decay rates are exact `real`s. `Math.pow(rate, days)` is the recursive `Pow` over whole days.

### Where the code and the design description differ (the model follows the code)

* `getMemory` returns the record as it was read, before the boost (`api/memory/index.js:91-110`). `Store.Get` returns `old(Peek(id))`.
* `createMemory` looks up the starting importance and the decay rate with the category exactly as the caller gave it. It does not use the normalized category (`api/memory/schema.js:93`, `api/memory/schema.js:98`). So `"active projects"` is filed under "Active Projects" but starts at 70 with rate 0.95, not at 90 with rate 0.93. `Schema.RawCategoryLookup` proves this.
* `addMemory` has no `pinned` parameter, so a new record is never pinned (`api/memory/index.js:44-46`).
* The decay sweep does not clamp. The prune sweep does not spare pinned records.
* `deleteMemory` removes the record hash first and the other indexes after it. The model is sequential, so this order has no effect on it.
* `updateMemory` validates neither `decay_rate` nor `pinned`. So the bound on importances after a sweep (`MemoryStore.DecayLowers`) holds only while every stored rate lies in [0, 1]. Every record that `addMemory` creates meets that bound.

## Model

| member | source | states |
|---|---|---|
| `Schema.DecayTableKeys` | api/memory/schema.js:29-50 | every category has a decay rate, and only categories have one |
| `Schema.ImportanceTableKeys` | api/memory/schema.js:52-73 | every category has a starting importance, and only categories have one |
| `Schema.DecayTableRange` | api/memory/schema.js:29-50 | every default decay rate lies strictly between 0 and 1 |
| `Schema.ImportanceTableRange` | api/memory/schema.js:52-73 | every default importance lies in (0, 100] |
| `Schema.DefaultImportanceInRange` | api/memory/schema.js:93 | the looked-up importance, with fallback 70, lies in [0, 100] for every raw category |
| `Schema.DefaultDecayInRange` | api/memory/schema.js:98 | the looked-up decay rate, with fallback 0.95, lies in (0, 1) for every raw category |
| `Schema.Clamp` | api/memory/schema.js:94 | the result lies in [0, 100]; it is the input inside the range, 0 below it and 100 above it |
| `Schema.FindFrom` | api/memory/schema.js:110-112 | `Array.find`: the result is the first index from `k` whose lowered name contains the query, or none when no later name does |
| `Schema.NormalizeCategory` | api/memory/schema.js:107-115 | always a member of `CATEGORIES`; the fallback for empty input or no match; otherwise the first category in list order whose lowered name contains the lowered input |
| `Schema.EmptyInputNeedsGuard` | api/memory/schema.js:108 | the empty string is contained in every name, so only the explicit guard sends an empty input to "Notes & Miscellaneous" |
| `Schema.NormalizeFixesCategories` | api/memory/schema.js:110-114 | every exact category name normalizes to itself (no name is contained in an earlier one) |
| `Schema.NormalizeIdempotent` | api/memory/schema.js:107-115 | normalizing twice equals normalizing once |
| `Schema.CategoriesDistinct` | api/memory/schema.js:6-27 | the category list has no repeats |
| `Schema.CreateMemory` | api/memory/schema.js:85-102 | id, content and pinned as given; normalized category; importance and decay rate from the tables by raw category, or 70 and 0.95; confidence clamped to [0, 100]; created and last accessed at `now`, zero accesses, no related ids |
| `Schema.RawCategoryLookup` | api/memory/schema.js:92-98 | a lower-case spelling is filed under "Active Projects" but starts at 70 with rate 0.95, while the exact name starts at 90 |
| `Schema.ValidateMemory` | api/memory/schema.js:120-147 | `valid` holds exactly when the error list is empty, and exactly when all five field constraints hold |
| `Schema.ValidationReportsEachViolation` | api/memory/schema.js:123-141 | each of the five messages is reported exactly when its constraint is violated |
| `Schema.ErrorsListed` | api/memory/schema.js:121-146 | the reported messages are exactly those paired with a violated constraint |
| `Schema.CreatedMemoryIsValid` | api/memory/schema.js:85-147 | a created record passes validation whenever its id and content are non-empty |
| `MemoryStore.CategoryStat` | api/memory/index.js:74 | the per-category counter key is `category_` followed by the category name |
| `MemoryStore.CategoryStatIsSeparate` | api/memory/index.js:73-74 | no per-category counter key collides with a fixed counter key |
| `MemoryStore.EncodePinned` | api/memory/index.js:60 | writing the pinned flag as `'true'`/`'false'` and reading it back with `=== 'true'` gives the flag back |
| `MemoryStore.Bump` | api/memory/index.js:378-381 | `HINCRBY`: the counter rises by the amount, starting from 0 when missing, and no other counter changes |
| `MemoryStore.ZScore` | api/memory/index.js:155 | a member's score, or null exactly for a non-member |
| `MemoryStore.Boosted` | api/memory/index.js:118-119 | a boost never exceeds 100, never lowers an importance of at most 100, adds 8 below 92 and gives 100 from 92 on |
| `MemoryStore.BoostScenario` | api/memory/index.js:116-119 | an "Active Projects" record starts at 90 and one boost takes it to 98; boosts then stop at 100 |
| `MemoryStore.PowInUnit` | api/memory/index.js:307 | a rate in [0, 1] raised to any whole number of days stays in [0, 1] |
| `MemoryStore.DecayNeverRaises` | api/memory/index.js:306-307 | with a rate in [0, 1], `score * rate ^ days` lies between 0 and the score |
| `MemoryStore.DaysPassed` | api/memory/index.js:284-287 | at least 1; exactly 1 without a stored sweep time or within two days of it; otherwise the number of whole days since that time |
| `MemoryStore.DecayScenario` | api/memory/index.js:284-307 | a second sweep on the same day still decays for one day: 100 at rate 0.95 becomes 95 |
| `MemoryStore.MergeLaws` | api/memory/index.js:220 | the spread merge with no fields leaves the record unchanged, and applying the same update twice equals applying it once |
| `MemoryStore.UpdateErrorMessage` | api/memory/index.js:216-226 | the thrown text is "Memory not found", or "Invalid memory: " followed by the violations joined with ", " |
| `MemoryStore.HitOf` | api/memory/index.js:187-194 | a matching record's hit has relevance 1 for a content match and 0.5 for a category-only match |
| `MemoryStore.HitsOf` | api/memory/index.js:182-198 | the hits collected from a listing of ids: no more hits than ids, and each is a matching record with its relevance |
| `MemoryStore.HitsComplete` | api/memory/index.js:183-196 | every record of the examined ids that matches is among the hits |
| `MemoryStore.HitsSound` | api/memory/index.js:183-196 | every hit is the record of an examined id |
| `MemoryStore.AddKeepsCoherent` | api/memory/index.js:49-70 | adding a record under a fresh id to all four indexes keeps the cross-index invariant |
| `MemoryStore.RescoreKeepsCoherent` | api/memory/index.js:121-135 | rewriting a record in place, with its new importance in the importance set, keeps the invariant |
| `MemoryStore.MoveKeepsCoherent` | api/memory/index.js:229-252 | rewriting a record under a new category and moving its id between the category sets keeps the invariant |
| `MemoryStore.RemoveKeepsCoherent` | api/memory/index.js:268-272 | removing an id from all four indexes keeps the invariant |
| `MemoryStore.RemoveAllKeepsCoherent` | api/memory/index.js:333-343 | removing any set of ids from all four indexes keeps the invariant |
| `MemoryStore.DecayLoop` | api/memory/index.js:295-314 | over any listing of the scored ids, the loop's records, scores and count equal the whole-sweep specification functions |
| `MemoryStore.DecayKeepsCoherent` | api/memory/index.js:309-311 | the sweep writes each new importance to the record and the score together, so the invariant holds |
| `MemoryStore.DecayLowers` | api/memory/index.js:303-307 | with importances in [0, 100] and rates in [0, 1], a sweep only lowers importances, keeps them in range, and leaves pinned records unchanged |
| `MemoryStore.DecayKeepsInvariants` | api/memory/index.js:282-322 | a sweep keeps the invariant, and it keeps the bounds whenever they held before |
| `MemoryStore.PresentAll` | api/memory/index.js:163-167 | when every listed id has a record, the records fetched are exactly theirs, in order |
| `MemoryStore.CategoryScored` | api/memory/index.js:152-156 | under the invariant, every member of a category set is a record of that category, and its looked-up score is its importance |
| `MemoryStore.CategoryTop` | api/memory/index.js:158-169 | the top of the sort is a run of distinct records of the category, ordered by importance from highest, and none left out ranks above one returned |
| `MemoryStore.PruneStep` | api/memory/index.js:336-338 | deleting one more scored id during the sweep advances the sweep's progress predicate |
| `MemoryStore.PruneStops` | api/memory/index.js:333-343 | over an ascending listing, deleting a prefix of ids below the threshold and stopping at the first id that is not below it deletes exactly the ids below the threshold |
| `MemoryStore.PruneLoop` | api/memory/index.js:333-343 | the ids deleted are a prefix of the listing, all below the threshold, and the loop stops at the end or at an id not below it |
| `MemoryStore.PruneSweep` | api/memory/index.js:328-343 | the indexes lose exactly the ids scored below the threshold; every survivor scores at least the threshold; the deletion counter rises by the number pruned |
| `MemoryStore.CountsAddUp` | api/memory/index.js:362-365 | across distinct categories, the sizes of the category sets add up to the number of records filed under them |
| `MemoryStore.CategoryCountsTotal` | api/memory/index.js:357-365 | when every record has a fixed category, the category counts add up to the size of the importance set |
| `MemoryStore.LatestOf` | api/memory/index.js:132-135 | `ZREMRANGEBYRANK 0 -101`: at most 100 ids are kept, each with its timestamp, and none dropped is newer than one kept |
| `MemoryStore.Store.Peek` | api/memory/index.js:84-88 | `getMemory(id, false)`: the stored record, or nothing exactly when the id has none |
| `MemoryStore.Store.IncrementStat` | api/memory/index.js:378-381 | only the named counter changes, by the amount |
| `MemoryStore.Store.Add` | api/memory/index.js:44-77 | the record is `createMemory`'s result, never pinned; four index writes and +1 on `total_memories` and `category_<cat>`; the invariant and the bounds are kept |
| `MemoryStore.Store.Insert` | api/memory/index.js:48-74 | the four index writes and the two counter increments for a record already built |
| `MemoryStore.Store.Boost` | api/memory/index.js:116-138 | the importance becomes `min(100, old + 8)` in the record and the score; the access is stamped and counted; the recency set keeps its 100 latest ids; `total_accesses` rises by 1 |
| `MemoryStore.Store.Rescore` | api/memory/index.js:121-129 | the record and its score are rewritten together; nothing else changes |
| `MemoryStore.Store.Touch` | api/memory/index.js:131-135 | the recency set is stamped with `now` and trimmed to its latest 100 ids; nothing else changes |
| `MemoryStore.Store.Get` | api/memory/index.js:82-111 | returns the pre-boost record or null; null or `boost = false` changes nothing; otherwise it makes the boost writes |
| `MemoryStore.Store.GetByCategory` | api/memory/index.js:143-170 | distinct records of the normalized category, cut by `slice(0, limit)`, ordered by importance from highest, with none left out ranking above one returned; `[]` for an empty set; no boost |
| `MemoryStore.Store.ScoresOf` | api/memory/index.js:153-156 | every listed id gets its `ZSCORE` |
| `MemoryStore.Store.FetchAll` | api/memory/index.js:163-167 | the records of the listed ids that have one, in order |
| `MemoryStore.Store.Search` | api/memory/index.js:175-207 | examines only the 100 highest-scored ids, stopping once `limit` hits are held; the result is those hits sorted by relevance, then importance, from highest, and it is a permutation of them |
| `MemoryStore.Store.Scan` | api/memory/index.js:182-198 | the hits of the ids examined, in order; the scan stops only after reaching `limit` hits |
| `MemoryStore.Store.Update` | api/memory/index.js:212-255 | NotFound or a validation error leaves everything unchanged; otherwise the merged record is written, the score is rewritten only when the update carries an importance, and the id moves sets only for a non-empty new category |
| `MemoryStore.Store.Move` | api/memory/index.js:229-252 | the record and score are rewritten, and the id leaves its old category set for the new one |
| `MemoryStore.Store.ApplyDecay` | api/memory/index.js:282-323 | every non-pinned record's importance becomes `score * rate ^ days` in the record and the score; `days` is `DaysPassed`; the sweep time is stored; the count of decayed records is returned |
| `MemoryStore.Store.Sweep` | api/memory/index.js:291-314 | the sweep over the ascending listing equals the whole-sweep specification functions |
| `MemoryStore.Store.Prune` | api/memory/index.js:328-349 | deletes exactly the ids scored below the threshold, pinned or not; survivors score at least the threshold; `deleted_memories` (when any were deleted) and `pruned_memories` rise by the count |
| `MemoryStore.Store.Delete` | api/memory/index.js:260-277 | false and no change for an absent id; otherwise the id leaves all four indexes, `deleted_memories` rises by 1, and the result is true |
| `MemoryStore.Store.Remove` | api/memory/index.js:268-274 | the four removals and the deletion count, for an id that has a record |
| `MemoryStore.Store.GetStats` | api/memory/index.js:354-373 | the record count, the hot count (never above the record count), the counters, and a count for every category including zero counts; the category counts add up to the total |
| `MemoryStore.DeleteThenGet` | api/memory/index.js:260-277 | after a delete, a read finds nothing and a second delete returns false |
| `SortedSets.ZRange` | api/memory/index.js:292 | every member of the sorted set once, ordered by score |
| `SortedSets.SMembers` | api/memory/index.js:146 | every member of the set once |
| `SortedSets.RankedTop` | api/memory/index.js:180 | `ZREVRANGE 0 99`: the top of a ranking has no repeats, and nothing left out scores above a member taken |
| `Sorting.SortByPermutes` | api/memory/index.js:201-204 | sorting neither adds nor drops an element |
| `Sorting.SortBySorted` | api/memory/index.js:201-204 | the sort's result is ordered from highest |
| `Sorting.TopOfSort` | api/memory/index.js:159-161 | `sort(...).slice(0, n)` is sorted, drawn from the input, and ranks above nothing left out |
| `Strings.JoinSplit` | api/utils/formatter.js:35 | joining the pieces of `split(c)` with `c` gives back the text |
| `Strings.SplitJoin` | api/utils/formatter.js:118 | splitting lines that contain no separator, once joined, gives the lines back |
| `Strings.Split` | api/utils/formatter.js:81 | one more piece than occurrences of the separator, and no piece contains it |
| `Strings.TrimSlice` | api/utils/formatter.js:40 | `trim()` is a block of the text with only white space around it |
| `Strings.PadEnd` | api/utils/formatter.js:114 | `padEnd(n)` extends the text with blanks to length `n`, or leaves it as it is when already that long |
| `Strings.Take` | api/memory/index.js:161 | `slice(0, end)` is a prefix, whose length follows the negative-end rule |
| `Formatter.ParseTableRow` | api/utils/formatter.js:80-84 | one cell fewer than the `\|` characters; no cell contains `\|`; every cell is trimmed |
| `Formatter.ParseTables` | api/utils/formatter.js:33-75 | the one-pass loop returns exactly the blockwise tables of the text |
| `Formatter.ScanClosed` | api/utils/formatter.js:39-72 | the line-by-line reading with no table open equals the blockwise tables |
| `Formatter.ScanOpen` | api/utils/formatter.js:39-72 | the line-by-line reading with a table open equals the blockwise tables from its header line |
| `Formatter.TablesWellFormed` | api/utils/formatter.js:55-72 | every table comes from a header line; it has at least one row; each row is as wide as the headers |
| `Formatter.BlockRowsFromData` | api/utils/formatter.js:53-58 | every row is as wide as the headers and is the cells of a non-separator line of the same run |
| `Formatter.TablesOneLine` | api/utils/formatter.js:35-40 | no title and no cell contains a line feed |
| `Formatter.HeadingTitle` | api/utils/formatter.js:46-49 | a `# text` or `## text` line just above the header gives the title `text` |
| `Formatter.HeadingEdgeCases` | api/utils/formatter.js:46-49 | a line not starting with `#` gives "Table"; `"#"` gives "Table"; `"##"` gives "#"; `"## "` gives "" |
| `Formatter.TableIcon` | api/utils/formatter.js:89-91 | a category's own icon for a category title, the chart icon for any other title, and never empty |
| `Formatter.IconsCoverCategories` | api/utils/formatter.js:6-27 | the icon table has exactly one single-line, non-empty icon per category |
| `Formatter.TruncateCell` | api/utils/formatter.js:139-142 | a cell that fits is unchanged; a longer one becomes a prefix plus "..", of exactly `maxLength` characters when `maxLength >= 2` |
| `Formatter.ShownCells` | api/utils/formatter.js:127 | at most the first three cells, each truncated to 12 |
| `Formatter.WideRow` | api/utils/formatter.js:125-128 | with four or more headers the line starts with the bullet, and three cells that fit are joined by the `  •  ` separator |
| `Formatter.PairRow` | api/utils/formatter.js:129-131 | with two or three headers a two-cell row reads `row[0]: row[1]`, and an empty row reads `undefined: ` |
| `Formatter.PlainRow` | api/utils/formatter.js:132-133 | with fewer headers the cells are joined by blanks |
| `Formatter.WideCells` | api/utils/formatter.js:127-128 | three cells that fit are shown whole and joined by the cell separator |
| `Formatter.FormatTable` | api/utils/formatter.js:96-119 | the loop's text equals the table's rendering: "" for no rows, else the joined lines |
| `Formatter.KeptRows` | api/utils/formatter.js:106-115 | a row gets a framed line exactly when not all of its cells are placeholders, in order |
| `Formatter.TableShape` | api/utils/formatter.js:101-118 | a table with rows renders to `icon title`, the top frame, one line per kept row, then the bottom frame |
| `Formatter.FormatMemoryForTelegram` | api/utils/formatter.js:148-183 | the method's reply equals the reply function over the parsed tables |
| `Formatter.RenderTables` | api/utils/formatter.js:170-175 | each table formatted in turn and followed by a blank line, skipping those that render to "" |
| `Formatter.SelectedTables` | api/utils/formatter.js:159-163 | the section filter keeps exactly the tables whose title contains some section, both lowered |
| `Formatter.SelectedAll` | api/utils/formatter.js:158 | with no sections every table is kept |
| `Formatter.ShownBound` | api/utils/formatter.js:166-167 | a positive limit caps the tables shown; no limit shows all selected; the shown tables are a prefix of the selected ones |
| `Formatter.MoreNoteWhenLimited` | api/utils/formatter.js:177-180 | the "... and N more sections." note appears exactly when a limit was given and more tables were parsed than the limit |
| `Formatter.ReplyCases` | api/utils/formatter.js:151-153 | no tables give "📊 No memory data found."; the reply is never empty |

## Left out

- Redis connection handling (`getRedis`, `close`, timeouts, the error handler): the backend is modelled as maps held in the `Store` object.
- String serialization of the record hash (`parseFloat`, `parseInt`, `JSON.stringify`/`JSON.parse`): records are stored as typed values. Only the `pinned` encoding is modelled (`EncodePinned`/`DecodePinned`).
- `exportAsMarkdown`: it depends on the locale-dependent `toLocaleDateString` and on floating-point `toFixed`.
- `generateId` and `Date.now()`: they are the parameters `id` and `now`. `addMemory` and `boostMemory` each call `Date.now()` twice; one `now` stands for both calls.
- Default arguments: the model's callers always pass every argument. The JavaScript defaults are the named constants `DEFAULT_CONFIDENCE` (80, `addMemory`), `DEFAULT_BOOST` (true, `getMemory`), `CATEGORY_LIMIT` (20, `getMemoriesByCategory`), `SEARCH_LIMIT` (10, `searchMemories`) and `PRUNE_THRESHOLD` (10, `pruneMemories`) in `MemoryStore`.
- `MemoryStore.Store.Add` requires an id not yet stored, because the generated id is random and assumed fresh.
- IEEE-754 arithmetic and `Math.pow`: importance and rates are exact reals. NaN and infinities do not arise.
- JavaScript's dynamic typing: the model is typed, so the `typeof` tests in `validateMemory` always pass. A missing string (`undefined`, `null`) is the empty string. A missing `options.limit` is 0, and missing `options.sections` is the empty list.
- `toLowerCase` is modelled for ASCII letters only (`Strings.Lower`). The category names are ASCII, but the other side of each comparison is arbitrary text: the category input (`api/memory/schema.js:111`), the search query and memory content (`api/memory/index.js:177`, `api/memory/index.js:187`), and table titles and requested sections (`api/utils/formatter.js:161`). Non-ASCII capitals in that text are not lowered. So the model's category matching, search and section filter can miss where JavaScript matches: `"CAFÉ"` does not contain `"café"` in the model, and the Kelvin sign `"\u212Aey"` falls back instead of matching "Key Dates & Milestones".
- Lookups in the plain object literals `DEFAULT_IMPORTANCE_BY_CATEGORY`, `DEFAULT_DECAY_RATES` (`api/memory/schema.js:93`, `api/memory/schema.js:98`) and `TABLE_ICONS` (`api/utils/formatter.js:90`) are modelled as map lookups. A key that names an inherited `Object.prototype` property (`constructor`, `toString`, `valueOf`, `__proto__`, …) is a miss in the model, falling back to 70, 0.95 or the chart icon. In JavaScript it finds that property: `createMemory` then stores a function as the importance and decay rate, and `getTableIcon` returns a function's source text.
- String lengths count Unicode code points, not UTF-16 code units. This matters only for `truncateCell` and `padEnd` on text outside the Basic Multilingual Plane.
- The relative order of ids with equal scores in `ZRANGE`/`ZREVRANGE`, the choice among ids with equal timestamps when `ZREMRANGEBYRANK` trims the recency set (`MemoryStore.KeepsLatest`, `MemoryStore.LatestOf`), and the order of `SMEMBERS`: the model leaves them unspecified. The backend breaks such ties by member order.
- Concurrency and interleaving of the awaited backend calls: the model is sequential, one operation at a time.
- Backend failures partway through an operation are not modelled.
- `api/admin.js`, `api/agent/planner.js`, `api/webhook.js`, `api/cron.js`, `public/sw.js` and `scripts/migrate-memories.js` are HTTP, chat-platform, LLM and browser glue. They are not part of this model.
