# Near-Earth-object catalogue: loading, filtering and searching

This project models the core of a catalogue of near-Earth objects (NEOs) in Dafny and proves
properties of that model. The core has three parts.

- **The record types** (`models.dfy`, module `Models`). A near-Earth object and its orbit path
  (one close-approach event) are both built from one row of keyword arguments. A missing key
  aborts construction with a key error, and `update_orbits` attaches to an object the orbit
  path built from its own row.
- **The record store** (`database.dfy`, module `Database`). `NEODatabase` holds three things:
  - a date index from each close-approach date to the objects recorded on that date, with
    the index's keys in insertion order;
  - a name index from an object's name to its orbit path;
  - a file name.
  `LoadData` walks the rows of the data file. It files each row's object under the row's date,
  creating the list when the date is new. It records the orbit path under the row's name
  unless that name is already a key of the *date* index.
- **The search** (`query.dfy`, `filter.dfy`, `search.dfy`; modules `Queries`, `Filters` and
  `Searcher`). A `Query` copies its options into `Selectors`. `NEOSearcher.GetObjects` then
  works in three steps:
  1. It picks candidates by date: the exact date, else an inclusive range when both bounds
     are given (walking the index keys in insertion order), else nothing.
  2. It splits each `field:operation:value` string at its last two colons. It applies the
     filters left to right, each to the previous output.
  3. It truncates the result to the requested number.

Every loop of the source, and every update of the store's and the searcher's state, is an
imperative Dafny method; the record constructors and `update_orbits` are functions on values
(see the line on objects under "Left out"). Each method is proved against a value-level
specification function, and the properties are proved about those functions:
- `NEODatabase.LoadData`, `IndexRows`, `OpenDate` and `FileRow` are proved against `LoadRows`,
  `Open` and `Append` (one filing step, `File`, is `Open` followed by `Append`).
- `Filter.Apply` is proved against `ApplyFilter` and `Select`.
- `NEOSearcher.GetObjects` is proved against `Search`, with `SelectByDate`, `FilterInOrder`
  and `FirstItems` proved against `Candidates`, `ApplyFilters` and `Truncate`.

Conventions of the model:
- **Rows.** Keyword-argument rows are `Row` values. A field is `None` when the key is absent.
- **Dates.** Dates are strings compared by code point (`LexLe`), as Python compares strings.
- **Number conversion.** `float` is the parameter `toFloat`. It returns `None` where the
  conversion would raise.
- **Reading the file.** The rows of the data file are the parameter `rows` of `LoadData`.

Behaviour of the code worth noting:
- Range results come in the date index's insertion order, not in ascending date order.
- An unrecognised filter field yields an empty list. It does not raise an error.
- A filter string may hold any number of colons. The greedy pattern cuts the first line that
  holds two colons at its last two colons.
- A row whose object cannot be built is not skipped. The exception is reported, and the row is
  filed with the previous row's object (`StaleObjectFiled`). A row whose orbit path cannot be
  built stops the load.
- When no object was built before, such a row stops the load instead: the row's date is
  opened first, so a new date is left with an empty list, and then appending the unbound
  object fails (`LoadRowsUnbound`).
- The `rows` parameter is more general than a data file here. A file gives every row the same
  columns, so its rows build their objects all or none. For a file, a failing object
  constructor therefore always stops the load on the first row, and no stale object is filed
  (`OneFileLoad`).
- The name index maps names to orbit paths. Its guard tests the date index.
- Queries are not validated. A negative number gives an empty result, and conflicting
  selectors are resolved by precedence (the exact date wins).

## Model

| member | source | states |
|---|---|---|
| Models.NewOrbitPath | starter/models.py:40-48 | construction succeeds exactly when name, date and distance are all present; `neoName`, date and distance are copied from them; otherwise the error names the first missing key in read order |
| Models.NewNearEarthObject | starter/models.py:8-19 | construction succeeds exactly when all six keys are present; it keeps the whole row as `orbitInfo`, copies id, name, diameter, hazard flag, date and distance, and leaves `orbits` unset; otherwise the error names the first missing key in the order of lines 14-19 |
| Models.NearEarthObject.UpdateOrbits | starter/models.py:21-30 | the argument is ignored; it succeeds exactly when the object's own row yields an orbit path, and then only `orbits` changes, to that path; otherwise the error names the key missing from the row, as the orbit path constructor reports it |
| Models.UpdateOrbitsOwnFields | starter/models.py:21-30 | on a constructed object `update_orbits` always succeeds, and the path carries the object's own name, date and distance |
| Models.UpdateOrbitsIdempotent | starter/models.py:30 | a second `update_orbits` leaves an equal object |
| Database.ObjectOf | starter/database.py:49-50 | the object loading files for a well-formed row is the constructed object after `update_orbits`, holding the row and its orbit path |
| Database.NextObject | starter/database.py:47-52 | after the constructor call on a row, the bound object is the new one with its orbit path when construction succeeds (exactly `ObjectOf` of the row), and the previously bound one when the exception is swallowed |
| Database.LoadRowsStep | starter/database.py:44-65 | on a well-formed row, one turn files that row's own object and orbit path |
| Database.LoadRowsNoError | starter/database.py:44-65 | well-formed rows load without error |
| Database.LoadRowsError | starter/database.py:47-53 | a load can only stop on a missing name, date or distance key, or on the unbound object of a first row whose object could not be built |
| Database.Open | starter/database.py:57-61 | a date not yet indexed gets an empty list placed last in the key order; an indexed date, every other list and the name index are left as they are; the key order is kept |
| Database.Append | starter/database.py:58-65 | the object is added at the end of its date's list, every other list and the key order are kept, and the orbit path is recorded under the name exactly when the name is not a date key |
| Database.LoadRows | starter/database.py:44-65 | specification of the loading loop; its properties are stated by `LoadRowsStep`, `LoadRowsNoError`, `LoadRowsError`, `LoadRowsUnbound`, `LoadRowsValid`, `LoadRowsPerDate`, `LoadRowsKeys` and the name-index lemmas |
| Database.File | starter/database.py:57-65 | specification of filing one row: `Open` followed by `Append`; its properties are stated by `FileValid` and `FileLookup` |
| Database.FileValid | starter/database.py:57-62 | filing one object keeps every date listed once in insertion order, appends a new date at the end, and leaves no list empty when none was |
| Database.LoadRowsValid | starter/database.py:44-65 | any load, complete or stopped, keeps every date listed once in insertion order, and dates listed before keep their place; no list is left empty unless the load stopped on an unbound object |
| Database.LoadRowsUnbound | starter/database.py:47-62 | a load stops on an unbound object exactly when nothing was bound before and the first row's object cannot be built while its orbit path can; the store is then left with that row's date opened and nothing filed |
| Database.OneFileLoad | starter/database.py:44-62 | for rows that all carry the same columns, as a file's rows do, a fresh load completes exactly when every row is well formed, and otherwise stops on the first row, unbound or on a missing orbit path key |
| Database.LoadRowsSound | starter/database.py:57-62 | loading well-formed rows files every object under its own date, built from its own row |
| Database.LoadRowsPerDate | starter/database.py:57-62 | each date's list becomes the earlier list followed by that date's rows' objects, in row order |
| Database.LoadRowsKeys | starter/database.py:57-62 | the keys of the date index become the earlier keys together with the dates of the rows |
| Database.ObjectsOnMembers | starter/database.py:57-62 | an object is among a date's new entries exactly when it was built from one of the rows of that date |
| Database.LoadTwiceDoubles | starter/database.py:57-62 | loading the same rows twice appends each date's objects twice |
| Database.NameIndexLastWins | starter/database.py:64-65 | a name that never becomes a date key maps to the orbit path of the last row with that name, or keeps its earlier entry |
| Database.NameIndexShadowedByDate | starter/database.py:64-65 | a name that already is a date key is never written into the name index |
| Database.StaleObjectFiled | starter/database.py:47-62 | a row whose object constructor fails but whose orbit path builds is filed with the previous row's object |
| Database.NEODatabase.constructor | starter/database.py:14-22 | the file name is stored and both indexes start empty |
| Database.NEODatabase.OpenDate | starter/database.py:57-61 | the new state is `Open` of the old one: a new date gets an empty list, placed last in the key order |
| Database.NEODatabase.FileRow | starter/database.py:58-65 | the new state is `Append` of the old one: the object is appended to its date's list, then the orbit path recorded under the name unless the name is a date key |
| Database.NEODatabase.IndexRows | starter/database.py:42-65 | the loop's final state and error are those of `LoadRows` on the state before it |
| Database.NEODatabase.LoadData | starter/database.py:24-65 | with no usable file name from the argument or the constructor, fails with `NoFilenameProvided` and changes nothing; otherwise the argument's name wins, and the indexes and outcome are those of `LoadRows` over the rows; the key order is always kept, and no list is left empty unless the load stopped on an unbound object |
| Database.LoadDataSound | starter/database.py:44-65 | from a sound store, well-formed rows load without error into a well-formed, sound store |
| Filters.Lower | starter/search.py:126 | lower-casing keeps the length and maps each ASCII capital to its small letter |
| Filters.FieldCaseInsensitive | starter/search.py:126-175 | the field name is matched without regard to case |
| Filters.FieldOf | starter/search.py:126-175 | `diameter`, `distance` and `is_hazardous` are recognised exactly when the lower-cased field equals them |
| Filters.ComparisonOf | starter/search.py:128-148 | `>=`, `>`, `<=` and `<` select their comparisons; every other token means equality |
| Filters.Select | starter/search.py:129-131 | specification of one comparison loop; its properties are stated by `SelectMembers`, `SelectSubsequence`, `SelectIdempotent` and `SelectCommutes` |
| Filters.SelectMembers | starter/search.py:129-131 | an element is kept exactly when it is in the input and meets the criterion |
| Filters.SelectSubsequence | starter/search.py:124-187 | the result of a selection is an order-preserving subsequence of its input |
| Filters.SelectIdempotent | starter/search.py:124-187 | selecting twice by the same criterion is selecting once |
| Filters.SelectCommutes | starter/search.py:124-187 | two selections commute |
| Filters.SplitLastTwo | starter/search.py:243-246 | the operation and value hold no colon, and the three parts rejoined with colons give the line back |
| Filters.FirstLine | starter/search.py:243 | the first line is a prefix without a line break, followed by a line break when shorter than the text |
| Filters.ParseFilter | starter/search.py:243-246 | the parts of a match hold no line break, and the operation and value hold no colon |
| Filters.ParseFilterRoundTrip | starter/search.py:243-246 | joining three parts with colons and splitting again returns them, whenever the last two parts hold no colon and no part holds a line break |
| Filters.ParseFilterFewColons | starter/search.py:243-244 | a string with fewer than two colons has no match, so indexing the match list fails |
| Filters.ParseFilterOneLine | starter/search.py:243-246 | a one-line string matches exactly when it holds two colons, and is then cut at its last two |
| Filters.ApplyFilter | starter/search.py:116-187 | specification of `Filter.apply`; its properties are stated by the `ApplyFilter…` lemmas below |
| Filters.ApplyFilterSelects | starter/search.py:116-187 | a filter with a criterion is the order-preserving selection by that criterion |
| Filters.ApplyFilterSubsequence | starter/search.py:124-187 | a filter returns an order-preserving subsequence of its input |
| Filters.ApplyFilterIdempotent | starter/search.py:124-187 | applying the same filter to its own output changes nothing |
| Filters.ApplyFilterNumeric | starter/search.py:126-173 | a diameter or distance filter keeps an element exactly when its measure compares with the number as the operator says, equality for any unlisted operator |
| Filters.ApplyFilterHazard | starter/search.py:175-185 | the operator is ignored; the value "false" in any case keeps exactly the objects not flagged hazardous, any other value exactly the flagged ones |
| Filters.ApplyFilterOutcomes | starter/search.py:116-187 | an unrecognised field or an empty input gives the empty list, and a filter fails exactly when it is numeric, the input is non-empty and the value is not a number |
| Filters.Filter.constructor | starter/search.py:90-100 | field, candidate list, operation and value are stored as given |
| Filters.Filter.Apply | starter/search.py:116-187 | the collected list, or the conversion error, is `ApplyFilter` of the filter's parts on the input |
| Queries.Query.constructor | starter/search.py:35-57 | each option is unset unless its keyword argument is given, and then holds that argument unchanged |
| Queries.Query.BuildQuery | starter/search.py:59-70 | the selectors carry the options unchanged, the date as the date searched for |
| Searcher.LexLe | starter/search.py:236 | string comparison by code point; `LexLeReflexive`, `LexLeAntisymmetric` and `LexLeTransitive` state that it is an order |
| Searcher.LexLeTransitive | starter/search.py:236 | the string order is transitive |
| Searcher.Candidates | starter/search.py:223-238 | specification of the date selection; its properties are stated by `ExactDatePrecedence`, `NoRangeEmpty`, `RangeMembers` and `OneDayRange` |
| Searcher.RangeCandidates | starter/search.py:233-237 | specification of the range loop over the keys in insertion order; its properties are stated by `RangeMembers`, `InvertedRangeEmpty` and `OneDayRange` |
| Searcher.RangeMembers | starter/search.py:233-237 | an object is a range candidate exactly when it lies in the list of some key between the bounds |
| Searcher.InvertedRangeEmpty | starter/search.py:233-237 | a range whose start lies after its end selects nothing |
| Searcher.OneDayRange | starter/search.py:233-237 | with distinct keys, the range from a date to itself is that date's list |
| Searcher.ApplyFilters | starter/search.py:240-248 | specification of the filter loop; its properties are stated by `ApplyFiltersAppend`, `ApplyFiltersSubsequence`, `ApplyFiltersEmpty` and `FiltersCommute` |
| Searcher.ApplyFiltersAppend | starter/search.py:241-248 | filters run in list order, each on the previous output, and an error stops the rest |
| Searcher.ApplyFiltersSubsequence | starter/search.py:241-248 | the filtered list is an order-preserving subsequence of the candidates |
| Searcher.ApplyFiltersEmpty | starter/search.py:241-248 | on no candidates the filters yield the empty list, unless some filter string does not match, which is then the error |
| Searcher.FiltersCommute | starter/search.py:241-248 | two filters that both have a criterion give the same result in either order |
| Searcher.Truncate | starter/search.py:250-262 | the result is a prefix of the list: the whole list without a number, else of length min(len, max(number, 0)) |
| Searcher.Search | starter/search.py:221-262 | specification of `get_objects`; its properties are stated by `SearchSubsequence`, `SearchTruncates`, `ExactDateResults`, `RangeResults` and the other `Search…` lemmas |
| Searcher.SearchSubsequence | starter/search.py:221-262 | a search result is an order-preserving subsequence of the date candidates |
| Searcher.SearchIgnoresReturnObject | starter/search.py:206-262 | the requested return kind does not affect the result |
| Searcher.SearchTruncates | starter/search.py:250-262 | a result with a number is a prefix of the result without one, of length min(len, max(number, 0)) |
| Searcher.ExactDatePrecedence | starter/search.py:224-238 | with an exact date the candidates are that date's list, or empty for an unknown date, whatever the range bounds |
| Searcher.ExactDateResults | starter/search.py:224-228 | over a sound store, an exact-date search returns only objects of that date's list, all of that date |
| Searcher.RangeResults | starter/search.py:233-237 | over a sound store, a range search returns only objects dated within the bounds |
| Searcher.NoRangeEmpty | starter/search.py:230-232 | without an exact date, a half-open range or no range gives no candidates, so the result is empty unless a filter string does not match |
| Searcher.OneDayRangeIsExactDate | starter/search.py:224-237 | over a well-formed store, a one-day range finds exactly what the exact date finds |
| Searcher.NEOSearcher.constructor | starter/search.py:197-204 | the searcher keeps the database it was given |
| Searcher.NEOSearcher.GetObjects | starter/search.py:206-264 | the returned list or error is `Search` over the database's current indexes; the database is only read |
| Searcher.NEOSearcher.SelectByDate | starter/search.py:223-238 | the candidate list is the exact date's list, the range's lists joined in key insertion order, or empty |
| Searcher.FilterInOrder | starter/search.py:240-248 | the loop's result is `ApplyFilters` of the filter strings on the candidates |
| Searcher.FirstItems | starter/search.py:256-260 | on a longer list, the copied items are the first `number` ones, none for a negative number |

## Left out

- Reading the data file: `pd.read_csv` and the per-cell copy into the keyword mapping are replaced by the `rows` parameter. Extra columns, missing cells, NaN values and pandas type conversion are not modelled.
- Logging, the `print` of a swallowed constructor exception, the `finally` log line and `starter/writer.py` are output only and are left out. `starter/logger.py` is not part of this model.
- Number conversion is the parameter `toFloat`. Floating-point semantics (NaN, infinities, rounding) are not modelled: measures and bounds are exact reals.
- `Filters.Lower`: lower-cases ASCII letters only. `str.lower` also maps non-ASCII capitals.
- `Filter.create_filter_options`, the empty `Filter.Options` and `Filter.Operators` tables, the `DateSearch` enum and `Query.DateSearch` and `Query.ReturnObjects` are left out. None of them is used by the modelled operations.
- A near-Earth object is a value, not a mutable object, so object identity and aliasing are not modelled. Objects are never changed after they are filed, so only identity is lost. An `orbits` attribute that was never set is `None`.
- The stored copy of the keyword arguments in an orbit path (`orbitpath_data`) is never read and is not modelled.
- The source is dynamically typed. Type errors, such as a non-integer number or non-string dates, are not modelled: the types of `QueryArgs` exclude them.
- A query keyword given the value `None` reads the same as an absent keyword. The model does not tell the two apart.
- Error texts are not modelled; errors are constructors of `LoadError` and `FilterError`.
- The searcher reads the indexes through the database it holds. The source's own references to the two dictionaries are the same objects, so the searcher sees every later load in both forms.
