# sqlighter: the SQLite data connection and the query tab, in Dafny

This project models two pieces of the sqlighter database browser.

The first is the SQLite data connection (`SqliteDataConnection`). Its factory
validates a configuration, opens an in-memory database from a byte buffer through
the sql.js engine, and appends the connection to the process-wide connection list.
`getResults` runs SQL and returns every result set; `getResult` demands exactly one.
`getSchema` reads SQLite's `sqlite_schema` catalog table, parses each stored
`CREATE ...` text with sqlite-parser, sorts the entities by kind (table, index,
view, trigger) and then by name, and caches the result until a refresh is asked for.

The second is the query tab's run handler. It puts a "running" result tab in front
of the existing tabs, runs the editor's SQL, and then shows one completed tab per
result set (or one error tab) in front of the old tabs. The tab's command handler
replaces the tab list or the SQL text.

Files:

- `wrappers.dfy`: `Option` and `Result`.
- `errors.dfy`: the exceptions the code throws or passes on, and their `toString()` text.
- `text.dfy`: printing a non-negative integer in decimal, and reading it back.
- `engine.dfy`: the sql.js engine and sqlite-parser, as values holding functions.
  The caller supplies them; the model never looks inside.
- `schema.dfy`: schema entities, building them from catalog rows, and their order.
  It also holds the in-place insertion sort of the entity array.
- `sqlite.dfy`: configuration checks, the connection registry, and the connection class.
- `querytab.dfy`: result tabs, the run handler and the command handler.

The connection is a class. `_database` becomes the field `database`, the image the
engine works on. `_schema` becomes `schema`, with `None` standing for `undefined`.
The static `_connections` array becomes a `Registry` object, passed by reference to
`Create`. The ghost field `executed` records every SQL text sent to the engine, so a
contract can say when no catalog query was issued. The query tab is a class holding
its three pieces of React state: `tabId`, `tabs` and `sql`.

Where the broader design intent and the code differ, the model follows the code:

- An engine failure is passed on as the engine's own exception. It is not wrapped
  with a statement index.
- A parse failure rethrows the parser's exception unchanged. The catalog kind and
  name only go to the log.
- An entity's name comes from the parsed statement: its own name, or else its
  target's name. The catalog's `tbl_name` is never used as a fallback.
- Nothing enforces that `(kind, name)` pairs are unique in a schema.
- The connection list can only be appended to. No list or dispose operation exists
  in the code modelled here.

## Model

| member | source | states |
|---|---|---|
| `Sqlite.ValidateConfigs` | app/lib/sqltr/databases/sqlite.ts:22-30 | creation goes ahead exactly when the client is "sqlite3" and the descriptor carries a buffer; a connection string fails with "Not implemented yet" before anything else is checked; another client or a missing buffer fails with the in-memory-only error; a missing descriptor makes reading `buffer` throw |
| `Sqlite.SqliteDataConnection.Create` | app/lib/sqltr/databases/sqlite.ts:21-71 | succeeds exactly when validation and the engine's open succeed; on success the new connection is fresh, has no cached schema, holds the opened image and is appended once at the end of the registry, with the earlier entries untouched; on failure the registry is unchanged and the error is passed on |
| `Sqlite.SqliteDataConnection.GetResults` | app/lib/sqltr/databases/sqlite.ts:146-153 | returns the engine's result sets unchanged, or its exception; the database becomes what the engine left; the cached schema is untouched |
| `Sqlite.SingleResult` | app/lib/sqltr/databases/sqlite.ts:156-162 | succeeds exactly when there is exactly one result set, and then returns it; any other count fails with an error carrying the SQL and the count; an exception from `getResults` passes through |
| `Sqlite.SqliteDataConnection.GetResult` | app/lib/sqltr/databases/sqlite.ts:156-162 | its outcome is the cardinality check applied to what `getResults` returns for the same SQL |
| `Sqlite.SqliteDataConnection.GetSchema` | app/lib/sqltr/databases/sqlite.ts:87-129 | with a cached schema and no refresh (an empty cached schema included), returns the cache and sends nothing to the engine; otherwise sends the catalog query once, through the single-result check, and fails exactly when that query or some row's parse fails, then keeping the previous cache; on success it caches and returns a kind-then-name sorted permutation of the parsed entities; a cached schema is always sorted |
| `Sqlite.SchemaMatchesCatalog` | app/lib/sqltr/databases/sqlite.ts:92-114 | a stored schema has exactly as many entities as the catalog has rows with SQL text; every entity is the one some row's text describes, and every such row's text is described by some entity |
| `Schema.ParseEntity` | app/lib/sqltr/databases/sqlite.ts:98-103 | parsing succeeds exactly when the parser accepts the text and returns at least one statement; the entity keeps the SQL text, takes its kind from the statement's format and its name from the statement's own name (if non-empty) or else its target's; a parser exception is passed on |
| `Schema.CollectEntitiesMeaning` | app/lib/sqltr/databases/sqlite.ts:93-115 | the row loop succeeds exactly when every row with SQL text parses, and then yields one entity per such row, in catalog order; rows without SQL text are skipped; otherwise it fails with the error of the first text that does not parse |
| `Schema.CollectPrefixFailure` | app/lib/sqltr/databases/sqlite.ts:104-110 | once a row fails to parse, the whole loop fails with that error, whatever rows follow |
| `Schema.CollectEntitiesIgnoresLabels` | app/lib/sqltr/databases/sqlite.ts:94-103 | the catalog's `type` and `tbl_name` cells play no part in the result: rows that agree on their SQL text give the same entities |
| `Schema.EntityLeTotal` | app/lib/sqltr/databases/sqlite.ts:118-124 | any two entities are ordered one way or the other by kind rank, then name |
| `Schema.EntityLeTransitive` | app/lib/sqltr/databases/sqlite.ts:118-124 | the kind-then-name order is transitive |
| `Schema.EntityLeMatchesComparator` | app/lib/sqltr/databases/sqlite.ts:118-124 | for named entities, `a` may precede `b` exactly when the source's comparator does not put `b` strictly first |
| `Schema.TextLeAntisymmetric` | app/lib/sqltr/databases/sqlite.ts:123 | two strings each no greater than the other are equal |
| `Schema.SortSchema` | app/lib/sqltr/databases/sqlite.ts:117-124 | after the in-place sort, the kind rank never decreases and names never decrease within a kind, and the array is a permutation of what it held |
| `Text.DecimalValue` | app/lib/sqltr/databases/sqlite.ts:159 | a count printed in decimal reads back as the same count, so error messages and tab titles distinguish different numbers |
| `QueryTab.QueryTab.ShowRunning` | app/components/database/querytab.tsx:62-73 | before the query runs, the tab list is the new running tab followed by the old tabs in their order, and the running tab is selected |
| `QueryTab.SpliceResultTabs` | app/components/database/querytab.tsx:88-101 | the splice loop inserts the extra tab for result set i at index i, so the extra tabs end up in result order between the first tab and the old tabs |
| `QueryTab.QueryTab.RunQuery` | app/components/database/querytab.tsx:59-114 | the final tab list is the one determined by the old tabs and the outcome of `getResults` (a missing connection throws when read); the running tab stays selected and the SQL is unchanged; the connection changes only as `getResults` changes it |
| `QueryTab.SuccessShape` | app/components/database/querytab.tsx:80-102 | with n ≥ 1 result sets the list is n new tabs followed by the old tabs, with length old + n; tab i is completed and shows result set i's columns and values; the first keeps the running tab's id; titles are the start time alone when n = 1, and the start time plus " (i+1)" otherwise |
| `QueryTab.ErrorShape` | app/components/database/querytab.tsx:75-107 | when the query throws, including for a missing connection or zero result sets, exactly one error tab with the exception's text is added in front of the unchanged old tabs |
| `QueryTab.QueryTab.HandleCommand` | app/components/database/querytab.tsx:116-129 | `tabs.changeTabs` replaces the selected id and the tab list with the command's arguments; `editor.changeValue` replaces only the SQL; any other command, or one without arguments, changes nothing |

## Left out

- The sql.js engine and sqlite-parser are foreign code. They appear only as functions
  the caller supplies (`Engine.open`, `Engine.exec`, `Parser`). The catalog query's
  `not like 'sqlite_%'` filter runs inside the engine and is part of `Engine.exec`.
- Parser statements are reduced to their format, name and target. Kinds are limited
  to table, index, view and trigger, the four the sort's precedence map covers.
- `async`/`await`, console logging and `delay(500)` are left out; every operation runs
  to completion in sequence.
- The clock, `toLocaleTimeString` and `generateId` are replaced by values fixed in
  advance (`Stamps`).
- `getTree` returns `null` and is not modelled.
- The `DataConnection` base class (`app/lib/sqltr/connections.ts`) is not part of
  this model. Its constructor is taken to do nothing observable.
  `Create` therefore opens the buffer before constructing the connection object;
  the source constructs it first.
- `Schema.SortSchema`: only sortedness and permutation are stated. The exact order
  that `Array.prototype.sort` gives to equal keys is not modelled. Neither is the
  comparator that never returns 0.
- Names are compared character by character on code points. JavaScript compares
  UTF-16 code units.
- An entity without a name is ordered first among its kind. The source's comparator
  has no consistent answer for `undefined` names.
- A catalog row counts as carrying SQL only when its third cell is a non-empty
  string. Non-string truthy cells never occur in `sqlite_schema`.
- `getSchema` returns the cached array itself, so a caller could mutate the cache.
  The model returns an immutable sequence and does not capture that aliasing.
- Exception text: sqlite-parser's own error class name is not modelled; its errors
  print as `Error: <message>`.
- Command arguments with missing individual fields are not modelled. Neither are
  commands whose arguments are present but hold values of the wrong type.
- React rendering, the batching of state setters, and the re-render between
  `ShowRunning` and the end of the run are not modelled. The list's elements are
  modelled by the result-panel properties they are built from.
- `Splice` covers the start positions the handler uses. Negative starts are not
  modelled.
