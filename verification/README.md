# Drilling telemetry ingestion core, modelled in Dafny

This project models the ingestion service of a drilling-telemetry back end
(`data_ingestion/main.py`). A client posts a sample of seven sensor
readings to `/ingest`. The service takes the analyzer's derived fields
(a predicted rate of penetration and four alert flags) and stamps the
payload with the current time. With the INSERT's placeholder count
corrected (see Findings), it then commits one row to the
`drilling_events` table and attaches a priority band (LOW, MEDIUM or HIGH)
derived from the number of raised alerts. Next it sends the enriched payload
to every websocket subscriber, in list order. Finally it acknowledges with
`{"status": "broadcasted", "alerts": [...]}`. Two read paths serve the table.
`/history` returns at most fifty rows, newest first, with alerts read back as booleans.
`/export` returns a CSV header followed by every row, newest first. The `/ws`
endpoint appends its connection to the subscriber list and removes it on exit.

Files and modules:

- `telemetry.dfy`, module `Telemetry`: sample, derived fields, event,
  message, the analyzer's result as an ordered dictionary, the active-alert
  list and the priority band.
- `rows.dfy`, module `Rows`: the thirteen-column row, the `int(flag)` and
  `bool(...)` codec, and the column order shared by the table, the history
  entries and the export header.
- `statement.dfy`, module `Statement`: the INSERT statement and the two
  checks sqlite3 makes on it (see Findings).
- `queries.dfy`, module `Queries`: `ORDER BY timestamp DESC` as an insertion
  sort (equal timestamps: later-inserted first), plus history and export.
- `server.dfy`, module `Ingestion`: the service state as a class. It holds
  the table rows, the subscriber list and an ordered trace of effects: row
  commits and per-subscriber sends. `Ingest`, `Join` and `Leave` are its
  methods.

Modelling choices:

- Timestamps are natural numbers supplied by the caller; the clock is a
  parameter of `Ingest`. Sensor readings are `real` values that are only copied.
- The analyzer (`edge.processor.process_data`) is not part of this model. Its
  result is the `Derived` parameter of `Ingest`. It is viewed as a dictionary
  with `predicted_rop` followed by the four alert keys, in the row's column order.
- A websocket is a natural-number identity. `Join` appends it without a check,
  as `list.append` does. `Leave` removes the first occurrence, as `list.remove`
  does, and reports a connection that is not listed (Python raises
  `ValueError` there) by returning `false` and changing nothing.
- Persistence before broadcast is stated over the effect trace. Each ingest
  appends `Persisted(row)` and then one `Sent(conn, message)` per subscriber.
  `Valid()` keeps the invariant that every send follows the commit of its
  event's row. It also keeps the table equal to the preexisting rows plus
  every committed row.
- Priority is never stored. `Row` has no priority column, and `Encode` takes
  the event without its priority.
- SQL leaves the order of rows with equal timestamps unspecified. The model
  puts the later-inserted row first. When timestamps strictly increase in
  insertion order, no two rows tie: export returns exactly the reverse of
  insertion order, and history its first min(n, 50) rows
  (`SortOfChronologicalIsReverse`).

## Model

| member | source | states |
|---|---|---|
| `Telemetry.ActiveKeysMembership` | data_ingestion/main.py:58 | `ActiveKeys`, the comprehension: for any analyzer dictionary, a key is in the active list exactly when some entry under it holds a bool that is true |
| `Telemetry.ActiveKeysAppend` | data_ingestion/main.py:58 | `ActiveKeys`, the comprehension, over a concatenated dictionary lists the first part's active keys, then the second's |
| `Telemetry.ActiveKeysOfEntries` | data_ingestion/main.py:58 | for the analyzer's five fields, the active list is the raised flags in column order; the numeric `predicted_rop` never appears |
| `Telemetry.ActiveAlertsOfDerived` | data_ingestion/main.py:58 | the `alerts` list names exactly the raised flags, each once, never `predicted_rop`; its length is the number of raised flags |
| `Telemetry.AlertCount` | data_ingestion/main.py:58-59 | the number of raised flags is at most four, and is zero exactly when no flag is raised |
| `Telemetry.PriorityOf` | data_ingestion/main.py:59 | total: LOW exactly for 0 active alerts, MEDIUM exactly for 1 or 2, HIGH exactly for 3 or more |
| `Telemetry.PriorityOfDerived` | data_ingestion/main.py:58-59 | an ingest's priority depends only on the raised-flag count: LOW for 0, MEDIUM for 1 or 2, HIGH for 3 or 4 |
| `Telemetry.PriorityMonotone` | data_ingestion/main.py:59 | more active alerts never give a lower band |
| `Rows.EncodeFlag` | data_ingestion/main.py:53-54 | `int(flag)` is 0 or 1, and nonzero exactly when the flag is true |
| `Rows.DecodeFlag` | data_ingestion/main.py:73-75 | `bool(i)` inverts `int(flag)` on every stored 0/1 value |
| `Rows.Encode` | data_ingestion/main.py:50-55 | the 13-value row holds 0/1 in its alert columns, and decoding it gives back the event: raw fields, `predicted_rop`, flags and timestamp |
| `Rows.Decode` | data_ingestion/main.py:69-77 | a history entry copies the timestamp, the seven raw readings and `predicted_rop` unchanged from the row |
| `Rows.DecodeThenEncode` | data_ingestion/main.py:24-28 | every row with 0/1 alert columns is re-encoded exactly from its decoded event |
| `Rows.Cells` | data_ingestion/main.py:24-28 | the row's tuple has one value per table column, in table order, starting with the timestamp |
| `Rows.ExportHeaderFollowsColumns` | data_ingestion/main.py:83-86 | the export header has 13 names; name i is the history name of table column i |
| `Statement.Execute` | data_ingestion/main.py:50-55 | an insert that succeeds stores exactly the supplied values, one per table column |
| `Statement.StatementCount` | data_ingestion/main.py:50 | a prefix without `?` followed by a `?,...,?)` list of n marks has exactly n placeholders |
| `Statement.InsertAsWrittenAlwaysFails` | data_ingestion/main.py:50 | the statement as written has 14 placeholders, so sqlite3 refuses it for every row (column-count mismatch) |
| `Statement.InsertCorrectedStoresRow` | data_ingestion/main.py:50-55 | with 13 placeholders, every row ingest builds is stored as its 13 values |
| `Queries.InsertByTime` | data_ingestion/main.py:67 | inserting a row into a newest-first sequence keeps it newest first and adds exactly that row |
| `Queries.SortNewestFirst` | data_ingestion/main.py:67 | `ORDER BY timestamp DESC` gives non-increasing timestamps and a permutation of the stored rows |
| `Queries.History` | data_ingestion/main.py:67-77 | `/history` returns min(store size, 50) entries with non-increasing timestamps |
| `Queries.HistoryReturnsAll` | data_ingestion/main.py:67-77 | with at most 50 stored rows, every stored row is among the history entries |
| `Queries.HistoryKeepsNewest` | data_ingestion/main.py:67-77 | a stored row left out of the history means the history is full (50 entries) and the row is no newer than the 50th entry |
| `Queries.HistoryAfterIngest` | data_ingestion/main.py:46-56 | an ingest stamped no earlier than every stored row gives the first history entry its timestamp; when every stored row is strictly older, that entry is the event built, read back exactly |
| `Queries.SortOfChronologicalIsReverse` | data_ingestion/main.py:67 | rows stored with strictly increasing timestamps are read back in exactly reverse insertion order |
| `Queries.Export` | data_ingestion/main.py:81-91 | `/export` has store size + 1 lines: the header first, then 13-value data lines with non-increasing timestamps; the data lines are the stored rows' lines, each as many times as the row is stored |
| `Queries.LinesOfSameRows` | data_ingestion/main.py:81-91 | any two orderings of the same rows give the same data lines, each as many times: reordering by timestamp neither adds, drops nor repeats a row |
| `Queries.DataLinesIndex` | data_ingestion/main.py:91 | `DataLines`, the `writerows` call, writes one line per fetched row, line i holding row i's thirteen values and starting with its timestamp |
| `Ingestion.Fanout` | data_ingestion/main.py:61-62 | a broadcast sends the message once to each list position, in list order |
| `Ingestion.PersistedRowsContents` | data_ingestion/main.py:50-56 | the committed rows are exactly the rows of the trace's commit effects |
| `Ingestion.ReceivedContents` | data_ingestion/main.py:61-62 | a connection has received exactly the messages the trace sent to it |
| `Ingestion.FanoutDelivers` | data_ingestion/main.py:61-62 | a broadcast commits no row; each connection receives the message as many times as it is listed |
| `Ingestion.IngestKeepsPersistBeforeSend` | data_ingestion/main.py:50-62 | the commit-then-send effects of one ingest keep every send preceded by the commit of its event's row |
| `Ingestion.IngestDeliversInPersistenceOrder` | data_ingestion/main.py:50-62 | over one ingest the store gains exactly the new row; a listed connection (list without duplicates) gets exactly the new message after all earlier ones; an unlisted one gets nothing |
| `Ingestion.RemoveFirst` | data_ingestion/main.py:106 | `list.remove` shortens a list that holds the connection by one, and leaves any other list unchanged |
| `Ingestion.RemoveFirstDeletesOnePosition` | data_ingestion/main.py:106 | removal deletes exactly the first position holding the connection; every other connection keeps its relative order |
| `Ingestion.RemoveFirstFromDistinct` | data_ingestion/main.py:106 | removal from a list without duplicates leaves a list without duplicates that no longer holds the connection |
| `Ingestion.Service.constructor` | data_ingestion/main.py:22-29 | start-up: the table as found on disk, an empty subscriber list, no effects yet |
| `Ingestion.Service.Ingest` | data_ingestion/main.py:42-63 | appends exactly the encoded event to the table and keeps all earlier rows; the trace gains the commit, then one send of the event with its priority per subscriber in list order; subscribers are unchanged; returns status `broadcasted` and the active alerts |
| `Ingestion.Service.Join` | data_ingestion/main.py:99 | appends the connection at the end of the list; table and trace unchanged |
| `Ingestion.Service.Leave` | data_ingestion/main.py:106 | removes the first occurrence and keeps the others in order; reports an unlisted connection and changes nothing; table and trace unchanged |

## Findings

| source | as written | input that shows it | evidently intended | confidence | as-written member | corrected member |
|---|---|---|---|---|---|---|
| data_ingestion/main.py:50 | the INSERT lists 14 `?` placeholders for the 13-column `drilling_events` table (lines 24-28), and the tuple on lines 51-54 supplies 13 values | any valid sample: sqlite3 refuses the statement, so no row is stored and the call fails before the broadcast | 13 placeholders, one per column | not executed | `Statement.InsertAsWrittenAlwaysFails` | `Statement.InsertCorrectedStoresRow` |

The rest of the model (`Ingestion.Service.Ingest`) persists the 13-value row
that the corrected statement stores; its proof calls
`Statement.InsertCorrectedStoresRow` on that row.

## Left out

- FastAPI and uvicorn wiring, CORS, routing, the streaming response and its
  headers: framework plumbing, with no logic of the service's own.
- The sqlite connection and SQL text beyond the INSERT's placeholder count.
  The table is a sequence of rows, and the two SELECTs are a sort by timestamp.
- `edge.processor.process_data`: the analyzer is not part of this model. Its
  result is a parameter, and its dictionary is assumed to hold exactly
  `predicted_rop` and the four alert keys, in that order, with no key shared
  with the raw sample. The four flag values are assumed to be Python `bool`:
  `isinstance(v, bool)` would skip a 0/1 integer or a numpy bool, which would
  give an empty `alerts` list and priority LOW.
- `datetime.utcnow().isoformat()`: the clock is a parameter. The text
  timestamp becomes a natural number. Ordering the ISO text is taken to agree
  with ordering the instants.
- The keep-alive loop and `asyncio.sleep` of the websocket endpoint. Also any
  interleaving between concurrent ingests, joins, leaves and the two read
  paths: each operation is modelled as atomic. `get_history` and
  `export_csv` are plain functions that the framework runs on a worker
  thread, and they share the module-level `cursor` with `ingest_data`.
  An ingest's `execute` that runs between a read's `execute` and its
  `fetchall` would replace the read's result set. `Queries.History` and
  `Queries.Export` are functions of the stored rows and do not capture this.
- Exceptions from `send_json`. A failing send aborts the rest of the loop in
  the source and is not modelled; every send is taken to succeed.
- CSV quoting and escaping, float formatting, JSON encoding, and the
  `True`/`False` versus `1`/`0` spelling of values in the response text.
- Pydantic validation of the request, and NaN or infinite readings: `real`
  has neither.
- `frontend/src/App.jsx`: the browser client is not part of this model.
- Growth of timestamps across ingest calls: the source does not ensure it,
  so `Queries.HistoryAfterIngest` takes it as a precondition.
- Queries.SortNewestFirst, Queries.HistoryAfterIngest, Queries.SortOfChronologicalIsReverse:
  `ORDER BY timestamp DESC` leaves the order of equal timestamps open, and the
  model fixes one (later-inserted first). The two lemmas promise an exact
  order or entry only when no two rows tie. When a stored row ties with the
  new event, `HistoryAfterIngest` states only the first entry's timestamp.
