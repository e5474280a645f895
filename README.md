# arrow-sql-bridge core, modelled in Dafny

This project models the three sequential pieces of logic that connect SQLite
to the Apache Arrow Flight SQL statement-query calls (describe and fetch), and
proves properties of them:

- **Type inference and schema derivation** (`src/bridge/statement.cpp`):
  - mapping a runtime type tag or a declared type string to an Arrow type;
  - the column metadata (scale, precision, table name);
  - the `get_schema` loop, including the four-way dense union used when a column has neither kind of type;
  - the `step` and `reset` wrappers;
  - `statement::make` and the destructor.
- **Batch production** (`src/bridge/statement_batch_reader.cpp`):
  - `statement_batch_reader::make` and `schema()`;
  - the `ReadNext` state machine, with `is_executed` and `rc` kept between calls, the lazy first reset and step, batches of at most `kMaxBatchSize` (16384) rows, and null handling;
  - the append helpers;
  - end-of-stream.
- **Routing** (`src/router/flight_sql_router.cpp`):
  - the `location|ticket` ticket format and how it is split on the first `|`;
  - the receiver check;
  - the lazily filled client cache;
  - `GetFlightInfoStatement`, `DoGetStatement` and `flight_sql_router::make`.

Layout, one module per file:

| file | module | contents |
|---|---|---|
| `status.dfy` | `ArrowStatus` | `Option`, the Arrow `Status` kinds used, `Result` |
| `arrow_types.dfy` | `ArrowTypes` | the Arrow data types reachable from the schema mapping, `Field`, `ColumnMetadata`, `Schema` |
| `sqlite.dfy` | `Sqlite` | the SQLite API surface the bridge uses: result codes, cells, a prepared statement as a value `Engine` (a program plus a cursor), and the `NativeStmt` class |
| `type_mapping.dfy` | `TypeMapping` | the pure mapping functions of `statement.cpp` and `DeriveSchema`, their reference |
| `statement.dfy` | `Statements` | class `Statement`: `Make`, `GetSchema` (a loop proved against `DeriveSchema`), `Step`, `Reset`, `Destroy` |
| `batch_reader.dfy` | `BatchReading` | `ReadNextSpec` (one call as a function of the reader state) and class `BatchReader`, whose `ReadNext` is proved against it |
| `batch_stream.dfy` | `BatchStream` | what a sequence of `ReadNext` calls delivers: chunking, every row exactly once, end-of-stream |
| `read_errors.dfy` | `ReadErrors` | how a `ReadNext` call part-way through a result set fails: on a row that cannot be converted or on a failing step |
| `routing.dfy` | `Routing` | the ticket codec, `GetOrCreate`, `Describe`, `Fetch` and class `Router`, whose methods are proved against those functions |

The SQLite engine is a value: a `Program` and a cursor.
- A `Program` holds the result columns, the rows in cursor order, the code the step after the last row returns, and the connection's error message.
- `sqlite3_step` returns `SQLITE_ROW` for each row and then the end code. A further step starts the query again (automatic reset).
- `sqlite3_reset` rewinds the cursor and returns the error code of the last step, if there was one.
- With no current row, every column reads as NULL.
- The engine's value accessors (`sqlite3_column_int64`, `_double`, `_text`, `_blob`) are function values in a `Coercions` record. The predicate `Documented` states the conversions SQLite documents for a cell read with the accessor of its own type, including that a zero-length blob reads as a null pointer.

The router's backend calls are function values in a `Flight` record: `Location::Parse`, `FlightClient::Connect`, `Execute`, `DoGet` and `CreateStatementQueryTicket`.

The class `Router` keeps a ghost log, `dialed`, of every location it connected to. Its invariant `CacheInvariant` says three things:
- every cached client is what connecting to its key returned;
- every successful connection was cached;
- a location is connected to again only after a failed connection to it.

Two consequences of the code as written are proved:
- A column with no declared type and no current row is typed as the dense union, but no append helper handles that type. So a query like `SELECT 1` gets a schema from `make`, and then its first `ReadNext` fails with NotImplemented (UntypedColumnGetsUnion, UntypedColumnCannotBeRead).
- The `step` wrapper reports only SQLITE_ERROR. So a query that stops with another error code, such as SQLITE_CONSTRAINT or SQLITE_BUSY, ends its stream as if it had finished (ConstraintFailureEndsStreamQuietly).

## Model

| member | source | states |
|---|---|---|
| TypeMapping.ColumnToArrowType | src/bridge/statement.cpp:3-17 | INTEGER gives int64, FLOAT float64, BLOB binary and TEXT utf8, each in both directions. Every other tag, NULL included, gives the null type. It never gives a union and never fails. |
| TypeMapping.DeclaredType | src/bridge/statement.cpp:20-38 | A null or empty declaration gives the null type. A non-empty one succeeds exactly when KnownDeclaredType recognises it, and then the type is int64, float64, binary or utf8. Otherwise the result is Invalid "Invalid SQLite type: " followed by the declaration. The five rule lemmas below say which type each name gives. |
| TypeMapping.KnownDeclaredType | src/bridge/statement.cpp:25-36 | No contract of its own. The rule lemmas below state its table for all spellings, and DeclaredTypeIgnoresCase states that it ignores case. |
| TypeMapping.DeclaredTypeIntegerNames | src/bridge/statement.cpp:25-26 | Every spelling of "int" or "integer", in any case, is int64. |
| TypeMapping.DeclaredTypeRealName | src/bridge/statement.cpp:27-28 | Every spelling of "real", in any case, is float64. |
| TypeMapping.DeclaredTypeBlobName | src/bridge/statement.cpp:29-30 | Every spelling of "blob", in any case, is binary. |
| TypeMapping.DeclaredTypeTextNames | src/bridge/statement.cpp:31-35 | Every spelling of "text" or "date", in any case, is utf8. |
| TypeMapping.DeclaredTypeCharPrefixes | src/bridge/statement.cpp:33-35 | Every declaration that starts with "char" or "varchar", in any case and whatever follows, is utf8. |
| TypeMapping.DeclaredTypeIgnoresCase | src/bridge/statement.cpp:25-35 | Two declarations that differ only in ASCII case get the same type, or both fail. |
| TypeMapping.PrefixMatchIgnoresCase | src/bridge/statement.cpp:33-34 | The "char"/"varchar" prefix test gives the same answer for declarations that differ only in case. |
| TypeMapping.DeclaredTypeExampleInteger | src/bridge/statement.cpp:25-26 | "INTEGER" is int64. |
| TypeMapping.DeclaredTypeExampleChar | src/bridge/statement.cpp:31-35 | "char(6)" is utf8, through the prefix rule. |
| TypeMapping.DeclaredTypeExampleBigint | src/bridge/statement.cpp:25-37 | "bigint" is rejected with Invalid "Invalid SQLite type: bigint". |
| TypeMapping.RuntimeAndDeclaredAgree | src/bridge/statement.cpp:3-38 | For each of the four non-null storage classes, declaring its SQLite name gives the same Arrow type as the runtime tag. |
| TypeMapping.UnknownDenseUnion | src/bridge/statement.cpp:40-47 | A dense union of exactly four alternatives, none of them null or a union. |
| TypeMapping.UnionCoversRuntimeTypes | src/bridge/statement.cpp:40-47 | Every non-null runtime type is one of the union's alternatives. |
| TypeMapping.Precision | src/bridge/statement.cpp:51-60 | No contract of its own. BuildColumnMeta states the precision each tag gets: 10 for INTEGER, 15 for FLOAT, 0 otherwise. |
| TypeMapping.BuildColumnMeta | src/bridge/statement.cpp:51-76 | Scale 15, not auto-increment, not read-only, and the table name as given. No precision without a table, or for TEXT/BLOB. Otherwise precision 10 for INTEGER, 15 for FLOAT and 0 for any other tag. |
| TypeMapping.PrecisionFollowsRuntimeTag | src/bridge/statement.cpp:112-125 | A NULL cell in a column declared "int" with a table gets type int64 but precision 0: precision is keyed on the runtime tag, not on the resolved type. |
| TypeMapping.DeriveSchema | src/bridge/statement.cpp:107-130 | On success: one field per column, in column order, each the column's FieldFor. Success exactly when every column's field succeeds. On failure: the status of the first failing column. |
| TypeMapping.FieldFor | src/bridge/statement.cpp:111-126 | No contract of its own. DeriveSchema, RuntimeTypeWins, DeclarationChangesOnlyTheType and SchemaAfterResetUsesDeclaredTypes state what each field is. |
| TypeMapping.DeclarationChangesOnlyTheType | src/bridge/statement.cpp:111-126 | Whatever the declared type, a field keeps the column's name and the metadata of its runtime tag and table: the declaration can change only the field's type. |
| TypeMapping.RuntimeTypeWins | src/bridge/statement.cpp:114-123 | When the runtime tag maps to a non-null type, the declared type is never consulted and cannot change the field. |
| Statements.CheckCode | src/bridge/statement.cpp:132-148 | Only SQLITE_ERROR becomes an error: ExecutionError "A SQLite runtime error has occurred: " followed by the message. Every other code (ROW, DONE, BUSY, …) is passed through unchanged. |
| Statements.Statement.Make | src/bridge/statement.cpp:79-105 | Success exactly when prepare returned SQLITE_OK; then a fresh statement owns the handle, which is left untouched. On failure: Invalid "Can't prepare statement: …", with the cleanup failure appended when finalize fails, and a non-null handle finalized. |
| Statements.Statement.GetSchema | src/bridge/statement.cpp:107-130 | The column loop returns exactly DeriveSchema of the columns as the cursor shows them. |
| Statements.Statement.Step | src/bridge/statement.cpp:132-139 | The cursor advances by one engine step. The result is that step's code, passed through CheckCode. |
| Statements.Statement.Reset | src/bridge/statement.cpp:141-148 | The cursor is rewound. The result is the reset's code, passed through CheckCode. |
| Statements.Statement.Destroy | src/bridge/statement.cpp:154-156 | Finalizes the handle, which must not be finalized already, so finalization happens at most once. The cursor is left as it was. |
| Statements.DeriveSchemaSnoc | src/bridge/statement.cpp:110-127 | One more loop iteration either keeps the earlier error, or appends the new column's field, or fails with its error. |
| Statements.DeriveSchemaErrorPersists | src/bridge/statement.cpp:119 | Once a declared-type error occurs, the whole schema fails with that status. |
| Statements.SchemaAfterResetUsesDeclaredTypes | src/bridge/statement_batch_reader.cpp:72-74 | Right after the reset that make performs, no row is current. Every field's type then comes from its declared type, or is the dense union when there is none, and every precision is 0 where a table is known. |
| BatchReading.AppendValue | src/bridge/statement_batch_reader.cpp:114-136 | No contract of its own. AppendValueFails, AppendValueKeepsStoredValue and EmptyBlobAppendsNull state when it fails and what it appends, including a null for a null text or blob pointer. |
| BatchReading.AppendValueFails | src/bridge/statement_batch_reader.cpp:114-136 | A NULL cell appends a null whatever the field's type. A non-NULL cell fails exactly when the field's type is not int64, float64, binary or utf8, and then with NotImplemented "Not implemented SQLite data conversion to <type>". A text or blob accessor that yields a null pointer appends a null (lines 50-51, 61-62). |
| BatchReading.EmptyBlobAppendsNull | src/bridge/statement_batch_reader.cpp:58-63 | Under the documented coercions a zero-length blob reads as a null pointer, so it is appended as a null, not as an empty value. |
| BatchReading.AppendValueKeepsStoredValue | src/bridge/statement_batch_reader.cpp:32-66 | Under the documented coercions, an integer, a real, a text or a non-empty blob is appended with its own value by the helper for its field type. |
| BatchReading.ConvertPrefixValues | src/bridge/statement_batch_reader.cpp:109-138 | A row converts exactly when each of its cells does. It gives one entry per field, in field order, each the entry of its own cell. |
| BatchReading.ConvertPrefixFirstError | src/bridge/statement_batch_reader.cpp:109-138 | A failed row reports the status of its first cell that cannot be converted, all cells before that one having converted. |
| BatchReading.ConvertPrefixFailsAt | src/bridge/statement_batch_reader.cpp:135-136 | Once a cell fails, every longer prefix of the row fails with that cell's status. |
| BatchReading.RowsOfBatchOf | src/bridge/statement_batch_reader.cpp:143-149 | Reading the rows back out of a batch's columns gives exactly the rows it was built from. |
| BatchReading.ColumnsSnoc | src/bridge/statement_batch_reader.cpp:109-115 | Appending a row adds each of its entries at the end of its field's column. |
| BatchReading.FillBatch | src/bridge/statement_batch_reader.cpp:107-141 | No contract of its own. FillBatchStops and FillTakesNextRows state how many rows it takes, in which order, and where it leaves the cursor. FillBatchFailure, FillSkipsRows, FillStopsOnFailingRow and StepErrorDropsRows state how it fails. The method ReadNext is proved against it. |
| BatchReading.FillBatchFailure | src/bridge/statement_batch_reader.cpp:107-141 | The row loop fails only while rc is SQLITE_ROW, which it keeps. The failure is a step's ExecutionError with the connection's message or a NotImplemented conversion, and it carries none of the rows taken before it. |
| BatchReading.ConvertPrefixFailsNotImplemented | src/bridge/statement_batch_reader.cpp:114-136 | Converting a row can fail only with NotImplemented. |
| BatchReading.Finish | src/bridge/statement_batch_reader.cpp:143-154 | No contract of its own. ReadNextBatchShape states the shape of the batch; ExhaustedReaderStaysExhausted and RunExhausted state end-of-stream. |
| BatchReading.ReadNextSpec | src/bridge/statement_batch_reader.cpp:88-155 | No contract of its own. It is the specification of BatchReader.ReadNext. ReadNextBatchShape, ExhaustedReaderStaysExhausted, ReadFromRow and StreamDeliversChunks state its successful calls. ReadNextFailure, FirstCallFailureLeavesReaderUnstarted, ConversionFailureDropsRows and StepErrorDropsRows state its failing ones. |
| BatchReading.ReadNextFailure | src/bridge/statement_batch_reader.cpp:101-141 | A failing call returns no batch. Its status is the connection's runtime error or a NotImplemented conversion. When the row loop failed, the reader stays started with rc SQLITE_ROW. |
| BatchReading.FirstCallFailureLeavesReaderUnstarted | src/bridge/statement_batch_reader.cpp:101-105 | The first call fails before the row loop exactly when the reset reports an earlier SQLITE_ERROR or the first step reports SQLITE_ERROR. It then returns that ExecutionError and leaves is_executed false, with the rewound or stepped cursor and the rc given. |
| BatchReading.FillBatchStops | src/bridge/statement_batch_reader.cpp:107-141 | The row loop keeps the rows it already had and takes at most 16384 in all. It stops only when the batch is full or rc is not SQLITE_ROW. It steps the cursor exactly once per row taken, and every row taken has one entry per field. |
| BatchReading.ReadNextBatchShape | src/bridge/statement_batch_reader.cpp:143-152 | A returned batch has the reader's schema and between 1 and 16384 rows, and every column holds one entry per row. |
| BatchReading.ExhaustedReaderStaysExhausted | src/bridge/statement_batch_reader.cpp:101-107 | A started reader whose rc is no longer SQLITE_ROW returns end-of-stream and changes nothing. It never resets again. |
| BatchReading.BatchReader.Make | src/bridge/statement_batch_reader.cpp:71-86 | Resets the statement, then derives the schema once. A reset error or a schema error is returned. On success the reader is not executed, rc is SQLITE_OK, and the schema is DeriveSchema of the rewound cursor. |
| BatchReading.BatchReader.AppendRow | src/bridge/statement_batch_reader.cpp:109-138 | The field loop appends the current row's converted entry to each builder, or fails with the status of the row's conversion. |
| BatchReading.BatchReader.ReadNext | src/bridge/statement_batch_reader.cpp:88-155 | The result and the new state (is_executed, rc and cursor) are exactly ReadNextSpec of the old state. |
| BatchStream.ChunksShape | src/bridge/statement_batch_reader.cpp:107 | N rows make ⌈N/16384⌉ chunks. Each chunk is non-empty with at most 16384 rows, all but the last are full, and joined together they give the rows back. |
| BatchStream.FillTakesNextRows | src/bridge/statement_batch_reader.cpp:107-141 | From row j, the loop appends the next min(room, remaining) converted rows, in cursor order, and leaves the cursor just past them. |
| BatchStream.ReadFromRow | src/bridge/statement_batch_reader.cpp:107-152 | A call on row j returns the next 16384 rows as one batch and stops on the row after them. When no more than that remain, it returns them all and leaves the reader exhausted. |
| BatchStream.RunExhausted | src/bridge/statement_batch_reader.cpp:143-154 | Every call on an exhausted reader returns end-of-stream. |
| BatchStream.RunFromRow | src/bridge/statement_batch_reader.cpp:107-154 | From row j, successive calls return the chunks of the remaining rows, one per call, then end-of-stream forever. |
| BatchStream.StreamDeliversChunks | src/bridge/statement_batch_reader.cpp:88-155 | From a fresh reader over a result set whose rows all convert, the calls return one batch per chunk of the rows, in cursor order, and then end-of-stream however often they are repeated. |
| BatchStream.ConstraintFailureEndsStreamQuietly | src/bridge/statement.cpp:132-139 | A query that stops with SQLITE_CONSTRAINT after its rows delivers exactly what it would deliver had it ended with SQLITE_DONE: the rows, then end-of-stream, and no error. |
| ReadErrors.FillSkipsRows | src/bridge/statement_batch_reader.cpp:107-141 | On row j, with room for the following converting rows and a row after them, the row loop takes those rows in order and moves to that row. |
| ReadErrors.FillStopsOnFailingRow | src/bridge/statement_batch_reader.cpp:109-136 | On a row whose first unconvertible cell is cell i, the row loop stops at once with NotImplemented naming that cell's type, without stepping, and rc stays SQLITE_ROW. |
| ReadErrors.ConversionFailureDropsRows | src/bridge/statement_batch_reader.cpp:107-141 | A call on row j whose rows convert up to a row whose first unconvertible cell is i fails with that cell's NotImplemented status. The rows before it are dropped, and the reader stays on the failing row with rc SQLITE_ROW, so the next call fails on it again. |
| ReadErrors.StepErrorDropsRows | src/bridge/statement_batch_reader.cpp:107-141 | A call on row j whose remaining rows convert and fit in one batch, in a result set whose final step reports SQLITE_ERROR, fails with ExecutionError "A SQLite runtime error has occurred: " and the message. The rows are dropped, rc stays SQLITE_ROW and the cursor is past the last row. |
| BatchStream.BatchesHoldEveryRowOnce | src/bridge/statement_batch_reader.cpp:107-149 | Reading the rows back out of the delivered batches, in order, gives every converted row exactly once, in cursor order. |
| BatchStream.NullCellsStayNull | src/bridge/statement_batch_reader.cpp:114-117 | A NULL cell becomes a null entry in the delivered row, whatever its field's type. |
| BatchReading.UntypedColumnGetsUnion | src/bridge/statement.cpp:116-122 | For a query like SELECT 1, whose one column has no declared type, the schema derived after the reset in make types that column as the dense union. |
| BatchReading.UntypedColumnCannotBeRead | src/bridge/statement_batch_reader.cpp:119-136 | The first ReadNext on that reader steps onto the row and fails with NotImplemented naming the dense union, so the query's rows cannot be read. |
| Routing.FirstIndex | src/router/flight_sql_router.cpp:72-73 | None exactly when the character does not occur. Otherwise the index of its first occurrence. |
| Routing.SplitTicket | src/router/flight_sql_router.cpp:71-78 | A payload with no bar character fails with Invalid "Invalid ticket format". Otherwise it is the location, a bar and the rest, and the location holds no bar. |
| Routing.TicketRoundTrip | src/router/flight_sql_router.cpp:72-78 | For a location with no bar character, splitting the location, a bar and a rest gives back exactly (location, rest), whatever bars the rest holds. |
| Routing.MakeTicket | src/router/flight_sql_router.cpp:15-18 | No contract of its own. Its partner is SplitTicket: MakeTicketDecodes and TicketRoundTrip state that splitting its output gives back its inputs. |
| Routing.MakeTicketDecodes | src/router/flight_sql_router.cpp:15-18 | A ticket make_ticket builds for a location with no bar character decodes to that location's string and the encoded query. |
| Routing.SplitTicketCutsLocationAtBar | src/router/flight_sql_router.cpp:72-78 | A location string that holds a bar is cut at its own first bar, so such a ticket names a different location. |
| Routing.TicketExample | src/router/flight_sql_router.cpp:71-78 | The ticket host:1234, bar, SELECT 1 names host:1234 and forwards "SELECT 1" verbatim. |
| Routing.TicketExampleWithBar | src/router/flight_sql_router.cpp:77-78 | The ticket h:1, bar, a, bar, b names h:1 and forwards a, bar, b: only the first bar separates. |
| Routing.GetOrCreate | src/router/flight_sql_router.cpp:20-33 | No contract of its own. CacheHit, CacheMiss, CacheKeepsOtherEntries, GetOrCreateKeepsInvariant and SecondLookupHits state its behaviour. Router.GetOrCreateClient is proved against it. |
| Routing.CacheHit | src/router/flight_sql_router.cpp:20-25 | A hit returns the cached client, connects to nothing and leaves the cache as it was. |
| Routing.CacheMiss | src/router/flight_sql_router.cpp:27-32 | A miss connects once and returns what connecting returned. A new client is cached under the location's string; a failure leaves the cache unchanged. |
| Routing.CacheKeepsOtherEntries | src/router/flight_sql_router.cpp:20-33 | No entry is removed, only the looked-up key can be added, and other entries never change. |
| Routing.GetOrCreateKeepsInvariant | src/router/flight_sql_router.cpp:20-33 | The lookup keeps CacheInvariant, and a client it returns is what connecting returned. |
| Routing.SecondLookupHits | src/router/flight_sql_router.cpp:20-33 | A lookup right after a successful one returns the same client, connects to nothing and leaves the cache as it was. |
| Routing.Describe | src/router/flight_sql_router.cpp:40-67 | No contract of its own. DescribeRejectsBadReceiver, DescribeForwardsToReceiver and DescribeKeepsInvariant state its behaviour. Router.GetFlightInfoStatement is proved against it. |
| Routing.DescribeRejectsBadReceiver | src/router/flight_sql_router.cpp:45-47 | An empty node list or a receiver out of range fails with Invalid "Invalid receiver index", before any lookup or connection. |
| Routing.DescribeForwardsToReceiver | src/router/flight_sql_router.cpp:49-66 | With the receiver in range, describe looks up nodes[receiver] whatever the query is. It succeeds exactly when the lookup, the backend's Execute and the ticket encoding succeed. It answers with an empty schema, the caller's descriptor, and the backend's endpoints, totals and ordering. The routing ticket does not appear in the answer. |
| Routing.DescribeKeepsInvariant | src/router/flight_sql_router.cpp:40-67 | Describe keeps CacheInvariant. |
| Routing.Fetch | src/router/flight_sql_router.cpp:69-89 | No contract of its own. FetchRejectsMalformedTicket, FetchForwardsRest, FetchKeepsInvariant and FetchAfterDescribeReusesClient state its behaviour. Router.DoGetStatement is proved against it. |
| Routing.FetchRejectsMalformedTicket | src/router/flight_sql_router.cpp:72-75 | A payload with no bar character fails with Invalid "Invalid ticket format". It touches neither the cache nor any connection. |
| Routing.FetchForwardsRest | src/router/flight_sql_router.cpp:77-84 | A ticket made of a location, a bar and a rest is forwarded to the location the prefix parses to, with exactly the rest as the backend ticket. A parse failure touches nothing. |
| Routing.FetchKeepsInvariant | src/router/flight_sql_router.cpp:69-89 | Fetch keeps CacheInvariant. |
| Routing.FetchAfterDescribeReusesClient | src/router/flight_sql_router.cpp:49-84 | After a successful describe, a fetch whose ticket names the receiving node reuses the cached client. It connects to nothing and leaves the cache unchanged. |
| Routing.Router.constructor | src/router/flight_sql_router.cpp:36-38 | Keeps the nodes and the receiver, with an empty cache; the invariant holds. |
| Routing.Router.Make | src/router/flight_sql_router.cpp:92-101 | Fails with Invalid "No nodes provided" exactly when the node list is empty. Otherwise it keeps the nodes in order and any receiver, with an empty cache. |
| Routing.Router.GetOrCreateClient | src/router/flight_sql_router.cpp:20-33 | Result, new cache and connections made are exactly those of GetOrCreate, and the invariant is kept. |
| Routing.Router.GetFlightInfoStatement | src/router/flight_sql_router.cpp:40-67 | Result, new cache and connections made are exactly those of Describe, and the invariant is kept. |
| Routing.Router.DoGetStatement | src/router/flight_sql_router.cpp:69-89 | Result, new cache and connections made are exactly those of Fetch, and the invariant is kept. |

## Left out

- `src/bridge/flight_sql_server.cpp` (the single-backend describe and fetch callbacks) is not part of this model. It only calls the modelled core.
- Process startup, the command line, the environment and the network client programs are not modelled.
- Statements.Statement.Make: requires a non-null handle when prepare returns SQLITE_OK. An empty SQL string gives SQLITE_OK with a null handle, and that case is not modelled.
- Statements.Statement.Make: the error message uses one connection error message for both the prepare failure and the finalize failure. The source reads `sqlite3_errmsg` again after finalizing.
- The allocation-failure branches (`statement.cpp` 91-93, `statement_batch_reader.cpp` 78-81) are not modelled. Allocation always succeeds in the model.
- Arrow builder internals are not modelled: `MakeBuilder` and `Finish` are taken to succeed, and a column is the sequence of entries appended to it.
- BatchReading.AppendValue: the int8 to uint64, float, half-float, large-binary and large-string builder cases are not modelled, because get_schema never produces those types. The integer cast is the identity for int64, the only integer type that arises.
- Case-insensitive matching of declared types (Lower, Fold, IEquals, IStartsWith) folds ASCII letters only, as `boost::iequals` and `boost::istarts_with` do in the "C" locale. Other locales are not modelled.
- Floating-point values are opaque 64-bit patterns (`Double`). `sqlite3_column_double` is a parameter of the model and is never interpreted.
- SQLite's own value coercions (reading a real through `sqlite3_column_int64`, say) are parameters (`Coercions`) and are not modelled. `Documented` constrains only same-type reads.
- The engine restarts a query automatically when it is stepped after its end code, as SQLite 3.7.0 and later do. Rows are fixed per program: a program is deterministic across restarts.
- BatchStream.StreamDeliversChunks: covers result sets whose rows all convert and whose end code is neither SQLITE_ROW nor SQLITE_ERROR. A failing step or conversion is covered one call at a time by ReadNextFailure, FirstCallFailureLeavesReaderUnstarted, ConversionFailureDropsRows and StepErrorDropsRows, not over a whole stream.
- Routing.Router.DoGetStatement: `MakeRecordBatchReader` and the `RecordBatchStream` wrapper are taken to succeed, so the backend's stream is returned as it is.
- Routing.Router.GetFlightInfoStatement: `FlightInfo::Make(...).ValueOrDie()` is taken to succeed.
- The backend calls are deterministic functions: connecting to the same location twice gives the same outcome.
- Concurrency is not modelled: the unsynchronised client cache under parallel calls is out of scope.
- `dialed` is a ghost record of connections made, used only to state the cache invariant. The source keeps no such list.
- The routing ticket is computed but never placed in the describe answer:
  - A commented-out line in the source (`flight_sql_router.cpp`, line 55) builds an endpoint from the routing ticket, so the ticket was meant to reach the client.
  - The code as written (lines 56-66) answers with the backend's own endpoints, and the model follows it (DescribeForwardsToReceiver).
  - Fetch forwards the raw suffix of the payload as the backend ticket, as the code does (FetchForwardsRest).
