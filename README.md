# EFCoreExtras bulk operations, modelled in Dafny

EFCoreExtras adds bulk operations to an Entity Framework Core `DbContext`:

- **`BulkCreate` / `BulkCreateAsync`** split a list of objects into batches. For each batch they build one multi-row `INSERT` with positional placeholders and run it. They return the sum of the affected-row counts.
- **`BulkUpdate` / `BulkUpdateAsync`** do the same with one `UPDATE ... SET <col> = CASE WHEN ... END ... WHERE <pk> IN (...)` per batch. A batch whose statement targets no key is skipped.
- **Statement builders.** The extensions use `SqlBulkQueryBuilder`. The per-provider services `SqliteBulkOperationService` and `RelationalBulkOperationService` have their own builders: an object-major `CASE` update, and an `INSERT ... RETURNING` for the Sqlite retrieving insert.
- **Registries.** The builder and the service are found through two registries, `QueryBuilderProvider` and `BulkOperationProvider`, each keyed by the EF Core provider name.
- **`PaginatedItems`** holds one page of a query. It has a page count and a next-page flag.

The model covers these parts:

- **Entity metadata** (`EntityModel`). An entity type is modelled as a value: table name, declared properties (name, column name, generated-on-add), the CLR property names and the primary key. An object is a map from property name to value, plus the set of properties its change-tracker entry marks modified.
- **Statement text.** The exact text is modelled as a `string`, with the exact cuts of the last two characters. The parameter list is a `seq<Value>`.
- **Builders.** The builders are imperative methods with the source's loops. Each is proved equal to a specification function. The properties that matter are then proved about those functions:
  - every placeholder `{k}` names the k-th parameter
  - the placeholders run 0, 1, 2, … in order
  - a slot is a placeholder exactly when the value is bound
  - the ids are exactly the keys of the objects that modified a requested column, with no repeats
  - the first failing column decides the exception
- **Database.** `context.Database` is a class that keeps the log of statements it ran. The engine's answers (affected rows, returned rows) are fixed functions given when it is created. The bulk methods are proved to leave exactly the statements of their specification in that log, and to return the sum of the reported counts.
- **Exceptions.** Each is a `Result` error value, in the order the source raises them.
- **Registries.** These are classes whose scheme dictionary is a `map` field.
- **Pagination.** This is modelled on `int` with the Int32 wrap made explicit.

## Model

| member | source | states |
|---|---|---|
| ModelSelection.SplitIntoBatches | src/EFCoreExtras/ModelSelection.cs:5-15 | The loop `i += batchSize` returns the consecutive slices of `batchSize` objects, in order; an empty list gives no batch |
| ModelSelection.ChunksFlatten | src/EFCoreExtras/ModelSelection.cs:9-13 | Concatenating the batches in order gives back the input list exactly |
| ModelSelection.ChunksCount | src/EFCoreExtras/ModelSelection.cs:9-13 | There are exactly ceil(L / batchSize) batches, and none exactly when the list is empty |
| ModelSelection.ChunksSizes | src/EFCoreExtras/ModelSelection.cs:11 | Every batch holds 1 to batchSize objects, and every batch but the last holds exactly batchSize |
| Linq.TakeSkipWindow | src/EFCoreExtras/ModelSelection.cs:11 | `Take(n)` concatenated with `Skip(n)` gives back the list; `Take` keeps the count clamped to 0 .. L; `Skip(i).Take(n)` is the window of min(n, L - i) elements starting at element i |
| Linq.FlattenAppend | src/EFCoreExtras/SqliteBulkOperationService.cs:191 | `AddRange` over a concatenation of lists is the concatenation of the `AddRange`s |
| SqlText.NatToString | src/EFCoreExtras/SqlBulkQueryBuilder.cs:52 | A placeholder index renders as a non-empty string of decimal digits |
| SqlText.ParseNatToString | src/EFCoreExtras/SqlBulkQueryBuilder.cs:52 | Reading a rendered index back gives the index: distinct parameters get distinct placeholders |
| SqlText.TerminatedIsJoinThenSep | src/EFCoreExtras/SqlBulkQueryBuilder.cs:69-73 | Appending every part followed by the separator is the joined parts plus one separator, so cutting that separator gives `string.Join` |
| SqlBulkQueryBuilder.CreateBulkInsertQuery | src/EFCoreExtras/SqlBulkQueryBuilder.cs:10-76 | The builder returns `ColumnInsert`: ArgumentException for no objects, NullReferenceException for an unreadable property, else the INSERT naming the mapped column names with one row group per object |
| BulkInsert.BuildValues | src/EFCoreExtras/SqlBulkQueryBuilder.cs:31-73 | The object loop with its two cuts yields exactly header + row groups joined by ", ", and the bound values in row-major order as parameters |
| BulkInsert.AppendRow | src/EFCoreExtras/SqlBulkQueryBuilder.cs:35-70 | One object appends "(" + its slots + "), " and its bound values; an unreadable property throws NullReferenceException |
| BulkInsert.AppendSlot | src/EFCoreExtras/SqlBulkQueryBuilder.cs:42-66 | A null value, or 0 for a generated-on-add property, appends "NULL, "; any other value appends `{k}, ` and becomes parameter k |
| BulkInsert.CloseRow | src/EFCoreExtras/SqlBulkQueryBuilder.cs:69-70 | Cutting the trailing ", " and appending "), " closes exactly the row group |
| BulkInsert.CloseValues | src/EFCoreExtras/SqlBulkQueryBuilder.cs:73 | The final cut leaves the header followed by the row groups joined by ", " |
| BulkInsert.InsertTextEnds | src/EFCoreExtras/SqlBulkQueryBuilder.cs:73 | A built INSERT starts with its header and ends with the closing parenthesis of the last row |
| BulkInsert.InsertQuerySpec | src/EFCoreExtras/SqlBulkQueryBuilder.cs:10-76 | Success exactly for a non-empty list of a readable type; the errors in the source's order; on success one row group per object and placeholders {0}, {1}, … in order, as many as there are parameters |
| BulkInsert.RowsMatchParams | src/EFCoreExtras/SqlBulkQueryBuilder.cs:42-66 | In every row, slot c is a placeholder iff the value binds, and that placeholder's parameter is the object's value for property c |
| ValueRows.BatchPlaceholdersInOrder | src/EFCoreExtras/SqlBulkQueryBuilder.cs:32-52 | Read left to right, the placeholders are exactly 0 .. |parameters|-1, each once |
| ValueRows.BatchSlotAt | src/EFCoreExtras/SqlBulkQueryBuilder.cs:37-66 | Every row has one slot per declared property, a placeholder exactly when the value binds |
| ValueRows.BatchParamAt | src/EFCoreExtras/SqlBulkQueryBuilder.cs:51-52 | A placeholder in row r, column c names a parameter equal to object r's value for property c |
| ValueRows.BatchRowsFlatten | src/EFCoreExtras/SqlBulkQueryBuilder.cs:31-33 | Numbering row by row with one shared counter equals numbering all cells at once |
| ValueRows.ParamsAround | src/EFCoreExtras/SqlBulkQueryBuilder.cs:31-71 | The parameter list is the earlier rows' parameters, then row r's bound values, then the later rows' |
| Placeholders.NumberFromInOrder | src/EFCoreExtras/SqlBulkQueryBuilder.cs:52 | `paramIndex++` numbers the bound cells start, start+1, … in order |
| Placeholders.NumberFromAt | src/EFCoreExtras/SqlBulkQueryBuilder.cs:51-52 | Cell i gets a placeholder iff it is bound, and that placeholder indexes its own value in the parameter list |
| Placeholders.NumberFromAppend | src/EFCoreExtras/SqlBulkQueryBuilder.cs:32-33 | Numbering two lists in sequence is numbering the second from where the first stopped |
| SqliteBulkOperationService.CreateBulkInsertQuery | src/EFCoreExtras/SqliteBulkOperationService.cs:11-88 | The same INSERT naming the CLR property names; with `retrieve`, " RETURNING <names>;" is appended and the parameters are unchanged |
| RelationalBulkOperationService.CreateBulkInsertQuery | src/EFCoreExtras/RelationalBulkOperationService.cs:10-76 | The same INSERT as `SqlBulkQueryBuilder`, naming the mapped column names |
| SqlBulkQueryBuilder.CreateBulkUpdateQuery | src/EFCoreExtras/SqlBulkQueryBuilder.cs:78-147 | The column-major update returns `SqlUpdate`: the first bad column's exception, else the statement `SqlUpdateSpec` describes |
| SqlBulkQueryBuilder.AppendColumn | src/EFCoreExtras/SqlBulkQueryBuilder.cs:97-140 | One requested column: ArgumentException when no CLR property has that name; otherwise its clause, appended only when some object contributed a WHEN |
| SqlBulkQueryBuilder.CollectColumn | src/EFCoreExtras/SqlBulkQueryBuilder.cs:103-130 | The inner loop over all objects fails iff a modified object's key cannot be read; otherwise it yields the column's WHENs, its parameters and the ids it adds |
| SqlBulkQueryBuilder.AppendModified | src/EFCoreExtras/SqlBulkQueryBuilder.cs:105-129 | An unmodified object is skipped; a modified one with an unreadable key throws NullReferenceException; otherwise its WHEN, its value if not null, and its key are added |
| SqlBulkQueryBuilder.SqlUpdateSpec | src/EFCoreExtras/SqlBulkQueryBuilder.cs:78-147 | Success iff every requested column is buildable; then the text is UPDATE/SET of the reference clauses, the cut, and WHERE pk IN (ids), with column-major parameters |
| SqlBulkQueryBuilder.ColumnsOkIff | src/EFCoreExtras/SqlBulkQueryBuilder.cs:97-130 | The build succeeds exactly when every requested name is a CLR property whose modified objects all have readable keys |
| SqlBulkQueryBuilder.FirstFailureDecides | src/EFCoreExtras/SqlBulkQueryBuilder.cs:100-113 | With all columns before i buildable and column i not, the update throws column i's exception: ArgumentException for an unknown name, else NullReferenceException |
| SqlBulkQueryBuilder.ColumnsValue | src/EFCoreExtras/SqlBulkQueryBuilder.cs:97-140 | A successful build holds the reference clauses, the column-major parameters and the ids |
| SqlBulkQueryBuilder.AddIdsSpec | src/EFCoreExtras/SqlBulkQueryBuilder.cs:129 | `HashSet.Add` keeps exactly the offered keys, each once, and is empty only when nothing was offered |
| SqlBulkQueryBuilder.ModifiedKeys | src/EFCoreExtras/SqlBulkQueryBuilder.cs:103-129 | A key is among a column's keys iff some object modified that column and renders to that key |
| SqlBulkQueryBuilder.ColumnKeysMembers | src/EFCoreExtras/SqlBulkQueryBuilder.cs:97-130 | The ids are exactly the keys of objects that modified some requested column |
| SqlBulkQueryBuilder.ColumnKeysDistinct | src/EFCoreExtras/SqlBulkQueryBuilder.cs:94 | No key appears twice in the ids |
| SqlBulkQueryBuilder.ColumnKeysEmpty | src/EFCoreExtras/SqlBulkQueryBuilder.cs:132-137 | No ids, and likewise no SET clause, exactly when no object modified any requested column |
| SqlBulkQueryBuilder.ColumnTextEmpty | src/EFCoreExtras/SqlBulkQueryBuilder.cs:132-137 | A column's WHEN text is empty exactly when no object modified it |
| SqlBulkQueryBuilder.ColumnSlotAt | src/EFCoreExtras/SqlBulkQueryBuilder.cs:117-127 | The WHEN of the j-th modifying object carries a placeholder iff its value is not null, and that placeholder names this value in the parameter list |
| CaseUpdate.BuildCaseUpdate | src/EFCoreExtras/SqliteBulkOperationService.cs:90-151 | The object-major update: ArgumentException for an unknown name, before any object is read; NullReferenceException when some object's key cannot be read; else the text, parameters and ids of `UpdateOutcome` |
| CaseUpdate.OpenCache | src/EFCoreExtras/SqliteBulkOperationService.cs:102-109 | Fails iff some name is not a CLR property; otherwise the dictionary holds exactly the distinct names, in first-insertion order, each with empty text |
| CaseUpdate.CollectObjects | src/EFCoreExtras/SqliteBulkOperationService.cs:116-140 | The object loop fails iff some key cannot be read; otherwise it yields one id per object, every name's WHEN text, and the object-major parameters |
| CaseUpdate.AppendEntity | src/EFCoreExtras/SqliteBulkOperationService.cs:118-139 | One object adds its id, its WHEN to every requested name's text, and its non-null values as parameters |
| CaseUpdate.AppendObject | src/EFCoreExtras/SqliteBulkOperationService.cs:123-139 | The inner loop appends one WHEN per requested name, duplicates included, numbering the non-null values in name order |
| CaseUpdate.AppendName | src/EFCoreExtras/SqliteBulkOperationService.cs:125-138 | One requested name extends that name's text and the parameter list by exactly one step |
| CaseUpdate.AppendWhen | src/EFCoreExtras/SqliteBulkOperationService.cs:126-138 | "WHEN pk = key " then "THEN NULL " for null, or "THEN {k} " with the value appended as parameter k |
| CaseUpdate.AppendClauses | src/EFCoreExtras/SqliteBulkOperationService.cs:142-145 | One `key = CASE <whens> ELSE key END, ` per dictionary key, in key order |
| CaseUpdate.FinishText | src/EFCoreExtras/SqliteBulkOperationService.cs:142-148 | The clauses, the cut of two characters and the WHERE clause give the reference update text |
| CaseUpdate.CloseUpdate | src/EFCoreExtras/SqliteBulkOperationService.cs:147-148 | Cutting the open SET text by two and appending WHERE pk IN (ids) gives the update text, even with no clause |
| CaseUpdate.DistinctKeysSpec | src/EFCoreExtras/SqliteBulkOperationService.cs:104-109 | The dictionary keys are exactly the requested names, without repetition |
| CaseUpdate.ClauseAt | src/EFCoreExtras/SqliteBulkOperationService.cs:142-145 | Clause n is `keys[n] = CASE <that key's WHENs> ELSE keys[n] END` |
| CaseUpdate.WhensOnce | src/EFCoreExtras/SqliteBulkOperationService.cs:116-139 | For a name requested once, its WHEN text has one WHEN per object, in object order |
| CaseUpdate.ObjectWhensOnce | src/EFCoreExtras/SqliteBulkOperationService.cs:123-139 | For a name requested once, an object contributes exactly one WHEN to it |
| CaseUpdate.ObjectWhensAbsent | src/EFCoreExtras/SqliteBulkOperationService.cs:123-139 | An object contributes nothing to a name that is not requested |
| CaseUpdate.ExtendAt | src/EFCoreExtras/SqliteBulkOperationService.cs:123-139 | The shared dictionary, after one object, holds each key's old text plus that object's WHENs for it |
| CaseUpdate.SlotOfAt | src/EFCoreExtras/SqliteBulkOperationService.cs:128-138 | The WHEN for object r and name c carries a placeholder iff the value is not null, and it names that value in the parameter list |
| CaseUpdate.KeysAt | src/EFCoreExtras/SqliteBulkOperationService.cs:120-121 | Id o is object o's rendered key: one id per object, duplicates kept |
| SqliteBulkOperationService.CreateBulkUpdateQuery | src/EFCoreExtras/SqliteBulkOperationService.cs:90-151 | The object-major update keyed by the primary key's column name |
| RelationalBulkOperationService.CreateBulkUpdateQuery | src/EFCoreExtras/RelationalBulkOperationService.cs:78-140 | The object-major update keyed by the primary key's property name |
| DatabaseFacade.Database.ExecuteSqlRaw | src/EFCoreExtras/SqliteBulkOperationService.cs:164 | Runs one statement: appends it to the log and returns the engine's count for it |
| DatabaseFacade.Database.SqlQueryRaw | src/EFCoreExtras/SqliteBulkOperationService.cs:190 | Runs one statement: appends it to the log and returns the engine's rows for it |
| SqliteBulkOperationService.ExecuteBulkInsert | src/EFCoreExtras/SqliteBulkOperationService.cs:160-178 | A failed build runs nothing; otherwise exactly the built INSERT runs and its count is returned |
| SqliteBulkOperationService.ExecuteBulkUpdate | src/EFCoreExtras/SqliteBulkOperationService.cs:214-224 | A failed build runs nothing; otherwise exactly the built UPDATE runs, even with no ids, and its count is returned |
| SqliteBulkOperationService.ExecuteBulkInsertRetrieve | src/EFCoreExtras/SqliteBulkOperationService.cs:180-212 | The batch loop runs and returns exactly what the retrieve fold specifies |
| SqliteBulkOperationService.RetrieveBatch | src/EFCoreExtras/SqliteBulkOperationService.cs:187-192 | One batch: its INSERT ... RETURNING runs and its rows are appended, or its build error ends the call |
| SqliteBulkOperationService.ExecuteRetrieveSpec | src/EFCoreExtras/SqliteBulkOperationService.cs:180-195 | No objects run nothing and return no rows; an unreadable type throws before any statement; otherwise one INSERT ... RETURNING per batch, ceil(L / batchSize) of them, and the returned rows concatenated in batch order |
| SqliteBulkOperationService.RetrieveReadable | src/EFCoreExtras/SqliteBulkOperationService.cs:187-192 | With a readable type, every batch runs in order, and the result is the concatenation of their rows |
| SqliteBulkOperationService.RetrieveUnreadable | src/EFCoreExtras/SqliteBulkOperationService.cs:187-192 | With an unreadable property, the first batch throws and nothing runs |
| SqliteBulkOperationService.RetrieveFail | src/EFCoreExtras/SqliteBulkOperationService.cs:187-192 | Once a batch throws, the later batches change nothing |
| SqliteBulkOperationService.RetrieveInsert | src/EFCoreExtras/SqliteBulkOperationService.cs:82-85 | A retrieving batch's statement is the INSERT followed by the RETURNING clause |
| RelationalBulkOperationService.ExecuteBulkInsert | src/EFCoreExtras/RelationalBulkOperationService.cs:142-152 | A failed build runs nothing; otherwise exactly the built INSERT runs and its count is returned |
| RelationalBulkOperationService.ExecuteBulkUpdate | src/EFCoreExtras/RelationalBulkOperationService.cs:164-174 | A failed build runs nothing; otherwise exactly the built UPDATE runs and its count is returned |
| RelationalBulkOperationService.ExecuteBulkInsertRetrieve | src/EFCoreExtras/RelationalBulkOperationService.cs:154-162 | Always NotImplementedException |
| ProviderNames.Lookup | src/EFCoreExtras/QueryBuilderProvider.cs:33-37 | `TryGetValue`: the entry registered under exactly that name, or null |
| ProviderNames.LookupAfterAdd | src/EFCoreExtras/QueryBuilderProvider.cs:20-31 | After adding a fresh name, looking it up finds the new entry and every other lookup is unchanged |
| ProviderNames.KnownProvidersDistinct | src/EFCoreExtras/QueryBuilderProvider.cs:13-17 | The five provider names are pairwise different |
| QueryBuilderRegistry.QueryBuilderProvider.constructor | src/EFCoreExtras/QueryBuilderProvider.cs:11-18 | The five registrations all succeed and leave exactly those five schemes |
| QueryBuilderRegistry.QueryBuilderProvider.AddQueryBuilderScheme | src/EFCoreExtras/QueryBuilderProvider.cs:20-31 | A name already present throws InvalidOperationException and changes nothing; a fresh name is added, keeping every entry filed under its own name |
| QueryBuilderRegistry.QueryBuilderProvider.GetSchemeAsync | src/EFCoreExtras/QueryBuilderProvider.cs:33-37 | The scheme registered under the name, or null exactly when the name is unknown |
| QueryBuilderRegistry.QueryBuilderProvider.GetQueryBuilder | src/EFCoreExtras/BulkCreateDbContextExtensions.cs:68 | The registered builder for the provider name, or null exactly when the name is unknown |
| QueryBuilderRegistry.QueryBuilderProvider.GetQueryBuilderAsync | src/EFCoreExtras/QueryBuilderProvider.cs:39-48 | An unknown name throws ArgumentException; otherwise the registered builder type, taken from the container when it holds one |
| QueryBuilderRegistry.QueryBuilderProvider.CreateQueryBuilderAsync | src/EFCoreExtras/QueryBuilderProvider.cs:50-57 | An unknown name throws ArgumentException; otherwise a new instance of the registered type |
| QueryBuilderRegistry.InitialRegistry | src/EFCoreExtras/QueryBuilderProvider.cs:13-17 | After construction, exactly the five known names resolve, each to `SqlBulkQueryBuilder` |
| BulkOperationRegistry.BulkOperationProvider.constructor | src/EFCoreExtras/BulkOperationProvider.cs:12-21 | The five registrations all succeed and leave exactly those five schemes |
| BulkOperationRegistry.BulkOperationProvider.AddBulkOperationScheme | src/EFCoreExtras/BulkOperationProvider.cs:23-34 | A name already present throws InvalidOperationException and changes nothing; a fresh name is added |
| BulkOperationRegistry.BulkOperationProvider.GetScheme | src/EFCoreExtras/BulkOperationProvider.cs:36-45 | The scheme registered under the name, or null exactly when the name is unknown |
| BulkOperationRegistry.BulkOperationProvider.GetBulkOperationService | src/EFCoreExtras/BulkOperationProvider.cs:47-67 | An unknown name throws ArgumentException; otherwise the registered service type, taken from the container when it holds one |
| BulkOperationRegistry.BulkOperationProvider.CreateBulkOperationService | src/EFCoreExtras/BulkOperationProvider.cs:69-85 | An unknown name throws ArgumentException; otherwise a new instance of the registered type |
| BulkOperationRegistry.InitialRegistry | src/EFCoreExtras/BulkOperationProvider.cs:14-18 | After construction, Sqlite resolves to the Sqlite service, the other four known names to the relational service, and nothing else resolves |
| BulkCreateExtensions.GetSqlBulkQueryBuilder | src/EFCoreExtras/BulkCreateDbContextExtensions.cs:64-76 | The builder registered for the active provider; an unregistered provider throws InvalidOperationException |
| BulkCreateExtensions.BulkCreate | src/EFCoreExtras/BulkCreateDbContextExtensions.cs:16-62 | The call returns the sum of the counts, or the exception, of its specification run, and runs exactly that run's statements |
| BulkCreateExtensions.BulkCreateSpec | src/EFCoreExtras/BulkCreateDbContextExtensions.cs:44-62 | batchSize ≤ 0 throws first, then an unregistered provider; no objects return 0 and run nothing; an unreadable type throws before any statement; otherwise one INSERT per batch, ceil(L / batchSize) of them, batch i's built from batch i alone, and the sum of their counts |
| BulkCreateExtensions.InsertBatch | src/EFCoreExtras/BulkCreateDbContextExtensions.cs:55-59 | One iteration runs exactly the next batch's INSERT and records its count, or ends with its build error |
| BulkCreateExtensions.AddCount | src/EFCoreExtras/BulkCreateDbContextExtensions.cs:58 | `affectedRows +=` keeps the running total equal to the sum of the counts so far |
| BulkCreateExtensions.InsertsReadable | src/EFCoreExtras/BulkCreateDbContextExtensions.cs:55-59 | With a readable type and no empty batch, the log is one INSERT per batch in order, and the counts are the engine's for them |
| BulkCreateExtensions.InsertsUnreadable | src/EFCoreExtras/BulkCreateDbContextExtensions.cs:55-59 | With an unreadable property, the first batch throws and no statement runs |
| BulkCreateExtensions.InsertsFail | src/EFCoreExtras/BulkCreateDbContextExtensions.cs:55-59 | Once a batch throws, the later batches change nothing |
| BulkUpdateExtensions.BulkUpdate | src/EFCoreExtras/BulkUpdateDbContextExtensions.cs:42-68 | The call returns the sum of the counts, or the exception, of its specification run, and runs exactly that run's statements |
| BulkUpdateExtensions.BulkUpdateSpec | src/EFCoreExtras/BulkUpdateDbContextExtensions.cs:42-68 | batchSize < 1 throws, then no objects or no names throws ArgumentException, then an unregistered provider; with every batch buildable, the UPDATE of each batch that targets some key runs, in batch order |
| BulkUpdateExtensions.UpdateBatch | src/EFCoreExtras/BulkUpdateDbContextExtensions.cs:55-63 | One iteration: a build error ends the call; no ids skips the batch; otherwise its UPDATE runs and its count is recorded |
| BulkUpdateExtensions.RunUpdates | src/EFCoreExtras/BulkUpdateDbContextExtensions.cs:55-63 | The loop runs exactly the statements of the update fold and returns the sum of their counts |
| BulkUpdateExtensions.UpdatesOk | src/EFCoreExtras/BulkUpdateDbContextExtensions.cs:55-63 | With every batch buildable, the log is the UPDATEs of the batches with ids, in order, and the counts are the engine's for them |
| BulkUpdateExtensions.UpdatesFirstFailure | src/EFCoreExtras/BulkUpdateDbContextExtensions.cs:55-63 | The first batch whose build fails decides the exception, after the earlier batches' statements ran |
| BulkUpdateExtensions.UpdatesFail | src/EFCoreExtras/BulkUpdateDbContextExtensions.cs:55-63 | Once a batch throws, the later batches change nothing |
| BulkUpdateExtensions.SkipIff | src/EFCoreExtras/BulkUpdateDbContextExtensions.cs:59 | A batch is skipped exactly when none of its objects modified any requested property |
| BulkUpdateExtensions.UpdatesNoNames | src/EFCoreExtras/BulkUpdateDbContextExtensions.cs:17-25 | With no requested property, no batch has ids and nothing runs |
| BulkUpdateExtensions.BulkUpdateAsyncAsWritten | src/EFCoreExtras/BulkUpdateDbContextExtensions.cs:7-30 | The async call as written, which builds every iteration from the whole list, runs exactly that run's statements |
| BulkUpdateExtensions.RepeatRun | src/EFCoreExtras/BulkUpdateDbContextExtensions.cs:17-25 | Building every iteration from the same list runs that list's UPDATE once per iteration |
| BulkUpdateExtensions.AsyncAsWrittenRepeats | src/EFCoreExtras/BulkUpdateDbContextExtensions.cs:19 | With more objects than batchSize, the as-written async call runs the whole-list UPDATE once per batch, at least twice |
| BulkUpdateExtensions.BulkUpdateAsync | src/EFCoreExtras/BulkUpdateDbContextExtensions.cs:7-30 | The corrected async call, building each statement from its batch, runs exactly its run's statements |
| BulkUpdateExtensions.AsyncMatchesSync | src/EFCoreExtras/BulkUpdateDbContextExtensions.cs:7-30 | For non-empty objects and names the corrected async call equals `BulkUpdate`; without the emptiness check, no objects or no names run nothing and return 0 |
| Int32.WrapSpec | src/EFCoreExtras/PaginatedItems.cs:45-52 | An Int32 result wraps modulo 2^32 into the Int32 range, and is unchanged when it fits |
| Pagination.CeilDiv | src/EFCoreExtras/PaginatedItems.cs:26 | `Math.Ceiling(count / (double)pageSize)`: the least r with count ≤ r·pageSize for a positive size, and the mirror bound for a negative one |
| Pagination.PaginatedItems.TotalPages | src/EFCoreExtras/PaginatedItems.cs:26 | For a positive size, the page count is the least number of pages that holds every item; it is 0 exactly when there are no items |
| Pagination.CreateAsyncAsWritten | src/EFCoreExtras/PaginatedItems.cs:42-59 | The page as the library computes it, with the Int32 offset; a negative size returns every item, otherwise at most pageSize items |
| Pagination.CreateAsync | src/EFCoreExtras/PaginatedItems.cs:42-68 | The page with the exact offset; a negative size returns every item, otherwise at most pageSize items |
| Pagination.PagesAreChunks | src/EFCoreExtras/PaginatedItems.cs:49-54 | Page i of a positive size is batch i-1 of splitting the items into batches of that size; a page past the last is empty; an index below 1 gives the first page |
| Pagination.PageInRange | src/EFCoreExtras/PaginatedItems.cs:49-54 | An in-range page is the corresponding batch |
| Pagination.PagesCoverItems | src/EFCoreExtras/PaginatedItems.cs:26-54 | Pages 1 .. TotalPages, spliced together, give every item in order |
| Pagination.NextPageIff | src/EFCoreExtras/PaginatedItems.cs:28 | `HasNextPage` holds exactly when the next page is non-empty |
| Pagination.NineItemsInPagesOfFive | src/EFCoreExtras.Tests/PaginationTest.cs:9-37 | 9 items in pages of 5: two pages of 5 and 4 items; page 1 has a next page and page 2 has none (line 37 asserts "no next page" on page 1's object, contrary to line 28) |
| Pagination.AsWrittenAgreesWithoutOverflow | src/EFCoreExtras/PaginatedItems.cs:45-52 | When neither the subtraction nor the product leaves Int32, the library's page is the intended one |
| Pagination.AsWrittenOverflowReturnsFirstPage | src/EFCoreExtras/PaginatedItems.cs:52 | Page 21476 of size 100000 wraps to a negative offset and returns the first item, where the intended page is empty |

## Left out

- EF Core metadata is given as data: the entity type, its declared properties, the CLR properties reflection finds, the primary key and each object's modified set. `FindEntityType`, `GetProperty` and the change tracker are not modelled.
- `GetValue` on a property reflection cannot find (the `!`-suppressed null) is modelled as the NullReferenceException it raises. Every declared property must then be readable for an insert to succeed.
- All builder `CreateBulkInsertQuery` methods require at least one declared property. With none, the row cut at SqlBulkQueryBuilder.cs:69 reaches back into the row's own "(".
- ModelSelection.SplitIntoBatches requires `batchSize > 0` or an empty list. The source's counter `i += batchSize` is Int32 arithmetic, and this wrap is not modelled. With objects present and a non-positive size, the source behaves as follows:
  - A size of 0 or Int32.MinValue never lets the counter reach `Count`, so the loop adds empty batches until memory runs out.
  - Any other negative size walks the counter down until it wraps past Int32.MinValue. The loop ends the first time the wrapped counter is at least `Count`, after roughly 2^31 / |batchSize| iterations. Every batch is empty, because `Take` of a negative count takes nothing. For some even sizes and long lists the wrapped counter never reaches `Count`.
- SqliteBulkOperationService.ExecuteBulkInsertRetrieve requires `batchSize > 0` or no objects, for the same reason. For a negative size whose batching loop ends, the first batch is empty, and `CreateBulkInsertQuery` throws ArgumentException (SqliteBulkOperationService.cs:14-17) before any statement runs. The model does not cover that outcome. `BulkCreate` and `BulkUpdate` reject such sizes before batching, so their models are unaffected.
- SqliteBulkOperationService.ExecuteBulkInsertRetrieve passes an `IEnumerable` to `SplitIntoBatches`, which takes a `List`, and iterates `T[]` over a list of lists. The model reads this as iterating the batches `SplitIntoBatches` returns.
- I/O and async: each synchronous/asynchronous pair is one member, except `BulkUpdateAsync` (see Findings). The database engine is represented by the two functions it answers with.
- `context.AttachRange(objects)` at the end of the bulk updates is not modelled. It changes only the change tracker.
- `CreateSetter` in SqliteBulkOperationService.cs is not modelled. Nothing in the core calls it.
- Dependency-injection activation (`GetService` / `ActivatorUtilities.CreateInstance`) is modelled by the set of types the container holds. Construction itself is not modelled.
- The registries' `lock` and concurrent registration are not modelled.
- BulkCreateExtensions.BulkCreate: the running total is an unbounded sum. The Int32 wrap of `affectedRows +=` on more than 2^31 rows is not modelled.
- BulkUpdateExtensions.BulkUpdate: the running total is an unbounded sum. The Int32 wrap of `affectedRows +=` is not modelled.
- Pagination.PaginatedItems.TotalPages requires a non-zero page size. `count / 0.0` is an infinity or NaN whose `(int)` cast is unspecified.
- Pagination.PaginatedItems.TotalPages computes `Math.Ceiling` exactly. This matches the double arithmetic while the count and the quotient fit in 53 bits and the result fits in Int32; larger counts are not modelled.
- Pagination.CreateAsync: `LongCountAsync` and `AsNoTracking` are read as "the query's items, counted". Query translation is not modelled.
- The `QueryBuilderProvider` source file defines no synchronous `GetQueryBuilder`, although BulkCreateDbContextExtensions.cs:68 calls one. QueryBuilderRegistry.QueryBuilderProvider.GetQueryBuilder gives it the lookup of `GetSchemeAsync`, returning the builder type or null.
- QueryBuilderRegistry.QueryBuilderProvider.AddQueryBuilderScheme: only the shipped builder type is modelled. `AddQueryBuilderScheme` accepts any `Type`, and the bulk extensions call whichever builder the registry returns. The model's extensions always build with `SqlBulkQueryBuilder`, which all five built-in registrations name, so a builder registered by a user is not modelled.
- BulkOperationRegistry.BulkOperationProvider.AddBulkOperationScheme: likewise, only the two shipped service types can be registered.
- HashSet and Dictionary enumeration order is taken to be insertion order, which is what the .NET implementation does when no entry is removed, although .NET does not promise it. This affects two texts:
  - SqlBulkQueryBuilder.CreateBulkUpdateQuery: the `HashSet<string>` of ids joined into `WHERE pk IN (...)` (SqlBulkQueryBuilder.cs:94, 129, 144) is modelled by `AddIds` in first-insertion order.
  - CaseUpdate.BuildCaseUpdate: the `cache.Keys` loop (SqliteBulkOperationService.cs:142-145, RelationalBulkOperationService.cs:131-134) is modelled by `DistinctKeys` in first-insertion order.
- `QueryableExtensions.cs` is not part of this model.
- Ordinal name comparison is modelled as equality of `seq<char>`.
- Values render through `ToString()` as strings. Formatting by culture is not modelled.

## Findings

| source | as written | input that shows it | evidently intended | confidence | as-written member | corrected member |
|---|---|---|---|---|---|---|
| src/EFCoreExtras/BulkUpdateDbContextExtensions.cs:19 | each iteration of `BulkUpdateAsync` builds its UPDATE from `objects`, the whole list | 3 objects that modified a requested property, batchSize 1: the whole-list UPDATE runs three times | build each iteration's UPDATE from `batch`, as `BulkUpdate` does at line 57 | not executed | BulkUpdateExtensions.AsyncAsWrittenRepeats | BulkUpdateExtensions.AsyncMatchesSync |
| src/EFCoreExtras/PaginatedItems.cs:52 | `pageSize * normalizedIndex` is Int32 arithmetic and wraps | pageIndex 21476, pageSize 100000, one item: the offset wraps to -2147467296, `Skip` skips nothing and the item is returned | the exact offset, so that a page past the end is empty | not executed | Pagination.AsWrittenOverflowReturnsFirstPage | Pagination.PagesAreChunks |
