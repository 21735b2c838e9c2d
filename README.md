# semantic-link-labs: request and table shaping, modelled in Dafny

This project models the pure core of four modules of semantic-link-labs, a Python
library of helpers for Microsoft Fabric:

- the **job scheduler** wrappers: the schedule payload, the argument checks of
  `create_item_schedule` and `update_item_schedule`, the requests they issue,
  the id read back from the `Location` header, and the shaping of job-instance
  and schedule records into table rows;
- the **notebook** helpers: the GitHub link rewrite and the create, notice or
  error decision of `import_notebook_from_web`, the choice of the primary
  content part and the notebook type read from its path, and the one-part
  definition payloads of `create_notebook` and `update_notebook_definition`;
- **generate_shared_expression**: the M expression a Direct Lake semantic model
  uses, either through the SQL endpoint of a lakehouse or warehouse or directly
  on OneLake;
- **get_lakehouse_tables**: the table rows from the tables API or from the
  lakehouse's folders, the per-table measurements of extended mode (files,
  row groups, size, row count), the guardrail columns, and the exported
  table with its run id and default columns.

Calls into the service, the file system and Spark are not executed. Their
answers are **inputs** to the model:

- API pages and response bodies are JSON values;
- resolved names and ids are `Resolved` values (or the error the resolver raised);
- the mounted lakehouse is a map from paths to files;
- Delta tables are snapshots by path;
- `create_abfss_path` and the base64 decoder are function parameters;
- the SKU guardrails, the stored maximum run id and the current time are plain values;
- the Spark setting `spark.trident.pbienv` that `generate_shared_expression` reads through `_get_fabric_context_setting` is the `pbienv` argument.

Files:

| file | module | contents |
|---|---|---|
| `wrappers.dfy` | `Wrappers`, `Errors`, `Resolvers` | `Option`, `Result`, the exceptions the source raises, resolved name/id pairs |
| `py_strings.dfy` | `PyStrings` | the Python `str` operations the core uses: `lower`, `capitalize`, `startswith`, `replace`, `split`, `find`, `rfind`, negative slices, `str(int)`, `os.path.join`, `os.path.splitext` |
| `json_values.dfy` | `JsonValues` | Python values as `response.json()` returns them; dicts keep insertion order; `.get`, `.get(k, d)`, truthiness, iteration, `str`, `repr`, `json.dumps` |
| `folds.dfy` | `Folds` | the left folds that the listing loops are specified by |
| `job_scheduler.dfy` | `JobScheduler` | `_job_scheduler.py` |
| `notebooks.dfy` | `Notebooks` | `_notebooks.py` |
| `shared_expression.dfy` | `SharedExpression` | `directlake/_generate_shared_expression.py` |
| `lakehouse_tables.dfy` | `LakehouseTables` | `lakehouse/_get_lakehouse_tables.py` |

Behaviours of the code, as written, that the model keeps:

- **Python dicts.** A Python dict is an ordered field list. A key that is absent
  (`get` gives None, `get(k, d)` gives `d`) differs from a key present with null
  (both give None). This decides, for example, the three cases of a job
  instance's `Error Message`.
- **Schedule checks.** The checks of `create_item_schedule` /
  `update_item_schedule` are modelled twice. `CheckScheduleArgsAsWritten` is the
  code as written. `CheckScheduleArgs` is the documented intent, and the request
  builders use it (see Findings).
- **Early return on an empty first page.** Both `list_item_job_instances` and
  `get_lakehouse_tables` return the empty table when the first page has a falsy
  `value` / `data`, even if later pages hold records.
- **Schema name inside the loop.** The `iterrows` loop of `get_lakehouse_tables`
  reads each row as it was before the loop. The `dbo` substitution for an empty
  schema is written to the frame, not to the row being read. So the delta path
  of an API row is built with the empty schema, and then fixed up by the two
  `replace` calls.
- **Stale row count.** With `count_rows`, a row that is not a managed Delta table
  reports the row count of the Delta table opened for an earlier row. When no
  such row came before it, the call fails with `UnboundLocalError`.
- **Unmeasured rows fail extended mode.** Any unmeasured row holds None in
  `Files`, `Row Groups` and `Table Size`, so `astype(int)` raises `TypeError`.
  The extended table therefore exists exactly when every row is a managed Delta
  table (`LakehouseTables.ExtendedNeedsManaged`).
- **File suffixes with Spark.** The slice `file[-k:]` uses the **first**
  occurrence of the table name in the file URI.

## Model

| member | source | states |
|---|---|---|
| JobScheduler.CreateItemSchedulePayload | src/sempy_labs/_job_scheduler.py:38-57 | building the payload by the base dict and then one key assignment per variant key yields exactly the payload `SchedulePayload` describes |
| JobScheduler.ConfigurationOfPayload | src/sempy_labs/_job_scheduler.py:38-55 | the configuration of every payload is the four base fields followed by the fields of the variant chosen by the lower-cased type |
| JobScheduler.PayloadBase | src/sempy_labs/_job_scheduler.py:38-46 | a payload has exactly the keys `enabled` and `configuration`; `enabled` is the caller's flag; the configuration starts with `startDateTime`, `endDateTime`, `localTimeZoneId`, `type`, holding the caller's values; `type` keeps the caller's spelling, not lower-cased |
| JobScheduler.PayloadVariant | src/sempy_labs/_job_scheduler.py:48-55 | after the base keys, cron adds only `interval`; daily adds only `times`, as `str(times)`; weekly adds `times` as given, then `weekdays`; any other type adds nothing |
| JobScheduler.BaseConfigurationKeys | src/sempy_labs/_job_scheduler.py:40-45 | the base configuration has exactly the four keys, in the order the dict literal lists them |
| JobScheduler.VariantConfigurationKeys | src/sempy_labs/_job_scheduler.py:48-55 | the variant part assigns exactly the keys its case names, in order |
| JobScheduler.VariantLookups | src/sempy_labs/_job_scheduler.py:48-55 | in the variant part, `interval`, `times` and `weekdays` hold what each case assigns, and are absent in the cases that do not assign them |
| JobScheduler.LookupAfterBase | src/sempy_labs/_job_scheduler.py:48-55 | a key outside the base keys is found in the variant part, so the base literal cannot shadow a variant assignment |
| JobScheduler.CheckScheduleArgs | src/sempy_labs/_job_scheduler.py:408-414 | the documented checks: success iff the type is cron, daily or weekly in any case, an interval, if given, lies in 1..5270400, and at most 100 time slots are listed; an unknown type fails with the type error first; success returns the caller's type string. `CheckScheduleArgsAsWritten` is the code as written; the next three rows state how it differs |
| JobScheduler.AsWrittenRejectsMissingInterval | src/sempy_labs/_job_scheduler.py:411-412 | as written, a call with a valid type and no interval raises `TypeError` (None compared with an int); the documented check accepts it |
| JobScheduler.AsWrittenTimesCountsDots | src/sempy_labs/_job_scheduler.py:413-414 | as written, the times check passes exactly when `str(times)` contains fewer than 100 dots, whatever the number of list items |
| JobScheduler.ListOfDotlessStrings | src/sempy_labs/_job_scheduler.py:413 | `str` of a list of strings without dots contains no dot, so such a list of any length passes the check as written |
| JobScheduler.AsWrittenAcceptsLongTimesList | src/sempy_labs/_job_scheduler.py:413-414 | a daily schedule with 150 slots `"09:00"` passes the check as written and is rejected by the documented limit of 100 |
| JobScheduler.ChecksPrecedeRequests | src/sempy_labs/_job_scheduler.py:408-431 | for `CreateItemScheduleRequest` and `UpdateItemScheduleRequest`: failing arguments give the check's error whatever the resolvers answer, so no request is sent; passing arguments make create POST and update PATCH exactly the payload for the caller's type, to the schedules path of the resolved workspace and item (with the schedule id appended for update) |
| JobScheduler.LocationIdIsLastSegment | src/sempy_labs/_job_scheduler.py:269 | `LocationId`, the id read from `Location`, is a suffix of the header without `/`, preceded by `/` unless it is the whole header |
| JobScheduler.RunOnDemandItemJobId | src/sempy_labs/_job_scheduler.py:255-270 | `RunOnDemandItemJobRequest` POSTs to the job-instances path of the resolved workspace and item with the caller's job type; `RunOnDemandItemJob` then fails with `AttributeError` when the response has no `Location` header, and otherwise returns an id without `/` that ends the header |
| JobScheduler.CreateItemScheduleId | src/sempy_labs/_job_scheduler.py:408-440 | a failing argument check is the result of `CreateItemSchedule` whatever the response; with passing arguments and a `Location` header the result is an id without `/` that ends the header |
| JobScheduler.ErrorMessageCases | src/sempy_labs/_job_scheduler.py:121-133 | for `JobInstanceRowOf`: an absent `failureReason` leaves `Error Message` as None; a null one gives `""`; an object gives its `message`; any other value raises `AttributeError` |
| JobScheduler.CollectInstancePage | src/sempy_labs/_job_scheduler.py:120-135 | the loop over one page's `value` items yields the rows of `InstancePageRows`, in order, or the first record's error |
| JobScheduler.ListItemJobInstances | src/sempy_labs/_job_scheduler.py:110-142 | the nested page/record loops give the rows of `JobInstanceTable`: empty when the first page's `value` is falsy, else every page's rows in page order; the item type is the resolved one only when the caller gave none |
| JobScheduler.EmptyFirstPageGivesEmptyTable | src/sempy_labs/_job_scheduler.py:115-116 | a missing or empty `value` on the first page gives the empty table, whatever later pages hold |
| JobScheduler.InstanceRowsFollowItems | src/sempy_labs/_job_scheduler.py:119-135 | a page whose records all shape without error gives one row per record, in order, each the shaping of its record |
| JobScheduler.ListItemSchedules | src/sempy_labs/_job_scheduler.py:201-218 | the loop over `value` gives one row per schedule record, in order, as `ScheduleTable` states |
| JobScheduler.MissingTimesShowsNull | src/sempy_labs/_job_scheduler.py:214 | a configuration without `times` shows `Times` as the JSON text `null` |
| JobScheduler.ScheduleRowOfRecord | src/sempy_labs/_job_scheduler.py:201-217 | `ScheduleRowOf` shapes a record with an object configuration and an absent or object owner without error; `Job Schedule Id`, `Enabled` and `Created Date Time` hold the record's fields, the configuration columns the configuration's fields, `Owner Id` and `Owner Type` the owner's `id` and `type` (None when absent, and when the owner is absent); `Times` holds the JSON text of the configured times |
| JobScheduler.GetItemScheduleAsListing | src/sempy_labs/_job_scheduler.py:333-351 | `GetItemSchedule` shapes the one schedule body exactly as a listing whose `value` holds only that body would be shaped |
| JobScheduler.GetItemJobInstanceAsPage | src/sempy_labs/_job_scheduler.py:554-595 | `GetItemJobInstance` shapes the one job-instance body exactly as a page whose `value` holds only that body would be shaped, with the caller's item type as given (None when absent), not the resolved type the listing uses |
| JobScheduler.ScheduleEchoRoundTrip | src/sempy_labs/_job_scheduler.py:38-55 | a schedule record echoing a sent configuration reads back the caller's type, start, end and time zone, plus the variant's own interval, times and weekdays, and None for the fields its variant does not set |
| Notebooks.RawUrlShape | src/sempy_labs/_notebooks.py:144-149 | `RawUrl` turns a GitHub link into the raw prefix followed by its path after the GitHub prefix, with every `/blob/` of `/` plus that path replaced by `/`; the result no longer starts with the GitHub prefix; any other URL is left unchanged, even one containing `/blob/` |
| Notebooks.RawUrlIdempotent | src/sempy_labs/_notebooks.py:144-149 | rewriting a rewritten link changes nothing |
| Notebooks.RawHostPrefix | src/sempy_labs/_notebooks.py:147 | the raw host followed by a path starts with the raw prefix and not with the GitHub prefix |
| Notebooks.NoBlobInRawHost | src/sempy_labs/_notebooks.py:147-149 | no `/blob/` begins inside the raw host name, so the replacement leaves the host intact |
| Notebooks.PrimaryPart | src/sempy_labs/_notebooks.py:54-56 | the chosen part is the first part whose path starts with `notebook-content.`; it exists iff some part does; otherwise `.iloc[0]` raises `IndexError` |
| Notebooks.ExtensionOfContentPath | src/sempy_labs/_notebooks.py:58-60 | the extension of `notebook-content.<t>` is `.<t>` for a type without dot or slash |
| Notebooks.NotebookTypeRoundTrip | src/sempy_labs/_notebooks.py:46-60 | `NotebookType` reads back, as that type, a type written into the content path by `create_notebook`, whatever parts follow |
| Notebooks.GetNotebookDefinitionSpec | src/sempy_labs/_notebooks.py:99-107 | the definition `GetNotebookDefinition` returns is the payload of the first content part, raw or passed through the decoder when `decode` is set; with no content part the call fails |
| Notebooks.DefinitionUrlShape | src/sempy_labs/_notebooks.py:32-34 | the definition request goes to `getDefinition` of the notebook in its workspace, followed by `?format=ipynb` exactly when the ipynb format is asked for |
| Notebooks.BuildDefinitionPayload | src/sempy_labs/_notebooks.py:210-221 | building the dict and then setting `format` gives exactly `DefinitionPayload` |
| Notebooks.BuildUpdatePayload | src/sempy_labs/_notebooks.py:264-277 | building the dict and setting `definition.format` gives exactly `UpdatePayload` |
| Notebooks.DefinitionPayloadShape | src/sempy_labs/_notebooks.py:210-221 | a definition has exactly one part: the content part for the given type, with the encoded payload and payload type `InlineBase64`; it has a `format` key exactly when the format is ipynb |
| Notebooks.UpdateKeepsType | src/sempy_labs/_notebooks.py:257-285 | `UpdateNotebookDefinition` on a notebook whose current content part has type `t` sends the new content in a payload whose content part has type `t` again |
| Notebooks.ImportOutcomes | src/sempy_labs/_notebooks.py:141-173 | the outcomes of `ImportNotebookFromWeb`: a failed workspace resolution raises first; then a failed fetch of the rewritten URL raises; a new name is created in the resolved workspace as a py notebook in ipynb format from the fetched content; an existing name with overwrite only prints a notice; an existing name without overwrite raises |
| Notebooks.ImportedTypeIsPy | src/sempy_labs/_notebooks.py:158-164 | a notebook created by an import reads back with type py |
| SharedExpression.ParseItemKindSpec | src/sempy_labs/directlake/_generate_shared_expression.py:46-51 | after `capitalize`, the type is Lakehouse iff it lower-cases to `lakehouse`, Warehouse iff it lower-cases to `warehouse`; any other type raises |
| SharedExpression.RestSegment | src/sempy_labs/directlake/_generate_shared_expression.py:63 | the REST collection segment is the lower-cased type plus `s` |
| SharedExpression.SqlExpressionRoundTrip | src/sempy_labs/directlake/_generate_shared_expression.py:85-88 | a connection string without a double quote and a database id can be read back out of the SQL expression unchanged |
| SharedExpression.FirstQuoteAfter | src/sempy_labs/directlake/_generate_shared_expression.py:87 | in `Sql.Database("cs", "id")` the first quote after the opening one closes the connection string when it has no quote |
| SharedExpression.OneLakeProdHost | src/sempy_labs/directlake/_generate_shared_expression.py:91-94 | prod, in any case, gives the bare OneLake host `onelake.dfs.fabric.microsoft.com` |
| SharedExpression.OneLakeOtherHost | src/sempy_labs/directlake/_generate_shared_expression.py:91-94 | any other environment prefixes the host with its lower-cased name and a dash |
| SharedExpression.OneLakeEnvIgnoresCase | src/sempy_labs/directlake/_generate_shared_expression.py:91-92 | the OneLake expression depends on the environment name only up to case |
| SharedExpression.InvalidItemTypeRefused | src/sempy_labs/directlake/_generate_shared_expression.py:46-51 | an item type other than lakehouse or warehouse raises before any item is resolved, with or without the SQL endpoint |
| SharedExpression.EndpointInProgressRefused | src/sempy_labs/directlake/_generate_shared_expression.py:70-83 | a lakehouse whose SQL endpoint reports `InProgress` raises instead of giving an expression |
| SharedExpression.WarehouseEndpoint | src/sempy_labs/directlake/_generate_shared_expression.py:75-88 | a warehouse is its own database: `GenerateSharedExpression` uses the connection string from the warehouse's `properties` and the item id |
| SharedExpression.LakehouseEndpoint | src/sempy_labs/directlake/_generate_shared_expression.py:62-88 | a lakehouse, spelled in any case, whose SQL endpoint is not `InProgress` gives the SQL expression of the connection string and id found under `properties.sqlEndpointProperties` |
| SharedExpression.OneLakeBranch | src/sempy_labs/directlake/_generate_shared_expression.py:89-94 | without the SQL endpoint, a valid item type gives the OneLake expression of the environment, the workspace id and the resolved item id, and the item's REST body is not consulted |
| LakehouseTables.ApiRowShape | src/sempy_labs/lakehouse/_get_lakehouse_tables.py:108-116 | an API record gives a row with empty schema, the resolved workspace and lakehouse names, and the record's `name`, `format`, `type` and `location` (None when absent) |
| LakehouseTables.CollectApiPage | src/sempy_labs/lakehouse/_get_lakehouse_tables.py:107-117 | the loop over one page's `data` records gives that page's rows in order, or the first error |
| LakehouseTables.ListApiRows | src/sempy_labs/lakehouse/_get_lakehouse_tables.py:102-117 | the page loop gives `ApiListing`: the early empty return when the first page's `data` is falsy, otherwise the rows of every page in page order |
| LakehouseTables.ListFolderRows | src/sempy_labs/lakehouse/_get_lakehouse_tables.py:119-139 | the nested schema/table folder loops give exactly `FolderRows` |
| LakehouseTables.SchemaRowsSpec | src/sempy_labs/lakehouse/_get_lakehouse_tables.py:126-139 | one schema folder gives one row per table folder, in order, each a managed Delta row of that schema at the `create_abfss_path` location |
| LakehouseTables.FolderRowsSpec | src/sempy_labs/lakehouse/_get_lakehouse_tables.py:123-139 | every row read from the folders is a managed Delta table; a row is listed exactly when its schema folder holds its table folder |
| LakehouseTables.CollapseScheme | src/sempy_labs/lakehouse/_get_lakehouse_tables.py:164 | replacing `//` in `abfss://rest` leaves `abfss:/` followed by the collapsed rest |
| LakehouseTables.RestoreScheme | src/sempy_labs/lakehouse/_get_lakehouse_tables.py:165 | `abfss:/` at the front becomes `abfss://` when the rest holds no other scheme |
| LakehouseTables.FixAbfssClean | src/sempy_labs/lakehouse/_get_lakehouse_tables.py:160-166 | a well-formed location without double slashes passes through the fix-up unchanged |
| LakehouseTables.FixAbfssEmptySchema | src/sempy_labs/lakehouse/_get_lakehouse_tables.py:160-166 | `FixAbfss` collapses the double slash an empty schema leaves into one while the scheme keeps its two slashes |
| LakehouseTables.FileSuffixAfterTable | src/sempy_labs/lakehouse/_get_lakehouse_tables.py:202-206 | `FileSuffix`: when the table name first occurs right before one separator and more text, the slice is that text |
| LakehouseTables.FileSuffixWhole | src/sempy_labs/lakehouse/_get_lakehouse_tables.py:202-206 | when nothing follows the table name and its separator, `file[-0:]` is the whole URI |
| LakehouseTables.SumSizes | src/sempy_labs/lakehouse/_get_lakehouse_tables.py:176-183 | the size loop adds the sizes of exactly the listed files that exist under the table's folder |
| LakehouseTables.SumRowGroups | src/sempy_labs/lakehouse/_get_lakehouse_tables.py:208-213 | the row-group loop adds the row groups of exactly the listed files that exist at `table_path/name` |
| LakehouseTables.RowGroupSumAppend | src/sempy_labs/lakehouse/_get_lakehouse_tables.py:208-213 | the row-group total over two consecutive lists is the sum of their totals |
| LakehouseTables.RowGroupSumMissing | src/sempy_labs/lakehouse/_get_lakehouse_tables.py:211 | files missing under the mount add no row groups |
| LakehouseTables.RowGroupSumBound | src/sempy_labs/lakehouse/_get_lakehouse_tables.py:208-213 | the total is at most the number of names times the largest row-group count of any file |
| LakehouseTables.CollectFileNames | src/sempy_labs/lakehouse/_get_lakehouse_tables.py:196-206 | the append loop gives exactly `FileNames` |
| LakehouseTables.FileNamesAfterTable | src/sempy_labs/lakehouse/_get_lakehouse_tables.py:196-206 | in pure Python a latest file is looked up by its own URI; with Spark, by the text after the table folder, when the table name first occurs right before that folder's separator |
| LakehouseTables.MeasureRow | src/sempy_labs/lakehouse/_get_lakehouse_tables.py:159-224 | the per-row loops give exactly `RowDetails` for that row and the table opened last |
| LakehouseTables.ScanTables | src/sempy_labs/lakehouse/_get_lakehouse_tables.py:151-224 | the `iterrows` loop, which writes the measured columns into a column array, succeeds iff `ScanRows` does; it then yields its measurements, and otherwise its error |
| LakehouseTables.ScanRowsPrefixErr | src/sempy_labs/lakehouse/_get_lakehouse_tables.py:155-224 | an error in an earlier row ends the loop with that error |
| LakehouseTables.RowDetailsUncounted | src/sempy_labs/lakehouse/_get_lakehouse_tables.py:159-217 | without `count_rows`, a row that is not a managed Delta table stays unmeasured and nothing raises; a measured managed row has files, row groups and size but no row count |
| LakehouseTables.RowDetailsStaleCount | src/sempy_labs/lakehouse/_get_lakehouse_tables.py:219-224 | with `count_rows`, a row that is not a managed Delta table reports the row count of the last table opened, and fails with `UnboundLocalError` when none was opened |
| LakehouseTables.RowDetailsMeasured | src/sempy_labs/lakehouse/_get_lakehouse_tables.py:151-224 | `RowDetails` ends with every measured column set iff the row is a managed Delta table |
| LakehouseTables.ExtendedNeedsManaged | src/sempy_labs/lakehouse/_get_lakehouse_tables.py:151-231 | the loop yields one measurement per row, and every row is measurable by `astype(int)` iff every row is a managed Delta table |
| LakehouseTables.ExtendedRecordFlags | src/sempy_labs/lakehouse/_get_lakehouse_tables.py:155-245 | an extended record holds integer measurements, the guardrails, hit flags equal to the strict comparisons and the row guardrail as millions times 1000000; its schema is `dbo` when the row's is empty and the row's own otherwise; table name, format, type and location are the row's |
| LakehouseTables.GuardrailFlags | src/sempy_labs/lakehouse/_get_lakehouse_tables.py:155-245 | the extended table has one record per row, each satisfying those guardrail relations and showing that row's schema with an empty one as `dbo` |
| LakehouseTables.FillExportDefaults | src/sempy_labs/lakehouse/_get_lakehouse_tables.py:278-300 | the loop over the eleven export columns gives exactly `FillDefaults` |
| LakehouseTables.FillDefaultsColumns | src/sempy_labs/lakehouse/_get_lakehouse_tables.py:278-300 | `FillDefaults` keeps every row and the existing columns, in order, and adds only listed columns; afterwards every listed column exists |
| LakehouseTables.FillDefaultsKeeps | src/sempy_labs/lakehouse/_get_lakehouse_tables.py:278-279 | filling keeps the value of every existing column in every row |
| LakehouseTables.FillDefaultsFills | src/sempy_labs/lakehouse/_get_lakehouse_tables.py:279-300 | a listed column that was missing holds its default in every row: 0 for counts and guardrails, the text `None` for the SKU, False for the hit flags |
| LakehouseTables.ExportFrameShape | src/sempy_labs/lakehouse/_get_lakehouse_tables.py:264-306 | the export table has one row per table row, every one of the eleven export columns, and `Timestamp` then `RunId` as its last columns, holding the call's time and run id in every row |
| LakehouseTables.RunIdSpec | src/sempy_labs/lakehouse/_get_lakehouse_tables.py:253-260 | `RunId` is 1 iff no listed table is `lakehouse_table_details`, or the stored maximum is 0; when one is listed, it is the stored maximum plus one |
| LakehouseTables.GetLakehouseTables | src/sempy_labs/lakehouse/_get_lakehouse_tables.py:81-312 | the whole call gives exactly `LakehouseTables`: the listing, the measuring loop, the extended columns and the export table |
| LakehouseTables.EmptyFirstPage | src/sempy_labs/lakehouse/_get_lakehouse_tables.py:102-104 | an empty first API page returns the empty base table with nothing measured and nothing exported |
| LakehouseTables.FolderFallback | src/sempy_labs/lakehouse/_get_lakehouse_tables.py:97-139 | when the tables API fails, `ListTables` gives the folder listing, and every table in it is a managed Delta table |
| LakehouseTables.TableOutcome | src/sempy_labs/lakehouse/_get_lakehouse_tables.py:141-312 | once the table is built, `LakehouseTables` returns it; without `export` nothing is exported; with `export` and an attached lakehouse the export table of that table and its `RunId` is |
| LakehouseTables.BaseModeTable | src/sempy_labs/lakehouse/_get_lakehouse_tables.py:141-145 | without `extended` (and without `count_rows`) the table is the listed rows with the seven base columns, one record per row |
| LakehouseTables.CountRowsImpliesExtended | src/sempy_labs/lakehouse/_get_lakehouse_tables.py:86-87 | `count_rows` forces extended mode: the table is the one `extended` would give, and when built it has the extended columns including `Row Count` and `Row Count Guardrail Hit` |
| LakehouseTables.ExportNeedsAttachedLakehouse | src/sempy_labs/lakehouse/_get_lakehouse_tables.py:247-251 | exporting without an attached lakehouse raises once the table has been built |
| JsonValues.Lookup | src/sempy_labs/lakehouse/_get_lakehouse_tables.py:112-115 | `d.get(k)` finds a value iff some field has key `k`, and then the value belongs to a field with that key |
| JsonValues.SetKeyFresh | src/sempy_labs/_job_scheduler.py:50-55 | assigning a key absent from a dict appends it at the end |
| JsonValues.DumpsPrintable | src/sempy_labs/_job_scheduler.py:214 | `json.dumps` with `ensure_ascii` writes only printable ASCII characters |
| JsonValues.ReprStringPlain | src/sempy_labs/_job_scheduler.py:52 | `repr` of a string of printable ASCII without quotes or backslashes is the string in single quotes |
| JsonValues.ReprStringApostrophe | src/sempy_labs/_job_scheduler.py:52 | `repr` of a string holding `'` but no `"`, otherwise printable ASCII without backslashes, is the string in double quotes, unescaped |
| JsonValues.ReprStringHasNo | src/sempy_labs/_job_scheduler.py:413 | a character absent from a string that is neither a quote, a backslash, a digit nor a lower-case letter is absent from its `repr` |
| PyStrings.CapitalizeMatches | src/sempy_labs/directlake/_generate_shared_expression.py:47-48 | `s.capitalize() == w`, for a capitalised word `w`, iff `s` and `w` lower-case alike |
| PyStrings.SplitCount | src/sempy_labs/_job_scheduler.py:413 | `split` yields one more piece than there are separators |
| PyStrings.SplitJoin | src/sempy_labs/_job_scheduler.py:269 | joining the pieces of `split(c)` with `c` gives the string back |
| PyStrings.LastSegmentIsTail | src/sempy_labs/_job_scheduler.py:269 | `split("/")[-1]` is the text after the last `/`, or the whole string if it has none |
| PyStrings.Find | src/sempy_labs/lakehouse/_get_lakehouse_tables.py:202 | `find` returns the first index at which the text occurs, or -1 when it does not occur |
| PyStrings.ReplaceAllKeepsPrefix | src/sempy_labs/lakehouse/_get_lakehouse_tables.py:164-165 | `replace` copies unchanged a prefix in which no occurrence starts |
| Folds.MapAllOk | src/sempy_labs/_job_scheduler.py:119-135 | a record-by-record fold succeeds iff every step does, and then gives one result per record in order |
| Folds.MapAllErr | src/sempy_labs/_job_scheduler.py:119-135 | a failing fold reports the error of the first record whose step fails |
| Folds.ConcatAllOk | src/sempy_labs/lakehouse/_get_lakehouse_tables.py:106-117 | a page-by-page concatenation succeeds iff every page does, and then holds as many rows as the pages yield together |

## Left out

- HTTP transport, pagination, long-running operations and status-code checks of `_base_api` are not modelled. Pages and bodies are inputs, and a failing call is the `FetchFailed` error.
- The workspace, item and lakehouse resolvers are not modelled. Their answer is an input: a `Resolved` value or an error.
- `fabric.list_items` in the web import is not modelled. The model takes whether a notebook of that name exists.
- Base64 encoding and decoding are not modelled. The encoded payload is an input, and the decoder is a function parameter.
- `create_item`, which `create_notebook` calls, is not modelled. The model states the definition payload handed to it.
- `create_abfss_path` is not modelled; it is a function parameter. The same function is used for the listed locations and for the Delta paths.
- `get_sku_size`, `get_directlake_guardrails_for_sku`, `_get_column_aggregate` and `lakehouse_attached` are not modelled. Their answers are the `Guardrail`, `storedMaxRunId` and `attached` inputs.
- `datetime.now()` is the `now` input.
- `_mount`, `os.listdir`, `os.path.exists`, `os.path.getsize` and `pq.ParquetFile` are not modelled. The mounted lakehouse is a map of files with their sizes and row-group counts.
- Delta and Spark reads (`DeltaTable`, `_get_delta_table`, `_read_delta_table`, `detail()`, `count()`) are not modelled. Each Delta table is a snapshot of its add-action paths, input files, detail fields and row count.
- `_pure_python_notebook()` is the `purePython` flag of the storage.
- `save_as_delta_table` is not modelled. The exported table is returned alongside the result instead of being written.
- pandas is not modelled. Data frames are column lists with one record per row. `_update_dataframe_datatypes` and `json_normalize` are not modelled, because they change dtypes only. The integer casts are modelled by the only effect they have here: `TypeError` on None.
- LakehouseTables.RowDetails: a managed row whose table name is not a string is reported as `TypeError`. The source would build a path from it in some other way.
- `lower`, `capitalize` and case comparisons use ASCII case mapping only; Unicode case rules are not modelled.
- Printing, logging and the `@log` decorator have no effect on results and are left out.
- `cancel_item_job_instance` is left out. It is a single POST, with no shaping of its own beyond the request path.
- The functions of `_data_pipelines.py` are not part of this model. They are context for the job scheduler, not part of the core.
- SharedExpression.SqlExpressionRoundTrip: the connection string must contain no double quote. A quote inside it makes the expression ambiguous, and the source does not escape it.
- JsonValues.Repr: non-ASCII characters that Python's `repr` escapes (non-printable code points above 0x7f) are kept as they are; the quote choice and the escapes of backslash, the quote, `\n`, `\r`, `\t` and other ASCII control characters are modelled.
- JobScheduler.CreateItemScheduleRequest, JobScheduler.UpdateItemScheduleRequest: they run the documented check `CheckScheduleArgs`, not the check as written, so a call with `interval=None` is accepted where the source raises `TypeError` and a times list of more than 100 items is refused where the source lets it through (see Findings).
- LakehouseTables.FileSuffixAfterTable: it requires the first occurrence of the table name to be the one before the file's own part. When the name occurs earlier in the URI, the source slices after that earlier occurrence, and the model does the same.

## Findings

| source | as written | input that shows it | evidently intended | confidence | as-written member | corrected member |
|---|---|---|---|---|---|---|
| src/sempy_labs/_job_scheduler.py:411-412 | `interval is not None and interval < 1 or interval > 5270400` groups as `(A and B) or C`, so `None > 5270400` is evaluated when no interval is given and raises `TypeError` (same at lines 498-499) | a daily schedule with `interval=None` (`JobScheduler.AsWrittenRejectsMissingInterval`) | check the range only when an interval is given | not executed | JobScheduler.CheckScheduleArgsAsWritten | JobScheduler.CheckScheduleArgs |
| src/sempy_labs/_job_scheduler.py:413-414 | `len(str(times).split('.')) > 100` counts the dots in the text of the list, not the list's items (same at lines 500-501) | 150 time slots `"09:00"` pass (`JobScheduler.AsWrittenAcceptsLongTimesList`) | at most 100 items in the `times` list | not executed | JobScheduler.CheckScheduleArgsAsWritten | JobScheduler.CheckScheduleArgs |
