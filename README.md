# JSON-to-workbook service: a verified model

The service takes a JSON payload and turns it into an `.xlsx` workbook. It can do this in two ways:

- It asks an external producer (an LLM agent that writes files into a shared directory) to build the workbook, and adopts the newest workbook the producer left behind.
- It converts the payload itself, either directly or as a fallback.

Every workbook is registered in an in-memory store (`temp_files`) under a fresh id. The store can then be downloaded from, listed, swept for entries older than an hour, and cleared.

This project models the core of the two service files in Dafny:

- `python_agent_api/main.py`, the newer service, with size tiers and direct-conversion fallbacks;
- `python_agent_api/main_backup.py`, the older service, with no tiers, a single-sheet fallback and a batch endpoint.

It proves what each operation promises about that model.

The store functions of the older service are the same code as those of the newer one, and one class models both:

- `cleanup_expired_files` is `python_agent_api/main_backup.py:70-87`;
- `download_file` is `python_agent_api/main_backup.py:284-304`;
- `list_files` is `python_agent_api/main_backup.py:360-378`;
- `cleanup_all_files` is `python_agent_api/main_backup.py:380-402`.

| file | module | what it holds |
|---|---|---|
| `wrappers.dfy` | `Wrappers` | `Option` |
| `json.dfy` | `JsonValue` | a parsed JSON value (objects keep insertion order) and the three outcomes of `json.loads` |
| `naming.dfy` | `Naming` | file-name sanitising, storage paths, `os.path.basename`, previews, the 31-character sheet name, decimal rendering |
| `sheets.dfy` | `SheetPlan` | the sheet writes of `direct_json_to_excel` and of the older single-sheet fallback, with a stand-in for `pd.json_normalize` |
| `strategy.dfy` | `Strategy` | size tiers, the mapping of producer outcomes, the branch each service takes, new-workbook detection |
| `store.dfy` | `ArtifactStore` | the `temp_files` registry and the disk it points into, as a class with `Register`, `Download`, `ListFiles`, `CleanupExpired` and `CleanupAll` |
| `service.dfy` | `Service` | `process_json_data` of `main.py`, proved against `Strategy.MainRoute` |
| `backup.dfy` | `BackupService` | `process_json_data` and `batch_process_json` of `main_backup.py`, and the batch aggregate |

How the outside world is modelled:

- The file system is a map `disk` from path to content. `os.path.exists(p)` is `p in disk`.
- Paths whose `os.remove` raises are given as a set `stuck`.
- `json.loads` is a function `parse: string -> ParseOutcome`.
- The producer's behaviour is a `ProducerRun`: whether it replied, hit a `RecursionError` or raised, and which files it wrote.
- The error of each direct or fallback workbook write is an `Option<string>`.
- `os.path.getmtime` is `mtime: string -> int`.
- `uuid4()` is a fresh id given as a parameter, under a precondition that it is not already registered.
- `datetime.now()` is an integer number of seconds.
- The producer runs arbitrary code in the shared directory, but the model only lets it add or overwrite files there. It never deletes or renames one, so a workbook present before a run is still present after it.

The code does not do the following, although a reader might expect it to; the model follows the code:

- Two keys whose first 31 characters coincide write to the same sheet name. There is no disambiguating suffix.
- Scalar keys each make a separate write to `Summary`, in key order. They are not collected into one sheet placed after the others.
- A name that sanitises to the empty string gives `_processed.xlsx`. There is no default base name.
- An empty list or object produces no special sheet. An empty object plans no write at all.
- Producer outcomes are not all treated as "no artifact produced":
  - in `main.py`, a `RecursionError` takes the large-data path and other exceptions take the fallback path, each with its own note;
  - in `main_backup.py`, any producer exception fails the request.
- `cleanup_all_files` stops at the first removal that raises. The records visited before it are already gone and the rest stay.

## Model

| member | source | states |
|---|---|---|
| Naming.KeepAllowed | python_agent_api/main.py:120 | the filtered name holds only alphanumerics, space, `-` and `_`, and is no longer than the input; `KeepAllowedSingle` and `KeepAllowedAppend` pin it down character by character |
| Naming.KeepAllowedAppend | python_agent_api/main.py:120 | filtering a concatenation is the concatenation of the filtered parts, so the filter works character by character and keeps order |
| Naming.KeepAllowedSingle | python_agent_api/main.py:120 | a single character is kept exactly when it is alphanumeric, a space, `-` or `_`, and dropped otherwise; with the append law this fixes the result for every name |
| Naming.KeepAllowedFixedPoint | python_agent_api/main.py:120 | filtering leaves a name unchanged exactly when every character is already allowed (both directions) |
| Naming.Sanitize | python_agent_api/main.py:120 | the sanitised base holds only allowed characters and neither starts nor ends with a space |
| Naming.SanitizeIsStrippedFilter | python_agent_api/main.py:120 | the sanitised base is a contiguous slice of the filtered name, so the characters keep their original order, and only spaces lie outside the slice |
| Naming.SanitizeIdempotent | python_agent_api/main.py:120 | sanitising a sanitised name changes nothing |
| Naming.DisplayName | python_agent_api/main.py:121 | the display name always ends in `_processed.xlsx`; `DisplayNameHasNoSeparator` adds that it has no `/` |
| Naming.DisplayNameHasNoSeparator | python_agent_api/main.py:121 | the display name `base + "_processed.xlsx"` contains no `/` |
| Naming.StoragePathBasename | python_agent_api/main.py:122 | the base name of the storage path is `{file_id}_{display}` |
| Naming.Basename | python_agent_api/main.py:327 | `os.path.basename` gives a separator-free suffix of the path that follows its last `/` |
| Naming.BasenameOfJoin | python_agent_api/main.py:327-331 | the base name of `dir/name` is `name` when the name has no separator |
| Naming.StoredPreview | python_agent_api/main.py:280 | the stored preview is the payload when it has at most 500 characters, otherwise its first 500 characters followed by `...` |
| Naming.ListPreview | python_agent_api/main.py:419 | the listed preview has `min(len, 100) + 3` characters: the preview's first 100 characters (or all of a shorter one) followed by `...`, appended unconditionally |
| Naming.ListPreviewOfStored | python_agent_api/main.py:419 | listing a stored preview shows the same text as listing the raw payload: the 500-character cut never shows through |
| Naming.SheetName | python_agent_api/main.py:136 | the sheet name is a prefix of the key: the whole key when it has at most 31 characters, otherwise exactly its first 31 |
| Naming.Decimal | python_agent_api/main_backup.py:321 | `str(n)` is a non-empty string of digits with no leading zero |
| Naming.DecimalRoundTrip | python_agent_api/main_backup.py:321 | reading `str(n)` back gives `n` |
| SheetPlan.Normalize | python_agent_api/main.py:127 | one row per record, in order, each the record's normalised row (non-object fields, then nested objects flattened under dotted names) |
| SheetPlan.FlatRecordIsItsRow | python_agent_api/main.py:139 | a record with no nested object normalises to exactly its own fields, in order |
| SheetPlan.Plan | python_agent_api/main.py:124-150 | a list gives one `Data` write with one row per element; an object gives one write per key; a scalar gives exactly `[Data: [{value: x}]]` |
| SheetPlan.PlanOfObjectAt | python_agent_api/main.py:130-145 | write i comes from key i: a list or object value targets `key[:31]` (a prefix of the key, at most 31 characters), an object gives one row, a list one row per element, and a scalar gives the single `{key: value}` row on `Summary` |
| SheetPlan.EmptyObjectPlansNothing | python_agent_api/main.py:130-145 | an empty object plans no write |
| SheetPlan.SummaryWrites | python_agent_api/main.py:136-145 | a write lands on `Summary` exactly when its value is a scalar or its key is `Summary` itself, which nothing keeps apart |
| SheetPlan.FallbackPlan | python_agent_api/main_backup.py:237-254 | the older fallback always writes exactly one sheet, `Data`; an object becomes the single row of its normalisation |
| SheetPlan.FallbackAgreesOffObjects | python_agent_api/main_backup.py:238-244 | for lists and scalars the older fallback writes the same as the newer direct conversion |
| SheetPlan.FallbackOfFlatObject | python_agent_api/main_backup.py:240-242 | the fallback of a flat object is the single row of its fields |
| Strategy.TierFor | python_agent_api/main.py:162-218 | over 100000 characters is direct-only, 50001 to 100000 uses the file-path prompt, 50000 or fewer is inline (each an iff) |
| Strategy.TierMonotone | python_agent_api/main.py:166-174 | a larger payload never gets a less conservative tier |
| Strategy.ConvertWithAgno | python_agent_api/main.py:157-230 | no producer call above the direct threshold; a failure exactly when the producer raised something other than `RecursionError`, with the `Agno AI processing failed: ` prefix; a reply with content gives exactly that text, and text comes from nowhere else |
| Strategy.MainRoute | python_agent_api/main.py:258-375 | the producer's file is adopted exactly when it returned text and a new workbook appeared, with that text; the request fails exactly when no file is adopted and the direct write that decides it (the retry after `None`, otherwise the first) failed |
| Strategy.DelegationNeverFailsRequest | python_agent_api/main.py:258-384 | whatever the producer does, a request whose direct conversion can be written succeeds, and every failure carries `Processing failed: Direct conversion failed: ` |
| Strategy.RouteByProducerOutcome | python_agent_api/main.py:267-375 | `None` or a `RecursionError` gives the large-data note, an exception gives the fallback note quoting it, no new file gives the no-file note, and a new file is adopted with the producer's text |
| Strategy.RetryAfterFailedWrite | python_agent_api/main.py:267-315 | after `None` and a failed first direct conversion, a successful retry is registered with `Fallback conversion used due to: Direct conversion failed: ` and the first error; a failed retry fails the request with the second error |
| Strategy.RetryOnlyAfterUseDirect | python_agent_api/main.py:293-315 | the second direct attempt matters only after the producer signalled `None` |
| Strategy.ProducerErrorFailsOnlyTheBackup | python_agent_api/main_backup.py:183-282 | in the older service any producer exception, a `RecursionError` included, fails the request with `Processing failed: Agno AI processing failed: `; in the newer one it leads to a direct conversion |
| Strategy.BackupAbortOnlyFromFallback | python_agent_api/main_backup.py:230-276 | the HTTP 500 occurs exactly when the producer replied with content, left no new workbook, and the fallback write failed |
| Strategy.BackupRouteFor | python_agent_api/main_backup.py:183-276 | the older service adopts exactly when the producer replied with content and a new workbook appeared; it falls back exactly when it replied with content, no workbook appeared and the fallback write succeeded; any other producer outcome is a `success=False` response |
| Strategy.NewestNewFile | python_agent_api/main.py:318-323 | `None` exactly when nothing is new; otherwise the chosen file is in after and not in before, and its mtime is at least that of every new file |
| ArtifactStore.Store.constructor | python_agent_api/main.py:44-45 | a new store has no record and the given directory and disk |
| ArtifactStore.Without | python_agent_api/main.py:397-399 | deleting keys from the dict keeps the others in order and no key twice |
| ArtifactStore.Store.Register | python_agent_api/main.py:276-281 | a fresh id maps to its record with the stored preview and is appended to the insertion order; the disk is untouched |
| ArtifactStore.Store.Download | python_agent_api/main.py:386-406 | an unknown id gives 404 `File not found or expired` with the store unchanged; a record whose file is gone is deleted before a 404 `File not found on disk`; otherwise the stored path and filename are served with the store unchanged |
| ArtifactStore.Store.ListFiles | python_agent_api/main.py:408-426 | one listing per record, in insertion order, with id, filename, time, `/download/{id}` and the listed preview; the count equals the number of records |
| ArtifactStore.Store.CleanupExpired | python_agent_api/main.py:62-79 | exactly the records strictly older than 3600 seconds are removed, in order; the files of those not in `stuck` are removed from disk; nothing else changes |
| ArtifactStore.CollectExpired | python_agent_api/main.py:65-69 | the collected ids are exactly the records strictly older than 3600 seconds, each once, in insertion order |
| ArtifactStore.DropRecords | python_agent_api/main.py:71-79 | the records of the collected ids are gone, the order keeps the rest, and their files are gone from disk except those whose removal raised |
| ArtifactStore.Store.CleanupAll | python_agent_api/main.py:428-450 | the store and disk end as the sweep over the snapshot describes: everything cleared with the count of removed files, or stopped at the first failing removal with the earlier records gone and the rest kept |
| ArtifactStore.SweepRecords | python_agent_api/main.py:432-439 | the loop over the snapshot yields exactly the sweep's disk, count and stopping position, and the records left after it |
| ArtifactStore.Sweep | python_agent_api/main.py:434-439 | the sweep removes at most one file per visited record and stops, if at all, at one of them; `SweepCompletes`, `SweepStopsAtStuck` and `SweepKeepsRemoved` state what it leaves on disk |
| ArtifactStore.SweepCompletes | python_agent_api/main.py:432-444 | with no failing removal the sweep finishes, removes exactly the visited paths from the disk, and counts exactly the files that existed |
| ArtifactStore.SweepStopsAtStuck | python_agent_api/main.py:434-450 | a sweep that stops does so at an existing file whose removal raised, and every earlier path is off the disk |
| ArtifactStore.SweepKeepsRemoved | python_agent_api/main.py:434-439 | the sweep never brings a file back |
| ArtifactStore.RegisterThenDownload | python_agent_api/main.py:390-406 | a record registered with an existing file is served right away |
| ArtifactStore.DownloadPrunesMissing | python_agent_api/main.py:396-400 | after a download finds the file gone, the listing no longer shows the record |
| Service.GlobbedIsJoined | python_agent_api/main.py:327-331 | a listed workbook is `dir/` followed by its separator-free base name, so renaming keeps it in the directory |
| Service.NoWorkbooksWhenSkipped | python_agent_api/main.py:166-168 | when the producer is skipped no workbook can appear |
| Service.WriteDirect | python_agent_api/main.py:113-152 | the workbook is written at `{dir}/{id}_{base}_processed.xlsx` and registered under the display name with the stored preview |
| Service.AdoptNewest | python_agent_api/main.py:321-352 | the newest workbook is moved to `{dir}/{id}_{basename}` with its content and registered under its base name |
| Service.Process | python_agent_api/main.py:241-384 | invalid JSON gives 400 with nothing changed; otherwise the outcome, note and new store are those of `MainRoute` on the tier's producer result; a success is registered under the fresh id, its record points at the file just written (`{dir}/{id}_{display}`) or at the adopted file's new path (`{dir}/{id}_{basename}`), and that file exists |
| Service.ProcessThenDownload | python_agent_api/main.py:386-406 | a reported success can be downloaded immediately under the announced name; a failure leaves nothing to download |
| BackupService.Process | python_agent_api/main_backup.py:166-282 | the outcome and new store are those of `BackupRouteFor`: adoption of the newest workbook, the single-sheet fallback, `success=False`, or an HTTP 500; a success's record points at the fallback workbook or at the renamed adopted one |
| BackupService.ProcessItem | python_agent_api/main_backup.py:318-328 | the item is handled exactly as a request of its own with payload `PayloadOf(item)` and name `NameOf(item, i)`: response and new store are those `Handled` gives for `BackupRouteFor`; the store gains the item's id exactly when it succeeds |
| BackupService.BatchStep | python_agent_api/main_backup.py:314-340 | one pass of the loop: the item's response is appended to the results, to `processed_files` when it succeeded and labelled to `errors` otherwise; the store gains the item's id exactly when it succeeded; what was recorded about earlier items is unchanged and the new item is recorded as handled |
| BackupService.BatchProcess | python_agent_api/main_backup.py:306-350 | one response per item, in order; item i is handled as its own request with its defaults, from the store state item i-1 left to the next one; the batch answer is the aggregate of the responses; the store gains exactly the ids of the successes |
| BackupService.PayloadOf | python_agent_api/main_backup.py:320 | an item's payload is its `json_data`, or `'{}'` when it has none |
| BackupService.NameOf | python_agent_api/main_backup.py:321 | an item's name is its `file_name`, or `batch_file_` followed by digits that read back as i+1 |
| BackupService.Aggregate | python_agent_api/main_backup.py:342-350 | the count is the length of the processed list and at most the number of items; no error means every item was processed; `BatchSuccessIff` and `BatchErrorIff` state the flags in full |
| BackupService.BatchCountsAddUp | python_agent_api/main_backup.py:330-340 | every item lands in exactly one of the processed and error lists |
| BackupService.ProcessedOfAppend | python_agent_api/main_backup.py:330-335 | the processed list of consecutive items is the concatenation of theirs |
| BackupService.ProcessedInOrder | python_agent_api/main_backup.py:314-335 | a successful item's entry is its own id, name and URL, placed after the successes before it |
| BackupService.BatchSuccessIff | python_agent_api/main_backup.py:342 | `success` holds exactly when some item succeeded |
| BackupService.SomeSuccess | python_agent_api/main_backup.py:342 | a non-empty processed list comes from a successful item |
| BackupService.BatchErrorIff | python_agent_api/main_backup.py:343 | `error` is `None` exactly when every item succeeded |
| BackupService.FailureIsReported | python_agent_api/main_backup.py:336-340 | every failed item's `File {i+1}: ...` message is among the errors |
| BackupService.ErrorsAreLabelled | python_agent_api/main_backup.py:336-340 | every error message is `File {i+1}: ...` for a failed item i |
| BackupService.JoinSnoc | python_agent_api/main_backup.py:343 | a single error is reported without separator, and each further error is appended after one `; ` |
| BackupService.DefaultNamesDiffer | python_agent_api/main_backup.py:321 | two items without a name get different default names |

## Left out

- FastAPI routing, CORS, the pydantic request and response models, `/health`, `/` and the server start-up. These are framework wiring. Responses are the datatype `Service.Response`.
- The agent, the model behind it, `agent.run` and `os.environ`. The agent is an opaque producer, modelled as a `ProducerRun` given as input. The prompt texts are left out, and so is the scratch JSON file written for the file-path tier: the tier is only observed through which producer run happens.
- `pd.json_normalize`, `ExcelWriter` and openpyxl. Normalisation is a stand-in: non-object fields first, then nested objects flattened under dotted names; list values stay cells. How repeated writes to one sheet name overwrite each other is not modelled; a workbook is its list of writes.
- `json.loads` is a parameter `parse`. Numbers are kept as opaque tokens.
- JsonValue.Json: an object is a sequence of key-value pairs and may repeat a key, which a Python dict cannot. `parse` is taken to return objects with distinct keys; with a repeated key `SheetPlan.Plan` would plan one write per occurrence where the program plans one per distinct key.
- The `periodic_cleanup` daemon thread and `time.sleep`. This is concurrency without locks; the sweep is modelled as a sequential call.
- `uuid4`, `datetime.now` and `getmtime` are parameters. Time is integer seconds, and `isoformat` is not modelled.
- Naming.IsAlnum: `str.isalnum` is modelled on ASCII letters and digits only. Python also accepts other Unicode letters and digits.
- Service.Process: a single fresh id stands for both the id of a failed first direct write and the id of its retry. Files left behind by a failed write are not modelled, and neither are failures of `os.rename` or `getmtime`.
- Service.Process: a `file_name` sent as `null` is not modelled, because the model's file name is always a string.
- Strategy.NewestNewFile: on equal modification times the model may choose any of the newest files. Python's `max` keeps the first it meets in set iteration order, which is itself unspecified.
- BackupService.BatchProcess: the outer `Batch processing failed` handler is not modelled, because every per-item exception is already caught inside the loop. Items are maps from string to string, as the request model declares.
- BackupService.ErrorText: the text of an `HTTPException` is rendered as `status: detail`.
- SheetPlan.Plan: a direct conversion of `{}` plans no sheet, and the model lets such a write succeed with an empty workbook. openpyxl refuses to save a workbook without a visible sheet, so in the program that write fails; the model leaves this to the write-outcome parameter instead of forcing it.
- The `/cleanup` and `/files` JSON envelopes are not modelled. This covers the `success` flag and the `Cleaned up {n} files` message; `ArtifactStore.Cleared` carries the count or the failing path.
