/**
 * The older service, main_backup.py: `process_json_data` without size tiers
 * and with a single-sheet fallback (main_backup.py:166-282), and
 * `batch_process_json`, which runs it item by item and folds the responses
 * into one answer (main_backup.py:306-358).
 *
 * Its store functions are the same code as in main.py and are modelled by
 * `ArtifactStore.Store`; its responses are `Service.Response`.
 */
module BackupService {
  import opened Wrappers
  import opened JsonValue
  import Naming
  import SheetPlan
  import opened Strategy
  import opened ArtifactStore
  import opened Service

  const ServerError := 500

  /** The registry and the disk of a store at one moment. */
  datatype StoreState = StoreState(files: map<string, FileInfo>, order: seq<string>, disk: map<string, Content>)

  /** One request of `process_json_data` of main_backup.py, as a relation
      between the store state `st` before it and `st'` after it: a success is
      registered under the fresh id with the stored preview and its file
      exists; anything else leaves the registry alone; and the response and
      the disk are those of the branch `BackupRouteFor` chooses. */
  ghost predicate Handled(st: StoreState, dir: string, payload: string, fileName: string, parse: string -> ParseOutcome,
                          run: ProducerRun, write: Option<string>, fileId: string, now: int, mtime: string -> int,
                          resp: Response, st': StoreState)
  {
    && (resp.Converted? ==>
          && resp.fileId == fileId && resp.downloadUrl == Naming.DownloadUrl(fileId)
          && fileId in st'.files && st'.files == st.files[fileId := st'.files[fileId]] && st'.order == st.order + [fileId]
          && st'.files[fileId].filename == resp.fileName && st'.files[fileId].path in st'.disk
          && st'.files[fileId].createdAt == now && st'.files[fileId].preview == Naming.StoredPreview(payload))
    && (!resp.Converted? ==> st'.files == st.files && st'.order == st.order)
    && (parse(payload).Malformed? ==>
          resp == HttpError(BadRequest, InvalidJsonPrefix + parse(payload).message) && st'.disk == st.disk)
    && (parse(payload).ParserCrashed? ==>
          resp == Failed(ProcessingFailedPrefix + parse(payload).message) && st'.disk == st.disk)
    && (parse(payload).Parsed? ==>
          var disk1 := Deposit(st.disk, run.produced);
          var arrived := Arrivals(dir, st.disk, disk1);
          var route := BackupRouteFor(run.result, arrived != {}, write);
          && (route.Unsuccessful? ==> resp == Failed(route.error) && st'.disk == disk1)
          && (route.Abort? ==> resp == HttpError(ServerError, route.detail) && st'.disk == disk1)
          && (route.Fallback? ==>
                var name := Naming.DisplayName(fileName);
                && resp == Converted(fileId, name, Naming.DownloadUrl(fileId), BackupFallbackNote)
                && st'.files[fileId].path == Naming.StoragePath(dir, fileId, name)
                && st'.disk == disk1[Naming.StoragePath(dir, fileId, name) := Workbook(SheetPlan.FallbackPlan(parse(payload).value))])
          && (route.Adopted? ==>
                && resp.Converted?
                && var newest := Naming.JoinPath(dir, resp.fileName);
                && resp.analysis == route.analysis
                && newest in arrived && resp.fileName == Naming.Basename(newest)
                && st'.files[fileId].path == Naming.JoinPath(dir, Naming.ManagedName(fileId, resp.fileName))
                && (forall f :: f in arrived ==> mtime(f) <= mtime(newest))
                && st'.disk == (disk1 - {newest})[Naming.JoinPath(dir, Naming.ManagedName(fileId, resp.fileName)) := disk1[newest]]))
  }

  /** `process_json_data` of main_backup.py: the producer always runs; a
      producer error fails the request; without a new workbook the fallback
      writes one `Data` sheet, and a fallback failure is an HTTP 500. */
  method Process(s: Store, payload: string, fileName: string, parse: string -> ParseOutcome, run: ProducerRun,
                 write: Option<string>, fileId: string, now: int, mtime: string -> int)
    returns (resp: Response)
    requires s.Valid() && fileId !in s.files
    modifies s
    ensures s.Valid()
    ensures Handled(StoreState(old(s.files), old(s.order), old(s.disk)), s.dir, payload, fileName, parse, run, write, fileId, now, mtime,
                    resp, StoreState(s.files, s.order, s.disk))
  {
    var parsed := parse(payload);
    if parsed.Malformed? {
      return HttpError(BadRequest, InvalidJsonPrefix + parsed.message);
    }
    if parsed.ParserCrashed? {
      return Failed(ProcessingFailedPrefix + parsed.message);
    }
    var before := Glob(s.dir, s.disk.Keys);
    s.disk := Deposit(s.disk, run.produced);
    match run.result {
      case RecursionLimit(m) =>
        resp := Failed(ProcessingFailedPrefix + AgnoFailurePrefix + m);
      case Raised(m) =>
        resp := Failed(ProcessingFailedPrefix + AgnoFailurePrefix + m);
      case Replied(content) =>
        if content.None? {
          // `ai_response[:200]` in the log line raises before anything else
          resp := Failed(ProcessingFailedPrefix + NoneNotSubscriptable);
        } else {
          var after := Glob(s.dir, s.disk.Keys);
          assert after - before == Arrivals(s.dir, old(s.disk), s.disk);
          var newest := NewestNewFile(before, after, mtime);
          if newest.Some? {
            GlobbedIsJoined(s.dir, newest.value);
            resp := AdoptNewest(s, newest.value, Naming.Basename(newest.value), fileId, now, payload, content.value);
          } else if write.None? {
            resp := WriteDirect(s, SheetPlan.FallbackPlan(parsed.value), fileName, fileId, now, payload, BackupFallbackNote);
          } else {
            resp := HttpError(ServerError, BothFailedPrefix + write.value);
          }
        }
    }
  }

  // ---------------------------------------------------------------------------
  // batch_process_json (main_backup.py:306-358)
  // ---------------------------------------------------------------------------

  /** One element of `request.json_files`. */
  type BatchItem = map<string, string>

  /** What the world does for one item: the producer's run, the error of the
      fallback write (if any), the id `uuid4()` gives and the time. */
  datatype ItemEnv = ItemEnv(run: ProducerRun, write: Option<string>, fileId: string, now: int)

  /** One element of `processed_files`. */
  datatype Processed = Processed(fileId: string, fileName: string, downloadUrl: string)

  datatype BatchResponse = BatchResponse(success: bool, processedFiles: seq<Processed>, processedCount: nat, error: Option<string>)

  const DefaultPayload := "{}"
  const DefaultNamePrefix := "batch_file_"
  const ErrorSeparator := "; "

  /** `file_data.get('json_data', '{}')` */
  function PayloadOf(item: BatchItem): (r: string)
    ensures "json_data" in item ==> r == item["json_data"]
    ensures "json_data" !in item ==> r == DefaultPayload
  {
    if "json_data" in item then item["json_data"] else DefaultPayload
  }

  /** `file_data.get('file_name', f'batch_file_{i+1}')` */
  function NameOf(item: BatchItem, i: nat): (r: string)
    ensures "file_name" in item ==> r == item["file_name"]
    ensures "file_name" !in item ==>
      && |r| > |DefaultNamePrefix| && r[..|DefaultNamePrefix|] == DefaultNamePrefix
      && (forall k :: |DefaultNamePrefix| <= k < |r| ==> Naming.IsDigit(r[k]))
      && Naming.DigitsValue(r[|DefaultNamePrefix|..]) == i + 1
  {
    if "file_name" in item then item["file_name"]
    else
      var digits := Naming.Decimal(i + 1);
      var r := DefaultNamePrefix + digits;
      assert r[|DefaultNamePrefix|..] == digits;
      Naming.DecimalRoundTrip(i + 1);
      r
  }

  /** What `str(e)` or `result.error` contributes for a response that is not a
      success: an `HTTPException` prints as `status: detail`. */
  function ErrorText(r: Response): string {
    match r
    case Failed(e) => e
    case HttpError(status, detail) => Naming.Decimal(status) + ": " + detail
    case Converted(_, _, _, _) => ""
  }

  /** `f"File {i+1}: ..."` */
  function ErrorLine(i: nat, r: Response): string {
    "File " + Naming.Decimal(i + 1) + ": " + ErrorText(r)
  }

  /** The `processed_files` entries of the responses, in order. */
  function ProcessedOf(rs: seq<Response>): seq<Processed> {
    if rs == [] then []
    else
      var last := rs[|rs| - 1];
      ProcessedOf(rs[..|rs| - 1]) + if last.Converted? then [Processed(last.fileId, last.fileName, last.downloadUrl)] else []
  }

  /** The `errors` entries of the responses, in order, labelled by position. */
  function ErrorsOf(rs: seq<Response>): seq<string> {
    if rs == [] then []
    else
      var last := rs[|rs| - 1];
      ErrorsOf(rs[..|rs| - 1]) + if last.Converted? then [] else [ErrorLine(|rs| - 1, last)]
  }

  /** `sep.join(parts)` */
  function Join(parts: seq<string>, sep: string): string {
    if parts == [] then ""
    else if |parts| == 1 then parts[0]
    else Join(parts[..|parts| - 1], sep) + sep + parts[|parts| - 1]
  }

  /** The response built from the per-item responses (main_backup.py:342-350). */
  function Aggregate(rs: seq<Response>): (r: BatchResponse)
    ensures r.processedCount == |r.processedFiles| <= |rs|
    ensures r.error.None? ==> r.processedCount == |rs|
  {
    BatchCountsAddUp(rs);
    var processed := ProcessedOf(rs);
    var errors := ErrorsOf(rs);
    BatchResponse(|processed| > 0, processed, |processed|, if errors != [] then Some(Join(errors, ErrorSeparator)) else None)
  }

  /** The ids of the successful responses. */
  function ConvertedIds(rs: seq<Response>): set<string> {
    set i | 0 <= i < |rs| && rs[i].Converted? :: rs[i].fileId
  }

  lemma AggregateSnoc(rs: seq<Response>, r: Response)
    ensures ProcessedOf(rs + [r]) == ProcessedOf(rs) + if r.Converted? then [Processed(r.fileId, r.fileName, r.downloadUrl)] else []
    ensures ErrorsOf(rs + [r]) == ErrorsOf(rs) + if r.Converted? then [] else [ErrorLine(|rs|, r)]
  {
    assert (rs + [r])[..|rs|] == rs;
  }

  lemma ConvertedIdsAppend(rs: seq<Response>, r: Response)
    ensures ConvertedIds(rs + [r]) == ConvertedIds(rs) + if r.Converted? then {r.fileId} else {}
  {
    var rs' := rs + [r];
    forall id | id in ConvertedIds(rs') ensures id in ConvertedIds(rs) + if r.Converted? then {r.fileId} else {} {
      var i :| 0 <= i < |rs'| && rs'[i].Converted? && rs'[i].fileId == id;
      if i < |rs| {
        assert rs[i] == rs'[i];
      }
    }
    forall id | id in ConvertedIds(rs) ensures id in ConvertedIds(rs') {
      var i :| 0 <= i < |rs| && rs[i].Converted? && rs[i].fileId == id;
      assert rs'[i] == rs[i];
    }
    if r.Converted? {
      assert rs'[|rs|] == r;
    }
  }

  /** One iteration of the batch loop: the item's request, with its defaults
      for the payload and the file name, goes through `Process`. */
  method ProcessItem(s: Store, item: BatchItem, i: nat, parse: string -> ParseOutcome, env: ItemEnv, mtime: string -> int)
    returns (resp: Response)
    requires s.Valid() && env.fileId !in s.files
    modifies s
    ensures s.Valid()
    ensures Handled(StoreState(old(s.files), old(s.order), old(s.disk)), s.dir, PayloadOf(item), NameOf(item, i), parse,
                    env.run, env.write, env.fileId, env.now, mtime, resp, StoreState(s.files, s.order, s.disk))
    ensures s.files.Keys == old(s.files).Keys + if resp.Converted? then {env.fileId} else {}
  {
    resp := Process(s, PayloadOf(item), NameOf(item, i), parse, env.run, env.write, env.fileId, env.now, mtime);
  }

  /** Item `i` of a batch was handled as a request of its own, from the store
      state `states[i]` to `states[i + 1]`. */
  ghost predicate ItemHandled(states: seq<StoreState>, i: nat, dir: string, items: seq<BatchItem>, parse: string -> ParseOutcome,
                              envs: seq<ItemEnv>, mtime: string -> int, results: seq<Response>)
    requires i < |items| && i < |envs| && i < |results| && i + 1 < |states|
  {
    Handled(states[i], dir, PayloadOf(items[i]), NameOf(items[i], i), parse, envs[i].run, envs[i].write, envs[i].fileId,
            envs[i].now, mtime, results[i], states[i + 1])
  }

  /** `batch_process_json`: every item is processed in turn against the same
      store, each as a request of its own with its defaults, from the state the
      previous item left; the batch answer is the aggregate of the responses,
      and the store gains exactly the records of the successes. */
  method BatchProcess(s: Store, items: seq<BatchItem>, parse: string -> ParseOutcome, envs: seq<ItemEnv>, mtime: string -> int)
    returns (batch: BatchResponse, results: seq<Response>, ghost states: seq<StoreState>)
    requires s.Valid() && |envs| == |items|
    requires forall i :: 0 <= i < |envs| ==> envs[i].fileId !in s.files
    requires forall i, j :: 0 <= i < j < |envs| ==> envs[i].fileId != envs[j].fileId
    modifies s
    ensures s.Valid()
    ensures |results| == |items| && batch == Aggregate(results)
    ensures |states| == |items| + 1
    ensures states[0] == StoreState(old(s.files), old(s.order), old(s.disk))
    ensures states[|items|] == StoreState(s.files, s.order, s.disk)
    ensures forall i :: 0 <= i < |items| ==> ItemHandled(states, i, s.dir, items, parse, envs, mtime, results)
    ensures s.files.Keys == old(s.files).Keys + ConvertedIds(results)
  {
    var processed: seq<Processed> := [];
    var errors: seq<string> := [];
    results := [];
    states := [StoreState(s.files, s.order, s.disk)];
    var i := 0;
    while i < |items|
      invariant 0 <= i <= |items| && |results| == i && |states| == i + 1
      invariant s.Valid()
      invariant processed == ProcessedOf(results) && errors == ErrorsOf(results)
      invariant forall k :: i <= k < |envs| ==> envs[k].fileId !in s.files
      invariant states[0] == StoreState(old(s.files), old(s.order), old(s.disk))
      invariant states[i] == StoreState(s.files, s.order, s.disk)
      invariant forall k :: 0 <= k < i ==> ItemHandled(states, k, s.dir, items, parse, envs, mtime, results)
      invariant s.files.Keys == old(s.files).Keys + ConvertedIds(results)
    {
      processed, errors, results, states := BatchStep(s, items, i, parse, envs, mtime, processed, errors, results, states);
      i := i + 1;
    }
    batch := BatchResponse(|processed| > 0, processed, |processed|, if errors != [] then Some(Join(errors, ErrorSeparator)) else None);
  }

  /** The body of the batch loop for item `i`: its request goes through
      `ProcessItem`, and its response is appended to `processed_files` or,
      labelled, to `errors`. */
  method BatchStep(s: Store, items: seq<BatchItem>, i: nat, parse: string -> ParseOutcome, envs: seq<ItemEnv>, mtime: string -> int,
                   processed: seq<Processed>, errors: seq<string>, results: seq<Response>, ghost states: seq<StoreState>)
    returns (processed': seq<Processed>, errors': seq<string>, results': seq<Response>, ghost states': seq<StoreState>)
    requires s.Valid() && i < |items| && i < |envs| && |results| == i && |states| == i + 1
    requires processed == ProcessedOf(results) && errors == ErrorsOf(results)
    requires envs[i].fileId !in s.files && states[i] == StoreState(s.files, s.order, s.disk)
    modifies s
    ensures s.Valid()
    ensures |results'| == i + 1 && results'[..i] == results && states' == states + [StoreState(s.files, s.order, s.disk)]
    ensures processed' == ProcessedOf(results') && errors' == ErrorsOf(results')
    ensures s.files.Keys == old(s.files).Keys + if results'[i].Converted? then {envs[i].fileId} else {}
    ensures ConvertedIds(results') == ConvertedIds(results) + if results'[i].Converted? then {envs[i].fileId} else {}
    ensures forall k :: 0 <= k < i + 1 ==> (ItemHandled(states', k, s.dir, items, parse, envs, mtime, results') <==>
                                           (k < i ==> ItemHandled(states, k, s.dir, items, parse, envs, mtime, results)))
  {
    var resp := ProcessItem(s, items[i], i, parse, envs[i], mtime);
    processed', errors' := processed, errors;
    if resp.Converted? {
      processed' := processed + [Processed(resp.fileId, resp.fileName, resp.downloadUrl)];
    } else {
      errors' := errors + [ErrorLine(i, resp)];
    }
    AggregateSnoc(results, resp);
    ConvertedIdsAppend(results, resp);
    ghost var st := StoreState(s.files, s.order, s.disk);
    ItemHandledSnoc(states, i, s.dir, items, parse, envs, mtime, results, resp, st);
    results' := results + [resp];
    states' := states + [st];
  }

  /** Recording one more item changes nothing recorded about the earlier
      items, and records the new one as the request it was. */
  lemma ItemHandledSnoc(states: seq<StoreState>, i: nat, dir: string, items: seq<BatchItem>, parse: string -> ParseOutcome,
                        envs: seq<ItemEnv>, mtime: string -> int, results: seq<Response>, r: Response, st: StoreState)
    requires i < |items| && i < |envs| && |results| == i && |states| == i + 1
    ensures forall k :: 0 <= k < i ==>
      (ItemHandled(states + [st], k, dir, items, parse, envs, mtime, results + [r]) <==> ItemHandled(states, k, dir, items, parse, envs, mtime, results))
    ensures ItemHandled(states + [st], i, dir, items, parse, envs, mtime, results + [r]) <==>
      Handled(states[i], dir, PayloadOf(items[i]), NameOf(items[i], i), parse, envs[i].run, envs[i].write, envs[i].fileId, envs[i].now, mtime, r, st)
  {
    forall k | 0 <= k < i
      ensures ItemHandled(states + [st], k, dir, items, parse, envs, mtime, results + [r]) <==> ItemHandled(states, k, dir, items, parse, envs, mtime, results)
    {
      assert (states + [st])[k] == states[k] && (states + [st])[k + 1] == states[k + 1] && (results + [r])[k] == results[k];
    }
    assert (states + [st])[i] == states[i] && (states + [st])[i + 1] == st && (results + [r])[i] == r;
  }

  // ---------------------------------------------------------------------------
  // What the aggregate promises
  // ---------------------------------------------------------------------------

  /** Every item lands in exactly one of the two lists. */
  lemma {:induction false} BatchCountsAddUp(rs: seq<Response>)
    ensures |ProcessedOf(rs)| + |ErrorsOf(rs)| == |rs|
  {
    if rs != [] {
      BatchCountsAddUp(rs[..|rs| - 1]);
    }
  }

  /** The processed entries of a concatenation are those of its parts, in order. */
  lemma {:induction false} ProcessedOfAppend(a: seq<Response>, b: seq<Response>)
    ensures ProcessedOf(a + b) == ProcessedOf(a) + ProcessedOf(b)
    decreases |b|
  {
    if b == [] {
      assert a + b == a;
    } else {
      var init := b[..|b| - 1];
      assert (a + b)[..|a + b| - 1] == a + init;
      ProcessedOfAppend(a, init);
    }
  }

  /** An item's processed entry is its own response's id, name and URL, at the
      place given by the successes before it: input order is kept. */
  lemma ProcessedInOrder(rs: seq<Response>, i: nat)
    requires i < |rs| && rs[i].Converted?
    ensures var k := |ProcessedOf(rs[..i])|;
      k < |ProcessedOf(rs)| && ProcessedOf(rs)[k] == Processed(rs[i].fileId, rs[i].fileName, rs[i].downloadUrl)
  {
    assert rs == rs[..i] + [rs[i]] + rs[i + 1..];
    ProcessedOfAppend(rs[..i] + [rs[i]], rs[i + 1..]);
    ProcessedOfAppend(rs[..i], [rs[i]]);
    assert ([] + [rs[i]])[..0] == [];
  }

  /** `success` holds exactly when some item was processed. */
  lemma BatchSuccessIff(rs: seq<Response>)
    ensures Aggregate(rs).success <==> exists i :: 0 <= i < |rs| && rs[i].Converted?
  {
    if Aggregate(rs).success {
      var i := SomeSuccess(rs);
    }
    if exists i :: 0 <= i < |rs| && rs[i].Converted? {
      var i :| 0 <= i < |rs| && rs[i].Converted?;
      ProcessedInOrder(rs, i);
    }
  }

  /** A non-empty processed list points at a successful item. */
  lemma {:induction false} SomeSuccess(rs: seq<Response>) returns (i: nat)
    requires |ProcessedOf(rs)| > 0
    ensures i < |rs| && rs[i].Converted?
  {
    var init := rs[..|rs| - 1];
    if rs[|rs| - 1].Converted? {
      i := |rs| - 1;
    } else {
      i := SomeSuccess(init);
      assert rs[i] == init[i];
    }
  }

  /** `error` is `None` exactly when every item was processed. */
  lemma {:induction false} BatchErrorIff(rs: seq<Response>)
    ensures Aggregate(rs).error.None? <==> forall i :: 0 <= i < |rs| ==> rs[i].Converted?
  {
    BatchCountsAddUp(rs);
    if forall i :: 0 <= i < |rs| ==> rs[i].Converted? {
      AllConvertedNoErrors(rs);
    } else {
      var i :| 0 <= i < |rs| && !rs[i].Converted?;
      FailureIsReported(rs, i);
    }
  }

  lemma {:induction false} AllConvertedNoErrors(rs: seq<Response>)
    requires forall i :: 0 <= i < |rs| ==> rs[i].Converted?
    ensures ErrorsOf(rs) == []
  {
    if rs != [] {
      AllConvertedNoErrors(rs[..|rs| - 1]);
    }
  }

  /** A failed item's labelled message is among the errors. */
  lemma {:induction false} FailureIsReported(rs: seq<Response>, i: nat)
    requires i < |rs| && !rs[i].Converted?
    ensures ErrorLine(i, rs[i]) in ErrorsOf(rs)
  {
    var init := rs[..|rs| - 1];
    if i < |init| {
      assert init[i] == rs[i];
      FailureIsReported(init, i);
    }
  }

  /** Every error message is a failed item's message, labelled with its position. */
  lemma {:induction false} ErrorsAreLabelled(rs: seq<Response>, e: string)
    requires e in ErrorsOf(rs)
    ensures exists i :: 0 <= i < |rs| && !rs[i].Converted? && e == ErrorLine(i, rs[i])
  {
    var init := rs[..|rs| - 1];
    if e in ErrorsOf(init) {
      ErrorsAreLabelled(init, e);
      var i :| 0 <= i < |init| && !init[i].Converted? && e == ErrorLine(i, init[i]);
      assert rs[i] == init[i];
    } else {
      assert e == ErrorLine(|rs| - 1, rs[|rs| - 1]);
    }
  }

  /** Joining one message adds no separator, and each further message is
      appended after one separator. */
  lemma JoinSnoc(parts: seq<string>, e: string, sep: string)
    ensures Join([e], sep) == e
    ensures parts != [] ==> Join(parts + [e], sep) == Join(parts, sep) + sep + e
  {
    assert (parts + [e])[..|parts|] == parts;
  }

  /** Two items without a `file_name` get different default names. */
  lemma DefaultNamesDiffer(i: nat, j: nat)
    requires i != j
    ensures NameOf(map[], i) != NameOf(map[], j)
  {
  }
}
