/**
 * `process_json_data` of the newer service (main.py:241-384): validate the
 * payload, ask the producer (or not, by size), and register either the
 * workbook the producer left in the directory or a directly converted one.
 *
 * What the outside world does is passed in: `parse` stands for `json.loads`,
 * `run` for what the producer returns and leaves behind, `firstWrite` and
 * `retryWrite` for the error (if any) of the first and of the second direct
 * conversion, `fileId` for `uuid4()`, `now` for `datetime.now()` in seconds,
 * and `mtime` for `os.path.getmtime`.
 */
module Service {
  import opened Wrappers
  import opened JsonValue
  import Naming
  import SheetPlan
  import opened Strategy
  import opened ArtifactStore

  const InvalidJsonPrefix := "Invalid JSON: "
  const BadRequest := 400

  /** A `ProcessResponse` (success or `success=False` with an error), or an
      `HTTPException` that leaves the handler. */
  datatype Response =
    | Converted(fileId: string, fileName: string, downloadUrl: string, analysis: string)
    | Failed(error: string)
    | HttpError(status: nat, detail: string)

  /** The directory after the producer has run: every file it wrote holds
      something the model does not look into. */
  function Deposit(disk: map<string, Content>, produced: set<string>): (d: map<string, Content>)
    ensures d.Keys == disk.Keys + produced
    ensures forall p :: p in disk && p !in produced ==> d[p] == disk[p]
  {
    map p | p in disk.Keys + produced :: if p in produced then Opaque else disk[p]
  }

  /** The disk once the producer had its chance: untouched when the size tier
      skips it. */
  function ProducerDisk(disk: map<string, Content>, size: nat, run: ProducerRun): map<string, Content> {
    if ProducerInvoked(size) then Deposit(disk, run.produced) else disk
  }

  /** `files_after - files_before`: the workbooks listed in `dir` after and not before. */
  function Arrivals(dir: string, before: map<string, Content>, after: map<string, Content>): (r: set<string>)
    ensures forall p :: p in r <==> GlobMatch(dir, p) && p in after && p !in before
  {
    Glob(dir, after.Keys) - Glob(dir, before.Keys)
  }

  /** The workbooks that appeared in the directory while the producer ran. */
  function NewWorkbooks(dir: string, disk: map<string, Content>, size: nat, run: ProducerRun): set<string> {
    Arrivals(dir, disk, ProducerDisk(disk, size, run))
  }

  /** A workbook found by the directory listing is `dir/name` for its base name,
      and the name has no separator. */
  lemma GlobbedIsJoined(dir: string, p: string)
    requires GlobMatch(dir, p)
    ensures p == Naming.JoinPath(dir, Naming.Basename(p))
    ensures '/' !in Naming.Basename(p)
  {
    var name := p[|dir| + 1..];
    assert p == Naming.JoinPath(dir, name);
    Naming.BasenameOfJoin(dir, name);
  }

  /** A skipped producer cannot leave a workbook behind, so a payload over the
      direct threshold never looks for one. */
  lemma NoWorkbooksWhenSkipped(dir: string, disk: map<string, Content>, size: nat, run: ProducerRun)
    requires !ProducerInvoked(size)
    ensures NewWorkbooks(dir, disk, size, run) == {}
  {
  }

  /** A workbook written by the service itself, followed by its registration
      (main.py:113-152 and 270-289): the sheet writes `writes` land in a file at
      the managed path of the display name, registered under that name. */
  method WriteDirect(s: Store, writes: seq<SheetPlan.SheetWrite>, fileName: string, fileId: string, now: int, payload: string, note: string)
    returns (resp: Response)
    requires s.Valid() && fileId !in s.files
    modifies s
    ensures s.Valid()
    ensures var name := Naming.DisplayName(fileName);
      var path := Naming.StoragePath(s.dir, fileId, name);
      && resp == Converted(fileId, name, Naming.DownloadUrl(fileId), note)
      && s.disk == old(s.disk)[path := Workbook(writes)]
      && s.files == old(s.files)[fileId := FileInfo(path, name, now, Naming.StoredPreview(payload))]
      && s.order == old(s.order) + [fileId]
  {
    var name := Naming.DisplayName(fileName);
    var path := Naming.StoragePath(s.dir, fileId, name);
    s.disk := s.disk[path := Workbook(writes)];
    s.Register(fileId, path, name, now, payload);
    resp := Converted(fileId, name, Naming.DownloadUrl(fileId), note);
  }

  /** Adopting the producer's newest workbook (main.py:321-352): it is renamed
      to `{file_id}_{name}` in the same directory, `name` being its base name,
      and registered under that name. */
  method AdoptNewest(s: Store, newest: string, name: string, fileId: string, now: int, payload: string, analysis: string)
    returns (resp: Response)
    requires s.Valid() && fileId !in s.files && newest in s.disk
    modifies s
    ensures s.Valid()
    ensures var managed := Naming.JoinPath(s.dir, Naming.ManagedName(fileId, name));
      && resp == Converted(fileId, name, Naming.DownloadUrl(fileId), analysis)
      && s.disk == (old(s.disk) - {newest})[managed := old(s.disk)[newest]]
      && s.files == old(s.files)[fileId := FileInfo(managed, name, now, Naming.StoredPreview(payload))]
      && s.order == old(s.order) + [fileId]
  {
    var managed := Naming.JoinPath(s.dir, Naming.ManagedName(fileId, name));
    var content := s.disk[newest];
    s.disk := (s.disk - {newest})[managed := content];
    s.Register(fileId, managed, name, now, payload);
    resp := Converted(fileId, name, Naming.DownloadUrl(fileId), analysis);
  }

  /** `process_json_data` of main.py. The branches follow the code; the
      contract states that the outcome is the one `MainRoute` chooses and
      spells out the store each outcome leaves. */
  method Process(s: Store, payload: string, fileName: string, parse: string -> ParseOutcome, run: ProducerRun,
                 firstWrite: Option<string>, retryWrite: Option<string>, fileId: string, now: int, mtime: string -> int)
    returns (resp: Response)
    requires s.Valid() && fileId !in s.files
    modifies s
    ensures s.Valid()
    ensures resp.Converted? ==>
      && resp.fileId == fileId && resp.downloadUrl == Naming.DownloadUrl(fileId)
      && fileId in s.files && s.files == old(s.files)[fileId := s.files[fileId]] && s.order == old(s.order) + [fileId]
      && s.files[fileId].filename == resp.fileName && s.files[fileId].path in s.disk
      && s.files[fileId].createdAt == now && s.files[fileId].preview == Naming.StoredPreview(payload)
    ensures !resp.Converted? ==> s.files == old(s.files) && s.order == old(s.order)
    ensures parse(payload).Malformed? ==>
      resp == HttpError(BadRequest, InvalidJsonPrefix + parse(payload).message) && s.disk == old(s.disk)
    ensures parse(payload).ParserCrashed? ==>
      resp == Failed(ProcessingFailedPrefix + parse(payload).message) && s.disk == old(s.disk)
    ensures parse(payload).Parsed? ==>
      var size := |payload|;
      var disk1 := ProducerDisk(old(s.disk), size, run);
      var arrived := NewWorkbooks(s.dir, old(s.disk), size, run);
      var route := MainRoute(ConvertWithAgno(size, run.result), arrived != {}, firstWrite, retryWrite);
      && (route.Fail? ==> resp == Failed(route.error) && s.disk == disk1)
      && (route.DirectWith? ==>
            var name := Naming.DisplayName(fileName);
            && resp == Converted(fileId, name, Naming.DownloadUrl(fileId), route.note)
            && s.files[fileId].path == Naming.StoragePath(s.dir, fileId, name)
            && s.disk == disk1[Naming.StoragePath(s.dir, fileId, name) := Workbook(SheetPlan.Plan(parse(payload).value))])
      && (route.Adopt? ==>
            && resp.Converted?
            && var newest := Naming.JoinPath(s.dir, resp.fileName);
            && resp.analysis == route.analysis
            && newest in arrived && resp.fileName == Naming.Basename(newest)
            && s.files[fileId].path == Naming.JoinPath(s.dir, Naming.ManagedName(fileId, resp.fileName))
            && (forall f :: f in arrived ==> mtime(f) <= mtime(newest))
            && s.disk == (disk1 - {newest})[Naming.JoinPath(s.dir, Naming.ManagedName(fileId, resp.fileName)) := disk1[newest]])
  {
    var parsed := parse(payload);
    if parsed.Malformed? {
      return HttpError(BadRequest, InvalidJsonPrefix + parsed.message);
    }
    if parsed.ParserCrashed? {
      return Failed(ProcessingFailedPrefix + parsed.message);
    }
    var j := parsed.value;
    var size := |payload|;
    var before := Glob(s.dir, s.disk.Keys);
    if ProducerInvoked(size) {
      s.disk := Deposit(s.disk, run.produced);
    }
    var agno := ConvertWithAgno(size, run.result);
    match agno {
      case UseDirect =>
        if firstWrite.None? {
          resp := WriteDirect(s, SheetPlan.Plan(j), fileName, fileId, now, payload, LargeNote);
        } else if retryWrite.None? {
          // the handler of main.py:293 retries the conversion that just failed
          resp := WriteDirect(s, SheetPlan.Plan(j), fileName, fileId, now, payload, FallbackNotePrefix + DirectFailurePrefix + firstWrite.value);
        } else {
          resp := Failed(ProcessingFailedPrefix + DirectFailurePrefix + retryWrite.value);
        }
      case AgnoFailed(m) =>
        if firstWrite.None? {
          resp := WriteDirect(s, SheetPlan.Plan(j), fileName, fileId, now, payload, FallbackNotePrefix + m);
        } else {
          resp := Failed(ProcessingFailedPrefix + DirectFailurePrefix + firstWrite.value);
        }
      case Analysis(t) =>
        var after := Glob(s.dir, s.disk.Keys);
        assert after - before == NewWorkbooks(s.dir, old(s.disk), size, run);
        var newest := NewestNewFile(before, after, mtime);
        if newest.Some? {
          GlobbedIsJoined(s.dir, newest.value);
          resp := AdoptNewest(s, newest.value, Naming.Basename(newest.value), fileId, now, payload, t);
        } else if firstWrite.None? {
          resp := WriteDirect(s, SheetPlan.Plan(j), fileName, fileId, now, payload, NoFileNote);
        } else {
          resp := Failed(ProcessingFailedPrefix + DirectFailurePrefix + firstWrite.value);
        }
    }
  }

  /** A workbook the handler reports as converted can be downloaded right
      away, under the name the response announces. */
  method ProcessThenDownload(s: Store, payload: string, fileName: string, parse: string -> ParseOutcome, run: ProducerRun,
                             firstWrite: Option<string>, retryWrite: Option<string>, fileId: string, now: int, mtime: string -> int)
    returns (resp: Response, download: Download)
    requires s.Valid() && fileId !in s.files
    modifies s
    ensures s.Valid()
    ensures resp.Converted? ==> download.Serve? && download.filename == resp.fileName
    ensures !resp.Converted? ==> download == NotFound(ExpiredDetail)
  {
    resp := Process(s, payload, fileName, parse, run, firstWrite, retryWrite, fileId, now, mtime);
    download := s.Download(fileId);
  }
}
