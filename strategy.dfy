/**
 * Choosing how a request is converted: the size tiers of
 * `convert_json_with_agno` (main.py:157-230), the branch `process_json_data`
 * takes on its result (main.py:258-375), the older service's branches
 * (main_backup.py:183-276), and the detection of the producer's output file by
 * a before/after directory listing.
 *
 * The producer (the Agno agent driving Gemini) is opaque: a request sees only
 * what it returned or raised and which files appeared in the working directory.
 */
module Strategy {
  import opened Wrappers

  const DirectThreshold := 100000
  const ByFileThreshold := 50000

  /** Which prompt the producer would get, or none at all. */
  datatype Tier = DirectOnly | ByFile | Inline

  /** The tier of a payload of `size` characters (main.py:166 and 174). */
  function TierFor(size: nat): (t: Tier)
    ensures t.DirectOnly? <==> size > DirectThreshold
    ensures t.ByFile? <==> ByFileThreshold < size <= DirectThreshold
    ensures t.Inline? <==> size <= ByFileThreshold
  {
    if size > DirectThreshold then DirectOnly
    else if size > ByFileThreshold then ByFile
    else Inline
  }

  function TierRank(t: Tier): nat {
    match t
    case Inline => 0
    case ByFile => 1
    case DirectOnly => 2
  }

  /** A larger payload never gets a less conservative tier. */
  lemma TierMonotone(a: nat, b: nat)
    requires a <= b
    ensures TierRank(TierFor(a)) <= TierRank(TierFor(b))
  {
  }

  /** What the producer did when it was run: returned a response whose
      `content` may be `None`, raised a `RecursionError`, or raised anything
      else. `produced` is the set of files it left in the working directory. */
  datatype ProducerResult =
    | Replied(content: Option<string>)
    | RecursionLimit(message: string)
    | Raised(message: string)

  datatype ProducerRun = ProducerRun(result: ProducerResult, produced: set<string>)

  /** What `convert_json_with_agno` hands back: `None` (convert directly), the
      producer's text, or the exception it re-raises. */
  datatype AgnoResult = UseDirect | Analysis(text: string) | AgnoFailed(message: string)

  const AgnoFailurePrefix := "Agno AI processing failed: "

  /** The producer runs only below the direct-conversion tier. */
  predicate ProducerInvoked(size: nat) {
    !TierFor(size).DirectOnly?
  }

  /** `convert_json_with_agno` of main.py, given what the producer does when run. */
  function ConvertWithAgno(size: nat, result: ProducerResult): (r: AgnoResult)
    ensures !ProducerInvoked(size) ==> r == UseDirect
    ensures r.AgnoFailed? <==> ProducerInvoked(size) && result.Raised?
    ensures r.AgnoFailed? ==> r.message == AgnoFailurePrefix + result.message
    ensures r.Analysis? ==> ProducerInvoked(size) && result == Replied(Some(r.text))
    ensures ProducerInvoked(size) && result.Replied? && result.content.Some? ==> r == Analysis(result.content.value)
  {
    if !ProducerInvoked(size) then UseDirect
    else match result
      case Replied(content) => if content.Some? then Analysis(content.value) else UseDirect
      case RecursionLimit(_) => UseDirect
      case Raised(m) => AgnoFailed(AgnoFailurePrefix + m)
  }

  // ---------------------------------------------------------------------------
  // The branch process_json_data takes (main.py:258-375)
  // ---------------------------------------------------------------------------

  const LargeNote := "Direct conversion used for large JSON data"
  const FallbackNotePrefix := "Fallback conversion used due to: "
  const NoFileNote := "Direct conversion used - AI did not create output file"
  const DirectFailurePrefix := "Direct conversion failed: "
  const ProcessingFailedPrefix := "Processing failed: "

  /** How a validated request ends: the producer's newest file is adopted, a
      direct conversion is registered with a note, or the request fails. */
  datatype Route = Adopt(analysis: string) | DirectWith(note: string) | Fail(error: string)

  /** The branch taken, given the producer's result, whether the directory
      gained a workbook, and the error (if any) of the first and of the second
      direct conversion attempt. */
  function MainRoute(agno: AgnoResult, hasNewFile: bool, firstWrite: Option<string>, retryWrite: Option<string>): (r: Route)
    ensures r.Adopt? <==> agno.Analysis? && hasNewFile
    ensures r.Adopt? ==> r.analysis == agno.text
    ensures r.Fail? <==> firstWrite.Some? && !r.Adopt? && (agno.UseDirect? ==> retryWrite.Some?)
  {
    match agno
    case UseDirect =>
      if firstWrite.None? then DirectWith(LargeNote)
      // a failure of this first attempt is caught by the handler of main.py:293 and retried
      else if retryWrite.None? then DirectWith(FallbackNotePrefix + DirectFailurePrefix + firstWrite.value)
      else Fail(ProcessingFailedPrefix + DirectFailurePrefix + retryWrite.value)
    case AgnoFailed(m) =>
      if firstWrite.None? then DirectWith(FallbackNotePrefix + m)
      else Fail(ProcessingFailedPrefix + DirectFailurePrefix + firstWrite.value)
    case Analysis(t) =>
      if hasNewFile then Adopt(t)
      else if firstWrite.None? then DirectWith(NoFileNote)
      else Fail(ProcessingFailedPrefix + DirectFailurePrefix + firstWrite.value)
  }

  /** Delegation alone never fails a request: whatever the producer does, a
      request whose direct conversion can be written succeeds. A failure is
      always a failed direct conversion, reported with both prefixes. */
  lemma DelegationNeverFailsRequest(size: nat, result: ProducerResult, hasNewFile: bool, firstWrite: Option<string>, retryWrite: Option<string>)
    ensures var r := MainRoute(ConvertWithAgno(size, result), hasNewFile, firstWrite, retryWrite);
      && (firstWrite.None? ==> !r.Fail?)
      && (r.Fail? ==> exists e :: r.error == ProcessingFailedPrefix + DirectFailurePrefix + e)
  {
    var r := MainRoute(ConvertWithAgno(size, result), hasNewFile, firstWrite, retryWrite);
    if r.Fail? {
      var e := if firstWrite.Some? && retryWrite.Some? && ConvertWithAgno(size, result).UseDirect? then retryWrite.value else firstWrite.value;
      assert r.error == ProcessingFailedPrefix + DirectFailurePrefix + e;
    }
  }

  /** Each outcome of the producer leads to its own path and note:
      `None` (from the size tier, a `RecursionError` or an empty response) to the
      large-data note, an exception to the fallback note quoting it, no new file
      to the no-file note, and a new file to adopting it with the producer's text. */
  lemma RouteByProducerOutcome(size: nat, result: ProducerResult, hasNewFile: bool, retryWrite: Option<string>)
    ensures var r := MainRoute(ConvertWithAgno(size, result), hasNewFile, None, retryWrite);
      && (!ProducerInvoked(size) ==> r == DirectWith(LargeNote))
      && (ProducerInvoked(size) ==>
            match result
            case RecursionLimit(_) => r == DirectWith(LargeNote)
            case Raised(m) => r == DirectWith(FallbackNotePrefix + AgnoFailurePrefix + m)
            case Replied(None) => r == DirectWith(LargeNote)
            case Replied(Some(t)) => r == (if hasNewFile then Adopt(t) else DirectWith(NoFileNote)))
  {
  }

  /** When the producer signalled `None` and the first direct conversion
      failed, the handler of main.py:293 retries it: a successful retry is
      registered with the fallback note quoting the first error, and a failed
      retry fails the request with the second error. */
  lemma RetryAfterFailedWrite(size: nat, result: ProducerResult, hasNewFile: bool, first: string, retryWrite: Option<string>)
    requires ConvertWithAgno(size, result).UseDirect?
    ensures var r := MainRoute(ConvertWithAgno(size, result), hasNewFile, Some(first), retryWrite);
      && (retryWrite.None? ==> r == DirectWith(FallbackNotePrefix + DirectFailurePrefix + first))
      && (retryWrite.Some? ==> r == Fail(ProcessingFailedPrefix + DirectFailurePrefix + retryWrite.value))
  {
  }

  /** The second direct attempt exists only on the path where the producer
      signalled `None`: on every other path its outcome is irrelevant. */
  lemma RetryOnlyAfterUseDirect(agno: AgnoResult, hasNewFile: bool, firstWrite: Option<string>, x: Option<string>, y: Option<string>)
    requires !agno.UseDirect?
    ensures MainRoute(agno, hasNewFile, firstWrite, x) == MainRoute(agno, hasNewFile, firstWrite, y)
  {
  }

  // ---------------------------------------------------------------------------
  // The branch the older service takes (main_backup.py:183-276)
  // ---------------------------------------------------------------------------

  const BackupFallbackNote := "Fallback processing used - basic Excel structure created"
  const BothFailedPrefix := "Both AI and fallback processing failed: "
  /** What Python says when `ai_response[:200]` meets a `None` response (main_backup.py:191). */
  const NoneNotSubscriptable := "'NoneType' object is not subscriptable"

  /** How a validated request of the older service ends; `Abort` is the
      HTTP 500 raised when the fallback itself fails. */
  datatype BackupRoute = Adopted(analysis: string) | Fallback | Unsuccessful(error: string) | Abort(detail: string)

  function BackupRouteFor(result: ProducerResult, hasNewFile: bool, write: Option<string>): (r: BackupRoute)
    ensures r.Adopted? <==> result.Replied? && result.content.Some? && hasNewFile
    ensures r.Adopted? ==> r.analysis == result.content.value
    ensures r.Fallback? <==> result.Replied? && result.content.Some? && !hasNewFile && write.None?
    ensures r.Unsuccessful? <==> !(result.Replied? && result.content.Some?)
  {
    match result
    case Replied(content) =>
      if content.None? then Unsuccessful(ProcessingFailedPrefix + NoneNotSubscriptable)
      else if hasNewFile then Adopted(content.value)
      else if write.None? then Fallback
      else Abort(BothFailedPrefix + write.value)
    case RecursionLimit(m) => Unsuccessful(ProcessingFailedPrefix + AgnoFailurePrefix + m)
    case Raised(m) => Unsuccessful(ProcessingFailedPrefix + AgnoFailurePrefix + m)
  }

  /** The older service has no fallback for a failing producer: any exception
      the producer raises, a `RecursionError` included, fails the request; the
      newer service converts directly instead. */
  lemma ProducerErrorFailsOnlyTheBackup(size: nat, result: ProducerResult, hasNewFile: bool, write: Option<string>)
    requires result.Raised? || result.RecursionLimit?
    requires ProducerInvoked(size)
    ensures BackupRouteFor(result, hasNewFile, write) == Unsuccessful(ProcessingFailedPrefix + AgnoFailurePrefix + result.message)
    ensures MainRoute(ConvertWithAgno(size, result), hasNewFile, None, write).DirectWith?
  {
  }

  /** A failed fallback is an HTTP 500 of its own, never a `success=False` response,
      and it happens only when the producer replied and left no new workbook. */
  lemma BackupAbortOnlyFromFallback(result: ProducerResult, hasNewFile: bool, write: Option<string>)
    ensures var r := BackupRouteFor(result, hasNewFile, write);
      r.Abort? <==> result.Replied? && result.content.Some? && !hasNewFile && write.Some?
  {
  }

  // ---------------------------------------------------------------------------
  // Detecting the producer's output (main.py:255 and 317-323, main_backup.py:180 and 193-199)
  // ---------------------------------------------------------------------------

  predicate EndsWithXlsx(name: string) {
    |name| >= 5 && name[|name| - 5..] == ".xlsx"
  }

  /** `glob.glob(os.path.join(dir, "*.xlsx"))` matches `dir/name` for a name
      with no separator, not starting with a dot, ending in `.xlsx`. */
  predicate GlobMatch(dir: string, p: string) {
    && |p| > |dir| + 1
    && p[..|dir| + 1] == dir + "/"
    && var name := p[|dir| + 1..];
       '/' !in name && name[0] != '.' && EndsWithXlsx(name)
  }

  function Glob(dir: string, paths: set<string>): (r: set<string>)
    ensures r <= paths
    ensures forall p :: p in r <==> p in paths && GlobMatch(dir, p)
  {
    set p | p in paths && GlobMatch(dir, p)
  }

  /** `max(files_after - files_before, key=os.path.getmtime)`, or `None` when no
      file is new. Python's `max` keeps the first of several equal times; the
      model allows any of them. */
  method NewestNewFile(before: set<string>, after: set<string>, mtime: string -> int) returns (newest: Option<string>)
    ensures newest.None? <==> after - before == {}
    ensures newest.Some? ==> newest.value in after && newest.value !in before
    ensures newest.Some? ==> forall f :: f in after && f !in before ==> mtime(f) <= mtime(newest.value)
  {
    var candidates := after - before;
    if candidates == {} {
      return None;
    }
    var best :| best in candidates;
    var rest := candidates - {best};
    while rest != {}
      invariant rest <= candidates && best in candidates
      invariant forall f :: f in candidates && f !in rest ==> mtime(f) <= mtime(best)
      decreases rest
    {
      var f :| f in rest;
      if mtime(f) > mtime(best) {
        best := f;
      }
      rest := rest - {f};
    }
    return Some(best);
  }
}
