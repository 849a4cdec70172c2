/**
 * What the incremental lines-of-code cache promises across runs: the
 * layout after a rebuild, that a record is re-walked only when its stored
 * commit count is stale, that a run over an up-to-date cache writes the
 * file back unchanged, and what a run that stops early leaves on disk.
 */
module CacheProperties {
  import opened Wrappers
  import opened Text
  import opened Walker
  import opened CacheFile
  import opened LocCache

  // ------------------------------------------------------ one record

  /**
   * A re-walked record gets the live commit count and the totals of the
   * account's own commits over every page of the branch history.
   */
  lemma RewriteCountsOwnCommits(line: string, edge: Edge, sha: string -> Digest, history: (string, string) -> Script, ownerId: string)
    requires LineStep(line, edge, sha, history, ownerId).Rewrite?
    requires edge.totalCount.Some?
    requires SplitName(edge.nameWithOwner).Some?
    requires ReachesLastPage(history(SplitName(edge.nameWithOwner).value.0, SplitName(edge.nameWithOwner).value.1))
    ensures var names := SplitName(edge.nameWithOwner).value;
      var own := Authored(Visited(history(names.0, names.1)), ownerId);
      && |Fields(line)| >= 2
      && LineStep(line, edge, sha, history, ownerId).line
         == RecordLine(Fields(line)[0], edge.totalCount.value, |own|, SumAdditions(own), SumDeletions(own))
  {
    var names := SplitName(edge.nameWithOwner).value;
    WalkCountsOwnCommits(history(names.0, names.1), ownerId);
  }

  /**
   * A record the loop has reconciled is reconciled already: the next run
   * writes it back as it is, without consulting the remote history.
   */
  lemma StepIsStable(line: string, edge: Edge, sha: string -> Digest, history: (string, string) -> Script,
                     later: (string, string) -> Script, ownerId: string)
    requires LineStep(line, edge, sha, history, ownerId).Keep? || LineStep(line, edge, sha, history, ownerId).Rewrite?
    ensures var line' := NewLine(line, LineStep(line, edge, sha, history, ownerId));
      var step' := LineStep(line', edge, sha, later, ownerId);
      (step'.Keep? || step'.Rewrite?) && NewLine(line', step') == line'
  {
    var step := LineStep(line, edge, sha, history, ownerId);
    if step.Rewrite? {
      var f := Fields(line);
      var digest := f[0];
      match edge.totalCount
      case None =>
        ZeroLineIsRecord(digest);
        RecordLineFields(digest, 0, 0, 0, 0);
        ParseStr(0);
        assert Fields(step.line) == [digest, Str(0), Str(0), Str(0), Str(0)];
      case Some(live) =>
        var w := Walk(history(SplitName(edge.nameWithOwner).value.0, SplitName(edge.nameWithOwner).value.1), ownerId, Zero());
        assert step.line == RecordLine(digest, live, w.totals.mine, w.totals.added, w.totals.deleted);
        RecordLineFields(digest, live, w.totals.mine, w.totals.added, w.totals.deleted);
        ParseStr(live);
    }
  }

  // ------------------------------------------------------ the layout

  /** A cache file the run can start from: missing, or newline-terminated with at least the header's lines. */
  predicate WellFormedFile(file: Option<string>, commentSize: nat)
  {
    file.Some? ==> IsTerminatedText(file.value) && |ReadLines(file.value)| >= commentSize
  }

  /** The first `comment_size` lines are there and end in newlines; the lines after them may be anything. */
  predicate HeaderIntact(file: Option<string>, commentSize: nat)
  {
    file.Some? ==> |ReadLines(file.value)| >= commentSize && AllTerminated(ReadLines(file.value)[..commentSize])
  }

  lemma PlaceholdersRead(commentSize: nat, placeholder: string)
    requires placeholder == "Comment line\n"
    ensures AllTerminated(seq(commentSize, _ => placeholder))
    ensures ReadLines(Concat(seq(commentSize, _ => placeholder))) == seq(commentSize, _ => placeholder)
  {
    assert IsTerminatedLine(placeholder);
    TerminatedAreLines(seq(commentSize, _ => placeholder));
  }

  /** The lines of the file as it is opened: all terminated, and the header read back from it is its first lines. */
  lemma LoadedLayout(file: Option<string>, commentSize: nat)
    requires WellFormedFile(file, commentSize)
    ensures AllTerminated(Loaded(file, commentSize))
    ensures |Loaded(file, commentSize)| >= commentSize
    ensures ReadLines(LoadedText(file, commentSize)) == Loaded(file, commentSize)
    ensures FlushHeader(Some(LoadedText(file, commentSize)), commentSize) == Take(Loaded(file, commentSize), commentSize)
  {
    match file
    case None =>
      PlaceholdersRead(commentSize, "Comment line\n");
    case Some(text) =>
      ReadLinesShape(text);
  }

  lemma ZeroRecordsTerminated(edges: seq<Edge>, sha: string -> Digest)
    ensures AllTerminated(ZeroRecords(edges, sha))
  {
    forall i | 0 <= i < |edges|
      ensures IsTerminatedLine(ZeroRecords(edges, sha)[i])
    {
      var d := sha(edges[i].nameWithOwner);
      DigestIsToken(d);
      ZeroLineIsRecord(d);
      RecordLineFields(d, 0, 0, 0, 0);
    }
  }

  /**
   * A rebuild (a record count off from the repository count, or a forced
   * one) keeps the header and replaces the body by one zero record per
   * repository, in listing order.
   */
  lemma RebuildLayout(file: Option<string>, edges: seq<Edge>, commentSize: nat, forceCache: bool, sha: string -> Digest)
    requires NeedsRebuild(Loaded(file, commentSize), commentSize, edges, forceCache)
    requires HeaderIntact(file, commentSize)
    ensures var lines := Working(file, edges, commentSize, forceCache, sha);
      && Take(lines, commentSize) == Take(Loaded(file, commentSize), commentSize)
      && Drop(lines, commentSize) == ZeroRecords(edges, sha)
      && |lines| - commentSize == |edges|
  {
    if file.None? {
      PlaceholdersRead(commentSize, "Comment line\n");
    }
    ZeroRecordsTerminated(edges, sha);
    var header := Take(Loaded(file, commentSize), commentSize);
    assert FlushHeader(Some(LoadedText(file, commentSize)), commentSize) == header;
    var lines := header + ZeroRecords(edges, sha);
    assert |header| == commentSize;
    assert AllTerminated(lines);
    TerminatedAreLines(lines);
    assert lines[..commentSize] == header;
    assert lines[commentSize..] == ZeroRecords(edges, sha);
  }

  /** Whether or not it is rebuilt, the cache the loop starts from has the header and one record line per repository. */
  lemma WorkingLayout(file: Option<string>, edges: seq<Edge>, commentSize: nat, forceCache: bool, sha: string -> Digest)
    requires WellFormedFile(file, commentSize)
    ensures var lines := Working(file, edges, commentSize, forceCache, sha);
      && AllTerminated(lines)
      && |lines| == commentSize + |edges|
      && Take(lines, commentSize) == Take(Loaded(file, commentSize), commentSize)
  {
    LoadedLayout(file, commentSize);
    if NeedsRebuild(Loaded(file, commentSize), commentSize, edges, forceCache) {
      RebuildLayout(file, edges, commentSize, forceCache, sha);
      ZeroRecordsTerminated(edges, sha);
      var lines := Working(file, edges, commentSize, forceCache, sha);
      assert lines == Take(lines, commentSize) + Drop(lines, commentSize);
    }
  }

  /**
   * After a rebuild each zero record is kept when the repository has no
   * commits, rewritten to itself when its commit count is missing, and
   * re-walked otherwise.
   */
  lemma ZeroRecordStep(edge: Edge, sha: string -> Digest, history: (string, string) -> Script, ownerId: string)
    ensures var line := ZeroLine(sha(edge.nameWithOwner));
      var step := LineStep(line, edge, sha, history, ownerId);
      && (step.Keep? <==> edge.totalCount == Some(0))
      && (edge.totalCount.None? ==> step == Rewrite(line))
  {
    var d := sha(edge.nameWithOwner);
    DigestIsToken(d);
    ZeroLineIsRecord(d);
    RecordLineFields(d, 0, 0, 0, 0);
    ParseStr(0);
  }

  // ------------------------------------------------------ whole runs

  /** The loop runs through records that are all up to date and leaves them as they are. */
  lemma UpToDateBodyKept(body: seq<string>, edges: seq<Edge>, sha: string -> Digest, history: (string, string) -> Script, ownerId: string)
    requires |body| == |edges|
    requires forall j :: 0 <= j < |edges| ==> UpToDate(body[j], edges[j], sha)
    ensures FirstStop(body, edges, 0, sha, history, ownerId) == |edges|
    ensures Applied(body, edges, |edges|, sha, history, ownerId) == body
  {
  }

  /**
   * Idempotence: when no rebuild is due and every record is up to date, no
   * history is walked (the run is the same whatever the remote history) and
   * the cache file is written back exactly as it was read.
   */
  lemma UpToDateRunKeepsFile(file: Option<string>, edges: seq<Edge>, commentSize: nat, forceCache: bool, sha: string -> Digest,
                             history: (string, string) -> Script, later: (string, string) -> Script, ownerId: string)
    requires !NeedsRebuild(Loaded(file, commentSize), commentSize, edges, forceCache)
    requires forall j :: 0 <= j < |edges| ==> UpToDate(Loaded(file, commentSize)[commentSize + j], edges[j], sha)
    ensures CacheRun(file, edges, commentSize, forceCache, sha, history, ownerId).0 == LoadedText(file, commentSize)
    ensures CacheRun(file, edges, commentSize, forceCache, sha, history, ownerId)
         == CacheRun(file, edges, commentSize, forceCache, sha, later, ownerId)
  {
    var lines := Loaded(file, commentSize);
    var header, body := Take(lines, commentSize), Drop(lines, commentSize);
    var text := LoadedText(file, commentSize);
    LoadedBodyUpToDate(file, edges, commentSize, sha);
    NoRebuildRun(file, edges, commentSize, forceCache, sha, history, ownerId);
    NoRebuildRun(file, edges, commentSize, forceCache, sha, later, ownerId);
    SettleUpToDate(header, body, edges, sha, history, ownerId, text, true);
    SettleUpToDate(header, body, edges, sha, later, ownerId, text, true);
    LoadedTextIsConcat(file, commentSize);
  }

  /** Without a rebuild, the run settles the loaded records against the file as opened. */
  lemma NoRebuildRun(file: Option<string>, edges: seq<Edge>, commentSize: nat, forceCache: bool, sha: string -> Digest,
                     history: (string, string) -> Script, ownerId: string)
    requires !NeedsRebuild(Loaded(file, commentSize), commentSize, edges, forceCache)
    ensures var lines := Loaded(file, commentSize);
      CacheRun(file, edges, commentSize, forceCache, sha, history, ownerId)
        == Settle(Take(lines, commentSize), Drop(lines, commentSize), edges, sha, history, ownerId, LoadedText(file, commentSize), true)
  {
  }

  /** The up-to-date condition on the loaded lines, read on the records after the header. */
  lemma LoadedBodyUpToDate(file: Option<string>, edges: seq<Edge>, commentSize: nat, sha: string -> Digest)
    requires |Loaded(file, commentSize)| - commentSize == |edges|
    requires forall j :: 0 <= j < |edges| ==> UpToDate(Loaded(file, commentSize)[commentSize + j], edges[j], sha)
    ensures var lines := Loaded(file, commentSize);
      var body := Drop(lines, commentSize);
      && |body| == |edges|
      && (forall j :: 0 <= j < |edges| ==> UpToDate(body[j], edges[j], sha))
      && Take(lines, commentSize) + body == lines
  {
    var lines := Loaded(file, commentSize);
    var body := Drop(lines, commentSize);
    assert body == lines[commentSize..];
    forall j | 0 <= j < |edges|
      ensures UpToDate(body[j], edges[j], sha)
    {
      assert body[j] == lines[commentSize + j];
    }
    assert Take(lines, commentSize) + body == lines;
  }

  /** Settling records that are all up to date writes them back unchanged and sums them. */
  lemma SettleUpToDate(header: seq<string>, body: seq<string>, edges: seq<Edge>, sha: string -> Digest,
                       history: (string, string) -> Script, ownerId: string, working: string, cached: bool)
    requires |body| == |edges|
    requires forall j :: 0 <= j < |edges| ==> UpToDate(body[j], edges[j], sha)
    ensures Settle(header, body, edges, sha, history, ownerId, working, cached) == Finished(Concat(header + body), LocSum(body), cached)
  {
    UpToDateBodyKept(body, edges, sha, history, ownerId);
    SettleComplete(header, body, edges, sha, history, ownerId, working, cached);
  }

  /** The file as opened is the loaded lines written one after another. */
  lemma LoadedTextIsConcat(file: Option<string>, commentSize: nat)
    ensures Concat(Loaded(file, commentSize)) == LoadedText(file, commentSize)
  {
    match file
    case None =>
    case Some(text) =>
      ConcatReadLines(text);
  }

  /** A record the loop writes is a whole line. */
  lemma RewriteIsTerminated(line: string, edge: Edge, sha: string -> Digest, history: (string, string) -> Script, ownerId: string)
    requires LineStep(line, edge, sha, history, ownerId).Rewrite?
    ensures IsTerminatedLine(LineStep(line, edge, sha, history, ownerId).line)
  {
    var step := LineStep(line, edge, sha, history, ownerId);
    var digest := Fields(line)[0];
    match edge.totalCount
    case None =>
      ZeroLineIsRecord(digest);
      RecordLineFields(digest, 0, 0, 0, 0);
    case Some(live) =>
      var w := Walk(history(SplitName(edge.nameWithOwner).value.0, SplitName(edge.nameWithOwner).value.1), ownerId, Zero());
      RecordLineFields(digest, live, w.totals.mine, w.totals.added, w.totals.deleted);
  }

  /** The records a complete loop writes: whole lines, each of which the next loop writes back as it is. */
  lemma CompletedBodyIsStable(body: seq<string>, edges: seq<Edge>, sha: string -> Digest,
                              history: (string, string) -> Script, later: (string, string) -> Script, ownerId: string)
    requires |body| == |edges|
    requires AllTerminated(body)
    requires FirstStop(body, edges, 0, sha, history, ownerId) == |edges|
    ensures var updated := Applied(body, edges, |edges|, sha, history, ownerId);
      && AllTerminated(updated)
      && FirstStop(updated, edges, 0, sha, later, ownerId) == |edges|
      && Applied(updated, edges, |edges|, sha, later, ownerId) == updated
  {
    var updated := Applied(body, edges, |edges|, sha, history, ownerId);
    forall j | 0 <= j < |edges|
      ensures IsTerminatedLine(updated[j])
      ensures Completes(updated, edges, j, sha, later, ownerId)
      ensures NewLine(updated[j], LineStep(updated[j], edges[j], sha, later, ownerId)) == updated[j]
    {
      assert Completes(body, edges, j, sha, history, ownerId);
      StepIsStable(body[j], edges[j], sha, history, later, ownerId);
      if LineStep(body[j], edges[j], sha, history, ownerId).Rewrite? {
        RewriteIsTerminated(body[j], edges[j], sha, history, ownerId);
      }
    }
    if FirstStop(updated, edges, 0, sha, later, ownerId) < |edges| {
      assert false;
    }
  }

  /** When the loop completes, the run ends by writing the reconciled records back and summing them. */
  lemma SettleComplete(header: seq<string>, body: seq<string>, edges: seq<Edge>, sha: string -> Digest,
                       history: (string, string) -> Script, ownerId: string, working: string, cached: bool)
    requires FirstStop(body, edges, 0, sha, history, ownerId) == |edges|
    ensures var updated := Applied(body, edges, |edges|, sha, history, ownerId);
      Settle(header, body, edges, sha, history, ownerId, working, cached) == Finished(Concat(header + updated), LocSum(updated), cached)
  {
  }

  /** Settling records that a complete loop already reconciled gives the same file and the same sums. */
  lemma SettleIsStable(header: seq<string>, body: seq<string>, edges: seq<Edge>, sha: string -> Digest,
                       history: (string, string) -> Script, later: (string, string) -> Script, ownerId: string,
                       working: string, working': string, cached: bool)
    requires |body| == |edges|
    requires AllTerminated(body)
    requires FirstStop(body, edges, 0, sha, history, ownerId) == |edges|
    ensures var updated := Applied(body, edges, |edges|, sha, history, ownerId);
      && AllTerminated(updated)
      && Settle(header, body, edges, sha, history, ownerId, working, cached) == Finished(Concat(header + updated), LocSum(updated), cached)
      && Settle(header, updated, edges, sha, later, ownerId, working', true) == Finished(Concat(header + updated), LocSum(updated), true)
  {
    CompletedBodyIsStable(body, edges, sha, history, later, ownerId);
    var updated := Applied(body, edges, |edges|, sha, history, ownerId);
    SettleComplete(header, body, edges, sha, history, ownerId, working, cached);
    SettleComplete(header, updated, edges, sha, later, ownerId, working', true);
  }

  /**
   * A second run over the file a successful run wrote, with the same
   * repository list and no forced rebuild, writes the same file and
   * returns the same totals, now marked as served from the cache, whatever
   * the remote history says by then.
   */
  lemma SecondRunIsIdentity(file: Option<string>, edges: seq<Edge>, commentSize: nat, forceCache: bool, sha: string -> Digest,
                            history: (string, string) -> Script, later: (string, string) -> Script, ownerId: string)
    requires WellFormedFile(file, commentSize)
    requires CacheRun(file, edges, commentSize, forceCache, sha, history, ownerId).1.Success?
    ensures var first := CacheRun(file, edges, commentSize, forceCache, sha, history, ownerId);
      CacheRun(Some(first.0), edges, commentSize, false, sha, later, ownerId) == (first.0, Success(first.1.value.(cached := true)))
  {
    var first := CacheRun(file, edges, commentSize, forceCache, sha, history, ownerId);
    var cached := !NeedsRebuild(Loaded(file, commentSize), commentSize, edges, forceCache);
    var lines := Working(file, edges, commentSize, forceCache, sha);
    var header, body := Take(lines, commentSize), Drop(lines, commentSize);
    var updated := Applied(body, edges, |edges|, sha, history, ownerId);
    var text := Concat(header + updated);
    var working := WorkingText(file, edges, commentSize, forceCache, sha);
    SucceededRunLayout(file, edges, commentSize, forceCache, sha, history, ownerId);
    SettleIsStable(header, body, edges, sha, history, later, ownerId, working, text, cached);
    assert first == Settle(header, body, edges, sha, history, ownerId, working, cached);
    RereadRun(header, updated, edges, commentSize, sha, later, ownerId);
    FinishedRecached(text, LocSum(updated), cached);
  }

  /** A run that succeeds held the header and one whole record line per repository, and its loop completed. */
  lemma SucceededRunLayout(file: Option<string>, edges: seq<Edge>, commentSize: nat, forceCache: bool, sha: string -> Digest,
                           history: (string, string) -> Script, ownerId: string)
    requires WellFormedFile(file, commentSize)
    requires CacheRun(file, edges, commentSize, forceCache, sha, history, ownerId).1.Success?
    ensures var lines := Working(file, edges, commentSize, forceCache, sha);
      var header, body := Take(lines, commentSize), Drop(lines, commentSize);
      && AllTerminated(body) && AllTerminated(header) && |header| == commentSize && |body| == |edges|
      && FirstStop(body, edges, 0, sha, history, ownerId) == |edges|
  {
    var lines := Working(file, edges, commentSize, forceCache, sha);
    WorkingLayout(file, edges, commentSize, forceCache, sha);
    assert Take(lines, commentSize) == lines[..commentSize] && Drop(lines, commentSize) == lines[commentSize..];
  }

  /**
   * Reading back a file of terminated lines whose records match the
   * repository list, without a forced rebuild, resumes with those very
   * records and reports the totals as cached.
   */
  lemma RereadRun(header: seq<string>, records: seq<string>, edges: seq<Edge>, commentSize: nat, sha: string -> Digest,
                  history: (string, string) -> Script, ownerId: string)
    requires |header| == commentSize && |records| == |edges|
    requires AllTerminated(header) && AllTerminated(records)
    ensures var text := Concat(header + records);
      CacheRun(Some(text), edges, commentSize, false, sha, history, ownerId)
        == Settle(header, records, edges, sha, history, ownerId, text, true)
  {
    var lines := header + records;
    assert AllTerminated(lines);
    TerminatedAreLines(lines);
    assert Loaded(Some(Concat(lines)), commentSize) == lines;
    assert Take(lines, commentSize) == header;
    assert Drop(lines, commentSize) == records;
  }

  /** Finishing the same records again differs only in the `cached` flag. */
  lemma FinishedRecached(text: string, sums: Option<(int, int)>, cached: bool)
    requires Finished(text, sums, cached).1.Success?
    ensures Finished(text, sums, true) == (text, Success(Finished(text, sums, cached).1.value.(cached := true)))
  {
  }

  // ------------------------------------------------------ early stops

  /**
   * A run fails on a query exactly when the walk of the first record the
   * loop could not finish halted on a status other than 200: 403 is
   * reported as throttling and any other status as that query failure. The
   * file then holds the header followed by the records as they were at that
   * moment (those before the failing one reconciled, the rest as loaded). A
   * run stopped by malformed data, or by a missing record line, leaves the
   * file as the loop found it.
   */
  lemma StoppedRunSavesProgress(file: Option<string>, edges: seq<Edge>, commentSize: nat, forceCache: bool, sha: string -> Digest,
                                history: (string, string) -> Script, ownerId: string)
    ensures var lines := Working(file, edges, commentSize, forceCache, sha);
      var body := Drop(lines, commentSize);
      var k := FirstStop(body, edges, 0, sha, history, ownerId);
      var r := CacheRun(file, edges, commentSize, forceCache, sha, history, ownerId);
      && (r.1 == Failure(Throttled) <==> k < |edges| && k < |body| && LineStep(body[k], edges[k], sha, history, ownerId) == Halt(403))
      && (r.1.Failure? && r.1.error.QueryFailed? ==>
            && k < |edges| && k < |body|
            && LineStep(body[k], edges[k], sha, history, ownerId) == Halt(r.1.error.status)
            && r.1.error.status != 200 && r.1.error.status != 403)
      && (r.1.Failure? && r.1.error != Malformed ==>
            r.0 == Concat(Take(lines, commentSize) + Applied(body, edges, k, sha, history, ownerId)))
      && (k < |edges| && r.1 == Failure(Malformed) ==> r.0 == WorkingText(file, edges, commentSize, forceCache, sha))
      && (k < |edges| && k < |body| && LineStep(body[k], edges[k], sha, history, ownerId).Halt?
            && LineStep(body[k], edges[k], sha, history, ownerId).status != 403 ==>
            r == (Concat(Take(lines, commentSize) + Applied(body, edges, k, sha, history, ownerId)),
                  Failure(QueryFailed(LineStep(body[k], edges[k], sha, history, ownerId).status))))
      && (k < |edges| && (k >= |body| || LineStep(body[k], edges[k], sha, history, ownerId) == Crash) ==>
            r == (WorkingText(file, edges, commentSize, forceCache, sha), Failure(Malformed)))
  {
    var lines := Working(file, edges, commentSize, forceCache, sha);
    var working := WorkingText(file, edges, commentSize, forceCache, sha);
    var cached := !NeedsRebuild(Loaded(file, commentSize), commentSize, edges, forceCache);
    SettleStops(Take(lines, commentSize), Drop(lines, commentSize), edges, sha, history, ownerId, working, cached);
  }

  /** `StoppedRunSavesProgress` for the loop over given records. */
  lemma SettleStops(header: seq<string>, body: seq<string>, edges: seq<Edge>, sha: string -> Digest,
                    history: (string, string) -> Script, ownerId: string, working: string, cached: bool)
    ensures var k := FirstStop(body, edges, 0, sha, history, ownerId);
      var r := Settle(header, body, edges, sha, history, ownerId, working, cached);
      && (r.1 == Failure(Throttled) <==> k < |edges| && k < |body| && LineStep(body[k], edges[k], sha, history, ownerId) == Halt(403))
      && (r.1.Failure? && r.1.error.QueryFailed? ==>
            && k < |edges| && k < |body|
            && LineStep(body[k], edges[k], sha, history, ownerId) == Halt(r.1.error.status)
            && r.1.error.status != 200 && r.1.error.status != 403)
      && (r.1.Failure? && r.1.error != Malformed ==> r.0 == Concat(header + Applied(body, edges, k, sha, history, ownerId)))
      && (k < |edges| && r.1 == Failure(Malformed) ==> r.0 == working)
      && (k < |edges| && k < |body| && LineStep(body[k], edges[k], sha, history, ownerId).Halt?
            && LineStep(body[k], edges[k], sha, history, ownerId).status != 403 ==>
            r == (Concat(header + Applied(body, edges, k, sha, history, ownerId)),
                  Failure(QueryFailed(LineStep(body[k], edges[k], sha, history, ownerId).status))))
      && (k < |edges| && (k >= |body| || LineStep(body[k], edges[k], sha, history, ownerId) == Crash) ==>
            r == (working, Failure(Malformed)))
  {
    var k := FirstStop(body, edges, 0, sha, history, ownerId);
    if k == |edges| {
      SettleComplete(header, body, edges, sha, history, ownerId, working, cached);
    }
  }

  /** The status a record's walk halts on is the status of one of the replies of that repository's history. */
  lemma HaltComesFromReply(line: string, edge: Edge, sha: string -> Digest, history: (string, string) -> Script, ownerId: string)
    requires LineStep(line, edge, sha, history, ownerId).Halt?
    ensures SplitName(edge.nameWithOwner).Some?
    ensures var names := SplitName(edge.nameWithOwner).value;
      var replies := history(names.0, names.1);
      exists i :: 0 <= i < |replies| && replies[i].status == LineStep(line, edge, sha, history, ownerId).status
  {
    var names := SplitName(edge.nameWithOwner).value;
    WalkFailsOnlyOnError(history(names.0, names.1), ownerId, Zero());
  }

  /**
   * The converse: a stale record whose walk reaches a non-200 reply halts with
   * that reply's status, which ends the run as throttled for a 403 and as a
   * failed query otherwise.
   */
  lemma ReachedErrorHalts(line: string, edge: Edge, sha: string -> Digest, history: (string, string) -> Script, ownerId: string, i: nat)
    requires |Fields(line)| >= 2 && Fields(line)[0] == sha(edge.nameWithOwner)
    requires ParseInt(Fields(line)[1]).Some? && edge.totalCount.Some? && ParseInt(Fields(line)[1]) != edge.totalCount
    requires SplitName(edge.nameWithOwner).Some?
    requires var names := SplitName(edge.nameWithOwner).value;
      var replies := history(names.0, names.1);
      i < |replies| && (forall j :: 0 <= j < i ==> !Stops(replies[j])) && replies[i].status != 200
    ensures var names := SplitName(edge.nameWithOwner).value;
      var status := history(names.0, names.1)[i].status;
      && LineStep(line, edge, sha, history, ownerId) == Halt(status)
      && StepFailure(LineStep(line, edge, sha, history, ownerId)) == (if status == 403 then Throttled else QueryFailed(status))
  {
    var names := SplitName(edge.nameWithOwner).value;
    WalkFailsOnReachedError(history(names.0, names.1), ownerId, Zero(), i);
  }
}
