/**
 * `cache_builder` of today.py: load the cache, rebuild it when its record
 * count differs from the repository count, re-walk the repositories whose
 * commit count changed, persist, and sum the line counts.
 */
module LocCache {
  import opened Wrappers
  import opened Text
  import opened Walker
  import opened CacheFile

  // -------------------------------------------------------------- names

  /** Index of the first '/' in `s`. */
  function SlashIndex(s: string): (r: Option<nat>)
    ensures r.Some? ==> r.value < |s| && s[r.value] == '/' && '/' !in s[..r.value]
    ensures r.None? ==> '/' !in s
  {
    if s == [] then None
    else if s[0] == '/' then Some(0)
    else match SlashIndex(s[1..])
      case None => None
      case Some(i) => assert s[..i + 1] == [s[0]] + s[1..][..i]; Some(i + 1)
  }

  /** `owner, repo_name = nameWithOwner.split('/')`; None is the ValueError when there is not exactly one '/'. */
  function SplitName(name: string): (r: Option<(string, string)>)
    ensures r.Some? ==> name == r.value.0 + "/" + r.value.1 && '/' !in r.value.0 && '/' !in r.value.1
    ensures r.None? ==> forall i :: 0 <= i < |name| && name[i] == '/' ==> '/' in name[..i] || '/' in name[i + 1..]
  {
    match SlashIndex(name)
    case None => None
    case Some(i) =>
      assert name == name[..i] + "/" + name[i + 1..];
      if '/' in name[i + 1..] then None else Some((name[..i], name[i + 1..]))
  }

  // ------------------------------------------------------- one record

  /** What reconciliation does to one record line. */
  datatype Step =
    | Keep                  // written back unchanged
    | Rewrite(line: string) // replaced by this line
    | Crash                 // an uncaught ValueError: the run ends, nothing more is written
    | Halt(status: int)     // the walker met this status: partial save, then the run fails

  /** A record the loop leaves alone: its digest is another repository's, or its count is the live one. */
  predicate UpToDate(line: string, edge: Edge, sha: string -> Digest)
  {
    var f := Fields(line);
    |f| >= 2 && (f[0] != sha(edge.nameWithOwner) || (edge.totalCount.Some? && ParseInt(f[1]) == edge.totalCount))
  }

  /**
   * Lines 189-197 of today.py for record line `line` and repository `edge`:
   * re-walk only when the stored digest is the repository's and the stored
   * commit count differs from the live one; zero the record when the live
   * count is missing.
   */
  function LineStep(line: string, edge: Edge, sha: string -> Digest, history: (string, string) -> Script, ownerId: string): (r: Step)
    ensures r.Keep? <==> UpToDate(line, edge, sha)
    ensures r.Rewrite? ==> |Fields(line)| >= 2 && Fields(line)[0] == sha(edge.nameWithOwner) && ParseInt(Fields(line)[1]).Some? && ParseInt(Fields(line)[1]) != edge.totalCount
    ensures r.Rewrite? && edge.totalCount.None? ==> |Fields(line)| >= 2 && r.line == ZeroLine(Fields(line)[0])
    ensures |Fields(line)| >= 2 && Fields(line)[0] == sha(edge.nameWithOwner) && ParseInt(Fields(line)[1]).Some? && edge.totalCount.None?
      ==> r == Rewrite(ZeroLine(Fields(line)[0]))
    ensures r.Halt? ==> r.status != 200
  {
    var f := Fields(line);
    if |f| < 2 then Crash
    else if f[0] != sha(edge.nameWithOwner) then Keep
    else match ParseInt(f[1])
      case None => Crash
      case Some(stored) =>
        match edge.totalCount
        case None => Rewrite(ZeroLine(f[0]))
        case Some(live) =>
          if stored == live then Keep
          else match SplitName(edge.nameWithOwner)
            case None => Crash
            case Some(names) =>
              match Walk(history(names.0, names.1), ownerId, Zero())
              case Failed(status) => Halt(status)
              case Done(t) => Rewrite(RecordLine(f[0], live, t.mine, t.added, t.deleted))
  }

  /** The line written for a record after its step. */
  function NewLine(line: string, step: Step): string
  {
    if step.Rewrite? then step.line else line
  }

  /** The failure a step that does not complete ends the run with. */
  function StepFailure(step: Step): Failure
  {
    match step
    case Halt(status) => if status == 403 then Throttled else QueryFailed(status)
    case _ => Malformed
  }

  // ---------------------------------------------------- all the records

  /** Record `j` exists and its step lets the loop go on. */
  predicate Completes(body: seq<string>, edges: seq<Edge>, j: nat, sha: string -> Digest, history: (string, string) -> Script, ownerId: string)
    requires j < |edges|
  {
    j < |body| && (LineStep(body[j], edges[j], sha, history, ownerId).Keep? || LineStep(body[j], edges[j], sha, history, ownerId).Rewrite?)
  }

  /** The first record, from `i` on, at which the loop stops; `|edges|` when none does. */
  function FirstStop(body: seq<string>, edges: seq<Edge>, i: nat, sha: string -> Digest, history: (string, string) -> Script, ownerId: string): (k: nat)
    requires i <= |edges|
    ensures i <= k <= |edges|
    ensures forall j :: i <= j < k ==> Completes(body, edges, j, sha, history, ownerId)
    ensures k < |edges| ==> !Completes(body, edges, k, sha, history, ownerId)
    decreases |edges| - i
  {
    if i == |edges| then i
    else if Completes(body, edges, i, sha, history, ownerId) then FirstStop(body, edges, i + 1, sha, history, ownerId)
    else i
  }

  /** The failure of the run stopped at record `k`: a missing line is an IndexError. */
  function FailureAt(body: seq<string>, edges: seq<Edge>, k: nat, sha: string -> Digest, history: (string, string) -> Script, ownerId: string): Failure
    requires k < |edges|
  {
    if k < |body| then StepFailure(LineStep(body[k], edges[k], sha, history, ownerId)) else Malformed
  }

  /** The records after the first `k` have been reconciled; the others as loaded. */
  function Applied(body: seq<string>, edges: seq<Edge>, k: nat, sha: string -> Digest, history: (string, string) -> Script, ownerId: string): (r: seq<string>)
    ensures |r| == |body|
  {
    seq(|body|, j requires 0 <= j < |body| =>
      if j < k && j < |edges| then NewLine(body[j], LineStep(body[j], edges[j], sha, history, ownerId)) else body[j])
  }

  lemma AppliedNext(body: seq<string>, edges: seq<Edge>, k: nat, sha: string -> Digest, history: (string, string) -> Script, ownerId: string)
    requires k < |edges| && k < |body|
    ensures Applied(body, edges, k + 1, sha, history, ownerId)
      == Applied(body, edges, k, sha, history, ownerId)[k := NewLine(body[k], LineStep(body[k], edges[k], sha, history, ownerId))]
  {
  }

  /** One unfolding of `FirstStop`. */
  lemma FirstStopAt(body: seq<string>, edges: seq<Edge>, i: nat, sha: string -> Digest, history: (string, string) -> Script, ownerId: string)
    requires i < |edges|
    ensures FirstStop(body, edges, i, sha, history, ownerId)
      == if Completes(body, edges, i, sha, history, ownerId) then FirstStop(body, edges, i + 1, sha, history, ownerId) else i
  {
  }

  datatype Stop = Stop(at: nat, failure: Failure)

  /** The body of the loop of lines 188-197 for one record: decide what happens to it, walking its history when needed. */
  method ReconcileOne(line: string, edge: Edge, sha: string -> Digest, history: (string, string) -> Script, ownerId: string)
    returns (step: Step)
    ensures step == LineStep(line, edge, sha, history, ownerId)
  {
    var fields := Fields(line);
    if |fields| < 2 {
      return Crash;
    }
    var repoHash, commitCount := fields[0], fields[1];
    if repoHash != sha(edge.nameWithOwner) {
      return Keep;
    }
    var stored := ParseInt(commitCount);
    if stored.None? {
      return Crash;
    }
    match edge.totalCount {
      case None =>
        step := Rewrite(ZeroLine(repoHash));
      case Some(live) =>
        if stored.value == live {
          return Keep;
        }
        var names := SplitName(edge.nameWithOwner);
        if names.None? {
          return Crash;
        }
        var walked := WalkHistory(history(names.value.0, names.value.1), ownerId);
        if walked.Failed? {
          return Halt(walked.status);
        }
        var t := walked.totals;
        step := Rewrite(RecordLine(repoHash, live, t.mine, t.added, t.deleted));
    }
  }

  /** The loop of lines 188-197 of today.py over the record lines, updating them in place by index. */
  method ReconcileRecords(body0: seq<string>, edges: seq<Edge>, sha: string -> Digest, history: (string, string) -> Script, ownerId: string)
    returns (body: seq<string>, stop: Option<Stop>)
    ensures var k := FirstStop(body0, edges, 0, sha, history, ownerId);
      && body == Applied(body0, edges, k, sha, history, ownerId)
      && stop == (if k < |edges| then Some(Stop(k, FailureAt(body0, edges, k, sha, history, ownerId))) else None)
  {
    body := body0;
    var index := 0;
    while index < |edges|
      invariant index <= |edges|
      invariant FirstStop(body0, edges, 0, sha, history, ownerId) == FirstStop(body0, edges, index, sha, history, ownerId)
      invariant body == Applied(body0, edges, index, sha, history, ownerId)
    {
      if index >= |body| {
        return body, Some(Stop(index, Malformed));
      }
      var step := ReconcileOne(body[index], edges[index], sha, history, ownerId);
      FirstStopAt(body0, edges, index, sha, history, ownerId);
      if step.Crash? || step.Halt? {
        return body, Some(Stop(index, StepFailure(step)));
      }
      AppliedNext(body0, edges, index, sha, history, ownerId);
      if step.Rewrite? {
        body := body[index := step.line];
      }
      index := index + 1;
    }
    stop := None;
  }

  // ------------------------------------------------------- the whole run

  /** `[loc_add, loc_del, loc_add - loc_del, cached]`. */
  datatype LocTotals = LocTotals(added: int, deleted: int, net: int, cached: bool)

  /** The test of line 180 of today.py. */
  predicate NeedsRebuild(loaded: seq<string>, commentSize: nat, edges: seq<Edge>, forceCache: bool)
  {
    |loaded| - commentSize != |edges| || forceCache
  }

  /** The cache file when reconciliation starts: as loaded, or as `flush_cache` rewrote it. */
  function WorkingText(file: Option<string>, edges: seq<Edge>, commentSize: nat, forceCache: bool, sha: string -> Digest): string
  {
    if NeedsRebuild(Loaded(file, commentSize), commentSize, edges, forceCache)
    then FlushText(Some(LoadedText(file, commentSize)), edges, commentSize, sha)
    else LoadedText(file, commentSize)
  }

  /** The lines held when reconciliation starts: as loaded, or read back after the rebuild. */
  function Working(file: Option<string>, edges: seq<Edge>, commentSize: nat, forceCache: bool, sha: string -> Digest): seq<string>
  {
    if NeedsRebuild(Loaded(file, commentSize), commentSize, edges, forceCache)
    then ReadLines(FlushText(Some(LoadedText(file, commentSize)), edges, commentSize, sha))
    else Loaded(file, commentSize)
  }

  /**
   * Lines 186-205 of today.py once the cache is loaded: reconcile the records
   * below `header`, then write the file back and sum it. `working` is the file
   * as loaded, which an exception other than a failed query leaves as it is.
   */
  function Settle(header: seq<string>, body: seq<string>, edges: seq<Edge>, sha: string -> Digest,
                  history: (string, string) -> Script, ownerId: string, working: string, cached: bool): (string, Result<LocTotals, Failure>)
  {
    var k := FirstStop(body, edges, 0, sha, history, ownerId);
    var updated := Applied(body, edges, k, sha, history, ownerId);
    if k < |edges| then
      var failure := FailureAt(body, edges, k, sha, history, ownerId);
      if failure == Malformed then (working, Failure(Malformed))
      else (Concat(header + updated), Failure(failure))
    else Finished(Concat(header + updated), LocSum(updated), cached)
  }

  /** The end of a run whose loop completed: the file written, and the sums or the error summing raised. */
  function Finished(text: string, sums: Option<(int, int)>, cached: bool): (string, Result<LocTotals, Failure>)
  {
    match sums
    case None => (text, Failure(Malformed))
    case Some(s) => (text, Success(LocTotals(s.0, s.1, s.0 - s.1, cached)))
  }

  /** The cache file after a run of `cache_builder`, and what the run returns or raises. */
  function CacheRun(file: Option<string>, edges: seq<Edge>, commentSize: nat, forceCache: bool,
                    sha: string -> Digest, history: (string, string) -> Script, ownerId: string): (string, Result<LocTotals, Failure>)
  {
    var lines := Working(file, edges, commentSize, forceCache, sha);
    Settle(Take(lines, commentSize), Drop(lines, commentSize), edges, sha, history, ownerId,
           WorkingText(file, edges, commentSize, forceCache, sha), !NeedsRebuild(Loaded(file, commentSize), commentSize, edges, forceCache))
  }

  /** Lines 166-184 of today.py: open or create the cache file, and rebuild it when the record count is off or a rebuild is forced. */
  method LoadCache(file: Option<string>, edges: seq<Edge>, commentSize: nat, forceCache: bool, sha: string -> Digest)
    returns (disk: string, data: seq<string>, cached: bool)
    ensures disk == WorkingText(file, edges, commentSize, forceCache, sha)
    ensures data == Working(file, edges, commentSize, forceCache, sha)
    ensures cached == !NeedsRebuild(Loaded(file, commentSize), commentSize, edges, forceCache)
  {
    cached := true;
    if file.None? {
      data := seq(commentSize, _ => "Comment line\n");
      disk := Concat(data);
    } else {
      data := ReadLines(file.value);
      disk := file.value;
    }
    if |data| - commentSize != |edges| || forceCache {
      cached := false;
      disk := FlushCache(Some(disk), edges, commentSize, sha);
      data := ReadLines(disk);
    }
  }

  /** Lines 186-205 of today.py: the reconciliation loop, the write-back and the sum. */
  method SettleRecords(header: seq<string>, body: seq<string>, edges: seq<Edge>, sha: string -> Digest,
                       history: (string, string) -> Script, ownerId: string, working: string, cached: bool)
    returns (disk: string, result: Result<LocTotals, Failure>)
    ensures (disk, result) == Settle(header, body, edges, sha, history, ownerId, working, cached)
  {
    var updated, stop := ReconcileRecords(body, edges, sha, history, ownerId);
    if stop.Some? {
      if stop.value.failure == Malformed {
        return working, Failure(Malformed);
      }
      // force_close_file: the header and the records as they are now
      return Concat(header + updated), Failure(stop.value.failure);
    }
    disk, result := WriteAndSum(header, updated, cached);
  }

  /** Lines 198-205 of today.py: write the header and the records back, then sum the records' added and deleted lines. */
  method WriteAndSum(header: seq<string>, records: seq<string>, cached: bool) returns (disk: string, result: Result<LocTotals, Failure>)
    ensures (disk, result) == Finished(Concat(header + records), LocSum(records), cached)
  {
    disk := Concat(header + records);
    var sums := SumLoc(records);
    if sums.None? {
      return disk, Failure(Malformed);
    }
    result := Success(LocTotals(sums.value.0, sums.value.1, sums.value.0 - sums.value.1, cached));
  }

  /**
   * `cache_builder(edges, comment_size, force_cache)`: `file` is the cache
   * file before the run (None when missing), `disk` the cache file after it.
   */
  method CacheBuilder(file: Option<string>, edges: seq<Edge>, commentSize: nat, forceCache: bool,
                      sha: string -> Digest, history: (string, string) -> Script, ownerId: string)
    returns (disk: string, result: Result<LocTotals, Failure>)
    ensures (disk, result) == CacheRun(file, edges, commentSize, forceCache, sha, history, ownerId)
    ensures result.Success? ==> result.value.cached == !NeedsRebuild(Loaded(file, commentSize), commentSize, edges, forceCache)
    ensures result.Success? ==> result.value.net == result.value.added - result.value.deleted
  {
    var working, data, cached := LoadCache(file, edges, commentSize, forceCache, sha);
    disk, result := SettleRecords(Take(data, commentSize), Drop(data, commentSize), edges, sha, history, ownerId, working, cached);
  }
}
