/**
 * The per-user cache file of today.py: `comment_size` header lines, then one
 * record line per repository, `digest totalCommitCount myCommits added deleted`.
 * A file is its text (`None` when it does not exist).
 */
module CacheFile {
  import opened Wrappers
  import opened Text

  /** The exceptions that leave `cache_builder`, `commit_counter` and `add_archive`. */
  datatype Failure =
    | Throttled            // the walker met a 403: "Too many requests in a short time!"
    | QueryFailed(status: int)  // the walker met another status other than 200
    | Malformed            // a ValueError or IndexError while reading a line

  function OrMalformed<T>(o: Option<T>): Result<T, Failure>
  {
    match o
    case Some(v) => Success(v)
    case None => Failure(Malformed)
  }

  predicate IsHexDigit(c: char)
  {
    '0' as int <= c as int <= '9' as int || 'a' as int <= c as int <= 'f' as int
  }

  /** `hashlib.sha256(...).hexdigest()`: 64 lower-case hexadecimal characters. */
  type Digest = s: string | |s| == 64 && forall i :: 0 <= i < |s| ==> IsHexDigit(s[i])
    witness seq(64, _ => '0')

  /** One repository from the listing query: `nameWithOwner` and the default branch's `history.totalCount`, None when `defaultBranchRef` is null. */
  datatype Edge = Edge(nameWithOwner: string, totalCount: Option<int>)

  /** The record line `cache_builder` writes after a walk. */
  function RecordLine(digest: string, total: int, mine: int, added: int, deleted: int): string
  {
    Unwords([digest, Str(total), Str(mine), Str(added), Str(deleted)]) + "\n"
  }

  /** The zero record `flush_cache` writes and `cache_builder` writes for a repository without data. */
  function ZeroLine(digest: string): string
  {
    digest + " 0 0 0 0\n"
  }

  /** A cache record as values. */
  datatype Record = Record(digest: Digest, total: int, mine: int, added: int, deleted: int)

  function Line(r: Record): string
  {
    RecordLine(r.digest, r.total, r.mine, r.added, r.deleted)
  }

  function Lines(rs: seq<Record>): (lines: seq<string>)
    ensures |lines| == |rs|
  {
    seq(|rs|, i requires 0 <= i < |rs| => Line(rs[i]))
  }

  function Sum(xs: seq<int>): int
  {
    if xs == [] then 0 else Sum(xs[..|xs| - 1]) + xs[|xs| - 1]
  }

  /** The `added` column of the records. */
  function Added(rs: seq<Record>): (xs: seq<int>)
    ensures |xs| == |rs|
  {
    seq(|rs|, i requires 0 <= i < |rs| => rs[i].added)
  }

  /** The `deleted` column of the records. */
  function Deleted(rs: seq<Record>): (xs: seq<int>)
    ensures |xs| == |rs|
  {
    seq(|rs|, i requires 0 <= i < |rs| => rs[i].deleted)
  }

  /** The `myCommits` column of the records. */
  function Mine(rs: seq<Record>): (xs: seq<int>)
    ensures |xs| == |rs|
  {
    seq(|rs|, i requires 0 <= i < |rs| => rs[i].mine)
  }

  // ------------------------------------------------------ record lemmas

  lemma DigestIsToken(d: Digest)
    ensures IsToken(d)
  {
    forall i | 0 <= i < |d|
      ensures !IsSpace(d[i])
    {
      assert IsHexDigit(d[i]);
    }
  }

  lemma {:induction false} UnwordsHasNoNewline(fs: seq<string>)
    requires forall i :: 0 <= i < |fs| ==> IsToken(fs[i])
    ensures forall i :: 0 <= i < |Unwords(fs)| ==> Unwords(fs)[i] != '\n'
  {
    if |fs| > 1 {
      UnwordsHasNoNewline(fs[1..]);
      assert Unwords(fs) == fs[0] + (" " + Unwords(fs[1..]));
    } else if |fs| == 1 {
      assert IsToken(fs[0]);
    }
  }

  /** A record line is one terminated line whose fields are the digest and the four numbers. */
  lemma RecordLineFields(digest: string, total: int, mine: int, added: int, deleted: int)
    requires IsToken(digest)
    ensures Fields(RecordLine(digest, total, mine, added, deleted)) == [digest, Str(total), Str(mine), Str(added), Str(deleted)]
    ensures IsTerminatedLine(RecordLine(digest, total, mine, added, deleted))
  {
    ParseStr(total);
    ParseStr(mine);
    ParseStr(added);
    ParseStr(deleted);
    var fs := [digest, Str(total), Str(mine), Str(added), Str(deleted)];
    FieldsOfUnwords(fs, "\n");
    assert Fields("\n") == Fields("\n"[1..]);
    UnwordsHasNoNewline(fs);
  }

  lemma ZeroLineIsRecord(digest: string)
    ensures ZeroLine(digest) == RecordLine(digest, 0, 0, 0, 0)
  {
    assert Str(0) == "0";
    var zeros := ["0", "0", "0", "0"];
    assert Unwords(zeros[3..]) == "0";
    assert Unwords(zeros[2..]) == "0 0";
    assert Unwords(zeros[1..]) == "0 0 0";
    assert Unwords(zeros) == "0 0 0 0";
    assert Unwords([digest] + zeros) == digest + " " + "0 0 0 0";
    assert [digest, Str(0), Str(0), Str(0), Str(0)] == [digest] + zeros;
  }

  lemma LocOfRecordLine(digest: string, total: int, mine: int, added: int, deleted: int)
    requires IsToken(digest)
    ensures LocOf(RecordLine(digest, total, mine, added, deleted)) == Some((added, deleted))
    ensures CommitsOf(RecordLine(digest, total, mine, added, deleted)) == Some(mine)
  {
    RecordLineFields(digest, total, mine, added, deleted);
    ParseStr(mine);
    ParseStr(added);
    ParseStr(deleted);
  }

  // ------------------------------------------------------------ loading

  /** Python's `lines[:n]`. */
  function Take(lines: seq<string>, n: nat): seq<string>
  {
    if n <= |lines| then lines[..n] else lines
  }

  /** Python's `lines[n:]`. */
  function Drop(lines: seq<string>, n: nat): seq<string>
  {
    if n <= |lines| then lines[n..] else []
  }

  /** The lines `cache_builder` holds after opening the cache file (a missing file becomes `comment_size` placeholder lines). */
  function Loaded(file: Option<string>, commentSize: nat): seq<string>
  {
    match file
    case None => seq(commentSize, _ => "Comment line\n")
    case Some(text) => ReadLines(text)
  }

  /** The cache file after that opening: a missing file is created with the placeholder lines. */
  function LoadedText(file: Option<string>, commentSize: nat): string
  {
    match file
    case None => Concat(seq(commentSize, _ => "Comment line\n"))
    case Some(text) => text
  }

  // ----------------------------------------------------------- flushing

  /** The header `flush_cache` keeps: the first `comment_size` lines of the file, or placeholders for a missing file. */
  function FlushHeader(file: Option<string>, commentSize: nat): seq<string>
  {
    match file
    case None => seq(commentSize, _ => "Comment\n")
    case Some(text) => if commentSize > 0 then Take(ReadLines(text), commentSize) else []
  }

  /** One zero record per repository, in listing order. */
  function ZeroRecords(edges: seq<Edge>, sha: string -> Digest): (lines: seq<string>)
    ensures |lines| == |edges|
  {
    seq(|edges|, i requires 0 <= i < |edges| => ZeroLine(sha(edges[i].nameWithOwner)))
  }

  /** The file `flush_cache` writes. */
  function FlushText(file: Option<string>, edges: seq<Edge>, commentSize: nat, sha: string -> Digest): string
  {
    Concat(FlushHeader(file, commentSize) + ZeroRecords(edges, sha))
  }

  /** `flush_cache`: rewrite the cache as its header followed by a zero record per repository. */
  method FlushCache(file: Option<string>, edges: seq<Edge>, commentSize: nat, sha: string -> Digest) returns (text: string)
    ensures text == FlushText(file, edges, commentSize, sha)
  {
    var data: seq<string>;
    if file.Some? {
      data := if commentSize > 0 then Take(ReadLines(file.value), commentSize) else [];
    } else {
      data := seq(commentSize, _ => "Comment\n");
    }
    var lines := data;
    for i := 0 to |edges|
      invariant lines == data + ZeroRecords(edges[..i], sha)
    {
      assert ZeroRecords(edges[..i + 1], sha) == ZeroRecords(edges[..i], sha) + [ZeroLine(sha(edges[i].nameWithOwner))];
      lines := lines + [ZeroLine(sha(edges[i].nameWithOwner))];
    }
    assert edges[..|edges|] == edges;
    text := Concat(lines);
  }

  // ------------------------------------------------------- line totals

  /** The added and deleted counts `cache_builder` reads from one line: `int(loc[3])`, `int(loc[4])`. */
  function LocOf(line: string): Option<(int, int)>
  {
    var f := Fields(line);
    if |f| < 5 then None
    else match (ParseInt(f[3]), ParseInt(f[4]))
      case (Some(added), Some(deleted)) => Some((added, deleted))
      case _ => None
  }

  /** The sums of lines 201-204 of today.py; None when some line raises. */
  function LocSum(lines: seq<string>): Option<(int, int)>
  {
    if lines == [] then Some((0, 0))
    else match (LocSum(lines[..|lines| - 1]), LocOf(lines[|lines| - 1]))
      case (Some(sum), Some(loc)) => Some((sum.0 + loc.0, sum.1 + loc.1))
      case _ => None
  }

  lemma {:induction false} LocSumNoneSticks(lines: seq<string>, i: nat)
    requires i <= |lines|
    requires LocSum(lines[..i]) == None
    ensures LocSum(lines) == None
    decreases |lines| - i
  {
    if i == |lines| {
      assert lines[..i] == lines;
    } else {
      assert lines[..i + 1][..i] == lines[..i];
      LocSumNoneSticks(lines, i + 1);
    }
  }

  lemma {:induction false} LocSumOfLocs(lines: seq<string>, added: seq<int>, deleted: seq<int>)
    requires |lines| == |added| == |deleted|
    requires forall i :: 0 <= i < |lines| ==> LocOf(lines[i]) == Some((added[i], deleted[i]))
    ensures LocSum(lines) == Some((Sum(added), Sum(deleted)))
  {
    if lines != [] {
      var n := |lines| - 1;
      LocSumOfLocs(lines[..n], added[..n], deleted[..n]);
    }
  }

  lemma LocOfLine(r: Record)
    ensures LocOf(Line(r)) == Some((r.added, r.deleted))
    ensures CommitsOf(Line(r)) == Some(r.mine)
  {
    DigestIsToken(r.digest);
    LocOfRecordLine(r.digest, r.total, r.mine, r.added, r.deleted);
  }

  /** Over record lines, the sums are the records' added and deleted totals. */
  lemma LocSumOfRecords(rs: seq<Record>)
    ensures LocSum(Lines(rs)) == Some((Sum(Added(rs)), Sum(Deleted(rs))))
  {
    var lines := Lines(rs);
    forall i | 0 <= i < |rs|
      ensures LocOf(lines[i]) == Some((Added(rs)[i], Deleted(rs)[i]))
    {
      LocOfLine(rs[i]);
    }
    LocSumOfLocs(lines, Added(rs), Deleted(rs));
  }

  /** One more line into the sums of a prefix. */
  lemma LocSumNext(lines: seq<string>, i: nat)
    requires i < |lines|
    ensures LocSum(lines[..i + 1]) == match (LocSum(lines[..i]), LocOf(lines[i]))
      case (Some(sum), Some(loc)) => Some((sum.0 + loc.0, sum.1 + loc.1))
      case _ => None
  {
    assert lines[..i + 1][..i] == lines[..i];
  }

  /** The summing loop of `cache_builder`. */
  method SumLoc(lines: seq<string>) returns (r: Option<(int, int)>)
    ensures r == LocSum(lines)
  {
    var added, deleted := 0, 0;
    for i := 0 to |lines|
      invariant LocSum(lines[..i]) == Some((added, deleted))
    {
      LocSumNext(lines, i);
      var loc := LocOf(lines[i]);
      if loc.None? {
        LocSumNoneSticks(lines, i + 1);
        return None;
      }
      added := added + loc.value.0;
      deleted := deleted + loc.value.1;
    }
    assert lines[..|lines|] == lines;
    r := Some((added, deleted));
  }

  // ----------------------------------------------------- commit counter

  /** `commit_counter` on one line: field 3 when the line has at least three fields, else nothing. */
  function CommitsOf(line: string): Option<int>
  {
    var f := Fields(line);
    if |f| < 3 then Some(0) else ParseInt(f[2])
  }

  function CommitSum(lines: seq<string>): Option<int>
  {
    if lines == [] then Some(0)
    else match (CommitSum(lines[..|lines| - 1]), CommitsOf(lines[|lines| - 1]))
      case (Some(sum), Some(n)) => Some(sum + n)
      case _ => None
  }

  /** What `commit_counter(comment_size)` returns for the cache file. */
  function CommitCount(file: Option<string>, commentSize: nat): Option<int>
  {
    match file
    case None => Some(0)
    case Some(text) => CommitSum(Drop(ReadLines(text), commentSize))
  }

  lemma {:induction false} CommitSumNoneSticks(lines: seq<string>, i: nat)
    requires i <= |lines|
    requires CommitSum(lines[..i]) == None
    ensures CommitSum(lines) == None
    decreases |lines| - i
  {
    if i == |lines| {
      assert lines[..i] == lines;
    } else {
      assert lines[..i + 1][..i] == lines[..i];
      CommitSumNoneSticks(lines, i + 1);
    }
  }

  lemma {:induction false} CommitSumOfCounts(lines: seq<string>, counts: seq<int>)
    requires |lines| == |counts|
    requires forall i :: 0 <= i < |lines| ==> CommitsOf(lines[i]) == Some(counts[i])
    ensures CommitSum(lines) == Some(Sum(counts))
  {
    if lines != [] {
      var n := |lines| - 1;
      CommitSumOfCounts(lines[..n], counts[..n]);
    }
  }

  /** Over record lines, the commit total is the sum of the records' `myCommits`. */
  lemma CommitSumOfRecords(rs: seq<Record>)
    ensures CommitSum(Lines(rs)) == Some(Sum(Mine(rs)))
  {
    var lines := Lines(rs);
    forall i | 0 <= i < |rs|
      ensures CommitsOf(lines[i]) == Some(Mine(rs)[i])
    {
      LocOfLine(rs[i]);
    }
    CommitSumOfCounts(lines, Mine(rs));
  }

  /** Lines with fewer than three fields (blank lines among them) add nothing to the commit total. */
  lemma ShortLinesCountNothing(lines: seq<string>, line: string)
    requires |Fields(line)| < 3
    ensures CommitSum(lines + [line]) == CommitSum(lines)
  {
    assert (lines + [line])[..|lines|] == lines;
  }

  /** One more line into the commit total of a prefix. */
  lemma CommitSumNext(lines: seq<string>, i: nat)
    requires i < |lines|
    ensures CommitSum(lines[..i + 1]) == match (CommitSum(lines[..i]), CommitsOf(lines[i]))
      case (Some(sum), Some(n)) => Some(sum + n)
      case _ => None
  {
    assert lines[..i + 1][..i] == lines[..i];
  }

  /** `commit_counter`: sum field 3 of the body lines; a missing file gives 0. */
  method CommitCounter(file: Option<string>, commentSize: nat) returns (r: Result<int, Failure>)
    ensures file.None? ==> r == Success(0)
    ensures r == OrMalformed(CommitCount(file, commentSize))
  {
    if file.None? {
      return Success(0);
    }
    var data := Drop(ReadLines(file.value), commentSize);
    r := SumCommits(data);
  }

  /** The loop of `commit_counter` over the body lines. */
  method SumCommits(data: seq<string>) returns (r: Result<int, Failure>)
    ensures r == OrMalformed(CommitSum(data))
  {
    var total := 0;
    for i := 0 to |data|
      invariant CommitSum(data[..i]) == Some(total)
    {
      CommitSumNext(data, i);
      var f := Fields(data[i]);
      if |f| >= 3 {
        var n := ParseInt(f[2]);
        if n.None? {
          CommitSumNoneSticks(data, i + 1);
          return Failure(Malformed);
        }
        total := total + n.value;
      }
    }
    assert data[..|data|] == data;
    r := Success(total);
  }
}
