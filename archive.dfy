/**
 * `add_archive` of today.py: the totals of a frozen snapshot of records for
 * repositories that no longer exist, `cache/repository_archive.txt`. The
 * file has 7 header lines and 3 footer lines around one record line per
 * repository; the last line may carry a further commit count.
 */
module Archive {
  import opened Wrappers
  import opened Text
  import opened CacheFile

  /** `[added_loc, deleted_loc, added_loc - deleted_loc, added_commits, contributed_repos]`. */
  datatype ArchiveTotals = ArchiveTotals(added: int, deleted: int, net: int, commits: int, repos: nat)

  const HeaderLines: nat := 7
  const FooterLines: nat := 3

  /** Python's `data[7:len(data) - 3]`: empty unless there are more than 10 lines. */
  function ArchiveBody(lines: seq<string>): seq<string>
  {
    if |lines| >= HeaderLines + FooterLines then lines[HeaderLines..|lines| - FooterLines] else []
  }

  /** The `my_commits` field counts only when it is all digits. */
  function CountedCommits(field: string): nat
  {
    if IsDigits(field) then DigitsValue(field) else 0
  }

  /**
   * What one body line adds: added, deleted and counted commits. None when
   * the line raises: fewer than 5 fields, or an added or deleted field that
   * is not an integer.
   */
  function ArchiveLine(line: string): Option<(int, int, int)>
  {
    var f := Fields(line);
    if |f| < 5 then None
    else match (ParseInt(f[3]), ParseInt(f[4]))
      case (Some(added), Some(deleted)) => Some((added, deleted, CountedCommits(f[2])))
      case _ => None
  }

  /** The sums of the loop of lines 235-240 of today.py; None when some line raises. */
  function ArchiveSum(lines: seq<string>): Option<(int, int, int)>
  {
    SumRows(lines, ArchiveLine)
  }

  /** Adds up, column by column, what `row` reads from each line; None once a line raises. */
  function SumRows(lines: seq<string>, row: string -> Option<(int, int, int)>): Option<(int, int, int)>
  {
    if lines == [] then Some((0, 0, 0))
    else match (SumRows(lines[..|lines| - 1], row), row(lines[|lines| - 1]))
      case (Some(sum), Some(v)) => Some((sum.0 + v.0, sum.1 + v.1, sum.2 + v.2))
      case _ => None
  }

  /** Lines 241-242 of today.py: a last line with more than 4 fields adds its fifth field without its last character. */
  function LastLineCommits(lines: seq<string>): Option<int>
  {
    if |lines| > 0 && |Fields(lines[|lines| - 1])| > 4 then
      var token := Fields(lines[|lines| - 1])[4];
      ParseInt(token[..|token| - 1])
    else Some(0)
  }

  /** What `add_archive` returns or raises for the archive file (None when it does not exist). */
  function ArchiveOf(file: Option<string>): Result<ArchiveTotals, Failure>
  {
    match file
    case None => Success(ArchiveTotals(0, 0, 0, 0, 0))
    case Some(text) => ArchiveOfLines(ReadLines(text))
  }

  /** What `add_archive` returns or raises for an archive file of these lines. */
  function ArchiveOfLines(lines: seq<string>): Result<ArchiveTotals, Failure>
  {
    var body := ArchiveBody(lines);
    match (ArchiveSum(body), LastLineCommits(lines))
    case (Some(s), Some(extra)) => Success(ArchiveTotals(s.0, s.1, s.0 - s.1, s.2 + extra, |body|))
    case _ => Failure(Malformed)
  }

  // ------------------------------------------------------------- lemmas

  lemma {:induction false} SumRowsNoneSticks(lines: seq<string>, row: string -> Option<(int, int, int)>, i: nat)
    requires i <= |lines|
    requires SumRows(lines[..i], row) == None
    ensures SumRows(lines, row) == None
    decreases |lines| - i
  {
    if i == |lines| {
      assert lines[..i] == lines;
    } else {
      assert lines[..i + 1][..i] == lines[..i];
      SumRowsNoneSticks(lines, row, i + 1);
    }
  }

  /** One more line into the sums of a prefix. */
  lemma SumRowsNext(lines: seq<string>, row: string -> Option<(int, int, int)>, i: nat)
    requires i < |lines|
    ensures SumRows(lines[..i + 1], row) == match (SumRows(lines[..i], row), row(lines[i]))
      case (Some(sum), Some(v)) => Some((sum.0 + v.0, sum.1 + v.1, sum.2 + v.2))
      case _ => None
  {
    assert lines[..i + 1][..i] == lines[..i];
  }

  /** Lines that each read as a row of values add up to the column sums of those values. */
  lemma {:induction false} SumRowsOfValues(lines: seq<string>, row: string -> Option<(int, int, int)>,
                                           added: seq<int>, deleted: seq<int>, commits: seq<int>)
    requires |lines| == |added| == |deleted| == |commits|
    requires forall i :: 0 <= i < |lines| ==> row(lines[i]) == Some((added[i], deleted[i], commits[i]))
    ensures SumRows(lines, row) == Some((Sum(added), Sum(deleted), Sum(commits)))
  {
    if lines != [] {
      var n := |lines| - 1;
      SumRowsOfValues(lines[..n], row, added[..n], deleted[..n], commits[..n]);
    }
  }

  /** The body is what remains between the 7 header lines and the 3 footer lines, and is empty for a shorter file. */
  lemma ArchiveBodySplit(lines: seq<string>)
    ensures |ArchiveBody(lines)| == if |lines| >= HeaderLines + FooterLines then |lines| - (HeaderLines + FooterLines) else 0
    ensures |lines| >= HeaderLines + FooterLines ==>
      lines[..HeaderLines] + ArchiveBody(lines) + lines[|lines| - FooterLines..] == lines
  {
    if |lines| >= HeaderLines + FooterLines {
      assert lines[..HeaderLines] + lines[HeaderLines..|lines| - FooterLines] + lines[|lines| - FooterLines..] == lines;
    }
  }

  /** An own-commit count written with `str` counts as itself when non-negative, and not at all when negative. */
  lemma CountedCommitsOfStr(n: int)
    ensures CountedCommits(Str(n)) == if n >= 0 then n else 0
  {
    StrIsDigits(n);
    if n >= 0 {
      NatStrDigits(n);
    }
  }

  /**
   * A last line whose fifth field is `str(n)` followed by one more character
   * supplies `n`: the source drops that character before parsing.
   */
  lemma LastLineSupplement(lines: seq<string>, fs: seq<string>, tail: string, n: int, c: char)
    requires |lines| > 0
    requires |fs| >= 5 && forall i :: 0 <= i < |fs| ==> IsToken(fs[i])
    requires fs[4] == Str(n) + [c]
    requires tail == "" || tail == "\n"
    requires lines[|lines| - 1] == Unwords(fs) + tail
    ensures LastLineCommits(lines) == Some(n)
  {
    FieldsOfUnwords(fs, tail);
    assert Fields(tail) == [];
    assert Fields(lines[|lines| - 1]) == fs;
    var token := fs[4];
    assert token[..|token| - 1] == Str(n);
    ParseStr(n);
  }

  /** The commits a record contributes: its own-commit count, unless that is negative and so not all digits. */
  function CountedMine(rs: seq<Record>): (xs: seq<int>)
    ensures |xs| == |rs|
  {
    seq(|rs|, i requires 0 <= i < |rs| => if rs[i].mine >= 0 then rs[i].mine else 0)
  }

  lemma ArchiveLineOfRecord(r: Record)
    ensures ArchiveLine(Line(r)) == Some((r.added, r.deleted, if r.mine >= 0 then r.mine else 0))
  {
    DigestIsToken(r.digest);
    RecordLineFields(r.digest, r.total, r.mine, r.added, r.deleted);
    ParseStr(r.added);
    ParseStr(r.deleted);
    StrIsDigits(r.mine);
    if r.mine >= 0 {
      NatStrDigits(r.mine);
    }
  }

  /** Over record lines, the sums are the records' added and deleted totals and their non-negative own-commit counts. */
  lemma ArchiveSumOfRecords(rs: seq<Record>)
    ensures ArchiveSum(Lines(rs)) == Some((Sum(Added(rs)), Sum(Deleted(rs)), Sum(CountedMine(rs))))
  {
    var lines := Lines(rs);
    forall i | 0 <= i < |rs|
      ensures ArchiveLine(lines[i]) == Some((Added(rs)[i], Deleted(rs)[i], CountedMine(rs)[i]))
    {
      ArchiveLineOfRecord(rs[i]);
    }
    SumRowsOfValues(lines, ArchiveLine, Added(rs), Deleted(rs), CountedMine(rs));
  }

  /** Record lines are whole lines. */
  lemma RecordLinesTerminated(rs: seq<Record>)
    ensures AllTerminated(Lines(rs))
  {
    forall i | 0 <= i < |rs|
      ensures IsTerminatedLine(Lines(rs)[i])
    {
      DigestIsToken(rs[i].digest);
      RecordLineFields(rs[i].digest, rs[i].total, rs[i].mine, rs[i].added, rs[i].deleted);
    }
  }

  /**
   * An archive of 7 header lines, body lines and 3 footer lines adds up what
   * the body lines hold, counts one repository per body line, and adds the
   * commit count the last line carries.
   */
  lemma ArchiveOfLayout(header: seq<string>, body: seq<string>, footer: seq<string>,
                        added: int, deleted: int, commits: int, extra: int)
    requires |header| == HeaderLines && |footer| == FooterLines
    requires IsLineSeq(header + body + footer)
    requires ArchiveSum(body) == Some((added, deleted, commits))
    requires LastLineCommits(footer) == Some(extra)
    ensures ArchiveOf(Some(Concat(header + body + footer)))
         == Success(ArchiveTotals(added, deleted, added - deleted, commits + extra, |body|))
  {
    var lines := header + body + footer;
    ReadLinesConcat(lines);
    assert ArchiveBody(lines) == body by {
      assert lines[HeaderLines..|lines| - FooterLines] == body;
    }
    assert LastLineCommits(lines) == LastLineCommits(footer) by {
      assert lines[|lines| - 1] == footer[|footer| - 1];
    }
    ArchiveOfParts(lines, body, added, deleted, commits, extra);
  }

  lemma ArchiveOfParts(lines: seq<string>, body: seq<string>, added: int, deleted: int, commits: int, extra: int)
    requires ArchiveBody(lines) == body
    requires ArchiveSum(body) == Some((added, deleted, commits))
    requires LastLineCommits(lines) == Some(extra)
    ensures ArchiveOfLines(lines) == Success(ArchiveTotals(added, deleted, added - deleted, commits + extra, |body|))
  {
  }

  /** The same for an archive whose body is record lines: the sums are the records' totals. */
  lemma ArchiveOfRecords(header: seq<string>, rs: seq<Record>, footer: seq<string>, extra: int, added: int, deleted: int, commits: int)
    requires |header| == HeaderLines && |footer| == FooterLines
    requires AllTerminated(header) && IsLineSeq(footer)
    requires LastLineCommits(footer) == Some(extra)
    requires added == Sum(Added(rs)) && deleted == Sum(Deleted(rs)) && commits == Sum(CountedMine(rs))
    ensures ArchiveOf(Some(Concat(header + Lines(rs) + footer)))
         == Success(ArchiveTotals(added, deleted, added - deleted, commits + extra, |rs|))
  {
    var body := Lines(rs);
    assert IsLineSeq(header + body + footer) by {
      RecordLinesTerminated(rs);
      var lines := header + body + footer;
      forall i | 0 <= i < |lines|
        ensures IsLine(lines[i]) && (i < |lines| - 1 ==> EndsWithNewline(lines[i]))
      {
        if i < |header| {
          assert lines[i] == header[i];
        } else if i < |header| + |body| {
          assert lines[i] == body[i - |header|];
        } else {
          assert lines[i] == footer[i - |header| - |body|];
        }
      }
    }
    assert ArchiveSum(body) == Some((added, deleted, commits)) by {
      ArchiveSumOfRecords(rs);
    }
    ArchiveOfLayout(header, body, footer, added, deleted, commits, extra);
  }

  /** A file too short to have a body counts no repository, and only what its last line carries. */
  lemma ShortArchiveCountsNothing(text: string)
    requires |ReadLines(text)| < HeaderLines + FooterLines
    requires LastLineCommits(ReadLines(text)).Some?
    ensures ArchiveOf(Some(text)) == Success(ArchiveTotals(0, 0, 0, LastLineCommits(ReadLines(text)).value, 0))
  {
  }

  // ------------------------------------------------------------- method

  /** The loop of lines 235-240 of today.py over the body lines. */
  method SumArchive(body: seq<string>) returns (r: Option<(int, int, int)>)
    ensures r == ArchiveSum(body)
  {
    var added, deleted, commits := 0, 0, 0;
    for i := 0 to |body|
      invariant SumRows(body[..i], ArchiveLine) == Some((added, deleted, commits))
    {
      SumRowsNext(body, ArchiveLine, i);
      var v := ReadArchiveLine(body[i]);
      if v.None? {
        SumRowsNoneSticks(body, ArchiveLine, i + 1);
        return None;
      }
      added := added + v.value.0;
      deleted := deleted + v.value.1;
      commits := commits + v.value.2;
    }
    assert body[..|body|] == body;
    r := Some((added, deleted, commits));
  }

  /** One pass of that loop: split the line and read its counts. */
  method ReadArchiveLine(line: string) returns (v: Option<(int, int, int)>)
    ensures v == ArchiveLine(line)
  {
    var f := Fields(line);
    if |f| < 5 {
      return None;
    }
    var a, d := ParseInt(f[3]), ParseInt(f[4]);
    if a.None? || d.None? {
      return None;
    }
    var mine := 0;
    if IsDigits(f[2]) {
      mine := DigitsValue(f[2]);
    }
    v := Some((a.value, d.value, mine));
  }

  /** Lines 241-242 of today.py. */
  method ReadLastLineCommits(lines: seq<string>) returns (r: Option<int>)
    ensures r == LastLineCommits(lines)
  {
    r := Some(0);
    if |lines| > 0 && |Fields(lines[|lines| - 1])| > 4 {
      var token := Fields(lines[|lines| - 1])[4];
      r := ParseInt(token[..|token| - 1]);
    }
  }

  /** `add_archive()`, reading the archive file's text (None when missing). */
  method AddArchive(file: Option<string>) returns (r: Result<ArchiveTotals, Failure>)
    ensures file.None? ==> r == Success(ArchiveTotals(0, 0, 0, 0, 0))
    ensures r.Success? ==> r.value.net == r.value.added - r.value.deleted
    ensures r == ArchiveOf(file)
  {
    if file.None? {
      return Success(ArchiveTotals(0, 0, 0, 0, 0));
    }
    var lines := ReadLines(file.value);
    var body := ArchiveBody(lines);
    var sums := SumArchive(body);
    if sums.None? {
      return Failure(Malformed);
    }
    var extra := ReadLastLineCommits(lines);
    if extra.None? {
      return Failure(Malformed);
    }
    var s := sums.value;
    r := Success(ArchiveTotals(s.0, s.1, s.0 - s.1, s.2 + extra.value, |body|));
  }
}
