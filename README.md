# Lines-of-code cache of `today.py`

`today.py` renders GitHub statistics for one account. Its lines-of-code
figure comes from an incremental cache kept in a text file: `comment_size`
header lines, then one record per repository, in the order the repository
listing returns them:

    <sha256 of nameWithOwner> <totalCommitCount> <myCommits> <added> <deleted>

This project models that cache and the helpers around it, and proves what
they promise:

- `cache_builder`: it loads the file or creates it with placeholder header
  lines. It rebuilds the file with `flush_cache` when the record count is off
  or a rebuild is forced. It then reconciles each record by position against
  the live listing. A record is re-walked only when its digest is the
  repository's and its stored commit count differs from the live one. A
  record whose commit count is missing is zeroed. The file is written back
  and the `added`/`deleted` columns are summed into
  `[added, deleted, net, cached]`.
- The history walker, `recursive_loc` with `loc_counter_one_repo`. It pages
  through a repository's default-branch history and counts the commits whose
  author's user id is `OWNER_ID`, with their additions and deletions. On a
  non-200 reply it saves the records as they are (`force_close_file`) and
  raises. A 403 gets its own "Too many requests" error.
- `commit_counter`, `add_archive` (the frozen snapshot of records for
  repositories that are gone), `stars_counter`, `format_plural`, and the
  padding that `justify_format` computes.

Modelling choices:

- A file is its text: `Option<string>`, where `None` is a missing file.
- `readlines` and `writelines` are `Text.ReadLines` and `Text.Concat`.
- `str.split()` is `Text.Fields`, with Python's full set of whitespace.
- `int()` of a field is `Text.ParseInt`, an optional sign and ASCII digits.
  `None` stands for Python's ValueError.
- `str()` of an int is `Text.Str`.
- SHA-256 is a function parameter `sha: string -> Digest`. A `Digest` is
  64 lower-case hex characters.
- The remote commit history of `owner/name` is a function parameter
  `history(owner, name)`. It gives the replies to the successive page
  requests: a status and, for 200, the history page, or nothing when the
  repository or its `defaultBranchRef` is null. The type `Script` makes the
  reply sequence contain a reply that ends the walk.
- The exceptions that leave a run are `CacheFile.Failure`:
  - `Throttled` is the 403 error.
  - `QueryFailed(status)` is any other status.
  - `Malformed` is a ValueError or IndexError: a record line with fewer than
    two fields or a count that is not an integer, a missing record line, a
    line the summing loop cannot read, or a repository name that does not
    split into exactly `owner/name` (the unpacking of `split('/')`).
- Each imperative routine is a method proved against a specification
  function: `CacheBuilder` against `CacheRun`, `WalkHistory` against `Walk`,
  `FlushCache` against `FlushText`, `CommitCounter` against `CommitCount`,
  `AddArchive` against `ArchiveOf`. The properties are lemmas about those
  functions.
- A method takes the file text before the run and returns the text after it.
  `force_close_file` happens in the caller of the walk, not inside it. It
  writes the same content: the header and the records as they are when the
  walk fails.

How the code treats missing and malformed files:

- An archive line that does not parse raises. So does a malformed
  supplemental count on the last line. Only a missing archive gives zeros.
- A missing cache file is created with the placeholder header lines only.
  With at least one repository the record count is then off, and the
  rebuild that follows writes the zero records. With no repositories and no
  forced rebuild the file stays as created.
- Records are saved early only when a query fails. A malformed line that the
  reconciliation loop meets ends the run and leaves the file as it was when
  reconciliation started. A line that only the summing loop rejects raises
  after the file has been written with the reconciled records.

Behaviour worth knowing, modelled as written:

- A cache file with fewer than `comment_size` lines is rebuilt with its short
  header unpadded. The next read takes the first records as header lines.
  With at least one repository, `data[index]` then raises an IndexError
  (`Malformed`); with none, the loop is empty and the run succeeds. This is why
  `RebuildLayout` requires a file with at least `comment_size` lines, the
  first `comment_size` of them ending in a newline. `SecondRunIsIdentity`
  and the layout lemmas it builds on are stated only for files whose every
  line ends in a newline, as the files the program writes do. A file whose
  last line has no newline is left out of them.
- The dots `justify_format` writes are as wide as the gap when the gap is one
  or two characters. For a gap of three or more they are two characters
  wider, because of the framing spaces (`Display.JustifiedWidth`).

## Model

| member | source | states |
|---|---|---|
| Text.ConcatReadLines | today.py:170 | Writing back the lines `readlines` returned gives the file text back unchanged. |
| Text.ReadLinesConcat | today.py:182-184 | Lines that each end with a newline, written with `writelines`, are read back by `readlines` as the same lines. |
| Text.ReadLinesShape | today.py:170 | `readlines` returns lines each ending in a newline except possibly the last; all of them end in one when the text does. |
| Text.FieldsOfUnwords | today.py:189 | `split()` of space-joined tokens, followed by whitespace, returns the tokens. |
| Text.ParseStr | today.py:195 | `int(str(n)) == n` for every integer, and `str(n)` has no whitespace. |
| Text.StrIsDigits | today.py:238 | `str(n).isdigit()` holds exactly when `n >= 0`. |
| Walker.Walk | today.py:109-119 | A walk ends in failure only with a status other than 200. |
| Walker.AuthoredMembers | today.py:125 | The commits kept are exactly those whose author's user id is `OWNER_ID`. |
| Walker.TallyCountsAuthored | today.py:124-128 | One page adds the number of own commits and the sums of their additions and deletions. |
| Walker.TallyAppend | today.py:124-132 | Tallying page by page gives the tally of the pages' concatenation. |
| Walker.WalkTalliesVisited | today.py:109-132 | When every reply is a 200 with a history page, the walk adds the tally of every page it reads, stopping at an empty page or at `hasNextPage == false`. |
| Walker.WalkCountsOwnCommits | today.py:122-132 | A walk from zero returns the number of own commits over every page read, with the sums of their additions and deletions. |
| Walker.WalkFailsOnlyOnError | today.py:109-119 | A failed walk carries the status of one of the replies, and that status is not 200. |
| Walker.WalkFailsOnReachedError | today.py:109-119 | A non-200 reply the walk reaches, after pages that all continue, makes the walk fail with that reply's status. |
| Walker.EmptyReplyZeroesWalk | today.py:109-115 | A 200 reply with no repository or default branch ends the walk with zero totals, even after pages that were already counted. |
| Walker.CountPage | today.py:124-128 | The loop over a page's edges adds the page's tally to the running totals. |
| Walker.WalkHistory | today.py:83-132 | The page-by-page loop returns what the walk defines: the totals, or the failing status. |
| CacheFile.RecordLineFields | today.py:195 | `split()` of a written record returns its digest and the `str` of its four counts, and the record is one newline-terminated line. |
| CacheFile.ZeroLineIsRecord | today.py:197 | The zeroed line is the record with all four counts 0. |
| CacheFile.LocOfRecordLine | today.py:201-204 | Summing reads back the added and deleted counts of a written record, and `commit_counter` reads back its own-commit count. |
| CacheFile.FlushCache | today.py:208-222 | `flush_cache` writes the kept header followed by one zero record per repository, in listing order. |
| CacheFile.LocSumOfRecords | today.py:201-205 | Over record lines, the sums are the totals of the records' added and deleted counts. |
| CacheFile.SumLoc | today.py:201-204 | The summing loop returns the sums of the added and deleted fields, or fails on the first line without five fields or with an unparsable count. |
| CacheFile.CommitSumOfRecords | today.py:321-323 | Over record lines, `commit_counter` sums the records' own-commit counts. |
| CacheFile.SumCommits | today.py:321-324 | The loop of `commit_counter` returns the sum of field 3 over the lines that have one, or fails on the first such field that is not an integer. |
| CacheFile.ShortLinesCountNothing | today.py:322 | A line with fewer than 3 fields adds nothing to the commit count. |
| CacheFile.CommitCounter | today.py:311-324 | `commit_counter` returns 0 for a missing file and otherwise the sum of field 3 over the body lines that have at least 3 fields; an unparsable field raises. |
| LocCache.SplitName | today.py:193 | `owner/name` splits into two slash-free parts exactly when it holds a single slash. |
| LocCache.LineStep | today.py:189-197 | A record is kept exactly when it is up to date: another repository's digest, or the live commit count. A rewrite happens only on the repository's own digest with a stale count. A record with the repository's digest and a readable count is rewritten to `digest 0 0 0 0` whenever the live count is missing. A walk that finds no own commits under a live count of 0 writes the same line. A halt carries a status other than 200. |
| LocCache.FirstStop | today.py:188-197 | The loop completes every record before the first one that raises or halts. |
| LocCache.ReconcileOne | today.py:189-197 | The body of the reconciliation loop for one record does what `LineStep` defines. |
| LocCache.ReconcileRecords | today.py:186-197 | The loop updates records in place, by index, up to the first one that stops. It reports where it stopped and why: IndexError or ValueError, 403, or another status. |
| LocCache.LoadCache | today.py:166-184 | The file is opened or created with placeholder lines, then rebuilt and re-read when its record count is off or a rebuild is forced; `cached` is false exactly then. |
| LocCache.SettleRecords | today.py:186-205 | After reconciliation: on a failed query, the file is the header and the records as they stand. On malformed data, the file is left as loaded. Otherwise the file is written back and summed. |
| LocCache.WriteAndSum | today.py:198-205 | The file is written as the header followed by the records; the result is their sums, or an error on a malformed record. |
| LocCache.CacheBuilder | today.py:165-205 | `cache_builder` produces the file and the result that `CacheRun` defines; on success `cached` is false exactly when a rebuild happened, and `net == added - deleted`. |
| CacheProperties.RewriteCountsOwnCommits | today.py:192-195 | A re-walked record gets the live commit count, the number of own commits over the whole history, and their additions and deletions. |
| CacheProperties.RewriteIsTerminated | today.py:195-197 | Every rewritten record is one newline-terminated line. |
| CacheProperties.StepIsStable | today.py:189-197 | A reconciled record is left as it is by the next reconciliation, whatever the remote history says then. |
| CacheProperties.LoadedLayout | today.py:167-178 | The loaded lines all end in a newline, and the header `flush_cache` keeps is their first `comment_size` lines. |
| CacheProperties.RebuildLayout | today.py:180-184 | For any file whose first `comment_size` lines are present and end in a newline, after a rebuild the header lines are kept and the body is exactly one zero record per repository in listing order, so the record count equals the repository count. |
| CacheProperties.WorkingLayout | today.py:166-187 | Rebuilt or not, reconciliation starts from the header plus one record line per repository. |
| CacheProperties.ZeroRecordStep | today.py:189-197 | A zero record is kept exactly when the live count is 0. It is rewritten to itself when the live count is missing. |
| CacheProperties.UpToDateBodyKept | today.py:188-197 | When every record is up to date, the loop completes and changes nothing. |
| CacheProperties.UpToDateRunKeepsFile | today.py:186-200 | Without a rebuild and with every record up to date, the file is written back exactly as read, and no history is consulted. |
| CacheProperties.SucceededRunLayout | today.py:180-197 | A run that succeeds held the header and exactly one newline-terminated record line per repository, and its loop finished every record. |
| CacheProperties.RereadRun | today.py:169-187 | Reading back a file of newline-terminated lines with one record per repository, without a forced rebuild, keeps the file and starts reconciliation from those same records with `cached` true. |
| CacheProperties.CompletedBodyIsStable | today.py:188-197 | The records a complete loop wrote all end in a newline, and the next loop completes and writes them back unchanged. |
| CacheProperties.SecondRunIsIdentity | today.py:165-205 | A second run over the file a successful run wrote gives the same file and totals, now with `cached` true. |
| CacheProperties.StoppedRunSavesProgress | today.py:110-119 | A 403 failure happens exactly when the first unfinished record's walk met a 403. A walk that halts on any other status makes the run fail with that status, and a query failure only arises that way. Either way the file holds the header and the records as they stood: earlier records reconciled, the rest as loaded. A missing or unreadable record at the stop makes the run fail as malformed with the file as the loop found it. |
| CacheProperties.HaltComesFromReply | today.py:109-119 | The status a record's walk halts on is the status of one of that repository's replies. |
| CacheProperties.ReachedErrorHalts | today.py:109-119 | A stale record whose walk reaches a non-200 reply halts with that reply's status, which ends the run as throttled for a 403 and as a failed query for any other status. |
| Archive.ArchiveBodySplit | today.py:232-234 | `data[7:len(data) - 3]` has `len(data) - 10` lines, or none for a shorter file; with the 7 header and 3 footer lines around it, it makes up the whole file. |
| Archive.CountedCommitsOfStr | today.py:239-240 | An own-commit count written with `str` adds itself when non-negative and nothing when negative, since `isdigit` rejects the sign. |
| Archive.ArchiveLineOfRecord | today.py:236-240 | A record line adds its added and deleted counts and its own-commit count when that is non-negative. |
| Archive.ArchiveSumOfRecords | today.py:235-240 | Over record lines, the archive sums are the records' totals, counting only non-negative own-commit counts. |
| Archive.SumRowsOfValues | today.py:235-240 | When each line reads as a row of three values, the running sums are the column sums of those values. |
| Archive.ArchiveOfLayout | today.py:225-243 | Seven header lines, a body and three footer lines, read as `readlines` reads them (the last line may lack its newline), give the body's sums, `net = added - deleted`, the commits plus the last line's supplement, and one repository per body line. |
| Archive.ArchiveOfRecords | today.py:225-243 | The same for a body of record lines, in terms of the records' totals; the last footer line may lack its newline. |
| Archive.ShortArchiveCountsNothing | today.py:232-243 | A file with fewer than 10 lines counts no repository and only the last line's supplement. |
| Archive.SumArchive | today.py:235-240 | The archive loop returns the sums of the body lines, or fails on a line without five fields or with an unparsable count. |
| Archive.ReadArchiveLine | today.py:236-240 | One pass of the archive loop splits the line and reads added, deleted and counted commits exactly as `ArchiveLine` defines, failing on fewer than five fields or an unparsable count. |
| Archive.LastLineSupplement | today.py:241-242 | A last line whose fifth field is `str(n)` followed by one more character supplies `n`. |
| Archive.AddArchive | today.py:225-243 | `add_archive` returns all zeros for a missing file and otherwise what `ArchiveOf` defines, with `net = added - deleted`. |
| Display.FormatPlural | today.py:29-30 | The suffix is empty exactly when the unit is 1, and `"s"` otherwise. |
| Display.StarsCounter | today.py:254-255 | With non-negative star counts the total is non-negative and at least each repository's count. |
| Display.StarsAppend | today.py:254-255 | The star count of a listing is the sum of the counts of its parts. |
| Display.GroupThousandsReadsBack | today.py:279-280 | Removing the separators from `'{:,}'.format(n)` gives `str(n)`, which parses back to `n`. |
| Display.NumberWidth | today.py:279-280 | A number with separators is one comma wider for every three digits beyond the first group, plus its sign. |
| Display.JustLen | today.py:283 | The gap brings the text up to the field width, and is 0 when the text already fills it. |
| Display.DotString | today.py:284-285 | Gaps 0, 1 and 2 give `""`, `" "` and `". "`. A larger gap gives that many dots framed by one space on each side. |
| Display.JustifiedWidth | today.py:278-285 | Dots and value together span the field width for a gap of 1 or 2, the value alone when it fills the field, and two more than the width for a larger gap. |

## Left out

- HTTP and GraphQL traffic: `simple_request`, `graph_commits`, `graph_repos_stars`, `user_getter`, `follower_getter`, and the request side of `recursive_loc`. Their replies are inputs: the `history` parameter and the repository listing `edges`.
- `loc_query`: its pagination and its mutable default `edges=[]`. The model takes the concatenated listing.
- SHA-256 itself: `hashlib` is a foreign library. The model takes it as the parameter `sha`.
- File-system calls (`open`, `os.makedirs`) and the choice of file name. A method takes a file's text and returns the text written. A run writes the whole file at once, so a failure in the middle of a write is not modelled.
- `find_and_replace`, `svg_overwrite` and `update_svg`: they patch SVG files through lxml and ElementTree. Only the padding that `justify_format` computes is modelled, not the write into the document.
- `daily_readme`: it depends on the clock and on `dateutil`.
- `perf_counter`, `formatter`, `query_count` and the global `QUERY_COUNT`: they measure time, print, and count queries for diagnostics.
- The `__main__` block: it is orchestration and prints output.
- The `print` in `force_close_file`: the saved content is modelled, the message is not.
- Text.ParseInt: it does not accept the underscores, surrounding whitespace or non-ASCII digits that Python's `int()` allows. Fields never carry whitespace, and the cache writes plain ASCII digits.
- Text.IsDigits: it is ASCII only, while Python's `str.isdigit` also accepts other Unicode digits (which `int()` may then reject).
- Text.ReadLines: it splits on `\n` only. Universal-newline translation of `\r` and `\r\n` when a file is read in text mode is not modelled.
- Display.StarsCounter: it takes the star counts of the listing it is given. That `graph_repos_stars` passes only the first page of 100 repositories is outside the model, together with the query.
- Display.JustifiedWidth: `isinstance(new_text, int)` is also true for a `bool`, which `'{:,}'` formats as `1` or `0`. The model's values are integers or text.
- Walker.Walk: a `KeyError` from a commit target that is not a `Commit`, or from a reply without `data`, is not modelled. The reply type always carries a page or nothing.
- Walker.Walk: a TypeError inside the walk is not modelled. A 200 reply whose `data` is null (today.py:111) or whose `target` is null (today.py:113) raises one, and the `try` at today.py:191-197 catches it and zeroes the record to `digest 0 0 0 0`. The reply type cannot express a null `data` or `target`. The nearest reply it has, one without a history, ends the walk with zero totals, so the record gets the live commit count and zero own commits rather than `digest 0 0 0 0`.
- Walker.Walk: Python's recursion limit is not modelled. `recursive_loc` and `loc_counter_one_repo` take two frames per page, so a history of roughly 500 pages or more raises a RecursionError, which nothing catches and which leaves the file without a partial save. The model's loop completes such a walk.
- CacheProperties.SecondRunIsIdentity: covers only cache files whose every line ends in a newline. A file whose last record line has no newline is not covered, because the layout lemmas the proof uses read the file back line for line.
