/** The excerpt of a workflow run's log archive: at most 100 files and 1 MiB of text in all. */
module LogArchive {
  import opened Prelude

  const MAX_LOG_BYTES: nat := 1024 * 1024
  const MAX_LOG_FILES: nat := 100
  const MAX_ARCHIVE_BYTES: nat := 10 * 1024 * 1024

  type Bytes = seq<bv8>

  /** An archive member. The size in its header is not bound to match its content, and reading the
      content fails if it is damaged or encrypted. */
  datatype Entry = Entry(name: string, isDir: bool, fileSize: nat, content: Option<Bytes>)

  datatype LogFile = LogFile(name: string, size: nat, content: Bytes, truncated: bool)

  datatype LogError = ArchiveTooLarge | OversizedFile | InvalidArchive

  datatype Logs = Logs(files: seq<LogFile>, filesTruncated: bool)

  function Files(entries: seq<Entry>): seq<Entry> {
    if entries == [] then []
    else (if entries[0].isDir then [] else [entries[0]]) + Files(entries[1..])
  }

  function Content(e: Entry): Bytes {
    if e.content.Some? then e.content.value else []
  }

  /** The bytes that the first n members hold. */
  function Total(entries: seq<Entry>, n: nat): nat
    requires n <= |entries|
  {
    if n == 0 then 0 else Total(entries, n - 1) + |Content(entries[n - 1])|
  }

  function Min(a: nat, b: nat): nat {
    if a < b then a else b
  }

  /** The member cannot be excerpted. */
  predicate Faulty(e: Entry) {
    e.fileSize > MAX_ARCHIVE_BYTES || e.content.None?
  }

  /** The collection gets as far as the n-th member: no earlier one used the budget up or was faulty. */
  ghost predicate Reached(entries: seq<Entry>, n: nat)
    requires n <= |entries|
  {
    (forall m | 0 <= m <= n :: Total(entries, m) < MAX_LOG_BYTES) && forall m | 0 <= m < n :: !Faulty(entries[m])
  }

  /** The member at which the collection fails. */
  ghost predicate Fails(entries: seq<Entry>, i: nat) {
    i < |entries| && i < MAX_LOG_FILES && Reached(entries, i) && Faulty(entries[i])
  }

  /** What is returned of a member: all of it, or as much as the earlier ones left of the budget. */
  function Excerpt(entries: seq<Entry>, i: nat): LogFile
    requires i < |entries| && Total(entries, i) < MAX_LOG_BYTES
  {
    var content := Content(entries[i]);
    var size := Min(|content|, MAX_LOG_BYTES - Total(entries, i));
    LogFile(entries[i].name, |content|, content[..size], size < |content|)
  }

  ghost predicate IsExcerpt(entries: seq<Entry>, files: seq<LogFile>) {
    |files| <= |entries| &&
    forall i | 0 <= i < |files| :: Total(entries, i) < MAX_LOG_BYTES && files[i] == Excerpt(entries, i)
  }

  /** The excerpt stops at the 100th file, at the last one, or where the budget is used up. */
  ghost predicate Complete(entries: seq<Entry>, files: seq<LogFile>)
    requires |files| <= |entries|
  {
    |files| == Min(|entries|, MAX_LOG_FILES) || (|files| < MAX_LOG_FILES && Total(entries, |files|) >= MAX_LOG_BYTES)
  }

  ghost predicate SomeCut(files: seq<LogFile>) {
    exists i :: 0 <= i < |files| && files[i].truncated
  }

  function Returned(files: seq<LogFile>): nat {
    if files == [] then 0 else Returned(files[..|files| - 1]) + |files[|files| - 1].content|
  }

  lemma {:induction false} TotalGrows(entries: seq<Entry>, m: nat, n: nat)
    requires m <= n <= |entries|
    ensures Total(entries, m) <= Total(entries, n)
  {
    if m < n { TotalGrows(entries, m, n - 1); }
  }

  /** The excerpt holds what the members hold, capped at the budget. */
  lemma {:induction false} ReturnedTotal(entries: seq<Entry>, files: seq<LogFile>)
    requires IsExcerpt(entries, files)
    ensures Returned(files) == Min(Total(entries, |files|), MAX_LOG_BYTES)
  {
    if files != [] {
      var n := |files| - 1;
      ReturnedTotal(entries, files[..n]);
      assert files[n] == Excerpt(entries, n);
    }
  }

  /** One more member after i uncut ones that left some of the budget. */
  lemma OneMore(entries: seq<Entry>, files: seq<LogFile>, i: nat, file: LogFile)
    requires i == |files| < |entries| && IsExcerpt(entries, files) && Reached(entries, i) && !Faulty(entries[i])
    requires file == Excerpt(entries, i)
    ensures IsExcerpt(entries, files + [file])
    ensures Total(entries, i + 1) < MAX_LOG_BYTES ==> Reached(entries, i + 1) && !file.truncated
    ensures Total(entries, i + 1) >= MAX_LOG_BYTES <==> |file.content| == MAX_LOG_BYTES - Total(entries, i)
    ensures Total(entries, i + 1) < MAX_LOG_BYTES ==> Total(entries, i + 1) == Total(entries, i) + |file.content|
  {
  }

  /** A complete excerpt of sound members leaves no member at which the collection could fail. */
  lemma NothingFails(entries: seq<Entry>, files: seq<LogFile>)
    requires |files| <= |entries| && Complete(entries, files)
    requires forall m | 0 <= m < |files| :: !Faulty(entries[m])
    ensures forall i: nat :: !Fails(entries, i)
  {
    forall i: nat ensures !Fails(entries, i) {
      if |files| <= i <= |entries| && Reached(entries, i) { assert Total(entries, |files|) < MAX_LOG_BYTES; }
    }
  }

  /** The collection fails at no more than one member. */
  lemma FailsOnce(entries: seq<Entry>, i: nat, j: nat)
    requires Fails(entries, i) && Fails(entries, j)
    ensures i == j
  {
  }

  /** The collection fails, and because of the size in the member's header or not. */
  ghost predicate FailsFor(entries: seq<Entry>, oversized: bool) {
    exists i: nat :: Fails(entries, i) && (entries[i].fileSize > MAX_ARCHIVE_BYTES) == oversized
  }

  lemma FailsForOneReason(entries: seq<Entry>, i: nat, oversized: bool)
    requires Fails(entries, i)
    ensures FailsFor(entries, oversized) <==> (entries[i].fileSize > MAX_ARCHIVE_BYTES) == oversized
  {
    if j: nat :| Fails(entries, j) && (entries[j].fileSize > MAX_ARCHIVE_BYTES) == oversized {
      FailsOnce(entries, i, j);
    }
  }

  /** All of the first |files| members are in the excerpt, and some of the budget is left. */
  ghost predicate Collecting(entries: seq<Entry>, files: seq<LogFile>, remaining: nat) {
    |files| <= |entries| && |files| <= MAX_LOG_FILES && IsExcerpt(entries, files) && !SomeCut(files) &&
    Reached(entries, |files|) && remaining == MAX_LOG_BYTES - Total(entries, |files|)
  }

  /** The excerpt is complete, its flag is right, and nothing could have failed. */
  ghost predicate Collected(entries: seq<Entry>, files: seq<LogFile>, truncated: bool) {
    IsExcerpt(entries, files) && Complete(entries, files) &&
    (truncated <==> |files| < |entries| || SomeCut(files)) && forall i: nat :: !Fails(entries, i)
  }

  lemma Takes(entries: seq<Entry>, files: seq<LogFile>, remaining: nat, file: LogFile)
    requires Collecting(entries, files, remaining) && |files| < |entries| && |files| < MAX_LOG_FILES
    requires !Faulty(entries[|files|]) && file == Excerpt(entries, |files|)
    ensures |file.content| < remaining ==> Collecting(entries, files + [file], remaining - |file.content|)
    ensures |file.content| == remaining ==>
              Collected(entries, files + [file], |entries| > |files| + 1 || file.truncated)
  {
    OneMore(entries, files, |files|, file);
    var more := files + [file];
    assert SomeCut(more) <==> file.truncated by { assert more[|files|] == file; }
    if |file.content| == remaining { NothingFails(entries, more); }
  }

  lemma Stops(entries: seq<Entry>, files: seq<LogFile>, remaining: nat)
    requires Collecting(entries, files, remaining) && (|files| == |entries| || |files| == MAX_LOG_FILES)
    ensures Collected(entries, files, |entries| > MAX_LOG_FILES)
  {
    NothingFails(entries, files);
  }

  method Collect(entries: seq<Entry>) returns (result: Result<Logs, LogError>, ghost failed: nat)
    ensures result.Err? ==>
              Fails(entries, failed) &&
              result.error == if entries[failed].fileSize > MAX_ARCHIVE_BYTES then OversizedFile else InvalidArchive
    ensures result.Ok? ==> Collected(entries, result.value.files, result.value.filesTruncated)
  {
    var files: seq<LogFile> := [];
    var remaining: nat := MAX_LOG_BYTES;
    var filesTruncated := false;
    var i := 0;
    failed := 0;
    while i < |entries| && i < MAX_LOG_FILES
      invariant i == |files| && !filesTruncated && Collecting(entries, files, remaining)
    {
      var entry := entries[i];
      failed := i;
      if entry.fileSize > MAX_ARCHIVE_BYTES { return Err(OversizedFile), failed; }
      if entry.content.None? { return Err(InvalidArchive), failed; }
      var content := entry.content.value;
      var bounded := content[..Min(|content|, remaining)];
      var file := LogFile(entry.name, |content|, bounded, |content| > |bounded|);
      Takes(entries, files, remaining, file);
      files := files + [file];
      remaining := remaining - |bounded|;
      i := i + 1;
      if remaining == 0 {
        filesTruncated := |entries| > |files| || |content| > |bounded|;
        break;
      }
    }
    if remaining > 0 { Stops(entries, files, remaining); }
    filesTruncated := filesTruncated || |entries| > MAX_LOG_FILES;
    return Ok(Logs(files, filesTruncated)), failed;
  }

  /** members is missing if the archive itself cannot be opened. */
  method RunLogs(archiveSize: nat, members: Option<seq<Entry>>) returns (result: Result<Logs, LogError>)
    ensures archiveSize > MAX_ARCHIVE_BYTES <==> result == Err(ArchiveTooLarge)
    ensures result == Err(OversizedFile) <==>
            archiveSize <= MAX_ARCHIVE_BYTES && members.Some? && FailsFor(Files(members.value), true)
    ensures result == Err(InvalidArchive) <==>
            archiveSize <= MAX_ARCHIVE_BYTES && (members.None? || FailsFor(Files(members.value), false))
    ensures result.Ok? ==>
            members.Some? &&
            var entries, files := Files(members.value), result.value.files;
            IsExcerpt(entries, files) && Complete(entries, files) && Returned(files) <= MAX_LOG_BYTES &&
            (result.value.filesTruncated <==> |files| < |entries| || SomeCut(files))
  {
    if archiveSize > MAX_ARCHIVE_BYTES { return Err(ArchiveTooLarge); }
    if members.None? { return Err(InvalidArchive); }
    var entries := Files(members.value);
    ghost var failed;
    result, failed := Collect(entries);
    if result.Ok? {
      ReturnedTotal(entries, result.value.files);
    } else {
      FailsForOneReason(entries, failed, true);
      FailsForOneReason(entries, failed, false);
    }
  }
}
