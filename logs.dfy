/**
 * The log library: appending to, listing, compressing, decompressing and
 * truncating the files of the logs directory. The directory is a map from file
 * name to contents; gzip and base64 are functions passed in, and I/O failures
 * are fault flags.
 */
module Logs {
  import opened Wrappers
  import opened Text

  const LogSuffix: string := ".log"
  const ArchiveSuffix: string := ".gz.b64"

  // Listing

  /**
   * The names one directory entry adds to the list, in the order they are
   * pushed: one per suffix it contains, the `.log` name first.
   */
  function Contribution(fileName: string, includeCompressedLogs: bool): (r: seq<string>)
    ensures |r| == (if Contains(fileName, LogSuffix) then 1 else 0)
      + (if includeCompressedLogs && Contains(fileName, ArchiveSuffix) then 1 else 0)
    ensures |r| <= (if includeCompressedLogs then 2 else 1)
    ensures Contains(fileName, LogSuffix) ==> r[0] == RemoveFirst(fileName, LogSuffix)
    ensures includeCompressedLogs && Contains(fileName, ArchiveSuffix) ==> r[|r| - 1] == RemoveFirst(fileName, ArchiveSuffix)
    ensures Contains(fileName, LogSuffix) ==> RemoveFirst(fileName, LogSuffix) in r
    ensures includeCompressedLogs && Contains(fileName, ArchiveSuffix) ==> RemoveFirst(fileName, ArchiveSuffix) in r
    ensures forall name :: name in r ==>
      || (Contains(fileName, LogSuffix) && name == RemoveFirst(fileName, LogSuffix))
      || (includeCompressedLogs && Contains(fileName, ArchiveSuffix) && name == RemoveFirst(fileName, ArchiveSuffix))
  {
    (if Contains(fileName, LogSuffix) then [RemoveFirst(fileName, LogSuffix)] else [])
    + (if includeCompressedLogs && Contains(fileName, ArchiveSuffix) then [RemoveFirst(fileName, ArchiveSuffix)] else [])
  }

  /** `Contribution` as the function `forEach` applies to each entry. */
  function Contributions(includeCompressedLogs: bool): string -> seq<string>
  {
    fileName => Contribution(fileName, includeCompressedLogs)
  }

  // What a `forEach` that pushes each entry's names builds, whatever those names are

  /** The names of each entry, one entry after another in listing order. */
  function Collect(entries: seq<string>, names: string -> seq<string>): seq<string>
  {
    if entries == [] then [] else names(entries[0]) + Collect(entries[1..], names)
  }

  /** Collecting a concatenation collects each part in turn. */
  lemma {:induction false} CollectConcat(a: seq<string>, b: seq<string>, names: string -> seq<string>)
    ensures Collect(a + b, names) == Collect(a, names) + Collect(b, names)
  {
    if a == [] {
      assert a + b == b;
    } else {
      assert (a + b)[0] == a[0];
      assert (a + b)[1..] == a[1..] + b;
      CollectConcat(a[1..], b, names);
    }
  }

  /** One more entry appends its names. */
  lemma CollectSnoc(entries: seq<string>, x: string, names: string -> seq<string>)
    ensures Collect(entries + [x], names) == Collect(entries, names) + names(x)
  {
    CollectConcat(entries, [x], names);
    assert [x][1..] == [];
  }

  /** Every collected name is a name of some entry. */
  lemma {:induction false} CollectedNameHasSource(entries: seq<string>, names: string -> seq<string>, name: string)
    requires name in Collect(entries, names)
    ensures exists k :: 0 <= k < |entries| && name in names(entries[k])
  {
    if name !in names(entries[0]) {
      CollectedNameHasSource(entries[1..], names, name);
      var k :| 0 <= k < |entries[1..]| && name in names(entries[1..][k]);
      assert entries[k + 1] == entries[1..][k];
    }
  }

  /** Every name of every entry is collected. */
  lemma CollectIncludes(entries: seq<string>, k: nat, names: string -> seq<string>)
    requires k < |entries|
    ensures forall name :: name in names(entries[k]) ==> name in Collect(entries, names)
  {
    var x := entries[k];
    assert entries == entries[..k] + ([x] + entries[k + 1..]);
    CollectConcat(entries[..k], [x] + entries[k + 1..], names);
    assert ([x] + entries[k + 1..])[1..] == entries[k + 1..];
  }

  /** With at most `bound` names per entry, at most `bound` times as many names as entries. */
  lemma {:induction false} CollectLength(entries: seq<string>, names: string -> seq<string>, bound: nat)
    requires forall x :: |names(x)| <= bound
    ensures |Collect(entries, names)| <= bound * |entries|
  {
    if entries != [] {
      CollectLength(entries[1..], names, bound);
      assert bound * |entries| == bound * (|entries| - 1) + bound;
    }
  }

  // The listing of `_logs.list`

  /**
   * The trimmed names of a directory listing, entry by entry in directory
   * order. Without compressed logs the list is no longer than the directory;
   * with them, at most twice as long.
   */
  function TrimmedNames(entries: seq<string>, includeCompressedLogs: bool): (r: seq<string>)
    ensures !includeCompressedLogs ==> |r| <= |entries|
    ensures includeCompressedLogs ==> |r| <= 2 * |entries|
  {
    CollectLength(entries, Contributions(includeCompressedLogs), if includeCompressedLogs then 2 else 1);
    Collect(entries, Contributions(includeCompressedLogs))
  }

  /** One more entry appends its contribution to the list. */
  lemma TrimmedNamesSnoc(entries: seq<string>, x: string, includeCompressedLogs: bool)
    ensures TrimmedNames(entries + [x], includeCompressedLogs)
      == TrimmedNames(entries, includeCompressedLogs) + Contribution(x, includeCompressedLogs)
  {
    CollectSnoc(entries, x, Contributions(includeCompressedLogs));
  }

  /** Listing a concatenation lists each part in turn: the output follows directory order. */
  lemma TrimmedNamesConcat(a: seq<string>, b: seq<string>, includeCompressedLogs: bool)
    ensures TrimmedNames(a + b, includeCompressedLogs)
      == TrimmedNames(a, includeCompressedLogs) + TrimmedNames(b, includeCompressedLogs)
  {
    CollectConcat(a, b, Contributions(includeCompressedLogs));
  }

  /** Every listed name comes from some entry of the directory, by one of the two rules. */
  lemma ListedNameHasSource(entries: seq<string>, includeCompressedLogs: bool, name: string)
    requires name in TrimmedNames(entries, includeCompressedLogs)
    ensures exists k :: 0 <= k < |entries| && name in Contribution(entries[k], includeCompressedLogs)
  {
    CollectedNameHasSource(entries, Contributions(includeCompressedLogs), name);
    var k :| 0 <= k < |entries| && name in Contributions(includeCompressedLogs)(entries[k]);
    assert name in Contribution(entries[k], includeCompressedLogs);
  }

  /** Every name an entry contributes appears in the list of the directory. */
  lemma ContributionListed(entries: seq<string>, k: nat, includeCompressedLogs: bool)
    requires k < |entries|
    ensures forall name :: name in Contribution(entries[k], includeCompressedLogs) ==>
      name in TrimmedNames(entries, includeCompressedLogs)
  {
    CollectIncludes(entries, k, Contributions(includeCompressedLogs));
  }

  /** Every entry containing `.log` is listed with its first `.log` removed. */
  lemma LogEntryListed(entries: seq<string>, k: nat, includeCompressedLogs: bool)
    requires k < |entries| && Contains(entries[k], LogSuffix)
    ensures RemoveFirst(entries[k], LogSuffix) in TrimmedNames(entries, includeCompressedLogs)
  {
    ContributionListed(entries, k, includeCompressedLogs);
  }

  /** An entry containing `.gz.b64` is listed without it when compressed logs are asked for. */
  lemma ArchiveEntryListed(entries: seq<string>, k: nat)
    requires k < |entries| && Contains(entries[k], ArchiveSuffix)
    ensures RemoveFirst(entries[k], ArchiveSuffix) in TrimmedNames(entries, true)
  {
    ContributionListed(entries, k, true);
  }

  /** What `fs.readdir` hands to its callback. */
  datatype Readdir = ReaddirFailed(error: string) | Entries(names: seq<string>)

  /** The `(err, data)` pair `_logs.list` calls back with; `None` stands for `false`, `null` or `undefined`. */
  datatype ListReply = ListReply(err: Option<string>, data: Option<seq<string>>)

  /**
   * The callback `forEach` runs on one file name: push the name without `.log`
   * if it contains `.log`, then, when compressed logs are asked for, the name
   * without `.gz.b64` if it contains `.gz.b64`.
   */
  method PushFileName(trimmedFileNames: seq<string>, fileName: string, includeCompressedLogs: bool)
    returns (pushed: seq<string>)
    ensures pushed == trimmedFileNames + Contribution(fileName, includeCompressedLogs)
  {
    pushed := trimmedFileNames;
    if Contains(fileName, LogSuffix) {
      pushed := pushed + [RemoveFirst(fileName, LogSuffix)];
    }
    if includeCompressedLogs && Contains(fileName, ArchiveSuffix) {
      pushed := pushed + [RemoveFirst(fileName, ArchiveSuffix)];
    }
  }

  /** The `forEach` of `_logs.list` over a listing, in order. */
  method TrimFileNames(data: seq<string>, includeCompressedLogs: bool) returns (trimmedFileNames: seq<string>)
    ensures trimmedFileNames == TrimmedNames(data, includeCompressedLogs)
  {
    trimmedFileNames := [];
    var i := 0;
    while i < |data|
      invariant 0 <= i <= |data|
      invariant trimmedFileNames == TrimmedNames(data[..i], includeCompressedLogs)
    {
      trimmedFileNames := PushFileName(trimmedFileNames, data[i], includeCompressedLogs);
      assert data[..i + 1] == data[..i] + [data[i]];
      TrimmedNamesSnoc(data[..i], data[i], includeCompressedLogs);
      i := i + 1;
    }
    assert data[..i] == data;
  }

  /**
   * `_logs.list`: trims the names of a non-empty listing; a failed or empty
   * listing is passed on as it came.
   */
  method List(includeCompressedLogs: bool, readdir: Readdir) returns (reply: ListReply)
    ensures readdir.ReaddirFailed? ==> reply == ListReply(Some(readdir.error), None)
    ensures readdir == Entries([]) ==> reply == ListReply(None, Some([]))
    ensures readdir.Entries? && readdir.names != [] ==>
      reply == ListReply(None, Some(TrimmedNames(readdir.names, includeCompressedLogs)))
  {
    if readdir.ReaddirFailed? {
      return ListReply(Some(readdir.error), None);
    }
    var data := readdir.names;
    if data == [] {
      return ListReply(None, Some(data));
    }
    var trimmedFileNames := TrimFileNames(data, includeCompressedLogs);
    return ListReply(None, Some(trimmedFileNames));
  }

  // The log files

  /** Which steps of a multi-step file operation fail. */
  datatype Faults = Faults(read: bool, codec: bool, open: bool, write: bool, close: bool)

  const NoFaults: Faults := Faults(false, false, false, false, false)

  /** The contents of `name`, with an absent file read as empty. */
  function ContentsOf(files: map<string, string>, name: string): string
  {
    if name in files then files[name] else ""
  }

  class LogDir {
    /** The files of the logs directory, by name. */
    var files: map<string, string>

    constructor ()
      ensures files == map[]
    {
      files := map[];
    }

    /**
     * `_logs.append`: opens `file.log` for appending (creating it when absent)
     * and appends `str` and a newline.
     */
    method Append(file: string, str: string, faults: Faults) returns (err: Option<string>)
      modifies this
      ensures var name := file + LogSuffix;
        && (faults.open ==> err == Some("Could not open file for appending") && files == old(files))
        && (!faults.open && faults.write ==>
              err == Some("Error appending to file") && files == old(files)[name := ContentsOf(old(files), name)])
        && (!faults.open && !faults.write ==>
              && files == old(files)[name := ContentsOf(old(files), name) + str + "\n"]
              && err == (if faults.close then Some("Error closing file that was being appended") else None))
    {
      var name := file + LogSuffix;
      if faults.open {
        return Some("Could not open file for appending");
      }
      var previous := if name in files then files[name] else "";
      files := files[name := previous];
      if faults.write {
        return Some("Error appending to file");
      }
      files := files[name := previous + str + "\n"];
      if faults.close {
        return Some("Error closing file that was being appended");
      }
      return None;
    }

    /** `_logs.truncate`: empties an existing `logId.log`. */
    method Truncate(logId: string, ioError: bool) returns (err: Option<string>)
      modifies this
      ensures var name := logId + LogSuffix;
        && (err.None? <==> name in old(files) && !ioError)
        && (err.None? ==> files == old(files)[name := ""])
        && (err.Some? ==> err == Some("Error truncating file") && files == old(files))
    {
      var name := logId + LogSuffix;
      if name !in files || ioError {
        return Some("Error truncating file");
      }
      files := files[name := ""];
      return None;
    }

    /**
     * `_logs.compress`: writes the gzip-then-base64 encoding (`pack`) of a
     * non-empty `logId.log` into `newFileId.gz.b64`, which must not exist yet
     * (`'wx'`). Nothing but that destination is ever written.
     */
    method Compress(logId: string, newFileId: string, pack: string -> string, faults: Faults) returns (err: Option<string>)
      modifies this
      ensures var source := logId + LogSuffix;
        var dest := newFileId + ArchiveSuffix;
        var readOk := source in old(files) && !faults.read && old(files)[source] != "";
        var openOk := readOk && !faults.codec && dest !in old(files) && !faults.open;
        && (!readOk ==> err == Some("Error reading source file") && files == old(files))
        && (readOk && faults.codec ==> err == Some("Error compressing file contents") && files == old(files))
        && (readOk && !faults.codec && !openOk ==>
              err == Some("Could not open the new file for writing") && files == old(files))
        && (openOk && faults.write ==>
              err == Some("Error writing to the new compressed file") && files == old(files)[dest := ""])
        && (openOk && !faults.write ==>
              && files == old(files)[dest := pack(old(files)[source])]
              && err == (if faults.close then Some("Error closing the new compressed file") else None))
      ensures var source := logId + LogSuffix;
        var dest := newFileId + ArchiveSuffix;
        && (dest in old(files) ==> err.Some? && files == old(files))
        && (err.None? <==>
              source in old(files) && old(files)[source] != "" && dest !in old(files) && faults == NoFaults)
        && (files == old(files)
            || files == old(files)[dest := ""]
            || files == old(files)[dest := pack(old(files)[source])])
        && (err.None? ==> files == old(files)[dest := pack(old(files)[source])])
    {
      var source := logId + LogSuffix;
      var dest := newFileId + ArchiveSuffix;
      if source !in files || faults.read || files[source] == "" {
        return Some("Error reading source file");
      }
      var inputString := files[source];
      if faults.codec {
        return Some("Error compressing file contents");
      }
      if dest in files || faults.open {
        return Some("Could not open the new file for writing");
      }
      files := files[dest := ""];
      if faults.write {
        return Some("Error writing to the new compressed file");
      }
      files := files[dest := pack(inputString)];
      if faults.close {
        return Some("Error closing the new compressed file");
      }
      return None;
    }

    /**
     * `_logs.decompress`: decodes a non-empty `fileId.gz.b64` with `unpack`
     * (base64, then gunzip), which fails on text it cannot decode.
     */
    method Decompress(fileId: string, unpack: string -> Option<string>, faults: Faults) returns (r: Result<string, string>)
      ensures var name := fileId + ArchiveSuffix;
        && (name !in files || faults.read || files[name] == "" ==> r == Failure("Error reading the compressed file"))
        && (r.Success? <==>
              name in files && !faults.read && files[name] != "" && !faults.codec && unpack(files[name]).Some?)
        && (r.Success? ==> r.value == unpack(files[name]).value)
        && (r.Failure? && name in files && !faults.read && files[name] != "" ==> r == Failure("Error decompressing file"))
    {
      var name := fileId + ArchiveSuffix;
      if name !in files || faults.read || files[name] == "" {
        return Failure("Error reading the compressed file");
      }
      var decoded := unpack(files[name]);
      if faults.codec || decoded.None? {
        return Failure("Error decompressing file");
      }
      return Success(decoded.value);
    }
  }
}
