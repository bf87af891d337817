/** Reading the job's output objects back: the local path `download`
    gives each object, the job / timestamp / file split of `outputs
    --files`, and the job names `outputs` lists. Object names are those
    the bucket listing returns; the listing itself, sizes and times are
    not part of this model. */
module Outputs {
  import opened Strings
  import opened PyValue
  import JobRun

  /** The folder every job output lives under. */
  const Root := "outputs/"

  /** `f"outputs/{job_name}/"`, the prefix `download` and `outputs JOB` list. */
  function JobPrefix(jobName: string): string {
    Root + jobName + "/"
  }

  /** Lines 538-542 (and 597-600): folders are skipped, and every
      occurrence of the job's prefix is removed from an object's name. */
  function DownloadTarget(name: string, jobName: string): (r: Option<string>)
    ensures r.None? <==> EndsWith(name, "/")
    ensures r.Some? && IsPrefix(JobPrefix(jobName), name) && !Contains(name[|JobPrefix(jobName)|..], JobPrefix(jobName)) ==>
      r.value == name[|JobPrefix(jobName)|..]
  {
    if EndsWith(name, "/") then None
    else
      RemovePrefixOnce(name, JobPrefix(jobName));
      Some(ReplaceAll(name, JobPrefix(jobName), ""))
  }

  /** Removing a prefix that does not recur leaves the rest of the name. */
  lemma RemovePrefixOnce(name: string, prefix: string)
    requires prefix != []
    ensures IsPrefix(prefix, name) && !Contains(name[|prefix|..], prefix) ==>
      ReplaceAll(name, prefix, "") == name[|prefix|..]
  {
    if IsPrefix(prefix, name) && !Contains(name[|prefix|..], prefix) {
      assert name == prefix + name[|prefix|..];
      ReplaceLeading(prefix, name[|prefix|..], "");
      ReplaceAbsent(name[|prefix|..], prefix, "");
    }
  }

  /** The name of the object the job stores one output file under. */
  function UploadedName(jobName: string, timestamp: string, file: string): string {
    JobRun.ObjectPath(JobRun.OutputPrefix(jobName, timestamp), file)
  }

  lemma UploadedNameParts(jobName: string, timestamp: string, file: string)
    ensures UploadedName(jobName, timestamp, file) == JobPrefix(jobName) + (timestamp + "/" + file)
    ensures UploadedName(jobName, timestamp, file) == Root + (jobName + "/" + timestamp + "/" + file)
  {
  }

  /** An output the job uploaded is downloaded to `<timestamp>/<file>`
      under the chosen directory, for the run name it was submitted with. */
  lemma DownloadOfJobOutput(jobName: string, timestamp: string, file: string)
    requires file != [] && file[|file| - 1] != '/'
    requires !Contains(timestamp + "/" + file, JobPrefix(jobName))
    ensures DownloadTarget(UploadedName(jobName, timestamp, file), jobName) == Some(timestamp + "/" + file)
  {
    var name := UploadedName(jobName, timestamp, file);
    var p := JobPrefix(jobName);
    var rest := timestamp + "/" + file;
    UploadedNameParts(jobName, timestamp, file);
    assert name[..|p|] == p && name[|p|..] == rest;
    assert name[|name| - 1] == file[|file| - 1];
    RemovePrefixOnce(name, p);
  }

  /** One row of `outputs --files`. */
  datatype FileRow = FileRow(job: string, timestamp: string, file: string)

  /** The split of lines 635-641 applied to what is left of the name. */
  function SplitRest(rest: string): (r: Option<FileRow>)
    ensures r.None? <==> CountChar(rest, '/') < 2
    ensures r.Some? ==> r.value.job + "/" + r.value.timestamp + "/" + r.value.file == rest
    ensures r.Some? ==> '/' !in r.value.job && '/' !in r.value.timestamp
  {
    var parts := Split(rest, '/');
    SplitCount(rest, '/');
    if |parts| >= 3 then
      JoinSplit(rest, '/');
      JoinFirstTwo(parts, "/");
      SplitPartsFree(rest, '/');
      Some(FileRow(parts[0], parts[1], Join(parts[2..], "/")))
    else None
  }

  /** Lines 632-641 as written: every "outputs/" in the name is removed
      before it is split. */
  function ParseListedAsWritten(name: string): (r: Option<FileRow>)
    ensures r.None? <==> EndsWith(name, "/") || CountChar(ReplaceAll(name, Root, ""), '/') < 2
    ensures r.Some? ==> r.value.job + "/" + r.value.timestamp + "/" + r.value.file == ReplaceAll(name, Root, "")
    ensures r.Some? ==> '/' !in r.value.job && '/' !in r.value.timestamp
  {
    if EndsWith(name, "/") then None else SplitRest(ReplaceAll(name, Root, ""))
  }

  /** Lines 632-641 with only the leading "outputs/" removed. */
  function ParseListed(name: string): (r: Option<FileRow>)
    ensures r.None? <==> EndsWith(name, "/") || CountChar(StripPrefix(name, Root), '/') < 2
    ensures r.Some? ==> r.value.job + "/" + r.value.timestamp + "/" + r.value.file == StripPrefix(name, Root)
    ensures r.Some? ==> '/' !in r.value.job && '/' !in r.value.timestamp
  {
    if EndsWith(name, "/") then None else SplitRest(StripPrefix(name, Root))
  }

  lemma {:induction false} CountCharNone(s: string, c: char)
    requires c !in s
    ensures CountChar(s, c) == 0
    decreases |s|
  {
    if s != [] {
      CountCharNone(s[1..], c);
    }
  }

  /** A job name and a timestamp without "/" are the first two parts of
      the split. */
  lemma SplitJobTimestamp(jobName: string, timestamp: string, file: string)
    requires '/' !in jobName && '/' !in timestamp
    ensures Split(jobName + "/" + timestamp + "/" + file, '/') == [jobName, timestamp] + Split(file, '/')
  {
    assert timestamp + "/" + file == timestamp + ['/'] + file;
    SplitPrefix(timestamp, file, '/');
    assert jobName + "/" + timestamp + "/" + file == jobName + ['/'] + (timestamp + "/" + file);
    SplitPrefix(jobName, timestamp + "/" + file, '/');
  }

  lemma SplitRestOfUpload(jobName: string, timestamp: string, file: string)
    requires '/' !in jobName && '/' !in timestamp
    ensures SplitRest(jobName + "/" + timestamp + "/" + file) == Some(FileRow(jobName, timestamp, file))
  {
    var parts := Split(jobName + "/" + timestamp + "/" + file, '/');
    SplitJobTimestamp(jobName, timestamp, file);
    assert parts[0] == jobName && parts[1] == timestamp && parts[2..] == Split(file, '/');
    JoinSplit(file, '/');
  }

  /** Every file the job uploaded is listed under its own job, timestamp
      and file name. */
  lemma ParseListedJobOutput(jobName: string, timestamp: string, file: string)
    requires '/' !in jobName && '/' !in timestamp
    requires file != [] && file[|file| - 1] != '/'
    ensures ParseListed(UploadedName(jobName, timestamp, file)) ==
      Some(FileRow(jobName, timestamp, file))
  {
    var name := UploadedName(jobName, timestamp, file);
    var rest := jobName + "/" + timestamp + "/" + file;
    UploadedNameParts(jobName, timestamp, file);
    assert name[..|Root|] == Root && name[|Root|..] == rest;
    assert StripPrefix(name, Root) == rest;
    assert name[|name| - 1] == file[|file| - 1];
    assert !EndsWith(name, "/");
    SplitRestOfUpload(jobName, timestamp, file);
  }

  /** `replace` copies a first character that cannot start the pattern. */
  lemma ReplaceSkip(s: string, pat: string, rep: string)
    requires pat != [] && s != [] && s[0] != pat[0]
    ensures ReplaceAll(s, pat, rep) == [s[0]] + ReplaceAll(s[1..], pat, rep)
  {
    assert !IsPrefix(pat, s) by {
      if |pat| <= |s| {
        assert s[..|pat|][0] == s[0];
      }
    }
  }

  /** Deleting every "outputs/" from a name starting "myoutputs/" leaves
      "my" in front of what follows. */
  lemma DeleteInMyOutputs(rest: string)
    ensures ReplaceAll("myoutputs/" + rest, Root, "") == "my" + ReplaceAll(rest, Root, "")
  {
    var s := "myoutputs/" + rest;
    var t := Root + rest;
    assert s == ['m'] + (['y'] + t);
    ReplaceSkip(s, Root, "");
    assert s[1..] == ['y'] + t;
    ReplaceSkip(s[1..], Root, "");
    assert s[1..][1..] == t;
    ReplaceLeading(Root, rest, "");
    assert "my" == ['m'] + ['y'];
  }

  /** What is left of a name after the deletion has at most one slash when
      the name is "outputs/myoutputs/<timestamp>/<file>". */
  lemma MyOutputsOneSlash(timestamp: string, file: string)
    requires '/' !in timestamp && '/' !in file
    ensures CountChar(ReplaceAll(Root + ("myoutputs/" + (timestamp + "/" + file)), Root, ""), '/') <= 1
  {
    var rest := timestamp + "/" + file;
    ReplaceLeading(Root, "myoutputs/" + rest, "");
    DeleteInMyOutputs(rest);
    assert ReplaceAll(Root + ("myoutputs/" + rest), Root, "") == "my" + ReplaceAll(rest, Root, "");
    DeleteAllCount(rest, Root, '/');
    CountCharNone(timestamp, '/');
    CountCharNone(file, '/');
    assert rest == timestamp + ("/" + file);
    CountCharAppend(timestamp, "/" + file, '/');
    CountCharAppend("/", file, '/');
    assert CountChar("/", '/') == 1 by {
      assert "/"[1..] == [];
    }
    assert CountChar(rest, '/') == 1;
    CountCharAppend("my", ReplaceAll(rest, Root, ""), '/');
    CountCharNone("my", '/');
  }

  /** Removing every "outputs/" removes the one a job name ending in
      "outputs" forms with the slash after it: the job "myoutputs" loses
      all its files from the listing, which shows them when only the
      leading "outputs/" is removed. */
  lemma AsWrittenDropsFiles(timestamp: string, file: string)
    requires '/' !in timestamp && '/' !in file && file != []
    ensures ParseListedAsWritten("outputs/myoutputs/" + timestamp + "/" + file) == None
    ensures ParseListed("outputs/myoutputs/" + timestamp + "/" + file) == Some(FileRow("myoutputs", timestamp, file))
  {
    var name := "outputs/myoutputs/" + timestamp + "/" + file;
    UploadedNameParts("myoutputs", timestamp, file);
    assert UploadedName("myoutputs", timestamp, file) == name;
    ParseListedJobOutput("myoutputs", timestamp, file);
    MyOutputsOneSlash(timestamp, file);
    assert name == Root + ("myoutputs/" + (timestamp + "/" + file));
    var left := ReplaceAll(name, Root, "");
    assert CountChar(left, '/') <= 1;
    assert SplitRest(left) == None;
  }

  /** How "outputs/" is taken off a listed name: as lines 656 and 661 do,
      every occurrence (`replace`), or only the leading one
      (`removeprefix`). */
  datatype Removal = EveryOccurrence | LeadingOnly

  function Unrooted(name: string, how: Removal): string {
    match how
    case EveryOccurrence => ReplaceAll(name, Root, "")
    case LeadingOnly => StripPrefix(name, Root)
  }

  /** The job a blob found directly under "outputs/" belongs to (line 656). */
  function BlobFolder(name: string, how: Removal): string {
    Split(Unrooted(name, how), '/')[0]
  }

  /** The job a sub-folder of "outputs/" names (line 661). */
  function PrefixFolder(prefix: string, how: Removal): string {
    RStrip(Unrooted(prefix, how), '/')
  }

  /** Line 661 as written. */
  function PrefixFolderAsWritten(prefix: string): string {
    PrefixFolder(prefix, EveryOccurrence)
  }

  /** Line 661 with only the leading "outputs/" removed. */
  function PrefixFolderCorrected(prefix: string): string {
    PrefixFolder(prefix, LeadingOnly)
  }

  /** The folder the bucket listing reports for a job is listed under the
      job's own name once only the leading "outputs/" is removed. */
  lemma PrefixFolderOfJob(jobName: string)
    requires jobName != [] && jobName[|jobName| - 1] != '/'
    ensures PrefixFolderCorrected(JobPrefix(jobName)) == jobName
  {
    var p := JobPrefix(jobName);
    assert p == Root + (jobName + "/");
    assert StripPrefix(p, Root) == jobName + "/";
    assert (jobName + "/")[..|jobName|] == jobName;
  }

  /** As written, the folder of the job "myoutputs" is listed as "my". */
  lemma AsWrittenRenamesFolder()
    ensures PrefixFolderAsWritten("outputs/myoutputs/") == "my"
    ensures PrefixFolderCorrected("outputs/myoutputs/") == "myoutputs"
  {
    var s: string := "myoutputs/";
    assert "outputs/myoutputs/" == Root + s;
    ReplaceLeading(Root, s, "");
    assert s == "myoutputs/" + [];
    DeleteInMyOutputs([]);
    assert ReplaceAll("outputs/myoutputs/", Root, "") == "my";
    assert "my"[1] != '/';
    assert RStrip("my", '/') == "my";
    PrefixFolderOfJob("myoutputs");
  }

  /** The folder name of each blob, and of each prefix, in listing order. */
  function BlobFolderNames(blobs: seq<string>, how: Removal): (r: seq<string>)
    ensures |r| == |blobs| && forall k :: 0 <= k < |blobs| ==> r[k] == BlobFolder(blobs[k], how)
  {
    seq(|blobs|, k requires 0 <= k < |blobs| => BlobFolder(blobs[k], how))
  }

  function PrefixFolderNames(prefixes: seq<string>, how: Removal): (r: seq<string>)
    ensures |r| == |prefixes| && forall k :: 0 <= k < |prefixes| ==> r[k] == PrefixFolder(prefixes[k], how)
  {
    seq(|prefixes|, k requires 0 <= k < |prefixes| => PrefixFolder(prefixes[k], how))
  }

  /** What `if name: job_folders.add(name)` gathers from the names in turn. */
  function Gathered(names: seq<string>): set<string>
    decreases |names|
  {
    if names == [] then {}
    else
      var last := names[|names| - 1];
      Gathered(names[..|names| - 1]) + (if last != [] then {last} else {})
  }

  /** A name is gathered exactly when it is non-empty and occurs. */
  lemma {:induction false} GatheredSpec(names: seq<string>)
    ensures forall x :: x in Gathered(names) <==> x != [] && x in names
    decreases |names|
  {
    if names != [] {
      var init := names[..|names| - 1];
      GatheredSpec(init);
      assert names == init + [names[|names| - 1]];
    }
  }

  lemma GatheredLast(names: seq<string>, name: string)
    ensures Gathered(names + [name]) == Gathered(names) + (if name != [] then {name} else {})
  {
    assert (names + [name])[..|names|] == names;
  }

  /** One more name of a listing adds it when it is non-empty. */
  lemma GatheredStep(names: seq<string>, i: nat)
    requires i < |names|
    ensures Gathered(names[..i + 1]) == Gathered(names[..i]) + (if names[i] != [] then {names[i]} else {})
  {
    assert names[..i + 1] == names[..i] + [names[i]];
    GatheredLast(names[..i], names[i]);
  }

  /** Lines 654-663 as written: the job names gathered into a set in two
      loops, each name with every "outputs/" removed. */
  method JobFolders(blobs: seq<string>, prefixes: seq<string>) returns (folders: set<string>)
    ensures folders == Gathered(BlobFolderNames(blobs, EveryOccurrence)) + Gathered(PrefixFolderNames(prefixes, EveryOccurrence))
    ensures forall x :: x in folders <==>
      x != [] && (x in BlobFolderNames(blobs, EveryOccurrence) || x in PrefixFolderNames(prefixes, EveryOccurrence))
  {
    ghost var blobNames := BlobFolderNames(blobs, EveryOccurrence);
    folders := {};
    var i := 0;
    while i < |blobs|
      invariant 0 <= i <= |blobs|
      invariant folders == Gathered(blobNames[..i])
    {
      var folder := BlobFolder(blobs[i], EveryOccurrence);
      if folder != [] {
        folders := folders + {folder};
      }
      GatheredStep(blobNames, i);
      i := i + 1;
    }
    assert blobNames[..i] == blobNames;
    ghost var prefixNames := PrefixFolderNames(prefixes, EveryOccurrence);
    ghost var fromBlobs := folders;
    var j := 0;
    while j < |prefixes|
      invariant 0 <= j <= |prefixes|
      invariant folders == fromBlobs + Gathered(prefixNames[..j])
    {
      var jn := PrefixFolderAsWritten(prefixes[j]);
      if jn != [] {
        folders := folders + {jn};
      }
      GatheredStep(prefixNames, j);
      j := j + 1;
    }
    assert prefixNames[..j] == prefixNames;
    GatheredSpec(blobNames);
    GatheredSpec(prefixNames);
  }

  /** Every job folder among the prefixes yields the job's name once only
      the leading "outputs/" is removed. */
  lemma PrefixFoldersListJobs(prefixes: seq<string>)
    ensures forall jobName :: JobPrefix(jobName) in prefixes && jobName != [] && jobName[|jobName| - 1] != '/' ==>
      jobName in PrefixFolderNames(prefixes, LeadingOnly)
  {
    var names := PrefixFolderNames(prefixes, LeadingOnly);
    forall jobName | JobPrefix(jobName) in prefixes && jobName != [] && jobName[|jobName| - 1] != '/'
      ensures jobName in names
    {
      PrefixFolderOfJob(jobName);
      var k :| 0 <= k < |prefixes| && prefixes[k] == JobPrefix(jobName);
      assert names[k] == jobName;
    }
  }

  /** The job names lines 654-663 were meant to gather, with only the
      leading "outputs/" removed: every folder the listing reports for a
      job is shown under that job's name, and nothing but the non-empty
      names the blobs and folders yield is. */
  function CorrectedJobFolders(blobs: seq<string>, prefixes: seq<string>): (r: set<string>)
    ensures forall jobName :: JobPrefix(jobName) in prefixes && jobName != [] && jobName[|jobName| - 1] != '/' ==> jobName in r
    ensures forall x :: x in r <==>
      x != [] && (x in BlobFolderNames(blobs, LeadingOnly) || x in PrefixFolderNames(prefixes, LeadingOnly))
  {
    var blobNames := BlobFolderNames(blobs, LeadingOnly);
    var prefixNames := PrefixFolderNames(prefixes, LeadingOnly);
    GatheredSpec(blobNames);
    GatheredSpec(prefixNames);
    PrefixFoldersListJobs(prefixes);
    Gathered(blobNames) + Gathered(prefixNames)
  }

  /** The listing of the single folder "outputs/myoutputs/" gathers "my"
      as written, and "myoutputs" once corrected. */
  lemma AsWrittenMissesJob()
    ensures Gathered(BlobFolderNames([], EveryOccurrence)) + Gathered(PrefixFolderNames(["outputs/myoutputs/"], EveryOccurrence)) == {"my"}
    ensures CorrectedJobFolders([], ["outputs/myoutputs/"]) == {"myoutputs"}
  {
    AsWrittenRenamesFolder();
    var ps: seq<string> := ["outputs/myoutputs/"];
    assert BlobFolderNames([], EveryOccurrence) == [] && BlobFolderNames([], LeadingOnly) == [];
    assert PrefixFolderNames(ps, EveryOccurrence) == ["my"];
    assert PrefixFolderNames(ps, LeadingOnly) == ["myoutputs"];
    GatheredLast([], "my");
    GatheredLast([], "myoutputs");
    assert [] + ["my"] == ["my"] && [] + ["myoutputs"] == ["myoutputs"];
  }
}
