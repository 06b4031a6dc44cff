/** `process_path`: one RAW file, or every supported RAW file of a directory,
    through the single-image pipeline. The file system enters as two
    parameters: `isDir` answers `os.path.isdir` and `listing` is what
    `os.listdir` returns for the input directory. The process pool is a
    sequential loop over the discovered files, in discovery order. */
module Orchestrator {
  import opened Wrappers
  import opened Paths
  import Pipeline

  /** The RAW extensions looked for, in the order they are searched. */
  const SupportedRawExtensions: seq<string> :=
    [".dng", ".cr2", ".cr3", ".nef", ".arw", ".rw2", ".raf", ".orf", ".pef", ".srw"]

  /** `name.lower().endswith(ext)`. */
  predicate HasExtension(name: string, ext: string)
  {
    EndsWith(Lower(name), ext)
  }

  /** A name ends with one of `exts`, ignoring ASCII case. */
  predicate Supported(name: string, exts: seq<string>)
  {
    exists i :: 0 <= i < |exts| && HasExtension(name, exts[i])
  }

  predicate Distinct(s: seq<string>)
  {
    forall i, j :: 0 <= i < j < |s| ==> s[i] != s[j]
  }

  /** `[f for f in listing if f.lower().endswith(ext)]`: the matching names
      in listing order. */
  function Select(listing: seq<string>, ext: string): (r: seq<string>)
    ensures |r| <= |listing|
    ensures forall x :: x in r <==> x in listing && HasExtension(x, ext)
  {
    if |listing| == 0 then []
    else
      assert listing == [listing[0]] + listing[1..];
      (if HasExtension(listing[0], ext) then [listing[0]] else []) + Select(listing[1..], ext)
  }

  /** The discovered files: for each extension in turn, the names with that
      extension. */
  function Discover(listing: seq<string>, exts: seq<string>): seq<string>
    decreases |exts|
  {
    if |exts| == 0 then []
    else Discover(listing, exts[..|exts| - 1]) + Select(listing, exts[|exts| - 1])
  }

  /** The discovery loop of the batch branch. */
  method DiscoverRawFiles(listing: seq<string>) returns (rawFiles: seq<string>)
    ensures rawFiles == Discover(listing, SupportedRawExtensions)
  {
    rawFiles := [];
    for i := 0 to |SupportedRawExtensions|
      invariant rawFiles == Discover(listing, SupportedRawExtensions[..i])
    {
      assert SupportedRawExtensions[..i + 1][..i] == SupportedRawExtensions[..i];
      rawFiles := rawFiles + Select(listing, SupportedRawExtensions[i]);
    }
    assert SupportedRawExtensions[..|SupportedRawExtensions|] == SupportedRawExtensions;
  }

  /** A name is discovered exactly when it is listed and has one of the
      extensions, in any letter case. */
  lemma {:induction false} DiscoverMembership(listing: seq<string>, exts: seq<string>, x: string)
    ensures x in Discover(listing, exts) <==> x in listing && Supported(x, exts)
    decreases |exts|
  {
    if |exts| > 0 {
      var init := exts[..|exts| - 1];
      DiscoverMembership(listing, init, x);
      if Supported(x, exts) && !HasExtension(x, exts[|exts| - 1]) {
        var i :| 0 <= i < |exts| && HasExtension(x, exts[i]);
        assert init[i] == exts[i];
      }
      if Supported(x, init) {
        var i :| 0 <= i < |init| && HasExtension(x, init[i]);
        assert exts[i] == init[i];
      }
    }
  }

  /** Filtering keeps listing order: it distributes over concatenation. */
  lemma {:induction false} SelectKeepsListingOrder(front: seq<string>, back: seq<string>, ext: string)
    ensures Select(front + back, ext) == Select(front, ext) + Select(back, ext)
    decreases |front|
  {
    if |front| > 0 {
      SelectKeepsListingOrder(front[1..], back, ext);
      assert (front + back)[1..] == front[1..] + back;
      assert (front + back)[0] == front[0];
    } else {
      assert front + back == back;
    }
  }

  /** The files found for the first `m` extensions come first: the result is
      grouped by extension, in the order of the extension list. */
  lemma {:induction false} DiscoverGroupsByExtension(listing: seq<string>, exts: seq<string>, m: nat)
    requires m <= |exts|
    ensures var prefix := Discover(listing, exts[..m]);
            |prefix| <= |Discover(listing, exts)| && Discover(listing, exts)[..|prefix|] == prefix
    decreases |exts|
  {
    if m < |exts| {
      var n := |exts| - 1;
      DiscoverGroupsByExtension(listing, exts[..n], m);
      assert exts[..n][..m] == exts[..m];
    } else {
      assert exts[..m] == exts;
    }
  }

  /** Two duplicate-free sequences with no element in common concatenate to a
      duplicate-free sequence. */
  lemma DistinctConcat(a: seq<string>, b: seq<string>)
    requires Distinct(a) && Distinct(b)
    requires forall x :: x in b ==> x !in a
    ensures Distinct(a + b)
  {
    var r := a + b;
    forall i, j | 0 <= i < j < |r|
      ensures r[i] != r[j]
    {
      if j < |a| {
        assert r[i] == a[i] && r[j] == a[j];
      } else if i >= |a| {
        assert r[i] == b[i - |a|] && r[j] == b[j - |a|];
      } else {
        assert r[i] == a[i] && r[j] == b[j - |a|];
        assert r[j] in b;
      }
    }
  }

  lemma {:induction false} SelectDistinct(listing: seq<string>, ext: string)
    requires Distinct(listing)
    ensures Distinct(Select(listing, ext))
    decreases |listing|
  {
    if |listing| > 0 {
      var rest := listing[1..];
      assert Distinct(rest) by {
        forall i, j | 0 <= i < j < |rest|
          ensures rest[i] != rest[j]
        {
          assert rest[i] == listing[i + 1] && rest[j] == listing[j + 1];
        }
      }
      SelectDistinct(rest, ext);
      assert listing[0] !in rest;
      var head: seq<string> := if HasExtension(listing[0], ext) then [listing[0]] else [];
      DistinctConcat(head, Select(rest, ext));
    }
  }

  /** Extensions of one length that are pairwise different never match the
      same name twice. */
  predicate ExclusiveExtensions(exts: seq<string>)
  {
    Distinct(exts) && forall i :: 0 <= i < |exts| ==> |exts[i]| == 4
  }

  /** A string ends with at most one of two different suffixes of one length. */
  lemma OtherSuffixDoesNotMatch(s: string, a: string, b: string)
    requires |a| == |b| && a != b && EndsWith(s, b)
    ensures !EndsWith(s, a)
  {
  }

  /** A name with the last extension was not found by the earlier ones. */
  lemma {:induction false} FoundByOneExtensionOnly(listing: seq<string>, exts: seq<string>, x: string)
    requires |exts| > 0 && ExclusiveExtensions(exts)
    requires HasExtension(x, exts[|exts| - 1])
    ensures x !in Discover(listing, exts[..|exts| - 1])
  {
    var n := |exts| - 1;
    var init := exts[..n];
    forall k | 0 <= k < |init|
      ensures !HasExtension(x, init[k])
    {
      assert init[k] == exts[k] && exts[k] != exts[n];
      OtherSuffixDoesNotMatch(Lower(x), init[k], exts[n]);
    }
    DiscoverMembership(listing, init, x);
  }

  lemma {:induction false} DiscoverDistinct(listing: seq<string>, exts: seq<string>)
    requires Distinct(listing) && ExclusiveExtensions(exts)
    ensures Distinct(Discover(listing, exts))
    decreases |exts|
  {
    if |exts| > 0 {
      var init := exts[..|exts| - 1];
      var last := exts[|exts| - 1];
      assert ExclusiveExtensions(init) by {
        forall i, j | 0 <= i < j < |init|
          ensures init[i] != init[j]
        {
          assert init[i] == exts[i] && init[j] == exts[j];
        }
      }
      DiscoverDistinct(listing, init);
      SelectDistinct(listing, last);
      forall x | x in Select(listing, last)
        ensures x !in Discover(listing, init)
      {
        FoundByOneExtensionOnly(listing, exts, x);
      }
      DistinctConcat(Discover(listing, init), Select(listing, last));
    }
  }

  lemma SupportedExtensionsAreExclusive()
    ensures ExclusiveExtensions(SupportedRawExtensions)
  {
  }

  /** A directory listing (which never repeats a name) yields every RAW file
      once: the extensions are searched one after another, yet no file is
      found twice. */
  lemma DiscoveryFindsEachFileOnce(listing: seq<string>)
    requires Distinct(listing)
    ensures Distinct(Discover(listing, SupportedRawExtensions))
    ensures forall x :: x in Discover(listing, SupportedRawExtensions) <==>
                        x in listing && Supported(x, SupportedRawExtensions)
  {
    SupportedExtensionsAreExclusive();
    DiscoverDistinct(listing, SupportedRawExtensions);
    forall x
      ensures x in Discover(listing, SupportedRawExtensions) <==>
              x in listing && Supported(x, SupportedRawExtensions)
    {
      DiscoverMembership(listing, SupportedRawExtensions, x);
    }
  }

  /** Discovery ignores letter case. */
  lemma MatchIgnoresCase()
    ensures Supported("IMG_0001.DNG", SupportedRawExtensions)
    ensures Supported("frame.Cr3", SupportedRawExtensions)
  {
    assert Lower("IMG_0001.DNG") == "img_0001.dng";
    assert HasExtension("IMG_0001.DNG", SupportedRawExtensions[0]);
    assert Lower("frame.Cr3") == "frame.cr3";
    assert HasExtension("frame.Cr3", SupportedRawExtensions[2]);
  }

  /** Only the listed extensions count. */
  lemma OtherFilesIgnored()
    ensures !Supported("notes.txt", SupportedRawExtensions)
  {
    assert Lower("notes.txt") == "notes.txt";
  }

  // --------------------------------------------------------------- process_path

  /** The arguments of `process_path` (the logger is left out); `jobs` is the
      worker count handed to the process pool, `None` for its default. */
  datatype Request = Request(
    inputPath: string,
    outputPath: string,
    logSpace: string,
    lutPath: Option<string>,
    exposure: Option<real>,
    lensCorrect: bool,
    customDbPath: Option<string>,
    meteringMode: string,
    jobs: Option<int>,
    outputFormat: string)

  /** The messages `process_path` itself logs. */
  datatype Event =
    | OutputNotDirectory
    | NoRawFiles
    | Found(count: nat)
    | UnitFailed(filename: string, error: Pipeline.Error)
    | BatchComplete
    | ProcessingSingle
    | SingleComplete

  /** The exceptions `process_path` lets out. */
  datatype PathError =
    | OutputMustBeDirectory
    | NoRawFilesFound
    | ImageFailed(error: Pipeline.Error)
    | InvalidWorkerCount

  /** What one call logged, the pipeline runs it started, and the exception it
      raised, if any. */
  datatype PathResult = PathResult(events: seq<Event>, runs: seq<Pipeline.RunResult>, error: Option<PathError>)

  /** `f"{os.path.splitext(name)[0]}.{output_format}"`. */
  function OutputName(name: string, format: string): string
  {
    Stem(name) + "." + format
  }

  function ImageConfig(req: Request, rawPath: string, outputPath: string): Pipeline.Config
  {
    Pipeline.Config(rawPath, outputPath, req.logSpace, req.lutPath, req.exposure, req.lensCorrect,
                    req.meteringMode, req.customDbPath)
  }

  /** The pipeline invocation for one discovered file of the batch. */
  function UnitConfig(req: Request, filename: string): Pipeline.Config
  {
    ImageConfig(req, Join(req.inputPath, filename), Join(req.outputPath, OutputName(filename, req.outputFormat)))
  }

  /** A worker count the process pool accepts: its default, or a positive number. */
  predicate ValidWorkerCount(jobs: Option<int>)
  {
    jobs.None? || jobs.value > 0
  }

  /** The output path of the single-file branch: inside the output directory
      when it is one, the output path itself otherwise. */
  function SingleOutputPath(req: Request, isDir: string -> bool): (r: string)
    ensures !isDir(req.outputPath) ==> r == req.outputPath
  {
    if isDir(req.outputPath) then Join(req.outputPath, OutputName(Basename(req.inputPath), req.outputFormat))
    else req.outputPath
  }

  /** The single-image pipeline as `process_path` sees it: one configuration
      in, one run out. */
  type Processor = Pipeline.Config -> Pipeline.RunResult

  /** The pipeline of the model under the given collaborators. */
  function PipelineOf(env: Pipeline.Env): Processor
  {
    (cfg: Pipeline.Config) => Pipeline.Run(cfg, env)
  }

  /** The pipeline invocations of the batch, one per discovered file. */
  function UnitConfigs(req: Request, files: seq<string>): (r: seq<Pipeline.Config>)
    ensures |r| == |files|
    ensures forall k :: 0 <= k < |files| ==> r[k] == UnitConfig(req, files[k])
  {
    seq(|files|, k requires 0 <= k < |files| => UnitConfig(req, files[k]))
  }

  /** The runs of the batch, one per configuration in order. */
  function RunAll(process: Processor, cfgs: seq<Pipeline.Config>): (r: seq<Pipeline.RunResult>)
    ensures |r| == |cfgs|
    decreases |cfgs|
  {
    if |cfgs| == 0 then []
    else RunAll(process, cfgs[..|cfgs| - 1]) + [process(cfgs[|cfgs| - 1])]
  }

  /** Run k of the batch is the pipeline applied to configuration k. */
  lemma {:induction false} RunAllRunsEach(process: Processor, cfgs: seq<Pipeline.Config>, k: int)
    requires 0 <= k < |cfgs|
    ensures RunAll(process, cfgs)[k] == process(cfgs[k])
    decreases |cfgs|
  {
    var n := |cfgs| - 1;
    if k < n {
      RunAllRunsEach(process, cfgs[..n], k);
      assert cfgs[..n][k] == cfgs[k];
    }
  }

  /** One message per run that raised, in run order. */
  function FailureLog(files: seq<string>, runs: seq<Pipeline.RunResult>): seq<Event>
    requires |files| == |runs|
    decreases |files|
  {
    if |files| == 0 then []
    else
      var n := |files| - 1;
      FailureLog(files[..n], runs[..n]) +
      (if runs[n].outcome.Raised? then [UnitFailed(files[n], runs[n].outcome.error)] else [])
  }

  /** One call of `process_path`, for any single-image pipeline `process`. */
  function ProcessPathSpec(req: Request, listing: seq<string>, isDir: string -> bool, process: Processor): PathResult
  {
    if isDir(req.inputPath) then
      if !isDir(req.outputPath) then PathResult([OutputNotDirectory], [], Some(OutputMustBeDirectory))
      else
        var files := Discover(listing, SupportedRawExtensions);
        if |files| == 0 then PathResult([NoRawFiles], [], Some(NoRawFilesFound))
        else if !ValidWorkerCount(req.jobs) then PathResult([Found(|files|)], [], Some(InvalidWorkerCount))
        else
          var runs := RunAll(process, UnitConfigs(req, files));
          PathResult([Found(|files|)] + FailureLog(files, runs) + [BatchComplete], runs, None)
    else
      var run := process(ImageConfig(req, req.inputPath, SingleOutputPath(req, isDir)));
      if run.outcome.Raised? then PathResult([ProcessingSingle], [run], Some(ImageFailed(run.outcome.error)))
      else PathResult([ProcessingSingle, SingleComplete], [run], None)
  }

  /** `process` computes what the pipeline of the model computes under `env`. */
  ghost predicate Realizes(process: Processor, env: Pipeline.Env)
  {
    forall cfg {:trigger Pipeline.Run(cfg, env)} :: process(cfg) == Pipeline.Run(cfg, env)
  }

  lemma PipelineOfRealizes(env: Pipeline.Env)
    ensures Realizes(PipelineOf(env), env)
  {
  }

  /** One pipeline run, as the process pool performs it for one file. */
  method ProcessUnit(ghost process: Processor, cfg: Pipeline.Config, env: Pipeline.Env) returns (run: Pipeline.RunResult)
    requires Realizes(process, env)
    ensures run == process(cfg)
  {
    run := Pipeline.ProcessImage(cfg, env);
  }

  /** The batch branch once the checks have passed: run every file, log each
      failure and carry on. */
  method RunBatch(ghost process: Processor, env: Pipeline.Env, files: seq<string>, cfgs: seq<Pipeline.Config>)
    returns (runs: seq<Pipeline.RunResult>, failures: seq<Event>)
    requires Realizes(process, env) && |cfgs| == |files|
    ensures runs == RunAll(process, cfgs)
    ensures failures == FailureLog(files, runs)
  {
    runs, failures := [], [];
    for i := 0 to |files|
      invariant runs == RunAll(process, cfgs[..i])
      invariant failures == FailureLog(files[..i], runs)
    {
      var run := ProcessUnit(process, cfgs[i], env);
      assert cfgs[..i + 1][..i] == cfgs[..i];
      assert files[..i + 1][..i] == files[..i];
      assert (runs + [run])[..i] == runs;
      runs := runs + [run];
      if run.outcome.Raised? {
        failures := failures + [UnitFailed(files[i], run.outcome.error)];
      }
    }
    assert cfgs[..|files|] == cfgs;
    assert files[..|files|] == files;
  }

  /** `process_path` with the pipeline of the model. */
  method ProcessPath(req: Request, listing: seq<string>, isDir: string -> bool, env: Pipeline.Env)
    returns (r: PathResult)
    ensures r == ProcessPathSpec(req, listing, isDir, PipelineOf(env))
  {
    if isDir(req.inputPath) {
      if !isDir(req.outputPath) {
        return PathResult([OutputNotDirectory], [], Some(OutputMustBeDirectory));
      }
      var files := DiscoverRawFiles(listing);
      if |files| == 0 {
        return PathResult([NoRawFiles], [], Some(NoRawFilesFound));
      }
      if !ValidWorkerCount(req.jobs) {
        return PathResult([Found(|files|)], [], Some(InvalidWorkerCount));
      }
      PipelineOfRealizes(env);
      var runs, failures := RunBatch(PipelineOf(env), env, files, UnitConfigs(req, files));
      r := PathResult([Found(|files|)] + failures + [BatchComplete], runs, None);
    } else {
      var cfg := ImageConfig(req, req.inputPath, SingleOutputPath(req, isDir));
      PipelineOfRealizes(env);
      var run := ProcessUnit(PipelineOf(env), cfg, env);
      if run.outcome.Raised? {
        return PathResult([ProcessingSingle], [run], Some(ImageFailed(run.outcome.error)));
      }
      r := PathResult([ProcessingSingle, SingleComplete], [run], None);
    }
  }

  // ------------------------------------------------------------------ properties

  lemma {:induction false} FailureLogMembership(files: seq<string>, runs: seq<Pipeline.RunResult>,
                                                name: string, e: Pipeline.Error)
    requires |files| == |runs|
    ensures UnitFailed(name, e) in FailureLog(files, runs) <==>
              exists k :: 0 <= k < |files| && files[k] == name && runs[k].outcome == Pipeline.Raised(e)
    decreases |files|
  {
    if |files| > 0 {
      var n := |files| - 1;
      FailureLogMembership(files[..n], runs[..n], name, e);
      if exists k :: 0 <= k < n && files[..n][k] == name && runs[..n][k].outcome == Pipeline.Raised(e) {
        var k :| 0 <= k < n && files[..n][k] == name && runs[..n][k].outcome == Pipeline.Raised(e);
        assert files[k] == name && runs[k].outcome == Pipeline.Raised(e);
      }
      if exists k :: 0 <= k < |files| && files[k] == name && runs[k].outcome == Pipeline.Raised(e) {
        var k :| 0 <= k < |files| && files[k] == name && runs[k].outcome == Pipeline.Raised(e);
        if k < n {
          assert files[..n][k] == name && runs[..n][k].outcome == Pipeline.Raised(e);
        }
      }
    }
  }

  /** The checks of the batch branch: an output path that is not a directory
      is refused before anything is listed, an input directory without a
      supported RAW file is refused before anything runs, and a worker count
      the process pool refuses raises once the files have been counted. */
  lemma BatchChecks(req: Request, listing: seq<string>, isDir: string -> bool, process: Processor)
    requires isDir(req.inputPath)
    ensures ProcessPathSpec(req, listing, isDir, process).error == Some(OutputMustBeDirectory) <==>
              !isDir(req.outputPath)
    ensures ProcessPathSpec(req, listing, isDir, process).error == Some(NoRawFilesFound) <==>
              isDir(req.outputPath) && forall x :: x in listing ==> !Supported(x, SupportedRawExtensions)
    ensures ProcessPathSpec(req, listing, isDir, process).error == Some(InvalidWorkerCount) <==>
              isDir(req.outputPath) && (exists x :: x in listing && Supported(x, SupportedRawExtensions)) &&
              !ValidWorkerCount(req.jobs)
    ensures ProcessPathSpec(req, listing, isDir, process).error.Some? ==> ProcessPathSpec(req, listing, isDir, process).runs == []
  {
    var files := Discover(listing, SupportedRawExtensions);
    if isDir(req.outputPath) {
      if |files| == 0 {
        forall x | x in listing
          ensures !Supported(x, SupportedRawExtensions)
        {
          DiscoverMembership(listing, SupportedRawExtensions, x);
        }
      } else {
        DiscoverMembership(listing, SupportedRawExtensions, files[0]);
      }
    }
  }

  /** Once the checks pass the batch never raises: every discovered file gets
      its own pipeline run, and the batch goes on to the end. */
  lemma BatchNeverRaises(req: Request, listing: seq<string>, isDir: string -> bool, process: Processor)
    requires isDir(req.inputPath) && isDir(req.outputPath) && ValidWorkerCount(req.jobs)
    requires |Discover(listing, SupportedRawExtensions)| > 0
    ensures var r := ProcessPathSpec(req, listing, isDir, process);
            var files := Discover(listing, SupportedRawExtensions);
            var cfgs := UnitConfigs(req, files);
            r.error.None? && |r.runs| == |files| &&
            r.events[0] == Found(|files|) && r.events[|r.events| - 1] == BatchComplete &&
            forall k :: 0 <= k < |files| ==> r.runs[k] == process(cfgs[k])
  {
    var files := Discover(listing, SupportedRawExtensions);
    forall k | 0 <= k < |files|
      ensures RunAll(process, UnitConfigs(req, files))[k] == process(UnitConfigs(req, files)[k])
    {
      RunAllRunsEach(process, UnitConfigs(req, files), k);
    }
  }

  /** In a batch, a failure is logged under a file's name exactly when that
      file's run raised that error. */
  lemma BatchLogsEachFailure(req: Request, listing: seq<string>, isDir: string -> bool, process: Processor,
                             name: string, e: Pipeline.Error)
    requires isDir(req.inputPath) && isDir(req.outputPath) && ValidWorkerCount(req.jobs)
    requires |Discover(listing, SupportedRawExtensions)| > 0
    ensures var r := ProcessPathSpec(req, listing, isDir, process);
            var files := Discover(listing, SupportedRawExtensions);
            UnitFailed(name, e) in r.events <==>
              exists k :: 0 <= k < |files| && files[k] == name && r.runs[k].outcome == Pipeline.Raised(e)
  {
    var files := Discover(listing, SupportedRawExtensions);
    var runs := RunAll(process, UnitConfigs(req, files));
    BatchResult(req, listing, isDir, process);
    BatchLogMembership(files, runs, name, e);
  }

  /** The batch log names a failure exactly when that file's run raised it. */
  lemma BatchLogMembership(files: seq<string>, runs: seq<Pipeline.RunResult>, name: string, e: Pipeline.Error)
    requires |files| == |runs|
    ensures UnitFailed(name, e) in [Found(|files|)] + FailureLog(files, runs) + [BatchComplete] <==>
              exists k :: 0 <= k < |files| && files[k] == name && runs[k].outcome == Pipeline.Raised(e)
  {
    FailureLogMembership(files, runs, name, e);
  }

  /** A batch whose checks pass logs the count, the failures in file order
      and the completion, and raises nothing. */
  lemma BatchResult(req: Request, listing: seq<string>, isDir: string -> bool, process: Processor)
    requires isDir(req.inputPath) && isDir(req.outputPath) && ValidWorkerCount(req.jobs)
    requires |Discover(listing, SupportedRawExtensions)| > 0
    ensures var files := Discover(listing, SupportedRawExtensions);
            var runs := RunAll(process, UnitConfigs(req, files));
            ProcessPathSpec(req, listing, isDir, process) ==
              PathResult([Found(|files|)] + FailureLog(files, runs) + [BatchComplete], runs, None)
  {
  }

  /** A single file that fails in the pipeline makes `process_path` raise the
      same error; otherwise it completes. */
  lemma SingleFailurePropagates(req: Request, listing: seq<string>, isDir: string -> bool, process: Processor)
    requires !isDir(req.inputPath)
    ensures var r := ProcessPathSpec(req, listing, isDir, process);
            var run := process(ImageConfig(req, req.inputPath, SingleOutputPath(req, isDir)));
            r.runs == [run] &&
            (r.error.Some? <==> run.outcome.Raised?) &&
            (run.outcome.Raised? ==> r.error == Some(ImageFailed(run.outcome.error))) &&
            (SingleComplete in r.events <==> !run.outcome.Raised?)
  {
  }

  /** Every batch unit reads its file from the input directory and writes
      into the output directory a file named after the RAW file's stem and the
      output format. */
  lemma UnitPaths(req: Request, filename: string)
    requires '/' !in filename && '/' !in req.outputFormat
    ensures var rawPath := UnitConfig(req, filename).rawPath;
            |req.inputPath| <= |rawPath| && rawPath[..|req.inputPath|] == req.inputPath &&
            Basename(rawPath) == filename
    ensures var outputPath := UnitConfig(req, filename).outputPath;
            |req.outputPath| <= |outputPath| && outputPath[..|req.outputPath|] == req.outputPath &&
            Basename(outputPath) == Stem(filename) + "." + req.outputFormat
  {
    BasenameOfJoin(req.inputPath, filename);
    var name := OutputName(filename, req.outputFormat);
    assert |filename| > 0 ==> filename[0] != '/';
    assert Stem(filename) == filename[..|Stem(filename)|];
    forall k | 0 <= k < |name|
      ensures name[k] != '/'
    {
      if k < |Stem(filename)| {
        assert name[k] == filename[k];
      } else if k > |Stem(filename)| {
        assert name[k] == req.outputFormat[k - |Stem(filename)| - 1];
      }
    }
    assert |name| > 0 && name[0] != '/';
    BasenameOfJoin(req.outputPath, name);
  }

  /** The single-file branch writes into the output directory, when the
      output path is one, a file named after the input's last component. */
  lemma SingleOutputInDirectory(req: Request, isDir: string -> bool)
    requires isDir(req.outputPath) && '/' !in req.outputFormat
    ensures var r := SingleOutputPath(req, isDir);
            |req.outputPath| <= |r| && r[..|req.outputPath|] == req.outputPath
    ensures Basename(SingleOutputPath(req, isDir)) == Stem(Basename(req.inputPath)) + "." + req.outputFormat
  {
    var base := Basename(req.inputPath);
    var name := OutputName(base, req.outputFormat);
    assert Stem(base) == base[..|Stem(base)|];
    forall k | 0 <= k < |name|
      ensures name[k] != '/'
    {
      if k < |Stem(base)| {
        assert name[k] == base[k];
      } else if k > |Stem(base)| {
        assert name[k] == req.outputFormat[k - |Stem(base)| - 1];
      }
    }
    assert |name| > 0 && name[0] != '/';
    BasenameOfJoin(req.outputPath, name);
  }

  /** Two RAW files of one shot in different formats (any two extensions,
      in any letter case) get the same output path, so the later run
      overwrites the earlier one's output. */
  lemma SameStemSameOutput(req: Request, stem: string, ext1: string, ext2: string)
    requires HasNamedStem(stem) && IsExtension(ext1) && IsExtension(ext2)
    ensures UnitConfig(req, stem + ext1).outputPath == UnitConfig(req, stem + ext2).outputPath
  {
    StemOfExtended(stem, ext1);
    StemOfExtended(stem, ext2);
  }
}
