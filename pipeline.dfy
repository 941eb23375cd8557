/** The orchestration of sil2.py: the stage wrappers, `run_single_file` and
    `run_many_files`, run against a host that stands for the file system, the external
    programs and the numeric libraries. Every external call is appended to the host's
    effect log, and each method is proved against a function that says which effects it
    must leave and which result it must return. */
module Pipeline {
  import opened Wrappers
  import opened PurePaths
  import opened Commands
  import opened Planner

  /** One call into the outside world. */
  datatype Effect =
    | MakeDir(dir: Path)                                // `mkdir(parents=True, exist_ok=True)`
    | Run(cmd: Command)                                 // `subprocess.run(Argv(cmd))`
    | RunCaptured(cmd: Command)                         // the same, `capture_output=True, check=False`
    | DetectSpeech(wav: Path)                           // `read_audio` and `get_speech_timestamps`
    | SmartCut(input: Path, keep: string, output: Path) // `smart_cut` over the parsed keep-list

  /** The exceptions that leave the orchestrators. */
  datatype RunError =
    | FileNotFound(path: Path)
    | NotADirectory(path: Path)
    | CutFailed(output: Path)
    | InvalidName(name: string)   // `with_name` given a name pathlib refuses
    | EmptyName(path: Path)       // `with_name` called on a path without a name

  /** The record `create_in_out_paths` returns. */
  datatype FilePaths = FilePaths(
    inFile: Path, inDir: Path, inName: string, inExt: string,
    outFile: Path, outDir: Path, outName: string, outExt: string)

  /** The state the batch loop carries, with the files it handed on (`accepted`), the
      effects so far, and the error that stopped it, if any. */
  datatype BatchState = BatchState(
    failed: Option<RunError>, processed: seq<Path>, accepted: seq<Path>, effects: seq<Effect>)

  /** What one `run_single_file` call returns and the effects it has. */
  datatype SingleRun = SingleRun(result: Result<seq<Path>, RunError>, effects: seq<Effect>)

  /** One iteration of the batch loop over the file `f`, whose single-file run is `run`.
      A file is handed on unless it is among the paths returned so far or its suffix is
      not allowed; once a run has raised, the loop is over and nothing changes. */
  function Next(b: BatchState, f: Path, run: SingleRun): BatchState
  {
    if b.failed.Some? || !Admits(f, b.processed) then b
    else BatchState(if run.result.Failure? then Some(run.result.error) else None,
                    if run.result.Success? then b.processed + run.result.value else b.processed,
                    b.accepted + [f], b.effects + run.effects)
  }

  /** The batch loop after the first `k` listed files, where `runs[i]` is what
      `run_single_file` does for `files[i]`. */
  function BatchUpTo(runs: seq<SingleRun>, files: seq<Path>, k: nat): BatchState
    requires k <= |files| <= |runs|
  {
    if k == 0 then BatchState(None, [], [], [])
    else Next(BatchUpTo(runs, files, k - 1), files[k - 1], runs[k - 1])
  }

  /** The whole batch over the listing. */
  function Batch(runs: seq<SingleRun>, files: seq<Path>): BatchState
    requires |files| <= |runs|
  {
    BatchUpTo(runs, files, |files|)
  }

  /** A batch that has stopped ignores the next listed file. */
  lemma BatchHalted(runs: seq<SingleRun>, files: seq<Path>, n: nat)
    requires 0 < n <= |files| <= |runs|
    requires BatchUpTo(runs, files, n - 1).failed.Some?
    ensures BatchUpTo(runs, files, n) == BatchUpTo(runs, files, n - 1)
  {
  }

  /** Once a single-file run has raised, later listed files change nothing. */
  lemma {:induction false} FailureSticks(runs: seq<SingleRun>, files: seq<Path>, k: nat, n: nat)
    requires k <= n <= |files| <= |runs|
    requires BatchUpTo(runs, files, k).failed.Some?
    ensures BatchUpTo(runs, files, n) == BatchUpTo(runs, files, k)
  {
    if n > k {
      var a, b, c := BatchUpTo(runs, files, n), BatchUpTo(runs, files, n - 1), BatchUpTo(runs, files, k);
      FailureSticks(runs, files, k, n - 1);
      assert b == c;
      BatchHalted(runs, files, n);
      assert a == b;
    }
  }

  /** Every file handed to `run_single_file` has an allowed suffix. */
  lemma {:induction false} BatchAcceptsAllowed(runs: seq<SingleRun>, files: seq<Path>, k: nat)
    requires k <= |files| <= |runs|
    ensures forall j :: 0 <= j < |BatchUpTo(runs, files, k).accepted| ==>
      Suffix(BatchUpTo(runs, files, k).accepted[j]) in AllowedExtensions
  {
    if k > 0 {
      BatchAcceptsAllowed(runs, files, k - 1);
      var b, b' := BatchUpTo(runs, files, k - 1), BatchUpTo(runs, files, k);
      if b' != b {
        assert b'.accepted == b.accepted + [files[k - 1]];
        ListedInMeansIn(Suffix(files[k - 1]), AllowedExtensions);
      }
    }
  }

  /** Every file handed to `run_single_file` comes from the listing. */
  lemma {:induction false} BatchAcceptsListed(runs: seq<SingleRun>, files: seq<Path>, k: nat)
    requires k <= |files| <= |runs|
    ensures forall j :: 0 <= j < |BatchUpTo(runs, files, k).accepted| ==> BatchUpTo(runs, files, k).accepted[j] in files
  {
    if k > 0 {
      BatchAcceptsListed(runs, files, k - 1);
      var b, b' := BatchUpTo(runs, files, k - 1), BatchUpTo(runs, files, k);
      if b' != b {
        assert b'.accepted == b.accepted + [files[k - 1]];
        assert files[k - 1] in files;
      }
    }
  }

  /** Whether the loop hands the `i`-th listed file to `run_single_file`: no run before
      it has raised, it is not among the paths returned so far, and its suffix is one of
      `.mp4`, `.mov`, `.mkv`. */
  predicate HandsOn(runs: seq<SingleRun>, files: seq<Path>, i: nat)
    requires i < |files| <= |runs|
  {
    var b := BatchUpTo(runs, files, i);
    b.failed.None? && files[i] !in b.processed && Suffix(files[i]) in AllowedExtensions
  }

  /** One iteration hands its file on exactly when `HandsOn` holds, and otherwise hands
      nothing on. */
  lemma BatchStepAccepts(runs: seq<SingleRun>, files: seq<Path>, k: nat)
    requires k < |files| <= |runs|
    ensures BatchUpTo(runs, files, k + 1).accepted
         == BatchUpTo(runs, files, k).accepted + (if HandsOn(runs, files, k) then [files[k]] else [])
  {
    ListedInMeansIn(Suffix(files[k]), AllowedExtensions);
  }

  /** The indices, among the first `k` listed files, of those handed on. */
  function HandedOn(runs: seq<SingleRun>, files: seq<Path>, k: nat): seq<nat>
    requires k <= |files| <= |runs|
  {
    if k == 0 then []
    else HandedOn(runs, files, k - 1) + (if HandsOn(runs, files, k - 1) then [k - 1] else [])
  }

  /** `idx` picks `acc` out of the first `k` entries of `files`, in increasing order. */
  predicate PicksInOrder(idx: seq<nat>, acc: seq<Path>, files: seq<Path>, k: nat)
  {
    |idx| == |acc|
    && (forall j :: 0 <= j < |idx| ==> idx[j] < k && idx[j] < |files| && acc[j] == files[idx[j]])
    && (forall j1, j2 :: 0 <= j1 < j2 < |idx| ==> idx[j1] < idx[j2])
  }

  lemma PicksSnoc(idx: seq<nat>, acc: seq<Path>, files: seq<Path>, k: nat, take: bool)
    requires PicksInOrder(idx, acc, files, k) && k < |files|
    ensures PicksInOrder(idx + (if take then [k] else []), acc + (if take then [files[k]] else []), files, k + 1)
  {
    if take {
      var idx', acc' := idx + [k], acc + [files[k]];
      forall j | 0 <= j < |idx'| ensures idx'[j] < k + 1 && idx'[j] < |files| && acc'[j] == files[idx'[j]] {
        if j < |idx| { assert idx'[j] == idx[j] && acc'[j] == acc[j]; }
      }
      forall j1, j2 | 0 <= j1 < j2 < |idx'| ensures idx'[j1] < idx'[j2] {
        assert idx'[j1] == idx[j1];
        if j2 < |idx| { assert idx'[j2] == idx[j2]; }
      }
    } else {
      assert idx + [] == idx && acc + [] == acc;
    }
  }

  /** The files handed on are the listed files for which `HandsOn` holds, taken in
      listing order. */
  lemma {:induction false} BatchAcceptsInOrder(runs: seq<SingleRun>, files: seq<Path>, k: nat)
    requires k <= |files| <= |runs|
    ensures PicksInOrder(HandedOn(runs, files, k), BatchUpTo(runs, files, k).accepted, files, k)
  {
    if k > 0 {
      var idx, acc, take := HandedOn(runs, files, k - 1), BatchUpTo(runs, files, k - 1).accepted,
                            HandsOn(runs, files, k - 1);
      BatchAcceptsInOrder(runs, files, k - 1);
      BatchStepAccepts(runs, files, k - 1);
      assert HandedOn(runs, files, k) == idx + (if take then [k - 1] else []);
      PicksSnoc(idx, acc, files, k - 1, take);
    }
  }

  /** A listed file is handed on if and only if `HandsOn` holds for it: while no run has
      raised, every allowed file not returned so far is taken, and no other. */
  lemma {:induction false} HandedOnExactly(runs: seq<SingleRun>, files: seq<Path>, k: nat)
    requires k <= |files| <= |runs|
    ensures forall i :: 0 <= i < k ==> (i in HandedOn(runs, files, k) <==> HandsOn(runs, files, i))
    ensures forall i :: i in HandedOn(runs, files, k) ==> i < k
  {
    if k > 0 {
      HandedOnExactly(runs, files, k - 1);
    }
  }

  // ---------------------------------------------------------------- what the batch hands on

  /** The planned outputs of several files, one file after the other. */
  function AllPlanned(planned: Path -> seq<Path>, fs: seq<Path>): seq<Path>
  {
    if |fs| == 0 then [] else AllPlanned(planned, fs[..|fs| - 1]) + planned(fs[|fs| - 1])
  }

  /** Every run that succeeds returns the planned outputs of its file. */
  predicate ReturnsPlanned(planned: Path -> seq<Path>, runs: seq<SingleRun>, files: seq<Path>)
  {
    |runs| == |files|
    && forall i :: 0 <= i < |files| && runs[i].result.Success? ==> runs[i].result.value == planned(files[i])
  }

  lemma {:induction false} InAllPlanned(planned: Path -> seq<Path>, fs: seq<Path>, i: nat, p: Path)
    requires i < |fs| && p in planned(fs[i])
    ensures p in AllPlanned(planned, fs)
  {
    var init := fs[..|fs| - 1];
    if i < |fs| - 1 {
      assert init[i] == fs[i];
      InAllPlanned(planned, init, i, p);
    }
  }

  /** No file in `acc` is among the planned outputs of a file before it. */
  predicate Unseen(planned: Path -> seq<Path>, acc: seq<Path>)
  {
    forall i, j :: 0 <= i < j < |acc| ==> acc[j] !in planned(acc[i])
  }

  lemma UnseenSnoc(planned: Path -> seq<Path>, acc: seq<Path>, f: Path)
    requires Unseen(planned, acc) && f !in AllPlanned(planned, acc)
    ensures Unseen(planned, acc + [f])
  {
    var acc' := acc + [f];
    forall i, j | 0 <= i < j < |acc'| ensures acc'[j] !in planned(acc'[i]) {
      assert acc'[i] == acc[i];
      if j < |acc| {
        assert acc'[j] == acc[j];
      } else if f in planned(acc[i]) {
        InAllPlanned(planned, acc, i, f);
        assert false;
      }
    }
  }

  /** What the batch keeps true while it runs: no file was handed on that a file before
      it planned, and, until a run raises, `files_processed` is the planned outputs of
      the files handed on. */
  predicate PlannedSoFar(planned: Path -> seq<Path>, b: BatchState)
  {
    Unseen(planned, b.accepted)
    && (b.failed.None? ==> b.processed == AllPlanned(planned, b.accepted))
  }

  /** One iteration keeps it, as long as the run it starts returns the planned outputs
      of its file. */
  lemma NextKeepsPlanned(planned: Path -> seq<Path>, b: BatchState, f: Path, run: SingleRun)
    requires PlannedSoFar(planned, b)
    requires run.result.Success? ==> run.result.value == planned(f)
    ensures PlannedSoFar(planned, Next(b, f, run))
  {
    if b.failed.None? && Admits(f, b.processed) {
      UnseenSnoc(planned, b.accepted, f);
      var acc := b.accepted + [f];
      assert acc[..|acc| - 1] == b.accepted;
    }
  }

  /** The batch keeps it over the whole listing. */
  lemma {:induction false} BatchPlanned(planned: Path -> seq<Path>, runs: seq<SingleRun>,
                                        files: seq<Path>, k: nat)
    requires ReturnsPlanned(planned, runs, files) && k <= |files|
    ensures PlannedSoFar(planned, BatchUpTo(runs, files, k))
  {
    if k > 0 {
      BatchPlanned(planned, runs, files, k - 1);
      NextKeepsPlanned(planned, BatchUpTo(runs, files, k - 1), files[k - 1], runs[k - 1]);
    }
  }

  /** The output name of `create_in_out_paths` is a component, and pathlib splits it
      back into the extension and everything before it. */
  lemma OutNameSplits(stem: string, sep: string, suffix: string, ext: string)
    requires stem != "" && '/' !in stem && '/' !in sep + suffix && IsSuffix(ext) && '/' !in ext
    ensures IsComponent(stem + sep + suffix + ext)
    ensures SuffixOf(stem + sep + suffix + ext) == ext && StemOf(stem + sep + suffix + ext) == stem + sep + suffix
  {
    NameFromPieces(stem, sep + suffix, ext);
    AppendAssoc(stem, sep, suffix);
  }

  lemma AppendAssoc<T>(a: seq<T>, b: seq<T>, c: seq<T>)
    ensures a + (b + c) == (a + b) + c
  {
  }

  /** The loudnorm targets `run_single_file` leaves at their defaults. */
  const DefaultI := "-14"
  const DefaultTp := "-2.0"
  const DefaultLra := "11"

  class Host {
    /** Resolved paths that `is_file()` accepts. */
    const regularFiles: set<Path>
    /** Resolved paths that `is_dir()` accepts. */
    const directories: set<Path>
    /** `Path.resolve()`. */
    const resolve: Path -> Path
    /** The recursive `rglob` listing of a directory (every entry whose name holds a
        dot), in the order the walk yields. */
    const listing: Path -> seq<Path>
    /** `ROOT_DIR`. */
    const rootDir: Path
    /** The loudnorm statistics found in the standard error of a first-pass command, or
        None when its output holds no loudnorm block. */
    const loudnormReport: Command -> Option<LoudnormStats>
    /** What the speech detector reports on the audio extracted from a video. */
    const speech: Path -> seq<SpeechSpan>
    /** `ajust_vad_speech_timestamps` with the parameters sil2.py passes. */
    const adjust: seq<SpeechSpan> -> seq<SpeechSpan>
    /** Python's rendering of a float inside an f-string. */
    const show: real -> string
    /** Whether `smart_cut` returns an exception for this input, keep-list and output. */
    const cutFails: (Path, string, Path) -> bool
    /** Every external call made so far, oldest first. */
    var effects: seq<Effect>

    /** A regular file's resolved path ends in a genuine name. */
    predicate Valid()
    {
      forall p :: p in regularFiles ==> IsComponent(Name(p))
    }

    constructor (regularFiles: set<Path>, directories: set<Path>, resolve: Path -> Path,
                 listing: Path -> seq<Path>, rootDir: Path,
                 loudnormReport: Command -> Option<LoudnormStats>, speech: Path -> seq<SpeechSpan>,
                 adjust: seq<SpeechSpan> -> seq<SpeechSpan>, show: real -> string,
                 cutFails: (Path, string, Path) -> bool)
      requires forall p :: p in regularFiles ==> IsComponent(Name(p))
      ensures Valid() && effects == []
      ensures this.regularFiles == regularFiles && this.directories == directories
      ensures this.resolve == resolve && this.listing == listing && this.rootDir == rootDir
      ensures this.loudnormReport == loudnormReport && this.speech == speech
      ensures this.adjust == adjust && this.show == show && this.cutFails == cutFails
    {
      this.regularFiles := regularFiles;
      this.directories := directories;
      this.resolve := resolve;
      this.listing := listing;
      this.rootDir := rootDir;
      this.loudnormReport := loudnormReport;
      this.speech := speech;
      this.adjust := adjust;
      this.show := show;
      this.cutFails := cutFails;
      effects := [];
    }

    // ---------------------------------------------------------------- create_in_out_paths

    /** `create_in_out_paths`: the resolved input and a sibling whose name is the input's
        stem, `sep`, `suffix` and the extension (the input's, unless a new one is given);
        pathlib's ValueError when the input has no name or the new name is not one. */
    function CreateInOutPaths(inputPath: Path, suffix: string, sep: string := "_",
                              newFileExt: Option<string> := None): (r: Result<FilePaths, RunError>)
      ensures var inFile := resolve(inputPath);
        var ext := if newFileExt.Some? then newFileExt.value else Suffix(inFile);
        var outName := Stem(inFile) + sep + suffix + ext;
        (r.Failure? <==> Name(inFile) == "" || !IsComponent(outName))
        && (r.Failure? ==> r.error == if Name(inFile) == "" then EmptyName(inFile) else InvalidName(outName))
        && (r.Success? ==>
              r.value.inFile == inFile && r.value.inName == Stem(inFile) && r.value.inExt == Suffix(inFile)
              && r.value.inDir == Parent(inFile) && r.value.outDir == Parent(inFile)
              && Parent(r.value.outFile) == Parent(inFile) && r.value.outFile.absolute == inFile.absolute
              && Name(r.value.outFile) == outName && r.value.outName == outName && r.value.outExt == ext)
    {
      var inFile := resolve(inputPath);
      var outExt := if newFileExt.Some? then newFileExt.value else Suffix(inFile);
      var outName := Stem(inFile) + sep + suffix + outExt;
      if Name(inFile) == "" then Failure(EmptyName(inFile))
      else if !IsComponent(outName) then Failure(InvalidName(outName))
      else
        var outFile := WithName(inFile, outName);
        Success(FilePaths(inFile, Parent(inFile), Stem(inFile), Suffix(inFile),
                          outFile, Parent(inFile), outName, outExt))
    }

    /** The output keeps the input's stem in front and ends in the chosen extension, which
        pathlib then reports as its suffix: the input's own, or the new one. */
    lemma CreateInOutPathsExtension(inputPath: Path, suffix: string, sep: string, newFileExt: Option<string>)
      requires IsComponent(Name(resolve(inputPath)))
      requires '/' !in sep + suffix
      requires newFileExt.Some? ==> IsSuffix(newFileExt.value) && '/' !in newFileExt.value
      requires newFileExt.None? ==> Suffix(resolve(inputPath)) != ""
      ensures var r := CreateInOutPaths(inputPath, suffix, sep, newFileExt);
        r.Success? && Suffix(r.value.outFile) == r.value.outExt
        && Stem(r.value.outFile) == r.value.inName + sep + suffix
        && (newFileExt.None? ==> r.value.outExt == r.value.inExt)
    {
      var inFile := resolve(inputPath);
      StemSuffixSplit(Name(inFile));
      ComponentPieces(Name(inFile));
      var ext := if newFileExt.Some? then newFileExt.value else Suffix(inFile);
      OutNameSplits(Stem(inFile), sep, suffix, ext);
    }

    // ---------------------------------------------------------------- stage wrappers

    /** The effects of `ffmpeg_fix_codecs`: one re-encode, none in a dry run. */
    function FixCodecsEffects(input: Path, output: Path, dryRun: bool): seq<Effect>
    {
      if dryRun then [] else [Run(FixCodecsCmd(input, output))]
    }

    method FfmpegFixCodecs(input: Path, output: Path, dryRun: bool := true) returns (r: Path)
      modifies this
      ensures r == output
      ensures effects == old(effects) + FixCodecsEffects(input, output, dryRun)
    {
      var cmd := FixCodecsCmd(input, output);
      if dryRun {
        return output;
      }
      effects := effects + [Run(cmd)];
      return output;
    }

    /** The effects of `ffmpeg_audio_normalization`: the analysing first pass always runs,
        even in a dry run; the second pass runs only when the first reported loudnorm
        statistics and the run is not dry. */
    function NormalizationEffects(input: Path, output: Path, loudnormI: string, loudnormTp: string,
                                  loudnormLra: string, dryRun: bool): (e: seq<Effect>)
      ensures |e| > 0 && e[0] == RunCaptured(FirstPassCmd(input, loudnormI, loudnormTp, loudnormLra))
      ensures |e| <= 2
      ensures |e| == 2 <==> !dryRun && loudnormReport(FirstPassCmd(input, loudnormI, loudnormTp, loudnormLra)).Some?
      ensures |e| == 2 ==> e[1] == Run(SecondPassCmd(input, output, loudnormI, loudnormTp, loudnormLra,
        loudnormReport(FirstPassCmd(input, loudnormI, loudnormTp, loudnormLra)).value))
    {
      var first := FirstPassCmd(input, loudnormI, loudnormTp, loudnormLra);
      [RunCaptured(first)]
      + match loudnormReport(first)
        case None => []
        case Some(m) => if dryRun then [] else [Run(SecondPassCmd(input, output, loudnormI, loudnormTp, loudnormLra, m))]
    }

    /** Returns the output path on every branch, including when the first pass reports
        no loudnorm block and nothing is written. */
    method FfmpegAudioNormalization(input: Path, output: Path, loudnormI: string := "-14",
                                    loudnormTp: string := "-2.0", loudnormLra: string := "11",
                                    dryRun: bool := false) returns (r: Path)
      modifies this
      ensures r == output
      ensures effects == old(effects) + NormalizationEffects(input, output, loudnormI, loudnormTp, loudnormLra, dryRun)
    {
      var first := FirstPassCmd(input, loudnormI, loudnormTp, loudnormLra);
      effects := effects + [RunCaptured(first)];
      var found := loudnormReport(first);
      if found.Some? {
        var second := SecondPassCmd(input, output, loudnormI, loudnormTp, loudnormLra, found.value);
        if dryRun {
          return output;
        }
        effects := effects + [Run(second)];
        return output;
      }
      return output;
    }

    /** The effects of `auto_editor_cut_silences`: one auto-editor run, none in a dry run. */
    function AutoEditorEffects(input: Path, output: Path, dryRun: bool): seq<Effect>
    {
      if dryRun then [] else [Run(AutoEditorCmd(rootDir, input, output))]
    }

    method AutoEditorCutSilences(input: Path, output: Path, dryRun: bool := false) returns (r: Path)
      modifies this
      ensures r == output
      ensures effects == old(effects) + AutoEditorEffects(input, output, dryRun)
    {
      var cmd := AutoEditorCmd(rootDir, input, output);
      if dryRun {
        return output;
      }
      effects := effects + [Run(cmd)];
      return output;
    }

    /** The speech spans `silero_get_speech_pauses` returns: none in a dry run, otherwise
        the detector's spans after `ajust_vad_speech_timestamps`. */
    function SpeechSpans(input: Path, dryRun: bool): seq<SpeechSpan>
    {
      if dryRun then [] else adjust(speech(input))
    }

    /** Its effects: extracting the audio track and running the detector on it. */
    function SpeechPausesEffects(input: Path, output: Path, dryRun: bool): seq<Effect>
    {
      if dryRun then [] else [Run(ExtractWavCmd(input, output)), DetectSpeech(output)]
    }

    method SileroGetSpeechPauses(input: Path, output: Path, dryRun: bool := false)
      returns (spans: seq<SpeechSpan>, r: Path)
      modifies this
      ensures r == output && spans == SpeechSpans(input, dryRun)
      ensures effects == old(effects) + SpeechPausesEffects(input, output, dryRun)
    {
      var cmd := ExtractWavCmd(input, output);
      if dryRun {
        return [], output;
      }
      effects := effects + [Run(cmd)];
      effects := effects + [DetectSpeech(output)];
      spans := adjust(speech(input));
      r := output;
    }

    /** The effects of `smartcut_cut_by_second_timestamps`: one cut over the keep-list,
        none in a dry run. */
    function SmartCutEffects(input: Path, output: Path, spans: seq<SpeechSpan>, dryRun: bool): seq<Effect>
    {
      if dryRun then [] else [SmartCut(input, KeepList(spans, show), output)]
    }

    /** Whether the cut raises the exception `smart_cut` returned. */
    predicate SmartCutFails(input: Path, output: Path, spans: seq<SpeechSpan>, dryRun: bool)
    {
      !dryRun && cutFails(input, KeepList(spans, show), output)
    }

    method SmartcutCutBySecondTimestamps(input: Path, output: Path, spans: seq<SpeechSpan>, dryRun: bool := false)
      returns (r: Result<Path, RunError>)
      modifies this
      ensures r == if SmartCutFails(input, output, spans, dryRun) then Failure(CutFailed(output)) else Success(output)
      ensures effects == old(effects) + SmartCutEffects(input, output, spans, dryRun)
    {
      var keep := KeepList(spans, show);
      if dryRun {
        return Success(output);
      }
      effects := effects + [SmartCut(input, keep, output)];
      if cutFails(input, keep, output) {
        return Failure(CutFailed(output));
      }
      return Success(output);
    }

    // ---------------------------------------------------------------- run_single_file

    /** The effect log after one planned step has run on top of `log`. */
    function AppendStep(log: seq<Effect>, st: Step, dryRun: bool): seq<Effect>
    {
      match st.stage
      case FixCodecs => log + FixCodecsEffects(st.input, st.output, dryRun)
      case Normalize => log + NormalizationEffects(st.input, st.output, DefaultI, DefaultTp, DefaultLra, dryRun)
      case AudioCut => log + AutoEditorEffects(st.input, st.output, dryRun)
      case SpeechCut =>
        log + SpeechPausesEffects(st.input, VadTrack(st.input), dryRun)
        + SmartCutEffects(st.input, st.output, SpeechSpans(st.input, dryRun), dryRun)
    }

    /** The effect log after the given steps have run, in order, on top of `log`. */
    function EffectsOf(log: seq<Effect>, steps: seq<Step>, dryRun: bool): seq<Effect>
    {
      if |steps| == 0 then log
      else AppendStep(EffectsOf(log, steps[..|steps| - 1], dryRun), steps[|steps| - 1], dryRun)
    }

    lemma EffectsOfSnoc(log: seq<Effect>, steps: seq<Step>, st: Step, dryRun: bool)
      ensures EffectsOf(log, steps + [st], dryRun) == AppendStep(EffectsOf(log, steps, dryRun), st, dryRun)
    {
      assert (steps + [st])[..|steps|] == steps;
    }

    /** A step only appends to the log. */
    lemma AppendStepAppends(log: seq<Effect>, st: Step, dryRun: bool)
      ensures AppendStep(log, st, dryRun) == log + AppendStep([], st, dryRun)
    {
      if st.stage == SpeechCut {
        var a := SpeechPausesEffects(st.input, VadTrack(st.input), dryRun);
        var b := SmartCutEffects(st.input, st.output, SpeechSpans(st.input, dryRun), dryRun);
        assert log + a + b == log + ([] + a + b);
      } else {
        assert AppendStep([], st, dryRun) == [] + AppendStep([], st, dryRun);
      }
    }

    /** Running steps only ever appends to the log. */
    lemma {:induction false} EffectsOfPrefix(log: seq<Effect>, steps: seq<Step>, dryRun: bool)
      ensures EffectsOf(log, steps, dryRun) == log + EffectsOf([], steps, dryRun)
    {
      if |steps| > 0 {
        var init, st := steps[..|steps| - 1], steps[|steps| - 1];
        EffectsOfPrefix(log, init, dryRun);
        var e0 := EffectsOf([], init, dryRun);
        var x := AppendStep([], st, dryRun);
        AppendStepAppends(log + e0, st, dryRun);
        AppendStepAppends(e0, st, dryRun);
        AppendAssoc(log, e0, x);
      }
    }

    /** Whether the speech stage's cut fails, which aborts the run after every other stage. */
    predicate CutFailsIn(cfg: Config, src: Path)
      requires IsComponent(Name(src))
    {
      var input := CurrentInput(src, PlanUpTo(cfg, src, |Stages| - 1));
      cfg.cutSpeechSilences
      && SmartCutFails(input, StageOutput(src, SpeechCut), SpeechSpans(input, cfg.dryRun), cfg.dryRun)
    }

    /** What `run_single_file` returns: FileNotFoundError for a path that is not a regular
        file, the cut's exception if it fails, and otherwise the planned outputs in order. */
    function SingleFile(cfg: Config, inputPath: Path): Result<seq<Path>, RunError>
      requires Valid()
    {
      var src := resolve(inputPath);
      if src !in regularFiles then Failure(FileNotFound(src))
      else if CutFailsIn(cfg, src) then Failure(CutFailed(StageOutput(src, SpeechCut)))
      else Success(Outputs(Plan(cfg, src)))
    }

    /** The effects of `run_single_file`: nothing for a missing file, otherwise the output
        directory's creation followed by the effects of every planned stage. */
    function SingleFileEffects(cfg: Config, inputPath: Path): seq<Effect>
      requires Valid()
    {
      var src := resolve(inputPath);
      if src !in regularFiles then [] else [MakeDir(OutputDir(src))] + EffectsOf([], Plan(cfg, src), cfg.dryRun)
    }

    /** The state `run_single_file` holds after its first `k` stage blocks: the paths it
        has collected, its current input and output paths, and the effects since `start`. */
    ghost predicate After(cfg: Config, src: Path, start: seq<Effect>, k: nat,
                          files: seq<Path>, input: Path, output: Path)
      requires k <= |Stages| && IsComponent(Name(src))
      reads this
    {
      var p := PlanUpTo(cfg, src, k);
      files == Outputs(p) && input == CurrentInput(src, p) && output == CurrentOutput(src, p)
      && effects == EffectsOf(start, p, cfg.dryRun)
    }

    /** One `if <flag>:` block of `run_single_file`: when the stage is enabled, re-tag the
        current output path, run the stage's wrapper from the current input to it, record
        the output and make it the current input. Only the speech stage can fail. */
    method StageBlock(ghost cfg: Config, ghost src: Path, ghost start: seq<Effect>, ghost k: nat,
                      s: Stage, run: bool, dryRun: bool, files: seq<Path>, input: Path, output: Path)
      returns (files': seq<Path>, input': Path, output': Path, r: Outcome<RunError>)
      requires k < |Stages| && s == Stages[k] && IsComponent(Name(src))
      requires run == Enabled(cfg, s) && dryRun == cfg.dryRun
      requires After(cfg, src, start, k, files, input, output)
      modifies this
      ensures After(cfg, src, start, k + 1, files', input', output')
      ensures r.Fail? <==> s == SpeechCut && CutFailsIn(cfg, src)
      ensures r.Fail? ==> r.error == CutFailed(StageOutput(src, SpeechCut))
    {
      files', input', output', r := files, input, output, Pass;
      NextOutput(cfg, src, k, s);
      PlanStep(cfg, src, k);
      if s == SpeechCut {
        SpeechCutIsLast(k);
      }
      if run {
        output' := WithStem(output, Tag(s));
        EffectsOfSnoc(start, PlanUpTo(cfg, src, k), Step(s, input, output'), dryRun);
        r := RunStage(s, input, output', dryRun);
        files' := files + [output'];
        input' := output';
      }
    }

    /** The body of one enabled stage block: the stage's wrapper from `input` to `output`.
        The speech stage writes its audio track beside its input and then cuts; only
        that cut can fail. */
    method RunStage(s: Stage, input: Path, output: Path, dryRun: bool) returns (r: Outcome<RunError>)
      requires Name(input) != ""
      modifies this
      ensures effects == AppendStep(old(effects), Step(s, input, output), dryRun)
      ensures r.Fail? <==> s == SpeechCut && SmartCutFails(input, output, SpeechSpans(input, dryRun), dryRun)
      ensures r.Fail? ==> r.error == CutFailed(output)
    {
      r := Pass;
      match s
      case FixCodecs =>
        var _ := FfmpegFixCodecs(input, output, dryRun);
      case Normalize =>
        var _ := FfmpegAudioNormalization(input, output, dryRun := dryRun);
      case AudioCut =>
        var _ := AutoEditorCutSilences(input, output, dryRun);
      case SpeechCut =>
        var speechTimestamps, _ := SileroGetSpeechPauses(input, WithName(input, "03_SILERO.wav"), dryRun);
        var cut := SmartcutCutBySecondTimestamps(input, output, speechTimestamps, dryRun);
        if cut.Failure? {
          r := Fail(cut.error);
        }
    }

    /** Two consecutive stage blocks, `k` and `k + 1`; the outcome is the second one's. */
    method TwoBlocks(ghost cfg: Config, ghost src: Path, ghost start: seq<Effect>, ghost k: nat,
                     s1: Stage, run1: bool, s2: Stage, run2: bool, dryRun: bool,
                     files: seq<Path>, input: Path, output: Path)
      returns (files': seq<Path>, input': Path, output': Path, r: Outcome<RunError>)
      requires k + 1 < |Stages| && s1 == Stages[k] && s2 == Stages[k + 1] && s1 != SpeechCut
      requires IsComponent(Name(src)) && dryRun == cfg.dryRun
      requires run1 == Enabled(cfg, s1) && run2 == Enabled(cfg, s2)
      requires After(cfg, src, start, k, files, input, output)
      modifies this
      ensures After(cfg, src, start, k + 2, files', input', output')
      ensures r.Fail? <==> s2 == SpeechCut && CutFailsIn(cfg, src)
      ensures r.Fail? ==> r.error == CutFailed(StageOutput(src, SpeechCut))
    {
      files', input', output', r := StageBlock(cfg, src, start, k, s1, run1, dryRun, files, input, output);
      files', input', output', r := StageBlock(cfg, src, start, k + 1, s2, run2, dryRun, files', input', output');
    }

    /** The four stage blocks of `run_single_file`, in order, from the source file and its
        first output path. */
    method RunStages(ghost cfg: Config, ghost src: Path, ghost start: seq<Effect>,
                     dryRun: bool, normalizeAudio: bool, cutAudioSilences: bool,
                     cutSpeechSilences: bool, fixCodecs: bool, input: Path, output: Path)
      returns (files: seq<Path>, stage: Outcome<RunError>)
      requires IsComponent(Name(src))
      requires cfg == Config(dryRun, normalizeAudio, cutAudioSilences, cutSpeechSilences, fixCodecs)
      requires After(cfg, src, start, 0, [], input, output)
      modifies this
      ensures files == Outputs(Plan(cfg, src)) && effects == EffectsOf(start, Plan(cfg, src), dryRun)
      ensures stage.Fail? <==> CutFailsIn(cfg, src)
      ensures stage.Fail? ==> stage.error == CutFailed(StageOutput(src, SpeechCut))
    {
      var currentInput, currentOutput;
      // The stage index of the first block, written relative to |Stages| (which is 4) so
      // that the verifier does not unfold the plan for every literal index.
      ghost var k := |Stages| - 4;
      files, currentInput, currentOutput, stage :=
        TwoBlocks(cfg, src, start, k, FixCodecs, fixCodecs, Normalize, normalizeAudio, dryRun, [], input, output);
      files, currentInput, currentOutput, stage :=
        TwoBlocks(cfg, src, start, k + 2, AudioCut, cutAudioSilences, SpeechCut, cutSpeechSilences, dryRun,
                  files, currentInput, currentOutput);
    }

    /** For an existing file, `run_single_file`'s result and effects follow from the
        outcome and effects of its stage blocks. */
    lemma SingleFileFound(cfg: Config, inputPath: Path, log: seq<Effect>, files: seq<Path>, log': seq<Effect>)
      requires Valid() && resolve(inputPath) in regularFiles
      requires var src := resolve(inputPath);
        files == Outputs(Plan(cfg, src))
        && log' == EffectsOf(log + [MakeDir(OutputDir(src))], Plan(cfg, src), cfg.dryRun)
      ensures var src := resolve(inputPath);
        SingleFile(cfg, inputPath)
          == (if CutFailsIn(cfg, src) then Failure(CutFailed(StageOutput(src, SpeechCut))) else Success(files))
      ensures log' == log + SingleFileEffects(cfg, inputPath)
    {
      var src := resolve(inputPath);
      var e := EffectsOf([], Plan(cfg, src), cfg.dryRun);
      EffectsOfPrefix(log + [MakeDir(OutputDir(src))], Plan(cfg, src), cfg.dryRun);
      assert (log + [MakeDir(OutputDir(src))]) + e == log + ([MakeDir(OutputDir(src))] + e);
    }

    method RunSingleFile(inputPath: Path, dryRun: bool := false, normalizeAudio: bool := true,
                         cutAudioSilences: bool := true, cutSpeechSilences: bool := true,
                         fixCodecs: bool := true) returns (r: Result<seq<Path>, RunError>)
      requires Valid()
      modifies this
      ensures var cfg := Config(dryRun, normalizeAudio, cutAudioSilences, cutSpeechSilences, fixCodecs);
        r == SingleFile(cfg, inputPath) && effects == old(effects) + SingleFileEffects(cfg, inputPath)
    {
      ghost var cfg := Config(dryRun, normalizeAudio, cutAudioSilences, cutSpeechSilences, fixCodecs);
      var inPath := resolve(inputPath);
      if inPath !in regularFiles {
        return Failure(FileNotFound(inPath));
      }
      var outputDir := OutputDir(inPath);
      effects := effects + [MakeDir(outputDir)];
      ghost var start := effects;
      var filesProcessed, stage := RunStages(cfg, inPath, start, dryRun, normalizeAudio, cutAudioSilences,
                                             cutSpeechSilences, fixCodecs, inPath, JoinPath(outputDir, Name(inPath)));
      SingleFileFound(cfg, inputPath, old(effects), filesProcessed, effects);
      if stage.Fail? {
        return Failure(stage.error);
      }
      return Success(filesProcessed);
    }

    // ---------------------------------------------------------------- run_many_files

    /** What `run_single_file` would return and do for each of the given files, in order. */
    function RunsOf(cfg: Config, files: seq<Path>): (runs: seq<SingleRun>)
      requires Valid()
      ensures |runs| == |files|
    {
      if |files| == 0 then []
      else
        var f := files[|files| - 1];
        RunsOf(cfg, files[..|files| - 1]) + [SingleRun(SingleFile(cfg, f), SingleFileEffects(cfg, f))]
    }

    lemma {:induction false} RunsOfAt(cfg: Config, files: seq<Path>, i: nat)
      requires Valid() && i < |files|
      ensures RunsOf(cfg, files)[i] == SingleRun(SingleFile(cfg, files[i]), SingleFileEffects(cfg, files[i]))
    {
      if i < |files| - 1 {
        RunsOfAt(cfg, files[..|files| - 1], i);
      }
    }

    /** What `run_many_files` ends with: NotADirectoryError, carrying the path as given,
        when the resolved path is not a directory; otherwise the first exception of a
        single-file run, if any. */
    function ManyFiles(cfg: Config, inputPath: Path): Outcome<RunError>
      requires Valid()
    {
      var dir := resolve(inputPath);
      if dir !in directories then Fail(NotADirectory(inputPath))
      else
        var b := Batch(RunsOf(cfg, listing(dir)), listing(dir));
        if b.failed.Some? then Fail(b.failed.value) else Pass
    }

    /** The effects of `run_many_files`: those of every single-file run it starts. */
    function ManyFilesEffects(cfg: Config, inputPath: Path): seq<Effect>
      requires Valid()
    {
      var dir := resolve(inputPath);
      if dir !in directories then [] else Batch(RunsOf(cfg, listing(dir)), listing(dir)).effects
    }

    /** For a directory, `run_many_files`' outcome and effects are those of the batch loop
        over its listing. */
    lemma ManyFilesFound(cfg: Config, inputPath: Path, log: seq<Effect>, b: BatchState, log': seq<Effect>)
      requires Valid() && resolve(inputPath) in directories
      requires b == Batch(RunsOf(cfg, listing(resolve(inputPath))), listing(resolve(inputPath)))
      requires log' == log + b.effects
      ensures ManyFiles(cfg, inputPath) == if b.failed.Some? then Fail(b.failed.value) else Pass
      ensures log' == log + ManyFilesEffects(cfg, inputPath)
    {
    }

    /** The loop body's call `files_processed += run_single_file(...)` for an admitted file. */
    method RunAdmitted(ghost cfg: Config, ghost start: seq<Effect>, ghost runs: seq<SingleRun>,
                       ghost files: seq<Path>, ghost i: nat,
                       file: Path, dryRun: bool, normalizeAudio: bool, cutAudioSilences: bool,
                       cutSpeechSilences: bool, fixCodecs: bool, filesProcessed: seq<Path>)
      returns (processed: seq<Path>, stop: Option<RunError>)
      requires Valid() && i < |files| && file == files[i] && runs == RunsOf(cfg, files)
      requires cfg == Config(dryRun, normalizeAudio, cutAudioSilences, cutSpeechSilences, fixCodecs)
      requires BatchUpTo(runs, files, i).failed.None? && Admits(file, BatchUpTo(runs, files, i).processed)
      requires filesProcessed == BatchUpTo(runs, files, i).processed
      requires effects == start + BatchUpTo(runs, files, i).effects
      modifies this
      ensures stop == BatchUpTo(runs, files, i + 1).failed
      ensures stop.None? ==> processed == BatchUpTo(runs, files, i + 1).processed
      ensures effects == start + BatchUpTo(runs, files, i + 1).effects
    {
      var res := RunSingleFile(file, dryRun, normalizeAudio, cutAudioSilences, cutSpeechSilences, fixCodecs);
      RunsOfAt(cfg, files, i);
      AppendAssoc(start, BatchUpTo(runs, files, i).effects, runs[i].effects);
      if res.Failure? {
        return filesProcessed, Some(res.error);
      }
      processed, stop := filesProcessed + res.value, None;
    }

    /** The `for file in files:` loop of `run_many_files`. */
    method BatchLoop(ghost cfg: Config, ghost runs: seq<SingleRun>, files: seq<Path>, dryRun: bool,
                     normalizeAudio: bool, cutAudioSilences: bool, cutSpeechSilences: bool,
                     fixCodecs: bool)
      returns (r: Outcome<RunError>)
      requires Valid() && runs == RunsOf(cfg, files)
      requires cfg == Config(dryRun, normalizeAudio, cutAudioSilences, cutSpeechSilences, fixCodecs)
      modifies this
      ensures effects == old(effects) + Batch(runs, files).effects
      ensures r == if Batch(runs, files).failed.Some? then Fail(Batch(runs, files).failed.value) else Pass
    {
      var filesProcessed: seq<Path> := [];
      for i := 0 to |files|
        invariant BatchUpTo(runs, files, i).failed.None?
        invariant filesProcessed == BatchUpTo(runs, files, i).processed
        invariant effects == old(effects) + BatchUpTo(runs, files, i).effects
      {
        var file := files[i];
        if file in filesProcessed {
          continue;
        }
        if !ListedIn(Suffix(file), AllowedExtensions) {
          continue;
        }
        var stop;
        filesProcessed, stop := RunAdmitted(cfg, old(effects), runs, files, i, file, dryRun, normalizeAudio,
                                            cutAudioSilences, cutSpeechSilences, fixCodecs, filesProcessed);
        if stop.Some? {
          FailureSticks(runs, files, i + 1, |files|);
          return Fail(stop.value);
        }
      }
      return Pass;
    }

    method RunManyFiles(inputPath: Path, dryRun: bool := false, normalizeAudio: bool := true,
                        cutAudioSilences: bool := true, cutSpeechSilences: bool := true,
                        fixCodecs: bool := true) returns (r: Outcome<RunError>)
      requires Valid()
      modifies this
      ensures var cfg := Config(dryRun, normalizeAudio, cutAudioSilences, cutSpeechSilences, fixCodecs);
        r == ManyFiles(cfg, inputPath) && effects == old(effects) + ManyFilesEffects(cfg, inputPath)
    {
      ghost var cfg := Config(dryRun, normalizeAudio, cutAudioSilences, cutSpeechSilences, fixCodecs);
      var inPath := resolve(inputPath);
      if inPath !in directories {
        assert effects == old(effects) + [];
        return Fail(NotADirectory(inputPath));
      }
      var files := listing(inPath);
      ghost var runs := RunsOf(cfg, files);
      r := BatchLoop(cfg, runs, files, dryRun, normalizeAudio, cutAudioSilences, cutSpeechSilences, fixCodecs);
      ManyFilesFound(cfg, inputPath, old(effects), Batch(runs, files), effects);
    }

    // ---------------------------------------------------------------- batch and dry-run properties

    /** The paths a successful run of a file returns: the planned outputs of the file
        it resolves to (no paths for a file that does not exist, whose run fails). */
    function PlannedOutputs(cfg: Config): (planned: Path -> seq<Path>)
      ensures forall f :: resolve(f) !in regularFiles ==> planned(f) == []
      ensures forall f :: (resolve(f) in regularFiles && IsComponent(Name(resolve(f)))) ==>
                            planned(f) == Outputs(Plan(cfg, resolve(f)))
    {
      f => if resolve(f) in regularFiles && IsComponent(Name(resolve(f))) then Outputs(Plan(cfg, resolve(f))) else []
    }

    lemma RunsOfReturnPlanned(cfg: Config, files: seq<Path>)
      requires Valid()
      ensures ReturnsPlanned(PlannedOutputs(cfg), RunsOf(cfg, files), files)
    {
      forall i | 0 <= i < |files| {
        RunsOfAt(cfg, files, i);
      }
    }

    /** Over the listing of `run_many_files`: while no run has failed, `files_processed`
        is the planned outputs of the files handed on, and no file is handed on that a run
        before it returned. */
    lemma ManyFilesPlanned(cfg: Config, files: seq<Path>)
      requires Valid()
      ensures PlannedSoFar(PlannedOutputs(cfg), Batch(RunsOf(cfg, files), files))
    {
      RunsOfReturnPlanned(cfg, files);
      BatchPlanned(PlannedOutputs(cfg), RunsOf(cfg, files), files, |files|);
    }

    /** A dry run never fails in the cut: a regular file yields its planned outputs. */
    lemma DryRunSucceeds(cfg: Config, inputPath: Path)
      requires Valid() && cfg.dryRun
      ensures var src := resolve(inputPath);
        SingleFile(cfg, inputPath)
          == if src in regularFiles then Success(Outputs(Plan(cfg, src))) else Failure(FileNotFound(src))
    {
    }

    /** A dry run previews the paths: whenever a real run succeeds, the dry run with the
        same stage flags returns the same paths. */
    lemma DryRunPreviewsOutputs(cfg: Config, inputPath: Path)
      requires Valid() && !cfg.dryRun && SingleFile(cfg, inputPath).Success?
      ensures SingleFile(cfg.(dryRun := true), inputPath) == SingleFile(cfg, inputPath)
    {
      PlanIgnoresDryRun(cfg, resolve(inputPath), |Stages|);
    }

    /** What a dry run still does: create directories and run analysing first passes. */
    predicate DryEffect(e: Effect)
    {
      e.MakeDir? || e.RunCaptured?
    }

    lemma {:induction false} DryEffectsOf(log: seq<Effect>, steps: seq<Step>)
      requires forall e :: e in log ==> DryEffect(e)
      ensures forall e :: e in EffectsOf(log, steps, true) ==> DryEffect(e)
    {
      if |steps| > 0 {
        DryEffectsOf(log, steps[..|steps| - 1]);
        var st := steps[|steps| - 1];
        var before := EffectsOf(log, steps[..|steps| - 1], true);
        AppendStepAppends(before, st, true);
        var added := AppendStep([], st, true);
        assert forall e :: e in added ==> DryEffect(e);
        assert forall e :: e in before + added ==> e in before || e in added;
      }
    }

    /** A dry run only creates the output directory and runs loudness analyses. */
    lemma DryRunEffects(cfg: Config, inputPath: Path)
      requires Valid() && cfg.dryRun
      ensures forall e :: e in SingleFileEffects(cfg, inputPath) ==> DryEffect(e)
    {
      var src := resolve(inputPath);
      if src in regularFiles {
        var mk := [MakeDir(OutputDir(src))];
        DryEffectsOf(mk, Plan(cfg, src));
        EffectsOfPrefix(mk, Plan(cfg, src), true);
      }
    }

    /** With every stage switched off a run only creates the output directory and returns
        no paths. */
    lemma NothingEnabled(cfg: Config, inputPath: Path)
      requires Valid() && FlagCount(cfg) == 0 && resolve(inputPath) in regularFiles
      ensures SingleFile(cfg, inputPath) == Success([])
      ensures SingleFileEffects(cfg, inputPath) == [MakeDir(OutputDir(resolve(inputPath)))]
    {
      PlanLength(cfg, resolve(inputPath));
    }
  }
}
