# aivideocut silence-removal pipeline and prompt builders, in Dafny

This project models two parts of `aivideocut`.

**The silence-removal pipeline of `sil2.py`.** `run_single_file` takes one video through up to four stages, each behind a flag:

1. codec fix (ffmpeg);
2. two-pass loudness normalisation (ffmpeg `loudnorm`);
3. a coarse silence cut (auto-editor);
4. a speech cut (Silero VAD timestamps fed to smartcut).

Each enabled stage writes a file named by a fixed tag (`00_FIX_CODECS`, `01_NORMALIZED`, `02_AE_CUT`, `04_FINAL`). That file lies in a directory beside the source called `<stem>_<ext>`. It becomes the next stage's input. `run_many_files` walks a directory listing and hands every video with an allowed extension, not yet among the paths returned so far, to `run_single_file`. The pure parts are modelled as functions:

- the argument lists handed to ffmpeg and auto-editor;
- `join`;
- `get_ffmpeg_cmd`;
- `create_in_out_paths`;
- the smartcut keep-list.

The orchestrators are methods of a `Host` class. Its constant fields stand for the file system, the external programs and the numeric libraries. One mutable field logs every external call (directory creation, process runs, speech detection, smart cuts). Each method is proved against a function that gives its result and the log it must leave. The properties the pipeline promises are lemmas about those functions:

- one output per enabled stage, in stage order, all in the output directory, all keeping the source's suffix;
- pass-through of the current input;
- where the VAD track lands;
- no stage overwrites the source or another stage;
- the dry-run preview;
- what the batch loop hands on.

**The prompt builders of `gem_prompts.py`.** Each builder concatenates fixed instruction blocks, an optional labelled context and the payload. The model states, for all six builders:

- the segment layout;
- the no-context form;
- the context wrapper;
- that the prompt ends with the payload;
- that the payload is recoverable, so the map from payload to prompt is injective;
- that the context is recoverable, except for the chapters builder, whose context block is dedented.

Paths follow Python 3.12's POSIX `pathlib`. A path is an absolute flag plus its components. `suffix` is the text from the last dot when that dot is neither the name's first nor its last character. `with_stem(s)` is `with_name(s + suffix)`. The suffix is therefore derived from the name rather than stored separately. This is what makes "every output keeps the source's extension" a proved statement instead of a definition.

Files:

- `wrappers.dfy`: `Option`, `Result`, `Outcome`.
- `strings.dfy`: `str.join` and `str.split` with a one-character separator, and the round trip from a join back to its parts.
- `paths.dfy`: the `pathlib` subset.
- `commands.dfy`: `join`, `get_ffmpeg_cmd`, the argument lists and the keep-list.
- `planner.dfy`: which stages run, and which paths they read and write.
- `pipeline.dfy`: the stage wrappers, `run_single_file` and `run_many_files`.
- `prompts.dfy`: the six prompt builders.

Where the code and a plain reading of the pipeline's intent differ, the model follows the code:

- `ffmpeg_audio_normalization` returns its output path even when the first pass reports no loudnorm block. In that case nothing is written to that path (`sil2.py:179`).
- A dry run is not free of effects. `run_single_file` still creates the output directory (`sil2.py:397`). The measuring loudnorm pass still runs (`sil2.py:125-130`). `Pipeline.Host.DryRunEffects` states exactly this.
- `run_many_files` returns `None`. It is modelled as an `Outcome` that carries the first exception a single-file run raised. Its effect log carries the rest.

## Model

| member | source | states |
|---|---|---|
| Commands.Join | src/aivideocut/sil2.py:59-60 | the printed command line starts with the first argument's text and ends with the last one's |
| Commands.JoinReadsBack | src/aivideocut/sil2.py:59-60 | the printed command line splits on spaces back into the rendered arguments when no argument holds a space |
| Commands.GetFfmpegCmd | src/aivideocut/sil2.py:63-64 | five arguments starting with `ffmpeg`, and the value read for `-loglevel` is the requested level |
| Commands.FfmpegCmdDistinguishesLevels | src/aivideocut/sil2.py:63-64 | distinct log levels give distinct prefixes |
| Commands.FixCodecsArgv | src/aivideocut/sil2.py:70-80 | 22 arguments: the info-level ffmpeg prefix, `-i` reads the input, and the output path is last |
| Commands.FixCodecsEncodes | src/aivideocut/sil2.py:73-80 | on the whole re-encode command: `-c:v` reads libx264, `-crf` 13, `-preset` fast, `-c:a` aac, `-b:a` 512k, `-movflags` +faststart and `-fflags` +genpts |
| Commands.FixCodecsSettings | src/aivideocut/sil2.py:76-78 | libx264 at crf 13 with the fast preset, AAC at 512k, `-movflags +faststart -fflags +genpts` as the last four, and no `-i` among the settings |
| Commands.FixCodecsSettingsContainer | src/aivideocut/sil2.py:78 | `-movflags` reads +faststart and `-fflags` reads +genpts in the settings list |
| Commands.FirstPassFilter | src/aivideocut/sil2.py:114 | the measuring filter string is a `loudnorm=` filter |
| Commands.FirstPassFilterFields | src/aivideocut/sil2.py:114 | split on ':', the filter gives back exactly the I, TP and LRA targets and the json print format, in that order |
| Commands.FirstPassArgv | src/aivideocut/sil2.py:107-117 | 18 arguments: ffmpeg prefix, `-i` reads the input, `-af` reads the measuring filter, `-f` reads `null`, ending with `-` |
| Commands.FirstPassSettings | src/aivideocut/sil2.py:111-116 | copies the video, filters the audio through the measuring filter, muxes to `null` and writes to `-` |
| Commands.FirstPassReadsSettings | src/aivideocut/sil2.py:108-116 | the ffmpeg prefix and input in front of the settings change neither the filter nor the format read |
| Commands.SecondPassFilter | src/aivideocut/sil2.py:155-158 | the correcting filter string is a `loudnorm=` filter |
| Commands.SecondPassFilterFields | src/aivideocut/sil2.py:155-158 | split on ':', the filter gives back the three targets and the five measured statistics, each under its own key, then `linear=true` and the summary format |
| Commands.SecondPassArgv | src/aivideocut/sil2.py:149-163 | 17 arguments: ffmpeg prefix, `-i` reads the input, `-af` reads the correcting filter, and it ends with the output path and `-y` |
| Commands.SecondPassEncodes | src/aivideocut/sil2.py:149-160 | on the whole correcting command: `-c:v` reads copy, `-c:a` aac and `-b:a` 512k |
| Commands.SecondPassSettings | src/aivideocut/sil2.py:152-160 | copies the video, applies the correcting filter, encodes AAC at 512k |
| Commands.CopyVideoFiltered | src/aivideocut/sil2.py:152-153 | `-c:v` reads `copy` and `-af` reads the given filter |
| Commands.AutoEditorBin | src/aivideocut/sil2.py:186 | the binary is `auto-editor`, five components below ROOT_DIR |
| Commands.AutoEditorCommand | src/aivideocut/sil2.py:189 | the rendered binary path ends in `/auto-editor` and has more than 11 characters, so it is none of the flags that follow it (the longest, `--faststart`, has 11) |
| Commands.AutoEditorArgv | src/aivideocut/sil2.py:187-206 | 28 arguments: the binary first, the input as the positional argument at index 5, and the two `--add-in` keeps (`0,2sec` and `-2sec,end`) as the last four |
| Commands.AutoEditorEncodes | src/aivideocut/sil2.py:195-196 | on the whole auto-editor command: `-c:v` reads libx264, `-b:v` 16M, `-profile:v` high, `-c:a` aac and `-b:a` 512k |
| Commands.AutoEditorOptions | src/aivideocut/sil2.py:191-194 | auto-editor reads the threshold edit under `--edit`, the margins under `--margin` and the output under `-o` |
| Commands.AutoEditorSettings | src/aivideocut/sil2.py:195-203 | libx264 at 16M with the high profile, AAC at 512k, and the first and last two seconds always kept, as the last four arguments |
| Commands.AutoEditorCodecs | src/aivideocut/sil2.py:195-196 | `-c:v` reads libx264, `-b:v` 16M, `-profile:v` high, `-c:a` aac and `-b:a` 512k |
| Commands.WavArgv | src/aivideocut/sil2.py:222-228 | 9 arguments: the warning-level ffmpeg prefix, `-i` reads the input, then the wav path and `-y` |
| Commands.Argv | src/aivideocut/sil2.py:67-228 | every ffmpeg command starts with `ffmpeg` and reads its input from `-i`; auto-editor starts with its binary and takes the input positionally |
| Commands.SpanTexts | src/aivideocut/sil2.py:278-280 | one entry per span, in order: the i-th is the rendered start, a comma and the rendered end of the i-th span |
| Commands.KeepList | src/aivideocut/sil2.py:278-280 | an empty span list serialises to the empty string |
| Commands.KeepListIsJoinOfBounds | src/aivideocut/sil2.py:278-280 | the keep-list equals the comma-join of the flattened bounds start0, end0, start1, end1, ... |
| Commands.KeepListReadsBack | src/aivideocut/sil2.py:278-280 | when no number rendering holds a comma, the keep-list splits back into the bounds in input order |
| Strings.SplitJoin | src/aivideocut/sil2.py:278-280 | splitting a join of separator-free parts returns the parts |
| PurePaths.JoinPath | src/aivideocut/sil2.py:396 | `p / s` has parent `p` and name `s` |
| PurePaths.LastDotIsLast | src/aivideocut/sil2.py:359 | the index found holds a dot and no dot follows it |
| PurePaths.SuffixIsSlice | src/aivideocut/sil2.py:359 | the suffix is the slice from the last dot, when the name has one |
| PurePaths.StemSuffixSplit | src/aivideocut/sil2.py:358-359 | stem and suffix concatenate to the name, and a suffix is empty or a dot followed by non-dot characters |
| PurePaths.Render | src/aivideocut/sil2.py:189 | `str(p)` of a root path starts with `/`, and a path with a parent ends with `/` and its name |
| PurePaths.WithStem | src/aivideocut/sil2.py:403-439 | `with_stem(s)` keeps the parent and the root flag and names the file `s` followed by the old suffix |
| PurePaths.WithName | src/aivideocut/sil2.py:362 | `with_name` keeps the parent and the root flag and sets the name |
| PurePaths.WithStemTag | src/aivideocut/sil2.py:403 | `with_stem(tag)` keeps the directory and the suffix and makes the tag the stem |
| PurePaths.WithStemTwice | src/aivideocut/sil2.py:403-439 | re-tagging forgets the earlier tag: `p.with_stem(a).with_stem(b) == p.with_stem(b)` |
| PurePaths.TagThenSuffix | src/aivideocut/sil2.py:403 | a tag followed by a name's suffix is a name whose stem is the tag and whose suffix is that suffix |
| PurePaths.NameFromPieces | src/aivideocut/sil2.py:361 | stem, middle and suffix form a component whose suffix is that suffix and whose stem is the rest |
| Pipeline.OutNameSplits | src/aivideocut/sil2.py:361-362 | the output name is a component that pathlib splits into the chosen extension and `stem + sep + suffix` |
| Pipeline.Host.CreateInOutPaths | src/aivideocut/sil2.py:353-373 | fails exactly when pathlib's `with_name` would raise, naming the input path when it has no name and the refused name otherwise; otherwise the input is resolved, both directories are its parent, the output name is stem + sep + suffix + extension (the new one if given, else the input's) and the output is its sibling |
| Pipeline.Host.CreateInOutPathsExtension | src/aivideocut/sil2.py:358-362 | when the input has a name, `sep + suffix` holds no `/`, a new extension is a dot followed by non-dot characters and no `/`, and (when no new extension is given) the input has a suffix: the output's suffix is the chosen extension (the input's own when none is given) and its stem is the input stem, sep and suffix |
| Pipeline.Host.constructor | src/aivideocut/sil2.py:376-397 | a host with the given file system and tools and an empty effect log |
| Pipeline.Host.FfmpegFixCodecs | src/aivideocut/sil2.py:67-94 | returns the output path; runs the re-encode unless dry |
| Pipeline.Host.NormalizationEffects | src/aivideocut/sil2.py:125-179 | the measuring pass always runs, dry or not; the second pass runs exactly when a loudnorm block was found and the run is not dry, and it carries the measured statistics |
| Pipeline.Host.FfmpegAudioNormalization | src/aivideocut/sil2.py:97-179 | returns the output path on every branch, including no loudnorm block; its effects are those above |
| Pipeline.Host.AutoEditorCutSilences | src/aivideocut/sil2.py:182-216 | returns the output path; runs auto-editor unless dry |
| Pipeline.Host.SileroGetSpeechPauses | src/aivideocut/sil2.py:219-268 | returns the wav path and, in a dry run, no spans and no effects; otherwise extracts the wav, runs the detector on it and returns the adjusted spans |
| Pipeline.Host.SmartcutCutBySecondTimestamps | src/aivideocut/sil2.py:271-325 | a dry run returns the output path untouched; otherwise one cut over the serialised keep-list, and a returned exception is raised instead of returning the path |
| Pipeline.Host.StageBlock | src/aivideocut/sil2.py:402-454 | one `if <flag>:` block advances the run from the planned state after k stages to the planned state after k + 1; only the speech block can fail |
| Pipeline.Host.RunStage | src/aivideocut/sil2.py:405-451 | an enabled stage's wrapper calls append that stage's effects; the speech stage's VAD track is its input's sibling `03_SILERO.wav`; only its cut can fail |
| Pipeline.Host.TwoBlocks | src/aivideocut/sil2.py:402-454 | two consecutive blocks advance the planned state by two stages |
| Pipeline.Host.RunStages | src/aivideocut/sil2.py:399-454 | the four blocks collect exactly the planned outputs and leave exactly the planned effects; they fail exactly when the speech cut fails |
| Pipeline.Host.SingleFileFound | src/aivideocut/sil2.py:387-456 | for a regular file, the result and the log follow from the stage blocks and the directory creation before them |
| Pipeline.Host.RunSingleFile | src/aivideocut/sil2.py:376-456 | FileNotFoundError with no effect for a path that is not a regular file; otherwise mkdir, then the planned stages, returning the planned outputs or the cut's exception |
| Pipeline.Host.EffectsOfPrefix | src/aivideocut/sil2.py:402-454 | running stages only appends to the effect log |
| Pipeline.Host.RunsOf | src/aivideocut/sil2.py:489-496 | one single-file run per listed file |
| Pipeline.Host.RunsOfAt | src/aivideocut/sil2.py:489-496 | the i-th run is `run_single_file` of the i-th listed file |
| Pipeline.Host.ManyFilesFound | src/aivideocut/sil2.py:476-496 | for a directory, the outcome and effects are those of the batch loop over its listing |
| Pipeline.Host.RunAdmitted | src/aivideocut/sil2.py:488-496 | `files_processed += run_single_file(...)` performs exactly one batch step: it either stops with the run's exception or extends the processed paths by the run's result |
| Pipeline.Host.BatchLoop | src/aivideocut/sil2.py:477-496 | the loop leaves the batch's effects and ends with its first exception, or passes |
| Pipeline.Host.RunManyFiles | src/aivideocut/sil2.py:459-496 | NotADirectoryError (with the path as given) and no effect when the resolved path is not a directory; otherwise the batch over the listing |
| Pipeline.Host.PlannedOutputs | src/aivideocut/sil2.py:386-456 | what a successful run of a file returns: its planned outputs, none for a missing file |
| Pipeline.Host.RunsOfReturnPlanned | src/aivideocut/sil2.py:489-496 | every successful single-file run of the listing returns its file's planned outputs |
| Pipeline.Host.ManyFilesPlanned | src/aivideocut/sil2.py:477-496 | over a listing, no file is handed on that an earlier handed-on file planned as output, and until a run raises, `files_processed` is the planned outputs of the files handed on, in order |
| Pipeline.Host.DryRunSucceeds | src/aivideocut/sil2.py:281-282 | a dry run never fails in the cut: a regular file yields its planned outputs |
| Pipeline.Host.DryRunPreviewsOutputs | src/aivideocut/sil2.py:376-456 | whenever a real run succeeds, the dry run with the same flags returns the same paths |
| Pipeline.Host.DryEffectsOf | src/aivideocut/sil2.py:89-90 | dry stages add only directory creations and measuring passes to the log |
| Pipeline.Host.DryRunEffects | src/aivideocut/sil2.py:397 | a dry run only creates the output directory and runs loudness measuring passes |
| Pipeline.Host.NothingEnabled | src/aivideocut/sil2.py:386-456 | with every flag off, a regular file gives an empty list and only the directory creation |
| Pipeline.Next | src/aivideocut/sil2.py:477-496 | one loop iteration: skip a returned or disallowed file, otherwise hand it on and add its run's paths or stop at its exception (definition; its properties are the batch lemmas below) |
| Pipeline.BatchUpTo | src/aivideocut/sil2.py:471-496 | the loop state after the first k listed files (definition; see the batch lemmas) |
| Pipeline.BatchStepAccepts | src/aivideocut/sil2.py:477-496 | an iteration hands its file on if and only if no run has raised, the file is not among the paths returned so far and its suffix is `.mp4`, `.mov` or `.mkv`; otherwise it hands nothing on |
| Pipeline.BatchAcceptsInOrder | src/aivideocut/sil2.py:477-496 | the files handed on are picked from the listing at strictly increasing indices, so they are taken in listing order |
| Pipeline.HandedOnExactly | src/aivideocut/sil2.py:477-496 | the picked indices are exactly those of the listed files that meet that condition |
| Pipeline.FailureSticks | src/aivideocut/sil2.py:489-496 | once a single-file run has raised, later listed files change nothing |
| Pipeline.BatchAcceptsAllowed | src/aivideocut/sil2.py:484-486 | every file handed to `run_single_file` has a suffix in `.mp4`, `.mov`, `.mkv` (the converse, that every such unreturned file is handed on while no run has raised, is `BatchStepAccepts`) |
| Pipeline.BatchAcceptsListed | src/aivideocut/sil2.py:476-477 | every file handed on comes from the listing |
| Pipeline.NextKeepsPlanned | src/aivideocut/sil2.py:478-496 | one loop iteration keeps the batch invariant when the run it starts returns its file's planned outputs |
| Pipeline.BatchPlanned | src/aivideocut/sil2.py:477-496 | the batch invariant holds after every prefix of the listing |
| Planner.Tag | src/aivideocut/sil2.py:403-439 | every stage tag is a dot-free component |
| Planner.TagsDiffer | src/aivideocut/sil2.py:403-439 | distinct stages have distinct tags |
| Planner.OutputDir | src/aivideocut/sil2.py:392-396 | the output directory is a child of the source's parent named `<stem>_<suffix without dot>` |
| Planner.OutputDirNameIsComponent | src/aivideocut/sil2.py:396 | that name is a single component |
| Planner.StageOutput | src/aivideocut/sil2.py:400-439 | the file a stage writes: the first output path `output_dir / source_filename` with its stem replaced by the stage's tag (definition; its shape is `StageOutputShape`) |
| Planner.PlanUpTo | src/aivideocut/sil2.py:399-454 | the steps of the first k stage blocks, each reading the current input (definition; `PlanStep`, `PlanChain` and `PlanStages` state what it does) |
| Planner.StageOutputShape | src/aivideocut/sil2.py:400-439 | each stage output lies in the output directory, has the stage tag as stem and keeps the source's suffix |
| Planner.VadTrack | src/aivideocut/sil2.py:443 | the VAD track is the current input's sibling named `03_SILERO.wav` |
| Planner.NextOutput | src/aivideocut/sil2.py:400-439 | re-tagging the current output with a stage's tag gives that stage's planned output, whatever ran before |
| Planner.InputNamed | src/aivideocut/sil2.py:399-454 | the current input always has a genuine name |
| Planner.PlanStep | src/aivideocut/sil2.py:402-454 | a disabled block changes nothing; an enabled one appends its output, which becomes both the current input and the current output |
| Planner.PlanStages | src/aivideocut/sil2.py:402-454 | the stages that run are exactly the enabled ones, in stage order |
| Planner.PlanLength | src/aivideocut/sil2.py:386-456 | one entry per true flag, and none when every flag is false |
| Planner.PlanChain | src/aivideocut/sil2.py:399-454 | the first stage that runs reads the source, and each later one reads the previous running stage's output |
| Planner.PlanOutputs | src/aivideocut/sil2.py:402-453 | every planned step writes its stage's output |
| Planner.StagesInOrder | src/aivideocut/sil2.py:402-438 | the stage blocks come in increasing stage index |
| Planner.EnabledOrdered | src/aivideocut/sil2.py:402-438 | filtering by the flags keeps order and keeps only listed stages |
| Planner.PlanKeepsSource | src/aivideocut/sil2.py:396-453 | no stage's tagged output path is the source (the VAD track is covered by `Planner.VadTrackHitsSource`) |
| Planner.StageOutputsDiffer | src/aivideocut/sil2.py:403-439 | distinct stages write distinct files |
| Planner.PlanOutputsDistinct | src/aivideocut/sil2.py:402-453 | no stage writes over another stage's output |
| Planner.VadTrackHitsSource | src/aivideocut/sil2.py:438-445 | the VAD track is the source itself exactly when the source is named `03_SILERO.wav` and speech is the only stage; then the extraction's `-y` overwrites the source |
| Planner.VadTrackPlacement | src/aivideocut/sil2.py:438-445 | the VAD track lands in the source's directory when the speech stage is the only one, and in the output directory otherwise |
| Planner.PlanIgnoresDryRun | src/aivideocut/sil2.py:376-456 | the planned steps do not depend on the dry-run flag |
| Planner.ListedInMeansIn | src/aivideocut/sil2.py:470-484 | the allow-list scan accepts exactly the listed extensions |
| Prompts.WrapContext | src/aivideocut/gem_prompts.py:40-41 | an empty context stays empty; any other is the label, the context and the closing text |
| Prompts.ChaptersContext | src/aivideocut/gem_prompts.py:351-356 | an empty context adds nothing |
| Prompts.FixSrtPrompt | src/aivideocut/gem_prompts.py:5-60 | ends with the SRT text; with no context it is the instructions, the example, the ending line and the SRT text |
| Prompts.TranslateSrtPrompt | src/aivideocut/gem_prompts.py:63-136 | ends with the SRT text; with no context it is the instructions, the example, the ending line and the SRT text |
| Prompts.SummaryPrompt | src/aivideocut/gem_prompts.py:139-214 | ends with the chunk; with no context it is the instructions, the example, the ending line and the chunk |
| Prompts.YoutubeSeoPrompt | src/aivideocut/gem_prompts.py:217-308 | ends with the chunk; with no context it is the instructions, the example, the ending line and the chunk |
| Prompts.YoutubeChaptersPrompt | src/aivideocut/gem_prompts.py:311-362 | ends with the SRT text; with no context it is the instructions, the example, the ending block and the SRT text |
| Prompts.TechnicalExplanationPrompt | src/aivideocut/gem_prompts.py:365-409 | ends with the transcript; with no context it is the instructions, the ending line and the transcript, with no example |
| Prompts.Build | src/aivideocut/gem_prompts.py:58-409 | every builder's prompt ends with its payload |
| Prompts.Layout | src/aivideocut/gem_prompts.py:58-409 | every prompt is the builder's instructions, its context segment, its example and ending, then the payload |
| Prompts.NoContextLayout | src/aivideocut/gem_prompts.py:40-409 | with an empty context, the prompt is the constant segments and the payload only |
| Prompts.ContextLayout | src/aivideocut/gem_prompts.py:40-409 | with a context, every builder except chapters inserts `Contexto adicional: ` + context + its closing (newline, blank line, or blank line, rule and blank line) |
| Prompts.PromptIsPrefixPlusPayload | src/aivideocut/gem_prompts.py:58-409 | for a fixed builder and context, every prompt is one fixed prefix followed by the payload |
| Prompts.PayloadInjective | src/aivideocut/gem_prompts.py:58-409 | for a fixed builder and context, distinct payloads give distinct prompts |
| Prompts.WrapInjective | src/aivideocut/gem_prompts.py:40-41 | the wrapped context determines the context |
| Prompts.ContextDetermined | src/aivideocut/gem_prompts.py:40-409 | for every builder but chapters, the prompt determines the context that went into it |

## Left out

- `ajust_vad_speech_timestamps` and `SpeechTimestamps` live in `aivideocut/utils.py`, which is not part of this model. `Host.adjust` is an uninterpreted function of the detector's spans.
- External programs and libraries are not modelled. This covers ffmpeg, auto-editor, `load_silero_vad`, `read_audio`, `get_speech_timestamps`, `MediaContainer`, `parse_time_segments`, `smart_cut` and `av.logging`. Each call is recorded in the effect log. What it reports back is a constant of `Host`:
  - `loudnormReport` for the first pass;
  - `speech` for the detector;
  - `cutFails` for smartcut.
- Exit codes of `subprocess.run` are never checked by the code, so no stage fails on a process error in the model.
- Exceptions raised inside foreign calls are not modelled. Examples are a missing binary in `subprocess.run`, a missing key in the loudnorm JSON, or a failing `read_audio`. The only failure inside a run is smartcut's returned exception, raised at `sil2.py:318-319`.
- The file system is given, not modelled. `resolve`, `is_file`, `is_dir` and `rglob` are constants of `Host`. `rglob` is the directory's listing in walk order. `mkdir` is an effect that always succeeds; its own failures are not modelled.
- Searching ffmpeg's stderr with a regular expression and `json.loads` are not modelled. `loudnormReport` gives whether a block was found and its five statistics, as strings.
- Float rendering inside f-strings is `Host.show`, an abstract function. Timestamps are reals.
- `get_time_elapsed` (wall-clock timing and float `divmod`) and all console output (`rprint`) are left out. They do not affect results or paths.
- Commands.OptionValue approximates how a command-line tool reads an option: the argument after the flag's first occurrence. This is the reading used to state the argument-list properties. The exact position of every argument is stated for the ones the code places by position.
- The `textwrap.dedent` literal blocks of `gem_prompts.py` are opaque string constants. None of the properties depends on their text. The dedent of the chapters context block is an abstract function of the context (`ChaptersContextBlock`). That is why `Prompts.ContextDetermined` excludes the chapters builder.
- Prompts.ChaptersContext: states only the empty-context case, because the non-empty case depends on library whitespace rules.
- `run_single_file`'s four `if` blocks are split into methods:
  - `StageBlock` and `RunStage` for one block;
  - `TwoBlocks` for two consecutive blocks;
  - `RunStages` for all four.

  `run_many_files`' loop is `BatchLoop`, and the `+=` call is `RunAdmitted`. These methods exist so that each proof stays small. Together they perform the same calls in the same order as the single Python function.
- `ListedIn` (list membership) and `TailFrom` (slicing from an index) are recursive formulations of Python's `in` and `name[i:]`. `ListedInMeansIn` and `TailFromIsSlice` prove them equal to Dafny's membership and slice.
- `src/aivideocut/configs.py` holds only constants and regular expressions; none of it is used by the modelled code.
- The runner scripts (`gem_article.py`, `gem_summary.py`, `gem_srt.py`, `gem_srt_english.py`, `gem_yt_chapters.py`, `gem_yt_seo.py`) and the API client `gem_utils.py` are left out. They call the Gemini API and the file system through helpers that are not part of this model.
- The `__main__` block of `sil2.py` is left out; it only calls `run_many_files` with a fixed path.
