/** The path planning of sil2.py's `run_single_file`: which stages run, which file each
    stage reads and which it writes, and the output directory beside the source. The
    functions here are the reference the orchestrating method in the Pipeline module is
    proved against. */
module Planner {
  import opened PurePaths

  /** The keyword flags of `run_single_file` and `run_many_files`. */
  datatype Config = Config(
    dryRun: bool, normalizeAudio: bool, cutAudioSilences: bool, cutSpeechSilences: bool, fixCodecs: bool)

  /** The four stages, in the order `run_single_file` tries them. */
  datatype Stage = FixCodecs | Normalize | AudioCut | SpeechCut

  const Stages: seq<Stage> := [FixCodecs, Normalize, AudioCut, SpeechCut]

  /** The speech cut is the last stage. */
  lemma SpeechCutIsLast(k: nat)
    requires k < |Stages| && Stages[k] == SpeechCut
    ensures k == |Stages| - 1
  {
  }

  /** The stem each stage gives its output file. */
  function Tag(s: Stage): (t: string)
    ensures IsTag(t)
  {
    match s
    case FixCodecs => "00_FIX_CODECS"
    case Normalize => "01_NORMALIZED"
    case AudioCut => "02_AE_CUT"
    case SpeechCut => "04_FINAL"
  }

  /** Distinct stages write under distinct stems. */
  lemma TagsDiffer(a: Stage, b: Stage)
    requires Tag(a) == Tag(b)
    ensures a == b
  {
    assert Tag(a)[1] == Tag(b)[1];
  }

  predicate Enabled(cfg: Config, s: Stage)
  {
    match s
    case FixCodecs => cfg.fixCodecs
    case Normalize => cfg.normalizeAudio
    case AudioCut => cfg.cutAudioSilences
    case SpeechCut => cfg.cutSpeechSilences
  }

  /** The enabled stages, in stage order. */
  function EnabledStages(cfg: Config, stages: seq<Stage>): (r: seq<Stage>)
    ensures |r| <= |stages|
  {
    if |stages| == 0 then []
    else if Enabled(cfg, stages[|stages| - 1]) then EnabledStages(cfg, stages[..|stages| - 1]) + [stages[|stages| - 1]]
    else EnabledStages(cfg, stages[..|stages| - 1])
  }

  /** The number of true stage flags. */
  function FlagCount(cfg: Config): nat
  {
    (if cfg.fixCodecs then 1 else 0) + (if cfg.normalizeAudio then 1 else 0)
    + (if cfg.cutAudioSilences then 1 else 0) + (if cfg.cutSpeechSilences then 1 else 0)
  }

  /** `output_dir = parent / f"{stem}_{suffix[1:]}"`. */
  function OutputDir(src: Path): (d: Path)
    requires IsComponent(Name(src))
    ensures Parent(d) == Parent(src) && d.absolute == src.absolute
    ensures Name(d) == Stem(src) + "_" + DropFirst(Suffix(src))
  {
    OutputDirNameIsComponent(Name(src));
    JoinPath(Parent(src), Stem(src) + "_" + DropFirst(Suffix(src)))
  }

  /** Python's `s[1:]`. */
  function DropFirst(s: string): string
  {
    if |s| == 0 then "" else s[1..]
  }

  lemma OutputDirNameIsComponent(name: string)
    requires IsComponent(name)
    ensures IsComponent(StemOf(name) + "_" + DropFirst(SuffixOf(name)))
  {
    ComponentPieces(name);
    var x := StemOf(name);
    var y := DropFirst(SuffixOf(name));
    var n := x + "_" + y;
    forall k | 0 <= k < |y| ensures y[k] != '/' {
      assert y[k] == SuffixOf(name)[k + 1];
    }
    forall k | 0 <= k < |n| ensures n[k] != '/' {
      if k < |x| { assert n[k] == x[k]; }
      else if k > |x| { assert n[k] == y[k - |x| - 1]; }
    }
    assert |n| > 1;
  }

  /** `output_dir / source_filename`: where the output path starts before any stage tags it. */
  function FirstOutput(src: Path): Path
    requires IsComponent(Name(src))
  {
    JoinPath(OutputDir(src), Name(src))
  }

  /** The file a stage writes: the first output path with its stem replaced by the tag. */
  function StageOutput(src: Path, s: Stage): Path
    requires IsComponent(Name(src))
  {
    WithStemTag(FirstOutput(src), Tag(s));
    WithStem(FirstOutput(src), Tag(s))
  }

  /** A stage's output lies in the output directory, keeps the source's suffix and has
      the stage's tag as its stem. */
  lemma StageOutputShape(src: Path, s: Stage)
    requires IsComponent(Name(src))
    ensures var p := StageOutput(src, s);
      Parent(p) == OutputDir(src) && Stem(p) == Tag(s) && Suffix(p) == Suffix(src)
      && IsComponent(Name(p))
  {
    WithStemTag(FirstOutput(src), Tag(s));
    TagThenSuffix(Tag(s), Name(src));
  }

  /** `current_input_path.with_name("03_SILERO.wav")`: the speech detector's audio track
      (the current input always has a name, so pathlib's ValueError does not arise). */
  function VadTrack(input: Path): (w: Path)
    ensures Parent(w) == Parent(input) && Name(w) == "03_SILERO.wav"
    ensures Name(input) != "" ==> w == WithName(input, "03_SILERO.wav")
  {
    JoinPath(Parent(input), "03_SILERO.wav")
  }

  /** One stage run: the stage, the file it reads and the file it writes. */
  datatype Step = Step(stage: Stage, input: Path, output: Path)

  /** `current_input_path` once the given steps have run. */
  function CurrentInput(src: Path, steps: seq<Step>): Path
  {
    if |steps| == 0 then src else steps[|steps| - 1].output
  }

  /** The steps of the first `k` stages, built as `run_single_file` builds them: an
      enabled stage reads the current input and becomes the new current input; a
      disabled one changes nothing. */
  function PlanUpTo(cfg: Config, src: Path, k: nat): seq<Step>
    requires k <= |Stages| && IsComponent(Name(src))
  {
    if k == 0 then []
    else
      var before := PlanUpTo(cfg, src, k - 1);
      var s := Stages[k - 1];
      if Enabled(cfg, s) then before + [Step(s, CurrentInput(src, before), StageOutput(src, s))]
      else before
  }

  /** `current_output_path` once the given steps have run: the first output path until a
      stage runs, then the last stage's output. */
  function CurrentOutput(src: Path, steps: seq<Step>): Path
    requires IsComponent(Name(src))
  {
    if |steps| == 0 then FirstOutput(src) else steps[|steps| - 1].output
  }

  /** Once some stages have run, the current input and output paths are named files, and
      re-tagging the current output with a stage's tag gives that stage's output: the
      successive `with_stem` calls never accumulate. */
  lemma NextOutput(cfg: Config, src: Path, k: nat, s: Stage)
    requires k <= |Stages| && IsComponent(Name(src))
    ensures var cur := CurrentOutput(src, PlanUpTo(cfg, src, k));
      IsComponent(Name(CurrentInput(src, PlanUpTo(cfg, src, k))))
      && IsComponent(Name(cur)) && IsComponent(Tag(s) + Suffix(cur))
      && WithStem(cur, Tag(s)) == StageOutput(src, s)
  {
    var p := PlanUpTo(cfg, src, k);
    WithStemTag(FirstOutput(src), Tag(s));
    if |p| > 0 {
      PlanOutputs(cfg, src, k);
      var last := p[|p| - 1];
      assert last in p;
      StageOutputShape(src, last.stage);
      WithStemTwice(FirstOutput(src), Tag(last.stage), Tag(s));
    }
  }

  /** The current input always has a genuine name. */
  lemma InputNamed(cfg: Config, src: Path, k: nat)
    requires k <= |Stages| && IsComponent(Name(src))
    ensures IsComponent(Name(CurrentInput(src, PlanUpTo(cfg, src, k))))
  {
    var p := PlanUpTo(cfg, src, k);
    if |p| > 0 {
      PlanOutputs(cfg, src, k);
      assert p[|p| - 1] in p;
      StageOutputShape(src, p[|p| - 1].stage);
    }
  }

  /** What one stage block changes: a disabled stage nothing; an enabled one appends its
      output to the result list and makes it both the current input and output. */
  lemma PlanStep(cfg: Config, src: Path, k: nat)
    requires k < |Stages| && IsComponent(Name(src))
    ensures var before, after, s := PlanUpTo(cfg, src, k), PlanUpTo(cfg, src, k + 1), Stages[k];
      if Enabled(cfg, s) then
        after == before + [Step(s, CurrentInput(src, before), StageOutput(src, s))]
        && Outputs(after) == Outputs(before) + [StageOutput(src, s)]
        && CurrentInput(src, after) == StageOutput(src, s) && CurrentOutput(src, after) == StageOutput(src, s)
      else
        after == before
  {
    var before, after, s := PlanUpTo(cfg, src, k), PlanUpTo(cfg, src, k + 1), Stages[k];
    if Enabled(cfg, s) {
      assert after[..|after| - 1] == before;
    }
  }

  function Plan(cfg: Config, src: Path): seq<Step>
    requires IsComponent(Name(src))
  {
    PlanUpTo(cfg, src, |Stages|)
  }

  function Outputs(steps: seq<Step>): (r: seq<Path>)
    ensures |r| == |steps| && forall i :: 0 <= i < |steps| ==> r[i] == steps[i].output
  {
    if |steps| == 0 then [] else Outputs(steps[..|steps| - 1]) + [steps[|steps| - 1].output]
  }

  function StagesOf(steps: seq<Step>): (r: seq<Stage>)
    ensures |r| == |steps| && forall i :: 0 <= i < |steps| ==> r[i] == steps[i].stage
  {
    if |steps| == 0 then [] else StagesOf(steps[..|steps| - 1]) + [steps[|steps| - 1].stage]
  }

  /** The stages that run are exactly the enabled ones, in stage order. */
  lemma {:induction false} PlanStages(cfg: Config, src: Path, k: nat)
    requires k <= |Stages| && IsComponent(Name(src))
    ensures StagesOf(PlanUpTo(cfg, src, k)) == EnabledStages(cfg, Stages[..k])
  {
    if k > 0 {
      PlanStages(cfg, src, k - 1);
      assert Stages[..k][..k - 1] == Stages[..k - 1];
      var before := PlanUpTo(cfg, src, k - 1);
      if Enabled(cfg, Stages[k - 1]) {
        var after := PlanUpTo(cfg, src, k);
        assert after[..|after| - 1] == before;
      }
    }
  }

  /** One entry per true flag; no flag set gives no entries. */
  lemma PlanLength(cfg: Config, src: Path)
    requires IsComponent(Name(src))
    ensures |Plan(cfg, src)| == FlagCount(cfg)
    ensures FlagCount(cfg) == 0 ==> Plan(cfg, src) == []
  {
    assert |PlanUpTo(cfg, src, 1)| == (if cfg.fixCodecs then 1 else 0);
    assert |PlanUpTo(cfg, src, 2)| == |PlanUpTo(cfg, src, 1)| + (if cfg.normalizeAudio then 1 else 0);
    assert |PlanUpTo(cfg, src, 3)| == |PlanUpTo(cfg, src, 2)| + (if cfg.cutAudioSilences then 1 else 0);
    assert |PlanUpTo(cfg, src, 4)| == |PlanUpTo(cfg, src, 3)| + (if cfg.cutSpeechSilences then 1 else 0);
  }

  /** Pass-through: the first stage that runs reads the source, and every later one reads
      what the previous running stage wrote. */
  lemma {:induction false} PlanChain(cfg: Config, src: Path, k: nat)
    requires k <= |Stages| && IsComponent(Name(src))
    ensures var p := PlanUpTo(cfg, src, k);
      (|p| > 0 ==> p[0].input == src)
      && forall i :: 0 < i < |p| ==> p[i].input == p[i - 1].output
  {
    if k > 0 {
      PlanChain(cfg, src, k - 1);
      var before := PlanUpTo(cfg, src, k - 1);
      var after := PlanUpTo(cfg, src, k);
      if Enabled(cfg, Stages[k - 1]) {
        var n := |before|;
        assert forall i :: 0 <= i < n ==> after[i] == before[i];
        assert after[n].input == CurrentInput(src, before);
        forall i | 0 < i < |after| ensures after[i].input == after[i - 1].output {
          if i < n {
            assert after[i] == before[i] && after[i - 1] == before[i - 1];
          }
        }
      }
    }
  }

  /** Every planned output lies in the output directory, keeps the source's suffix and
      carries its stage's tag as stem. */
  lemma {:induction false} PlanOutputs(cfg: Config, src: Path, k: nat)
    requires k <= |Stages| && IsComponent(Name(src))
    ensures forall st :: st in PlanUpTo(cfg, src, k) ==> st.output == StageOutput(src, st.stage)
  {
    if k > 0 {
      PlanOutputs(cfg, src, k - 1);
    }
  }

  /** The position of a stage in `Stages`. */
  function StageIndex(s: Stage): (i: nat)
    ensures i < |Stages|
  {
    match s
    case FixCodecs => 0
    case Normalize => 1
    case AudioCut => 2
    case SpeechCut => 3
  }

  /** `Stages` lists every stage once, in increasing stage index. */
  lemma StagesInOrder()
    ensures forall i, j :: 0 <= i < j < |Stages| ==> StageIndex(Stages[i]) < StageIndex(Stages[j])
  {
    forall i | 0 <= i < |Stages| ensures StageIndex(Stages[i]) == i {
      if i == 0 {} else if i == 1 {} else if i == 2 {} else {}
    }
  }

  /** Filtering keeps stage order: a list in increasing stage order stays so, and keeps
      only its own members. */
  lemma {:induction false} EnabledOrdered(cfg: Config, stages: seq<Stage>)
    requires forall i, j :: 0 <= i < j < |stages| ==> StageIndex(stages[i]) < StageIndex(stages[j])
    ensures forall s :: s in EnabledStages(cfg, stages) ==> s in stages
    ensures forall i, j :: 0 <= i < j < |EnabledStages(cfg, stages)| ==>
      StageIndex(EnabledStages(cfg, stages)[i]) < StageIndex(EnabledStages(cfg, stages)[j])
  {
    if |stages| > 0 {
      var init := stages[..|stages| - 1];
      var last := stages[|stages| - 1];
      EnabledOrdered(cfg, init);
      var r0 := EnabledStages(cfg, init);
      forall s | s in r0 ensures s in stages && StageIndex(s) < StageIndex(last) {
        var i :| 0 <= i < |init| && init[i] == s;
        assert stages[i] == s;
      }
      if Enabled(cfg, last) {
        var r := EnabledStages(cfg, stages);
        assert r == r0 + [last];
        forall i, j | 0 <= i < j < |r| ensures StageIndex(r[i]) < StageIndex(r[j]) {
          assert r[i] == r0[i] && r0[i] in r0;
          if j < |r0| {
            assert r[j] == r0[j];
          }
        }
      }
    }
  }

  /** No stage writes over the source. */
  lemma PlanKeepsSource(cfg: Config, src: Path)
    requires IsComponent(Name(src))
    ensures forall st :: st in Plan(cfg, src) ==> st.output != src
  {
    PlanOutputs(cfg, src, |Stages|);
    forall st | st in Plan(cfg, src) ensures st.output != src {
      StageOutputShape(src, st.stage);
      assert |Parent(st.output).parts| == |Parent(src).parts| + 1;
    }
  }

  /** Distinct stages write distinct files. */
  lemma StageOutputsDiffer(src: Path, a: Stage, b: Stage)
    requires IsComponent(Name(src)) && a != b
    ensures StageOutput(src, a) != StageOutput(src, b)
  {
    StageOutputShape(src, a);
    StageOutputShape(src, b);
    if StageOutput(src, a) == StageOutput(src, b) {
      TagsDiffer(a, b);
    }
  }

  /** No stage writes over another stage's output. */
  lemma PlanOutputsDistinct(cfg: Config, src: Path)
    requires IsComponent(Name(src))
    ensures forall i, j :: 0 <= i < j < |Plan(cfg, src)| ==> Plan(cfg, src)[i].output != Plan(cfg, src)[j].output
  {
    var p := Plan(cfg, src);
    PlanOutputs(cfg, src, |Stages|);
    PlanStages(cfg, src, |Stages|);
    assert Stages[..|Stages|] == Stages;
    StagesInOrder();
    EnabledOrdered(cfg, Stages);
    forall i, j | 0 <= i < j < |p| ensures p[i].output != p[j].output {
      assert p[i] in p && p[j] in p;
      assert StagesOf(p)[i] == p[i].stage && StagesOf(p)[j] == p[j].stage;
      StageOutputsDiffer(src, p[i].stage, p[j].stage);
    }
  }

  /** The speech detector's track sits beside the stage input; with no earlier stage
      enabled that is the source's own directory, otherwise the output directory. */
  lemma VadTrackPlacement(cfg: Config, src: Path)
    requires IsComponent(Name(src)) && cfg.cutSpeechSilences
    ensures var p := Plan(cfg, src);
      |p| > 0 && p[|p| - 1].stage == SpeechCut && IsComponent(Name(p[|p| - 1].input))
      && Parent(VadTrack(p[|p| - 1].input))
         == (if |p| == 1 then Parent(src) else OutputDir(src))
  {
    var p := Plan(cfg, src);
    PlanChain(cfg, src, |Stages|);
    PlanOutputs(cfg, src, |Stages|);
    var before := PlanUpTo(cfg, src, 3);
    assert p == before + [Step(SpeechCut, CurrentInput(src, before), StageOutput(src, SpeechCut))];
    InputNamed(cfg, src, 3);
    if |p| > 1 {
      assert p[|p| - 2] in p;
      StageOutputShape(src, p[|p| - 2].stage);
    }
  }

  /** The speech detector's track lands on the source only when the source is itself
      named `03_SILERO.wav` and speech is the only stage enabled; then the `-y` of its
      extraction overwrites the source. */
  lemma VadTrackHitsSource(cfg: Config, src: Path)
    requires IsComponent(Name(src)) && cfg.cutSpeechSilences
    ensures var p := Plan(cfg, src);
      |p| > 0 && (VadTrack(p[|p| - 1].input) == src <==> |p| == 1 && Name(src) == "03_SILERO.wav")
  {
    var p := Plan(cfg, src);
    VadTrackPlacement(cfg, src);
    var w := VadTrack(p[|p| - 1].input);
    if |p| == 1 {
      PlanChain(cfg, src, |Stages|);
      assert src.parts == Parent(src).parts + [Name(src)];
    } else {
      assert |OutputDir(src).parts| == |Parent(src).parts| + 1;
    }
  }

  /** The plan does not depend on the dry-run flag. */
  lemma {:induction false} PlanIgnoresDryRun(cfg: Config, src: Path, k: nat)
    requires k <= |Stages| && IsComponent(Name(src))
    ensures PlanUpTo(cfg, src, k) == PlanUpTo(cfg.(dryRun := !cfg.dryRun), src, k)
  {
    if k > 0 {
      PlanIgnoresDryRun(cfg, src, k - 1);
    }
  }

  /** run_many_files' extension allow-list. */
  const AllowedExtensions: seq<string> := [".mp4", ".mov", ".mkv"]

  /** Python's `ext in allowed`: a scan of the list from its front. */
  predicate ListedIn(ext: string, allowed: seq<string>)
    decreases |allowed|
  {
    |allowed| > 0 && (ext == allowed[0] || ListedIn(ext, allowed[1..]))
  }

  lemma {:induction false} ListedInMeansIn(ext: string, allowed: seq<string>)
    ensures ListedIn(ext, allowed) <==> ext in allowed
    decreases |allowed|
  {
    if |allowed| > 0 {
      ListedInMeansIn(ext, allowed[1..]);
      assert allowed == [allowed[0]] + allowed[1..];
    }
  }

  /** Whether run_many_files hands a listed file to run_single_file, given the paths
      returned by the earlier iterations. */
  predicate Admits(file: Path, processed: seq<Path>)
  {
    file !in processed && ListedIn(Suffix(file), AllowedExtensions)
  }
}
