/** The argument lists sil2.py hands to ffmpeg and auto-editor, the `join` it prints them
    with, and the keep-list string it hands to smartcut. */
module Commands {
  import opened Wrappers
  import opened Strings
  import opened PurePaths

  /** One element of an argument list: the source mixes strings and Path objects, and
      a Path is rendered with `str()` when printed or executed. */
  datatype Arg = Text(s: string) | PathArg(p: Path)

  /** ffmpeg's `-loglevel` values (the FFMPEG_LOG_LEVEL literal type). */
  datatype LogLevel = Quiet | Panic | Fatal | Error | Warning | Info | Verbose | Debug | Trace

  function LevelName(level: LogLevel): string
  {
    match level
    case Quiet => "quiet"
    case Panic => "panic"
    case Fatal => "fatal"
    case Error => "error"
    case Warning => "warning"
    case Info => "info"
    case Verbose => "verbose"
    case Debug => "debug"
    case Trace => "trace"
  }

  /** The five statistics the first loudnorm pass reports (input_i, input_lra, input_tp,
      input_thresh, target_offset), kept as the strings the JSON block holds. */
  datatype LoudnormStats = LoudnormStats(
    inputI: string, inputLra: string, inputTp: string, inputThresh: string, targetOffset: string)

  /** One entry of the keep-list: a span of seconds to retain. */
  datatype SpeechSpan = SpeechSpan(start: real, end: real)

  function Texts(xs: seq<string>): (r: seq<Arg>)
    ensures |r| == |xs| && forall i :: 0 <= i < |xs| ==> r[i] == Text(xs[i])
  {
    seq(|xs|, i requires 0 <= i < |xs| => Text(xs[i]))
  }

  function ArgString(a: Arg): string
  {
    match a
    case Text(s) => s
    case PathArg(p) => Render(p)
  }

  function ArgStrings(args: seq<Arg>): (r: seq<string>)
    ensures |r| == |args| && forall i :: 0 <= i < |args| ==> r[i] == ArgString(args[i])
  {
    seq(|args|, i requires 0 <= i < |args| => ArgString(args[i]))
  }

  /** `join(args)`: the printable form of a command line. */
  function Join(args: seq<Arg>): (r: string)
    ensures |args| > 0 ==> |r| >= |ArgString(args[0])| && r[..|ArgString(args[0])|] == ArgString(args[0])
    ensures |args| > 0 ==> EndsWith(r, ArgString(args[|args| - 1]))
  {
    if |args| > 0 then
      JoinStartsWith(ArgStrings(args), ' ');
      JoinEndsWithLast(ArgStrings(args), ' ');
      JoinWith(ArgStrings(args), ' ')
    else JoinWith(ArgStrings(args), ' ')
  }

  /** A printed command line reads back as its arguments when none of them holds a space. */
  lemma JoinReadsBack(args: seq<Arg>)
    requires |args| > 0
    requires forall i :: 0 <= i < |args| ==> ' ' !in ArgString(args[i])
    ensures Split(Join(args), ' ') == ArgStrings(args)
  {
    SplitJoin(ArgStrings(args), ' ');
  }

  /** The value a command-line tool reads for `flag`: the argument after its first occurrence. */
  function OptionValue(args: seq<Arg>, flag: string): Option<Arg>
  {
    OptionValueFrom(args, flag, 0)
  }

  /** The value read for `flag` when scanning starts at index `k`. */
  function OptionValueFrom(args: seq<Arg>, flag: string, k: nat): Option<Arg>
    decreases |args| - k
  {
    if k + 1 >= |args| then None
    else if args[k] == Text(flag) then Some(args[k + 1])
    else OptionValueFrom(args, flag, k + 1)
  }

  lemma {:induction false} OptionValueFromAt(args: seq<Arg>, flag: string, k: nat, i: nat)
    requires k <= i && i + 1 < |args| && args[i] == Text(flag)
    requires forall j :: k <= j < i ==> args[j] != Text(flag)
    ensures OptionValueFrom(args, flag, k) == Some(args[i + 1])
    decreases i - k
  {
    if k < i {
      OptionValueFromAt(args, flag, k + 1, i);
    }
  }

  /** The value found at index `i` when `i` is the first occurrence of the flag. */
  lemma OptionValueAt(args: seq<Arg>, flag: string, i: nat)
    requires i + 1 < |args| && args[i] == Text(flag)
    requires Text(flag) !in args[..i]
    ensures OptionValue(args, flag) == Some(args[i + 1])
  {
    forall j | 0 <= j < i ensures args[j] != Text(flag) {
      assert args[j] == args[..i][j];
    }
    OptionValueFromAt(args, flag, 0, i);
  }

  lemma {:induction false} OptionValueFromKeep(args: seq<Arg>, more: seq<Arg>, flag: string, k: nat)
    requires OptionValueFrom(args, flag, k).Some?
    ensures OptionValueFrom(args + more, flag, k) == OptionValueFrom(args, flag, k)
    decreases |args| - k
  {
    var whole := args + more;
    assert whole[k] == args[k] && whole[k + 1] == args[k + 1];
    if args[k] != Text(flag) {
      OptionValueFromKeep(args, more, flag, k + 1);
    }
  }

  /** Arguments appended after a flag's first occurrence do not change the value read for it. */
  lemma OptionValueKeep(args: seq<Arg>, more: seq<Arg>, flag: string)
    requires OptionValue(args, flag).Some?
    ensures OptionValue(args + more, flag) == OptionValue(args, flag)
  {
    OptionValueFromKeep(args, more, flag, 0);
  }


  /** A prefix that does not mention a flag does not change the value read for it. */
  lemma OptionValueSkip(before: seq<Arg>, after: seq<Arg>, flag: string)
    requires Text(flag) !in before && OptionValue(after, flag).Some?
    ensures OptionValue(before + after, flag) == OptionValue(after, flag)
  {
    OptionValueFromSkip(before, after, flag, 0);
  }

  lemma {:induction false} OptionValueFromSkip(before: seq<Arg>, after: seq<Arg>, flag: string, j: nat)
    requires j <= |before| && Text(flag) !in before && OptionValue(after, flag).Some?
    ensures OptionValueFrom(before + after, flag, j) == OptionValue(after, flag)
    decreases |before| - j
  {
    if j < |before| {
      assert (before + after)[j] == before[j] && before[j] in before;
      OptionValueFromSkip(before, after, flag, j + 1);
    } else {
      OptionValueFromShift(before, after, flag, 0);
    }
  }

  lemma {:induction false} OptionValueFromShift(before: seq<Arg>, after: seq<Arg>, flag: string, k: nat)
    requires OptionValueFrom(after, flag, k).Some?
    ensures OptionValueFrom(before + after, flag, |before| + k) == OptionValueFrom(after, flag, k)
    decreases |after| - k
  {
    var whole := before + after;
    assert whole[|before| + k] == after[k] && whole[|before| + k + 1] == after[k + 1];
    if after[k] != Text(flag) {
      OptionValueFromShift(before, after, flag, k + 1);
    }
  }

  /** The same, when further arguments follow the group. */
  lemma OptionValueInside(before: seq<Arg>, group: seq<Arg>, after: seq<Arg>, flag: string, i: nat)
    requires Text(flag) !in before
    requires i + 1 < |group| && group[i] == Text(flag) && Text(flag) !in group[..i]
    ensures OptionValue(before + group + after, flag) == Some(group[i + 1])
  {
    OptionValueIn(before, group, flag, i);
    OptionValueKeep(before + group, after, flag);
  }

  /** A group whose value for a flag is set keeps it with any prefix that does not
      mention the flag and any arguments after it. */
  lemma OptionValueAround(before: seq<Arg>, group: seq<Arg>, after: seq<Arg>, flag: string)
    requires Text(flag) !in before && OptionValue(group, flag).Some?
    ensures OptionValue(before + group + after, flag) == OptionValue(group, flag)
  {
    OptionValueKeep(group, after, flag);
    OptionValueSkip(before, group + after, flag);
    assert before + group + after == before + (group + after);
  }

  /** The value read for a flag that first occurs at index `i` of the last group of a
      command line, when the groups before it do not mention it. */
  lemma OptionValueIn(before: seq<Arg>, group: seq<Arg>, flag: string, i: nat)
    requires Text(flag) !in before
    requires i + 1 < |group| && group[i] == Text(flag) && Text(flag) !in group[..i]
    ensures OptionValue(before + group, flag) == Some(group[i + 1])
  {
    var args := before + group;
    forall j | 0 <= j < |before| + i ensures args[j] != Text(flag) {
      if j < |before| {
        assert args[j] == before[j];
      } else {
        assert args[j] == group[..i][j - |before|];
      }
    }
    OptionValueFromAt(args, flag, 0, |before| + i);
  }

  /** `get_ffmpeg_cmd(log_level)`: the ffmpeg prefix shared by every ffmpeg invocation. */
  function GetFfmpegCmd(level: LogLevel := Warning): (r: seq<string>)
    ensures |r| == 5 && r[0] == "ffmpeg"
    ensures OptionValue(Texts(r), "-loglevel") == Some(Text(LevelName(level)))
  {
    var r := ["ffmpeg", "-hide_banner", "-loglevel", LevelName(level), "-stats"];
    OptionValueAt(Texts(r), "-loglevel", 2);
    r
  }

  /** Distinct log levels give distinct prefixes. */
  lemma FfmpegCmdDistinguishesLevels(a: LogLevel, b: LogLevel)
    requires GetFfmpegCmd(a) == GetFfmpegCmd(b)
    ensures a == b
  {
    assert GetFfmpegCmd(a)[3] == LevelName(a);
  }

  /** The prefix as it stands in an argument list. */
  function FfmpegArgs(level: LogLevel): (r: seq<Arg>)
    ensures r == Texts(GetFfmpegCmd(level))
  {
    [Text("ffmpeg"), Text("-hide_banner"), Text("-loglevel"), Text(LevelName(level)), Text("-stats")]
  }

  /** ffmpeg_fix_codecs: re-encode the input into the output, built from the same
      argument lines as the source. */
  function FixCodecsArgv(input: Path, output: Path): (r: seq<Arg>)
    ensures |r| == 22 && r[..5] == FfmpegArgs(Info) && r[21] == PathArg(output)
    ensures OptionValue(r, "-i") == Some(PathArg(input))
  {
    var head := FfmpegArgs(Info);
    var source := [Text("-i"), PathArg(input)];
    OptionValueInside(head, source, FixCodecsSettings() + [PathArg(output)], "-i", 0);
    var r := head + source + (FixCodecsSettings() + [PathArg(output)]);
    assert r[..5] == head;
    r
  }

  /** The re-encode ffmpeg_fix_codecs runs carries its settings: H.264 at crf 13 with the
      fast preset, AAC at 512k, the index in front and timestamps generated. */
  lemma FixCodecsEncodes(input: Path, output: Path)
    ensures var r := FixCodecsArgv(input, output);
      OptionValue(r, "-c:v") == Some(Text("libx264")) && OptionValue(r, "-crf") == Some(Text("13"))
      && OptionValue(r, "-preset") == Some(Text("fast"))
      && OptionValue(r, "-c:a") == Some(Text("aac")) && OptionValue(r, "-b:a") == Some(Text("512k"))
      && OptionValue(r, "-movflags") == Some(Text("+faststart"))
      && OptionValue(r, "-fflags") == Some(Text("+genpts"))
  {
    FixCodecsVideo(input, output);
    FixCodecsAudio(input, output);
    FixCodecsContainer(input, output);
  }

  lemma FixCodecsVideo(input: Path, output: Path)
    ensures var r := FixCodecsArgv(input, output);
      OptionValue(r, "-c:v") == Some(Text("libx264")) && OptionValue(r, "-crf") == Some(Text("13"))
      && OptionValue(r, "-preset") == Some(Text("fast"))
  {
    FixCodecsReads(input, output, "-c:v");
    FixCodecsReads(input, output, "-crf");
    FixCodecsReads(input, output, "-preset");
  }

  lemma FixCodecsAudio(input: Path, output: Path)
    ensures var r := FixCodecsArgv(input, output);
      OptionValue(r, "-c:a") == Some(Text("aac")) && OptionValue(r, "-b:a") == Some(Text("512k"))
  {
    FixCodecsReads(input, output, "-c:a");
    FixCodecsReads(input, output, "-b:a");
  }

  lemma FixCodecsContainer(input: Path, output: Path)
    ensures var r := FixCodecsArgv(input, output);
      OptionValue(r, "-movflags") == Some(Text("+faststart")) && OptionValue(r, "-fflags") == Some(Text("+genpts"))
  {
    FixCodecsFastStart(input, output);
    FixCodecsGenPts(input, output);
  }

  lemma FixCodecsFastStart(input: Path, output: Path)
    ensures OptionValue(FixCodecsArgv(input, output), "-movflags") == Some(Text("+faststart"))
  {
    FixCodecsSettingsContainer();
    FixCodecsReads(input, output, "-movflags");
  }

  lemma FixCodecsGenPts(input: Path, output: Path)
    ensures OptionValue(FixCodecsArgv(input, output), "-fflags") == Some(Text("+genpts"))
  {
    FixCodecsSettingsContainer();
    FixCodecsReads(input, output, "-fflags");
  }

  /** A setting is read from the settings list: the prefix and the input do not mention it. */
  lemma FixCodecsReads(input: Path, output: Path, flag: string)
    requires Text(flag) !in FfmpegArgs(Info) + [Text("-i"), PathArg(input)]
    requires OptionValue(FixCodecsSettings(), flag).Some?
    ensures OptionValue(FixCodecsArgv(input, output), flag) == OptionValue(FixCodecsSettings(), flag)
  {
    OptionValueKeep(FixCodecsSettings(), [PathArg(output)], flag);
    OptionValueSkip(FfmpegArgs(Info) + [Text("-i"), PathArg(input)], FixCodecsSettings() + [PathArg(output)], flag);
  }

  /** The encoder settings of ffmpeg_fix_codecs: H.264 at crf 13 with the fast preset,
      AAC at 512k, the index moved to the front and missing timestamps generated. */
  function FixCodecsSettings(): (r: seq<Arg>)
    ensures |r| == 14 && Text("-i") !in r
    ensures OptionValue(r, "-c:v") == Some(Text("libx264")) && OptionValue(r, "-crf") == Some(Text("13"))
    ensures OptionValue(r, "-preset") == Some(Text("fast"))
    ensures OptionValue(r, "-c:a") == Some(Text("aac")) && OptionValue(r, "-b:a") == Some(Text("512k"))
    ensures r[10..] == [Text("-movflags"), Text("+faststart"), Text("-fflags"), Text("+genpts")]
  {
    var video := [Text("-c:v"), Text("libx264"), Text("-crf"), Text("13"), Text("-preset"), Text("fast")];
    var audio := [Text("-c:a"), Text("aac"), Text("-b:a"), Text("512k")];
    var container := [Text("-movflags"), Text("+faststart"), Text("-fflags"), Text("+genpts")];
    OptionValueIn([], video, "-c:v", 0);
    OptionValueIn([], video, "-crf", 2);
    OptionValueIn([], video, "-preset", 4);
    OptionValueKeep(video, audio, "-c:v");
    OptionValueKeep(video, audio, "-crf");
    OptionValueKeep(video, audio, "-preset");
    OptionValueIn(video, audio, "-c:a", 0);
    OptionValueIn(video, audio, "-b:a", 2);
    OptionValueKeep(video + audio, container, "-c:v");
    OptionValueKeep(video + audio, container, "-crf");
    OptionValueKeep(video + audio, container, "-preset");
    OptionValueKeep(video + audio, container, "-c:a");
    OptionValueKeep(video + audio, container, "-b:a");
    var r := video + audio + container;
    assert r[10..] == container;
    r
  }

  /** The container settings of ffmpeg_fix_codecs: the index moved to the front and
      missing timestamps generated. */
  lemma FixCodecsSettingsContainer()
    ensures OptionValue(FixCodecsSettings(), "-movflags") == Some(Text("+faststart"))
    ensures OptionValue(FixCodecsSettings(), "-fflags") == Some(Text("+genpts"))
  {
    var r := FixCodecsSettings();
    var codecs := r[..10];
    var container := r[10..];
    assert r == codecs + container;
    assert codecs == [Text("-c:v"), Text("libx264"), Text("-crf"), Text("13"), Text("-preset"), Text("fast"),
                      Text("-c:a"), Text("aac"), Text("-b:a"), Text("512k")];
    OptionValueIn(codecs, container, "-movflags", 0);
    OptionValueIn(codecs, container, "-fflags", 2);
  }

  /** The loudnorm filter of the first, measuring pass: the f-string's fields joined by ':'. */
  function FirstPassFilter(loudnormI: string, loudnormTp: string, loudnormLra: string): (r: string)
    ensures |r| > 9 && r[..9] == "loudnorm="
  {
    JoinStartsWith(FirstPassFields(loudnormI, loudnormTp, loudnormLra), ':');
    JoinWith(FirstPassFields(loudnormI, loudnormTp, loudnormLra), ':')
  }

  function FirstPassFields(loudnormI: string, loudnormTp: string, loudnormLra: string): seq<string>
  {
    ["loudnorm=I=" + loudnormI, "TP=" + loudnormTp, "LRA=" + loudnormLra, "print_format=json"]
  }

  /** The loudnorm filter of the second, correcting pass, fields joined by ':' likewise. */
  function SecondPassFilter(loudnormI: string, loudnormTp: string, loudnormLra: string, m: LoudnormStats): (r: string)
    ensures |r| > 9 && r[..9] == "loudnorm="
  {
    JoinStartsWith(SecondPassFields(loudnormI, loudnormTp, loudnormLra, m), ':');
    JoinWith(SecondPassFields(loudnormI, loudnormTp, loudnormLra, m), ':')
  }

  function SecondPassFields(loudnormI: string, loudnormTp: string, loudnormLra: string, m: LoudnormStats): seq<string>
  {
    ["loudnorm=I=" + loudnormI, "TP=" + loudnormTp, "LRA=" + loudnormLra,
     "measured_I=" + m.inputI, "measured_LRA=" + m.inputLra, "measured_TP=" + m.inputTp,
     "measured_thresh=" + m.inputThresh, "offset=" + m.targetOffset,
     "linear=true", "print_format=summary"]
  }

  /** The first-pass filter reads back field by field: the targets under I, TP and LRA. */
  lemma FirstPassFilterFields(loudnormI: string, loudnormTp: string, loudnormLra: string)
    requires ':' !in loudnormI && ':' !in loudnormTp && ':' !in loudnormLra
    ensures Split(FirstPassFilter(loudnormI, loudnormTp, loudnormLra), ':')
         == ["loudnorm=I=" + loudnormI, "TP=" + loudnormTp, "LRA=" + loudnormLra, "print_format=json"]
  {
    KeyValueNoColon("loudnorm=I=", loudnormI);
    KeyValueNoColon("TP=", loudnormTp);
    KeyValueNoColon("LRA=", loudnormLra);
    SplitJoin(FirstPassFields(loudnormI, loudnormTp, loudnormLra), ':');
  }

  /** Every measured statistic reaches the second pass under its own key, none swapped. */
  lemma SecondPassFilterFields(loudnormI: string, loudnormTp: string, loudnormLra: string, m: LoudnormStats)
    requires ':' !in loudnormI && ':' !in loudnormTp && ':' !in loudnormLra
    requires ':' !in m.inputI && ':' !in m.inputLra && ':' !in m.inputTp
    requires ':' !in m.inputThresh && ':' !in m.targetOffset
    ensures Split(SecondPassFilter(loudnormI, loudnormTp, loudnormLra, m), ':')
         == ["loudnorm=I=" + loudnormI, "TP=" + loudnormTp, "LRA=" + loudnormLra,
             "measured_I=" + m.inputI, "measured_LRA=" + m.inputLra, "measured_TP=" + m.inputTp,
             "measured_thresh=" + m.inputThresh, "offset=" + m.targetOffset,
             "linear=true", "print_format=summary"]
  {
    KeyValueNoColon("loudnorm=I=", loudnormI);
    KeyValueNoColon("TP=", loudnormTp);
    KeyValueNoColon("LRA=", loudnormLra);
    KeyValueNoColon("measured_I=", m.inputI);
    KeyValueNoColon("measured_LRA=", m.inputLra);
    KeyValueNoColon("measured_TP=", m.inputTp);
    KeyValueNoColon("measured_thresh=", m.inputThresh);
    KeyValueNoColon("offset=", m.targetOffset);
    SplitJoin(SecondPassFields(loudnormI, loudnormTp, loudnormLra, m), ':');
  }

  /** A `key=value` field is colon-free when its key and its value are. */
  lemma KeyValueNoColon(key: string, value: string)
    requires ':' !in key && ':' !in value
    ensures ':' !in key + value
  {
    var kv := key + value;
    forall j | 0 <= j < |kv| ensures kv[j] != ':' {
      if j < |key| { assert kv[j] == key[j]; } else { assert kv[j] == value[j - |key|]; }
    }
  }

  /** The measuring pass: the input's audio through loudnorm into the null muxer. */
  function FirstPassArgv(input: Path, loudnormI: string, loudnormTp: string, loudnormLra: string): (r: seq<Arg>)
    ensures |r| == 18 && r[..5] == FfmpegArgs(Info) && r[17] == Text("-")
    ensures OptionValue(r, "-i") == Some(PathArg(input))
    ensures OptionValue(r, "-af") == Some(Text(FirstPassFilter(loudnormI, loudnormTp, loudnormLra)))
    ensures OptionValue(r, "-f") == Some(Text("null"))
  {
    var head := FfmpegArgs(Info);
    var source := [Text("-i"), PathArg(input)];
    var settings := FirstPassSettings(loudnormI, loudnormTp, loudnormLra);
    OptionValueIn(head, source, "-i", 0);
    OptionValueKeep(head + source, settings, "-i");
    FirstPassReadsSettings(input, loudnormI, loudnormTp, loudnormLra);
    var r := head + source + settings;
    assert r[..5] == head;
    r
  }

  /** The filter and the format of the measuring pass are read from its settings. */
  lemma FirstPassReadsSettings(input: Path, loudnormI: string, loudnormTp: string, loudnormLra: string)
    ensures var before := FfmpegArgs(Info) + [Text("-i"), PathArg(input)];
      var settings := FirstPassSettings(loudnormI, loudnormTp, loudnormLra);
      OptionValue(before + settings, "-af") == OptionValue(settings, "-af")
      && OptionValue(before + settings, "-f") == OptionValue(settings, "-f")
  {
    var before := FfmpegArgs(Info) + [Text("-i"), PathArg(input)];
    var settings := FirstPassSettings(loudnormI, loudnormTp, loudnormLra);
    OptionValueSkip(before, settings, "-af");
    OptionValueSkip(before, settings, "-f");
  }

  /** What the measuring pass asks of ffmpeg after its input: copy the video, encode AAC
      512k, filter the audio, and discard the result. */
  function FirstPassSettings(loudnormI: string, loudnormTp: string, loudnormLra: string): (r: seq<Arg>)
    ensures |r| == 11 && r[10] == Text("-")
    ensures OptionValue(r, "-c:v") == Some(Text("copy"))
    ensures OptionValue(r, "-af") == Some(Text(FirstPassFilter(loudnormI, loudnormTp, loudnormLra)))
    ensures OptionValue(r, "-f") == Some(Text("null"))
  {
    var filter := FirstPassFilter(loudnormI, loudnormTp, loudnormLra);
    assert filter[0] == 'l';
    var video := [Text("-c:v"), Text("copy")];
    var audio := [Text("-c:a"), Text("aac"), Text("-b:a"), Text("512k")];
    var sink := [Text("-af"), Text(filter), Text("-f"), Text("null"), Text("-")];
    OptionValueIn([], video, "-c:v", 0);
    OptionValueKeep(video, audio, "-c:v");
    OptionValueKeep(video + audio, sink, "-c:v");
    OptionValueIn(video + audio, sink, "-af", 0);
    OptionValueIn(video + audio, sink, "-f", 2);
    video + audio + sink
  }

  /** The correcting pass: the measured statistics applied, the output overwritten. */
  function SecondPassArgv(input: Path, output: Path, loudnormI: string, loudnormTp: string,
                          loudnormLra: string, m: LoudnormStats): (r: seq<Arg>)
    ensures |r| == 17 && r[..5] == FfmpegArgs(Info)
    ensures OptionValue(r, "-i") == Some(PathArg(input))
    ensures OptionValue(r, "-af") == Some(Text(SecondPassFilter(loudnormI, loudnormTp, loudnormLra, m)))
    ensures r[15] == PathArg(output) && r[16] == Text("-y")
  {
    var head := FfmpegArgs(Info);
    var source := [Text("-i"), PathArg(input)];
    var settings := SecondPassSettings(loudnormI, loudnormTp, loudnormLra, m);
    var sink := [PathArg(output), Text("-y")];
    OptionValueIn(head, source, "-i", 0);
    OptionValueKeep(head + source, settings, "-i");
    OptionValueSkip(head + source, settings, "-af");
    OptionValueKeep(head + source + settings, sink, "-i");
    OptionValueKeep(head + source + settings, sink, "-af");
    var r := head + source + settings + sink;
    assert r[..5] == head;
    r
  }

  /** The correcting pass copies the video and encodes the audio as AAC at 512k. */
  lemma SecondPassEncodes(input: Path, output: Path, loudnormI: string, loudnormTp: string,
                          loudnormLra: string, m: LoudnormStats)
    ensures var r := SecondPassArgv(input, output, loudnormI, loudnormTp, loudnormLra, m);
      OptionValue(r, "-c:v") == Some(Text("copy"))
      && OptionValue(r, "-c:a") == Some(Text("aac")) && OptionValue(r, "-b:a") == Some(Text("512k"))
  {
    SecondPassReads(input, output, loudnormI, loudnormTp, loudnormLra, m, "-c:v");
    SecondPassReads(input, output, loudnormI, loudnormTp, loudnormLra, m, "-c:a");
    SecondPassReads(input, output, loudnormI, loudnormTp, loudnormLra, m, "-b:a");
  }

  /** A setting is read from the settings list: the prefix and the input do not mention it. */
  lemma SecondPassReads(input: Path, output: Path, loudnormI: string, loudnormTp: string,
                        loudnormLra: string, m: LoudnormStats, flag: string)
    requires Text(flag) !in FfmpegArgs(Info) + [Text("-i"), PathArg(input)]
    requires OptionValue(SecondPassSettings(loudnormI, loudnormTp, loudnormLra, m), flag).Some?
    ensures OptionValue(SecondPassArgv(input, output, loudnormI, loudnormTp, loudnormLra, m), flag)
         == OptionValue(SecondPassSettings(loudnormI, loudnormTp, loudnormLra, m), flag)
  {
    OptionValueAround(FfmpegArgs(Info) + [Text("-i"), PathArg(input)],
      SecondPassSettings(loudnormI, loudnormTp, loudnormLra, m), [PathArg(output), Text("-y")], flag);
  }

  /** What the correcting pass asks of ffmpeg between its input and its output: copy the
      video, apply the filter, encode AAC 512k. */
  function SecondPassSettings(loudnormI: string, loudnormTp: string, loudnormLra: string,
                              m: LoudnormStats): (r: seq<Arg>)
    ensures |r| == 8
    ensures OptionValue(r, "-c:v") == Some(Text("copy"))
    ensures OptionValue(r, "-af") == Some(Text(SecondPassFilter(loudnormI, loudnormTp, loudnormLra, m)))
    ensures OptionValue(r, "-c:a") == Some(Text("aac")) && OptionValue(r, "-b:a") == Some(Text("512k"))
  {
    var filter := SecondPassFilter(loudnormI, loudnormTp, loudnormLra, m);
    assert filter[0] == 'l';
    var video := CopyVideoFiltered(filter);
    var audio := [Text("-c:a"), Text("aac"), Text("-b:a"), Text("512k")];
    OptionValueKeep(video, audio, "-c:v");
    OptionValueKeep(video, audio, "-af");
    OptionValueIn(video, audio, "-c:a", 0);
    OptionValueIn(video, audio, "-b:a", 2);
    video + audio
  }

  /** Copy the video stream and filter the audio through `filter`. */
  function CopyVideoFiltered(filter: string): (r: seq<Arg>)
    ensures OptionValue(r, "-c:v") == Some(Text("copy")) && OptionValue(r, "-af") == Some(Text(filter))
  {
    var r := [Text("-c:v"), Text("copy"), Text("-af"), Text(filter)];
    OptionValueAt(r, "-c:v", 0);
    OptionValueAt(r, "-af", 2);
    r
  }

  /** `ROOT_DIR / ".." / "autoeditorlatest" / ".venv" / "bin" / "auto-editor"`. */
  function AutoEditorBin(rootDir: Path): (r: Path)
    ensures Name(r) == "auto-editor" && r.absolute == rootDir.absolute
    ensures Parent(Parent(Parent(Parent(Parent(r))))) == rootDir
    ensures |r.parts| == |rootDir.parts| + 5
  {
    JoinPath(JoinPath(JoinPath(JoinPath(JoinPath(rootDir, ".."), "autoeditorlatest"), ".venv"), "bin"), "auto-editor")
  }

  /** `str(auto_editor_bin)`: a path ending in `/auto-editor`, so longer than, and
      none of, auto-editor's flags (the longest, `--faststart`, has 11 characters). */
  function AutoEditorCommand(rootDir: Path): (r: string)
    ensures EndsWith(r, "/auto-editor") && |r| > 11
  {
    var p := AutoEditorBin(rootDir);
    assert p.parts[|p.parts| - 1] == Name(p);
    Render(p)
  }

  /** auto_editor_cut_silences: the coarse cut, keeping the first and the last two seconds. */
  function AutoEditorArgv(rootDir: Path, input: Path, output: Path): (r: seq<Arg>)
    ensures |r| == 28 && r[0] == Text(AutoEditorCommand(rootDir)) && r[5] == PathArg(input)
    ensures r[24..] == [Text("--add-in"), Text("0,2sec"), Text("--add-in"), Text("-2sec,end")]
  {
    var bin := [Text(AutoEditorCommand(rootDir))];
    var r := bin + AutoEditorEdit(input, output) + AutoEditorSettings();
    assert r[24..] == AutoEditorSettings()[16..];
    r
  }

  /** The cut auto-editor runs is encoded as H.264 at 16M with the high profile and AAC
      at 512k. */
  lemma AutoEditorEncodes(rootDir: Path, input: Path, output: Path)
    ensures var r := AutoEditorArgv(rootDir, input, output);
      OptionValue(r, "-c:v") == Some(Text("libx264")) && OptionValue(r, "-b:v") == Some(Text("16M"))
      && OptionValue(r, "-profile:v") == Some(Text("high"))
      && OptionValue(r, "-c:a") == Some(Text("aac")) && OptionValue(r, "-b:a") == Some(Text("512k"))
  {
    AutoEditorReads(rootDir, input, output, "-c:v");
    AutoEditorReads(rootDir, input, output, "-b:v");
    AutoEditorReads(rootDir, input, output, "-profile:v");
    AutoEditorReads(rootDir, input, output, "-c:a");
    AutoEditorReads(rootDir, input, output, "-b:a");
  }

  /** A setting is read from the settings list when the binary and the edit options do
      not mention it. */
  lemma AutoEditorReads(rootDir: Path, input: Path, output: Path, flag: string)
    requires |flag| <= 11 && Text(flag) !in AutoEditorEdit(input, output)
    requires OptionValue(AutoEditorSettings(), flag).Some?
    ensures OptionValue(AutoEditorArgv(rootDir, input, output), flag) == OptionValue(AutoEditorSettings(), flag)
  {
    var before := [Text(AutoEditorCommand(rootDir))] + AutoEditorEdit(input, output);
    assert before[0] != Text(flag);
    OptionValueSkip(before, AutoEditorSettings(), flag);
  }

  /** The options auto-editor reads: the audio threshold edit, the margins, the input and
      the output. */
  lemma AutoEditorOptions(rootDir: Path, input: Path, output: Path)
    ensures OptionValue(AutoEditorArgv(rootDir, input, output), "--edit")
         == Some(Text("audio:threshold=0.04,stream=all,mincut=30"))
    ensures OptionValue(AutoEditorArgv(rootDir, input, output), "--margin") == Some(Text("0.2s,0.3s"))
    ensures OptionValue(AutoEditorArgv(rootDir, input, output), "-o") == Some(PathArg(output))
  {
    var bin := [Text(AutoEditorCommand(rootDir))];
    var edit := AutoEditorEdit(input, output);
    OptionValueInside(bin, edit, AutoEditorSettings(), "--edit", 0);
    OptionValueInside(bin, edit, AutoEditorSettings(), "--margin", 2);
    OptionValueInside(bin, edit, AutoEditorSettings(), "-o", 5);
  }

  function AutoEditorEdit(input: Path, output: Path): (r: seq<Arg>)
  {
    [Text("--edit"), Text("audio:threshold=0.04,stream=all,mincut=30"),
     Text("--margin"), Text("0.2s,0.3s"),
     PathArg(input),
     Text("-o"), PathArg(output)]
  }

  /** What auto-editor is asked for after its output: H.264 at 16M with the high profile,
      AAC 512k, modern progress, the index in front, no viewer, no data or subtitle
      streams, and the first and last two seconds always kept. */
  function AutoEditorSettings(): (r: seq<Arg>)
    ensures |r| == 20
    ensures OptionValue(r, "-c:v") == Some(Text("libx264")) && OptionValue(r, "-b:v") == Some(Text("16M"))
    ensures OptionValue(r, "-profile:v") == Some(Text("high"))
    ensures OptionValue(r, "-c:a") == Some(Text("aac")) && OptionValue(r, "-b:a") == Some(Text("512k"))
    ensures r[16..] == [Text("--add-in"), Text("0,2sec"), Text("--add-in"), Text("-2sec,end")]
  {
    var codecs := AutoEditorCodecs();
    var flags := [Text("--progress"), Text("modern"), Text("--faststart"), Text("--no-open"), Text("-dn"), Text("-sn")];
    var keep := [Text("--add-in"), Text("0,2sec"), Text("--add-in"), Text("-2sec,end")];
    OptionValueKeep(codecs, flags + keep, "-c:v");
    OptionValueKeep(codecs, flags + keep, "-b:v");
    OptionValueKeep(codecs, flags + keep, "-profile:v");
    OptionValueKeep(codecs, flags + keep, "-c:a");
    OptionValueKeep(codecs, flags + keep, "-b:a");
    var r := codecs + (flags + keep);
    assert r[16..] == keep;
    r
  }

  /** auto-editor's encoder settings: H.264 at 16M with the high profile, AAC 512k. */
  function AutoEditorCodecs(): (r: seq<Arg>)
    ensures |r| == 10
    ensures OptionValue(r, "-c:v") == Some(Text("libx264")) && OptionValue(r, "-b:v") == Some(Text("16M"))
    ensures OptionValue(r, "-profile:v") == Some(Text("high"))
    ensures OptionValue(r, "-c:a") == Some(Text("aac")) && OptionValue(r, "-b:a") == Some(Text("512k"))
  {
    var codecs := [Text("-c:v"), Text("libx264"), Text("-b:v"), Text("16M"), Text("-profile:v"), Text("high"),
      Text("-c:a"), Text("aac"), Text("-b:a"), Text("512k")];
    OptionValueAt(codecs, "-c:v", 0);
    OptionValueAt(codecs, "-b:v", 2);
    OptionValueAt(codecs, "-profile:v", 4);
    OptionValueAt(codecs, "-c:a", 6);
    OptionValueAt(codecs, "-b:a", 8);
    codecs
  }

  /** silero_get_speech_pauses: extract the audio track to a .wav file, overwriting it. */
  function WavArgv(input: Path, output: Path): (r: seq<Arg>)
    ensures |r| == 9 && r[..5] == FfmpegArgs(Warning)
    ensures OptionValue(r, "-i") == Some(PathArg(input))
    ensures r[7] == PathArg(output) && r[8] == Text("-y")
  {
    var head := FfmpegArgs(Warning);
    var tail := [Text("-i"), PathArg(input), PathArg(output), Text("-y")];
    OptionValueIn(head, tail, "-i", 0);
    var r := head + tail;
    assert r[..5] == head;
    r
  }

  /** The external programs sil2.py starts, each by what it is given. */
  datatype Command =
    | FixCodecsCmd(input: Path, output: Path)
    | FirstPassCmd(input: Path, loudnormI: string, loudnormTp: string, loudnormLra: string)
    | SecondPassCmd(input: Path, output: Path, loudnormI: string, loudnormTp: string, loudnormLra: string,
                    stats: LoudnormStats)
    | AutoEditorCmd(rootDir: Path, input: Path, output: Path)
    | ExtractWavCmd(input: Path, output: Path)

  /** The argument list a command is started with. Every ffmpeg command reads its input
      back from `-i`; auto-editor takes it as its first positional argument. */
  function Argv(c: Command): (r: seq<Arg>)
    ensures |r| > 5
    ensures c.AutoEditorCmd? ==> r[0] == Text(AutoEditorCommand(c.rootDir)) && r[5] == PathArg(c.input)
    ensures !c.AutoEditorCmd? ==> r[0] == Text("ffmpeg") && OptionValue(r, "-i") == Some(PathArg(c.input))
  {
    match c
    case FixCodecsCmd(input, output) => FixCodecsArgv(input, output)
    case FirstPassCmd(input, i, tp, lra) => FirstPassArgv(input, i, tp, lra)
    case SecondPassCmd(input, output, i, tp, lra, m) => SecondPassArgv(input, output, i, tp, lra, m)
    case AutoEditorCmd(rootDir, input, output) => AutoEditorArgv(rootDir, input, output)
    case ExtractWavCmd(input, output) => WavArgv(input, output)
  }

  /** The `f"{start},{end}"` strings of the spans, in order. */
  function SpanTexts(spans: seq<SpeechSpan>, show: real -> string): (r: seq<string>)
    ensures |r| == |spans|
    ensures forall i :: 0 <= i < |spans| ==> r[i] == show(spans[i].start) + "," + show(spans[i].end)
  {
    if |spans| == 0 then []
    else [show(spans[0].start) + "," + show(spans[0].end)] + SpanTexts(spans[1..], show)
  }

  /** The keep-list string of smartcut_cut_by_second_timestamps: `",".join` of the spans. */
  function KeepList(spans: seq<SpeechSpan>, show: real -> string): (r: string)
    ensures spans == [] ==> r == ""
  {
    JoinWith(SpanTexts(spans, show), ',')
  }

  /** The bounds of the spans, flattened in order: start0, end0, start1, end1, ... */
  function Bounds(spans: seq<SpeechSpan>, show: real -> string): (r: seq<string>)
    ensures |r| == 2 * |spans|
  {
    if |spans| == 0 then []
    else [show(spans[0].start), show(spans[0].end)] + Bounds(spans[1..], show)
  }

  lemma {:induction false} KeepListIsJoinOfBounds(spans: seq<SpeechSpan>, show: real -> string)
    ensures KeepList(spans, show) == JoinWith(Bounds(spans, show), ',')
  {
    if |spans| == 1 {
      var b := Bounds(spans, show);
      assert b == [show(spans[0].start), show(spans[0].end)];
      assert b[1..] == [show(spans[0].end)];
    } else if |spans| > 1 {
      KeepListIsJoinOfBounds(spans[1..], show);
      var pair := [show(spans[0].start), show(spans[0].end)];
      assert pair[1..] == [show(spans[0].end)];
      JoinAppend(pair, Bounds(spans[1..], show), ',');
    }
  }

  /** The keep-list reads back as the span bounds in input order when the number
      formatting never produces a comma. */
  lemma KeepListReadsBack(spans: seq<SpeechSpan>, show: real -> string)
    requires |spans| > 0
    requires forall x :: ',' !in show(x)
    ensures Split(KeepList(spans, show), ',') == Bounds(spans, show)
  {
    KeepListIsJoinOfBounds(spans, show);
    BoundsHaveNoComma(spans, show);
    SplitJoin(Bounds(spans, show), ',');
  }

  lemma {:induction false} BoundsHaveNoComma(spans: seq<SpeechSpan>, show: real -> string)
    requires forall x :: ',' !in show(x)
    ensures forall i :: 0 <= i < |Bounds(spans, show)| ==> ',' !in Bounds(spans, show)[i]
  {
    if |spans| > 0 {
      BoundsHaveNoComma(spans[1..], show);
    }
  }
}
