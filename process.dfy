/** The segmented pipeline (`process_video_job`): download the input video and the avatar, cut the
    video into four fixed ranges with ffmpeg, face-swap the first and third with Wan2.2-Animate,
    concatenate the four pieces again, upload the result and report it by webhook. */
module Process {
  import opened Text
  import opened Common
  import opened Transfer
  import opened Stages
  import opened Discovery

  // ---------------------------------------------------------------- segmentation

  /** `segments_config`: start and end second of each of the four ranges. */
  datatype SegmentsConfig = SegmentsConfig(
    swap1Start: int, swap1End: int, original1Start: int, original1End: int,
    swap2Start: int, swap2End: int, original2Start: int, original2End: int)

  /** One planned cut: the segment's name and its range in seconds. */
  datatype Cut = Cut(name: string, start: int, end: int)

  /** The four cuts in the fixed order `swap_1`, `original_1`, `swap_2`, `original_2`. */
  function CutPlan(cfg: SegmentsConfig): (plan: seq<Cut>)
    ensures |plan| == 4
  {
    [Cut("swap_1", cfg.swap1Start, cfg.swap1End),
     Cut("original_1", cfg.original1Start, cfg.original1End),
     Cut("swap_2", cfg.swap2Start, cfg.swap2End),
     Cut("original_2", cfg.original2Start, cfg.original2End)]
  }

  const SegmentNames: seq<string> := ["swap_1", "original_1", "swap_2", "original_2"]

  /** The file name of one segment: `segment_<name>.mp4`. */
  function SegmentFile(name: string): string {
    "segment_" + name + ".mp4"
  }

  /** `str(Path(video_path).parent / f"segment_{name}.mp4")`. */
  function SegmentPath(videoPath: string, name: string): string {
    PathJoin(Parent(videoPath), SegmentFile(name))
  }

  /** The four segment paths, in plan order. */
  function SegmentPaths(videoPath: string): seq<string> {
    [SegmentPath(videoPath, "swap_1"), SegmentPath(videoPath, "original_1"),
     SegmentPath(videoPath, "swap_2"), SegmentPath(videoPath, "original_2")]
  }

  /** The ffmpeg command for one cut: stream copy from `start` for `end - start` seconds. */
  function CutArgv(videoPath: string, c: Cut): seq<string> {
    ["ffmpeg", "-i", videoPath, "-ss", IntString(c.start), "-t", IntString(c.end - c.start),
     "-c", "copy", "-y", SegmentPath(videoPath, c.name)]
  }

  /** The ffmpeg runs for all four cuts, in plan order. */
  function CutRuns(videoPath: string, cfg: SegmentsConfig): (runs: seq<Effect>)
    ensures |runs| == 4
  {
    var plan := CutPlan(cfg);
    [Run(CutArgv(videoPath, plan[0])), Run(CutArgv(videoPath, plan[1])),
     Run(CutArgv(videoPath, plan[2])), Run(CutArgv(videoPath, plan[3]))]
  }

  /** Position of the first run that did not exit with status 0, or the number of runs. */
  function FirstBadExit(exits: seq<Proc>): (k: nat)
    ensures k <= |exits|
    ensures forall j :: 0 <= j < k ==> ExitedZero(exits[j])
    ensures k < |exits| ==> !ExitedZero(exits[k])
    decreases |exits|
  {
    if exits == [] then 0
    else if !ExitedZero(exits[0]) then 0
    else 1 + FirstBadExit(exits[1..])
  }

  /** `segment_video`: the cuts run in plan order up to the first whose ffmpeg does not exit with
      status 0 (or raises); that one ends the function with None, never a partial list. */
  function Segmentation(videoPath: string, cfg: SegmentsConfig, exits: seq<Proc>)
    : (Option<seq<string>>, seq<Effect>)
    requires |exits| == 4
  {
    var k := FirstBadExit(exits);
    if k == 4 then (Some(SegmentPaths(videoPath)), CutRuns(videoPath, cfg))
    else (None, CutRuns(videoPath, cfg)[..k + 1])
  }

  /** `segment_video` succeeds exactly when every cut exits with status 0, and then yields the four
      segment paths; the runs are always a prefix of the planned cuts, ending with the first cut
      that fails. */
  lemma SegmentationOutcome(videoPath: string, cfg: SegmentsConfig, exits: seq<Proc>)
    requires |exits| == 4
    ensures var (segments, runs) := Segmentation(videoPath, cfg, exits);
      && (segments.Some? <==> forall j :: 0 <= j < 4 ==> ExitedZero(exits[j]))
      && (segments.Some? ==> segments.value == SegmentPaths(videoPath))
      && |runs| <= 4 && runs == CutRuns(videoPath, cfg)[..|runs|]
      && (segments.None? ==> |runs| == FirstBadExit(exits) + 1 && !ExitedZero(exits[|runs| - 1]))
  {
    var k := FirstBadExit(exits);
    var runs := Segmentation(videoPath, cfg, exits).1;
    if k == 4 {
      assert runs == CutRuns(videoPath, cfg)[..4];
    } else {
      assert |runs| == k + 1;
    }
  }

  /** Runs that agree with the planned cuts one by one are a prefix of the plan's runs. */
  lemma CutRunsPrefix(videoPath: string, cfg: SegmentsConfig, runs: seq<Effect>)
    requires |runs| <= 4
    requires forall j :: 0 <= j < |runs| ==> runs[j] == Run(CutArgv(videoPath, CutPlan(cfg)[j]))
    ensures runs == CutRuns(videoPath, cfg)[..|runs|]
  { }

  /** Paths that agree with the planned cuts' names one by one are the segment paths. */
  lemma SegmentPathsOfPlan(videoPath: string, cfg: SegmentsConfig, paths: seq<string>)
    requires |paths| == 4
    requires forall j :: 0 <= j < 4 ==> paths[j] == SegmentPath(videoPath, CutPlan(cfg)[j].name)
    ensures paths == SegmentPaths(videoPath)
  { }

  /** Cuts that ran as planned, all but the last exiting with status 0, are what a failed
      segmentation leaves. */
  lemma SegmentationStops(videoPath: string, cfg: SegmentsConfig, exits: seq<Proc>, runs: seq<Effect>)
    requires |exits| == 4 && 0 < |runs| <= 4
    requires forall j :: 0 <= j < |runs| - 1 ==> ExitedZero(exits[j])
    requires !ExitedZero(exits[|runs| - 1])
    requires forall j :: 0 <= j < |runs| ==> runs[j] == Run(CutArgv(videoPath, CutPlan(cfg)[j]))
    ensures Segmentation(videoPath, cfg, exits) == (None, runs)
  {
    assert FirstBadExit(exits) == |runs| - 1;
    CutRunsPrefix(videoPath, cfg, runs);
  }

  /** Four cuts that ran as planned and exited with status 0 make a complete segmentation. */
  lemma SegmentationCompletes(videoPath: string, cfg: SegmentsConfig, exits: seq<Proc>, paths: seq<string>,
                              runs: seq<Effect>)
    requires |exits| == 4 && |paths| == 4 && |runs| == 4
    requires forall j :: 0 <= j < 4 ==>
      ExitedZero(exits[j]) && paths[j] == SegmentPath(videoPath, CutPlan(cfg)[j].name) &&
      runs[j] == Run(CutArgv(videoPath, CutPlan(cfg)[j]))
    ensures Segmentation(videoPath, cfg, exits) == (Some(paths), runs)
  {
    assert FirstBadExit(exits) == 4;
    CutRunsPrefix(videoPath, cfg, runs);
    assert runs == CutRuns(videoPath, cfg);
    SegmentPathsOfPlan(videoPath, cfg, paths);
  }

  /** `segment_video` as the source runs it; `exits` is what each ffmpeg run yields. */
  method SegmentVideo(videoPath: string, cfg: SegmentsConfig, exits: seq<Proc>)
    returns (segments: Option<seq<string>>, runs: seq<Effect>)
    requires |exits| == 4
    ensures (segments, runs) == Segmentation(videoPath, cfg, exits)
  {
    segments, runs := CutAll(videoPath, CutPlan(cfg), exits);
    if segments.None? {
      SegmentationStops(videoPath, cfg, exits, runs);
    } else {
      SegmentationCompletes(videoPath, cfg, exits, segments.value, runs);
    }
  }

  /** The loop of `segment_video` over any list of cuts: one ffmpeg run per cut, in order, stopping
      at the first that does not exit with status 0. */
  method CutAll(videoPath: string, plan: seq<Cut>, exits: seq<Proc>)
    returns (segments: Option<seq<string>>, runs: seq<Effect>)
    requires |exits| == |plan|
    ensures |runs| <= |plan|
    ensures forall j :: 0 <= j < |runs| ==> runs[j] == Run(CutArgv(videoPath, plan[j]))
    ensures segments.Some? ==>
      && |runs| == |plan| && |segments.value| == |plan|
      && forall j :: 0 <= j < |plan| ==>
           ExitedZero(exits[j]) && segments.value[j] == SegmentPath(videoPath, plan[j].name)
    ensures segments.None? ==>
      && 0 < |runs| && !ExitedZero(exits[|runs| - 1])
      && forall j :: 0 <= j < |runs| - 1 ==> ExitedZero(exits[j])
  {
    var acc: seq<string> := [];
    runs := [];
    var i := 0;
    while i < |plan|
      invariant 0 <= i <= |plan| && |acc| == i && |runs| == i
      invariant forall j :: 0 <= j < i ==>
        ExitedZero(exits[j]) && acc[j] == SegmentPath(videoPath, plan[j].name) &&
        runs[j] == Run(CutArgv(videoPath, plan[j]))
    {
      var c := plan[i];
      runs := runs + [Run(CutArgv(videoPath, c))];
      if !ExitedZero(exits[i]) {
        assert |runs| - 1 == i;
        return None, runs;
      }
      acc := acc + [SegmentPath(videoPath, c.name)];
      i := i + 1;
    }
    return Some(acc), runs;
  }

  /** Inside a temporary directory the segments are `<dir>/segment_<name>.mp4`, next to the input. */
  lemma SegmentPathsInDir(dir: string)
    requires AbsoluteDir(dir)
    ensures SegmentPaths(OsJoin(dir, InputVideoName)) ==
      [dir + "/" + SegmentFile("swap_1"), dir + "/" + SegmentFile("original_1"),
       dir + "/" + SegmentFile("swap_2"), dir + "/" + SegmentFile("original_2")]
  {
    JoinSplits(dir, InputVideoName);
    PathJoinAbsolute(dir, SegmentFile("swap_1"));
    PathJoinAbsolute(dir, SegmentFile("original_1"));
    PathJoinAbsolute(dir, SegmentFile("swap_2"));
    PathJoinAbsolute(dir, SegmentFile("original_2"));
  }

  // ---------------------------------------------------------------- face swap of one segment

  const PreprocessScript: string := "/app/Wan2.2/wan/modules/animate/preprocess/preprocess_data.py"
  const GenerateScript: string := "/app/Wan2.2/generate.py"
  const ModelDir: string := "/models/Wan2.2-Animate-14B/"
  const ProcessCheckpoint: string := "/models/Wan2.2-Animate-14B/process_checkpoint"
  const SwapDirPrefix: string := "/tmp/processing/wan_process_"
  const SwappedSuffix: string := "_swapped.mp4"

  /** Preprocessing options after the paths: 1280x720 area, 3 iterations, k 7, 1x1 windows,
      replacement mode. */
  const PreprocessOptions: seq<string> :=
    ["--resolution_area", "1280", "720", "--iterations", "3", "--k", "7", "--w_len", "1", "--h_len", "1",
     "--replace_flag"]

  /** Generation options after the source directory; the reference-count flag is spelled
      `--refert_num`. */
  const GenerateOptions: seq<string> := ["--refert_num", "1", "--replace_flag", "--use_relighting_lora"]

  /** `segment_path.replace('.mp4', '_swapped.mp4')`. */
  function SwappedPath(segmentPath: string): string {
    Replace(segmentPath, ".mp4", SwappedSuffix)
  }

  /** The model's working directory for one segment, named after the segment's file name. */
  function SwapDir(segmentPath: string): string {
    SwapDirPrefix + Basename(segmentPath)
  }

  /** The preprocessing command for one segment, writing into the segment's working directory. */
  function SwapPreprocessArgv(segmentPath: string, avatarPath: string): seq<string> {
    ["python3", PreprocessScript, "--ckpt_path", ProcessCheckpoint, "--video_path", segmentPath,
     "--refer_path", avatarPath, "--save_path", SwapDir(segmentPath)] + PreprocessOptions
  }

  /** The generation command, reading the preprocessed working directory. */
  function SwapGenerateArgv(segmentPath: string): seq<string> {
    ["python3", GenerateScript, "--task", "animate-14B", "--ckpt_dir", ModelDir,
     "--src_root_path", SwapDir(segmentPath)] + GenerateOptions
  }

  /** `face_swap_segment`: create the working directory, preprocess, generate, discover the output,
      move it to the swapped path and remove the working directory. A failing step raises inside the
      function's `try` and yields None; the working directory is then left behind. */
  function SwapSegmentSpec(segmentPath: string, avatarPath: string, m: ModelRun)
    : (Option<string>, seq<Effect>)
  {
    var dir := SwapDir(segmentPath);
    SwapSteps(dir, SwapPreprocessArgv(segmentPath, avatarPath), SwapGenerateArgv(segmentPath), m,
              SegmentPick(dir, m.listing, m.files, segmentPath), SwappedPath(segmentPath))
  }

  /** The steps of one swap once its working directory, its two commands, the discovered video and
      the target path are known. */
  function SwapSteps(dir: string, preprocess: seq<string>, generate: seq<string>, m: ModelRun,
                     found: Option<string>, output: string): (Option<string>, seq<Effect>)
  {
    var prepared := [MakeDirs(dir), Run(preprocess)];
    if !ExitedZero(m.preprocess) then (None, prepared)
    else
      var generated := prepared + [Run(generate)];
      if !ExitedZero(m.generate) then (None, generated)
      else if found.None? then (None, generated)
      else
        var moved := generated + [Move(found.value, output)];
        if found.value in m.files && m.moveOk then (Some(output), moved + [RemoveTree(dir)])
        else (None, moved)
  }

  /** The two discovery loops of `face_swap_segment`: the fallback scan runs when the first found
      nothing or found a path that does not exist. */
  method FindSwapOutput(dir: string, listing: seq<string>, files: map<string, nat>, segmentPath: string)
    returns (generated: Option<string>)
    ensures generated == SegmentPick(dir, listing, files, segmentPath)
  {
    generated := ScanForOutput(dir, listing);
    if generated.None? || generated.value !in files {
      var potential := ScanForOther(dir, listing, segmentPath);
      if potential.Some? {
        generated := potential;
      }
    }
  }

  /** `face_swap_segment` as the source runs it; `m` is what the model run yields. */
  method SwapSegment(segmentPath: string, avatarPath: string, m: ModelRun)
    returns (swapped: Option<string>, effects: seq<Effect>)
    ensures (swapped, effects) == SwapSegmentSpec(segmentPath, avatarPath, m)
  {
    var output := SwappedPath(segmentPath);
    var dir := SwapDir(segmentPath);
    effects := [MakeDirs(dir), Run(SwapPreprocessArgv(segmentPath, avatarPath))];
    if !ExitedZero(m.preprocess) {
      return None, effects;
    }
    effects := effects + [Run(SwapGenerateArgv(segmentPath))];
    if !ExitedZero(m.generate) {
      return None, effects;
    }
    var generated := FindSwapOutput(dir, m.listing, m.files, segmentPath);
    if generated.None? {
      return None, effects;
    }
    effects := effects + [Move(generated.value, output)];
    if !(generated.value in m.files && m.moveOk) {
      return None, effects;
    }
    effects := effects + [RemoveTree(dir)];
    return Some(output), effects;
  }

  /** A swap succeeds exactly when both model steps exit with status 0 and a discovered video exists
      and is moved, and its result is then the swapped path. */
  lemma SwapSucceedsIff(segmentPath: string, avatarPath: string, m: ModelRun)
    ensures var r := SwapSegmentSpec(segmentPath, avatarPath, m).0;
      var found := SegmentPick(SwapDir(segmentPath), m.listing, m.files, segmentPath);
      && (r.Some? <==> ExitedZero(m.preprocess) && ExitedZero(m.generate) && found.Some?
                       && found.value in m.files && m.moveOk)
      && (r.Some? ==> r.value == SwappedPath(segmentPath))
  { }

  /** A failed preprocessing ends the swap after creating the working directory: generation never
      starts. */
  lemma SwapStopsAfterPreprocess(segmentPath: string, avatarPath: string, m: ModelRun)
    requires !ExitedZero(m.preprocess)
    ensures var effects := SwapSegmentSpec(segmentPath, avatarPath, m).1;
      && effects == [MakeDirs(SwapDir(segmentPath)), Run(SwapPreprocessArgv(segmentPath, avatarPath))]
      && Run(SwapGenerateArgv(segmentPath)) !in effects
  {
    assert SwapPreprocessArgv(segmentPath, avatarPath)[1] != SwapGenerateArgv(segmentPath)[1];
  }

  /** The working directory is removed exactly when the swap succeeds, as its last effect. */
  lemma SwapCleansOnSuccess(segmentPath: string, avatarPath: string, m: ModelRun)
    ensures var (r, effects) := SwapSegmentSpec(segmentPath, avatarPath, m);
      && (RemoveTree(SwapDir(segmentPath)) in effects <==> r.Some?)
      && (r.Some? ==> effects[|effects| - 1] == RemoveTree(SwapDir(segmentPath)))
  { }

  /** A name without `.` holds no `.mp4`. */
  lemma NoDotNoMp4(s: string)
    requires '.' !in s
    ensures !Contains(s, ".mp4")
  {
    if Contains(s, ".mp4") {
      ContainsFirstChar(s, ".mp4");
    }
  }

  /** No segment file name holds a `.` before its extension. */
  lemma SegmentNameDotless(i: nat)
    requires i < 4
    ensures '.' !in "segment_" + SegmentNames[i]
  {
    var lead := "segment_";
    assert '.' !in lead;
    if i == 0 {
      assert '.' !in "swap_1";
    } else if i == 1 {
      assert '.' !in "original_1";
    } else if i == 2 {
      assert '.' !in "swap_2";
    } else {
      assert '.' !in "original_2";
    }
  }

  /** A segment `<dir>/segment_<name>.mp4` of the temporary directory is swapped into
      `<dir>/segment_<name>_swapped.mp4`, provided the directory name holds no `.`. */
  lemma SwappedSegmentPath(dir: string, i: nat)
    requires AbsoluteDir(dir) && '.' !in dir
    requires i < 4
    ensures SwappedPath(SegmentPaths(OsJoin(dir, InputVideoName))[i])
         == dir + "/" + ("segment_" + SegmentNames[i]) + SwappedSuffix
  {
    var name := SegmentNames[i];
    var stem := dir + "/" + ("segment_" + name);
    SegmentPathsInDir(dir);
    assert SegmentPaths(OsJoin(dir, InputVideoName))[i] == dir + "/" + SegmentFile(name) by {
      if i == 0 { assert name == "swap_1"; }
      else if i == 1 { assert name == "original_1"; }
      else if i == 2 { assert name == "swap_2"; }
      else { assert name == "original_2"; }
    }
    ConcatAssoc(dir + "/", "segment_" + name, ".mp4");
    SegmentNameDotless(i);
    assert '.' !in dir + "/";
    assert '.' !in stem;
    NoDotNoMp4(stem);
    Mp4Borderless();
    ReplaceLast(stem, ".mp4", SwappedSuffix);
  }

  /** The two swapped segments get different working directories. */
  lemma SwapDirsDistinct(dir: string)
    requires AbsoluteDir(dir)
    ensures SwapDir(SegmentPaths(OsJoin(dir, InputVideoName))[0])
         != SwapDir(SegmentPaths(OsJoin(dir, InputVideoName))[2])
  {
    JoinSplits(dir, InputVideoName);
    var b1, b2 := SegmentFile("swap_1"), SegmentFile("swap_2");
    PathJoinAbsolute(dir, b1);
    PathJoinAbsolute(dir, b2);
    JoinSplits(dir, b1);
    JoinSplits(dir, b2);
    SwapFilesDiffer();
    DistinctAfterPrefix(SwapDirPrefix, b1, b2, 13);
  }

  /** The model's working directories are named after the segment file alone, so every job uses
      the same two, whatever its temporary directory: `/tmp/processing/wan_process_segment_swap_1.mp4`
      and `..._swap_2.mp4`. A directory left behind by a failed swap is still there for the next job's
      output search, and concurrent jobs share it. */
  lemma SwapDirsShared(dir: string)
    requires AbsoluteDir(dir)
    ensures SwapDir(SegmentPaths(OsJoin(dir, InputVideoName))[0]) == SwapDirPrefix + "segment_swap_1.mp4"
    ensures SwapDir(SegmentPaths(OsJoin(dir, InputVideoName))[2]) == SwapDirPrefix + "segment_swap_2.mp4"
  {
    JoinSplits(dir, InputVideoName);
    var b1, b2 := SegmentFile("swap_1"), SegmentFile("swap_2");
    PathJoinAbsolute(dir, b1);
    PathJoinAbsolute(dir, b2);
    JoinSplits(dir, b1);
    JoinSplits(dir, b2);
  }

  /** `segment_swap_1.mp4` and `segment_swap_2.mp4` differ at their fourteenth character. */
  lemma SwapFilesDiffer()
    ensures 13 < |SegmentFile("swap_1")| && 13 < |SegmentFile("swap_2")|
    ensures SegmentFile("swap_1")[13] != SegmentFile("swap_2")[13]
  { }

  /** Strings with a common prefix differ when what follows differs at some position. */
  lemma DistinctAfterPrefix(p: string, a: string, b: string, i: nat)
    requires i < |a| && i < |b| && a[i] != b[i]
    ensures p + a != p + b
  {
    assert (p + a)[|p| + i] == a[i];
    assert (p + b)[|p| + i] == b[i];
  }

  // ---------------------------------------------------------------- reassembly

  /** One line of ffmpeg's concat list: `file '<path>'`. */
  function ManifestLine(path: string): string {
    "file '" + path + "'\n"
  }

  /** The concat list for the given paths, one line each, in order. */
  function Manifest(paths: seq<string>): string
    decreases |paths|
  {
    if paths == [] then "" else Manifest(paths[..|paths| - 1]) + ManifestLine(paths[|paths| - 1])
  }

  /** Position of the first line break in `text`, or -1 when there is none. */
  function NewlineAt(text: string): (i: int)
    ensures -1 <= i < |text|
    ensures i >= 0 ==> text[i] == '\n'
    ensures forall j :: 0 <= j < |text| && (i < 0 || j < i) ==> text[j] != '\n'
    decreases |text|
  {
    if text == [] then -1
    else if text[0] == '\n' then 0
    else
      var k := NewlineAt(text[1..]);
      if k < 0 then -1 else k + 1
  }

  /** The model's own reader for a list of `file '<path>'` lines: each line gives back the text
      between `file '` and the closing quote. It does not apply the concat demuxer's escaping rules
      for `'` and `\`. */
  function ParseManifest(text: string): Option<seq<string>>
    decreases |text|
  {
    if text == [] then Some([])
    else
      var i := NewlineAt(text);
      if i < 0 then None
      else
        var line := text[..i];
        if |line| >= 7 && line[..6] == "file '" && line[|line| - 1] == '\'' then
          match ParseManifest(text[i + 1..])
          case None => None
          case Some(rest) => Some([line[6..|line| - 1]] + rest)
        else None
  }

  lemma {:induction false} ManifestCons(p: string, ps: seq<string>)
    ensures Manifest([p] + ps) == ManifestLine(p) + Manifest(ps)
    decreases |ps|
  {
    if ps == [] {
      assert ([p] + ps)[..0] == [];
      assert [p] + ps == [p];
    } else {
      var n := |ps| - 1;
      assert ([p] + ps)[..|ps|] == [p] + ps[..n];
      ManifestCons(p, ps[..n]);
    }
  }

  lemma ParseLine(p: string, rest: string)
    requires '\n' !in p
    ensures ParseManifest(ManifestLine(p) + rest) ==
      match ParseManifest(rest)
      case None => None
      case Some(r) => Some([p] + r)
  {
    var text := ManifestLine(p) + rest;
    var n := |p| + 7;
    assert text[n] == '\n';
    assert forall j :: 0 <= j < n ==> text[j] != '\n' by {
      forall j | 0 <= j < n ensures text[j] != '\n' {
        if 6 <= j < n - 1 {
          assert text[j] == p[j - 6];
        }
      }
    }
    assert NewlineAt(text) == n;
    var line := text[..n];
    assert line == "file '" + p + "'";
    assert line[..6] == "file '";
    assert line[6..|line| - 1] == p;
    assert text[n + 1..] == rest;
  }

  /** Reading the concat list back yields exactly the segment paths in order, as long as no path
      contains a line break. */
  lemma {:induction false} ManifestRoundTrip(paths: seq<string>)
    requires forall i :: 0 <= i < |paths| ==> '\n' !in paths[i]
    ensures ParseManifest(Manifest(paths)) == Some(paths)
    decreases |paths|
  {
    if paths == [] {
    } else {
      ManifestCons(paths[0], paths[1..]);
      assert [paths[0]] + paths[1..] == paths;
      ManifestRoundTrip(paths[1..]);
      ParseLine(paths[0], Manifest(paths[1..]));
    }
  }

  /** `output_path.replace('.mp4', '_concat.txt')`. */
  function ManifestPath(outputPath: string): string {
    Replace(outputPath, ".mp4", "_concat.txt")
  }

  /** ffmpeg's concat demuxer over the list, with stream copy. */
  function ConcatArgv(outputPath: string): seq<string> {
    ["ffmpeg", "-f", "concat", "-safe", "0", "-i", ManifestPath(outputPath), "-c", "copy", "-y", outputPath]
  }

  /** `stitch_segments`: write the list, run ffmpeg, succeed exactly when it exits with status 0.
      `writable` says whether the list can be written; a failed write returns False before ffmpeg. */
  function StitchSpec(paths: seq<string>, outputPath: string, writable: bool, concat: Proc)
    : (bool, seq<Effect>)
  {
    if !writable then (false, [])
    else (ExitedZero(concat), [WriteFile(ManifestPath(outputPath), Manifest(paths)), Run(ConcatArgv(outputPath))])
  }

  /** The loop that writes the concat list. */
  method WriteManifest(paths: seq<string>) returns (text: string)
    ensures text == Manifest(paths)
  {
    text := "";
    var i := 0;
    while i < |paths|
      invariant 0 <= i <= |paths|
      invariant text == Manifest(paths[..i])
    {
      assert paths[..i + 1][..i] == paths[..i];
      text := text + "file '" + paths[i] + "'\n";
      i := i + 1;
    }
    assert paths[..|paths|] == paths;
  }

  /** `stitch_segments` as the source runs it. */
  method StitchSegments(paths: seq<string>, outputPath: string, writable: bool, concat: Proc)
    returns (ok: bool, effects: seq<Effect>)
    ensures (ok, effects) == StitchSpec(paths, outputPath, writable, concat)
  {
    var concatFile := Replace(outputPath, ".mp4", "_concat.txt");
    if !writable {
      return false, [];
    }
    var text := WriteManifest(paths);
    var cmd := ["ffmpeg", "-f", "concat", "-safe", "0", "-i", concatFile, "-c", "copy", "-y", outputPath];
    effects := [WriteFile(concatFile, text), Run(cmd)];
    ok := ExitedZero(concat);
  }

  /** Inside a temporary directory the concat list is `final_output_concat.txt` beside the output. */
  lemma FinalManifestPath(dir: string)
    requires AbsoluteDir(dir) && '.' !in dir
    ensures ManifestPath(OsJoin(dir, FinalOutputName)) == dir + "/" + "final_output" + "_concat.txt"
  {
    var stem := dir + "/" + "final_output";
    JoinSplits(dir, FinalOutputName);
    assert FinalOutputName == "final_output" + ".mp4";
    ConcatAssoc(dir + "/", "final_output", ".mp4");
    assert '.' !in "final_output";
    assert '.' !in stem;
    NoDotNoMp4(stem);
    Mp4Borderless();
    ReplaceLast(stem, ".mp4", "_concat.txt");
  }

  // ---------------------------------------------------------------- the job

  /** The part of the configuration `process_video_job` reads: `processing.segments` and `storage`. */
  datatype SegmentedConfig = SegmentedConfig(segments: SegmentsConfig, storage: StorageConfig)

  /** What the outside world does during one job: whether `mkdtemp` returns a directory or raises,
      whether each download succeeds, what each ffmpeg cut yields, the two model runs, whether the
      concat list can be written, what the concatenation yields, and the storage service's answer. */
  datatype SegmentedOracle = SegmentedOracle(
    tempDir: Attempt<string>, videoFetched: bool, avatarFetched: bool, cuts: seq<Proc>,
    swap1: ModelRun, swap3: ModelRun, manifestWritable: bool, concat: Proc, upload: UploadOutcome)

  /** The failure status of this variant's webhook: U+1F6A9 (triangular flag) followed by ` Failed`. */
  const SegmentedFailedStatus: string := "\U{1F6A9} Failed"

  /** The order in which the four pieces are reassembled: swapped first, original second, swapped
      third, original fourth. */
  function FinalSegments(videoPath: string): seq<string> {
    var segs := SegmentPaths(videoPath);
    [SwappedPath(segs[0]), segs[1], SwappedPath(segs[2]), segs[3]]
  }

  const AvatarName: string := "avatar.jpg"
  const FinalOutputName: string := "final_output.mp4"

  /** The exception texts of the steps that fail by returning a falsy value. */
  const SegmentationFailed: string := "Video segmentation failed"
  const Swap1Failed: string := "Face-swap failed on segment 1"
  const Swap3Failed: string := "Face-swap failed on segment 3"
  const StitchingFailed: string := "Video stitching failed"

  function CutStage(videoPath: string, cfg: SegmentsConfig, exits: seq<Proc>): Stage
    requires |exits| == 4
  {
    var cut := Segmentation(videoPath, cfg, exits);
    Stage(cut.0.Some?, cut.1, SegmentationFailed)
  }

  function SwapStage(segmentPath: string, avatarPath: string, m: ModelRun, error: string): Stage {
    var swap := SwapSegmentSpec(segmentPath, avatarPath, m);
    Stage(swap.0.Some?, swap.1, error)
  }

  function StitchStage(videoPath: string, outputPath: string, writable: bool, concat: Proc): Stage {
    var stitch := StitchSpec(FinalSegments(videoPath), outputPath, writable, concat);
    Stage(stitch.0, stitch.1, StitchingFailed)
  }

  function OpeningStages(videoUrl: Value, avatarUrl: Value, o: SegmentedOracle): (stages: seq<Stage>)
    ensures |stages| == 3
  {
    [TempStage(o.tempDir),
     DownloadStage(videoUrl, OsJoin(WorkDir(o.tempDir), InputVideoName), o.videoFetched, VideoDownloadFailed),
     DownloadStage(avatarUrl, OsJoin(WorkDir(o.tempDir), AvatarName), o.avatarFetched, AvatarDownloadFailed)]
  }

  function LaterStages(recordId: Value, cfg: SegmentedConfig, video: string, avatar: string, output: string,
                       o: SegmentedOracle): (stages: seq<Stage>)
    requires |o.cuts| == 4
    ensures |stages| == 5
  {
    [CutStage(video, cfg.segments, o.cuts),
     SwapStage(SegmentPaths(video)[0], avatar, o.swap1, Swap1Failed),
     SwapStage(SegmentPaths(video)[2], avatar, o.swap3, Swap3Failed),
     StitchStage(video, output, o.manifestWritable, o.concat),
     UploadStage(output, recordId, cfg.storage, o.upload)]
  }

  /** The eight steps of `process_video_job`'s `try` block with the exception text each raises. */
  function SegmentedStages(recordId: Value, videoUrl: Value, avatarUrl: Value, cfg: SegmentedConfig,
                           o: SegmentedOracle): (stages: seq<Stage>)
    requires |o.cuts| == 4
    ensures |stages| == 8
  {
    OpeningStages(videoUrl, avatarUrl, o)
      + LaterStages(recordId, cfg, OsJoin(WorkDir(o.tempDir), InputVideoName), OsJoin(WorkDir(o.tempDir), AvatarName),
                    OsJoin(WorkDir(o.tempDir), FinalOutputName), o)
  }

  /** `process_video_job`: the result it returns and every effect it has, in order. */
  function SegmentedJob(recordId: Value, videoUrl: Value, avatarUrl: Value, cfg: SegmentedConfig,
                        webhookUrl: Value, o: SegmentedOracle): (JobResult, seq<Effect>)
    requires |o.cuts| == 4
  {
    Conclude(SegmentedFailedStatus, recordId, webhookUrl, TempDirOf(o.tempDir),
             Walk(SegmentedStages(recordId, videoUrl, avatarUrl, cfg, o)), JobUrl(cfg.storage, recordId))
  }

  /** `segment_video` as stage 3; on success the four segment paths. */
  method CutStep(ghost stages: seq<Stage>, work: seq<Effect>, videoPath: string, cfg: SegmentsConfig,
                 exits: seq<Proc>)
    returns (stopped: bool, error: string, done: seq<Effect>, segments: seq<string>)
    requires |exits| == 4
    requires Reached(stages, 3, work) && 3 < |stages| && stages[3] == CutStage(videoPath, cfg, exits)
    ensures stopped ==> Stopped(stages, 3, done) && error == stages[3].error
    ensures !stopped ==> Reached(stages, 4, done) && segments == SegmentPaths(videoPath)
  {
    var result, runs := SegmentVideo(videoPath, cfg, exits);
    stopped, error, done := Record(stages, 3, work, result.Some?, runs, SegmentationFailed);
    segments := if result.Some? then result.value else [];
  }

  /** `face_swap_segment` as stage `k`; on success the swapped segment's path. */
  method SwapStep(ghost stages: seq<Stage>, k: nat, work: seq<Effect>, segmentPath: string,
                  avatarPath: string, m: ModelRun, failure: string)
    returns (stopped: bool, error: string, done: seq<Effect>, swapped: string)
    requires Reached(stages, k, work) && k < |stages| && stages[k] == SwapStage(segmentPath, avatarPath, m, failure)
    ensures stopped ==> Stopped(stages, k, done) && error == stages[k].error
    ensures !stopped ==> Reached(stages, k + 1, done) && swapped == SwappedPath(segmentPath)
  {
    var result, effects := SwapSegment(segmentPath, avatarPath, m);
    SwapSucceedsIff(segmentPath, avatarPath, m);
    stopped, error, done := Record(stages, k, work, result.Some?, effects, failure);
    swapped := if result.Some? then result.value else "";
  }

  /** `stitch_segments` as stage 6. */
  method StitchStep(ghost stages: seq<Stage>, work: seq<Effect>, videoPath: string, finalSegments: seq<string>,
                    outputPath: string, writable: bool, concat: Proc)
    returns (stopped: bool, error: string, done: seq<Effect>)
    requires finalSegments == FinalSegments(videoPath)
    requires Reached(stages, 6, work) && 6 < |stages|
    requires stages[6] == StitchStage(videoPath, outputPath, writable, concat)
    ensures stopped ==> Stopped(stages, 6, done) && error == stages[6].error
    ensures !stopped ==> Reached(stages, 7, done)
  {
    var ok, effects := StitchSegments(finalSegments, outputPath, writable, concat);
    stopped, error, done := Record(stages, 6, work, ok, effects, StitchingFailed);
  }

  /** What the first three steps of `process_video_job` amount to. */
  ghost predicate Opening(stages: seq<Stage>, videoUrl: Value, avatarUrl: Value, o: SegmentedOracle) {
    |stages| == 8 &&
    stages[0] == TempStage(o.tempDir) &&
    stages[1] == DownloadStage(videoUrl, OsJoin(WorkDir(o.tempDir), InputVideoName), o.videoFetched, VideoDownloadFailed) &&
    stages[2] == DownloadStage(avatarUrl, OsJoin(WorkDir(o.tempDir), AvatarName), o.avatarFetched, AvatarDownloadFailed)
  }

  /** What the last five steps of `process_video_job` amount to, over its three working paths. */
  ghost predicate Remaining(stages: seq<Stage>, recordId: Value, cfg: SegmentedConfig, videoPath: string,
                            avatarPath: string, outputPath: string, o: SegmentedOracle) {
    |stages| == 8 && |o.cuts| == 4 &&
    stages[3] == CutStage(videoPath, cfg.segments, o.cuts) &&
    stages[4] == SwapStage(SegmentPaths(videoPath)[0], avatarPath, o.swap1, Swap1Failed) &&
    stages[5] == SwapStage(SegmentPaths(videoPath)[2], avatarPath, o.swap3, Swap3Failed) &&
    stages[6] == StitchStage(videoPath, outputPath, o.manifestWritable, o.concat) &&
    stages[7] == UploadStage(outputPath, recordId, cfg.storage, o.upload)
  }

  lemma SegmentedOpening(recordId: Value, videoUrl: Value, avatarUrl: Value, cfg: SegmentedConfig,
                          o: SegmentedOracle)
    requires |o.cuts| == 4
    ensures Opening(SegmentedStages(recordId, videoUrl, avatarUrl, cfg, o), videoUrl, avatarUrl, o)
  {
    OpeningStagesBefore(videoUrl, avatarUrl, o,
                        LaterStages(recordId, cfg, OsJoin(WorkDir(o.tempDir), InputVideoName), OsJoin(WorkDir(o.tempDir), AvatarName),
                                    OsJoin(WorkDir(o.tempDir), FinalOutputName), o));
  }

  lemma OpeningStagesBefore(videoUrl: Value, avatarUrl: Value, o: SegmentedOracle, rest: seq<Stage>)
    requires |rest| == 5
    ensures Opening(OpeningStages(videoUrl, avatarUrl, o) + rest, videoUrl, avatarUrl, o)
  { }

  lemma SegmentedRemaining(recordId: Value, videoUrl: Value, avatarUrl: Value, cfg: SegmentedConfig,
                           o: SegmentedOracle)
    requires |o.cuts| == 4
    ensures Remaining(SegmentedStages(recordId, videoUrl, avatarUrl, cfg, o), recordId, cfg,
                      OsJoin(WorkDir(o.tempDir), InputVideoName), OsJoin(WorkDir(o.tempDir), AvatarName),
                      OsJoin(WorkDir(o.tempDir), FinalOutputName), o)
  {
    var first := OpeningStages(videoUrl, avatarUrl, o);
    var videoPath, avatarPath, outputPath :=
      OsJoin(WorkDir(o.tempDir), InputVideoName), OsJoin(WorkDir(o.tempDir), AvatarName), OsJoin(WorkDir(o.tempDir), FinalOutputName);
    CutAfter(first, recordId, cfg, videoPath, avatarPath, outputPath, o);
    Swap1After(first, recordId, cfg, videoPath, avatarPath, outputPath, o);
    Swap3After(first, recordId, cfg, videoPath, avatarPath, outputPath, o);
    StitchAfter(first, recordId, cfg, videoPath, avatarPath, outputPath, o);
    UploadAfter(first, recordId, cfg, videoPath, avatarPath, outputPath, o);
  }

  // Each later stage in its slot after the three opening ones, one lemma per stage.
  lemma CutAfter(first: seq<Stage>, recordId: Value, cfg: SegmentedConfig, videoPath: string,
                 avatarPath: string, outputPath: string, o: SegmentedOracle)
    requires |first| == 3 && |o.cuts| == 4
    ensures (first + LaterStages(recordId, cfg, videoPath, avatarPath, outputPath, o))[3]
         == CutStage(videoPath, cfg.segments, o.cuts)
  {
    CutAt(recordId, cfg, videoPath, avatarPath, outputPath, o);
    StageAfter(first, LaterStages(recordId, cfg, videoPath, avatarPath, outputPath, o), 3);
  }

  lemma Swap1After(first: seq<Stage>, recordId: Value, cfg: SegmentedConfig, videoPath: string,
                   avatarPath: string, outputPath: string, o: SegmentedOracle)
    requires |first| == 3 && |o.cuts| == 4
    ensures (first + LaterStages(recordId, cfg, videoPath, avatarPath, outputPath, o))[4]
         == SwapStage(SegmentPaths(videoPath)[0], avatarPath, o.swap1, Swap1Failed)
  {
    Swap1At(recordId, cfg, videoPath, avatarPath, outputPath, o);
    StageAfter(first, LaterStages(recordId, cfg, videoPath, avatarPath, outputPath, o), 4);
  }

  lemma Swap3After(first: seq<Stage>, recordId: Value, cfg: SegmentedConfig, videoPath: string,
                   avatarPath: string, outputPath: string, o: SegmentedOracle)
    requires |first| == 3 && |o.cuts| == 4
    ensures (first + LaterStages(recordId, cfg, videoPath, avatarPath, outputPath, o))[5]
         == SwapStage(SegmentPaths(videoPath)[2], avatarPath, o.swap3, Swap3Failed)
  {
    Swap3At(recordId, cfg, videoPath, avatarPath, outputPath, o);
    StageAfter(first, LaterStages(recordId, cfg, videoPath, avatarPath, outputPath, o), 5);
  }

  lemma StitchAfter(first: seq<Stage>, recordId: Value, cfg: SegmentedConfig, videoPath: string,
                    avatarPath: string, outputPath: string, o: SegmentedOracle)
    requires |first| == 3 && |o.cuts| == 4
    ensures (first + LaterStages(recordId, cfg, videoPath, avatarPath, outputPath, o))[6]
         == StitchStage(videoPath, outputPath, o.manifestWritable, o.concat)
  {
    StitchAt(recordId, cfg, videoPath, avatarPath, outputPath, o);
    StageAfter(first, LaterStages(recordId, cfg, videoPath, avatarPath, outputPath, o), 6);
  }

  lemma UploadAfter(first: seq<Stage>, recordId: Value, cfg: SegmentedConfig, videoPath: string,
                    avatarPath: string, outputPath: string, o: SegmentedOracle)
    requires |first| == 3 && |o.cuts| == 4
    ensures (first + LaterStages(recordId, cfg, videoPath, avatarPath, outputPath, o))[7]
         == UploadStage(outputPath, recordId, cfg.storage, o.upload)
  {
    UploadAt(recordId, cfg, videoPath, avatarPath, outputPath, o);
    StageAfter(first, LaterStages(recordId, cfg, videoPath, avatarPath, outputPath, o), 7);
  }

  lemma StageAfter(first: seq<Stage>, later: seq<Stage>, k: nat)
    requires |first| == 3 && 3 <= k < 3 + |later|
    ensures (first + later)[k] == later[k - 3]
  { }

  // Each later stage on its own: one lemma per stage keeps each proof small.
  lemma CutAt(recordId: Value, cfg: SegmentedConfig, videoPath: string, avatarPath: string,
                   outputPath: string, o: SegmentedOracle)
    requires |o.cuts| == 4
    ensures LaterStages(recordId, cfg, videoPath, avatarPath, outputPath, o)
      [0] == CutStage(videoPath, cfg.segments, o.cuts)
  { }

  lemma Swap1At(recordId: Value, cfg: SegmentedConfig, videoPath: string, avatarPath: string,
                   outputPath: string, o: SegmentedOracle)
    requires |o.cuts| == 4
    ensures LaterStages(recordId, cfg, videoPath, avatarPath, outputPath, o)
      [1] == SwapStage(SegmentPaths(videoPath)[0], avatarPath, o.swap1, Swap1Failed)
  { }

  lemma Swap3At(recordId: Value, cfg: SegmentedConfig, videoPath: string, avatarPath: string,
                   outputPath: string, o: SegmentedOracle)
    requires |o.cuts| == 4
    ensures LaterStages(recordId, cfg, videoPath, avatarPath, outputPath, o)
      [2] == SwapStage(SegmentPaths(videoPath)[2], avatarPath, o.swap3, Swap3Failed)
  { }

  lemma StitchAt(recordId: Value, cfg: SegmentedConfig, videoPath: string, avatarPath: string,
                   outputPath: string, o: SegmentedOracle)
    requires |o.cuts| == 4
    ensures LaterStages(recordId, cfg, videoPath, avatarPath, outputPath, o)
      [3] == StitchStage(videoPath, outputPath, o.manifestWritable, o.concat)
  { }

  lemma UploadAt(recordId: Value, cfg: SegmentedConfig, videoPath: string, avatarPath: string,
                   outputPath: string, o: SegmentedOracle)
    requires |o.cuts| == 4
    ensures LaterStages(recordId, cfg, videoPath, avatarPath, outputPath, o)
      [4] == UploadStage(outputPath, recordId, cfg.storage, o.upload)
  { }

  /** `process_video_job` as the source runs it: the eight steps of its `try` block, each run
      only while all before it succeeded, then the report and the cleanup. */
  method ProcessVideoJob(recordId: Value, videoUrl: Value, avatarUrl: Value, cfg: SegmentedConfig,
                         webhookUrl: Value, o: SegmentedOracle)
    returns (result: JobResult, trace: seq<Effect>)
    requires |o.cuts| == 4
    ensures (result, trace) == SegmentedJob(recordId, videoUrl, avatarUrl, cfg, webhookUrl, o)
  {
    ghost var stages := SegmentedStages(recordId, videoUrl, avatarUrl, cfg, o);
    SegmentedOpening(recordId, videoUrl, avatarUrl, cfg, o);
    SegmentedRemaining(recordId, videoUrl, avatarUrl, cfg, o);
    var stopped, work, tempDir;
    stopped, result, trace, work, tempDir := OpenPhase(stages, recordId, videoUrl, avatarUrl,
                                                       JobUrl(cfg.storage, recordId), webhookUrl, o);
    if stopped {
      return;
    }
    result, trace := SwapPhase(stages, work, recordId, cfg, webhookUrl, tempDir, OsJoin(tempDir, InputVideoName),
                               OsJoin(tempDir, AvatarName), OsJoin(tempDir, FinalOutputName), o);
  }

  /** Steps 0 to 2 of `process_video_job`: the temporary directory and the two downloads; when
      one fails, the report and the cleanup as well. */
  method OpenPhase(ghost stages: seq<Stage>, recordId: Value, videoUrl: Value, avatarUrl: Value,
                   ghost url: string, webhookUrl: Value, o: SegmentedOracle)
    returns (stopped: bool, result: JobResult, trace: seq<Effect>, work: seq<Effect>, tempDir: string)
    requires Opening(stages, videoUrl, avatarUrl, o)
    ensures stopped ==> (result, trace) == Conclude(SegmentedFailedStatus, recordId, webhookUrl, TempDirOf(o.tempDir),
                                                    Walk(stages), url)
    ensures !stopped ==> Reached(stages, 3, work) && TempDirOf(o.tempDir) == Some(tempDir) && tempDir == WorkDir(o.tempDir)
  {
    var error;
    tempDir := "";
    stopped, error, work := Record(stages, 0, [], o.tempDir.Returned?,
                                   if o.tempDir.Returned? then [MakeTempDir(o.tempDir.value)] else [],
                                   if o.tempDir.Raised? then o.tempDir.message else "");
    if stopped {
      result, trace := Settle(stages, 0, true, error, SegmentedFailedStatus, recordId, webhookUrl, None, work, "", url);
      return;
    }
    tempDir := WorkDir(o.tempDir);
    var videoPath := OsJoin(tempDir, InputVideoName);
    var avatarPath := OsJoin(tempDir, AvatarName);
    stopped, error, work := Record(stages, 1, work, o.videoFetched, [Download(videoUrl, videoPath)], VideoDownloadFailed);
    if stopped {
      result, trace := Settle(stages, 1, true, error, SegmentedFailedStatus, recordId, webhookUrl, Some(tempDir), work, "", url);
      return;
    }
    stopped, error, work := Record(stages, 2, work, o.avatarFetched, [Download(avatarUrl, avatarPath)], AvatarDownloadFailed);
    if stopped {
      result, trace := Settle(stages, 2, true, error, SegmentedFailedStatus, recordId, webhookUrl, Some(tempDir), work, "", url);
      return;
    }
    result, trace := Failed(""), [];
  }

  /** Steps 3 to 5 of `process_video_job`: segmentation and the two face swaps. */
  method SwapPhase(ghost stages: seq<Stage>, work: seq<Effect>, recordId: Value, cfg: SegmentedConfig,
                   webhookUrl: Value, tempDir: string, videoPath: string, avatarPath: string,
                   outputPath: string, o: SegmentedOracle)
    returns (result: JobResult, trace: seq<Effect>)
    requires Reached(stages, 3, work) && Remaining(stages, recordId, cfg, videoPath, avatarPath, outputPath, o)
    ensures (result, trace) == Conclude(SegmentedFailedStatus, recordId, webhookUrl, Some(tempDir), Walk(stages),
                                        JobUrl(cfg.storage, recordId))
  {
    ghost var url := JobUrl(cfg.storage, recordId);
    var stopped, error, done, segments := CutStep(stages, work, videoPath, cfg.segments, o.cuts);
    if stopped {
      result, trace := Settle(stages, 3, true, error, SegmentedFailedStatus, recordId, webhookUrl, Some(tempDir), done, "", url);
      return;
    }
    var swapped1;
    stopped, error, done, swapped1 := SwapStep(stages, 4, done, segments[0], avatarPath, o.swap1, Swap1Failed);
    if stopped {
      result, trace := Settle(stages, 4, true, error, SegmentedFailedStatus, recordId, webhookUrl, Some(tempDir), done, "", url);
      return;
    }
    var swapped3;
    stopped, error, done, swapped3 := SwapStep(stages, 5, done, segments[2], avatarPath, o.swap3, Swap3Failed);
    if stopped {
      result, trace := Settle(stages, 5, true, error, SegmentedFailedStatus, recordId, webhookUrl, Some(tempDir), done, "", url);
      return;
    }
    result, trace := DeliverPhase(stages, done, recordId, cfg.storage, webhookUrl, tempDir, videoPath,
                                  [swapped1, segments[1], swapped3, segments[3]], outputPath, o);
  }

  /** Steps 6 and 7 of `process_video_job`: reassembly and upload, then the report and cleanup. */
  method DeliverPhase(ghost stages: seq<Stage>, work: seq<Effect>, recordId: Value, storage: StorageConfig,
                      webhookUrl: Value, tempDir: string, videoPath: string, finalSegments: seq<string>,
                      outputPath: string, o: SegmentedOracle)
    returns (result: JobResult, trace: seq<Effect>)
    requires |stages| == 8 && Reached(stages, 6, work) && finalSegments == FinalSegments(videoPath)
    requires stages[6] == StitchStage(videoPath, outputPath, o.manifestWritable, o.concat)
    requires stages[7] == UploadStage(outputPath, recordId, storage, o.upload)
    ensures (result, trace) == Conclude(SegmentedFailedStatus, recordId, webhookUrl, Some(tempDir), Walk(stages),
                                        JobUrl(storage, recordId))
  {
    ghost var url := JobUrl(storage, recordId);
    var stopped, error, done := StitchStep(stages, work, videoPath, finalSegments, outputPath, o.manifestWritable, o.concat);
    if stopped {
      result, trace := Settle(stages, 6, true, error, SegmentedFailedStatus, recordId, webhookUrl, Some(tempDir), done, "", url);
      return;
    }
    var outputUrl;
    stopped, error, done, outputUrl := UploadStep(stages, 7, done, outputPath, recordId, storage, o.upload);
    result, trace := Settle(stages, 7, stopped, error, SegmentedFailedStatus, recordId, webhookUrl, Some(tempDir), done, outputUrl, url);
  }

  // ---------------------------------------------------------------- properties of the job

  lemma CutStageQuiet(videoPath: string, cfg: SegmentsConfig, exits: seq<Proc>)
    requires |exits| == 4
    ensures Quiet(CutStage(videoPath, cfg, exits).effects)
  {
    var runs := CutStage(videoPath, cfg, exits).effects;
    SegmentationOutcome(videoPath, cfg, exits);
    forall e | e in runs ensures !e.PostWebhook? {
      var i :| 0 <= i < |runs| && runs[i] == e;
      assert e == CutRuns(videoPath, cfg)[i];
      assert i == 0 || i == 1 || i == 2 || i == 3;
    }
  }

  lemma SwapStageQuiet(segmentPath: string, avatarPath: string, m: ModelRun, error: string)
    ensures Quiet(SwapStage(segmentPath, avatarPath, m, error).effects)
  {
    var dir := SwapDir(segmentPath);
    SwapStepsQuiet(dir, SwapPreprocessArgv(segmentPath, avatarPath), SwapGenerateArgv(segmentPath), m,
                   SegmentPick(dir, m.listing, m.files, segmentPath), SwappedPath(segmentPath));
  }

  lemma SwapStepsQuiet(dir: string, preprocess: seq<string>, generate: seq<string>, m: ModelRun,
                       found: Option<string>, output: string)
    ensures Quiet(SwapSteps(dir, preprocess, generate, m, found, output).1)
  { }

  lemma StitchStageQuiet(videoPath: string, outputPath: string, writable: bool, concat: Proc)
    ensures Quiet(StitchStage(videoPath, outputPath, writable, concat).effects)
  { }

  lemma UploadStageQuiet(outputPath: string, recordId: Value, storage: StorageConfig, outcome: UploadOutcome)
    ensures Quiet(UploadStage(outputPath, recordId, storage, outcome).effects)
  { }

  lemma LaterStagesQuiet(recordId: Value, cfg: SegmentedConfig, videoPath: string, avatarPath: string,
                         outputPath: string, o: SegmentedOracle)
    requires |o.cuts| == 4
    ensures var later := LaterStages(recordId, cfg, videoPath, avatarPath, outputPath, o);
      forall j :: 0 <= j < 5 ==> Quiet(later[j].effects)
  {
    var later := LaterStages(recordId, cfg, videoPath, avatarPath, outputPath, o);
    assert Quiet(later[0].effects) by {
      CutAt(recordId, cfg, videoPath, avatarPath, outputPath, o);
      CutStageQuiet(videoPath, cfg.segments, o.cuts);
    }
    assert Quiet(later[1].effects) by {
      Swap1At(recordId, cfg, videoPath, avatarPath, outputPath, o);
      SwapStageQuiet(SegmentPaths(videoPath)[0], avatarPath, o.swap1, Swap1Failed);
    }
    assert Quiet(later[2].effects) by {
      Swap3At(recordId, cfg, videoPath, avatarPath, outputPath, o);
      SwapStageQuiet(SegmentPaths(videoPath)[2], avatarPath, o.swap3, Swap3Failed);
    }
    assert Quiet(later[3].effects) by {
      StitchAt(recordId, cfg, videoPath, avatarPath, outputPath, o);
      StitchStageQuiet(videoPath, outputPath, o.manifestWritable, o.concat);
    }
    assert Quiet(later[4].effects) by {
      UploadAt(recordId, cfg, videoPath, avatarPath, outputPath, o);
      UploadStageQuiet(outputPath, recordId, cfg.storage, o.upload);
    }
    QuietFive(later);
  }

  /** Five stages each free of webhooks make a webhook-free list. */
  lemma QuietFive(later: seq<Stage>)
    requires |later| == 5
    requires Quiet(later[0].effects) && Quiet(later[1].effects) && Quiet(later[2].effects)
    requires Quiet(later[3].effects) && Quiet(later[4].effects)
    ensures forall j :: 0 <= j < 5 ==> Quiet(later[j].effects)
  {
  }

  lemma QuietAfterOpening(videoUrl: Value, avatarUrl: Value, o: SegmentedOracle, rest: seq<Stage>)
    requires |rest| == 5 && forall j :: 0 <= j < 5 ==> Quiet(rest[j].effects)
    ensures var stages := OpeningStages(videoUrl, avatarUrl, o) + rest;
      forall j :: 0 <= j < |stages| ==> Quiet(stages[j].effects)
  {
    var stages := OpeningStages(videoUrl, avatarUrl, o) + rest;
    forall j | 0 <= j < |stages| ensures Quiet(stages[j].effects) {
      if j >= 3 {
        assert stages[j] == rest[j - 3];
      }
    }
  }

  /** None of the eight steps posts a webhook of its own. */
  lemma SegmentedStagesQuiet(recordId: Value, videoUrl: Value, avatarUrl: Value, cfg: SegmentedConfig,
                             o: SegmentedOracle)
    requires |o.cuts| == 4
    ensures var stages := SegmentedStages(recordId, videoUrl, avatarUrl, cfg, o);
      forall j :: 0 <= j < |stages| ==> Quiet(stages[j].effects)
  {
    var later := LaterStages(recordId, cfg, OsJoin(WorkDir(o.tempDir), InputVideoName), OsJoin(WorkDir(o.tempDir), AvatarName),
                             OsJoin(WorkDir(o.tempDir), FinalOutputName), o);
    LaterStagesQuiet(recordId, cfg, OsJoin(WorkDir(o.tempDir), InputVideoName), OsJoin(WorkDir(o.tempDir), AvatarName),
                     OsJoin(WorkDir(o.tempDir), FinalOutputName), o);
    QuietAfterOpening(videoUrl, avatarUrl, o, later);
  }

  /** `process_video_job` posts exactly one webhook when `webhook_url` is truthy and none otherwise;
      it succeeds exactly when all eight steps succeed, and then reports the uploaded object's public
      URL; otherwise its error is the exception text of the first step that failed; and once the
      temporary directory exists, removing it is the last thing the job does, on every path. */
  lemma SegmentedJobOutcome(recordId: Value, videoUrl: Value, avatarUrl: Value, cfg: SegmentedConfig,
                            webhookUrl: Value, o: SegmentedOracle)
    requires |o.cuts| == 4
    ensures Settled(SegmentedJob(recordId, videoUrl, avatarUrl, cfg, webhookUrl, o),
                    SegmentedStages(recordId, videoUrl, avatarUrl, cfg, o), webhookUrl, TempDirOf(o.tempDir),
                    JobUrl(cfg.storage, recordId))
  {
    SegmentedStagesQuiet(recordId, videoUrl, avatarUrl, cfg, o);
    JobSettles(SegmentedFailedStatus, recordId, webhookUrl, TempDirOf(o.tempDir),
               SegmentedStages(recordId, videoUrl, avatarUrl, cfg, o), JobUrl(cfg.storage, recordId));
  }

  /** When `mkdtemp` raises nothing else runs: the failure webhook, if any, carries the exception's
      message and there is no directory to clean up. */
  lemma SegmentedTempDirFails(recordId: Value, videoUrl: Value, avatarUrl: Value, cfg: SegmentedConfig,
                              webhookUrl: Value, o: SegmentedOracle)
    requires |o.cuts| == 4 && o.tempDir.Raised?
    ensures SegmentedJob(recordId, videoUrl, avatarUrl, cfg, webhookUrl, o) ==
      (Failed(o.tempDir.message), Notify(webhookUrl, FailedPayload(SegmentedFailedStatus, recordId, o.tempDir.message)))
  {
    TempDirFailsFirst(recordId, videoUrl, avatarUrl, webhookUrl, o, JobUrl(cfg.storage, recordId),
                      LaterStages(recordId, cfg, OsJoin(WorkDir(o.tempDir), InputVideoName), OsJoin(WorkDir(o.tempDir), AvatarName),
                                  OsJoin(WorkDir(o.tempDir), FinalOutputName), o));
  }

  lemma TempDirFailsFirst(recordId: Value, videoUrl: Value, avatarUrl: Value, webhookUrl: Value,
                          o: SegmentedOracle, url: string, rest: seq<Stage>)
    requires o.tempDir.Raised?
    ensures Conclude(SegmentedFailedStatus, recordId, webhookUrl, TempDirOf(o.tempDir),
                     Walk(OpeningStages(videoUrl, avatarUrl, o) + rest), url) ==
      (Failed(o.tempDir.message), Notify(webhookUrl, FailedPayload(SegmentedFailedStatus, recordId, o.tempDir.message)))
  {
    var stages := OpeningStages(videoUrl, avatarUrl, o) + rest;
    WalkStopsAt(stages, 0);
    assert Ran(stages, 1) == [];
    var n := Notify(webhookUrl, FailedPayload(SegmentedFailedStatus, recordId, o.tempDir.message));
    assert [] + n + Cleanup(TempDirOf(o.tempDir)) == n;
  }

  /** When the avatar download fails after the video download succeeded, the job stops there: the
      trace is the temporary directory, the two downloads, the failure webhook if any and the
      cleanup, and the error is `Failed to download avatar`. */
  lemma SegmentedAvatarFails(recordId: Value, videoUrl: Value, avatarUrl: Value, cfg: SegmentedConfig,
                             webhookUrl: Value, o: SegmentedOracle)
    requires |o.cuts| == 4 && o.tempDir.Returned? && o.videoFetched && !o.avatarFetched
    ensures var dir := o.tempDir.value;
      SegmentedJob(recordId, videoUrl, avatarUrl, cfg, webhookUrl, o) ==
      (Failed(AvatarDownloadFailed),
       [MakeTempDir(dir), Download(videoUrl, OsJoin(dir, InputVideoName)), Download(avatarUrl, OsJoin(dir, AvatarName))]
       + Notify(webhookUrl, FailedPayload(SegmentedFailedStatus, recordId, AvatarDownloadFailed))
       + [RemoveTree(dir)])
  {
    AvatarFailsThird(recordId, videoUrl, avatarUrl, webhookUrl, o, JobUrl(cfg.storage, recordId),
                     LaterStages(recordId, cfg, OsJoin(WorkDir(o.tempDir), InputVideoName), OsJoin(WorkDir(o.tempDir), AvatarName),
                                 OsJoin(WorkDir(o.tempDir), FinalOutputName), o));
  }

  lemma AvatarFailsThird(recordId: Value, videoUrl: Value, avatarUrl: Value, webhookUrl: Value,
                         o: SegmentedOracle, url: string, rest: seq<Stage>)
    requires o.tempDir.Returned? && o.videoFetched && !o.avatarFetched
    ensures var dir := o.tempDir.value;
      Conclude(SegmentedFailedStatus, recordId, webhookUrl, TempDirOf(o.tempDir),
               Walk(OpeningStages(videoUrl, avatarUrl, o) + rest), url) ==
      (Failed(AvatarDownloadFailed),
       [MakeTempDir(dir), Download(videoUrl, OsJoin(dir, InputVideoName)), Download(avatarUrl, OsJoin(dir, AvatarName))]
       + Notify(webhookUrl, FailedPayload(SegmentedFailedStatus, recordId, AvatarDownloadFailed))
       + [RemoveTree(dir)])
  {
    var stages := OpeningStages(videoUrl, avatarUrl, o) + rest;
    var dir := o.tempDir.value;
    assert stages[0].ok && stages[1].ok && !stages[2].ok;
    WalkStopsAt(stages, 2);
    assert Ran(stages, 3) == [MakeTempDir(dir), Download(videoUrl, OsJoin(dir, InputVideoName)),
                              Download(avatarUrl, OsJoin(dir, AvatarName))];
  }

  /** In a temporary directory whose name holds neither `.` nor a line break, the concat list names,
      in this order, the swapped first segment, the first original segment, the swapped third segment
      and the second original segment. */
  lemma ReassemblyOrder(dir: string)
    requires AbsoluteDir(dir) && '.' !in dir && '\n' !in dir
    ensures ParseManifest(Manifest(FinalSegments(OsJoin(dir, InputVideoName)))) == Some(
      [dir + "/" + ("segment_" + "swap_1") + SwappedSuffix, dir + "/" + SegmentFile("original_1"),
       dir + "/" + ("segment_" + "swap_2") + SwappedSuffix, dir + "/" + SegmentFile("original_2")])
  {
    FinalSegmentsInDir(dir);
    var lead := dir + "/";
    assert '\n' !in lead;
    SegmentFilesSingleLine();
    NoNewlineJoin(lead, "segment_" + "swap_1", SwappedSuffix);
    NoNewlineJoin(lead, SegmentFile("original_1"), "");
    NoNewlineJoin(lead, "segment_" + "swap_2", SwappedSuffix);
    NoNewlineJoin(lead, SegmentFile("original_2"), "");
    ManifestOfFour(lead + ("segment_" + "swap_1") + SwappedSuffix, lead + SegmentFile("original_1"),
                   lead + ("segment_" + "swap_2") + SwappedSuffix, lead + SegmentFile("original_2"));
  }

  /** The final segments inside a temporary directory: the swapped first and third segments and
      the untouched second and fourth, in that order. */
  lemma FinalSegmentsInDir(dir: string)
    requires AbsoluteDir(dir) && '.' !in dir
    ensures FinalSegments(OsJoin(dir, InputVideoName)) ==
      [dir + "/" + ("segment_" + "swap_1") + SwappedSuffix, dir + "/" + SegmentFile("original_1"),
       dir + "/" + ("segment_" + "swap_2") + SwappedSuffix, dir + "/" + SegmentFile("original_2")]
  {
    SegmentPathsInDir(dir);
    SwappedSegmentPath(dir, 0);
    SwappedSegmentPath(dir, 2);
  }

  lemma SegmentFilesSingleLine()
    ensures '\n' !in "segment_" + "swap_1" && '\n' !in "segment_" + "swap_2" && '\n' !in SwappedSuffix
    ensures '\n' !in SegmentFile("original_1") && '\n' !in SegmentFile("original_2") && '\n' !in ""
  { }

  lemma NoNewlineJoin(a: string, b: string, c: string)
    requires '\n' !in a && '\n' !in b && '\n' !in c
    ensures '\n' !in a + b + c && '\n' !in a + b
  { }

  /** A manifest of four newline-free paths reads back as those paths. */
  lemma ManifestOfFour(p0: string, p1: string, p2: string, p3: string)
    requires '\n' !in p0 && '\n' !in p1 && '\n' !in p2 && '\n' !in p3
    ensures ParseManifest(Manifest([p0, p1, p2, p3])) == Some([p0, p1, p2, p3])
  {
    ManifestRoundTrip([p0, p1, p2, p3]);
  }
}
