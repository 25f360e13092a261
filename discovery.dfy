/** The two-tier heuristic both variants use to find the video the Wan2.2 model wrote, since the
    model's output file name is not fixed: first a `.mp4` whose lower-cased name contains `output`,
    otherwise any `.mp4` whose joined path is not the input video. Both tiers scan the directory
    listing in the order `os.listdir` reports it and stop at the first match. */
module Discovery {
  import opened Text
  import opened Common

  /** Tier one: `file.endswith('.mp4') and 'output' in file.lower()`. */
  predicate IsOutputVideo(name: string) {
    EndsWith(name, ".mp4") && Contains(Lower(name), "output")
  }

  /** Tier two: `file.endswith('.mp4')` and `os.path.join(dir, file) != exclude`. */
  predicate IsOtherVideo(dir: string, name: string, exclude: string) {
    EndsWith(name, ".mp4") && OsJoin(dir, name) != exclude
  }

  /** Position of the first set mark: where a scan over the listing in order stops. */
  function FirstMarked(marks: seq<bool>): (r: Option<nat>)
    ensures r.Some? ==> r.value < |marks| && marks[r.value]
    ensures r.Some? ==> forall j :: 0 <= j < r.value ==> !marks[j]
    ensures r.None? <==> forall j :: 0 <= j < |marks| ==> !marks[j]
    decreases |marks|
  {
    if marks == [] then None
    else if marks[0] then Some(0)
    else match FirstMarked(marks[1..])
      case None => None
      case Some(k) => Some(k + 1)
  }

  function OutputMarks(listing: seq<string>): (marks: seq<bool>)
    ensures |marks| == |listing|
    ensures forall j :: 0 <= j < |listing| ==> marks[j] == IsOutputVideo(listing[j])
  {
    seq(|listing|, j requires 0 <= j < |listing| => IsOutputVideo(listing[j]))
  }

  function OtherMarks(dir: string, listing: seq<string>, exclude: string): (marks: seq<bool>)
    ensures |marks| == |listing|
    ensures forall j :: 0 <= j < |listing| ==> marks[j] == IsOtherVideo(dir, listing[j], exclude)
  {
    seq(|listing|, j requires 0 <= j < |listing| => IsOtherVideo(dir, listing[j], exclude))
  }

  /** Position of the first tier-one name in the listing. */
  function FirstOutputVideo(listing: seq<string>): (r: Option<nat>)
    ensures r.Some? ==> r.value < |listing| && IsOutputVideo(listing[r.value])
    ensures r.Some? ==> forall j :: 0 <= j < r.value ==> !IsOutputVideo(listing[j])
    ensures r.None? <==> forall j :: 0 <= j < |listing| ==> !IsOutputVideo(listing[j])
  {
    FirstMarked(OutputMarks(listing))
  }

  /** Position of the first tier-two name in the listing. */
  function FirstOtherVideo(dir: string, listing: seq<string>, exclude: string): (r: Option<nat>)
    ensures r.Some? ==> r.value < |listing| && IsOtherVideo(dir, listing[r.value], exclude)
    ensures r.Some? ==> forall j :: 0 <= j < r.value ==> !IsOtherVideo(dir, listing[j], exclude)
    ensures r.None? <==> forall j :: 0 <= j < |listing| ==> !IsOtherVideo(dir, listing[j], exclude)
  {
    FirstMarked(OtherMarks(dir, listing, exclude))
  }

  function JoinAt(dir: string, listing: seq<string>, r: Option<nat>): Option<string>
    requires r.Some? ==> r.value < |listing|
  {
    if r.Some? then Some(OsJoin(dir, listing[r.value])) else None
  }

  /** The segmented variant's choice: the tier-one path; the tier-two path instead when tier one found
      nothing or its path does not exist; and the tier-one path still when tier two finds nothing. */
  function SegmentPick(dir: string, listing: seq<string>, files: map<string, nat>, exclude: string)
    : Option<string>
  {
    var first := JoinAt(dir, listing, FirstOutputVideo(listing));
    if first.None? || first.value !in files then
      var second := JoinAt(dir, listing, FirstOtherVideo(dir, listing, exclude));
      if second.Some? then second else first
    else first
  }

  /** The direct variant's choice: the tier-one path, else the tier-two path. */
  function DirectPick(dir: string, listing: seq<string>, exclude: string): Option<string> {
    var first := JoinAt(dir, listing, FirstOutputVideo(listing));
    if first.Some? then first else JoinAt(dir, listing, FirstOtherVideo(dir, listing, exclude))
  }

  /** The tier-one scan stops at the first output-named video. */
  lemma FirstOutputAt(listing: seq<string>, i: nat)
    requires i < |listing| && IsOutputVideo(listing[i])
    requires forall j :: 0 <= j < i ==> !IsOutputVideo(listing[j])
    ensures FirstOutputVideo(listing) == Some(i)
  {
  }

  /** The tier-two scan stops at the first other video. */
  lemma FirstOtherAt(dir: string, listing: seq<string>, exclude: string, i: nat)
    requires i < |listing| && IsOtherVideo(dir, listing[i], exclude)
    requires forall j :: 0 <= j < i ==> !IsOtherVideo(dir, listing[j], exclude)
    ensures FirstOtherVideo(dir, listing, exclude) == Some(i)
  {
    var r := FirstOtherVideo(dir, listing, exclude);
    assert r.Some?;
    assert r.value <= i;
    assert r.value >= i;
  }

  /** Tier one wins: the first output-named video is chosen whatever else the listing holds. */
  lemma DirectPickPrefersOutput(dir: string, listing: seq<string>, exclude: string, i: nat)
    requires i < |listing| && IsOutputVideo(listing[i])
    requires forall j :: 0 <= j < i ==> !IsOutputVideo(listing[j])
    ensures DirectPick(dir, listing, exclude) == Some(OsJoin(dir, listing[i]))
  {
  }

  /** Tier two runs only when tier one found nothing, and picks the first other video. */
  lemma DirectPickFallsBack(dir: string, listing: seq<string>, exclude: string, i: nat)
    requires forall j :: 0 <= j < |listing| ==> !IsOutputVideo(listing[j])
    requires i < |listing| && IsOtherVideo(dir, listing[i], exclude)
    requires forall j :: 0 <= j < i ==> !IsOtherVideo(dir, listing[j], exclude)
    ensures DirectPick(dir, listing, exclude) == Some(OsJoin(dir, listing[i]))
  {
    assert FirstOutputVideo(listing).None?;
    var r := FirstOtherVideo(dir, listing, exclude);
    assert r.Some?;
    assert r.value <= i;
    assert r.value >= i;
  }

  /** The direct variant finds nothing exactly when no name qualifies for either tier. */
  lemma DirectPickNone(dir: string, listing: seq<string>, exclude: string)
    ensures DirectPick(dir, listing, exclude).None? <==>
      forall j :: 0 <= j < |listing| ==> !IsOutputVideo(listing[j]) && !IsOtherVideo(dir, listing[j], exclude)
  {
  }

  /** An output-named video that exists is chosen in the segmented variant too. */
  lemma SegmentPickPrefersOutput(dir: string, listing: seq<string>, files: map<string, nat>,
                                 exclude: string, i: nat)
    requires i < |listing| && IsOutputVideo(listing[i])
    requires forall j :: 0 <= j < i ==> !IsOutputVideo(listing[j])
    requires OsJoin(dir, listing[i]) in files
    ensures SegmentPick(dir, listing, files, exclude) == Some(OsJoin(dir, listing[i]))
  {
  }

  /** With no output-named video, the segmented variant picks the first other video. */
  lemma SegmentPickFallsBack(dir: string, listing: seq<string>, files: map<string, nat>,
                             exclude: string, i: nat)
    requires forall j :: 0 <= j < |listing| ==> !IsOutputVideo(listing[j])
    requires i < |listing| && IsOtherVideo(dir, listing[i], exclude)
    requires forall j :: 0 <= j < i ==> !IsOtherVideo(dir, listing[j], exclude)
    ensures SegmentPick(dir, listing, files, exclude) == Some(OsJoin(dir, listing[i]))
  {
    assert FirstOutputVideo(listing).None?;
    var r := FirstOtherVideo(dir, listing, exclude);
    assert r.Some?;
    assert r.value <= i;
    assert r.value >= i;
  }

  /** The segmented variant finds nothing exactly when no name qualifies for either tier; a tier-one
      path that does not exist is still returned when tier two finds nothing. */
  lemma SegmentPickNone(dir: string, listing: seq<string>, files: map<string, nat>, exclude: string)
    ensures SegmentPick(dir, listing, files, exclude).None? <==>
      forall j :: 0 <= j < |listing| ==> !IsOutputVideo(listing[j]) && !IsOtherVideo(dir, listing[j], exclude)
  {
  }

  /** The tier-one loop: the first `.mp4` whose lower-cased name contains `output`. */
  method ScanForOutput(dir: string, listing: seq<string>) returns (found: Option<string>)
    ensures found == JoinAt(dir, listing, FirstOutputVideo(listing))
  {
    var i := 0;
    while i < |listing|
      invariant 0 <= i <= |listing|
      invariant forall j :: 0 <= j < i ==> !IsOutputVideo(listing[j])
    {
      var file := listing[i];
      if EndsWith(file, ".mp4") && Contains(Lower(file), "output") {
        FirstOutputAt(listing, i);
        return Some(OsJoin(dir, file));
      }
      i := i + 1;
    }
    return None;
  }

  /** The tier-two loop: the first `.mp4` whose joined path is not `exclude`. */
  method ScanForOther(dir: string, listing: seq<string>, exclude: string) returns (found: Option<string>)
    ensures found == JoinAt(dir, listing, FirstOtherVideo(dir, listing, exclude))
  {
    var i := 0;
    while i < |listing|
      invariant 0 <= i <= |listing|
      invariant forall j :: 0 <= j < i ==> !IsOtherVideo(dir, listing[j], exclude)
    {
      var file := listing[i];
      if EndsWith(file, ".mp4") {
        var potential := OsJoin(dir, file);
        if potential != exclude {
          FirstOtherAt(dir, listing, exclude, i);
          return Some(potential);
        }
      }
      i := i + 1;
    }
    return None;
  }
}
