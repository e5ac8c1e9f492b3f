/** The segment encoder's pure parts: intermediate file names, the timing of
    a scrolling mid segment, the ffmpeg argument vectors of
    `generate_endpoint_video`, `generate_mid_video` and the final concat,
    and the concatenation manifest `list.txt`. */
module Segments {

  import opened Types
  import opened Decimal
  import opened Arith

  // ---------------------------------------------------------------- names

  /** Index of the last '.' of `s`, or -1 when there is none. */
  function LastDot(s: string): (i: int)
    ensures -1 <= i < |s|
    ensures i >= 0 ==> s[i] == '.'
    ensures forall k :: i < k < |s| ==> s[k] != '.'
  {
    if s == [] then -1
    else if s[|s| - 1] == '.' then |s| - 1
    else LastDot(s[..|s| - 1])
  }

  /** `Path::with_extension` on a bare file name: the stem (everything before
      the last '.', unless that dot leads the name) followed by `.ext`. */
  function WithExtension(name: string, ext: string): string {
    var d := LastDot(name);
    var stem := if d > 0 then name[..d] else name;
    if ext == "" then stem else stem + "." + ext
  }

  /** Replacing the extension of `stem.png` gives `stem.ext`. */
  lemma WithExtensionOfPng(stem: string, ext: string)
    requires stem != [] && ext != []
    ensures WithExtension(stem + ".png", ext) == stem + "." + ext
  {
    var s := stem + ".png";
    assert s[|stem|] == '.';
    var d := LastDot(s);
    assert d >= |stem|;
    assert d == |stem| by {
      assert forall k :: |stem| < k < |s| ==> s[k] != '.';
    }
    assert s[..d] == stem;
  }

  const CoverStill: string := "cover.png"
  const EndingStill: string := "ending.png"
  const ListFile: string := "list.txt"

  /** The still of mid segment `i`: `format!("{i:0>2}.png")`. */
  function MidStill(i: nat): (r: string)
    ensures PlainName(r) && EndsWith(r, ".png")
  {
    Index2(i) + ".png"
  }

  /** The clip encoded from a still: the same name with extension `mp4`. */
  function ClipOf(still: string): (r: string)
    ensures PlainName(still) ==> PlainName(r)
  {
    WithExtension(still, "mp4")
  }

  predicate EndsWith(s: string, suffix: string) {
    |s| >= |suffix| && s[|s| - |suffix|..] == suffix
  }

  lemma CoverClipName()
    ensures ClipOf(CoverStill) == "cover.mp4"
  {
    assert CoverStill == "cover" + ".png" && "cover.mp4" == "cover" + "." + "mp4";
    WithExtensionOfPng("cover", "mp4");
  }

  lemma EndingClipName()
    ensures ClipOf(EndingStill) == "ending.mp4"
  {
    assert EndingStill == "ending" + ".png" && "ending.mp4" == "ending" + "." + "mp4";
    WithExtensionOfPng("ending", "mp4");
  }

  /** The clip names of the three kinds of segment. */
  lemma ClipNames(i: nat)
    ensures ClipOf(CoverStill) == "cover.mp4"
    ensures ClipOf(EndingStill) == "ending.mp4"
    ensures ClipOf(MidStill(i)) == Index2(i) + ".mp4"
  {
    CoverClipName();
    EndingClipName();
    WithExtensionOfPng(Index2(i), "mp4");
  }

  /** Mid clips are numbered apart: distinct indices, distinct clip names;
      and no mid clip is named like the cover or ending clip. */
  lemma MidClipsDistinct(i: nat, j: nat)
    ensures Index2(i) + ".mp4" == Index2(j) + ".mp4" ==> i == j
    ensures Index2(i) + ".mp4" != "cover.mp4" && Index2(i) + ".mp4" != "ending.mp4"
  {
    var a, b := Index2(i), Index2(j);
    if a + ".mp4" == b + ".mp4" {
      assert |a| == |b|;
      assert a == (a + ".mp4")[..|a|] == (b + ".mp4")[..|b|] == b;
      Index2Injective(i, j);
    }
    Index2Digits(i);
    assert IsDigit((a + ".mp4")[0]);
  }

  /** The clips of `n` mid segments: `00.mp4`, `01.mp4`, ... */
  function MidClips(n: nat): (r: seq<string>)
    ensures |r| == n
  {
    seq(n, i requires 0 <= i < n => Index2(i) + ".mp4")
  }

  /** The clips of a run with `n` mid segments, in production order. */
  function ClipList(n: nat): seq<string> {
    ["cover.mp4"] + MidClips(n) + ["ending.mp4"]
  }

  lemma ClipListAt(n: nat, i: nat)
    requires i < n + 2
    ensures |ClipList(n)| == n + 2
    ensures ClipList(n)[i]
      == if i == 0 then "cover.mp4" else if i == n + 1 then "ending.mp4" else Index2(i - 1) + ".mp4"
  {
  }

  /** A mid clip name ends in `.mp4` and holds no line break. */
  lemma MidClipFormat(i: nat)
    ensures EndsWith(Index2(i) + ".mp4", ".mp4") && SingleLine(Index2(i) + ".mp4")
  {
    var d := Index2(i);
    var c := d + ".mp4";
    Index2Digits(i);
    assert c[|c| - 4..] == ".mp4";
    forall k | 0 <= k < |c| ensures c[k] != '\n' {
      if k < |d| {
        assert c[k] == d[k] && IsDigit(d[k]);
      }
    }
  }

  /** Two positions of the clip list name two different clips. */
  lemma ClipListDistinctAt(n: nat, i: nat, j: nat)
    requires i < j < n + 2
    ensures ClipList(n)[i] != ClipList(n)[j]
  {
    var clips := ClipList(n);
    ClipListAt(n, i);
    ClipListAt(n, j);
    if i == 0 {
      assert clips[i] == "cover.mp4";
      if j == n + 1 {
        assert clips[j] == "ending.mp4";
        assert clips[i][0] != clips[j][0];
      } else {
        assert clips[j] == Index2(j - 1) + ".mp4";
        MidClipsDistinct(j - 1, j - 1);
        assert clips[i] != clips[j];
      }
    } else {
      assert clips[i] == Index2(i - 1) + ".mp4";
      if j == n + 1 {
        assert clips[j] == "ending.mp4";
        MidClipsDistinct(i - 1, i - 1);
        assert clips[i] != clips[j];
      } else {
        assert clips[j] == Index2(j - 1) + ".mp4";
        MidClipsDistinct(i - 1, j - 1);
        assert clips[i] != clips[j];
      }
    }
  }

  /** The clips of a run are pairwise distinct, so removing them one by one
      removes each exactly once. */
  lemma ClipListDistinct(n: nat)
    ensures var clips := ClipList(n);
      forall i, j :: 0 <= i < j < |clips| ==> clips[i] != clips[j]
  {
    forall i, j | 0 <= i < j < n + 2 ensures ClipList(n)[i] != ClipList(n)[j] {
      ClipListDistinctAt(n, i, j);
    }
  }

  /** The clips of a run are all `.mp4` files and none spans a line, so the
      manifest can list them. */
  lemma ClipListFormat(n: nat)
    ensures var clips := ClipList(n);
      forall i :: 0 <= i < |clips| ==> EndsWith(clips[i], ".mp4") && SingleLine(clips[i])
  {
    var clips := ClipList(n);
    forall i | 0 <= i < |clips| ensures EndsWith(clips[i], ".mp4") && SingleLine(clips[i]) {
      ClipListAt(n, i);
      if 0 < i < |clips| - 1 {
        MidClipFormat(i - 1);
      }
    }
  }

  // --------------------------------------------------------------- timing

  /** Run time and pan speed of a mid segment. */
  datatype Timing = Timing(runSeconds: U32, speed: U32)

  /** The arithmetic of `generate_mid_video` for a window of `n` chunks:
      `u32::try_from(n)? - overlap`, `swip_speed * adjust + 1` and
      `width_chunk / swip_speed`. The source needs the subtraction not to
      underflow, the product not to overflow and a non-zero swipe speed. */
  function MidTiming(n: nat, overlap: U32, swipSpeed: U32, widthChunk: U32): Result<Timing>
    requires n < U32_LIMIT ==> n >= overlap && swipSpeed > 0 && Mul(swipSpeed, n - overlap) + 1 < U32_LIMIT
  {
    if n >= U32_LIMIT then Err(TryFrom)
    else
      var adjust := n - overlap;
      Ok(Timing(Mul(swipSpeed, adjust) + 1, widthChunk / swipSpeed))
  }

  /** Only a count beyond `u32` fails; the clip then runs one second per
      `swip_speed`-th of a cell of travel plus one, and the pan speed is the
      largest whole number of pixels per second that keeps `speed *
      swip_speed` within a cell. */
  lemma MidTimingValues(n: nat, overlap: U32, swipSpeed: U32, widthChunk: U32)
    requires n < U32_LIMIT ==> n >= overlap && swipSpeed > 0 && Mul(swipSpeed, n - overlap) + 1 < U32_LIMIT
    ensures var r := MidTiming(n, overlap, swipSpeed, widthChunk);
      && (n >= U32_LIMIT <==> r == Err(TryFrom))
      && (r.Ok? ==> r.value.runSeconds == swipSpeed * (n - overlap) + 1)
      && (r.Ok? ==> r.value.speed * swipSpeed <= widthChunk < (r.value.speed + 1) * swipSpeed)
  {
    if n < U32_LIMIT {
      MulIs(swipSpeed, n - overlap);
      var q := widthChunk / swipSpeed;
      assert widthChunk == q * swipSpeed + widthChunk % swipSpeed;
    }
  }

  /** The pan stays on the still up to the start of the clip's last second:
      after `run_seconds - 1` seconds the view has moved
      `(run_seconds - 1) * speed <= (n - overlap) * width_chunk` pixels, so a
      screen of `overlap` cells still lies on the still. The view reaches the
      last screenful at that moment exactly when the swipe speed divides
      `width_chunk`; the pan does not stop there, and by the end of the clip
      it has moved one more second, `speed` pixels, past it. */
  lemma MidPanStaysOnStill(n: nat, overlap: U32, swipSpeed: U32, widthChunk: U32)
    requires n < U32_LIMIT && n >= overlap && swipSpeed > 0 && Mul(swipSpeed, n - overlap) + 1 < U32_LIMIT
    ensures var t := MidTiming(n, overlap, swipSpeed, widthChunk).value;
      && (t.runSeconds - 1) * t.speed <= (n - overlap) * widthChunk
      && (widthChunk % swipSpeed == 0 ==> (t.runSeconds - 1) * t.speed == (n - overlap) * widthChunk)
      && (widthChunk % swipSpeed == 0 ==> t.runSeconds * t.speed == (n - overlap) * widthChunk + t.speed)
  {
    MidTimingValues(n, overlap, swipSpeed, widthChunk);
    var t := MidTiming(n, overlap, swipSpeed, widthChunk).value;
    var a := n - overlap;
    assert (t.runSeconds - 1) * t.speed == a * (swipSpeed * t.speed);
    MulMonotone(swipSpeed * t.speed, widthChunk, a);
    assert a * (swipSpeed * t.speed) <= a * widthChunk;
    if widthChunk % swipSpeed == 0 {
      assert widthChunk == swipSpeed * t.speed;
    }
  }

  // ------------------------------------------------------------ arguments

  /** Position of the first `flag` in `args`, or `|args|`. */
  function Position(args: seq<string>, flag: string): (i: nat)
    ensures i <= |args|
    ensures i < |args| ==> args[i] == flag
    ensures forall k :: 0 <= k < i ==> args[k] != flag
  {
    if args == [] then 0
    else if args[0] == flag then 0
    else 1 + Position(args[1..], flag)
  }

  /** `flag` first occurs at `j`. */
  lemma PositionIs(args: seq<string>, flag: string, j: nat)
    requires j < |args| && args[j] == flag
    requires forall k :: 0 <= k < j ==> args[k] != flag
    ensures Position(args, flag) == j
  {
  }

  /** The value given to the first `flag` in `args`. */
  function ValueOf(args: seq<string>, flag: string): Option<string> {
    var i := Position(args, flag);
    if i + 1 < |args| then Some(args[i + 1]) else None
  }

  /** A file name ffmpeg would not take for an option. */
  predicate PlainName(s: string) {
    s != [] && s[0] != '-'
  }

  /** Decimal numbers never look like options. */
  lemma DecPlain(n: nat)
    ensures PlainName(Dec(n))
  {
    DecDigits(n);
    assert IsDigit(Dec(n)[0]);
  }

  /** The filter graph: a solid backdrop of the screen size and frame rate,
      with the still overlaid by `overlay`. */
  function FilterGraph(cfg: BigImg, overlay: string): (r: string)
    ensures PlainName(r)
  {
    "color=" + cfg.backgroundColor + ":s=" + Dec(cfg.screenW) + "x" + Dec(cfg.screenH)
      + ":r=" + Dec(cfg.fps) + "[bg];[bg][0]" + overlay
  }

  /** Where the options sit in an endpoint vector, whatever the texts. */
  lemma EndpointLayout(pic: string, graph: string, seconds: string, clip: string)
    requires PlainName(pic) && PlainName(graph) && PlainName(seconds) && PlainName(clip)
    ensures var args := ["-r", "1", "-loop", "1", "-i", pic, "-filter_complex", graph,
                         "-preset", "fast", "-t", seconds, "-y", clip];
      && Position(args, "-i") == 4 && Position(args, "-t") == 10 && Position(args, "-y") == 12
      && ValueOf(args, "-i") == Some(pic) && ValueOf(args, "-t") == Some(seconds)
      && ValueOf(args, "-y") == Some(clip)
  {
    var args := ["-r", "1", "-loop", "1", "-i", pic, "-filter_complex", graph,
                 "-preset", "fast", "-t", seconds, "-y", clip];
    PositionIs(args, "-i", 4);
    PositionIs(args, "-t", 10);
    PositionIs(args, "-y", 12);
  }

  /** The endpoint (cover or ending) encode: loop the still, overlay it on
      the backdrop, and cut the OUTPUT at `time` seconds. */
  function EndpointArgs(cfg: BigImg, pic: string, clip: string, time: U32): seq<string> {
    ["-r", "1", "-loop", "1", "-i", pic,
     "-filter_complex", FilterGraph(cfg, "overlay=shortest=1"),
     "-preset", "fast", "-t", Dec(time), "-y", clip]
  }

  /** The endpoint encode reads the still, runs for the given time (as an
      output option, after `-i`), and writes the clip, last. */
  lemma EndpointArgsOptions(cfg: BigImg, pic: string, clip: string, time: U32)
    requires PlainName(pic) && PlainName(clip)
    ensures var args := EndpointArgs(cfg, pic, clip, time);
      && ValueOf(args, "-i") == Some(pic)
      && ValueOf(args, "-t") == Some(Dec(time)) && DigitsOnly(Dec(time)) && ParseDec(Dec(time)) == time
      && Position(args, "-i") < Position(args, "-t") < |args|
      && ValueOf(args, "-y") == Some(clip) && args[|args| - 1] == clip
  {
    ParseDecOfDec(time);
    DecPlain(time);
    EndpointLayout(pic, FilterGraph(cfg, "overlay=shortest=1"), Dec(time), clip);
  }

  /** Where the options sit in a mid vector, whatever the texts. */
  lemma MidLayout(seconds: string, pic: string, graph: string, clip: string)
    requires PlainName(pic) && PlainName(graph) && PlainName(seconds) && PlainName(clip)
    ensures var args := ["-r", "1", "-loop", "1", "-t", seconds, "-i", pic,
                         "-filter_complex", graph, "-preset", "fast", "-y", clip];
      && Position(args, "-t") == 4 && Position(args, "-i") == 6
      && Position(args, "-filter_complex") == 8 && Position(args, "-y") == 12
      && ValueOf(args, "-t") == Some(seconds) && ValueOf(args, "-i") == Some(pic)
      && ValueOf(args, "-filter_complex") == Some(graph) && ValueOf(args, "-y") == Some(clip)
  {
    var args := ["-r", "1", "-loop", "1", "-t", seconds, "-i", pic,
                 "-filter_complex", graph, "-preset", "fast", "-y", clip];
    PositionIs(args, "-t", 4);
    PositionIs(args, "-i", 6);
    PositionIs(args, "-filter_complex", 8);
    PositionIs(args, "-y", 12);
  }

  /** The mid encode: loop the still for `run_seconds` as an INPUT option
      (before `-i`) and pan it left by `speed` pixels per second. */
  function MidArgs(cfg: BigImg, pic: string, clip: string, t: Timing): seq<string> {
    ["-r", "1", "-loop", "1", "-t", Dec(t.runSeconds), "-i", pic,
     "-filter_complex", FilterGraph(cfg, "overlay=x=-t*" + Dec(t.speed) + ":shortest=1"),
     "-preset", "fast", "-y", clip]
  }

  /** The mid encode limits the looped still to `run_seconds` before `-i`,
      pans by `speed`, and writes the clip, last. */
  lemma MidArgsOptions(cfg: BigImg, pic: string, clip: string, t: Timing)
    requires PlainName(pic) && PlainName(clip)
    ensures var args := MidArgs(cfg, pic, clip, t);
      && ValueOf(args, "-t") == Some(Dec(t.runSeconds)) && DigitsOnly(Dec(t.runSeconds)) && ParseDec(Dec(t.runSeconds)) == t.runSeconds
      && ValueOf(args, "-i") == Some(pic)
      && Position(args, "-t") < Position(args, "-i") < |args|
      && ValueOf(args, "-filter_complex")
           == Some(FilterGraph(cfg, "overlay=x=-t*" + Dec(t.speed) + ":shortest=1"))
      && ValueOf(args, "-y") == Some(clip) && args[|args| - 1] == clip
  {
    ParseDecOfDec(t.runSeconds);
    DecPlain(t.runSeconds);
    MidLayout(Dec(t.runSeconds), pic, FilterGraph(cfg, "overlay=x=-t*" + Dec(t.speed) + ":shortest=1"), clip);
  }

  /** The final lossless splice of the clips listed in `list`. */
  function ConcatArgs(list: string, saveName: string): seq<string> {
    ["-f", "concat", "-i", list, "-c", "copy", "-y", saveName]
  }

  /** The splice reads the manifest with the concat demuxer, copies the
      streams without re-encoding, and writes the result, last. */
  lemma ConcatArgsOptions(list: string, saveName: string)
    requires PlainName(list) && PlainName(saveName)
    ensures var args := ConcatArgs(list, saveName);
      && ValueOf(args, "-f") == Some("concat") && ValueOf(args, "-c") == Some("copy")
      && ValueOf(args, "-i") == Some(list)
      && ValueOf(args, "-y") == Some(saveName) && args[|args| - 1] == saveName
  {
    var args := ConcatArgs(list, saveName);
    PositionIs(args, "-f", 0);
    PositionIs(args, "-i", 2);
    PositionIs(args, "-c", 4);
    PositionIs(args, "-y", 6);
  }

  // ------------------------------------------------------------- manifest

  function ManifestLine(name: string): string {
    "file " + name + "\n"
  }

  /** The `fold` of `combain`: one `file <name>` line per clip, in order. */
  function Manifest(names: seq<string>): string {
    if names == [] then "" else ManifestLine(names[0]) + Manifest(names[1..])
  }

  /** Index of the first '\n' at or after `from`, or `|s|`. */
  function NewlineFrom(s: string, from: nat): (i: nat)
    requires from <= |s|
    ensures from <= i <= |s|
    ensures i < |s| ==> s[i] == '\n'
    ensures forall k :: from <= k < i ==> s[k] != '\n'
    decreases |s| - from
  {
    if from == |s| then from
    else if s[from] == '\n' then from
    else NewlineFrom(s, from + 1)
  }

  /** Reads a manifest back into its list of names. */
  function ParseManifest(s: string): Option<seq<string>>
    decreases |s|
  {
    if s == [] then Some([])
    else if |s| < 5 || s[..5] != "file " then None
    else
      var k := NewlineFrom(s, 5);
      if k == |s| then None
      else
        match ParseManifest(s[k + 1..])
        case None => None
        case Some(rest) => Some([s[5..k]] + rest)
  }

  predicate SingleLine(name: string) {
    forall k :: 0 <= k < |name| ==> name[k] != '\n'
  }

  /** The manifest lists exactly the given names, in the given order. */
  lemma {:induction false} ManifestRoundTrip(names: seq<string>)
    requires forall i :: 0 <= i < |names| ==> SingleLine(names[i])
    ensures ParseManifest(Manifest(names)) == Some(names)
  {
    if names != [] {
      var n := names[0];
      var s := Manifest(names);
      var tail := Manifest(names[1..]);
      assert s == "file " + n + "\n" + tail;
      assert s[..5] == "file ";
      assert s[5 + |n|] == '\n';
      assert forall k :: 5 <= k < 5 + |n| ==> s[k] == n[k - 5];
      var k := NewlineFrom(s, 5);
      assert k == 5 + |n|;
      assert s[5..k] == n;
      assert s[k + 1..] == tail;
      ManifestRoundTrip(names[1..]);
      assert [n] + names[1..] == names;
    }
  }
}
