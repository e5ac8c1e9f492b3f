/** The segment encoder and the orchestrator: `combain_chunk`,
    `generate_endpoint_video`, `generate_mid_video`, `ffmpeg` and
    `combain`. Each is a function giving the actions it attempts and its
    result, and a method that performs them through a `WorkDir` and is
    proved to do exactly what the function says. */
module Pipeline {

  import opened Types
  import opened Arith
  import opened Builder
  import opened Partition
  import opened Compose
  import opened Segments
  import opened Decimal
  import opened Environment

  /** What the stages need of a built configuration beyond `Configured`:
      windows advance (`step > overlap`, else `step_by(0)` panics), the
      swipe speed can divide, and the `u32` products of `combain_chunk` and
      `generate_mid_video` do not overflow. */
  predicate Runnable(cfg: BigImg) {
    && Configured(cfg)
    && cfg.step > cfg.overlap
    && cfg.swipSpeed > 0
    && Mul(cfg.step, cfg.widthChunk) < U32_LIMIT
    && Mul(cfg.swipSpeed, cfg.step - cfg.overlap) + 1 < U32_LIMIT
  }

  /** The actions a stage attempts, in order, and what it returns. */
  datatype Outcome<T> = Outcome(actions: seq<Action>, result: Result<T>)

  // ----------------------------------------------------------- the stages

  /** `ffmpeg`: a process that cannot be started is an I/O error, a non-zero
      exit status is "FFmpeg command failed". */
  function FfmpegResult(exit: Exit): (r: Result<()>)
    ensures r.Ok? <==> exit == Exited(0)
    ensures exit.SpawnFailed? ==> r == Err(Io)
    ensures exit.Exited? && exit.code != 0 ==> r == Err(FfmpegFailed)
  {
    match exit
    case SpawnFailed => Err(Io)
    case Exited(code) => if code == 0 then Ok(()) else Err(FfmpegFailed)
  }

  /** `combain_chunk`: compose the still, then save it as `name`. */
  function ChunkRun(cfg: BigImg, env: Env, part: seq<Chunk>, name: string): Outcome<()>
    requires Fits(|part|, cfg.widthChunk)
  {
    var f := Frame(part, cfg.widthChunk, cfg.screenH, env.draw);
    if f.Err? then Outcome([], Err(f.error))
    else
      var save := SaveImage(name, f.value);
      Outcome([save], if Succeeds(env, save) then Ok(()) else Err(Image))
  }

  /** A segment once its still is composed: nothing more if `c` failed,
      otherwise the encode `args`, which yields the clip of `pic`. */
  function Encode(env: Env, c: Outcome<()>, pic: string, args: seq<string>): Outcome<string> {
    if c.result.Err? then Outcome(c.actions, Err(c.result.error))
    else
      var e := FfmpegResult(env.exec(args));
      Outcome(c.actions + [Spawn(args)], if e.Ok? then Ok(ClipOf(pic)) else Err(e.error))
  }

  /** `generate_endpoint_video`: the still, then an encode of `time` seconds;
      returns the clip name. */
  function EndpointRun(cfg: BigImg, env: Env, part: seq<Chunk>, pic: string, time: U32): Outcome<string>
    requires Fits(|part|, cfg.widthChunk) && PlainName(pic)
  {
    Encode(env, ChunkRun(cfg, env, part, pic), pic, EndpointArgs(cfg, pic, ClipOf(pic), time))
  }

  /** The arithmetic of `generate_mid_video` neither underflows, overflows
      nor divides by zero for a window of `n` chunks. */
  predicate MidFits(cfg: BigImg, n: nat) {
    n < U32_LIMIT ==> n >= cfg.overlap && cfg.swipSpeed > 0 && Mul(cfg.swipSpeed, n - cfg.overlap) + 1 < U32_LIMIT
  }

  /** `generate_mid_video`: the still, then a panning encode whose length
      and speed come from `MidTiming`; returns the clip name. */
  function MidRun(cfg: BigImg, env: Env, part: seq<Chunk>, pic: string): Outcome<string>
    requires Fits(|part|, cfg.widthChunk) && PlainName(pic) && MidFits(cfg, |part|)
  {
    var c := ChunkRun(cfg, env, part, pic);
    if c.result.Err? then Outcome(c.actions, Err(c.result.error))
    else
      // `u32::try_from(len)?` cannot fail here: `combain_chunk` converted
      // the same length successfully.
      var t := MidTiming(|part|, cfg.overlap, cfg.swipSpeed, cfg.widthChunk).value;
      Encode(env, c, pic, MidArgs(cfg, pic, ClipOf(pic), t))
  }

  // ------------------------------------------------------------- the plan

  /** Stages run in order, each `?`-propagated: the actions of every stage
      up to and including the first that fails, and either all the values
      or that first error. */
  function Chain<T>(outs: seq<Outcome<T>>): Outcome<seq<T>>
    decreases |outs|
  {
    if outs == [] then Outcome([], Ok([]))
    else
      var prev := Chain(outs[..|outs| - 1]);
      if prev.result.Err? then prev
      else
        var o := outs[|outs| - 1];
        Outcome(prev.actions + o.actions,
                if o.result.Ok? then Ok(prev.result.value + [o.result.value]) else Err(o.result.error))
  }

  /** Every window can be panned without a panic. */
  predicate WindowsFit(cfg: BigImg, windows: seq<seq<Chunk>>) {
    forall i :: 0 <= i < |windows| ==> Fits(|windows[i]|, cfg.widthChunk) && MidFits(cfg, |windows[i]|)
  }

  /** What the pan of each window, as `{i:0>2}.png`, would do. */
  function MidOutcomes(cfg: BigImg, env: Env, windows: seq<seq<Chunk>>): (outs: seq<Outcome<string>>)
    requires WindowsFit(cfg, windows)
    ensures |outs| == |windows|
    decreases |windows|
  {
    if windows == [] then []
    else
      var n := |windows| - 1;
      MidOutcomes(cfg, env, windows[..n]) + [MidRun(cfg, env, windows[n], MidStill(n))]
  }

  /** Outcome `i` is the pan of window `i`, as `{i:0>2}.png`. */
  lemma {:induction false} MidOutcomesAt(cfg: BigImg, env: Env, windows: seq<seq<Chunk>>, i: nat)
    requires WindowsFit(cfg, windows) && i < |windows|
    ensures MidOutcomes(cfg, env, windows)[i] == MidRun(cfg, env, windows[i], MidStill(i))
    decreases |windows|
  {
    var n := |windows| - 1;
    var init := windows[..n];
    var prev := MidOutcomes(cfg, env, init);
    var last := MidRun(cfg, env, windows[n], MidStill(n));
    assert MidOutcomes(cfg, env, windows) == prev + [last];
    if i < n {
      MidOutcomesAt(cfg, env, init, i);
      assert init[i] == windows[i];
      assert (prev + [last])[i] == prev[i];
    } else {
      assert i == n;
      assert (prev + [last])[n] == last;
    }
  }

  /** One removal per name, in order. */
  function Removals(names: seq<string>): seq<Action> {
    seq(|names|, i requires 0 <= i < |names| => RemoveFile(names[i]))
  }

  /** The second half of `combain`, once the segments have produced
      `clips`: write the manifest, concatenate, then remove the clips. */
  function Tail(env: Env, clips: seq<string>, saveName: string): Outcome<()> {
    var write := WriteFile(ListFile, Manifest(clips));
    if !Succeeds(env, write) then Outcome([write], Err(Io))
    else
      var args := ConcatArgs(ListFile, saveName);
      var e := FfmpegResult(env.exec(args));
      if e.Err? then Outcome([write, Spawn(args)], Err(e.error))
      else Outcome([write, Spawn(args)] + Removals(clips), Ok(()))
  }

  /** The segments' run `p`, followed by the tail when they all succeeded. */
  function Finish(env: Env, p: Outcome<seq<string>>, saveName: string): Outcome<()> {
    if p.result.Err? then Outcome(p.actions, Err(p.result.error))
    else
      var t := Tail(env, p.result.value, saveName);
      Outcome(p.actions + t.actions, t.result)
  }

  /** What a runnable plan guarantees the segments: both screenfuls exist
      and fit a `u32` width, and so does every window. */
  predicate PlanFacts(cfg: BigImg)
    requires Runnable(cfg)
  {
    && cfg.overlap < |cfg.chunks| && Fits(cfg.overlap, cfg.widthChunk)
    && WindowsFit(cfg, Divide(cfg.chunks, cfg.step, cfg.overlap))
  }

  /** The loop of `combain` over the windows of `divide`. */
  function MidsRun(cfg: BigImg, env: Env): Outcome<seq<string>>
    requires Runnable(cfg) && PlanFacts(cfg)
  {
    Chain(MidOutcomes(cfg, env, Divide(cfg.chunks, cfg.step, cfg.overlap)))
  }

  /** The part of `combain` after the cover: the loop over the windows of
      `divide`, then the ending on the last screenful, which runs only when
      every window succeeded. */
  function RestRun(cfg: BigImg, env: Env): Outcome<seq<string>>
    requires Runnable(cfg) && PlanFacts(cfg)
  {
    Then(MidsRun(cfg, env), EndingRun(cfg, env))
  }

  /** The ending on the last screenful, as a run of its own. */
  function EndingRun(cfg: BigImg, env: Env): Outcome<seq<string>>
    requires Runnable(cfg) && PlanFacts(cfg)
  {
    Single(EndpointRun(cfg, env, cfg.chunks[|cfg.chunks| - cfg.overlap..], EndingStill, cfg.endingTime))
  }

  /** The first half of `combain`: the cover on the first screenful, then
      the rest when the cover succeeded. */
  function AllSegments(cfg: BigImg, env: Env): Outcome<seq<string>>
    requires Runnable(cfg) && PlanFacts(cfg)
  {
    Then(Single(EndpointRun(cfg, env, cfg.chunks[..cfg.overlap], CoverStill, cfg.coverTime)), RestRun(cfg, env))
  }

  /** `AllSegments` for every runnable configuration. */
  function SegmentsRun(cfg: BigImg, env: Env): Outcome<seq<string>>
    requires Runnable(cfg)
  {
    PlanFits(cfg);
    AllSegments(cfg, env)
  }

  /** `combain`: every segment, then the manifest, the concat, and the
      removal of the clips; the first failure ends the run. */
  function CombainRun(cfg: BigImg, env: Env, saveName: string): Outcome<()>
    requires Runnable(cfg)
  {
    Finish(env, SegmentsRun(cfg, env), saveName)
  }

  // ------------------------------------------------------------- the plan's shape

  /** Every segment of a runnable configuration can be produced without a
      panic: the screenful stills fit a `u32` width, and each window's still
      does too and is longer than a screenful. */
  lemma PlanFits(cfg: BigImg)
    requires Runnable(cfg)
    ensures PlanFacts(cfg)
  {
    var ws := Divide(cfg.chunks, cfg.step, cfg.overlap);
    forall i | 0 <= i < |ws| ensures Fits(|ws[i]|, cfg.widthChunk) && MidFits(cfg, |ws[i]|) {
      var w := ws[i];
      DivideAt(cfg.chunks, cfg.step, cfg.overlap, i);
      MulLe(|w|, cfg.step, cfg.widthChunk, cfg.widthChunk);
      MulLe(cfg.swipSpeed, cfg.swipSpeed, |w| - cfg.overlap, cfg.step - cfg.overlap);
    }
    MulLe(cfg.overlap, cfg.step, cfg.widthChunk, cfg.widthChunk);
  }

  /** What the corrected `build` accepts runs the whole plan, once the `u32`
      products of the stages are in range. */
  lemma CheckedIsRunnable(p: BuilderParams, font: FontLoad)
    requires Settable(p) && ValidateChecked(p, font).Ok?
    requires var b := ValidateChecked(p, font).value;
      && Mul(b.step, b.widthChunk) < U32_LIMIT
      && (b.step > b.overlap ==> Mul(b.swipSpeed, b.step - b.overlap) + 1 < U32_LIMIT)
    ensures Runnable(ValidateChecked(p, font).value)
  {
  }

  lemma SegmentsRunAll(cfg: BigImg, env: Env)
    requires Runnable(cfg)
    ensures PlanFacts(cfg) && SegmentsRun(cfg, env) == AllSegments(cfg, env)
  {
    PlanFits(cfg);
  }

  // ------------------------------------------------------------- early abort

  /** Every action of `acts` succeeded, except that a failed run may end
      with the action that failed it. */
  predicate StopsAtFirstFailure(env: Env, acts: seq<Action>, failed: bool) {
    && (forall i :: 0 <= i < |acts| - 1 ==> Succeeds(env, acts[i]))
    && (!failed && acts != [] ==> Succeeds(env, acts[|acts| - 1]))
  }

  predicate NoRemoval(acts: seq<Action>) {
    forall i :: 0 <= i < |acts| ==> !acts[i].RemoveFile?
  }

  /** What one segment attempts: it saves its still, then runs one encode
      that reads that still and writes the clip it returns, stopping at its
      first failure and removing nothing. */
  predicate SegmentSteps(env: Env, pic: string, o: Outcome<string>) {
    && |o.actions| <= 2 && NoRemoval(o.actions)
    && StopsAtFirstFailure(env, o.actions, o.result.Err?)
    && (|o.actions| >= 1 ==> o.actions[0].SaveImage? && o.actions[0].name == pic)
    && (|o.actions| == 2 ==>
          && o.actions[1].Spawn?
          && ValueOf(o.actions[1].args, "-i") == Some(pic)
          && ValueOf(o.actions[1].args, "-y") == Some(ClipOf(pic)))
    && (o.result.Ok? ==> |o.actions| == 2 && o.result.value == ClipOf(pic))
  }

  /** `combain_chunk` saves the still under its name, or attempts nothing. */
  lemma ChunkRunSteps(cfg: BigImg, env: Env, part: seq<Chunk>, name: string)
    requires Fits(|part|, cfg.widthChunk)
    ensures var c := ChunkRun(cfg, env, part, name);
      && |c.actions| <= 1
      && (c.actions != [] ==> c.actions[0].SaveImage? && c.actions[0].name == name)
      && (c.result.Ok? <==> c.actions != [] && Succeeds(env, c.actions[0]))
  {
  }

  lemma EncodeSteps(env: Env, c: Outcome<()>, pic: string, args: seq<string>)
    requires |c.actions| <= 1
    requires c.actions != [] ==> c.actions[0].SaveImage? && c.actions[0].name == pic
    requires c.result.Ok? <==> c.actions != [] && Succeeds(env, c.actions[0])
    requires ValueOf(args, "-i") == Some(pic) && ValueOf(args, "-y") == Some(ClipOf(pic))
    ensures SegmentSteps(env, pic, Encode(env, c, pic, args))
  {
  }

  lemma EndpointRunSteps(cfg: BigImg, env: Env, part: seq<Chunk>, pic: string, time: U32)
    requires Fits(|part|, cfg.widthChunk) && PlainName(pic)
    ensures SegmentSteps(env, pic, EndpointRun(cfg, env, part, pic, time))
  {
    ChunkRunSteps(cfg, env, part, pic);
    EndpointArgsOptions(cfg, pic, ClipOf(pic), time);
    EncodeSteps(env, ChunkRun(cfg, env, part, pic), pic, EndpointArgs(cfg, pic, ClipOf(pic), time));
  }

  lemma MidRunSteps(cfg: BigImg, env: Env, part: seq<Chunk>, pic: string)
    requires Fits(|part|, cfg.widthChunk) && PlainName(pic) && MidFits(cfg, |part|)
    ensures SegmentSteps(env, pic, MidRun(cfg, env, part, pic))
  {
    var c := ChunkRun(cfg, env, part, pic);
    ChunkRunSteps(cfg, env, part, pic);
    if c.result.Ok? {
      var t := MidTiming(|part|, cfg.overlap, cfg.swipSpeed, cfg.widthChunk).value;
      MidArgsOptions(cfg, pic, ClipOf(pic), t);
      EncodeSteps(env, c, pic, MidArgs(cfg, pic, ClipOf(pic), t));
    }
  }

  /** When nothing in the world fails, the still of `0 < n < 2^32` chunks is
      composed and saved. */
  lemma ChunkRunAllOk(cfg: BigImg, env: Env, part: seq<Chunk>, name: string)
    requires Fits(|part|, cfg.widthChunk) && AllOk(env)
    requires 0 < |part| < U32_LIMIT
    ensures var c := ChunkRun(cfg, env, part, name);
      && c.result.Ok?
      && c.actions == [SaveImage(name, Frame(part, cfg.widthChunk, cfg.screenH, env.draw).value)]
  {
    var f := Frame(part, cfg.widthChunk, cfg.screenH, env.draw);
    DrawableAll(part, env.draw);
    assert f.Ok?;
    assert env.store(SaveImage(name, f.value));
  }

  /** When nothing in the world fails, an endpoint segment of `0 < n < 2^32`
      chunks saves its still, encodes it, and yields its clip. */
  lemma EndpointRunAllOk(cfg: BigImg, env: Env, part: seq<Chunk>, pic: string, time: U32)
    requires Fits(|part|, cfg.widthChunk) && PlainName(pic) && AllOk(env)
    requires 0 < |part| < U32_LIMIT
    ensures var o := EndpointRun(cfg, env, part, pic, time);
      && o.result == Ok(ClipOf(pic))
      && o.actions == [SaveImage(pic, Frame(part, cfg.widthChunk, cfg.screenH, env.draw).value),
                       Spawn(EndpointArgs(cfg, pic, ClipOf(pic), time))]
  {
    ChunkRunAllOk(cfg, env, part, pic);
  }

  /** When nothing in the world fails, a mid segment of `0 < n < 2^32`
      chunks saves its still, runs the pan encode with the timing of
      `MidTiming`, and yields its clip. */
  lemma MidRunAllOk(cfg: BigImg, env: Env, part: seq<Chunk>, pic: string)
    requires Fits(|part|, cfg.widthChunk) && PlainName(pic) && MidFits(cfg, |part|) && AllOk(env)
    requires 0 < |part| < U32_LIMIT
    ensures var o := MidRun(cfg, env, part, pic);
      && o.result == Ok(ClipOf(pic))
      && o.actions == [SaveImage(pic, Frame(part, cfg.widthChunk, cfg.screenH, env.draw).value),
                       Spawn(MidArgs(cfg, pic, ClipOf(pic),
                                     MidTiming(|part|, cfg.overlap, cfg.swipSpeed, cfg.widthChunk).value))]
  {
    ChunkRunAllOk(cfg, env, part, pic);
  }

  /** Once a prefix of the stages has failed, later stages change nothing:
      none of their actions is attempted and the error is kept. */
  lemma {:induction false} ChainStops<T>(outs: seq<Outcome<T>>, k: nat)
    requires k <= |outs| && Chain(outs[..k]).result.Err?
    ensures Chain(outs) == Chain(outs[..k])
    decreases |outs|
  {
    if k < |outs| {
      var init := outs[..|outs| - 1];
      assert init[..k] == outs[..k];
      ChainStops(init, k);
    } else {
      assert outs[..k] == outs;
    }
  }

  /** One more stage: the chain of the first `k + 1` stages extends the
      chain of the first `k` by stage `k`, unless it has already failed. */
  lemma ChainStep<T>(outs: seq<Outcome<T>>, k: nat)
    requires k < |outs|
    ensures var prev := Chain(outs[..k]);
      Chain(outs[..k + 1])
        == if prev.result.Err? then prev
           else Outcome(prev.actions + outs[k].actions,
                        if outs[k].result.Ok? then Ok(prev.result.value + [outs[k].result.value])
                        else Err(outs[k].result.error))
  {
    assert outs[..k + 1][..k] == outs[..k];
  }

  /** One turn of a loop that runs the stages `outs` in order and appends
      the actions of stage `index` to the trace: the trace and the values
      follow the chain one stage further, or the chain stops at that stage. */
  lemma ChainLoopStep<T>(t0: seq<Action>, t1: seq<Action>, t2: seq<Action>,
                         outs: seq<Outcome<T>>, index: nat, results: seq<T>, r: Result<T>)
    requires index < |outs|
    requires t1 == t0 + Chain(outs[..index]).actions && Chain(outs[..index]).result == Ok(results)
    requires t2 == t1 + outs[index].actions && r == outs[index].result
    ensures r.Ok? ==> && t2 == t0 + Chain(outs[..index + 1]).actions
                      && Chain(outs[..index + 1]).result == Ok(results + [r.value])
    ensures r.Err? ==> t2 == t0 + Chain(outs).actions && Chain(outs).result == Err(r.error)
  {
    ChainStep(outs, index);
    AppendAssociative(t0, Chain(outs[..index]).actions, outs[index].actions);
    if r.Err? {
      ChainStops(outs, index + 1);
    }
  }

  lemma ChainAll<T>(outs: seq<Outcome<T>>)
    ensures Chain(outs[..|outs|]) == Chain(outs)
  {
    assert outs[..|outs|] == outs;
  }

  lemma AppendAssociative<T>(a: seq<T>, b: seq<T>, c: seq<T>)
    ensures (a + b) + c == a + (b + c)
  {
  }

  /** Run `q` after `p` unless `p` failed. */
  function Then<T>(p: Outcome<seq<T>>, q: Outcome<seq<T>>): Outcome<seq<T>> {
    if p.result.Err? then p
    else Outcome(p.actions + q.actions,
                 if q.result.Ok? then Ok(p.result.value + q.result.value) else Err(q.result.error))
  }

  /** One stage as a run of its own. */
  function Single<T>(o: Outcome<T>): Outcome<seq<T>> {
    Outcome(o.actions, if o.result.Ok? then Ok([o.result.value]) else Err(o.result.error))
  }

  /** Running `p` and then, only when it succeeded, `q`: the trace grows by
      the actions of `Then(p, q)`, whose result is the joined values or the
      first error. */
  lemma ThenTrace<T>(t0: seq<Action>, t1: seq<Action>, t2: seq<Action>, p: Outcome<seq<T>>, q: Outcome<seq<T>>)
    requires t1 == t0 + p.actions
    requires p.result.Ok? ==> t2 == t1 + q.actions
    ensures p.result.Err? ==> t1 == t0 + Then(p, q).actions && Then(p, q).result == Err(p.result.error)
    ensures p.result.Ok? ==> t2 == t0 + Then(p, q).actions
    ensures p.result.Ok? && q.result.Ok? ==> Then(p, q).result == Ok(p.result.value + q.result.value)
    ensures p.result.Ok? && q.result.Err? ==> Then(p, q).result == Err(q.result.error)
  {
    if p.result.Ok? {
      AppendAssociative(t0, p.actions, q.actions);
    }
  }

  /** `ThenTrace` for a last stage of its own. */
  lemma ThenSingleTrace<T>(t0: seq<Action>, t1: seq<Action>, t2: seq<Action>, p: Outcome<seq<T>>, o: Outcome<T>)
    requires t1 == t0 + p.actions
    requires p.result.Ok? ==> t2 == t1 + o.actions
    ensures p.result.Err? ==> t1 == t0 + Then(p, Single(o)).actions && Then(p, Single(o)).result == Err(p.result.error)
    ensures p.result.Ok? ==> t2 == t0 + Then(p, Single(o)).actions
    ensures p.result.Ok? && o.result.Ok? ==> Then(p, Single(o)).result == Ok(p.result.value + [o.result.value])
    ensures p.result.Ok? && o.result.Err? ==> Then(p, Single(o)).result == Err(o.result.error)
  {
    ThenTrace(t0, t1, t2, p, Single(o));
  }

  /** Stages that each stop at their first failure and remove nothing make
      a chain that does the same. */
  lemma {:induction false} ChainStopsAtFirstFailure<T>(env: Env, outs: seq<Outcome<T>>)
    requires forall i :: 0 <= i < |outs| ==>
      NoRemoval(outs[i].actions) && StopsAtFirstFailure(env, outs[i].actions, outs[i].result.Err?)
    ensures var c := Chain(outs);
      NoRemoval(c.actions) && StopsAtFirstFailure(env, c.actions, c.result.Err?)
    decreases |outs|
  {
    if outs != [] {
      var init := outs[..|outs| - 1];
      var prev := Chain(init);
      ChainStopsAtFirstFailure(env, init);
      if prev.result.Ok? {
        var o := outs[|outs| - 1];
        AppendSteps(env, prev.actions, o.actions, o.result.Err?);
      }
    }
  }

  /** A successful run that removes nothing, followed by a run that removes
      nothing and stops at its first failure, does the same. */
  lemma AppendSteps(env: Env, a: seq<Action>, b: seq<Action>, failed: bool)
    requires NoRemoval(a) && StopsAtFirstFailure(env, a, false)
    requires NoRemoval(b) && StopsAtFirstFailure(env, b, failed)
    ensures NoRemoval(a + b) && StopsAtFirstFailure(env, a + b, failed)
  {
    var acts := a + b;
    forall i | 0 <= i < |acts| ensures !acts[i].RemoveFile? && (i < |acts| - 1 ==> Succeeds(env, acts[i])) {
      if i >= |a| {
        assert acts[i] == b[i - |a|];
      }
    }
  }

  /** `Then` keeps two runs that remove nothing and stop at their first
      failure so. */
  lemma ThenSteps<T>(env: Env, p: Outcome<seq<T>>, q: Outcome<seq<T>>)
    requires NoRemoval(p.actions) && StopsAtFirstFailure(env, p.actions, p.result.Err?)
    requires NoRemoval(q.actions) && StopsAtFirstFailure(env, q.actions, q.result.Err?)
    ensures var o := Then(p, q);
      NoRemoval(o.actions) && StopsAtFirstFailure(env, o.actions, o.result.Err?)
  {
    if p.result.Ok? {
      AppendSteps(env, p.actions, q.actions, q.result.Err?);
    }
  }

  /** A chain succeeds exactly when every stage does; it then yields every
      stage's value in stage order and attempts every stage's actions. */
  lemma {:induction false} ChainOk<T>(outs: seq<Outcome<T>>, width: nat)
    requires forall i :: 0 <= i < |outs| && outs[i].result.Ok? ==> |outs[i].actions| == width
    ensures var c := Chain(outs);
      && (c.result.Ok? <==> forall i :: 0 <= i < |outs| ==> outs[i].result.Ok?)
      && (c.result.Ok? ==>
            && |c.result.value| == |outs|
            && (forall i :: 0 <= i < |outs| ==> c.result.value[i] == outs[i].result.value)
            && |c.actions| == width * |outs|)
    decreases |outs|
  {
    if outs != [] {
      var init := outs[..|outs| - 1];
      ChainOk(init, width);
      var c := Chain(outs);
      if !Chain(init).result.Ok? {
        var j :| 0 <= j < |init| && !init[j].result.Ok?;
        assert !outs[j].result.Ok?;
      }
    }
  }

  // ------------------------------------------------------------- combain

  /** The tail keeps a run that stops at its first failure so, and removes
      nothing unless it succeeds. */
  lemma FinishStops(env: Env, p: Outcome<seq<string>>, saveName: string)
    requires NoRemoval(p.actions) && StopsAtFirstFailure(env, p.actions, p.result.Err?)
    ensures var o := Finish(env, p, saveName);
      && StopsAtFirstFailure(env, o.actions, o.result.Err?)
      && (o.result.Err? ==> NoRemoval(o.actions))
  {
    if p.result.Ok? {
      var o := Finish(env, p, saveName);
      forall i | 0 <= i < |o.actions| - 1 ensures Succeeds(env, o.actions[i]) {
        if i < |p.actions| {
          assert o.actions[i] == p.actions[i];
        }
      }
    }
  }

  /** Stages that each remove nothing and stop at their first failure, and
      that on success take two actions and yield `names[i]`, chained: the
      chain does the same and yields `names`. */
  lemma ChainSteps<T>(env: Env, outs: seq<Outcome<T>>, names: seq<T>)
    requires |names| == |outs|
    requires forall i :: 0 <= i < |outs| ==>
      && NoRemoval(outs[i].actions) && StopsAtFirstFailure(env, outs[i].actions, outs[i].result.Err?)
      && (outs[i].result.Ok? ==> |outs[i].actions| == 2 && outs[i].result.value == names[i])
    ensures var c := Chain(outs);
      && NoRemoval(c.actions) && StopsAtFirstFailure(env, c.actions, c.result.Err?)
      && (c.result.Ok? ==> c.result.value == names && |c.actions| == 2 * |outs|)
  {
    ChainStopsAtFirstFailure(env, outs);
    ChainOk(outs, 2);
    var c := Chain(outs);
    if c.result.Ok? {
      assert c.result.value == names;
    }
  }

  /** A run that removes nothing and stops at its first failure, followed by
      one segment: the whole does the same, and on success yields the run's
      values and then the segment's clip, after two more actions. */
  lemma TailSteps(env: Env, m: Outcome<seq<string>>, e: Outcome<string>, pic: string)
    requires NoRemoval(m.actions) && StopsAtFirstFailure(env, m.actions, m.result.Err?)
    requires SegmentSteps(env, pic, e)
    ensures var o := Then(m, Single(e));
      && NoRemoval(o.actions) && StopsAtFirstFailure(env, o.actions, o.result.Err?)
      && (o.result.Ok? ==>
            && m.result.Ok? && o.result.value == m.result.value + [ClipOf(pic)]
            && |o.actions| == |m.actions| + 2)
  {
    ThenSteps(env, m, Single(e));
  }

  /** One segment followed by a run that removes nothing and stops at its
      first failure: the whole does the same, and on success yields the
      segment's clip and then the run's values, after two more actions. */
  lemma HeadSteps(env: Env, c: Outcome<string>, r: Outcome<seq<string>>, pic: string)
    requires SegmentSteps(env, pic, c)
    requires NoRemoval(r.actions) && StopsAtFirstFailure(env, r.actions, r.result.Err?)
    ensures var o := Then(Single(c), r);
      && NoRemoval(o.actions) && StopsAtFirstFailure(env, o.actions, o.result.Err?)
      && (o.result.Ok? ==>
            && r.result.Ok? && o.result.value == [ClipOf(pic)] + r.result.value
            && |o.actions| == |r.actions| + 2)
  {
    ThenSteps(env, Single(c), r);
  }

  /** Pan `i` saves its still and encodes it, stopping at its first failure;
      it yields `{i:0>2}.mp4`. */
  lemma MidOutcomesSteps(cfg: BigImg, env: Env, windows: seq<seq<Chunk>>)
    requires WindowsFit(cfg, windows)
    ensures var c := Chain(MidOutcomes(cfg, env, windows));
      && NoRemoval(c.actions) && StopsAtFirstFailure(env, c.actions, c.result.Err?)
      && (c.result.Ok? ==> c.result.value == MidClips(|windows|) && |c.actions| == 2 * |windows|)
  {
    var outs := MidOutcomes(cfg, env, windows);
    var names := MidClips(|windows|);
    forall i | 0 <= i < |outs|
      ensures NoRemoval(outs[i].actions) && StopsAtFirstFailure(env, outs[i].actions, outs[i].result.Err?)
      ensures outs[i].result.Ok? ==> |outs[i].actions| == 2 && outs[i].result.value == names[i]
    {
      MidOutcomesAt(cfg, env, windows, i);
      MidRunSteps(cfg, env, windows[i], MidStill(i));
      ClipNames(i);
    }
    ChainSteps(env, outs, names);
  }

  /** The loop over the windows removes nothing and stops at its first
      failure; on success it yields `00.mp4`, `01.mp4`, ..., one per window,
      after two actions each. */
  lemma MidsSteps(cfg: BigImg, env: Env)
    requires Runnable(cfg) && PlanFacts(cfg)
    ensures var m := MidsRun(cfg, env);
      var n := |Divide(cfg.chunks, cfg.step, cfg.overlap)|;
      && NoRemoval(m.actions) && StopsAtFirstFailure(env, m.actions, m.result.Err?)
      && (m.result.Ok? ==> m.result.value == MidClips(n) && |m.actions| == 2 * n)
  {
    var windows := Divide(cfg.chunks, cfg.step, cfg.overlap);
    MidOutcomesSteps(cfg, env, windows);
  }

  /** The loop over the windows and the ending remove nothing and stop at
      their first failure; on success they yield `00.mp4`, `01.mp4`, ...,
      `ending.mp4` after two actions each. */
  lemma RestSteps(cfg: BigImg, env: Env)
    requires Runnable(cfg) && PlanFacts(cfg)
    ensures var r := RestRun(cfg, env);
      var n := |Divide(cfg.chunks, cfg.step, cfg.overlap)|;
      && NoRemoval(r.actions) && StopsAtFirstFailure(env, r.actions, r.result.Err?)
      && (r.result.Ok? ==> r.result.value == MidClips(n) + ["ending.mp4"] && |r.actions| == 2 * n + 2)
  {
    var part := cfg.chunks[|cfg.chunks| - cfg.overlap..];
    var e := EndpointRun(cfg, env, part, EndingStill, cfg.endingTime);
    assert EndingRun(cfg, env) == Single(e);
    EndpointRunSteps(cfg, env, part, EndingStill, cfg.endingTime);
    MidsSteps(cfg, env);
    TailSteps(env, MidsRun(cfg, env), e, EndingStill);
    EndingClipName();
  }

  /** The segments remove nothing and stop at their first failure; on
      success they yield `cover.mp4`, `00.mp4`, ..., `ending.mp4` after two
      actions each (`Stagewise.SegmentsOrder` says what each action is). */
  lemma SegmentsSteps(cfg: BigImg, env: Env)
    requires Runnable(cfg)
    ensures var p := SegmentsRun(cfg, env);
      var n := WindowCount(|cfg.chunks|, cfg.step, cfg.overlap);
      && NoRemoval(p.actions)
      && StopsAtFirstFailure(env, p.actions, p.result.Err?)
      && (p.result.Ok? ==> p.result.value == ClipList(n) && |p.actions| == 2 * (n + 2))
  {
    SegmentsRunAll(cfg, env);
    DivideCount(cfg.chunks, cfg.step, cfg.overlap);
    var part := cfg.chunks[..cfg.overlap];
    EndpointRunSteps(cfg, env, part, CoverStill, cfg.coverTime);
    RestSteps(cfg, env);
    HeadSteps(env, EndpointRun(cfg, env, part, CoverStill, cfg.coverTime), RestRun(cfg, env), CoverStill);
    CoverClipName();
    AppendAssociative(["cover.mp4"], MidClips(WindowCount(|cfg.chunks|, cfg.step, cfg.overlap)), ["ending.mp4"]);
  }

  /** When nothing in the world fails, every pan succeeds: each window is
      non-empty and countable in a `u32`. */
  lemma MidsAllOk(cfg: BigImg, env: Env)
    requires Runnable(cfg) && PlanFacts(cfg) && AllOk(env)
    ensures MidsRun(cfg, env).result.Ok?
  {
    var windows := Divide(cfg.chunks, cfg.step, cfg.overlap);
    forall i | 0 <= i < |windows| ensures 0 < |windows[i]| < U32_LIMIT {
      DivideAt(cfg.chunks, cfg.step, cfg.overlap, i);
    }
    MidOutcomesAllOk(cfg, env, windows);
  }

  /** When nothing in the world fails, the pan of every non-empty window
      succeeds after two actions. */
  lemma MidOutcomesAllOk(cfg: BigImg, env: Env, windows: seq<seq<Chunk>>)
    requires WindowsFit(cfg, windows) && AllOk(env)
    requires forall i :: 0 <= i < |windows| ==> 0 < |windows[i]| < U32_LIMIT
    ensures Chain(MidOutcomes(cfg, env, windows)).result.Ok?
  {
    var outs := MidOutcomes(cfg, env, windows);
    forall i | 0 <= i < |outs| ensures outs[i].result.Ok? && |outs[i].actions| == 2 {
      MidOutcomesAt(cfg, env, windows, i);
      MidRunAllOk(cfg, env, windows[i], MidStill(i));
    }
    ChainOk(outs, 2);
  }

  /** When nothing in the world fails, the loop over the windows and the
      ending on the last screenful succeed. */
  lemma RestAllOk(cfg: BigImg, env: Env)
    requires Runnable(cfg) && PlanFacts(cfg) && AllOk(env)
    ensures RestRun(cfg, env).result.Ok?
  {
    var part := cfg.chunks[|cfg.chunks| - cfg.overlap..];
    assert EndingRun(cfg, env) == Single(EndpointRun(cfg, env, part, EndingStill, cfg.endingTime));
    MidsAllOk(cfg, env);
    EndpointRunAllOk(cfg, env, part, EndingStill, cfg.endingTime);
  }

  /** When nothing in the world fails, every segment succeeds: each part is
      non-empty and countable in a `u32`. */
  lemma SegmentsAllOk(cfg: BigImg, env: Env)
    requires Runnable(cfg) && AllOk(env)
    ensures SegmentsRun(cfg, env).result.Ok?
  {
    SegmentsRunAll(cfg, env);
    RestAllOk(cfg, env);
    EndpointRunAllOk(cfg, env, cfg.chunks[..cfg.overlap], CoverStill, cfg.coverTime);
  }

  /** `combain` stops at its first failure; a failed run removes nothing. */
  lemma CombainStops(cfg: BigImg, env: Env, saveName: string)
    requires Runnable(cfg)
    ensures var o := CombainRun(cfg, env, saveName);
      && StopsAtFirstFailure(env, o.actions, o.result.Err?)
      && (o.result.Err? ==> NoRemoval(o.actions))
  {
    SegmentsSteps(cfg, env);
    FinishStops(env, SegmentsRun(cfg, env), saveName);
  }

  /** How a successful run ends: actions that remove nothing, then the
      write of the manifest listing `clips`, which reads back as exactly
      those clips, then the concat, which succeeds, and last the removal of
      exactly the clips, in order, all of them `.mp4` files. */
  predicate CleansUp(env: Env, o: Outcome<()>, clips: seq<string>, saveName: string) {
    var k := |o.actions| - |clips| - 2;
    var concat := Spawn(ConcatArgs(ListFile, saveName));
    && 0 <= k
    && o.actions == o.actions[..k] + [WriteFile(ListFile, Manifest(clips)), concat] + Removals(clips)
    && NoRemoval(o.actions[..k])
    && ParseManifest(Manifest(clips)) == Some(clips)
    && Succeeds(env, concat)
    && (forall i :: 0 <= i < |clips| ==> EndsWith(clips[i], ".mp4"))
  }

  /** After segments that removed nothing, a successful tail writes the
      manifest listing the clips, concatenates, and only then removes
      exactly the clips, in order. */
  lemma FinishCleanup(env: Env, p: Outcome<seq<string>>, saveName: string)
    requires NoRemoval(p.actions) && p.result.Ok?
    requires forall i :: 0 <= i < |p.result.value| ==>
               SingleLine(p.result.value[i]) && EndsWith(p.result.value[i], ".mp4")
    requires Finish(env, p, saveName).result.Ok?
    ensures CleansUp(env, Finish(env, p, saveName), p.result.value, saveName)
  {
    var clips := p.result.value;
    ManifestRoundTrip(clips);
    var o := Finish(env, p, saveName);
    var tail := [WriteFile(ListFile, Manifest(clips)), Spawn(ConcatArgs(ListFile, saveName))];
    assert o.actions == p.actions + tail + Removals(clips);
    assert o.actions[..|p.actions|] == p.actions;
  }

  /** A successful `combain` writes the manifest listing `cover.mp4`,
      `00.mp4`, ..., `ending.mp4` in production order, concatenates, and
      only then removes exactly those clips, in order; the stills and the
      manifest stay. */
  lemma CombainCleanup(cfg: BigImg, env: Env, saveName: string)
    requires Runnable(cfg)
    requires CombainRun(cfg, env, saveName).result.Ok?
    ensures CleansUp(env, CombainRun(cfg, env, saveName),
                     ClipList(WindowCount(|cfg.chunks|, cfg.step, cfg.overlap)), saveName)
  {
    var p := SegmentsRun(cfg, env);
    SegmentsSteps(cfg, env);
    ClipListFormat(WindowCount(|cfg.chunks|, cfg.step, cfg.overlap));
    FinishCleanup(env, p, saveName);
  }

  /** When nothing in the world fails, `combain` succeeds after
      `2 * (windows + 2)` segment actions, the manifest write, the concat
      and `windows + 2` removals. */
  lemma CombainAllOk(cfg: BigImg, env: Env, saveName: string)
    requires Runnable(cfg) && AllOk(env)
    ensures var o := CombainRun(cfg, env, saveName);
      var n := WindowCount(|cfg.chunks|, cfg.step, cfg.overlap) + 2;
      o.result.Ok? && |o.actions| == 3 * n + 2
  {
    SegmentsSteps(cfg, env);
    SegmentsAllOk(cfg, env);
    var p := SegmentsRun(cfg, env);
    var t := Tail(env, p.result.value, saveName);
    assert Succeeds(env, WriteFile(ListFile, Manifest(p.result.value)));
    assert env.exec(ConcatArgs(ListFile, saveName)) == Exited(0);
    assert |t.actions| == 2 + |p.result.value|;
  }

  // ------------------------------------------------------------- the methods

  /** Runs ffmpeg in the work directory and reads its exit status. */
  method Ffmpeg(ws: WorkDir, args: seq<string>) returns (r: Result<()>)
    modifies ws
    ensures ws.trace == old(ws.trace) + [Spawn(args)]
    ensures r == FfmpegResult(ws.env.exec(args))
  {
    var exit := ws.Run(args);
    match exit {
      case SpawnFailed =>
        r := Err(Io);
      case Exited(code) =>
        r := if code == 0 then Ok(()) else Err(FfmpegFailed);
    }
  }

  method CombainChunk(cfg: BigImg, ws: WorkDir, part: seq<Chunk>, saveName: string) returns (r: Result<()>)
    requires Fits(|part|, cfg.widthChunk)
    modifies ws
    ensures ws.trace == old(ws.trace) + ChunkRun(cfg, ws.env, part, saveName).actions
    ensures r == ChunkRun(cfg, ws.env, part, saveName).result
  {
    var still := ComposeFrame(part, cfg.widthChunk, cfg.screenH, ws.env.draw);
    if still.Err? {
      return Err(still.error);
    }
    var ok := ws.Save(saveName, still.value);
    if !ok {
      return Err(Image);
    }
    return Ok(());
  }

  method GenerateEndpointVideo(cfg: BigImg, ws: WorkDir, part: seq<Chunk>, pic: string, time: U32)
    returns (r: Result<string>)
    requires Fits(|part|, cfg.widthChunk) && PlainName(pic)
    modifies ws
    ensures ws.trace == old(ws.trace) + EndpointRun(cfg, ws.env, part, pic, time).actions
    ensures r == EndpointRun(cfg, ws.env, part, pic, time).result
  {
    var clip := ClipOf(pic);
    var c := CombainChunk(cfg, ws, part, pic);
    if c.Err? {
      return Err(c.error);
    }
    var e := Ffmpeg(ws, EndpointArgs(cfg, pic, clip, time));
    if e.Err? {
      return Err(e.error);
    }
    return Ok(clip);
  }

  method GenerateMidVideo(cfg: BigImg, ws: WorkDir, part: seq<Chunk>, pic: string)
    returns (r: Result<string>)
    requires Fits(|part|, cfg.widthChunk) && PlainName(pic) && MidFits(cfg, |part|)
    modifies ws
    ensures ws.trace == old(ws.trace) + MidRun(cfg, ws.env, part, pic).actions
    ensures r == MidRun(cfg, ws.env, part, pic).result
  {
    var c := CombainChunk(cfg, ws, part, pic);
    if c.Err? {
      return Err(c.error);
    }
    var clip := ClipOf(pic);
    var t := MidTiming(|part|, cfg.overlap, cfg.swipSpeed, cfg.widthChunk).value;
    var e := Ffmpeg(ws, MidArgs(cfg, pic, clip, t));
    if e.Err? {
      return Err(e.error);
    }
    return Ok(clip);
  }

  /** The loop of `combain` over the windows of `divide`: pan window
      `index` as `{index:0>2}.png`, stopping at the first failure. */
  method GenerateMids(cfg: BigImg, ws: WorkDir) returns (r: Result<seq<string>>)
    requires Runnable(cfg) && PlanFacts(cfg)
    modifies ws
    ensures ws.trace == old(ws.trace) + MidsRun(cfg, ws.env).actions
    ensures r == MidsRun(cfg, ws.env).result
  {
    var windows := Divide(cfg.chunks, cfg.step, cfg.overlap);
    ghost var outs := MidOutcomes(cfg, ws.env, windows);
    var results: seq<string> := [];
    for index := 0 to |windows|
      invariant ws.trace == old(ws.trace) + Chain(outs[..index]).actions
      invariant Chain(outs[..index]).result == Ok(results)
    {
      ghost var before := ws.trace;
      var mid := GenerateMidVideo(cfg, ws, windows[index], MidStill(index));
      MidOutcomesAt(cfg, ws.env, windows, index);
      ChainLoopStep(old(ws.trace), before, ws.trace, outs, index, results, mid);
      if mid.Err? {
        return Err(mid.error);
      }
      results := results + [mid.value];
    }
    ChainAll(outs);
    return Ok(results);
  }

  /** The windows of `divide`, then the ending on the last screenful. */
  method GenerateRest(cfg: BigImg, ws: WorkDir) returns (r: Result<seq<string>>)
    requires Runnable(cfg) && PlanFacts(cfg)
    modifies ws
    ensures ws.trace == old(ws.trace) + RestRun(cfg, ws.env).actions
    ensures r == RestRun(cfg, ws.env).result
  {
    ghost var m := MidsRun(cfg, ws.env);
    ghost var e := EndpointRun(cfg, ws.env, cfg.chunks[|cfg.chunks| - cfg.overlap..], EndingStill, cfg.endingTime);
    assert EndingRun(cfg, ws.env) == Single(e);
    var middle := GenerateMids(cfg, ws);
    ghost var t1 := ws.trace;
    if middle.Err? {
      ThenSingleTrace(old(ws.trace), t1, t1, m, e);
      return Err(middle.error);
    }
    var ending := GenerateEndpointVideo(cfg, ws, cfg.chunks[|cfg.chunks| - cfg.overlap..], EndingStill, cfg.endingTime);
    ThenSingleTrace(old(ws.trace), t1, ws.trace, m, e);
    if ending.Err? {
      return Err(ending.error);
    }
    return Ok(middle.value + [ending.value]);
  }

  /** The segments of `combain`: the cover on the first screenful, every
      window, then the ending on the last screenful; the first failure ends
      the run. */
  method GenerateSegments(cfg: BigImg, ws: WorkDir) returns (r: Result<seq<string>>)
    requires Runnable(cfg)
    modifies ws
    ensures ws.trace == old(ws.trace) + SegmentsRun(cfg, ws.env).actions
    ensures r == SegmentsRun(cfg, ws.env).result
  {
    SegmentsRunAll(cfg, ws.env);
    ghost var c := Single(EndpointRun(cfg, ws.env, cfg.chunks[..cfg.overlap], CoverStill, cfg.coverTime));
    var cover := GenerateEndpointVideo(cfg, ws, cfg.chunks[..cfg.overlap], CoverStill, cfg.coverTime);
    ghost var t1 := ws.trace;
    if cover.Err? {
      ThenTrace(old(ws.trace), t1, t1, c, RestRun(cfg, ws.env));
      return Err(cover.error);
    }
    var rest := GenerateRest(cfg, ws);
    ThenTrace(old(ws.trace), t1, ws.trace, c, RestRun(cfg, ws.env));
    if rest.Err? {
      return Err(rest.error);
    }
    return Ok([cover.value] + rest.value);
  }

  /** The second half of `combain`: write `list.txt`, run the concat, and
      only then remove the clips, ignoring whether each removal works. */
  method Concatenate(ws: WorkDir, results: seq<string>, saveName: string) returns (r: Result<()>)
    modifies ws
    ensures ws.trace == old(ws.trace) + Tail(ws.env, results, saveName).actions
    ensures r == Tail(ws.env, results, saveName).result
  {
    var ok := ws.Write(ListFile, Manifest(results));
    if !ok {
      return Err(Io);
    }
    var e := Ffmpeg(ws, ConcatArgs(ListFile, saveName));
    if e.Err? {
      return Err(e.error);
    }
    ghost var before := ws.trace;
    for i := 0 to |results|
      invariant ws.trace == before + Removals(results[..i])
    {
      ws.Remove(results[i]);
      assert Removals(results[..i + 1]) == Removals(results[..i]) + [RemoveFile(results[i])];
    }
    assert results[..|results|] == results;
    return Ok(());
  }

  /** `combain`: the segments, then the manifest, the concat, and the
      removal of the clips. */
  method Combain(cfg: BigImg, ws: WorkDir, saveName: string) returns (r: Result<()>)
    requires Runnable(cfg)
    modifies ws
    ensures ws.trace == old(ws.trace) + CombainRun(cfg, ws.env, saveName).actions
    ensures r == CombainRun(cfg, ws.env, saveName).result
  {
    ghost var p := SegmentsRun(cfg, ws.env);
    var segments := GenerateSegments(cfg, ws);
    if segments.Err? {
      return Err(segments.error);
    }
    ghost var t := Tail(ws.env, segments.value, saveName);
    r := Concatenate(ws, segments.value, saveName);
    AppendAssociative(old(ws.trace), p.actions, t.actions);
  }
}
