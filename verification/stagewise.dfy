/** `combain` stage by stage: the cover, the pan of every window and the
    ending form one sequence of stages, and the run is that sequence chained.
    From this follow what each action of a successful run is, and where a
    failed run stops, whether or not the failing stage attempted anything. */
module Stagewise {

  import opened Types
  import opened Partition
  import opened Compose
  import opened Segments
  import opened Decimal
  import opened Environment
  import opened Pipeline

  // ---------------------------------------------------------- chains and Then

  /** One more stage at the end is `Then` with that stage alone. */
  lemma ChainSnoc<T>(outs: seq<Outcome<T>>, o: Outcome<T>)
    ensures Chain(outs + [o]) == Then(Chain(outs), Single(o))
  {
    assert (outs + [o])[..|outs|] == outs;
  }

  /** `Then` is associative. */
  lemma ThenAssociative<T>(p: Outcome<seq<T>>, q: Outcome<seq<T>>, r: Outcome<seq<T>>)
    ensures Then(Then(p, q), r) == Then(p, Then(q, r))
  {
    if p.result.Ok? && q.result.Ok? {
      AppendAssociative(p.actions, q.actions, r.actions);
      if r.result.Ok? {
        AppendAssociative(p.result.value, q.result.value, r.result.value);
      }
    }
  }

  /** One more stage at the front is that stage alone, then the rest. */
  lemma {:induction false} ChainCons<T>(o: Outcome<T>, outs: seq<Outcome<T>>)
    ensures Chain([o] + outs) == Then(Single(o), Chain(outs))
    decreases |outs|
  {
    if outs == [] {
      assert [o] + outs == [] + [o];
      ChainSnoc([], o);
      assert [] + o.actions == o.actions + [];
      if o.result.Ok? {
        assert [] + [o.result.value] == [o.result.value] + [];
      }
    } else {
      var init := outs[..|outs| - 1];
      var last := outs[|outs| - 1];
      assert [o] + outs == ([o] + init) + [last];
      assert outs == init + [last];
      ChainSnoc([o] + init, last);
      ChainCons(o, init);
      ChainSnoc(init, last);
      ThenAssociative(Single(o), Chain(init), Single(last));
    }
  }

  /** A first stage, a chain of middle stages and a last stage. */
  lemma ChainThree<T>(c: Outcome<T>, m: seq<Outcome<T>>, e: Outcome<T>)
    ensures Chain([c] + m + [e]) == Then(Single(c), Then(Chain(m), Single(e)))
  {
    ChainSnoc([c] + m, e);
    ChainCons(c, m);
    ThenAssociative(Single(c), Chain(m), Single(e));
  }

  /** Stage `k` is the first of `outs` to fail. */
  predicate FailsFirstAt<T>(outs: seq<Outcome<T>>, k: nat) {
    && k < |outs|
    && (forall i :: 0 <= i < k ==> outs[i].result.Ok?)
    && outs[k].result.Err?
  }

  /** If stage `k` is the first to fail, the chain fails with its error
      after the actions of the stages before it and of stage `k`. */
  lemma ChainAbort<T>(outs: seq<Outcome<T>>, k: nat, width: nat)
    requires forall j :: 0 <= j < |outs| && outs[j].result.Ok? ==> |outs[j].actions| == width
    requires FailsFirstAt(outs, k)
    ensures Chain(outs).result == Err(outs[k].result.error)
    ensures Chain(outs).actions == Chain(outs[..k]).actions + outs[k].actions
    ensures |Chain(outs[..k]).actions| == width * k
  {
    var pre := outs[..k];
    assert forall i :: 0 <= i < k ==> pre[i] == outs[i];
    ChainOk(pre, width);
    ChainStep(outs, k);
    ChainStops(outs, k + 1);
  }

  /** A successful chain of two-action stages: action `2 * i` is the first
      action of stage `i`, action `2 * i + 1` its second. */
  lemma {:induction false} ChainPairs<T>(outs: seq<Outcome<T>>)
    requires forall i :: 0 <= i < |outs| && outs[i].result.Ok? ==> |outs[i].actions| == 2
    ensures var c := Chain(outs);
      c.result.Ok? ==>
        && |c.actions| == 2 * |outs|
        && forall i :: 0 <= i < |outs| ==>
             && outs[i].result.Ok? && |outs[i].actions| == 2
             && c.actions[2 * i] == outs[i].actions[0] && c.actions[2 * i + 1] == outs[i].actions[1]
    decreases |outs|
  {
    var c := Chain(outs);
    if outs != [] && c.result.Ok? {
      var init := outs[..|outs| - 1];
      var last := outs[|outs| - 1];
      var pc := Chain(init);
      assert pc.result.Ok? && last.result.Ok?;
      assert c.actions == pc.actions + last.actions;
      ChainPairs(init);
      forall i | 0 <= i < |outs|
        ensures && outs[i].result.Ok? && |outs[i].actions| == 2
                && c.actions[2 * i] == outs[i].actions[0] && c.actions[2 * i + 1] == outs[i].actions[1]
      {
        if i < |init| {
          assert init[i] == outs[i];
        }
      }
    }
  }

  // ---------------------------------------------------------- the stages

  /** The stages of `combain`, in order, for the cover screenful `first`,
      the windows `ws` and the ending screenful `last`: the cover, the pan of
      every window, the ending. `combain` runs them on `chunks[..overlap]`,
      the windows of `divide` and `chunks[len - overlap..]`
      (`SegmentsChain`). */
  function Stages(cfg: BigImg, env: Env, first: seq<Chunk>, ws: seq<seq<Chunk>>, last: seq<Chunk>)
    : (s: seq<Outcome<string>>)
    requires Fits(|first|, cfg.widthChunk) && Fits(|last|, cfg.widthChunk) && WindowsFit(cfg, ws)
    ensures |s| == |ws| + 2
  {
    [EndpointRun(cfg, env, first, CoverStill, cfg.coverTime)]
      + MidOutcomes(cfg, env, ws)
      + [EndpointRun(cfg, env, last, EndingStill, cfg.endingTime)]
  }

  /** Chaining the stages runs the cover, then the windows, then the ending. */
  lemma ChainStages(cfg: BigImg, env: Env, first: seq<Chunk>, ws: seq<seq<Chunk>>, last: seq<Chunk>)
    requires Fits(|first|, cfg.widthChunk) && Fits(|last|, cfg.widthChunk) && WindowsFit(cfg, ws)
    ensures Chain(Stages(cfg, env, first, ws, last))
         == Then(Single(EndpointRun(cfg, env, first, CoverStill, cfg.coverTime)),
                 Then(Chain(MidOutcomes(cfg, env, ws)),
                      Single(EndpointRun(cfg, env, last, EndingStill, cfg.endingTime))))
  {
    ChainThree(EndpointRun(cfg, env, first, CoverStill, cfg.coverTime), MidOutcomes(cfg, env, ws),
               EndpointRun(cfg, env, last, EndingStill, cfg.endingTime));
  }

  /** After the cover, `combain` chains the windows, then the ending. */
  lemma RestChain(cfg: BigImg, env: Env)
    requires Runnable(cfg) && PlanFacts(cfg)
    ensures RestRun(cfg, env)
         == Then(Chain(MidOutcomes(cfg, env, Divide(cfg.chunks, cfg.step, cfg.overlap))),
                 Single(EndpointRun(cfg, env, cfg.chunks[|cfg.chunks| - cfg.overlap..], EndingStill, cfg.endingTime)))
  {
    assert EndingRun(cfg, env)
        == Single(EndpointRun(cfg, env, cfg.chunks[|cfg.chunks| - cfg.overlap..], EndingStill, cfg.endingTime));
    assert MidsRun(cfg, env) == Chain(MidOutcomes(cfg, env, Divide(cfg.chunks, cfg.step, cfg.overlap)));
  }

  /** The segments of `combain` are its stages chained, on the first
      screenful, the windows of `divide` and the last screenful: each stage
      runs only when every earlier one succeeded. */
  lemma SegmentsChain(cfg: BigImg, env: Env)
    requires Runnable(cfg)
    ensures PlanFacts(cfg)
    ensures SegmentsRun(cfg, env)
         == Chain(Stages(cfg, env, cfg.chunks[..cfg.overlap], Divide(cfg.chunks, cfg.step, cfg.overlap),
                         cfg.chunks[|cfg.chunks| - cfg.overlap..]))
  {
    SegmentsRunAll(cfg, env);
    RestChain(cfg, env);
    ChainStages(cfg, env, cfg.chunks[..cfg.overlap], Divide(cfg.chunks, cfg.step, cfg.overlap),
                cfg.chunks[|cfg.chunks| - cfg.overlap..]);
  }

  /** `a` saves, as `name`, the still composed from `part`. */
  predicate SavesStill(cfg: BigImg, env: Env, a: Action, name: string, part: seq<Chunk>) {
    && Fits(|part|, cfg.widthChunk)
    && var f := Frame(part, cfg.widthChunk, cfg.screenH, env.draw);
       f.Ok? && a == SaveImage(name, f.value)
  }

  /** `a` runs the encoder from the still `pic` to the clip `clip`. */
  predicate EncodesClip(a: Action, pic: string, clip: string) {
    a.Spawn? && ValueOf(a.args, "-i") == Some(pic) && ValueOf(a.args, "-y") == Some(clip)
  }

  /** A stage that succeeded took two actions: it saved the still of `part`
      as `pic` and encoded it into the clip of `pic`. */
  predicate StageDid(cfg: BigImg, env: Env, part: seq<Chunk>, pic: string, o: Outcome<string>) {
    o.result.Ok? ==>
      && |o.actions| == 2
      && SavesStill(cfg, env, o.actions[0], pic, part)
      && EncodesClip(o.actions[1], pic, ClipOf(pic))
  }

  /** Actions `2 * k` and `2 * k + 1` of `acts` save the still of `part` as
      `pic` and encode it into the clip of `pic`. */
  predicate DidAt(cfg: BigImg, env: Env, acts: seq<Action>, k: nat, part: seq<Chunk>, pic: string) {
    && 2 * k + 1 < |acts|
    && SavesStill(cfg, env, acts[2 * k], pic, part)
    && EncodesClip(acts[2 * k + 1], pic, ClipOf(pic))
  }

  /** A still that was composed and saved was saved as `name`. */
  lemma ChunkRunSaves(cfg: BigImg, env: Env, part: seq<Chunk>, name: string)
    requires Fits(|part|, cfg.widthChunk)
    ensures var c := ChunkRun(cfg, env, part, name);
      c.result.Ok? ==> |c.actions| == 1 && SavesStill(cfg, env, c.actions[0], name, part)
  {
  }

  /** A saved still followed by an encode that reads it and writes its clip
      is a stage that did both. */
  lemma EncodeDid(cfg: BigImg, env: Env, part: seq<Chunk>, c: Outcome<()>, pic: string, args: seq<string>)
    requires c.result.Ok? ==> |c.actions| == 1 && SavesStill(cfg, env, c.actions[0], pic, part)
    requires ValueOf(args, "-i") == Some(pic) && ValueOf(args, "-y") == Some(ClipOf(pic))
    ensures StageDid(cfg, env, part, pic, Encode(env, c, pic, args))
  {
  }

  /** An endpoint stage that succeeded saved the still of `part` as `pic`
      and encoded it into the clip of `pic`. */
  lemma EndpointRunDid(cfg: BigImg, env: Env, part: seq<Chunk>, pic: string, time: U32)
    requires Fits(|part|, cfg.widthChunk) && PlainName(pic)
    ensures StageDid(cfg, env, part, pic, EndpointRun(cfg, env, part, pic, time))
  {
    EndpointArgsOptions(cfg, pic, ClipOf(pic), time);
    ChunkRunSaves(cfg, env, part, pic);
    EncodeDid(cfg, env, part, ChunkRun(cfg, env, part, pic), pic, EndpointArgs(cfg, pic, ClipOf(pic), time));
  }

  /** A pan stage that succeeded saved the still of `part` as `pic` and
      encoded it into the clip of `pic`. */
  lemma MidRunDid(cfg: BigImg, env: Env, part: seq<Chunk>, pic: string)
    requires Fits(|part|, cfg.widthChunk) && PlainName(pic) && MidFits(cfg, |part|)
    ensures StageDid(cfg, env, part, pic, MidRun(cfg, env, part, pic))
  {
    var c := ChunkRun(cfg, env, part, pic);
    if c.result.Ok? {
      var t := MidTiming(|part|, cfg.overlap, cfg.swipSpeed, cfg.widthChunk).value;
      MidArgsOptions(cfg, pic, ClipOf(pic), t);
      ChunkRunSaves(cfg, env, part, pic);
      EncodeDid(cfg, env, part, c, pic, MidArgs(cfg, pic, ClipOf(pic), t));
      assert MidRun(cfg, env, part, pic) == Encode(env, c, pic, MidArgs(cfg, pic, ClipOf(pic), t));
    }
  }

  /** Pan `i` saved window `i` of the windows as `{i:0>2}.png`. */
  lemma MidStagesDid(cfg: BigImg, env: Env, ws: seq<seq<Chunk>>)
    requires WindowsFit(cfg, ws)
    ensures forall i :: 0 <= i < |ws| ==> StageDid(cfg, env, ws[i], MidStill(i), MidOutcomes(cfg, env, ws)[i])
  {
    forall i | 0 <= i < |ws| ensures StageDid(cfg, env, ws[i], MidStill(i), MidOutcomes(cfg, env, ws)[i]) {
      MidOutcomesAt(cfg, env, ws, i);
      MidRunDid(cfg, env, ws[i], MidStill(i));
    }
  }

  /** Each stage that succeeded saved its own still and encoded it: the
      cover still from `first`, pan `i` from window `i` as `{i:0>2}.png`,
      the ending still from `last`. */
  lemma StagesDid(cfg: BigImg, env: Env, first: seq<Chunk>, ws: seq<seq<Chunk>>, last: seq<Chunk>)
    requires Fits(|first|, cfg.widthChunk) && Fits(|last|, cfg.widthChunk) && WindowsFit(cfg, ws)
    ensures var s := Stages(cfg, env, first, ws, last);
      && StageDid(cfg, env, first, CoverStill, s[0])
      && (forall i :: 0 <= i < |ws| ==> StageDid(cfg, env, ws[i], MidStill(i), s[i + 1]))
      && StageDid(cfg, env, last, EndingStill, s[|ws| + 1])
  {
    var s := Stages(cfg, env, first, ws, last);
    var m := MidOutcomes(cfg, env, ws);
    EndpointRunDid(cfg, env, first, CoverStill, cfg.coverTime);
    EndpointRunDid(cfg, env, last, EndingStill, cfg.endingTime);
    MidStagesDid(cfg, env, ws);
    forall i | 0 <= i < |ws| ensures s[i + 1] == m[i] {
    }
  }

  /** Every stage that succeeded took two actions. */
  lemma StagesPairs(cfg: BigImg, env: Env, first: seq<Chunk>, ws: seq<seq<Chunk>>, last: seq<Chunk>)
    requires Fits(|first|, cfg.widthChunk) && Fits(|last|, cfg.widthChunk) && WindowsFit(cfg, ws)
    ensures var s := Stages(cfg, env, first, ws, last);
      forall k :: 0 <= k < |s| && s[k].result.Ok? ==> |s[k].actions| == 2
  {
    StagesDid(cfg, env, first, ws, last);
    var s := Stages(cfg, env, first, ws, last);
    forall k | 0 <= k < |s| && s[k].result.Ok? ensures |s[k].actions| == 2 {
      if 0 < k <= |ws| {
        var i := k - 1;
        assert StageDid(cfg, env, ws[i], MidStill(i), s[i + 1]);
      }
    }
  }

  /** Stage `k` of a successful chain of two-action stages did, within the
      chain, what it did alone: its actions are actions `2 * k` and
      `2 * k + 1` of the chain. */
  lemma ChainedAt(cfg: BigImg, env: Env, s: seq<Outcome<string>>, k: nat, part: seq<Chunk>, pic: string)
    requires forall j :: 0 <= j < |s| && s[j].result.Ok? ==> |s[j].actions| == 2
    requires k < |s| && StageDid(cfg, env, part, pic, s[k])
    ensures Chain(s).result.Ok? ==> DidAt(cfg, env, Chain(s).actions, k, part, pic)
  {
    ChainPairs(s);
  }

  /** A successful chain of two-action stages took two actions per stage. */
  lemma ChainLength<T>(s: seq<Outcome<T>>)
    requires forall j :: 0 <= j < |s| && s[j].result.Ok? ==> |s[j].actions| == 2
    ensures Chain(s).result.Ok? ==> |Chain(s).actions| == 2 * |s|
  {
    ChainPairs(s);
  }

  /** Stages that each saved their still and encoded it took two actions
      whenever they succeeded. */
  lemma DidPairs(cfg: BigImg, env: Env, s: seq<Outcome<string>>, ws: seq<seq<Chunk>>,
                 first: seq<Chunk>, last: seq<Chunk>)
    requires |s| == |ws| + 2
    requires StageDid(cfg, env, first, CoverStill, s[0])
    requires forall i :: 0 <= i < |ws| ==> StageDid(cfg, env, ws[i], MidStill(i), s[i + 1])
    requires StageDid(cfg, env, last, EndingStill, s[|ws| + 1])
    ensures forall k :: 0 <= k < |s| && s[k].result.Ok? ==> |s[k].actions| == 2
  {
    forall k | 0 <= k < |s| && s[k].result.Ok? ensures |s[k].actions| == 2 {
      if 0 < k <= |ws| {
        var i := k - 1;
        assert StageDid(cfg, env, ws[i], MidStill(i), s[i + 1]);
      }
    }
  }

  /** In a successful chain of stages that each saved their still and
      encoded it, the first two actions save and encode the cover still of
      `first`, the last two the ending still of `last`. */
  lemma ChainedEnds(cfg: BigImg, env: Env, s: seq<Outcome<string>>, ws: seq<seq<Chunk>>,
                    first: seq<Chunk>, last: seq<Chunk>)
    requires |s| == |ws| + 2
    requires forall k :: 0 <= k < |s| && s[k].result.Ok? ==> |s[k].actions| == 2
    requires StageDid(cfg, env, first, CoverStill, s[0])
    requires StageDid(cfg, env, last, EndingStill, s[|ws| + 1])
    ensures var p := Chain(s);
      p.result.Ok? ==>
        && |p.actions| == 2 * |ws| + 4
        && DidAt(cfg, env, p.actions, 0, first, CoverStill)
        && DidAt(cfg, env, p.actions, |ws| + 1, last, EndingStill)
  {
    ChainLength(s);
    ChainedAt(cfg, env, s, 0, first, CoverStill);
    ChainedAt(cfg, env, s, |ws| + 1, last, EndingStill);
  }

  /** In a successful chain of stages that each saved their still and
      encoded it, actions `2 * i + 2` and `2 * i + 3` save and encode the
      still of window `i`. */
  lemma ChainedMids(cfg: BigImg, env: Env, s: seq<Outcome<string>>, ws: seq<seq<Chunk>>)
    requires |s| == |ws| + 2
    requires forall k :: 0 <= k < |s| && s[k].result.Ok? ==> |s[k].actions| == 2
    requires forall i :: 0 <= i < |ws| ==> StageDid(cfg, env, ws[i], MidStill(i), s[i + 1])
    ensures var p := Chain(s);
      p.result.Ok? ==> forall i :: 0 <= i < |ws| ==> DidAt(cfg, env, p.actions, i + 1, ws[i], MidStill(i))
  {
    forall i | 0 <= i < |ws| && Chain(s).result.Ok?
      ensures DidAt(cfg, env, Chain(s).actions, i + 1, ws[i], MidStill(i))
    {
      ChainedAt(cfg, env, s, i + 1, ws[i], MidStill(i));
    }
  }

  /** A successful chain of the stages saves and encodes each still in
      turn, from the cover of `first` through the windows to the ending of
      `last`. */
  lemma ChainedOrder(cfg: BigImg, env: Env, first: seq<Chunk>, ws: seq<seq<Chunk>>, last: seq<Chunk>)
    requires Fits(|first|, cfg.widthChunk) && Fits(|last|, cfg.widthChunk) && WindowsFit(cfg, ws)
    ensures var p := Chain(Stages(cfg, env, first, ws, last));
      p.result.Ok? ==>
        && |p.actions| == 2 * |ws| + 4
        && DidAt(cfg, env, p.actions, 0, first, CoverStill)
        && (forall i :: 0 <= i < |ws| ==> DidAt(cfg, env, p.actions, i + 1, ws[i], MidStill(i)))
        && DidAt(cfg, env, p.actions, |ws| + 1, last, EndingStill)
  {
    var s := Stages(cfg, env, first, ws, last);
    StagesDid(cfg, env, first, ws, last);
    DidPairs(cfg, env, s, ws, first, last);
    ChainedEnds(cfg, env, s, ws, first, last);
    ChainedMids(cfg, env, s, ws);
  }

  /** A successful run saves and encodes each still in turn: actions `0`
      and `1` save the cover still, composed from the first screenful, and
      encode it; actions `2 * i + 2` and `2 * i + 3` do the same for window
      `i` of `divide` as `{i:0>2}.png`; the last two actions do it for the
      ending still, composed from the last screenful. The clips are
      `cover.mp4`, `00.mp4`, `01.mp4`, ... and `ending.mp4` (`ClipNames`). */
  lemma SegmentsOrder(cfg: BigImg, env: Env)
    requires Runnable(cfg)
    ensures PlanFacts(cfg)
    ensures var p := SegmentsRun(cfg, env);
      var ws := Divide(cfg.chunks, cfg.step, cfg.overlap);
      p.result.Ok? ==>
        && |p.actions| == 2 * |ws| + 4
        && DidAt(cfg, env, p.actions, 0, cfg.chunks[..cfg.overlap], CoverStill)
        && (forall i :: 0 <= i < |ws| ==> DidAt(cfg, env, p.actions, i + 1, ws[i], MidStill(i)))
        && DidAt(cfg, env, p.actions, |ws| + 1, cfg.chunks[|cfg.chunks| - cfg.overlap..], EndingStill)
  {
    SegmentsChain(cfg, env);
    ChainedOrder(cfg, env, cfg.chunks[..cfg.overlap], Divide(cfg.chunks, cfg.step, cfg.overlap),
                 cfg.chunks[|cfg.chunks| - cfg.overlap..]);
  }

  /** If stage `k` is the first to fail, `combain` fails with its error
      after the two actions of each earlier stage and the actions of stage
      `k`, and attempts nothing more: no later stage, no manifest, no concat
      and no removal. This holds also when stage `k` failed before
      attempting anything, as when a chunk does not render. (`PlanFacts`
      holds of every runnable configuration, by `PlanFits`.) */
  lemma CombainAbort(cfg: BigImg, env: Env, saveName: string, k: nat)
    requires Runnable(cfg) && PlanFacts(cfg)
    requires FailsFirstAt(Stages(cfg, env, cfg.chunks[..cfg.overlap], Divide(cfg.chunks, cfg.step, cfg.overlap),
                                 cfg.chunks[|cfg.chunks| - cfg.overlap..]), k)
    ensures var s := Stages(cfg, env, cfg.chunks[..cfg.overlap], Divide(cfg.chunks, cfg.step, cfg.overlap),
                            cfg.chunks[|cfg.chunks| - cfg.overlap..]);
      var o := CombainRun(cfg, env, saveName);
      && o.result == Err(s[k].result.error)
      && o.actions == Chain(s[..k]).actions + s[k].actions
      && |Chain(s[..k]).actions| == 2 * k
  {
    var ws := Divide(cfg.chunks, cfg.step, cfg.overlap);
    var first, last := cfg.chunks[..cfg.overlap], cfg.chunks[|cfg.chunks| - cfg.overlap..];
    var s := Stages(cfg, env, first, ws, last);
    SegmentsChain(cfg, env);
    StagesPairs(cfg, env, first, ws, last);
    ChainAbort(s, k, 2);
    var p := SegmentsRun(cfg, env);
    assert p.result == Err(s[k].result.error);
    assert CombainRun(cfg, env, saveName) == Outcome(p.actions, Err(p.result.error));
  }
}
