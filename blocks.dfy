/**
 * The convolutional blocks of code/model/common.py: BasicBlock, ResBlock,
 * DenseLayer and RDB (residual dense block). Each constructor is modelled as
 * the list of layers it builds, and each forward pass by the shape it
 * produces, so that the channel bookkeeping the blocks rely on (residual
 * additions, concatenations, the 1x1 fusion) can be stated and proved.
 * The `conv` factory the Python constructors take is `default_conv` here.
 */
module Blocks {
  import opened Wrappers
  import opened Layers

  /** torch.cat along the channel axis: spatial sizes must agree. */
  function Cat(a: Shape, b: Shape): (r: Option<Shape>)
    ensures r.Some? <==> a.h == b.h && a.w == b.w
    ensures r.Some? ==> r.value.c == a.c + b.c && r.value.h == a.h && r.value.w == a.w
  {
    if a.h == b.h && a.w == b.w then Some(Shape(a.c + b.c, a.h, a.w)) else None
  }

  /**
   * One axis of torch broadcasting: equal sizes agree, and a size of 1 is
   * stretched to the other size.
   */
  function BroadcastAxis(m: nat, n: nat): (r: Option<nat>)
    ensures r.Some? <==> m == n || m == 1 || n == 1
    ensures r.Some? ==> (m == r.value || m == 1) && (n == r.value || n == 1)
    ensures r.Some? ==> r.value == if m == 1 then n else m
  {
    if m == n then Some(m)
    else if m == 1 then Some(n)
    else if n == 1 then Some(m)
    else None
  }

  /** `a + b` on two feature maps, with torch broadcasting along every axis. */
  function Add(a: Shape, b: Shape): (r: Option<Shape>)
    ensures r.Some? <==>
      (a.c == b.c || a.c == 1 || b.c == 1) && (a.h == b.h || a.h == 1 || b.h == 1) && (a.w == b.w || a.w == 1 || b.w == 1)
    ensures a == b ==> r == Some(a)
    ensures r.Some? ==> (a.c == r.value.c || a.c == 1) && (b.c == r.value.c || b.c == 1)
    ensures r.Some? ==> (a.h == r.value.h || a.h == 1) && (b.h == r.value.h || b.h == 1)
    ensures r.Some? ==> (a.w == r.value.w || a.w == 1) && (b.w == r.value.w || b.w == 1)
    ensures r.Some? ==>
      r.value == Shape(if a.c == 1 then b.c else a.c, if a.h == 1 then b.h else a.h, if a.w == 1 then b.w else a.w)
  {
    var c, h, w := BroadcastAxis(a.c, b.c), BroadcastAxis(a.h, b.h), BroadcastAxis(a.w, b.w);
    if c.Some? && h.Some? && w.Some? then Some(Shape(c.value, h.value, w.value)) else None
  }

  /**
   * `a += b`: b must broadcast to the shape of a, which the result keeps;
   * torch refuses an in-place addition that would have to grow a.
   */
  function AddInPlace(a: Shape, b: Shape): (r: Option<Shape>)
    ensures r.Some? <==> (b.c == a.c || b.c == 1) && (b.h == a.h || b.h == 1) && (b.w == a.w || b.w == 1)
    ensures r.Some? ==> r.value == a && Add(a, b) == r
  {
    var s := Add(a, b);
    if s == Some(a) then s else None
  }

  // ---------------------------------------------------------------- BasicBlock

  /** The layers of `BasicBlock`: a padded convolution, then optional BN, then an optional activation. */
  function BasicBlockLayers(inCh: nat, outCh: nat, kernel: nat, stride: nat, bias: bool, bn: bool, act: bool): seq<Layer>
  {
    [Conv(inCh, outCh, kernel, stride, kernel / 2, bias)]
      + (if bn then [BatchNorm(outCh)] else [])
      + (if act then [Act] else [])
  }

  /**
   * A BasicBlock maps inCh channels to outCh channels, the convolution
   * deciding the spatial size (pad kernel // 2, the given stride); at stride
   * 1 with an odd kernel the spatial size is kept.
   */
  lemma {:induction false} BasicBlockShape(inCh: nat, outCh: nat, kernel: nat, stride: nat,
                                           bias: bool, bn: bool, act: bool, x: Shape)
    ensures var m := BasicBlockLayers(inCh, outCh, kernel, stride, bias, bn, act);
      |m| == 1 + (if bn then 1 else 0) + (if act then 1 else 0) &&
      Run(m, x) == ShapeAfter(m[0], x)
    ensures Run(BasicBlockLayers(inCh, outCh, kernel, stride, bias, bn, act), x).Some? <==>
      x.c == inCh && ConvLen(x.h, kernel, stride, kernel / 2).Some? && ConvLen(x.w, kernel, stride, kernel / 2).Some?
    ensures stride == 1 && kernel % 2 == 1 && x.c == inCh && x.h >= 1 && x.w >= 1 ==>
      Run(BasicBlockLayers(inCh, outCh, kernel, stride, bias, bn, act), x) == Some(Shape(outCh, x.h, x.w))
  {
    var conv := Conv(inCh, outCh, kernel, stride, kernel / 2, bias);
    var tail := (if bn then [BatchNorm(outCh)] else []) + (if act then [Act] else []);
    var m := BasicBlockLayers(inCh, outCh, kernel, stride, bias, bn, act);
    assert m == [conv] + tail;
    RunAppend([conv], tail, x);
    var y := ShapeAfter(conv, x);
    if y.Some? {
      assert y.value.c == outCh;
      RunAppend(if bn then [BatchNorm(outCh)] else [], if act then [Act] else [], y.value);
    }
  }

  /**
   * At stride 1 an even kernel is padded by kernel // 2 on each side, one
   * more than it needs, so a BasicBlock grows each spatial axis by one.
   */
  lemma BasicBlockEvenKernel(inCh: nat, outCh: nat, kernel: nat, bias: bool, bn: bool, act: bool, x: Shape)
    requires x.c == inCh && x.h >= 1 && x.w >= 1 && kernel >= 2 && kernel % 2 == 0
    ensures Run(BasicBlockLayers(inCh, outCh, kernel, 1, bias, bn, act), x) == Some(Shape(outCh, x.h + 1, x.w + 1))
  {
    BasicBlockShape(inCh, outCh, kernel, 1, bias, bn, act, x);
    DefaultConvShape(inCh, outCh, kernel, bias, x);
  }

  // ---------------------------------------------------------------- ResBlock

  /** A residual block: its body and the factor its output is scaled by. */
  datatype ResBlock = ResBlock(body: seq<Layer>, resScale: real)

  /** One half of a ResBlock body: an n_feat -> n_feat convolution and an optional BN. */
  function ConvBn(nFeat: nat, kernel: nat, bias: bool, bn: bool): seq<Layer>
  {
    [DefaultConv(nFeat, nFeat, kernel, bias)] + (if bn then [BatchNorm(nFeat)] else [])
  }

  /** The body `conv, [BN], act, conv, [BN]` of a ResBlock. */
  function ResBody(nFeat: nat, kernel: nat, bias: bool, bn: bool): (m: seq<Layer>)
    ensures |m| == if bn then 5 else 3
    ensures forall i :: 0 <= i < |m| && m[i].Conv? ==> m[i].inCh == nFeat && m[i].outCh == nFeat
  {
    ConvBn(nFeat, kernel, bias, bn) + [Act] + ConvBn(nFeat, kernel, bias, bn)
  }

  /** `ResBlock.__init__`: appends the body's layers in a two-round loop. */
  method NewResBlock(nFeat: nat, kernel: nat, bias: bool, bn: bool, resScale: real) returns (b: ResBlock)
    ensures b.body == ResBody(nFeat, kernel, bias, bn) && b.resScale == resScale
  {
    var m: seq<Layer> := [];
    for i := 0 to 2
      invariant i == 1 ==> m == ConvBn(nFeat, kernel, bias, bn) + [Act]
      invariant i == 0 ==> m == []
      invariant i == 2 ==> m == ResBody(nFeat, kernel, bias, bn)
    {
      m := m + [DefaultConv(nFeat, nFeat, kernel, bias)];
      if bn {
        m := m + [BatchNorm(nFeat)];
      }
      if i == 0 {
        m := m + [Act];
      }
    }
    b := ResBlock(m, resScale);
  }

  /** `ResBlock.forward`: body(x) scaled by res_scale, then x added into it in place. */
  function ResForward(b: ResBlock, x: Shape): Option<Shape>
  {
    var y := Run(b.body, x);
    if y.None? then None else AddInPlace(y.value, x)
  }

  /** The shapes after each half of a ResBlock body with an odd or even kernel. */
  lemma ConvBnShape(nFeat: nat, kernel: nat, bias: bool, bn: bool, x: Shape)
    requires x.c == nFeat && x.h >= 1 && x.w >= 1 && kernel >= 1
    ensures Run(ConvBn(nFeat, kernel, bias, bn), x) ==
      Some(if kernel % 2 == 1 then x else Shape(nFeat, x.h + 1, x.w + 1))
  {
    var z := if kernel % 2 == 1 then x else Shape(nFeat, x.h + 1, x.w + 1);
    DefaultConvOut(nFeat, kernel, bias, x);
    ConvThenBn(DefaultConv(nFeat, nFeat, kernel, bias), bn, nFeat, x, z);
  }

  /** A same-width default conv keeps an odd kernel's input shape and grows each axis by one for an even kernel. */
  lemma DefaultConvOut(nFeat: nat, kernel: nat, bias: bool, x: Shape)
    requires x.c == nFeat && x.h >= 1 && x.w >= 1 && kernel >= 1
    ensures ShapeAfter(DefaultConv(nFeat, nFeat, kernel, bias), x) ==
      Some(if kernel % 2 == 1 then x else Shape(nFeat, x.h + 1, x.w + 1))
  {
    DefaultConvShape(nFeat, nFeat, kernel, bias, x);
  }

  /** A layer followed by an optional BN on the channels it outputs runs as the layer alone. */
  lemma ConvThenBn(conv: Layer, bn: bool, ch: nat, x: Shape, z: Shape)
    requires ShapeAfter(conv, x) == Some(z) && z.c == ch
    ensures Run([conv] + (if bn then [BatchNorm(ch)] else []), x) == Some(z)
  {
    var bnPart := if bn then [BatchNorm(ch)] else [];
    assert Run([conv], x) == Some(z) by {
      RunSingle(conv, x);
    }
    assert Run(bnPart, z) == Some(z) by {
      if bn {
        RunSingle(BatchNorm(ch), z);
      }
    }
    RunThenKeep([conv], bnPart, x, z);
  }

  /**
   * The body of a ResBlock runs exactly when the input has n_feat channels,
   * a non-empty spatial size and a non-zero kernel. With an odd kernel the
   * block then returns a feature map of the input's shape. With an even
   * kernel the body grows each axis by two, and the in-place `res += x`
   * succeeds only by broadcasting a 1 x 1 input into the 3 x 3 body output.
   */
  lemma ResBlockShape(nFeat: nat, kernel: nat, bias: bool, bn: bool, resScale: real, x: Shape)
    ensures ResForward(ResBlock(ResBody(nFeat, kernel, bias, bn), resScale), x) ==
      if x.c == nFeat && x.h >= 1 && x.w >= 1 && kernel >= 1 then
        if kernel % 2 == 1 then Some(x)
        else if x.h == 1 && x.w == 1 then Some(Shape(nFeat, 3, 3))
        else None
      else None
  {
    ResBodyShape(nFeat, kernel, bias, bn, x);
  }

  /**
   * The body runs exactly when the input has n_feat channels, a non-empty
   * spatial size and a non-zero kernel; it keeps the shape for an odd kernel
   * and grows each axis by two for an even one.
   */
  lemma {:induction false} ResBodyShape(nFeat: nat, kernel: nat, bias: bool, bn: bool, x: Shape)
    ensures Run(ResBody(nFeat, kernel, bias, bn), x) ==
      if x.c == nFeat && x.h >= 1 && x.w >= 1 && kernel >= 1 then
        Some(if kernel % 2 == 1 then x else Shape(nFeat, x.h + 2, x.w + 2))
      else None
  {
    var half := ConvBn(nFeat, kernel, bias, bn);
    var body := ResBody(nFeat, kernel, bias, bn);
    assert body == half + ([Act] + half);
    RunAppend(half, [Act] + half, x);
    RunAppend([Act], half, x);
    if x.c == nFeat && x.h >= 1 && x.w >= 1 && kernel >= 1 {
      ConvBnShape(nFeat, kernel, bias, bn, x);
      var y := Run(half, x).value;
      RunAppend([Act], half, y);
      ConvBnShape(nFeat, kernel, bias, bn, y);
      if kernel % 2 == 0 {
        assert Run(body, x) == Some(Shape(nFeat, x.h + 2, x.w + 2));
      }
    } else {
      var conv := DefaultConv(nFeat, nFeat, kernel, bias);
      DefaultConvShape(nFeat, nFeat, kernel, bias, x);
      RunAppend([conv], if bn then [BatchNorm(nFeat)] else [], x);
      assert Run(half, x) == None;
    }
  }

  // ---------------------------------------------------------------- DenseLayer

  /** A dense layer: a conv + ReLU body, optionally concatenating its input after the new features. */
  datatype DenseLayer = DenseLayer(body: seq<Layer>, toConcat: bool)

  /** `DenseLayer.__init__`. */
  function NewDenseLayer(inCh: nat, outCh: nat, kernel: nat, bias: bool, toConcat: bool): DenseLayer
  {
    DenseLayer([DefaultConv(inCh, outCh, kernel, bias), Act], toConcat)
  }

  /** `DenseLayer.forward`: out = body(x); with to_concat, cat((out, x)) along channels. */
  function DenseForward(d: DenseLayer, x: Shape): Option<Shape>
  {
    var out := Run(d.body, x);
    if out.None? then None
    else if d.toConcat then Cat(out.value, x)
    else out
  }

  /**
   * A dense layer yields n_feat_out + n_feat_in channels when it concatenates
   * and n_feat_out otherwise, at the input's spatial size for an odd kernel.
   * With an even kernel the new features are one pixel larger on each axis:
   * a layer that does not concatenate returns them, and the concatenation
   * fails.
   */
  lemma {:induction false} DenseLayerShape(inCh: nat, outCh: nat, kernel: nat, bias: bool, toConcat: bool, x: Shape)
    ensures x.c == inCh && x.h >= 1 && x.w >= 1 && kernel % 2 == 1 ==>
      DenseForward(NewDenseLayer(inCh, outCh, kernel, bias, toConcat), x) ==
        Some(Shape(if toConcat then outCh + inCh else outCh, x.h, x.w))
    ensures !toConcat && x.c == inCh && x.h >= 1 && x.w >= 1 && kernel >= 2 && kernel % 2 == 0 ==>
      DenseForward(NewDenseLayer(inCh, outCh, kernel, bias, toConcat), x) == Some(Shape(outCh, x.h + 1, x.w + 1))
    ensures DenseForward(NewDenseLayer(inCh, outCh, kernel, bias, toConcat), x).Some? ==>
      x.c == inCh && x.h >= 1 && x.w >= 1 && kernel >= 1 && (toConcat ==> kernel % 2 == 1)
  {
    var conv := DefaultConv(inCh, outCh, kernel, bias);
    DefaultConvShape(inCh, outCh, kernel, bias, x);
    RunAppend([conv], [Act], x);
  }

  // ---------------------------------------------------------------- RDB

  /**
   * A residual dense block: `nLayers` conv + ReLU dense layers, each adding
   * `growthRate` channels by concatenation, and the local feature fusion
   * `lff`, a 1x1 convolution back to `nFeatIn` channels.
   */
  datatype Rdb = Rdb(nFeatIn: nat, nLayers: nat, growthRate: nat, denseLayers: seq<seq<Layer>>, lff: Layer)

  /** Dense layer i of an RDB whose layers start at `feat` channels and grow by `growth`. */
  function DenseStage(feat: nat, growth: nat, i: nat, kernel: nat, bias: bool): seq<Layer>
  {
    [DefaultConv(feat + i * growth, growth, kernel, bias), Act]
  }

  /** The dense layers are sized for inputs growing by `growth` channels per layer from `feat`. */
  ghost predicate DenseSized(layers: seq<seq<Layer>>, feat: nat, growth: nat, kernel: nat, bias: bool)
  {
    forall i :: 0 <= i < |layers| ==> layers[i] == DenseStage(feat, growth, i, kernel, bias)
  }

  /** `RDB.__init__`: the loop that creates the dense layers while `feat` grows, then LFF. */
  method NewRdb(nFeatIn: nat, nLayers: nat, growthRate: nat, kernel: nat, bias: bool) returns (r: Rdb)
    ensures r.nFeatIn == nFeatIn && r.nLayers == nLayers && r.growthRate == growthRate
    ensures |r.denseLayers| == nLayers && DenseSized(r.denseLayers, nFeatIn, growthRate, kernel, bias)
    ensures r.lff == Conv(nFeatIn + nLayers * growthRate, nFeatIn, 1, 1, 0, true)
  {
    var feat := nFeatIn;
    var dense: seq<seq<Layer>> := [];
    for i := 0 to nLayers
      invariant |dense| == i
      invariant feat == nFeatIn + i * growthRate
      invariant DenseSized(dense, nFeatIn, growthRate, kernel, bias)
    {
      dense := dense + [[DefaultConv(feat, growthRate, kernel, bias), Act]];
      feat := feat + growthRate;
    }
    r := Rdb(nFeatIn, nLayers, growthRate, dense, Conv(feat, nFeatIn, 1, 1, 0, true));
  }

  /** The loop of `RDB.forward`: x = cat([x, dl(x)]) for each dense layer dl in order. */
  function DenseChain(layers: seq<seq<Layer>>, x: Shape): Option<Shape>
  {
    if layers == [] then Some(x)
    else
      var o := Run(layers[0], x);
      if o.None? then None
      else
        var y := Cat(x, o.value);
        if y.None? then None else DenseChain(layers[1..], y.value)
  }

  /** `RDB.forward` as a whole: the dense chain, LFF, then the residual addition of the input. */
  function RdbForward(r: Rdb, x: Shape): Option<Shape>
  {
    var y := DenseChain(r.denseLayers, x);
    if y.None? then None
    else
      var out := ShapeAfter(r.lff, y.value);
      if out.None? then None else Add(out.value, x)
  }

  /** `RDB.forward` with its loop over the dense layers. */
  method RdbForwardLoop(r: Rdb, x: Shape) returns (out: Option<Shape>)
    ensures out == RdbForward(r, x)
  {
    var cur := x;
    var i := 0;
    while i < |r.denseLayers|
      invariant 0 <= i <= |r.denseLayers|
      invariant DenseChain(r.denseLayers, x) == DenseChain(r.denseLayers[i..], cur)
    {
      assert r.denseLayers[i..][0] == r.denseLayers[i] && r.denseLayers[i..][1..] == r.denseLayers[i + 1..];
      var o := Run(r.denseLayers[i], cur);
      if o.None? {
        return None;
      }
      var y := Cat(cur, o.value);
      if y.None? {
        return None;
      }
      cur := y.value;
      i := i + 1;
    }
    assert r.denseLayers[i..] == [];
    var fused := ShapeAfter(r.lff, cur);
    if fused.None? {
      return None;
    }
    out := Add(fused.value, x);
  }

  /**
   * Each dense layer of a block sized from `feat` channels grows the running
   * channel count by `growth`: after all of them the count is
   * feat + |layers| * growth and the spatial size is unchanged (odd kernel).
   */
  lemma {:induction false} DenseChainGrows(layers: seq<seq<Layer>>, feat: nat, growth: nat, kernel: nat, bias: bool, x: Shape)
    requires DenseSized(layers, feat, growth, kernel, bias)
    requires x == Shape(feat, x.h, x.w) && x.h >= 1 && x.w >= 1 && kernel % 2 == 1
    ensures DenseChain(layers, x) == Some(Shape(feat + |layers| * growth, x.h, x.w))
    decreases |layers|
  {
    if layers != [] {
      DefaultConvShape(feat, growth, kernel, bias, x);
      assert layers[0] == [DefaultConv(feat, growth, kernel, bias), Act];
      RunAppend([DefaultConv(feat, growth, kernel, bias)], [Act], x);
      var y := Shape(feat + growth, x.h, x.w);
      assert Cat(x, Run(layers[0], x).value) == Some(y);
      forall i | 0 <= i < |layers[1..]|
        ensures layers[1..][i] == DenseStage(feat + growth, growth, i, kernel, bias)
      {
        assert layers[1..][i] == layers[i + 1];
        assert feat + (i + 1) * growth == feat + growth + i * growth;
      }
      DenseChainGrows(layers[1..], feat + growth, growth, kernel, bias, y);
      assert feat + growth + (|layers| - 1) * growth == feat + |layers| * growth;
    }
  }

  /** A dense chain fails on a first layer that rejects the input's channels or spatial size. */
  lemma DenseChainRejects(layers: seq<seq<Layer>>, feat: nat, growth: nat, kernel: nat, bias: bool, x: Shape)
    requires DenseSized(layers, feat, growth, kernel, bias) && |layers| >= 1
    requires x.c != feat || x.h == 0 || x.w == 0 || kernel % 2 == 0
    ensures DenseChain(layers, x) == None
  {
    DefaultConvShape(feat, growth, kernel, bias, x);
    assert layers[0] == [DefaultConv(feat, growth, kernel, bias), Act];
    RunAppend([DefaultConv(feat, growth, kernel, bias)], [Act], x);
  }

  /**
   * The RDB built by its constructor returns a feature map of its input's
   * shape exactly when the input has n_feat_in channels and a non-empty
   * spatial size and, if there is any dense layer, the kernel is odd: the
   * channel count reaching LFF is the n_feat_in + n_layers * growth_rate
   * that LFF was sized for, so `out + _x` is well-shaped.
   */
  lemma RdbKeepsShape(r: Rdb, kernel: nat, bias: bool, x: Shape)
    requires |r.denseLayers| == r.nLayers && DenseSized(r.denseLayers, r.nFeatIn, r.growthRate, kernel, bias)
    requires r.lff == Conv(r.nFeatIn + r.nLayers * r.growthRate, r.nFeatIn, 1, 1, 0, true)
    ensures RdbForward(r, x) ==
      if x.c == r.nFeatIn && x.h >= 1 && x.w >= 1 && (r.nLayers == 0 || kernel % 2 == 1) then Some(x) else None
  {
    if x.c == r.nFeatIn && x.h >= 1 && x.w >= 1 && (r.nLayers == 0 || kernel % 2 == 1) {
      if r.nLayers == 0 {
        assert DenseChain(r.denseLayers, x) == Some(x);
      } else {
        DenseChainGrows(r.denseLayers, r.nFeatIn, r.growthRate, kernel, bias, x);
      }
    } else if r.nLayers == 0 {
      assert DenseChain(r.denseLayers, x) == Some(x);
    } else {
      DenseChainRejects(r.denseLayers, r.nFeatIn, r.growthRate, kernel, bias, x);
    }
  }
}
