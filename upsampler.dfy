/**
 * The `Upsampler` of code/model/common.py: the choice of layers from the
 * scale factor (sub-pixel convolution stages for powers of two, a single
 * x3 stage for scale 3, an error otherwise), and its forward pass, which
 * applies the modules in order and records every second intermediate result.
 */
module Upsampling {
  import opened Wrappers
  import opened Layers
  import opened PyInt

  /** The exceptions the constructor can raise. */
  datatype UpsamplerError =
    | NotImplementedError  // a scale that is neither a power of two nor 3
    | MathDomainError      // scale 0 passes the bit test, then math.log(0, 2) raises ValueError

  function OptionalBn(bn: bool, nFeat: nat): seq<Layer>
  {
    if bn then [BatchNorm(nFeat)] else []
  }

  function OptionalAct(act: bool): seq<Layer>
  {
    if act then [Act] else []
  }

  /** The layers one x2 stage appends, by the `type` argument. */
  function Stage(kind: string, nFeat: nat, bn: bool, act: bool, bias: bool): seq<Layer>
  {
    if kind == "espcnn" then
      [DefaultConv(nFeat, 4 * nFeat, 3, bias), PixelShuffle(2)] + OptionalBn(bn, nFeat) + OptionalAct(act)
    else if kind == "deconv" then
      [Deconv(nFeat, nFeat, 2, 2, 0, bias)] + OptionalAct(act)
    else []
  }

  /** The x3 stage, the same for every `type`. */
  function TripleStage(nFeat: nat, bn: bool, act: bool, bias: bool): seq<Layer>
  {
    [DefaultConv(nFeat, 9 * nFeat, 3, bias), PixelShuffle(3)] + OptionalBn(bn, nFeat) + OptionalAct(act)
  }

  /** n copies of a stage, one after the other. */
  function Repeat(st: seq<Layer>, n: nat): seq<Layer>
  {
    if n == 0 then [] else Repeat(st, n - 1) + st
  }

  lemma {:induction false} RepeatLength(st: seq<Layer>, n: nat)
    ensures |Repeat(st, n)| == n * |st|
  {
    if n > 0 {
      RepeatLength(st, n - 1);
      assert n * |st| == (n - 1) * |st| + |st|;
    }
  }

  /** The module list of `Upsampler.__init__`, or the exception it raises. */
  function UpsamplerLayers(scale: int, nFeat: nat, bn: bool, act: bool, bias: bool, kind: string)
    : Result<seq<Layer>, UpsamplerError>
  {
    if BitAnd(scale, scale - 1) == 0 then
      if scale == 0 then Err(MathDomainError)
      else Ok(Repeat(Stage(kind, nFeat, bn, act, bias), Log2(scale)))
    else if scale == 3 then Ok(TripleStage(nFeat, bn, act, bias))
    else Err(NotImplementedError)
  }

  /** `Upsampler.__init__`: the loop appending one stage per factor of two. */
  method BuildUpsampler(scale: int, nFeat: nat, bn: bool, act: bool, bias: bool, kind: string)
    returns (r: Result<seq<Layer>, UpsamplerError>)
    ensures r == UpsamplerLayers(scale, nFeat, bn, act, bias, kind)
  {
    var m: seq<Layer> := [];
    if BitAnd(scale, scale - 1) == 0 {
      if scale == 0 {
        return Err(MathDomainError);
      }
      for i := 0 to Log2(scale)
        invariant m == Repeat(Stage(kind, nFeat, bn, act, bias), i)
      {
        m := AppendStage(m, kind, nFeat, bn, act, bias);
      }
    } else if scale == 3 {
      m := m + [DefaultConv(nFeat, 9 * nFeat, 3, bias)];
      m := m + [PixelShuffle(3)];
      if bn {
        m := m + [BatchNorm(nFeat)];
      }
      if act {
        m := m + [Act];
      }
      assert m == TripleStage(nFeat, bn, act, bias);
    } else {
      return Err(NotImplementedError);
    }
    r := Ok(m);
  }

  /** The body of the stage loop in `Upsampler.__init__`: append one stage for `type`. */
  method AppendStage(m: seq<Layer>, kind: string, nFeat: nat, bn: bool, act: bool, bias: bool)
    returns (m': seq<Layer>)
    ensures m' == m + Stage(kind, nFeat, bn, act, bias)
  {
    m' := m;
    if kind == "espcnn" {
      m' := m' + [DefaultConv(nFeat, 4 * nFeat, 3, bias)];
      m' := m' + [PixelShuffle(2)];
      if bn {
        m' := m' + [BatchNorm(nFeat)];
      }
      if act {
        m' := m' + [Act];
      }
      assert m' == m + ([DefaultConv(nFeat, 4 * nFeat, 3, bias), PixelShuffle(2)] + OptionalBn(bn, nFeat) + OptionalAct(act));
    } else if kind == "deconv" {
      m' := m' + [Deconv(nFeat, nFeat, 2, 2, 0, bias)];
      if act {
        m' := m' + [Act];
      }
      assert m' == m + ([Deconv(nFeat, nFeat, 2, 2, 0, bias)] + OptionalAct(act));
    } else {
      assert m' == m + [];
    }
  }

  /**
   * Dispatch on the scale: 0 fails in the logarithm, 3 gives the x3 stage,
   * a power of two gives log2(scale) stages, and every other scale (all
   * negative ones included) raises NotImplementedError.
   */
  lemma UpsamplerDispatch(scale: int, nFeat: nat, bn: bool, act: bool, bias: bool, kind: string)
    ensures UpsamplerLayers(scale, nFeat, bn, act, bias, kind) == Err(MathDomainError) <==> scale == 0
    ensures UpsamplerLayers(scale, nFeat, bn, act, bias, kind) == Err(NotImplementedError)
      <==> scale != 0 && scale != 3 && !IsPowerOfTwo(scale)
    ensures scale == 3 ==> UpsamplerLayers(scale, nFeat, bn, act, bias, kind) == Ok(TripleStage(nFeat, bn, act, bias))
    ensures IsPowerOfTwo(scale) ==>
      UpsamplerLayers(scale, nFeat, bn, act, bias, kind) == Ok(Repeat(Stage(kind, nFeat, bn, act, bias), Log2(scale)))
  {
    PowerOfTwoTest(scale);
    assert !IsPowerOfTwo(3);
  }

  /**
   * At scale 2^k there are exactly k stages; with `type` 'espcnn' each is
   * conv, shuffle, [BN], [act], and with a `type` that is neither 'espcnn'
   * nor 'deconv' the module list is empty.
   */
  lemma UpsamplerStages(k: nat, nFeat: nat, bn: bool, act: bool, bias: bool, kind: string)
    ensures UpsamplerLayers(Pow2(k), nFeat, bn, act, bias, kind) == Ok(Repeat(Stage(kind, nFeat, bn, act, bias), k))
    ensures kind == "espcnn" ==>
      |UpsamplerLayers(Pow2(k), nFeat, bn, act, bias, kind).value| ==
        k * (2 + (if bn then 1 else 0) + (if act then 1 else 0))
    ensures kind != "espcnn" && kind != "deconv" ==> UpsamplerLayers(Pow2(k), nFeat, bn, act, bias, kind) == Ok([])
  {
    Log2OfPow2(k);
    UpsamplerDispatch(Pow2(k), nFeat, bn, act, bias, kind);
    RepeatLength(Stage(kind, nFeat, bn, act, bias), k);
    if kind != "espcnn" && kind != "deconv" {
      RepeatEmpty(k);
    }
  }

  lemma {:induction false} RepeatEmpty(n: nat)
    ensures Repeat([], n) == []
  {
    if n > 0 {
      RepeatEmpty(n - 1);
    }
  }

  /** The 'espcnn' stage: conv to 4 * n_feat channels, then a x2 shuffle back to n_feat. */
  lemma EspcnnStageShape(nFeat: nat, bn: bool, act: bool, bias: bool, x: Shape)
    requires x.c == nFeat && x.h >= 1 && x.w >= 1
    ensures Run(Stage("espcnn", nFeat, bn, act, bias), x) == Some(Shape(nFeat, 2 * x.h, 2 * x.w))
  {
    SubPixelHead(nFeat, 2, bias, x);
    assert x.h * 2 == 2 * x.h && x.w * 2 == 2 * x.w;
    StageTail([DefaultConv(nFeat, 4 * nFeat, 3, bias), PixelShuffle(2)], bn, act, x, Shape(nFeat, 2 * x.h, 2 * x.w));
  }

  /**
   * A sub-pixel head, a 3x3 conv to r * r * n_feat channels followed by a
   * shuffle by r, scales both axes by r and returns to n_feat channels.
   */
  lemma SubPixelHead(nFeat: nat, r: nat, bias: bool, x: Shape)
    requires x.c == nFeat && x.h >= 1 && x.w >= 1 && r >= 1
    ensures Run([DefaultConv(nFeat, r * r * nFeat, 3, bias), PixelShuffle(r)], x) == Some(Shape(nFeat, x.h * r, x.w * r))
  {
    var conv := DefaultConv(nFeat, r * r * nFeat, 3, bias);
    var wide := Shape(r * r * nFeat, x.h, x.w);
    assert ShapeAfter(conv, x) == Some(wide) by {
      DefaultConvShape(nFeat, r * r * nFeat, 3, bias, x);
    }
    ShuffleNarrows(r, nFeat, x.h, x.w);
    RunPair(conv, PixelShuffle(r), x, wide, Shape(nFeat, x.h * r, x.w * r));
  }

  /** The 'deconv' stage: a stride-2 transposed convolution doubles both axes. */
  lemma DeconvStageShape(nFeat: nat, bn: bool, act: bool, bias: bool, x: Shape)
    requires x.c == nFeat && x.h >= 1 && x.w >= 1
    ensures Run(Stage("deconv", nFeat, bn, act, bias), x) == Some(Shape(nFeat, 2 * x.h, 2 * x.w))
  {
    var up := Shape(nFeat, 2 * x.h, 2 * x.w);
    var de := Deconv(nFeat, nFeat, 2, 2, 0, bias);
    assert TransposedLen(x.h, 2, 2, 0) == Some(2 * x.h);
    assert TransposedLen(x.w, 2, 2, 0) == Some(2 * x.w);
    RunSingle(de, x);
    TailKeepsShape(false, act, up);
    RunThenKeep([de], OptionalAct(act), x, up);
  }

  /** After a stage's head has produced `up`, the optional BN and activation keep it. */
  lemma StageTail(head: seq<Layer>, bn: bool, act: bool, x: Shape, up: Shape)
    requires Run(head, x) == Some(up)
    ensures Run(head + OptionalBn(bn, up.c) + OptionalAct(act), x) == Some(up)
  {
    TailKeepsShape(bn, act, up);
    RunThenKeep(head, OptionalBn(bn, up.c), x, up);
    RunThenKeep(head + OptionalBn(bn, up.c), OptionalAct(act), x, up);
  }

  /** Optional BN on n_feat channels and an optional activation keep the shape. */
  lemma TailKeepsShape(bn: bool, act: bool, y: Shape)
    ensures Run(OptionalBn(bn, y.c), y) == Some(y)
    ensures Run(OptionalAct(act), y) == Some(y)
  {
    if bn {
      RunSingle(BatchNorm(y.c), y);
    }
    if act {
      RunSingle(Act, y);
    }
  }

  /** Both x2 stage kinds keep n_feat channels and double both spatial axes. */
  lemma StageShape(kind: string, nFeat: nat, bn: bool, act: bool, bias: bool, y: Shape)
    requires kind == "espcnn" || kind == "deconv"
    requires y.c == nFeat && y.h >= 1 && y.w >= 1
    ensures Run(Stage(kind, nFeat, bn, act, bias), y) == Some(Shape(nFeat, 2 * y.h, 2 * y.w))
  {
    if kind == "espcnn" {
      EspcnnStageShape(nFeat, bn, act, bias, y);
    } else {
      DeconvStageShape(nFeat, bn, act, bias, y);
    }
  }

  /** The x3 stage maps n_feat channels to 9 * n_feat, shuffles back to n_feat, and triples both axes. */
  lemma TripleStageShape(nFeat: nat, bn: bool, act: bool, bias: bool, x: Shape)
    requires x.c == nFeat && x.h >= 1 && x.w >= 1
    ensures Run(TripleStage(nFeat, bn, act, bias), x) == Some(Shape(nFeat, 3 * x.h, 3 * x.w))
  {
    SubPixelHead(nFeat, 3, bias, x);
    assert x.h * 3 == 3 * x.h && x.w * 3 == 3 * x.w;
    StageTail([DefaultConv(nFeat, 9 * nFeat, 3, bias), PixelShuffle(3)], bn, act, x, Shape(nFeat, 3 * x.h, 3 * x.w));
  }

  /** n x2 stages multiply both spatial axes by 2^n and keep n_feat channels. */
  lemma {:induction false} RepeatShape(kind: string, nFeat: nat, bn: bool, act: bool, bias: bool, n: nat, x: Shape)
    requires kind == "espcnn" || kind == "deconv"
    requires x.c == nFeat && x.h >= 1 && x.w >= 1
    ensures Run(Repeat(Stage(kind, nFeat, bn, act, bias), n), x) == Some(Shape(nFeat, x.h * Pow2(n), x.w * Pow2(n)))
  {
    if n == 0 {
      assert Pow2(0) == 1;
    } else {
      var st := Stage(kind, nFeat, bn, act, bias);
      var p := Pow2(n - 1);
      var y := Shape(nFeat, x.h * p, x.w * p);
      RepeatShape(kind, nFeat, bn, act, bias, n - 1, x);
      ScaledAxis(x.h, p);
      ScaledAxis(x.w, p);
      StageShape(kind, nFeat, bn, act, bias, y);
      RunAppend(Repeat(st, n - 1), st, x);
    }
  }

  /** An axis of length a >= 1 scaled by p >= 1 is non-empty, and doubling it is scaling by 2p. */
  lemma ScaledAxis(a: nat, p: nat)
    requires a >= 1 && p >= 1
    ensures a * p >= 1 && 2 * (a * p) == a * (2 * p)
  {
  }

  /**
   * Whatever the scale, a successfully built upsampler of type 'espcnn' or
   * 'deconv' (or of any type at scale 3) maps an n_feat-channel map to an
   * n_feat-channel map `scale` times larger on each axis; of any other type
   * at a power-of-two scale, it leaves the input unchanged.
   */
  lemma UpsamplerScales(scale: int, nFeat: nat, bn: bool, act: bool, bias: bool, kind: string, x: Shape)
    requires x.c == nFeat && x.h >= 1 && x.w >= 1
    requires UpsamplerLayers(scale, nFeat, bn, act, bias, kind).Ok?
    ensures scale >= 1
    ensures kind == "espcnn" || kind == "deconv" || scale == 3 ==>
      Run(UpsamplerLayers(scale, nFeat, bn, act, bias, kind).value, x) == Some(Shape(nFeat, x.h * scale, x.w * scale))
    ensures kind != "espcnn" && kind != "deconv" && scale != 3 ==>
      Run(UpsamplerLayers(scale, nFeat, bn, act, bias, kind).value, x) == Some(x)
  {
    UpsamplerDispatch(scale, nFeat, bn, act, bias, kind);
    var m := UpsamplerLayers(scale, nFeat, bn, act, bias, kind).value;
    if scale == 3 {
      assert m == TripleStage(nFeat, bn, act, bias);
      TripleStageShape(nFeat, bn, act, bias, x);
      assert Shape(nFeat, 3 * x.h, 3 * x.w) == Shape(nFeat, x.h * scale, x.w * scale);
    } else {
      assert m == Repeat(Stage(kind, nFeat, bn, act, bias), Log2(scale));
      PowerOfTwoScales(scale, nFeat, bn, act, bias, kind, x);
    }
  }

  /** At scale 2^k the upsampler is k stages, which scale each axis by 2^k (or, when empty, keep the input). */
  lemma PowerOfTwoScales(scale: int, nFeat: nat, bn: bool, act: bool, bias: bool, kind: string, x: Shape)
    requires x.c == nFeat && x.h >= 1 && x.w >= 1
    requires scale >= 1 && IsPowerOfTwo(scale)
    ensures var m := Repeat(Stage(kind, nFeat, bn, act, bias), Log2(scale));
      (kind == "espcnn" || kind == "deconv" ==> Run(m, x) == Some(Shape(nFeat, x.h * scale, x.w * scale))) &&
      (kind != "espcnn" && kind != "deconv" ==> Run(m, x) == Some(x))
  {
    var k := Log2(scale);
    Pow2OfLog2(scale);
    if kind == "espcnn" || kind == "deconv" {
      RepeatShape(kind, nFeat, bn, act, bias, k, x);
    } else {
      assert Stage(kind, nFeat, bn, act, bias) == [];
      RepeatEmpty(k);
    }
  }

  // ---------------------------------------------------------------- forward

  /** Applying the modules one after the other, in list order. */
  function Compose<T>(ms: seq<Layer>, apply: (Layer, T) -> T, x: T): T
    decreases |ms|
  {
    if ms == [] then x else Compose(ms[1..], apply, apply(ms[0], x))
  }

  lemma {:induction false} ComposeSnoc<T>(ms: seq<Layer>, m: Layer, apply: (Layer, T) -> T, x: T)
    ensures Compose(ms + [m], apply, x) == apply(m, Compose(ms, apply, x))
    decreases |ms|
  {
    if ms == [] {
      assert ms + [m] == [m];
      assert [m][1..] == [];
    } else {
      assert (ms + [m])[0] == ms[0] && (ms + [m])[1..] == ms[1..] + [m];
      ComposeSnoc(ms[1..], m, apply, apply(ms[0], x));
    }
  }

  /** The results `Upsampler.forward` records: the one after every odd-indexed module. */
  function Recorded<T>(ms: seq<Layer>, apply: (Layer, T) -> T, x: T): (r: seq<T>)
    ensures |r| == |ms| / 2
  {
    seq(|ms| / 2, j requires 0 <= j < |ms| / 2 => Compose(ms[..2 * j + 2], apply, x))
  }

  /** Composing with the shape semantics of the layers is running them. */
  lemma {:induction false} ComposeIsRun(ms: seq<Layer>, x: Shape)
    ensures Compose(ms, Step, Some(x)) == Run(ms, x)
    decreases |ms|
  {
    if ms != [] {
      var y := ShapeAfter(ms[0], x);
      if y.Some? {
        ComposeIsRun(ms[1..], y.value);
      } else {
        ComposeNone(ms[1..]);
      }
    }
  }

  lemma {:induction false} ComposeNone(ms: seq<Layer>)
    ensures Compose(ms, Step, None) == None
    decreases |ms|
  {
    if ms != [] {
      ComposeNone(ms[1..]);
    }
  }

  lemma {:induction false} RepeatPrefix(st: seq<Layer>, n: nat, j: nat)
    requires j <= n
    ensures j * |st| <= |Repeat(st, n)| && Repeat(st, n)[..j * |st|] == Repeat(st, j)
  {
    var k := j * |st|;
    RepeatLength(st, n);
    if j == n {
      assert Repeat(st, n)[..k] == Repeat(st, n);
    } else {
      RepeatPrefix(st, n - 1, j);
      var a := Repeat(st, n - 1);
      RepeatLength(st, n - 1);
      assert k <= |a| by {
        assert |a| == j * |st| + (n - 1 - j) * |st|;
      }
      assert (a + st)[..k] == a[..k];
    }
  }

  /**
   * With the default bn and act, an 'espcnn' upsampler at scale 2^k has
   * stages of two modules, so the forward pass records exactly the output of
   * each stage: result j has n_feat channels and 2^(j+1) times the input's
   * spatial size.
   */
  lemma UpsamplerRecordsStages(k: nat, nFeat: nat, bias: bool, x: Shape, j: nat)
    requires x.c == nFeat && x.h >= 1 && x.w >= 1 && j < k
    ensures UpsamplerLayers(Pow2(k), nFeat, false, false, bias, "espcnn").Ok?
    ensures var ms := UpsamplerLayers(Pow2(k), nFeat, false, false, bias, "espcnn").value;
      |Recorded(ms, Step, Some(x))| == k &&
      Recorded(ms, Step, Some(x))[j] == Some(Upscaled(x, Pow2(j + 1)))
  {
    var ms := Repeat(Stage("espcnn", nFeat, false, false, bias), k);
    assert UpsamplerLayers(Pow2(k), nFeat, false, false, bias, "espcnn") == Ok(ms) by {
      UpsamplerStages(k, nFeat, false, false, bias, "espcnn");
    }
    RecordedPlainStages(k, nFeat, bias, x, j);
  }

  /** k plain 'espcnn' stages of two modules each: recorded result j is the output of stage j. */
  lemma RecordedPlainStages(k: nat, nFeat: nat, bias: bool, x: Shape, j: nat)
    requires x.c == nFeat && x.h >= 1 && x.w >= 1 && j < k
    ensures var ms := Repeat(Stage("espcnn", nFeat, false, false, bias), k);
      |Recorded(ms, Step, Some(x))| == k &&
      Recorded(ms, Step, Some(x))[j] == Some(Upscaled(x, Pow2(j + 1)))
  {
    var st := Stage("espcnn", nFeat, false, false, bias);
    var ms := Repeat(st, k);
    assert |st| == 2;
    assert |ms| == 2 * k by {
      RepeatLength(st, k);
    }
    assert ms[..2 * j + 2] == Repeat(st, j + 1) by {
      RepeatPrefix(st, k, j + 1);
    }
    assert Compose(Repeat(st, j + 1), Step, Some(x)) == Some(Shape(nFeat, x.h * Pow2(j + 1), x.w * Pow2(j + 1))) by {
      ComposeIsRun(Repeat(st, j + 1), x);
      RepeatShape("espcnn", nFeat, false, false, bias, j + 1, x);
    }
  }

  /** An upsampler module: its layers, and the results its last forward pass recorded. */
  class Upsampler<T> {
    const modules: seq<Layer>
    var outputs: seq<T>

    constructor (modules: seq<Layer>)
      ensures this.modules == modules && outputs == []
    {
      this.modules := modules;
      outputs := [];
    }

    /**
     * `Upsampler.forward`: resets `outputs`, applies the modules in order and
     * appends the running result after every odd-indexed module.
     */
    method Forward(input: T, apply: (Layer, T) -> T) returns (y: T)
      modifies this`outputs
      ensures y == Compose(modules, apply, input)
      ensures outputs == Recorded(modules, apply, input)
    {
      outputs := [];
      y := input;
      for i := 0 to |modules|
        invariant y == Compose(modules[..i], apply, input)
        invariant |outputs| == i / 2
        invariant forall j :: 0 <= j < i / 2 ==> outputs[j] == Compose(modules[..2 * j + 2], apply, input)
      {
        assert modules[..i + 1] == modules[..i] + [modules[i]];
        ComposeSnoc(modules[..i], modules[i], apply, input);
        y := apply(modules[i], y);
        if i % 2 == 1 {
          outputs := outputs + [y];
        }
      }
      assert modules[..|modules|] == modules;
    }
  }
}
