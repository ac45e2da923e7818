/**
 * The layers that the network blocks of code/model/common.py are built from,
 * reduced to what decides the shape of the tensors flowing through them.
 * A layer's numeric behaviour (weights, ReLU, batch statistics) is not
 * modelled; what it does to a feature map's shape is, as torch computes it,
 * with None wherever torch raises a shape error.
 */
module Layers {
  import opened Wrappers

  /** One torch module, as a descriptor of the parameters that fix its shapes. */
  datatype Layer =
    | Conv(inCh: nat, outCh: nat, kernel: nat, stride: nat, pad: nat, bias: bool)  // nn.Conv2d
    | BatchNorm(ch: nat)                                                            // nn.BatchNorm2d
    | Act                                                // an element-wise activation, e.g. nn.ReLU
    | PixelShuffle(factor: nat)                                                     // nn.PixelShuffle
    | Deconv(inCh: nat, outCh: nat, kernel: nat, stride: nat, pad: nat, bias: bool) // a transposed convolution

  /** Shape of one feature map, batch dimension left out: channels, height, width. */
  datatype Shape = Shape(c: nat, h: nat, w: nat)

  /**
   * Length of one spatial axis after a convolution (dilation 1): the number of
   * kernel positions that fit in the padded input at the given stride.
   */
  function ConvLen(len: nat, kernel: nat, stride: nat, pad: nat): (r: Option<nat>)
    ensures r.Some? <==> len >= 1 && kernel >= 1 && stride >= 1 && len + 2 * pad >= kernel
  {
    if len == 0 || kernel == 0 || stride == 0 || len + 2 * pad < kernel then None
    else Some((len + 2 * pad - kernel) / stride + 1)
  }

  /**
   * The output length n is the number of kernel positions: the last one
   * starts at (n - 1) * stride and still fits, the next would not.
   */
  lemma ConvLenPositions(len: nat, kernel: nat, stride: nat, pad: nat)
    requires ConvLen(len, kernel, stride, pad).Some?
    ensures var n := ConvLen(len, kernel, stride, pad).value;
      n >= 1 && (n - 1) * stride <= len + 2 * pad - kernel < n * stride
  {
    var span := len + 2 * pad - kernel;
    var q := span / stride;
    assert q * stride <= span < q * stride + stride;
    assert (q + 1) * stride == q * stride + stride;
  }

  /**
   * Length of one spatial axis after a transposed convolution (dilation 1,
   * no output padding). It is the length that the matching convolution maps
   * back to the input length.
   */
  function TransposedLen(len: nat, kernel: nat, stride: nat, pad: nat): (r: Option<nat>)
    ensures r.Some? <==> len >= 1 && kernel >= 1 && stride >= 1 && (len - 1) * stride + kernel >= 2 * pad + 1
    ensures r.Some? ==> ConvLen(r.value, kernel, stride, pad) == Some(len)
  {
    if len == 0 || kernel == 0 || stride == 0 || (len - 1) * stride + kernel < 2 * pad + 1 then None
    else
      var m := (len - 1) * stride;
      var out := m - 2 * pad + kernel;
      assert out + 2 * pad - kernel == m;
      MulDivCancel(len - 1, stride);
      Some(out)
  }

  /**
   * Several lengths convolve back to the same input length when the stride
   * exceeds 1; the transposed convolution (no output padding) yields the
   * smallest of them.
   */
  lemma TransposedLenSmallest(len: nat, kernel: nat, stride: nat, pad: nat, n: nat)
    requires TransposedLen(len, kernel, stride, pad).Some? && n < TransposedLen(len, kernel, stride, pad).value
    ensures ConvLen(n, kernel, stride, pad) != Some(len)
  {
    if ConvLen(n, kernel, stride, pad).Some? {
      var m := (len - 1) * stride;
      var span := n + 2 * pad - kernel;
      var q := span / stride;
      assert q * stride <= span < m;
      FactorLess(q, len - 1, stride);
    }
  }

  lemma FactorLess(q: nat, l: nat, s: nat)
    requires q * s < l * s
    ensures q < l
  {
  }

  lemma MulDivCancel(m: nat, s: nat)
    requires s >= 1
    ensures (m * s) / s == m
  {
    var q, r := (m * s) / s, (m * s) % s;
    assert m * s == q * s + r && 0 <= r < s;
    var d := m - q;
    assert d * s == r by {
      assert d * s == m * s - q * s;
    }
  }

  /** The shape a layer produces from an input of shape x, or None where torch raises. */
  function ShapeAfter(l: Layer, x: Shape): Option<Shape>
  {
    match l
    case Conv(i, o, k, s, p, _) =>
      if x.c != i then None
      else
        var h, w := ConvLen(x.h, k, s, p), ConvLen(x.w, k, s, p);
        if h.Some? && w.Some? then Some(Shape(o, h.value, w.value)) else None
    case BatchNorm(ch) =>
      if x.c == ch then Some(x) else None
    case Act =>
      Some(x)
    case PixelShuffle(r) =>
      if r == 0 || x.c % (r * r) != 0 then None
      else Some(Shape(x.c / (r * r), x.h * r, x.w * r))
    case Deconv(i, o, k, s, p, _) =>
      if x.c != i then None
      else
        var h, w := TransposedLen(x.h, k, s, p), TransposedLen(x.w, k, s, p);
        if h.Some? && w.Some? then Some(Shape(o, h.value, w.value)) else None
  }

  /** x with both spatial axes multiplied by p. */
  function Upscaled(x: Shape, p: nat): Shape
  {
    Shape(x.c, x.h * p, x.w * p)
  }

  /** The shape after applying the layers of an nn.Sequential in order. */
  function Run(ms: seq<Layer>, x: Shape): Option<Shape>
  {
    if ms == [] then Some(x)
    else
      match ShapeAfter(ms[0], x)
      case None => None
      case Some(y) => Run(ms[1..], y)
  }

  /** One application step on an optional shape; None stays None. */
  function Step(l: Layer, x: Option<Shape>): Option<Shape>
  {
    if x.None? then None else ShapeAfter(l, x.value)
  }

  /** Running a concatenation of layer lists runs the first list, then the second. */
  lemma {:induction false} RunAppend(a: seq<Layer>, b: seq<Layer>, x: Shape)
    ensures Run(a + b, x) == (if Run(a, x).None? then None else Run(b, Run(a, x).value))
  {
    if a == [] {
      assert a + b == b;
    } else {
      assert (a + b)[0] == a[0] && (a + b)[1..] == a[1..] + b;
      if ShapeAfter(a[0], x).Some? {
        RunAppend(a[1..], b, ShapeAfter(a[0], x).value);
      }
    }
  }

  /** Running a single layer is applying it. */
  lemma RunSingle(l: Layer, x: Shape)
    ensures Run([l], x) == ShapeAfter(l, x)
  {
    assert [l][1..] == [];
  }

  /** Two layers in a row: the second runs on what the first produced. */
  lemma RunPair(l1: Layer, l2: Layer, x: Shape, y: Shape, z: Shape)
    requires ShapeAfter(l1, x) == Some(y) && ShapeAfter(l2, y) == Some(z)
    ensures Run([l1, l2], x) == Some(z)
  {
    assert [l1, l2][1..] == [l2];
    RunSingle(l2, y);
  }

  /** Appending layers that keep a shape does not move where a run ends. */
  lemma RunThenKeep(a: seq<Layer>, b: seq<Layer>, x: Shape, z: Shape)
    requires Run(a, x) == Some(z) && Run(b, z) == Some(z)
    ensures Run(a + b, x) == Some(z)
  {
    RunAppend(a, b, x);
  }

  /** A shuffle by r turns r * r * c channels into c, and multiplies both axes by r. */
  lemma ShuffleNarrows(r: nat, c: nat, h: nat, w: nat)
    requires r >= 1
    ensures ShapeAfter(PixelShuffle(r), Shape(r * r * c, h, w)) == Some(Shape(c, h * r, w * r))
  {
    var q := r * r;
    assert q >= 1 by {
      assert r * r >= r * 1;
    }
    MulDivCancel(c, q);
    assert (c * q) % q == 0 by {
      assert c * q == q * ((c * q) / q) + (c * q) % q;
    }
    assert r * r * c == c * q;
  }

  /** A pixel shuffle only rearranges elements: channels times area is unchanged. */
  lemma PixelShuffleKeepsVolume(r: nat, x: Shape)
    requires ShapeAfter(PixelShuffle(r), x).Some?
    ensures var y := ShapeAfter(PixelShuffle(r), x).value;
      y.c * y.h * y.w == x.c * x.h * x.w && y.c * (r * r) == x.c
  {
    var y := ShapeAfter(PixelShuffle(r), x).value;
    var q := x.c / (r * r);
    assert q * (r * r) == x.c;
    calc {
      y.c * y.h * y.w;
      q * (x.h * r) * (x.w * r);
      (q * (r * r)) * (x.h * x.w);
      x.c * x.h * x.w;
    }
  }

  /** `default_conv`: a convolution padded by kernel_size // 2, stride 1. */
  function DefaultConv(inCh: nat, outCh: nat, kernel: nat, bias: bool): Layer
  {
    Conv(inCh, outCh, kernel, 1, kernel / 2, bias)
  }

  /**
   * Padding kernel // 2 keeps the spatial size exactly when the kernel is
   * odd; an even kernel grows each axis by one.
   */
  lemma DefaultConvShape(inCh: nat, outCh: nat, kernel: nat, bias: bool, x: Shape)
    ensures ShapeAfter(DefaultConv(inCh, outCh, kernel, bias), x).Some?
      <==> x.c == inCh && x.h >= 1 && x.w >= 1 && kernel >= 1
    ensures ShapeAfter(DefaultConv(inCh, outCh, kernel, bias), x) == Some(Shape(outCh, x.h, x.w))
      <==> x.c == inCh && x.h >= 1 && x.w >= 1 && kernel % 2 == 1
    ensures x.c == inCh && x.h >= 1 && x.w >= 1 && kernel >= 2 && kernel % 2 == 0 ==>
      ShapeAfter(DefaultConv(inCh, outCh, kernel, bias), x) == Some(Shape(outCh, x.h + 1, x.w + 1))
  {
  }
}
