/**
 * The two-dimensional convolution layer.  The kernels have shape
 * (output_channels, input_channels, k, k) and the biases one element per
 * output channel.  forward surrounds a (channels, height, width) input with
 * `padding` zeros on every side and slides each kernel over it with step
 * `stride`; backward computes the bias and kernel gradients, moves both
 * parameters against them, and then scatters kernel * gradient back onto the
 * input positions.
 */
module Conv2DLayer {
  import opened Sums
  import opened Tensors
  import opened Reals

  // ---------------------------------------------------------------------
  // Padding

  /** The padded input at (c, h, w): input element (c, h - p, w - p) inside the
      centre, 0 in the border of width p. */
  function PaddedAt(x: Tensor, p: nat, c: nat, h: nat, w: nat): real
    requires IsRank3(x) && c < x.shape[0]
  {
    if p <= h < x.shape[1] + p && p <= w < x.shape[2] + p then At3(x, c, h - p, w - p) else 0.0
  }

  function PaddedCube(x: Tensor, p: nat): (cube: seq<seq<seq<real>>>)
    requires IsRank3(x)
    ensures |cube| == x.shape[0] && Cubic(cube, x.shape[1] + 2 * p, x.shape[2] + 2 * p)
  {
    var C, Hp, Wp := x.shape[0], x.shape[1] + 2 * p, x.shape[2] + 2 * p;
    seq(C, c requires 0 <= c < C =>
      seq(Hp, h requires 0 <= h < Hp =>
        seq(Wp, w requires 0 <= w < Wp => PaddedAt(x, p, c, h, w))))
  }

  /** The input surrounded by p zeros on each side of both spatial dimensions. */
  function Padded(x: Tensor, p: nat): (r: Tensor)
    requires IsRank3(x)
    ensures IsRank3(r) && r.shape == [x.shape[0], x.shape[1] + 2 * p, x.shape[2] + 2 * p]
  {
    FromCube(PaddedCube(x, p), x.shape[1] + 2 * p, x.shape[2] + 2 * p)
  }

  lemma PaddedIs(x: Tensor, p: nat, c: nat, h: nat, w: nat)
    requires IsRank3(x) && c < x.shape[0] && h < x.shape[1] + 2 * p && w < x.shape[2] + 2 * p
    ensures At3(Padded(x, p), c, h, w) == PaddedAt(x, p, c, h, w)
  {
    FromCubeAt(PaddedCube(x, p), x.shape[1] + 2 * p, x.shape[2] + 2 * p, c, h, w);
  }

  /** The input sits in the centre of the padded tensor, shifted by p in both
      spatial dimensions. */
  lemma PaddedCentre(x: Tensor, p: nat, c: nat, h: nat, w: nat)
    requires IsRank3(x) && c < x.shape[0] && h < x.shape[1] && w < x.shape[2]
    ensures At3(Padded(x, p), c, h + p, w + p) == At3(x, c, h, w)
  {
    PaddedIs(x, p, c, h + p, w + p);
  }

  /** Everything outside the centre is 0. */
  lemma PaddedBorder(x: Tensor, p: nat, c: nat, h: nat, w: nat)
    requires IsRank3(x) && c < x.shape[0] && h < x.shape[1] + 2 * p && w < x.shape[2] + 2 * p
    requires h < p || h >= x.shape[1] + p || w < p || w >= x.shape[2] + p
    ensures At3(Padded(x, p), c, h, w) == 0.0
  {
    PaddedIs(x, p, c, h, w);
  }

  /** With padding 0 the padded tensor is the input itself, which is what the early
      return of pad gives. */
  lemma PadZeroIsIdentity(x: Tensor)
    requires IsRank3(x)
    ensures Padded(x, 0) == x
  {
    var r := Padded(x, 0);
    forall c, h, w | 0 <= c < x.shape[0] && 0 <= h < x.shape[1] && 0 <= w < x.shape[2]
      ensures At3(r, c, h, w) == At3(x, c, h, w)
    {
      PaddedIs(x, 0, c, h, w);
    }
    Rank3Ext(r, x);
  }

  /** Input coordinate (c', h', w') comes before (c, h, w) in the copy loop's order. */
  predicate Before(c': int, h': int, w': int, c: nat, h: nat, w: nat)
  {
    c' < c || (c' == c && (h' < h || (h' == h && w' < w)))
  }

  /** What the copy loop has left at padded coordinate (c', h', w') on reaching
      input coordinate (c, h, w): the input element once it is copied, else 0. */
  function Partial(x: Tensor, p: nat, c': nat, h': nat, w': nat, c: nat, h: nat, w: nat): real
    requires IsRank3(x) && c' < x.shape[0]
  {
    if p <= h' < x.shape[1] + p && p <= w' < x.shape[2] + p && Before(c', h' - p, w' - p, c, h, w)
    then At3(x, c', h' - p, w' - p) else 0.0
  }

  /** The padded data r as the copy loop leaves it on reaching (c, h, w). */
  ghost predicate CopiedBefore(r: seq<real>, x: Tensor, p: nat, c: nat, h: nat, w: nat)
    requires IsRank3(x)
  {
    var C, Hp, Wp := x.shape[0], x.shape[1] + 2 * p, x.shape[2] + 2 * p;
    |r| == C * Hp * Wp &&
    forall c', h', w' :: 0 <= c' < C && 0 <= h' < Hp && 0 <= w' < Wp ==>
      Cell3(c', h', w', Hp, Wp) < |r| && r[Cell3(c', h', w', Hp, Wp)] == Partial(x, p, c', h', w', c, h, w)
  }

  /** The zero-filled tensor is where the copy starts. */
  lemma CopyStart(r: seq<real>, x: Tensor, p: nat)
    requires IsRank3(x) && |r| == x.shape[0] * (x.shape[1] + 2 * p) * (x.shape[2] + 2 * p)
    requires forall q :: 0 <= q < |r| ==> r[q] == 0.0
    ensures CopiedBefore(r, x, p, 0, 0, 0)
  {
    var C, Hp, Wp := x.shape[0], x.shape[1] + 2 * p, x.shape[2] + 2 * p;
    forall c', h', w' | 0 <= c' < C && 0 <= h' < Hp && 0 <= w' < Wp
      ensures Cell3(c', h', w', Hp, Wp) < |r| && r[Cell3(c', h', w', Hp, Wp)] == Partial(x, p, c', h', w', 0, 0, 0)
    {
      Rank3Bound([C, Hp, Wp], c', h', w');
      Product3([C, Hp, Wp]);
    }
  }

  /** Copying input element (c, h, w) to (c, h + p, w + p) changes that one padded
      coordinate and no other. */
  lemma CopyStepAt(r: seq<real>, x: Tensor, p: nat, c: nat, h: nat, w: nat, c': nat, h': nat, w': nat)
    requires IsRank3(x) && c < x.shape[0] && h < x.shape[1] && w < x.shape[2]
    requires CopiedBefore(r, x, p, c, h, w)
    requires c' < x.shape[0] && h' < x.shape[1] + 2 * p && w' < x.shape[2] + 2 * p
    ensures Cell3(c, h + p, w + p, x.shape[1] + 2 * p, x.shape[2] + 2 * p) < |r|
    ensures var Hp, Wp := x.shape[1] + 2 * p, x.shape[2] + 2 * p;
      r[Cell3(c, h + p, w + p, Hp, Wp) := At3(x, c, h, w)][Cell3(c', h', w', Hp, Wp)] == Partial(x, p, c', h', w', c, h, w + 1)
  {
    var Hp, Wp := x.shape[1] + 2 * p, x.shape[2] + 2 * p;
    assert Cell3(c, h + p, w + p, Hp, Wp) < |r|;
    assert Cell3(c', h', w', Hp, Wp) < |r|;
    if (c', h', w') != (c, h + p, w + p) {
      if Cell3(c', h', w', Hp, Wp) == Cell3(c, h + p, w + p, Hp, Wp) {
        Rank3Injective(c', h', w', c, h + p, w + p, Hp, Wp);
      }
    }
  }

  lemma CopyStep(r: seq<real>, x: Tensor, p: nat, c: nat, h: nat, w: nat)
    requires IsRank3(x) && c < x.shape[0] && h < x.shape[1] && w < x.shape[2]
    requires CopiedBefore(r, x, p, c, h, w)
    ensures Cell3(c, h + p, w + p, x.shape[1] + 2 * p, x.shape[2] + 2 * p) < |r|
    ensures CopiedBefore(r[Cell3(c, h + p, w + p, x.shape[1] + 2 * p, x.shape[2] + 2 * p) := At3(x, c, h, w)], x, p, c, h, w + 1)
  {
    var C, Hp, Wp := x.shape[0], x.shape[1] + 2 * p, x.shape[2] + 2 * p;
    CopyStepAt(r, x, p, c, h, w, 0, 0, 0);
    var r' := r[Cell3(c, h + p, w + p, Hp, Wp) := At3(x, c, h, w)];
    forall c', h', w' | 0 <= c' < C && 0 <= h' < Hp && 0 <= w' < Wp
      ensures Cell3(c', h', w', Hp, Wp) < |r'| && r'[Cell3(c', h', w', Hp, Wp)] == Partial(x, p, c', h', w', c, h, w + 1)
    {
      CopyStepAt(r, x, p, c, h, w, c', h', w');
    }
  }

  /** Finishing a row of the input is starting the next one. */
  lemma CopyNextRow(r: seq<real>, x: Tensor, p: nat, c: nat, h: nat)
    requires IsRank3(x) && CopiedBefore(r, x, p, c, h, x.shape[2])
    ensures CopiedBefore(r, x, p, c, h + 1, 0)
  {
    var C, Hp, Wp := x.shape[0], x.shape[1] + 2 * p, x.shape[2] + 2 * p;
    forall c', h', w' | 0 <= c' < C && 0 <= h' < Hp && 0 <= w' < Wp
      ensures Partial(x, p, c', h', w', c, h, x.shape[2]) == Partial(x, p, c', h', w', c, h + 1, 0)
    {
    }
  }

  /** Finishing a channel of the input is starting the next one. */
  lemma CopyNextPlane(r: seq<real>, x: Tensor, p: nat, c: nat)
    requires IsRank3(x) && CopiedBefore(r, x, p, c, x.shape[1], 0)
    ensures CopiedBefore(r, x, p, c + 1, 0, 0)
  {
    var C, Hp, Wp := x.shape[0], x.shape[1] + 2 * p, x.shape[2] + 2 * p;
    forall c', h', w' | 0 <= c' < C && 0 <= h' < Hp && 0 <= w' < Wp
      ensures Partial(x, p, c', h', w', c, x.shape[1], 0) == Partial(x, p, c', h', w', c + 1, 0, 0)
    {
    }
  }

  /** Once every channel is copied the data is that of the padded tensor. */
  lemma CopyDone(r: Tensor, x: Tensor, p: nat)
    requires IsRank3(x) && r.shape == [x.shape[0], x.shape[1] + 2 * p, x.shape[2] + 2 * p]
    requires CopiedBefore(r.data, x, p, x.shape[0], 0, 0)
    ensures r == Padded(x, p)
  {
    var C, Hp, Wp := x.shape[0], x.shape[1] + 2 * p, x.shape[2] + 2 * p;
    Product3(r.shape);
    var spec := Padded(x, p);
    forall c, h, w | 0 <= c < C && 0 <= h < Hp && 0 <= w < Wp
      ensures At3(r, c, h, w) == At3(spec, c, h, w)
    {
      PaddedIs(x, p, c, h, w);
      assert At3(r, c, h, w) == r.data[Cell3(c, h, w, Hp, Wp)];
    }
    Rank3Ext(r, spec);
  }

  /** pad: returns the input when padding is 0; otherwise fills a
      (C, H + 2p, W + 2p) tensor with 0 and copies input({c, h, w}) to
      ({c, h + p, w + p}). */
  method Pad(x: Tensor, p: nat) returns (r: Tensor)
    requires IsRank3(x)
    ensures r == Padded(x, p)
  {
    if p == 0 {
      PadZeroIsIdentity(x);
      return x;
    }
    var C, H, W := x.shape[0], x.shape[1], x.shape[2];
    var Hp, Wp := H + 2 * p, W + 2 * p;
    r := New([C, Hp, Wp]);
    r := Fill(r, 0.0);
    Product3([C, Hp, Wp]);
    CopyStart(r.data, x, p);
    for c := 0 to C
      invariant r.shape == [C, Hp, Wp] && CopiedBefore(r.data, x, p, c, 0, 0)
    {
      for h := 0 to H
        invariant r.shape == [C, Hp, Wp] && CopiedBefore(r.data, x, p, c, h, 0)
      {
        for w := 0 to W
          invariant r.shape == [C, Hp, Wp] && CopiedBefore(r.data, x, p, c, h, w)
        {
          var v := Get3(x, c, h, w);
          CopyStep(r.data, x, p, c, h, w);
          r := Set3(r, c, h + p, w + p, v);
        }
        CopyNextRow(r.data, x, p, c, h);
      }
      CopyNextPlane(r.data, x, p, c);
    }
    CopyDone(r, x, p);
  }

  // ---------------------------------------------------------------------
  // Output size

  /** (n - k) / stride + 1: how many windows of extent k, stride apart, fit into an
      extent of n.  The source computes it on size_t, so it is defined only for
      stride > 0 (no division by zero) and n >= k (no wrap-around). */
  function OutSize(n: nat, k: nat, s: nat): nat
    requires s > 0 && k <= n
  {
    (n - k) / s + 1
  }

  /** A window starting at o * stride fits inside the extent exactly when o is below
      the output size: every read of forward is in bounds, and the output is as
      large as it can be. */
  lemma WindowFits(n: nat, k: nat, s: nat, o: nat)
    requires s > 0 && k <= n
    ensures o < OutSize(n, k, s) <==> o * s + k <= n
  {
    var q := (n - k) / s;
    assert n - k == q * s + (n - k) % s;
    if o <= q {
      MulMonotone(o, q, s);
    } else {
      MulMonotone(q + 1, o, s);
      assert (q + 1) * s == q * s + s;
    }
  }

  /** With stride 1 every position where the kernel fits is used: n - k + 1 windows. */
  lemma UnitStride(n: nat, k: nat)
    requires k <= n
    ensures OutSize(n, k, 1) == n - k + 1
  {
  }

  /** Padding p = (k - 1) / 2 on each side of an odd kernel with stride 1 keeps the
      spatial size. */
  lemma SamePadding(n: nat, p: nat)
    requires n >= 1
    ensures OutSize(n + 2 * p, 2 * p + 1, 1) == n
  {
    UnitStride(n + 2 * p, 2 * p + 1);
  }

  // ---------------------------------------------------------------------
  // forward

  /** A kernel tensor: (output_channels, input_channels, k, k). */
  predicate Kernels(K: Tensor)
  {
    IsRank4(K) && K.shape[2] == K.shape[3]
  }

  /** One bias per output channel of the kernels. */
  predicate BiasesFor(b: Tensor, K: Tensor)
  {
    |K.shape| == 4 && b.Valid() && b.shape == [K.shape[0]] && |b.data| == K.shape[0]
  }

  /** A padded input a kernel of extent k slides over with step s: rank 3, a positive
      stride, and room for at least one window in each spatial dimension. */
  predicate Slides(pin: Tensor, k: nat, s: nat)
  {
    IsRank3(pin) && s > 0 && k <= pin.shape[1] && k <= pin.shape[2]
  }

  /** The number of output rows and columns. */
  function OutHeight(pin: Tensor, k: nat, s: nat): nat
    requires Slides(pin, k, s)
  {
    OutSize(pin.shape[1], k, s)
  }

  function OutWidth(pin: Tensor, k: nat, s: nat): nat
    requires Slides(pin, k, s)
  {
    OutSize(pin.shape[2], k, s)
  }

  /** The first padded row (or column) of the window of output row (or column) o. */
  function Origin(o: nat, s: nat): nat
  {
    o * s
  }

  /** The k x k window of output (oh, ow) lies inside the padded input. */
  predicate InWindow(pin: Tensor, k: nat, s: nat, oh: nat, ow: nat)
  {
    Slides(pin, k, s) && Origin(oh, s) + k <= pin.shape[1] && Origin(ow, s) + k <= pin.shape[2]
  }

  /** Every output position has its window inside the padded input. */
  lemma WindowInside(pin: Tensor, k: nat, s: nat, oh: nat, ow: nat)
    requires Slides(pin, k, s) && oh < OutHeight(pin, k, s) && ow < OutWidth(pin, k, s)
    ensures InWindow(pin, k, s, oh, ow)
  {
    WindowFits(pin.shape[1], k, s, oh);
    WindowFits(pin.shape[2], k, s, ow);
  }

  /** The padded input element that kernel position (ic, kh, kw) meets in the window of
      output (oh, ow): padded({ic, oh * stride + kh, ow * stride + kw}). */
  function Tap(pin: Tensor, k: nat, s: nat, ic: nat, kh: nat, kw: nat, oh: nat, ow: nat): real
    requires InWindow(pin, k, s, oh, ow) && ic < pin.shape[0] && kh < k && kw < k
  {
    At3(pin, ic, Origin(oh, s) + kh, Origin(ow, s) + kw)
  }

  /** Row kh of input channel ic of the window with top-left corner (top, left):
      padded({ic, top + kh, left + kw}) for kw < k. */
  function InputRow(pin: Tensor, ic: nat, top: nat, kh: nat, left: nat, k: nat): (r: seq<real>)
    requires IsRank3(pin) && ic < pin.shape[0] && top + kh < pin.shape[1] && left + k <= pin.shape[2]
    ensures |r| == k
  {
    seq(k, kw requires 0 <= kw < k => At3(pin, ic, top + kh, left + kw))
  }

  /** Row kh of the kernel from input channel ic to output channel oc:
      kernels({oc, ic, kh, kw}) for kw < kernel_size. */
  function KernelRowTaps(K: Tensor, oc: nat, ic: nat, kh: nat): (r: seq<real>)
    requires Kernels(K) && oc < K.shape[0] && ic < K.shape[1] && kh < K.shape[2]
    ensures |r| == K.shape[2]
  {
    seq(K.shape[2], kw requires 0 <= kw < K.shape[2] => At4(K, oc, ic, kh, kw))
  }

  /** Input channel ic of the window of output (oh, ow), row by row. */
  function PatchPlane(pin: Tensor, k: nat, s: nat, oh: nat, ow: nat, ic: nat): (plane: seq<seq<real>>)
    requires InWindow(pin, k, s, oh, ow) && ic < pin.shape[0]
    ensures |plane| == k && Uniform(plane, k)
  {
    seq(k, kh requires 0 <= kh < k => InputRow(pin, ic, Origin(oh, s), kh, Origin(ow, s), k))
  }

  function PatchCube(pin: Tensor, k: nat, s: nat, oh: nat, ow: nat): (cube: seq<seq<seq<real>>>)
    requires InWindow(pin, k, s, oh, ow)
    ensures |cube| == pin.shape[0] && Cubic(cube, k, k)
  {
    seq(pin.shape[0], ic requires 0 <= ic < pin.shape[0] => PatchPlane(pin, k, s, oh, ow, ic))
  }

  /** The window of output (oh, ow), in the order of the loops over ic, kh and kw. */
  function Patch(pin: Tensor, k: nat, s: nat, oh: nat, ow: nat): (r: seq<real>)
    requires InWindow(pin, k, s, oh, ow)
    ensures |r| == pin.shape[0] * k * k
  {
    Stack3Length(PatchCube(pin, k, s, oh, ow), k, k);
    Stack3(PatchCube(pin, k, s, oh, ow))
  }

  function TapsCube(K: Tensor, oc: nat): (cube: seq<seq<seq<real>>>)
    requires Kernels(K) && oc < K.shape[0]
    ensures |cube| == K.shape[1] && Cubic(cube, K.shape[2], K.shape[2])
  {
    seq(K.shape[1], ic requires 0 <= ic < K.shape[1] =>
      seq(K.shape[2], kh requires 0 <= kh < K.shape[2] => KernelRowTaps(K, oc, ic, kh)))
  }

  /** The kernel of output channel oc, in the same order. */
  function Taps(K: Tensor, oc: nat): (r: seq<real>)
    requires Kernels(K) && oc < K.shape[0]
    ensures |r| == K.shape[1] * K.shape[2] * K.shape[2]
  {
    Stack3Length(TapsCube(K, oc), K.shape[2], K.shape[2]);
    Stack3(TapsCube(K, oc))
  }

  /** An input that fits the kernels: its channels are the kernels' input channels. */
  predicate Fits(pin: Tensor, K: Tensor, s: nat)
  {
    Kernels(K) && Slides(pin, K.shape[2], s) && pin.shape[0] == K.shape[1]
  }

  /** The weighted sum of the window at (oh, ow) with the kernel of channel oc. */
  function Window(pin: Tensor, K: Tensor, s: nat, oc: nat, oh: nat, ow: nat): real
    requires Fits(pin, K, s) && oc < K.shape[0]
    requires InWindow(pin, K.shape[2], s, oh, ow)
  {
    Inner(Patch(pin, K.shape[2], s, oh, ow), Taps(K, oc))
  }

  /** Entry (ic, kh, kw) of the window and of the kernel, at their common position. */
  lemma WindowEntries(pin: Tensor, K: Tensor, s: nat, oc: nat, oh: nat, ow: nat, ic: nat, kh: nat, kw: nat)
    requires Fits(pin, K, s) && oc < K.shape[0]
    requires InWindow(pin, K.shape[2], s, oh, ow)
    requires ic < K.shape[1] && kh < K.shape[2] && kw < K.shape[2]
    ensures var k := K.shape[2];
      Cell3(ic, kh, kw, k, k) < |Patch(pin, k, s, oh, ow)| &&
      Patch(pin, k, s, oh, ow)[Cell3(ic, kh, kw, k, k)] == Tap(pin, k, s, ic, kh, kw, oh, ow) &&
      Taps(K, oc)[Cell3(ic, kh, kw, k, k)] == At4(K, oc, ic, kh, kw)
  {
    var k := K.shape[2];
    Stack3At(PatchCube(pin, k, s, oh, ow), k, k, ic, kh, kw);
    Stack3At(TapsCube(K, oc), k, k, ic, kh, kw);
  }

  /** The k x k window with top-left corner (top, left) lies inside the padded input,
      which has the kernels' input channels. */
  predicate Placed(pin: Tensor, K: Tensor, top: nat, left: nat)
  {
    Kernels(K) && IsRank3(pin) && pin.shape[0] == K.shape[1] &&
    top + K.shape[2] <= pin.shape[1] && left + K.shape[2] <= pin.shape[2]
  }

  /** Row by row: the inner products of the k rows of input channel ic of the window at
      (top, left) with the rows of the kernel from ic to oc. */
  function ChannelInners(pin: Tensor, K: Tensor, oc: nat, ic: nat, top: nat, left: nat): (r: seq<real>)
    requires Placed(pin, K, top, left) && oc < K.shape[0] && ic < K.shape[1]
    ensures |r| == K.shape[2]
  {
    seq(K.shape[2], kh requires 0 <= kh < K.shape[2] =>
      Inner(InputRow(pin, ic, top, kh, left, K.shape[2]), KernelRowTaps(K, oc, ic, kh)))
  }

  /** Channel by channel: the sums of the row inner products of each input channel. */
  function ChannelSums(pin: Tensor, K: Tensor, oc: nat, top: nat, left: nat): (r: seq<real>)
    requires Placed(pin, K, top, left) && oc < K.shape[0]
    ensures |r| == K.shape[1]
  {
    seq(K.shape[1], ic requires 0 <= ic < K.shape[1] => Sum(ChannelInners(pin, K, oc, ic, top, left)))
  }

  /** The window sum, computed over channels and rows in the order of the loops, is the
      inner product of the whole window with the whole kernel. */
  lemma WindowByRows(pin: Tensor, K: Tensor, s: nat, oc: nat, oh: nat, ow: nat)
    requires Fits(pin, K, s) && oc < K.shape[0]
    requires InWindow(pin, K.shape[2], s, oh, ow)
    ensures Placed(pin, K, Origin(oh, s), Origin(ow, s))
    ensures Window(pin, K, s, oc, oh, ow) == Sum(ChannelSums(pin, K, oc, Origin(oh, s), Origin(ow, s)))
  {
    var k, top, left := K.shape[2], Origin(oh, s), Origin(ow, s);
    var P, T := PatchCube(pin, k, s, oh, ow), TapsCube(K, oc);
    var pp := seq(|P|, c requires 0 <= c < |P| => Flatten(P[c]));
    var tt := seq(|T|, c requires 0 <= c < |T| => Flatten(T[c]));
    var sums := ChannelSums(pin, K, oc, top, left);
    forall c | 0 <= c < |P|
      ensures |pp[c]| == |tt[c]| && Inner(pp[c], tt[c]) == sums[c]
    {
      InnerFlatten(P[c], T[c]);
      assert RowInners(P[c], T[c]) == ChannelInners(pin, K, oc, c, top, left);
    }
    InnerFlatten(pp, tt);
    assert RowInners(pp, tt) == sums;
  }

  function OutputCube(pin: Tensor, K: Tensor, b: Tensor, s: nat): (cube: seq<seq<seq<real>>>)
    requires Fits(pin, K, s) && BiasesFor(b, K)
    ensures |cube| == K.shape[0] && Cubic(cube, OutHeight(pin, K.shape[2], s), OutWidth(pin, K.shape[2], s))
  {
    var OC, oH, oW := K.shape[0], OutHeight(pin, K.shape[2], s), OutWidth(pin, K.shape[2], s);
    seq(OC, oc requires 0 <= oc < OC =>
      seq(oH, oh requires 0 <= oh < oH =>
        seq(oW, ow requires 0 <= ow < oW =>
          WindowInside(pin, K.shape[2], s, oh, ow);
          Window(pin, K, s, oc, oh, ow) + b.data[oc])))
  }

  /** The forward output on a padded input: shape (output_channels, output_height,
      output_width), each element the window sum plus the channel's bias. */
  function Convolution(pin: Tensor, K: Tensor, b: Tensor, s: nat): (r: Tensor)
    requires Fits(pin, K, s) && BiasesFor(b, K)
    ensures IsRank3(r) && r.shape == [K.shape[0], OutHeight(pin, K.shape[2], s), OutWidth(pin, K.shape[2], s)]
  {
    FromCube(OutputCube(pin, K, b, s), OutHeight(pin, K.shape[2], s), OutWidth(pin, K.shape[2], s))
  }

  /** Reading the output back: output({oc, oh, ow}) is the window sum plus bias oc. */
  lemma ConvolutionAt(pin: Tensor, K: Tensor, b: Tensor, s: nat, oc: nat, oh: nat, ow: nat)
    requires Fits(pin, K, s) && BiasesFor(b, K) && oc < K.shape[0]
    requires oh < OutHeight(pin, K.shape[2], s) && ow < OutWidth(pin, K.shape[2], s)
    ensures InWindow(pin, K.shape[2], s, oh, ow)
    ensures At3(Convolution(pin, K, b, s), oc, oh, ow) == Window(pin, K, s, oc, oh, ow) + b.data[oc]
  {
    WindowInside(pin, K.shape[2], s, oh, ow);
    FromCubeAt(OutputCube(pin, K, b, s), OutHeight(pin, K.shape[2], s), OutWidth(pin, K.shape[2], s), oc, oh, ow);
  }

  /** Moving from the end of one row of kernel positions to the start of the next. */
  lemma NextRow(c: nat, h: nat, H: nat, W: nat)
    ensures Cell3(c, h, W, H, W) == Cell3(c, h + 1, 0, H, W)
  {
  }

  /** Moving from the end of one plane to the start of the next. */
  lemma NextPlane(c: nat, H: nat, W: nat)
    ensures Cell3(c, H, 0, H, W) == Cell3(c + 1, 0, 0, H, W)
  {
  }

  /** After the last plane every position has been counted. */
  lemma AllPlanes(C: nat, H: nat, W: nat)
    ensures Cell3(C, 0, 0, H, W) == C * H * W
  {
  }

  /** The innermost loop of forward, over kw for one (ic, kh): sum += padded({ic,
      top + kh, left + kw}) * kernels({oc, ic, kh, kw}) adds the inner product of the
      two rows. */
  method KernelRow(pin: Tensor, K: Tensor, oc: nat, ic: nat, kh: nat, top: nat, left: nat, sum0: real)
    returns (sum: real)
    requires IsRank3(pin) && Kernels(K) && oc < K.shape[0] && ic < K.shape[1] && kh < K.shape[2]
    requires ic < pin.shape[0] && top + kh < pin.shape[1] && left + K.shape[2] <= pin.shape[2]
    ensures sum == sum0 + Inner(InputRow(pin, ic, top, kh, left, K.shape[2]), KernelRowTaps(K, oc, ic, kh))
  {
    var k := K.shape[2];
    ghost var row := InputRow(pin, ic, top, kh, left, k);
    ghost var taps := KernelRowTaps(K, oc, ic, kh);
    sum := sum0;
    for kw := 0 to k
      invariant sum - sum0 == Inner(row[..kw], taps[..kw])
    {
      var a := Get3(pin, ic, top + kh, left + kw);
      var w := Get4(K, oc, ic, kh, kw);
      InnerExtend(row, taps, kw, sum - sum0, a, w);
      sum := sum + a * w;
    }
    assert row[..k] == row && taps[..k] == taps;
  }

  /** A position of a C x H x W block lies below C * H * W. */
  lemma CellBound(c: nat, h: nat, w: nat, C: nat, H: nat, W: nat)
    requires c < C && h < H && w < W
    ensures Cell3(c, h, w, H, W) < C * H * W
  {
    RowMajorBound(c, h, C, H);
    RowMajorBound(c * H + h, w, C * H, W);
  }

  /** The three innermost loops of forward: sum += padded({ic, ih, iw}) *
      kernels({oc, ic, kh, kw}) over ic, kh, kw. */
  method WindowSum(pin: Tensor, K: Tensor, s: nat, oc: nat, oh: nat, ow: nat) returns (sum: real)
    requires Fits(pin, K, s) && oc < K.shape[0]
    requires InWindow(pin, K.shape[2], s, oh, ow)
    ensures sum == Window(pin, K, s, oc, oh, ow)
  {
    var top, left := Origin(oh, s), Origin(ow, s);
    WindowByRows(pin, K, s, oc, oh, ow);
    sum := WindowAt(pin, K, oc, top, left);
  }

  /** The loops over ic and kh of forward for the window at (top, left). */
  method WindowAt(pin: Tensor, K: Tensor, oc: nat, top: nat, left: nat) returns (sum: real)
    requires Placed(pin, K, top, left) && oc < K.shape[0]
    ensures sum == Sum(ChannelSums(pin, K, oc, top, left))
  {
    ghost var sums := ChannelSums(pin, K, oc, top, left);
    sum := 0.0;
    for ic := 0 to K.shape[1]
      invariant sum == Sum(sums[..ic])
    {
      var channel := ChannelSum(pin, K, oc, ic, top, left);
      SumStep(sums, ic);
      sum := sum + channel;
    }
    assert sums[..K.shape[1]] == sums;
  }

  /** The loop over kh of forward for input channel ic: the sum over its k rows. */
  method ChannelSum(pin: Tensor, K: Tensor, oc: nat, ic: nat, top: nat, left: nat) returns (sum: real)
    requires Placed(pin, K, top, left) && oc < K.shape[0] && ic < K.shape[1]
    ensures sum == Sum(ChannelInners(pin, K, oc, ic, top, left))
  {
    ghost var rows := ChannelInners(pin, K, oc, ic, top, left);
    sum := 0.0;
    for kh := 0 to K.shape[2]
      invariant sum == Sum(rows[..kh])
    {
      sum := KernelRow(pin, K, oc, ic, kh, top, left, sum);
      SumStep(rows, kh);
    }
    assert rows[..K.shape[2]] == rows;
  }

  /** The output in row-major order, the order in which forward writes it. */
  function OutputOrder(pin: Tensor, K: Tensor, b: Tensor, s: nat): (r: seq<real>)
    requires Fits(pin, K, s) && BiasesFor(b, K)
    ensures |r| == K.shape[0] * OutHeight(pin, K.shape[2], s) * OutWidth(pin, K.shape[2], s)
  {
    Stack3Length(OutputCube(pin, K, b, s), OutHeight(pin, K.shape[2], s), OutWidth(pin, K.shape[2], s));
    Stack3(OutputCube(pin, K, b, s))
  }

  /** Writing output (oc, oh, ow) at its row-major position q extends the written prefix. */
  lemma OutputStep(pin: Tensor, K: Tensor, b: Tensor, s: nat, oc: nat, oh: nat, ow: nat,
                   q: nat, r: seq<real>, v: real)
    requires Fits(pin, K, s) && BiasesFor(b, K) && oc < K.shape[0]
    requires oh < OutHeight(pin, K.shape[2], s) && ow < OutWidth(pin, K.shape[2], s)
    requires q == Cell3(oc, oh, ow, OutHeight(pin, K.shape[2], s), OutWidth(pin, K.shape[2], s))
    requires FilledBefore(r, OutputOrder(pin, K, b, s), q)
    requires InWindow(pin, K.shape[2], s, oh, ow)
    requires v == Window(pin, K, s, oc, oh, ow) + b.data[oc]
    ensures q < |r| && FilledBefore(r[q := v], OutputOrder(pin, K, b, s), q + 1)
  {
    var oH, oW := OutHeight(pin, K.shape[2], s), OutWidth(pin, K.shape[2], s);
    Stack3At(OutputCube(pin, K, b, s), oH, oW, oc, oh, ow);
    FilledStep(r, OutputOrder(pin, K, b, s), q, v);
  }

  /** The innermost output loop, over ow for one (oc, oh): it writes the oW outputs of
      that row from position q0 = (oc * oH + oh) * oW on. */
  method OutputRow(pin: Tensor, K: Tensor, b: Tensor, s: nat, oc: nat, oh: nat, q0: nat, out0: Tensor)
    returns (out: Tensor)
    requires Fits(pin, K, s) && BiasesFor(b, K) && oc < K.shape[0]
    requires oh < OutHeight(pin, K.shape[2], s)
    requires IsRank3(out0) && out0.shape == [K.shape[0], OutHeight(pin, K.shape[2], s), OutWidth(pin, K.shape[2], s)]
    requires q0 == Cell3(oc, oh, 0, OutHeight(pin, K.shape[2], s), OutWidth(pin, K.shape[2], s))
    requires FilledBefore(out0.data, OutputOrder(pin, K, b, s), q0)
    requires q0 + OutWidth(pin, K.shape[2], s) <= |out0.data|
    ensures IsRank3(out) && out.shape == out0.shape
    ensures FilledBefore(out.data, OutputOrder(pin, K, b, s), q0 + OutWidth(pin, K.shape[2], s))
  {
    var oH, oW := OutHeight(pin, K.shape[2], s), OutWidth(pin, K.shape[2], s);
    out := out0;
    for ow := 0 to oW
      invariant IsRank3(out) && out.shape == out0.shape && FilledBefore(out.data, OutputOrder(pin, K, b, s), q0 + ow)
    {
      WindowInside(pin, K.shape[2], s, oh, ow);
      var sum := WindowSum(pin, K, s, oc, oh, ow);
      var bias := Get1(b, oc);
      OutputStep(pin, K, b, s, oc, oh, ow, q0 + ow, out.data, sum + bias);
      out := Set3(out, oc, oh, ow, sum + bias);
    }
  }

  /** The outer three loops of forward: output({oc, oh, ow}) = sum + biases({oc}). */
  method Convolve(pin: Tensor, K: Tensor, b: Tensor, s: nat) returns (out: Tensor)
    requires Fits(pin, K, s) && BiasesFor(b, K)
    ensures out == Convolution(pin, K, b, s)
  {
    var OC, k := K.shape[0], K.shape[2];
    var oH, oW := OutHeight(pin, k, s), OutWidth(pin, k, s);
    ghost var spec := OutputOrder(pin, K, b, s);
    out := New([OC, oH, oW]);
    Product3([OC, oH, oW]);
    var q: nat := 0;
    for oc := 0 to OC
      invariant IsRank3(out) && out.shape == [OC, oH, oW] && q == Cell3(oc, 0, 0, oH, oW) && FilledBefore(out.data, spec, q)
    {
      for oh := 0 to oH
        invariant IsRank3(out) && out.shape == [OC, oH, oW] && q == Cell3(oc, oh, 0, oH, oW) && FilledBefore(out.data, spec, q)
      {
        if oW > 0 {
          CellBound(oc, oh, oW - 1, OC, oH, oW);
        }
        out := OutputRow(pin, K, b, s, oc, oh, q, out);
        q := q + oW;
        NextRow(oc, oh, oH, oW);
      }
      NextPlane(oc, oH, oW);
    }
    AllPlanes(OC, oH, oW);
    assert out.data == spec;
  }

  // ---------------------------------------------------------------------
  // Properties of the forward pass

  /** Zero kernels give a zero kernel sequence for every output channel. */
  lemma TapsZero(K: Tensor, oc: nat)
    requires Kernels(K) && oc < K.shape[0]
    requires forall i :: 0 <= i < |K.data| ==> K.data[i] == 0.0
    ensures forall q :: 0 <= q < |Taps(K, oc)| ==> Taps(K, oc)[q] == 0.0
  {
    var cube := TapsCube(K, oc);
    forall ic, kh, kw | 0 <= ic < |cube| && 0 <= kh < |cube[ic]| && 0 <= kw < |cube[ic][kh]|
      ensures cube[ic][kh][kw] == 0.0
    {
      assert cube[ic][kh][kw] == At4(K, oc, ic, kh, kw);
      Rank4Bound(K.shape, oc, ic, kh, kw);
    }
    Stack3All(cube, 0.0);
  }

  /** With all kernels zero every output element is its channel's bias. */
  lemma ZeroKernels(pin: Tensor, K: Tensor, b: Tensor, s: nat, oc: nat, oh: nat, ow: nat)
    requires Fits(pin, K, s) && BiasesFor(b, K) && oc < K.shape[0]
    requires oh < OutHeight(pin, K.shape[2], s) && ow < OutWidth(pin, K.shape[2], s)
    requires forall i :: 0 <= i < |K.data| ==> K.data[i] == 0.0
    ensures At3(Convolution(pin, K, b, s), oc, oh, ow) == b.data[oc]
  {
    var k := K.shape[2];
    WindowInside(pin, k, s, oh, ow);
    TapsZero(K, oc);
    InnerZero(Patch(pin, k, s, oh, ow), Taps(K, oc));
    ConvolutionAt(pin, K, b, s, oc, oh, ow);
  }

  /** The channels of the input at pixel (h, w). */
  function PixelChannels(t: Tensor, h: nat, w: nat): (r: seq<real>)
    requires IsRank3(t) && h < t.shape[1] && w < t.shape[2]
    ensures |r| == t.shape[0] && forall c :: 0 <= c < |r| ==> r[c] == At3(t, c, h, w)
  {
    seq(t.shape[0], c requires 0 <= c < t.shape[0] => At3(t, c, h, w))
  }

  /** The 1 x 1 kernel of output channel oc: one weight per input channel. */
  function CentreTaps(K: Tensor, oc: nat): (r: seq<real>)
    requires Kernels(K) && K.shape[2] >= 1 && oc < K.shape[0]
    ensures |r| == K.shape[1] && forall ic :: 0 <= ic < |r| ==> r[ic] == At4(K, oc, ic, 0, 0)
  {
    seq(K.shape[1], ic requires 0 <= ic < K.shape[1] => At4(K, oc, ic, 0, 0))
  }

  /** A 1 x 1 kernel with stride 1 keeps the spatial size and mixes the channels of
      each pixel independently: output (oc, h, w) is the inner product of the pixel's
      channels with the weights of channel oc. */
  lemma PointwiseConvolution(pin: Tensor, K: Tensor, oc: nat, h: nat, w: nat)
    requires Fits(pin, K, 1) && K.shape[2] == 1 && oc < K.shape[0]
    requires h < pin.shape[1] && w < pin.shape[2]
    ensures OutHeight(pin, 1, 1) == pin.shape[1] && OutWidth(pin, 1, 1) == pin.shape[2]
    ensures InWindow(pin, 1, 1, h, w)
    ensures Window(pin, K, 1, oc, h, w) == Inner(PixelChannels(pin, h, w), CentreTaps(K, oc))
  {
    UnitStride(pin.shape[1], 1);
    UnitStride(pin.shape[2], 1);
    var patch, taps := Patch(pin, 1, 1, h, w), Taps(K, oc);
    var pixel, centre := PixelChannels(pin, h, w), CentreTaps(K, oc);
    forall ic | 0 <= ic < pin.shape[0] ensures patch[ic] == pixel[ic] && taps[ic] == centre[ic] {
      WindowEntries(pin, K, 1, oc, h, w, ic, 0, 0);
      assert Cell3(ic, 0, 0, 1, 1) == ic;
    }
    assert patch == pixel && taps == centre;
  }

  // ---------------------------------------------------------------------
  // Backward: the bias gradient

  /** Plane oc of the output gradient in row-major order, the order of the loops
      over oh and ow. */
  function Plane(g: Tensor, oc: nat): (r: seq<real>)
    requires IsRank3(g) && oc < g.shape[0]
    ensures |r| == g.shape[1] * g.shape[2]
  {
    FlattenLength(CubeOf(g)[oc], g.shape[2]);
    Flatten(CubeOf(g)[oc])
  }

  lemma PlaneAt(g: Tensor, oc: nat, oh: nat, ow: nat, q: nat)
    requires IsRank3(g) && oc < g.shape[0] && oh < g.shape[1] && ow < g.shape[2]
    requires q == oh * g.shape[2] + ow
    ensures q < |Plane(g, oc)| && Plane(g, oc)[q] == At3(g, oc, oh, ow)
  {
    FlattenAt(CubeOf(g)[oc], g.shape[2], oh, ow);
  }

  /** grad_biases: entry oc is the sum of plane oc of the output gradient. */
  function BiasGradient(g: Tensor): (r: Tensor)
    requires IsRank3(g)
    ensures r.Valid() && r.shape == [g.shape[0]]
    ensures forall oc :: 0 <= oc < g.shape[0] ==> r.data[oc] == Sum(Plane(g, oc))
  {
    Product1([g.shape[0]]);
    Tensor([g.shape[0]], seq(g.shape[0], oc requires 0 <= oc < g.shape[0] => Sum(Plane(g, oc))))
  }

  lemma RowEnd(i: nat, n: nat)
    ensures i * n + n == (i + 1) * n
  {
  }

  /** The two inner loops of the bias gradient: sum += grad_output({oc, oh, ow}). */
  method PlaneSum(g: Tensor, oc: nat) returns (sum: real)
    requires IsRank3(g) && oc < g.shape[0]
    ensures sum == Sum(Plane(g, oc))
  {
    var H, W := g.shape[1], g.shape[2];
    ghost var plane := Plane(g, oc);
    sum := 0.0;
    var q: nat := 0;
    for oh := 0 to H
      invariant q == oh * W && q <= |plane| && sum == Sum(plane[..q])
    {
      for ow := 0 to W
        invariant q == oh * W + ow && q <= |plane| && sum == Sum(plane[..q])
      {
        var v := Get3(g, oc, oh, ow);
        PlaneAt(g, oc, oh, ow, q);
        SumStep(plane, q);
        sum := sum + v;
        q := q + 1;
      }
      RowEnd(oh, W);
    }
    assert plane[..q] == plane;
  }

  /** The first loop of backward: grad_biases({oc}) = the plane sum, for every oc. */
  method BiasGradients(g: Tensor) returns (gb: Tensor)
    requires IsRank3(g)
    ensures gb == BiasGradient(g)
  {
    var OC := g.shape[0];
    gb := New([OC]);
    Product1([OC]);
    for oc := 0 to OC
      invariant gb.Valid() && gb.shape == [OC] && |gb.data| == OC
      invariant forall i :: 0 <= i < oc ==> gb.data[i] == Sum(Plane(g, i))
    {
      var sum := PlaneSum(g, oc);
      gb := Set1(gb, oc, sum);
    }
    assert gb.data == BiasGradient(g).data;
  }

  /** The bias gradients together hold the whole output gradient: their sum is the
      sum of every element of grad_output. */
  lemma BiasGradientTotal(g: Tensor)
    requires IsRank3(g)
    ensures Sum(BiasGradient(g).data) == Sum(g.data)
  {
    var cube := CubeOf(g);
    var planes := seq(|cube|, c requires 0 <= c < |cube| => Flatten(cube[c]));
    CubeOfStacks(g);
    SumFlatten(planes);
    assert RowSums(planes) == BiasGradient(g).data;
  }

  // ---------------------------------------------------------------------
  // Backward: the kernel gradient

  /** An output gradient that backward can pair with the padded input: rank 3, and
      no larger in each spatial dimension than the forward output. */
  predicate GradFits(pin: Tensor, g: Tensor, k: nat, s: nat)
  {
    Slides(pin, k, s) && IsRank3(g) && g.shape[1] <= OutHeight(pin, k, s) && g.shape[2] <= OutWidth(pin, k, s)
  }

  /** The padded input elements that kernel position (ic, kh, kw) meets, one row per
      output gradient row oh and one element per column ow. */
  function TapRows(pin: Tensor, g: Tensor, k: nat, s: nat, ic: nat, kh: nat, kw: nat): (rows: seq<seq<real>>)
    requires GradFits(pin, g, k, s) && ic < pin.shape[0] && kh < k && kw < k
    ensures |rows| == g.shape[1] && Uniform(rows, g.shape[2])
  {
    seq(g.shape[1], oh requires 0 <= oh < g.shape[1] =>
      seq(g.shape[2], ow requires 0 <= ow < g.shape[2] =>
        WindowInside(pin, k, s, oh, ow);
        Tap(pin, k, s, ic, kh, kw, oh, ow)))
  }

  /** The same elements in row-major order. */
  function TapPlane(pin: Tensor, g: Tensor, k: nat, s: nat, ic: nat, kh: nat, kw: nat): (r: seq<real>)
    requires GradFits(pin, g, k, s) && ic < pin.shape[0] && kh < k && kw < k
    ensures |r| == g.shape[1] * g.shape[2]
  {
    FlattenLength(TapRows(pin, g, k, s, ic, kh, kw), g.shape[2]);
    Flatten(TapRows(pin, g, k, s, ic, kh, kw))
  }

  /** Position q = oh * width + ow of the tap plane is padded({ic, ih, iw}) with
      ih = oh * stride + kh and iw = ow * stride + kw, inside the padded input. */
  lemma TapPlaneAt(pin: Tensor, g: Tensor, k: nat, s: nat, ic: nat, kh: nat, kw: nat,
                   oh: nat, ow: nat, ih: nat, iw: nat, q: nat)
    requires GradFits(pin, g, k, s) && ic < pin.shape[0] && kh < k && kw < k
    requires oh < g.shape[1] && ow < g.shape[2]
    requires ih == Origin(oh, s) + kh && iw == Origin(ow, s) + kw && q == oh * g.shape[2] + ow
    ensures ih < pin.shape[1] && iw < pin.shape[2]
    ensures q < |TapPlane(pin, g, k, s, ic, kh, kw)| && TapPlane(pin, g, k, s, ic, kh, kw)[q] == At3(pin, ic, ih, iw)
  {
    WindowInside(pin, k, s, oh, ow);
    FlattenAt(TapRows(pin, g, k, s, ic, kh, kw), g.shape[2], oh, ow);
  }

  /** grad_kernels({oc, ic, kh, kw}): the sum over the output positions of the padded
      input element the forward pass multiplied by this kernel weight, times the
      output gradient there. */
  function KernelGradientCell(pin: Tensor, g: Tensor, k: nat, s: nat, oc: nat, ic: nat, kh: nat, kw: nat): real
    requires GradFits(pin, g, k, s) && oc < g.shape[0] && ic < pin.shape[0] && kh < k && kw < k
  {
    Inner(TapPlane(pin, g, k, s, ic, kh, kw), Plane(g, oc))
  }

  function GradientHyper(pin: Tensor, g: Tensor, k: nat, s: nat): (hyper: seq<seq<seq<seq<real>>>>)
    requires GradFits(pin, g, k, s)
    ensures |hyper| == g.shape[0] && Hypercubic(hyper, pin.shape[0], k, k)
  {
    var OC, IC := g.shape[0], pin.shape[0];
    seq(OC, oc requires 0 <= oc < OC =>
      seq(IC, ic requires 0 <= ic < IC =>
        seq(k, kh requires 0 <= kh < k =>
          seq(k, kw requires 0 <= kw < k => KernelGradientCell(pin, g, k, s, oc, ic, kh, kw)))))
  }

  /** grad_kernels, of shape (output_channels, input_channels, k, k). */
  function KernelGradient(pin: Tensor, g: Tensor, k: nat, s: nat): (r: Tensor)
    requires GradFits(pin, g, k, s)
    ensures IsRank4(r) && r.shape == [g.shape[0], pin.shape[0], k, k]
  {
    FromHyper(GradientHyper(pin, g, k, s), pin.shape[0], k, k)
  }

  lemma KernelGradientAt(pin: Tensor, g: Tensor, k: nat, s: nat, oc: nat, ic: nat, kh: nat, kw: nat)
    requires GradFits(pin, g, k, s) && oc < g.shape[0] && ic < pin.shape[0] && kh < k && kw < k
    ensures At4(KernelGradient(pin, g, k, s), oc, ic, kh, kw) == KernelGradientCell(pin, g, k, s, oc, ic, kh, kw)
  {
    FromHyperAt(GradientHyper(pin, g, k, s), pin.shape[0], k, k, oc, ic, kh, kw);
  }

  /** The two innermost loops of the kernel gradient:
      sum += padded_input({ic, ih, iw}) * grad_output({oc, oh, ow}). */
  method TapSum(pin: Tensor, g: Tensor, k: nat, s: nat, oc: nat, ic: nat, kh: nat, kw: nat) returns (sum: real)
    requires GradFits(pin, g, k, s) && oc < g.shape[0] && ic < pin.shape[0] && kh < k && kw < k
    ensures sum == KernelGradientCell(pin, g, k, s, oc, ic, kh, kw)
  {
    var H, W := g.shape[1], g.shape[2];
    ghost var taps := TapPlane(pin, g, k, s, ic, kh, kw);
    ghost var plane := Plane(g, oc);
    sum := 0.0;
    var q: nat := 0;
    for oh := 0 to H
      invariant q == oh * W && q <= |plane| && sum == Inner(taps[..q], plane[..q])
    {
      var ih := Origin(oh, s) + kh;
      for ow := 0 to W
        invariant q == oh * W + ow && q <= |plane| && sum == Inner(taps[..q], plane[..q])
      {
        var iw := Origin(ow, s) + kw;
        TapPlaneAt(pin, g, k, s, ic, kh, kw, oh, ow, ih, iw, q);
        PlaneAt(g, oc, oh, ow, q);
        var a := Get3(pin, ic, ih, iw);
        var b := Get3(g, oc, oh, ow);
        InnerExtend(taps, plane, q, sum, a, b);
        sum := sum + a * b;
        q := q + 1;
      }
      RowEnd(oh, W);
    }
    assert taps[..q] == taps && plane[..q] == plane;
  }

  /** Writing entry (oc, ic, kh, kw) at its row-major position extends the written prefix. */
  lemma KernelGradientStep(pin: Tensor, g: Tensor, k: nat, s: nat, oc: nat, ic: nat, kh: nat, kw: nat,
                           r: seq<real>, v: real)
    requires GradFits(pin, g, k, s) && oc < g.shape[0] && ic < pin.shape[0] && kh < k && kw < k
    requires FilledBefore(r, KernelGradient(pin, g, k, s).data, Cell4(oc, ic, kh, kw, pin.shape[0], k, k))
    requires v == KernelGradientCell(pin, g, k, s, oc, ic, kh, kw)
    ensures Cell4(oc, ic, kh, kw, pin.shape[0], k, k) < |r|
    ensures FilledBefore(r[Cell4(oc, ic, kh, kw, pin.shape[0], k, k) := v], KernelGradient(pin, g, k, s).data,
                         Cell4(oc, ic, kh, kw + 1, pin.shape[0], k, k))
  {
    var q := Cell4(oc, ic, kh, kw, pin.shape[0], k, k);
    Stack4At(GradientHyper(pin, g, k, s), pin.shape[0], k, k, oc, ic, kh, kw, q);
    FilledStep(r, KernelGradient(pin, g, k, s).data, q, v);
  }

  /** The loops over kh and kw for one (oc, ic): grad_kernels({oc, ic, kh, kw}) = sum. */
  method KernelGradientPlane(pin: Tensor, g: Tensor, k: nat, s: nat, oc: nat, ic: nat, gk0: Tensor)
    returns (gk: Tensor)
    requires GradFits(pin, g, k, s) && oc < g.shape[0] && ic < pin.shape[0]
    requires IsRank4(gk0) && gk0.shape == [g.shape[0], pin.shape[0], k, k]
    requires FilledBefore(gk0.data, KernelGradient(pin, g, k, s).data, Cell4(oc, ic, 0, 0, pin.shape[0], k, k))
    ensures IsRank4(gk) && gk.shape == gk0.shape
    ensures FilledBefore(gk.data, KernelGradient(pin, g, k, s).data, Cell4(oc, ic + 1, 0, 0, pin.shape[0], k, k))
  {
    ghost var spec := KernelGradient(pin, g, k, s).data;
    var IC := pin.shape[0];
    gk := gk0;
    for kh := 0 to k
      invariant IsRank4(gk) && gk.shape == gk0.shape && FilledBefore(gk.data, spec, Cell4(oc, ic, kh, 0, IC, k, k))
    {
      for kw := 0 to k
        invariant IsRank4(gk) && gk.shape == gk0.shape && FilledBefore(gk.data, spec, Cell4(oc, ic, kh, kw, IC, k, k))
      {
        var sum := TapSum(pin, g, k, s, oc, ic, kh, kw);
        KernelGradientStep(pin, g, k, s, oc, ic, kh, kw, gk.data, sum);
        gk := Set4(gk, oc, ic, kh, kw, sum);
      }
      Cell4Row(oc, ic, kh, IC, k, k);
    }
    Cell4Plane(oc, ic, IC, k, k);
  }

  /** The second group of loops of backward: grad_kernels for every (oc, ic, kh, kw). */
  method KernelGradients(pin: Tensor, g: Tensor, k: nat, s: nat) returns (gk: Tensor)
    requires GradFits(pin, g, k, s)
    ensures gk == KernelGradient(pin, g, k, s)
  {
    ghost var spec := KernelGradient(pin, g, k, s).data;
    var OC, IC := g.shape[0], pin.shape[0];
    gk := New([OC, IC, k, k]);
    Product4([OC, IC, k, k]);
    for oc := 0 to OC
      invariant IsRank4(gk) && gk.shape == [OC, IC, k, k] && FilledBefore(gk.data, spec, Cell4(oc, 0, 0, 0, IC, k, k))
    {
      for ic := 0 to IC
        invariant IsRank4(gk) && gk.shape == [OC, IC, k, k] && FilledBefore(gk.data, spec, Cell4(oc, ic, 0, 0, IC, k, k))
      {
        gk := KernelGradientPlane(pin, g, k, s, oc, ic, gk);
      }
      Cell4Block(oc, IC, k, k);
    }
    Cell4All(OC, IC, k, k);
    assert gk.data == spec;
  }

  // ---------------------------------------------------------------------
  // backward: the parameter update

  /** kernels({oc, ic, kh, kw}) -= learning_rate * grad_kernels({oc, ic, kh, kw}) at entry
      (oc, ic, kh, kw) extends the updated prefix by one position. */
  lemma KernelUpdateStep(K: Tensor, gk: Tensor, rate: real, r: Tensor, oc: nat, ic: nat, kh: nat, kw: nat, x: real, d: real)
    requires IsRank4(K) && IsRank4(gk) && gk.shape == K.shape && IsRank4(r) && r.shape == K.shape
    requires oc < K.shape[0] && ic < K.shape[1] && kh < K.shape[2] && kw < K.shape[3]
    requires UpdatedBefore(r.data, ScaledDifference(K, gk, rate).data, K.data,
                           Cell4(oc, ic, kh, kw, K.shape[1], K.shape[2], K.shape[3]))
    requires x == At4(r, oc, ic, kh, kw) && d == At4(gk, oc, ic, kh, kw)
    ensures Cell4(oc, ic, kh, kw, K.shape[1], K.shape[2], K.shape[3]) < |r.data|
    ensures UpdatedBefore(r.data[Cell4(oc, ic, kh, kw, K.shape[1], K.shape[2], K.shape[3]) := x - rate * d],
                          ScaledDifference(K, gk, rate).data, K.data,
                          Cell4(oc, ic, kh, kw + 1, K.shape[1], K.shape[2], K.shape[3]))
  {
    var q := Cell4(oc, ic, kh, kw, K.shape[1], K.shape[2], K.shape[3]);
    Rank4Bound(K.shape, oc, ic, kh, kw);
    ProductOfEquals(rate, d, rate, gk.data[q]);
    UpdatedStep(r.data, ScaledDifference(K, gk, rate).data, K.data, q, x - rate * d);
  }

  /** The loop over kw of the update for one (oc, ic, kh). */
  method KernelUpdateRow(K: Tensor, gk: Tensor, rate: real, oc: nat, ic: nat, kh: nat, r0: Tensor) returns (r: Tensor)
    requires IsRank4(K) && IsRank4(gk) && gk.shape == K.shape && IsRank4(r0) && r0.shape == K.shape
    requires oc < K.shape[0] && ic < K.shape[1] && kh < K.shape[2]
    requires UpdatedBefore(r0.data, ScaledDifference(K, gk, rate).data, K.data,
                           Cell4(oc, ic, kh, 0, K.shape[1], K.shape[2], K.shape[3]))
    ensures IsRank4(r) && r.shape == K.shape
    ensures UpdatedBefore(r.data, ScaledDifference(K, gk, rate).data, K.data,
                          Cell4(oc, ic, kh + 1, 0, K.shape[1], K.shape[2], K.shape[3]))
  {
    ghost var spec := ScaledDifference(K, gk, rate).data;
    var B, C, D := K.shape[1], K.shape[2], K.shape[3];
    r := r0;
    for kw := 0 to D
      invariant IsRank4(r) && r.shape == K.shape && UpdatedBefore(r.data, spec, K.data, Cell4(oc, ic, kh, kw, B, C, D))
    {
      var x := Get4(r, oc, ic, kh, kw);
      var d := Get4(gk, oc, ic, kh, kw);
      KernelUpdateStep(K, gk, rate, r, oc, ic, kh, kw, x, d);
      r := Set4(r, oc, ic, kh, kw, x - rate * d);
    }
    Cell4Row(oc, ic, kh, B, C, D);
  }

  /** The loop over kh of the update for one (oc, ic). */
  method KernelUpdatePlane(K: Tensor, gk: Tensor, rate: real, oc: nat, ic: nat, r0: Tensor) returns (r: Tensor)
    requires IsRank4(K) && IsRank4(gk) && gk.shape == K.shape && IsRank4(r0) && r0.shape == K.shape
    requires oc < K.shape[0] && ic < K.shape[1]
    requires UpdatedBefore(r0.data, ScaledDifference(K, gk, rate).data, K.data,
                           Cell4(oc, ic, 0, 0, K.shape[1], K.shape[2], K.shape[3]))
    ensures IsRank4(r) && r.shape == K.shape
    ensures UpdatedBefore(r.data, ScaledDifference(K, gk, rate).data, K.data,
                          Cell4(oc, ic + 1, 0, 0, K.shape[1], K.shape[2], K.shape[3]))
  {
    ghost var spec := ScaledDifference(K, gk, rate).data;
    var B, C, D := K.shape[1], K.shape[2], K.shape[3];
    r := r0;
    for kh := 0 to C
      invariant IsRank4(r) && r.shape == K.shape && UpdatedBefore(r.data, spec, K.data, Cell4(oc, ic, kh, 0, B, C, D))
    {
      r := KernelUpdateRow(K, gk, rate, oc, ic, kh, r);
    }
    Cell4Plane(oc, ic, B, C, D);
  }

  /** The loops over oc and ic of the kernel update: every kernel entry moves by
      -learning_rate times its gradient. */
  method KernelUpdate(K: Tensor, gk: Tensor, rate: real) returns (newK: Tensor)
    requires IsRank4(K) && IsRank4(gk) && gk.shape == K.shape
    ensures newK == ScaledDifference(K, gk, rate)
  {
    ghost var spec := ScaledDifference(K, gk, rate).data;
    var OC, B, C, D := K.shape[0], K.shape[1], K.shape[2], K.shape[3];
    newK := K;
    for oc := 0 to OC
      invariant IsRank4(newK) && newK.shape == K.shape && UpdatedBefore(newK.data, spec, K.data, Cell4(oc, 0, 0, 0, B, C, D))
    {
      for ic := 0 to B
        invariant IsRank4(newK) && newK.shape == K.shape && UpdatedBefore(newK.data, spec, K.data, Cell4(oc, ic, 0, 0, B, C, D))
      {
        newK := KernelUpdatePlane(K, gk, rate, oc, ic, newK);
      }
      Cell4Block(oc, B, C, D);
    }
    Cell4All(OC, B, C, D);
    Product4(K.shape);
    assert newK.data == spec;
  }

  /** The bias update inside the loop over oc: bias oc moves by -learning_rate times
      its gradient. */
  method BiasUpdate(K: Tensor, b: Tensor, gb: Tensor, rate: real) returns (newB: Tensor)
    requires IsRank4(K) && BiasesFor(b, K) && BiasesFor(gb, K)
    ensures newB == ScaledDifference(b, gb, rate)
  {
    ghost var bspec := ScaledDifference(b, gb, rate).data;
    newB := b;
    for oc := 0 to K.shape[0]
      invariant newB.shape == b.shape && UpdatedBefore(newB.data, bspec, b.data, oc)
    {
      var x := Get1(newB, oc);
      var d := Get1(gb, oc);
      UpdatedStep(newB.data, bspec, b.data, oc, x - rate * d);
      newB := Set1(newB, oc, x - rate * d);
    }
    assert newB.data == bspec;
  }

  /** The third group of loops of backward.  In the source one loop over oc updates the
      kernels of oc and then bias oc; they touch disjoint tensors, so the model runs the
      kernel loops first and the bias loop after. */
  method UpdateParameters(K: Tensor, b: Tensor, gk: Tensor, gb: Tensor, rate: real)
    returns (newK: Tensor, newB: Tensor)
    requires IsRank4(K) && IsRank4(gk) && gk.shape == K.shape
    requires BiasesFor(b, K) && BiasesFor(gb, K)
    ensures newK == ScaledDifference(K, gk, rate)
    ensures newB == ScaledDifference(b, gb, rate)
  {
    newK := KernelUpdate(K, gk, rate);
    newB := BiasUpdate(K, b, gb, rate);
  }

  // ---------------------------------------------------------------------
  // backward: the input gradient

  /** What the input-gradient loops read: the kernels, grad_output, the stride, the
      amount shift by which a padded row or column is taken back to the input, and the
      input's dimensions C x H x W. */
  datatype Scatter = Scatter(K: Tensor, g: Tensor, s: nat, shift: nat, C: nat, H: nat, W: nat)
  {
    predicate Valid()
    {
      Kernels(K) && IsRank3(g) && g.shape[0] == K.shape[0] && K.shape[1] == C
    }

    /** (oc, oh, ow) is a position of grad_output. */
    predicate Reaches(oc: nat, oh: nat, ow: nat)
    {
      Valid() && oc < g.shape[0] && oh < g.shape[1] && ow < g.shape[2]
    }

    /** Padded row ih and column iw, taken back by shift, fall inside the input. */
    predicate Inside(ih: nat, iw: nat)
    {
      shift <= ih < H + shift && shift <= iw < W + shift
    }
  }

  /** Where a contribution for padded position (ic, ih, iw) goes in the C x H x W input
      gradient: its row-major position after taking ih and iw back by shift, or C * H * W,
      one past the end, where scattering drops it. */
  function Target(sc: Scatter, ic: nat, ih: nat, iw: nat): nat
    requires ic < sc.C
  {
    if sc.Inside(ih, iw) then Cell3(ic, ih - sc.shift, iw - sc.shift, sc.H, sc.W) else sc.C * sc.H * sc.W
  }

  /** A contribution lands in the input gradient exactly when its position is inside. */
  lemma TargetInside(sc: Scatter, ic: nat, ih: nat, iw: nat)
    requires ic < sc.C
    ensures Target(sc, ic, ih, iw) < sc.C * sc.H * sc.W <==> sc.Inside(ih, iw)
  {
    if sc.Inside(ih, iw) {
      CellBound(ic, ih - sc.shift, iw - sc.shift, sc.C, sc.H, sc.W);
    }
  }

  /** kernels({oc, ic, kh, kw}) * grad_output({oc, oh, ow}), aimed at padded position
      (ic, oh * stride + kh, ow * stride + kw). */
  function InputContribution(sc: Scatter, oc: nat, oh: nat, ow: nat, ic: nat, kh: nat, kw: nat): Contribution
    requires sc.Reaches(oc, oh, ow) && ic < sc.C && kh < sc.K.shape[2] && kw < sc.K.shape[2]
  {
    Contribution(Target(sc, ic, Origin(oh, sc.s) + kh, Origin(ow, sc.s) + kw),
                 At4(sc.K, oc, ic, kh, kw) * At3(sc.g, oc, oh, ow))
  }


  /** The contributions of the innermost loop, over kw. */
  function RowContributions(sc: Scatter, oc: nat, oh: nat, ow: nat, ic: nat, kh: nat): (r: seq<Contribution>)
    requires sc.Reaches(oc, oh, ow) && ic < sc.C && kh < sc.K.shape[2]
    ensures |r| == sc.K.shape[2]
  {
    seq(sc.K.shape[2], kw requires 0 <= kw < sc.K.shape[2] => InputContribution(sc, oc, oh, ow, ic, kh, kw))
  }

  /** The loop over kh, one row of contributions per kernel row. */
  function ChannelContributions(sc: Scatter, oc: nat, oh: nat, ow: nat, ic: nat): (r: seq<seq<Contribution>>)
    requires sc.Reaches(oc, oh, ow) && ic < sc.C
    ensures |r| == sc.K.shape[2]
  {
    seq(sc.K.shape[2], kh requires 0 <= kh < sc.K.shape[2] => RowContributions(sc, oc, oh, ow, ic, kh))
  }

  /** The loop over ic: everything output (oc, oh, ow) contributes. */
  function WindowContributions(sc: Scatter, oc: nat, oh: nat, ow: nat): (r: seq<seq<Contribution>>)
    requires sc.Reaches(oc, oh, ow)
    ensures |r| == sc.C
  {
    seq(sc.C, ic requires 0 <= ic < sc.C => Flatten(ChannelContributions(sc, oc, oh, ow, ic)))
  }

  /** The loop over ow for output row oh of channel oc. */
  function LineContributions(sc: Scatter, oc: nat, oh: nat): (r: seq<seq<Contribution>>)
    requires sc.Valid() && oc < sc.g.shape[0] && oh < sc.g.shape[1]
    ensures |r| == sc.g.shape[2]
  {
    seq(sc.g.shape[2], ow requires 0 <= ow < sc.g.shape[2] => Flatten(WindowContributions(sc, oc, oh, ow)))
  }

  /** The loop over oh for output channel oc. */
  function PlaneContributions(sc: Scatter, oc: nat): (r: seq<seq<Contribution>>)
    requires sc.Valid() && oc < sc.g.shape[0]
    ensures |r| == sc.g.shape[1]
  {
    seq(sc.g.shape[1], oh requires 0 <= oh < sc.g.shape[1] => Flatten(LineContributions(sc, oc, oh)))
  }

  /** Every contribution, in the order of the six loops over oc, oh, ow, ic, kh, kw. */
  function AllContributions(sc: Scatter): seq<Contribution>
    requires sc.Valid()
  {
    Flatten(seq(sc.g.shape[0], oc requires 0 <= oc < sc.g.shape[0] => Flatten(PlaneContributions(sc, oc))))
  }

  /** grad_input: a zero C x H x W tensor with every contribution added at its target. */
  function InputGradient(sc: Scatter): (r: Tensor)
    requires sc.Valid()
    ensures IsRank3(r) && r.shape == [sc.C, sc.H, sc.W]
  {
    Tensor([sc.C, sc.H, sc.W], ScatterAdd(Zeros([sc.C, sc.H, sc.W]).data, AllContributions(sc)))
  }

  /** Each element of grad_input is the total of the contributions aimed at it. */
  lemma InputGradientAt(sc: Scatter, q: nat)
    requires sc.Valid() && q < sc.C * sc.H * sc.W
    ensures q < |InputGradient(sc).data|
    ensures InputGradient(sc).data[q] == Gathered(AllContributions(sc), q)
  {
    Product3([sc.C, sc.H, sc.W]);
    ScatterAddAt(Zeros([sc.C, sc.H, sc.W]).data, AllContributions(sc), q);
  }

  /** One step of the loop over kw: adding contribution kw to the scatter of the
      first kw contributions gives the scatter of the first kw + 1. */
  lemma RowStep(sc: Scatter, oc: nat, oh: nat, ow: nat, ic: nat, kh: nat, kw: nat, ih: nat, iw: nat,
                w: real, d: real, a0: seq<real>, before: seq<real>, after: seq<real>)
    requires sc.Reaches(oc, oh, ow) && ic < sc.C && kh < sc.K.shape[2] && kw < sc.K.shape[2]
    requires ih == Origin(oh, sc.s) + kh && iw == Origin(ow, sc.s) + kw
    requires w == At4(sc.K, oc, ic, kh, kw) && d == At3(sc.g, oc, oh, ow)
    requires before == ScatterAdd(a0, RowContributions(sc, oc, oh, ow, ic, kh)[..kw])
    requires after == AddAt(before, Contribution(Target(sc, ic, ih, iw), w * d))
    ensures after == ScatterAdd(a0, RowContributions(sc, oc, oh, ow, ic, kh)[..kw + 1])
  {
    var row := RowContributions(sc, oc, oh, ow, ic, kh);
    ProductOfEquals(w, d, At4(sc.K, oc, ic, kh, kw), At3(sc.g, oc, oh, ow));
    assert row[kw] == Contribution(Target(sc, ic, ih, iw), w * d);
    ScatterAddLast(a0, row, kw);
  }

  /** The guarded update of the innermost loop: when padded position (ih, iw) lies
      inside, grad_input({ic, ih - shift, iw - shift}) += v; otherwise nothing.
      Either way the accumulator becomes AddAt with the contribution aimed there. */
  method AddContribution(sc: Scatter, acc0: Tensor, ic: nat, ih: nat, iw: nat, v: real) returns (acc: Tensor)
    requires ic < sc.C && IsRank3(acc0) && acc0.shape == [sc.C, sc.H, sc.W]
    ensures acc.shape == acc0.shape && acc.data == AddAt(acc0.data, Contribution(Target(sc, ic, ih, iw), v))
  {
    TargetInside(sc, ic, ih, iw);
    Product3(acc0.shape);
    if sc.shift <= ih < sc.H + sc.shift && sc.shift <= iw < sc.W + sc.shift {
      ghost var q := Cell3(ic, ih - sc.shift, iw - sc.shift, sc.H, sc.W);
      assert Target(sc, ic, ih, iw) == q;
      var cur := Get3(acc0, ic, ih - sc.shift, iw - sc.shift);
      assert cur == acc0.data[q];
      acc := Set3(acc0, ic, ih - sc.shift, iw - sc.shift, cur + v);
    } else {
      acc := acc0;
    }
  }

  /** The innermost loop of the input gradient, over kw: each step adds
      kernels({oc, ic, kh, kw}) * grad_output({oc, oh, ow}) at padded position
      (oh * stride + kh, ow * stride + kw). */
  method SpreadRow(sc: Scatter, oc: nat, oh: nat, ow: nat, ic: nat, kh: nat, acc0: Tensor) returns (acc: Tensor)
    requires sc.Reaches(oc, oh, ow) && ic < sc.C && kh < sc.K.shape[2]
    requires IsRank3(acc0) && acc0.shape == [sc.C, sc.H, sc.W]
    ensures acc.shape == acc0.shape && acc.data == ScatterAdd(acc0.data, RowContributions(sc, oc, oh, ow, ic, kh))
  {
    ghost var row := RowContributions(sc, oc, oh, ow, ic, kh);
    acc := acc0;
    for kw := 0 to sc.K.shape[2]
      invariant acc.shape == acc0.shape && acc.data == ScatterAdd(acc0.data, row[..kw])
    {
      var ih := Origin(oh, sc.s) + kh;
      var iw := Origin(ow, sc.s) + kw;
      var w := Get4(sc.K, oc, ic, kh, kw);
      var d := Get3(sc.g, oc, oh, ow);
      ghost var before := acc.data;
      acc := AddContribution(sc, acc, ic, ih, iw, w * d);
      RowStep(sc, oc, oh, ow, ic, kh, kw, ih, iw, w, d, acc0.data, before, acc.data);
    }
    assert row[..sc.K.shape[2]] == row;
  }

  /** The loop over kh. */
  method SpreadChannel(sc: Scatter, oc: nat, oh: nat, ow: nat, ic: nat, acc0: Tensor) returns (acc: Tensor)
    requires sc.Reaches(oc, oh, ow) && ic < sc.C
    requires IsRank3(acc0) && acc0.shape == [sc.C, sc.H, sc.W]
    ensures acc.shape == acc0.shape
    ensures acc.data == ScatterAdd(acc0.data, Flatten(ChannelContributions(sc, oc, oh, ow, ic)))
  {
    ghost var rows := ChannelContributions(sc, oc, oh, ow, ic);
    acc := acc0;
    for kh := 0 to sc.K.shape[2]
      invariant acc.shape == acc0.shape && acc.data == ScatterAdd(acc0.data, Flatten(rows[..kh]))
    {
      acc := SpreadRow(sc, oc, oh, ow, ic, kh, acc);
      ScatterAddNext(acc0.data, rows, kh);
    }
    assert rows[..sc.K.shape[2]] == rows;
  }

  /** The loop over ic: everything output (oc, oh, ow) contributes. */
  method SpreadWindow(sc: Scatter, oc: nat, oh: nat, ow: nat, acc0: Tensor) returns (acc: Tensor)
    requires sc.Reaches(oc, oh, ow)
    requires IsRank3(acc0) && acc0.shape == [sc.C, sc.H, sc.W]
    ensures acc.shape == acc0.shape
    ensures acc.data == ScatterAdd(acc0.data, Flatten(WindowContributions(sc, oc, oh, ow)))
  {
    ghost var rows := WindowContributions(sc, oc, oh, ow);
    acc := acc0;
    for ic := 0 to sc.C
      invariant acc.shape == acc0.shape && acc.data == ScatterAdd(acc0.data, Flatten(rows[..ic]))
    {
      acc := SpreadChannel(sc, oc, oh, ow, ic, acc);
      ScatterAddNext(acc0.data, rows, ic);
    }
    assert rows[..sc.C] == rows;
  }

  /** The loop over ow. */
  method SpreadLine(sc: Scatter, oc: nat, oh: nat, acc0: Tensor) returns (acc: Tensor)
    requires sc.Valid() && oc < sc.g.shape[0] && oh < sc.g.shape[1]
    requires IsRank3(acc0) && acc0.shape == [sc.C, sc.H, sc.W]
    ensures acc.shape == acc0.shape
    ensures acc.data == ScatterAdd(acc0.data, Flatten(LineContributions(sc, oc, oh)))
  {
    ghost var rows := LineContributions(sc, oc, oh);
    acc := acc0;
    for ow := 0 to sc.g.shape[2]
      invariant acc.shape == acc0.shape && acc.data == ScatterAdd(acc0.data, Flatten(rows[..ow]))
    {
      acc := SpreadWindow(sc, oc, oh, ow, acc);
      ScatterAddNext(acc0.data, rows, ow);
    }
    assert rows[..sc.g.shape[2]] == rows;
  }

  /** The loop over oh. */
  method SpreadPlane(sc: Scatter, oc: nat, acc0: Tensor) returns (acc: Tensor)
    requires sc.Valid() && oc < sc.g.shape[0]
    requires IsRank3(acc0) && acc0.shape == [sc.C, sc.H, sc.W]
    ensures acc.shape == acc0.shape
    ensures acc.data == ScatterAdd(acc0.data, Flatten(PlaneContributions(sc, oc)))
  {
    ghost var rows := PlaneContributions(sc, oc);
    acc := acc0;
    for oh := 0 to sc.g.shape[1]
      invariant acc.shape == acc0.shape && acc.data == ScatterAdd(acc0.data, Flatten(rows[..oh]))
    {
      acc := SpreadLine(sc, oc, oh, acc);
      ScatterAddNext(acc0.data, rows, oh);
    }
    assert rows[..sc.g.shape[1]] == rows;
  }

  /** The last group of loops of backward: grad_input starts at zero and receives every
      contribution, over oc, oh, ow, ic, kh and kw. */
  method InputGradients(sc: Scatter) returns (gi: Tensor)
    requires sc.Valid()
    ensures gi == InputGradient(sc)
  {
    ghost var rows := seq(sc.g.shape[0], oc requires 0 <= oc < sc.g.shape[0] => Flatten(PlaneContributions(sc, oc)));
    var zero := New([sc.C, sc.H, sc.W]);
    gi := zero;
    for oc := 0 to sc.g.shape[0]
      invariant gi.shape == zero.shape && gi.data == ScatterAdd(zero.data, Flatten(rows[..oc]))
    {
      gi := SpreadPlane(sc, oc, gi);
      ScatterAddNext(zero.data, rows, oc);
    }
    assert rows[..sc.g.shape[0]] == rows;
  }

  // ---------------------------------------------------------------------
  // Properties of the input gradient

  /** With the shift equal to the padding, every contribution goes back to the input
      element that forward read at its position: when padded position (ih, iw) lies in
      the centre, the contribution lands at input (ic, ih - padding, iw - padding) and
      the forward tap there was exactly that input element; when it lies in the border,
      the contribution is dropped and the forward tap was a padding zero. */
  lemma ContributionTargetsTap(x: Tensor, sc: Scatter, oc: nat, oh: nat, ow: nat, ic: nat, kh: nat, kw: nat)
    requires IsRank3(x) && sc.C == x.shape[0] && sc.H == x.shape[1] && sc.W == x.shape[2]
    requires sc.Reaches(oc, oh, ow) && ic < sc.C && kh < sc.K.shape[2] && kw < sc.K.shape[2]
    requires InWindow(Padded(x, sc.shift), sc.K.shape[2], sc.s, oh, ow)
    ensures var ih, iw := Origin(oh, sc.s) + kh, Origin(ow, sc.s) + kw;
      var target, tap := InputContribution(sc, oc, oh, ow, ic, kh, kw).target,
                         Tap(Padded(x, sc.shift), sc.K.shape[2], sc.s, ic, kh, kw, oh, ow);
      if sc.Inside(ih, iw) then
        target == Cell3(ic, ih - sc.shift, iw - sc.shift, sc.H, sc.W) < sc.C * sc.H * sc.W &&
        tap == At3(x, ic, ih - sc.shift, iw - sc.shift)
      else
        target == sc.C * sc.H * sc.W && tap == 0.0
  {
    var ih, iw := Origin(oh, sc.s) + kh, Origin(ow, sc.s) + kw;
    TargetInside(sc, ic, ih, iw);
    if sc.Inside(ih, iw) {
      PaddedCentre(x, sc.shift, ic, ih - sc.shift, iw - sc.shift);
    } else {
      PaddedBorder(x, sc.shift, ic, ih, iw);
    }
  }

  /** The scatter backward builds: the loops index grad_input with the padded
      coordinates themselves, under the guard ih < H && iw < W, which is a shift of 0
      whatever the padding. */
  function AsWrittenScatter(K: Tensor, g: Tensor, stride: nat, C: nat, H: nat, W: nat): (sc: Scatter)
    ensures sc.K == K && sc.g == g && sc.s == stride && sc.C == C && sc.H == H && sc.W == W && sc.shift == 0
    ensures forall ic: nat, ih: nat, iw: nat :: ic < C ==>
      Target(sc, ic, ih, iw) == (if ih < H && iw < W then Cell3(ic, ih, iw, H, W) else C * H * W)
  {
    Scatter(K, g, stride, 0, C, H, W)
  }

  /** The scatter that inverts the padding of forward: shift equal to the padding. */
  function CorrectedScatter(K: Tensor, g: Tensor, stride: nat, padding: nat, C: nat, H: nat, W: nat): (sc: Scatter)
    ensures sc.K == K && sc.g == g && sc.s == stride && sc.C == C && sc.H == H && sc.W == W && sc.shift == padding
    ensures forall ic: nat, ih: nat, iw: nat :: ic < C ==>
      Target(sc, ic, ih, iw) == (if padding <= ih < H + padding && padding <= iw < W + padding
                                 then Cell3(ic, ih - padding, iw - padding, H, W) else C * H * W)
  {
    Scatter(K, g, stride, padding, C, H, W)
  }

  /** The scatter as written misaims once the padding is positive.  A 1 x 1 x 1 input,
      one 1 x 1 kernel, stride 1 and padding 1 give a 3 x 3 output.  Output (0, 0)
      read a padding zero, yet its contribution lands on input (0, 0, 0); output
      (1, 1) read input (0, 0, 0), yet its contribution is dropped. */
  lemma AsWrittenMisaims()
    ensures var x, K, g := Tensor([1, 1, 1], [1.0]), Tensor([1, 1, 1, 1], [1.0]), Tensor([1, 3, 3], seq(9, _ => 1.0));
      var sc, pin := AsWrittenScatter(K, g, 1, 1, 1, 1), Padded(x, 1);
      sc.Reaches(0, 0, 0) && sc.Reaches(0, 1, 1) && InWindow(pin, 1, 1, 0, 0) && InWindow(pin, 1, 1, 1, 1) &&
      Tap(pin, 1, 1, 0, 0, 0, 0, 0) == 0.0 && InputContribution(sc, 0, 0, 0, 0, 0, 0).target == 0 &&
      Tap(pin, 1, 1, 0, 0, 0, 1, 1) == At3(x, 0, 0, 0) && InputContribution(sc, 0, 1, 1, 0, 0, 0).target == 1
  {
    var x, K, g := Tensor([1, 1, 1], [1.0]), Tensor([1, 1, 1, 1], [1.0]), Tensor([1, 3, 3], seq(9, _ => 1.0));
    Product3(x.shape);
    Product3(g.shape);
    Product4(K.shape);
    PaddedBorder(x, 1, 0, 0, 0);
    PaddedCentre(x, 1, 0, 0, 0);
  }

  /** What the scatter as written does for every input and every padding p: the
      contribution of padded position (ih, iw) lands on input (ic, ih, iw) whenever
      ih < H and iw < W, while the tap forward read there was input
      (ic, ih - p, iw - p) in the centre and a padding zero in the border.  The two
      agree for p = 0 only. */
  lemma AsWrittenTargetsPaddedPosition(x: Tensor, p: nat, sc: Scatter, oc: nat, oh: nat, ow: nat, ic: nat, kh: nat, kw: nat)
    requires IsRank3(x) && sc.shift == 0 && sc.C == x.shape[0] && sc.H == x.shape[1] && sc.W == x.shape[2]
    requires sc.Reaches(oc, oh, ow) && ic < sc.C && kh < sc.K.shape[2] && kw < sc.K.shape[2]
    requires InWindow(Padded(x, p), sc.K.shape[2], sc.s, oh, ow)
    ensures var ih, iw := Origin(oh, sc.s) + kh, Origin(ow, sc.s) + kw;
      var target, tap := InputContribution(sc, oc, oh, ow, ic, kh, kw).target,
                         Tap(Padded(x, p), sc.K.shape[2], sc.s, ic, kh, kw, oh, ow);
      target == (if ih < sc.H && iw < sc.W then Cell3(ic, ih, iw, sc.H, sc.W) else sc.C * sc.H * sc.W) &&
      tap == (if p <= ih < sc.H + p && p <= iw < sc.W + p then At3(x, ic, ih - p, iw - p) else 0.0)
  {
    var ih, iw := Origin(oh, sc.s) + kh, Origin(ow, sc.s) + kw;
    TargetInside(sc, ic, ih, iw);
    if p <= ih < sc.H + p && p <= iw < sc.W + p {
      PaddedCentre(x, p, ic, ih - p, iw - p);
    } else {
      PaddedBorder(x, p, ic, ih, iw);
    }
  }

  // ---------------------------------------------------------------------
  // The layer

  class Conv2D {
    const inputChannels: nat
    const outputChannels: nat
    const kernelSize: nat
    const stride: nat
    const padding: nat
    var kernels: Tensor
    var biases: Tensor
    var inputCache: Tensor

    /** The kernels are (output_channels, input_channels, k, k), one bias per output
        channel, and a cached input (rank 0 before the first forward) has
        input_channels channels once it has rank 3. */
    predicate Valid()
      reads this
    {
      Kernels(kernels) && kernels.shape == [outputChannels, inputChannels, kernelSize, kernelSize] &&
      BiasesFor(biases, kernels) && inputCache.Valid() &&
      (|inputCache.shape| == 3 ==> inputCache.shape[0] == inputChannels)
    }

    /** forward's shape check: rank 3 with input_channels channels. */
    predicate Accepts(input: Tensor)
    {
      |input.shape| == 3 && input.shape[0] == inputChannels
    }

    /** backward's shape check: rank 3 with output_channels channels. */
    predicate AcceptsGradient(grad: Tensor)
    {
      |grad.shape| == 3 && grad.shape[0] == outputChannels
    }

    /** The kernels come from the random initialisation in [-0.5, 0.5), given here as
        the row-major sequence initialKernels; the biases are zero and the input cache
        is Tensor({}).  The header's defaults are stride 1 and padding 0. */
    constructor(inputChannels: nat, outputChannels: nat, kernelSize: nat, stride: nat, padding: nat,
                initialKernels: seq<real>)
      requires |initialKernels| == outputChannels * inputChannels * kernelSize * kernelSize
      ensures Valid()
      ensures this.inputChannels == inputChannels && this.outputChannels == outputChannels
      ensures this.kernelSize == kernelSize && this.stride == stride && this.padding == padding
      ensures kernels == Tensor([outputChannels, inputChannels, kernelSize, kernelSize], initialKernels)
      ensures biases == Zeros([outputChannels]) && inputCache == Zeros([])
    {
      this.inputChannels := inputChannels;
      this.outputChannels := outputChannels;
      this.kernelSize := kernelSize;
      this.stride := stride;
      this.padding := padding;
      Product4([outputChannels, inputChannels, kernelSize, kernelSize]);
      kernels := Tensor([outputChannels, inputChannels, kernelSize, kernelSize], initialKernels);
      Product1([outputChannels]);
      biases := Zeros([outputChannels]);
      inputCache := Zeros([]);
    }

    /** Throws on a wrongly shaped input, changing nothing; otherwise caches the
        input and returns the convolution of the padded input plus the biases.  The
        stride must be positive and the padded input at least as large as the kernel
        (the output size divides by the stride and subtracts the kernel size). */
    method Forward(input: Tensor) returns (r: Result<Tensor>)
      requires Valid() && input.Valid()
      requires Accepts(input) ==>
        stride > 0 && kernelSize <= input.shape[1] + 2 * padding && kernelSize <= input.shape[2] + 2 * padding
      modifies this
      ensures Valid() && kernels == old(kernels) && biases == old(biases)
      ensures !Accepts(input) ==> r == Err(ShapeMismatch) && unchanged(this)
      ensures Accepts(input) ==>
        inputCache == input && r == Ok(Convolution(Padded(input, padding), kernels, biases, stride))
    {
      if !Accepts(input) {
        return Err(ShapeMismatch);
      }
      inputCache := input;
      var padded := Pad(input, padding);
      var output := Convolve(padded, kernels, biases, stride);
      r := Ok(output);
    }

    /** Throws on a wrongly shaped gradient, changing nothing.  Otherwise: the bias
        and kernel gradients from the cached input, the update of both, and the input
        gradient scattered through the UPDATED kernels, as written: each padded
        position is used as an input position, with no correction for the padding.
        Backward needs a cached rank-3 input, and the gradient may not be larger than
        the output forward produced from it. */
    method Backward(grad: Tensor, learningRate: real) returns (r: Result<Tensor>)
      requires Valid() && grad.Valid()
      requires AcceptsGradient(grad) ==>
        |inputCache.shape| == 3 && GradFits(Padded(inputCache, padding), grad, kernelSize, stride)
      modifies this
      ensures Valid() && inputCache == old(inputCache)
      ensures !AcceptsGradient(grad) ==> r == Err(ShapeMismatch) && unchanged(this)
      ensures AcceptsGradient(grad) ==>
        var pin := Padded(inputCache, padding);
        kernels == ScaledDifference(old(kernels), KernelGradient(pin, grad, kernelSize, stride), learningRate) &&
        biases == ScaledDifference(old(biases), BiasGradient(grad), learningRate) &&
        r == Ok(InputGradient(AsWrittenScatter(kernels, grad, stride,
                                               inputChannels, inputCache.shape[1], inputCache.shape[2])))
    {
      if !AcceptsGradient(grad) {
        return Err(ShapeMismatch);
      }
      var gb := BiasGradients(grad);
      var padded := Pad(inputCache, padding);
      var gk := KernelGradients(padded, grad, kernelSize, stride);
      kernels, biases := UpdateParameters(kernels, biases, gk, gb, learningRate);
      var sc := AsWrittenScatter(kernels, grad, stride, inputChannels, inputCache.shape[1], inputCache.shape[2]);
      var gradInput := InputGradients(sc);
      r := Ok(gradInput);
    }

    /** Backward with the input gradient corrected: every padded position is taken
        back by the padding before it is used as an input position, and positions in
        the border are dropped.  Everything else is as in Backward. */
    method CorrectedBackward(grad: Tensor, learningRate: real) returns (r: Result<Tensor>)
      requires Valid() && grad.Valid()
      requires AcceptsGradient(grad) ==>
        |inputCache.shape| == 3 && GradFits(Padded(inputCache, padding), grad, kernelSize, stride)
      modifies this
      ensures Valid() && inputCache == old(inputCache)
      ensures !AcceptsGradient(grad) ==> r == Err(ShapeMismatch) && unchanged(this)
      ensures AcceptsGradient(grad) ==>
        var pin := Padded(inputCache, padding);
        kernels == ScaledDifference(old(kernels), KernelGradient(pin, grad, kernelSize, stride), learningRate) &&
        biases == ScaledDifference(old(biases), BiasGradient(grad), learningRate) &&
        r == Ok(InputGradient(CorrectedScatter(kernels, grad, stride, padding,
                                               inputChannels, inputCache.shape[1], inputCache.shape[2])))
    {
      if !AcceptsGradient(grad) {
        return Err(ShapeMismatch);
      }
      var gb := BiasGradients(grad);
      var padded := Pad(inputCache, padding);
      var gk := KernelGradients(padded, grad, kernelSize, stride);
      kernels, biases := UpdateParameters(kernels, biases, gk, gb, learningRate);
      var sc := CorrectedScatter(kernels, grad, stride, padding, inputChannels, inputCache.shape[1], inputCache.shape[2]);
      var gradInput := InputGradients(sc);
      r := Ok(gradInput);
    }
  }
}
