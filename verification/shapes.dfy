/**
  Tensor-shape propagation through the twin network (`Net`): the layer
  dimensions fixed in the constructor, the four convolution stages of
  `convs`, and the flatten / project / merge / project path of `forward`.
  A shape the layers reject (a PyTorch runtime error) is None.
*/
module Shapes {
  import opened Outcome

  /** `nn.Conv2d(in, out, k)`: stride 1, no padding. */
  datatype Conv2d = Conv2d(inChannels: nat, outChannels: nat, kernel: nat)

  /** `nn.BatchNorm2d(features)`. */
  datatype BatchNorm2d = BatchNorm2d(features: nat)

  /** `nn.Linear(in, out)`. */
  datatype Linear = Linear(inFeatures: nat, outFeatures: nat)

  /** The layers of the network that `convs` and `forward` use. */
  datatype Net = Net(conv1: Conv2d, conv2: Conv2d, conv3: Conv2d, conv4: Conv2d,
                     bn1: BatchNorm2d, bn2: BatchNorm2d, bn3: BatchNorm2d, bn4: BatchNorm2d,
                     fc1: Linear, fcOut: Linear)

  /** A batch of feature maps, N x C x H x W. */
  datatype Feature = Feature(batch: nat, channels: nat, height: nat, width: nat)

  /** A batch of flat vectors, rows x cols. */
  datatype Matrix = Matrix(rows: nat, cols: nat)

  /** The width `forward` flattens to: `x.view(-1, 256 * 6 * 6)`. */
  const FlatWidth: nat := 256 * 6 * 6

  /** The layers built by `Net.__init__`. */
  const Koch: Net := Net(Conv2d(1, 64, 10), Conv2d(64, 128, 7), Conv2d(128, 128, 4), Conv2d(128, 256, 4),
                         BatchNorm2d(64), BatchNorm2d(128), BatchNorm2d(128), BatchNorm2d(256),
                         Linear(256 * 6 * 6, 4096), Linear(4096, 1))

  /** Each layer's input width is the output width of the layer feeding it,
      and the head produces a single score. */
  predicate Wired(net: Net) {
    && net.conv1.outChannels == net.bn1.features == net.conv2.inChannels
    && net.conv2.outChannels == net.bn2.features == net.conv3.inChannels
    && net.conv3.outChannels == net.bn3.features == net.conv4.inChannels
    && net.conv4.outChannels == net.bn4.features
    && net.fc1.outFeatures == net.fcOut.inFeatures
    && net.fcOut.outFeatures == 1
  }

  /** One side of a valid (unpadded, stride-1) convolution. */
  function ConvSide(d: nat, k: nat): (r: Option<nat>)
    ensures r.Some? <==> 1 <= k <= d
    ensures r.Some? ==> r.value >= 1 && r.value + k == d + 1
  {
    if 1 <= k <= d then Some(d - k + 1) else None
  }

  /** One side of a 2 x 2 max pooling: the floor of half, and at least 1. */
  function PoolSide(d: nat): (r: Option<nat>)
    ensures r.Some? <==> d >= 2
    ensures r.Some? ==> 2 * r.value <= d < 2 * r.value + 2
  {
    if d >= 2 then Some(d / 2) else None
  }

  /** `conv(x)`: out side = in side - kernel + 1. */
  function Conv(c: Conv2d, x: Feature): (r: Option<Feature>)
    ensures r.Some? <==> x.channels == c.inChannels && 1 <= c.kernel <= x.height && c.kernel <= x.width
    ensures r.Some? ==> r.value.batch == x.batch && r.value.channels == c.outChannels
    ensures r.Some? ==> r.value.height == x.height - c.kernel + 1 && r.value.width == x.width - c.kernel + 1
  {
    if x.channels != c.inChannels then None
    else
      var h :- ConvSide(x.height, c.kernel);
      var w :- ConvSide(x.width, c.kernel);
      Some(Feature(x.batch, c.outChannels, h, w))
  }

  /** Batch normalisation keeps the shape; it rejects a channel count it was not built for. */
  function Norm(b: BatchNorm2d, x: Feature): (r: Option<Feature>)
    ensures r.Some? <==> x.channels == b.features
    ensures r.Some? ==> r.value == x
  {
    if x.channels == b.features then Some(x) else None
  }

  /** `F.max_pool2d(x, (2, 2))`. */
  function Pool(x: Feature): (r: Option<Feature>)
    ensures r.Some? <==> x.height >= 2 && x.width >= 2
    ensures r.Some? ==> r.value.batch == x.batch && r.value.channels == x.channels
    ensures r.Some? ==> r.value.height == x.height / 2 && r.value.width == x.width / 2
  {
    var h :- PoolSide(x.height);
    var w :- PoolSide(x.width);
    Some(Feature(x.batch, x.channels, h, w))
  }

  /** `relu(bn(conv(x)))`, then pooling when `pool` holds; relu keeps the shape. */
  function Stage(c: Conv2d, b: BatchNorm2d, pool: bool, x: Feature): (r: Option<Feature>)
    ensures r.Some? <==> && x.channels == c.inChannels && c.outChannels == b.features
                         && 1 <= c.kernel <= x.height && c.kernel <= x.width
                         && (pool ==> c.kernel + 1 <= x.height && c.kernel + 1 <= x.width)
    ensures r.Some? ==> r.value.batch == x.batch && r.value.channels == c.outChannels
    ensures r.Some? && !pool ==> r.value.height == x.height - c.kernel + 1 && r.value.width == x.width - c.kernel + 1
    ensures r.Some? && pool ==> r.value.height == (x.height - c.kernel + 1) / 2 && r.value.width == (x.width - c.kernel + 1) / 2
  {
    var y :- Conv(c, x);
    var z :- Norm(b, y);
    if pool then Pool(z) else Some(z)
  }

  /** `Net.convs`: pooling after the first three stages, not after the fourth. */
  function Convs(net: Net, x: Feature): (r: Option<Feature>)
    ensures r.Some? ==> x.channels == net.conv1.inChannels
    ensures r.Some? ==> r.value.batch == x.batch && r.value.channels == net.conv4.outChannels
    ensures r.Some? ==> 1 <= r.value.height <= x.height && 1 <= r.value.width <= x.width
  {
    var x1 :- Stage(net.conv1, net.bn1, true, x);
    var x2 :- Stage(net.conv2, net.bn2, true, x1);
    var x3 :- Stage(net.conv3, net.bn3, true, x2);
    Stage(net.conv4, net.bn4, false, x3)
  }

  /** The side length `convs` produces from side `d`, from the per-stage rules
      alone: conv 10, pool, conv 7, pool, conv 4, pool, conv 4. */
  function KochSide(d: nat): (r: Option<nat>)
    ensures r.Some? ==> 1 <= r.value <= d / 8
  {
    var a :- ConvSide(d, 10);
    var b :- PoolSide(a);
    var c :- ConvSide(b, 7);
    var e :- PoolSide(c);
    var f :- ConvSide(e, 4);
    var g :- PoolSide(f);
    ConvSide(g, 4)
  }

  /** The side chain is defined exactly from side 65 on, where it yields
      ((((d - 9) / 2 - 6) / 2 - 3) / 2) - 3. */
  lemma KochSideDomain(d: nat)
    ensures KochSide(d).Some? <==> d >= 65
    ensures KochSide(d).Some? ==> KochSide(d).value == ((((d - 9) / 2 - 6) / 2 - 3) / 2) - 3
  {
  }

  /** `convs` of the built network accepts exactly single-channel inputs of
      side at least 65 and maps each side independently to 256 channels. */
  lemma ConvsShape(x: Feature)
    ensures Convs(Koch, x).Some? <==> x.channels == 1 && KochSide(x.height).Some? && KochSide(x.width).Some?
    ensures Convs(Koch, x).Some? ==>
              Convs(Koch, x).value == Feature(x.batch, 256, KochSide(x.height).value, KochSide(x.width).value)
  {
  }

  /** The 105 x 105 input the comments in `convs` assume goes 105, 96, 48,
      42, 21, 18, 9, 6, and the flattened map has exactly as many entries as
      `fc1` takes. */
  lemma ConvsOf105(batch: nat)
    ensures Conv(Koch.conv1, Feature(batch, 1, 105, 105)) == Some(Feature(batch, 64, 96, 96))
    ensures Stage(Koch.conv1, Koch.bn1, true, Feature(batch, 1, 105, 105)) == Some(Feature(batch, 64, 48, 48))
    ensures Conv(Koch.conv2, Feature(batch, 64, 48, 48)) == Some(Feature(batch, 128, 42, 42))
    ensures Stage(Koch.conv2, Koch.bn2, true, Feature(batch, 64, 48, 48)) == Some(Feature(batch, 128, 21, 21))
    ensures Conv(Koch.conv3, Feature(batch, 128, 21, 21)) == Some(Feature(batch, 128, 18, 18))
    ensures Stage(Koch.conv3, Koch.bn3, true, Feature(batch, 128, 21, 21)) == Some(Feature(batch, 128, 9, 9))
    ensures Stage(Koch.conv4, Koch.bn4, false, Feature(batch, 128, 9, 9)) == Some(Feature(batch, 256, 6, 6))
    ensures Convs(Koch, Feature(batch, 1, 105, 105)) == Some(Feature(batch, 256, 6, 6))
    ensures 256 * 6 * 6 == FlatWidth == Koch.fc1.inFeatures
  {
    var s1 := Feature(batch, 64, 96, 96);
    assert Stage(Koch.conv1, Koch.bn1, false, Feature(batch, 1, 105, 105)) == Some(s1);
    var s2 := Feature(batch, 128, 42, 42);
    assert Stage(Koch.conv2, Koch.bn2, false, Feature(batch, 64, 48, 48)) == Some(s2);
    var s3 := Feature(batch, 128, 18, 18);
    assert Stage(Koch.conv3, Koch.bn3, false, Feature(batch, 128, 21, 21)) == Some(s3);
  }

  /** The built network is wired consistently. */
  lemma KochWired()
    ensures Wired(Koch)
  {
  }

  /** `x.view(-1, cols)`: the element count must be positive and a multiple of `cols`. */
  function View(x: Feature, cols: nat): (r: Option<Matrix>)
    ensures r.Some? <==> cols > 0 && x.batch * x.channels * x.height * x.width > 0
                         && (x.batch * x.channels * x.height * x.width) % cols == 0
    ensures r.Some? ==> r.value.cols == cols && r.value.rows * cols == x.batch * x.channels * x.height * x.width
  {
    var n := x.batch * x.channels * x.height * x.width;
    if cols > 0 && n > 0 && n % cols == 0 then Some(Matrix(n / cols, cols)) else None
  }

  /** A linear layer on a batch of rows. */
  function Project(l: Linear, m: Matrix): (r: Option<Matrix>)
    ensures r.Some? <==> m.cols == l.inFeatures
    ensures r.Some? ==> r.value == Matrix(m.rows, l.outFeatures)
  {
    if m.cols == l.inFeatures then Some(Matrix(m.rows, l.outFeatures)) else None
  }

  /** Broadcasting of `x1 - x2` for two batches of equal width: equal row
      counts, or a single row stretched over the other. */
  function Broadcast(a: Matrix, b: Matrix): (r: Option<Matrix>)
    ensures r.Some? <==> a.cols == b.cols && (a.rows == b.rows || a.rows == 1 || b.rows == 1)
    ensures r.Some? ==> r.value.cols == a.cols && (r.value.rows == a.rows || r.value.rows == b.rows)
  {
    if a.cols != b.cols then None
    else if a.rows == b.rows || b.rows == 1 then Some(a)
    else if a.rows == 1 then Some(b)
    else None
  }

  /** One tower: `sigmoid(fc1(convs(x).view(-1, 256 * 6 * 6)))`. */
  function Tower(net: Net, x: Feature): (r: Option<Matrix>)
    ensures r.Some? ==> Convs(net, x).Some? && net.fc1.inFeatures == FlatWidth
    ensures r.Some? ==> r.value.cols == net.fc1.outFeatures
    ensures r.Some? ==> var f := Convs(net, x).value;
                        r.value.rows * FlatWidth == f.batch * f.channels * f.height * f.width
  {
    var f :- Convs(net, x);
    var m :- View(f, FlatWidth);
    Project(net.fc1, m)
  }

  /** `Net.forward`: both inputs through the same tower, merged by `|x1 - x2|`,
      then `fcOut`. */
  function Forward(net: Net, x1: Feature, x2: Feature): (r: Option<Matrix>)
    ensures r.Some? ==> Tower(net, x1).Some? && Tower(net, x2).Some?
    ensures r.Some? ==> net.fc1.outFeatures == net.fcOut.inFeatures
    ensures r.Some? ==> r.value.cols == net.fcOut.outFeatures
    ensures r.Some? ==> r.value.rows == Tower(net, x1).value.rows || r.value.rows == Tower(net, x2).value.rows
  {
    var a :- Tower(net, x1);
    var b :- Tower(net, x2);
    var merged :- Broadcast(a, b);
    Project(net.fcOut, merged)
  }

  /** On the 105 x 105 input the comments in `convs` assume, each image of a batch yields a 4096-wide embedding
      and the pair yields one score per image pair. */
  lemma ForwardOf105(batch: nat)
    requires batch >= 1
    ensures Tower(Koch, Feature(batch, 1, 105, 105)) == Some(Matrix(batch, 4096))
    ensures Forward(Koch, Feature(batch, 1, 105, 105), Feature(batch, 1, 105, 105)) == Some(Matrix(batch, 1))
  {
    ConvsOf105(batch);
  }

  /** The side chain ends in 6 exactly for sides 105 through 112. */
  lemma KochSideIsSix(d: nat)
    ensures KochSide(d) == Some(6) <==> 105 <= d <= 112
  {
    KochSideDomain(d);
  }

  /** Flattening 256 maps of side s to rows of 256 * 6 * 6 keeps one row per
      image exactly when s is 6. */
  lemma ViewKeepsBatch(batch: nat, s: nat)
    requires batch >= 1
    ensures View(Feature(batch, 256, s, s), FlatWidth) == Some(Matrix(batch, FlatWidth)) <==> s == 6
  {
    var f := Feature(batch, 256, s, s);
    if View(f, FlatWidth) == Some(Matrix(batch, FlatWidth)) {
      assert batch * FlatWidth == batch * 256 * s * s;
      assert batch * (36 - s * s) == 0;
      assert s * s == 36;
    }
    if s == 6 {
      assert batch * 256 * s * s == batch * FlatWidth;
    }
  }

  /** The pair of towers yields one score per image pair exactly when one
      tower's flatten keeps one row per image. */
  lemma ForwardKeepsBatchIffView(batch: nat, x: Feature)
    requires batch >= 1 && x.batch == batch
    ensures Forward(Koch, x, x) == Some(Matrix(batch, 1))
        <==> Convs(Koch, x).Some? && View(Convs(Koch, x).value, FlatWidth) == Some(Matrix(batch, FlatWidth))
  {
  }

  /** For square single-channel inputs, the forward pass keeps one score per
      image pair exactly for sides 105 through 112; any other accepted side
      silently regroups the flattened rows. */
  lemma ForwardKeepsBatch(batch: nat, d: nat)
    requires batch >= 1
    ensures Forward(Koch, Feature(batch, 1, d, d), Feature(batch, 1, d, d)) == Some(Matrix(batch, 1))
        <==> 105 <= d <= 112
  {
    var x := Feature(batch, 1, d, d);
    ConvsShape(x);
    KochSideIsSix(d);
    ForwardKeepsBatchIffView(batch, x);
    if Convs(Koch, x).Some? {
      ViewKeepsBatch(batch, KochSide(d).value);
    }
  }
}
