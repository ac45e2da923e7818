# Shape model of the EDSR-style network blocks and the benchmark loader

This project models two parts of a PyTorch super-resolution code base.

- The reusable network blocks of `code/model/common.py`:
  - `default_conv`, `BasicBlock`, `ResBlock`, `DenseLayer`, `RDB` (residual dense block) and `Upsampler`.
  - A block is modelled by the list of layers its constructor builds.
  - Its forward pass is modelled by the shape of the feature map it produces.
  - A layer is a descriptor: convolution, batch norm, activation, pixel shuffle or transposed convolution.
  - A shape is `(channels, height, width)`. A layer maps an input shape to an output shape as torch computes it, and gives `None` where torch would raise a shape error for that layer. Additions follow torch's broadcasting rule, where an axis of size 1 stretches to the other operand's size.
  - On this model we prove the channel and spatial bookkeeping the blocks rely on:
    - when the residual additions and concatenations are well-shaped;
    - that RDB's 1x1 fusion receives exactly the channels it was built for;
    - that an upsampler of type 'espcnn' or 'deconv', or one built for scale 3, multiplies both axes by its scale `s`, while one of any other type at a power-of-two scale has no modules and leaves its input unchanged;
    - which intermediate results `Upsampler.forward` records.
  - `Upsampler.__init__` has three outcomes: the `scale & (scale - 1) == 0` power-of-two test, the scale-3 branch, and the exceptions.
- The benchmark test-set loader of `code/data/benchmark.py`:
  - the repeat count, with Python's floor division and its `ZeroDivisionError`;
  - the directory layout;
  - `_scan`, which builds one HR path per directory entry and one LR path per entry and per scale;
  - `__len__` and `_get_index`.
  - `os.path.join`, `os.path.splitext` and `str(int)` are modelled exactly for the POSIX flavour, in module `PosixPath` and in `BenchmarkData.Decimal`. This lets us prove that the HR and LR names of an entry split back into the entry's stem.

Modules:

- `Wrappers`: Option and Result.
- `PyInt`: Python's `//` and `&` on unbounded integers, powers of two and the base-2 logarithm.
- `Layers`: layer descriptors and their shape rules.
- `Blocks`: BasicBlock, ResBlock, DenseLayer and RDB.
- `Upsampling`: Upsampler.
- `PosixPath`: `join` and `splitext`.
- `BenchmarkData`: the Benchmark loader.

## Model

| member | source | states |
|---|---|---|
| PyInt.FloorDiv | code/data/benchmark.py:15 | Python's `//`: the quotient is rounded toward negative infinity, for either sign of the divisor |
| PyInt.BitAnd | code/model/common.py:123 | `a & b` on two's-complement integers of unbounded width: non-negative and at most a non-negative operand; negative when both operands are |
| PyInt.PowerOfTwoTest | code/model/common.py:123 | `(n & (n - 1)) == 0` holds exactly when n is 0 or a power of two; it never holds for a negative n |
| PyInt.Log2OfPow2 | code/model/common.py:124 | the logarithm of 2^k is k, so `range(int(log(2^k, 2)))` runs k rounds |
| PyInt.Pow2OfLog2 | code/model/common.py:124 | every power of two n is 2^log2(n) |
| Layers.ConvLen | code/model/common.py:10-12 | a convolution's output length exists exactly when the input is non-empty and the padded input holds the kernel |
| Layers.ConvLenPositions | code/model/common.py:10-12 | the output length n is the number of kernel positions: position n-1 fits in the padded input, position n does not |
| Layers.TransposedLen | code/model/common.py:133 | the transposed convolution's output length exists exactly when the input is non-empty, kernel and stride are non-zero and (len - 1) * stride + kernel exceeds twice the padding; the matching convolution maps it back to the input length |
| Layers.TransposedLenSmallest | code/model/common.py:133 | without output padding the transposed length is the smallest length that the matching convolution maps back to the input length |
| Layers.ShuffleNarrows | code/model/common.py:128 | a pixel shuffle by r turns r*r*c channels into c and multiplies both spatial axes by r |
| Layers.PixelShuffleKeepsVolume | code/model/common.py:128 | a pixel shuffle only rearranges elements: channels times area is unchanged, and the channel count is divided by r*r |
| Layers.DefaultConvShape | code/model/common.py:9-12 | `default_conv` (padding kernel_size // 2) keeps the spatial size exactly for an odd kernel and grows each axis by one for an even kernel; it fails exactly on a channel mismatch, an empty input or a zero kernel |
| Layers.RunAppend | code/model/common.py:35 | running an `nn.Sequential` of a concatenation of module lists runs the first list, then the second |
| Blocks.Cat | code/model/common.py:74 | concatenation along channels succeeds exactly when the spatial sizes agree, and adds the channel counts |
| Blocks.Add | code/model/common.py:114 | `out + _x` broadcasts: it succeeds exactly when every axis agrees or one of its sizes is 1; each result axis is the other operand's size where one operand has size 1, and the common size otherwise; equal shapes add to the same shape |
| Blocks.AddInPlace | code/model/common.py:54 | `res += x` succeeds exactly when every axis of x equals res's or is 1, and keeps res's shape |
| Blocks.BasicBlockShape | code/model/common.py:24-35 | BasicBlock has 1 to 3 modules and its shape is decided by its convolution; it succeeds exactly when the channels match and the padded, strided convolution fits; at stride 1 with an odd kernel it keeps the spatial size and yields out_channels |
| Blocks.BasicBlockEvenKernel | code/model/common.py:29-31 | at stride 1 an even kernel, padded by kernel_size // 2, grows each spatial axis by one |
| Blocks.ResBody | code/model/common.py:43-49 | the ResBlock body has 3 modules, or 5 with BN, and every convolution in it is n_feat to n_feat |
| Blocks.NewResBlock | code/model/common.py:38-50 | the two-round constructor loop builds exactly conv, [BN], act, conv, [BN] and keeps res_scale |
| Blocks.ConvBnShape | code/model/common.py:45-46 | one conv + [BN] half of the body keeps the shape for an odd kernel and grows each axis by one for an even kernel |
| Blocks.ResBodyShape | code/model/common.py:43-49 | the body runs exactly when the input has n_feat channels, a non-empty spatial size and a non-zero kernel; it keeps the shape for an odd kernel and grows each axis by two for an even one |
| Blocks.ResBlockShape | code/model/common.py:52-56 | the block runs exactly when the input has n_feat channels, a non-empty spatial size and a non-zero kernel; with an odd kernel the output has the input's shape; with an even kernel the body grows each axis by two, so `res += x` succeeds only for a 1 x 1 input, which it broadcasts to a 3 x 3 output |
| Blocks.DenseLayerShape | code/model/common.py:58-75 | a DenseLayer yields n_feat_out + n_feat_in channels when it concatenates and n_feat_out otherwise, at the input's size for an odd kernel; without concatenation an even kernel yields n_feat_out channels one pixel larger on each axis; any success needs matching channels, a non-empty input, a non-zero kernel, and an odd kernel when concatenating |
| Blocks.NewRdb | code/model/common.py:87-101 | the constructor loop makes dense layer i a conv from n_feat_in + i * growth_rate channels to growth_rate channels plus a ReLU, and sizes LFF for n_feat_in + n_layers * growth_rate input channels |
| Blocks.RdbForwardLoop | code/model/common.py:104-116 | the forward loop `x = cat([x, dl(x)])`, then LFF and `+ _x`, computes the block's shape function |
| Blocks.DenseChainGrows | code/model/common.py:109-111 | each dense layer adds growth_rate channels and keeps the spatial size, so after i layers there are n_feat_in + i * growth_rate channels |
| Blocks.DenseChainRejects | code/model/common.py:109-111 | the dense chain fails when its first layer rejects the input's channels or size, or the kernel is even |
| Blocks.RdbKeepsShape | code/model/common.py:77-116 | an RDB returns a map of its input's shape exactly when the input has n_feat_in channels, a non-empty size, and an odd kernel if there is any dense layer; otherwise it fails |
| Upsampling.BuildUpsampler | code/model/common.py:122-144 | the constructor's branches and loop build exactly the module list of the specification function, or its exception |
| Upsampling.AppendStage | code/model/common.py:126-134 | one loop round appends the 'espcnn' stage (conv, shuffle, [BN], [act]), the 'deconv' stage (deconv, [act]), or nothing for another type |
| Upsampling.UpsamplerDispatch | code/model/common.py:123-142 | scale 0 fails in the logarithm; scale 3 gives the x3 stage; a power of two 2^k gives k stages; every other scale, all negative ones included, raises NotImplementedError |
| Upsampling.UpsamplerStages | code/model/common.py:123-134 | at scale 2^k there are exactly k stages; with 'espcnn' that is k * (2 + [bn] + [act]) modules; with an unknown type the list is empty |
| Upsampling.EspcnnStageShape | code/model/common.py:127-130 | an 'espcnn' stage maps n_feat channels to n_feat channels at twice the height and width |
| Upsampling.DeconvStageShape | code/model/common.py:133-134 | a 'deconv' stage (kernel 2, stride 2, no padding) maps n_feat channels to n_feat channels at twice the height and width |
| Upsampling.StageShape | code/model/common.py:126-134 | one stage of a known type doubles both axes at n_feat channels |
| Upsampling.TripleStageShape | code/model/common.py:136-140 | the scale-3 stage maps n_feat channels to n_feat channels at three times the height and width |
| Upsampling.RepeatShape | code/model/common.py:124-134 | n stages of a known type multiply both axes by 2^n |
| Upsampling.UpsamplerScales | code/model/common.py:118-144 | a successfully built upsampler has scale >= 1 and maps an n_feat-channel map to one `scale` times larger on each axis, or, for an unknown type at a power-of-two scale, leaves it unchanged |
| Upsampling.PowerOfTwoScales | code/model/common.py:123-134 | at a power-of-two scale the repeated stages multiply each axis by exactly the scale |
| Upsampling.Recorded | code/model/common.py:149-153 | forward records one result for each odd-indexed module, that is \|modules\| / 2 results |
| Upsampling.UpsamplerRecordsStages | code/model/common.py:146-155 | for 'espcnn' at scale 2^k without BN or act, the recorded results are exactly the k stage outputs; result j has n_feat channels at 2^(j+1) times the input's size |
| Upsampling.Upsampler.Forward | code/model/common.py:146-155 | forward resets `outputs`, returns the composition of the modules in order, and leaves `outputs` holding the result after every odd-indexed module |
| PosixPath.RFind | code/data/benchmark.py:22 | `rfind` returns -1 or an index of the character |
| PosixPath.RFindIsLast | code/data/benchmark.py:22 | no occurrence of the character follows the index `rfind` reports |
| PosixPath.JoinShape | code/data/benchmark.py:23 | `os.path.join(a, b)` ends with b; an absolute b replaces a; otherwise it starts with a, with one '/' inserted when a does not end in one |
| PosixPath.HasNonDotMeans | code/data/benchmark.py:22 | the recursive test splitext applies to the final component holds exactly when it has a character other than '.' |
| PosixPath.SplitExtParts | code/data/benchmark.py:22 | splitext cuts the path in two: root + ext is the path, and ext is empty or a '.' followed by neither '.' nor '/' |
| PosixPath.SplitExtAppend | code/data/benchmark.py:22-23 | appending an extension to a root whose last component has a character other than '.' is undone by splitext |
| BenchmarkData.RepeatOutcome | code/data/benchmark.py:15 | with n_train >= 0 and batch_size >= 1, repeat raises ZeroDivisionError exactly when n_train < batch_size; otherwise it is test_every floor-divided by the number of full batches |
| BenchmarkData.RepeatZeroBatch | code/data/benchmark.py:15 | a batch size of 0 always raises ZeroDivisionError |
| BenchmarkData.DigitsRoundTrip | code/data/benchmark.py:27 | the decimal text of a non-negative scale reads back as the scale, so distinct non-negative scales get distinct LR directory names |
| BenchmarkData.DecimalChars | code/data/benchmark.py:27 | the decimal text of a scale holds no '/', '.' or 'x' |
| BenchmarkData.HrPathsIndex | code/data/benchmark.py:21-23 | element i of the HR list is the HR path of entry i |
| BenchmarkData.LrRowsIndex | code/data/benchmark.py:20-28 | the LR list of scale si has one path per entry, and element i is entry i's path `X<s>/<stem>x<s><ext>` under dir_lr |
| BenchmarkData.PathsShareStem | code/data/benchmark.py:22-27 | an entry's HR path ends in stem + ext and its LR path in `X<s>/<stem>x<s>` + ext; splitext takes ".png" back off both file names, returning the stem and the stem with its `x<s>` suffix |
| BenchmarkData.FilesystemLayout | code/data/benchmark.py:33-35 | under a data directory and a relative data-set name that do not end in '/', apath is `<dir_data>/benchmark/<data_test>` and the HR and LR directories are its `HR` and `LR_bicubic` sub-directories |
| BenchmarkData.Benchmark.Create | code/data/benchmark.py:14-16 | construction fails exactly when the repeat count raises ZeroDivisionError; otherwise the loader keeps args and that repeat count |
| BenchmarkData.Benchmark.SetFilesystem | code/data/benchmark.py:32-36 | sets apath, dir_hr, dir_lr and ext (".png") as the joins of the data directory, 'benchmark' and the data-set name |
| BenchmarkData.Benchmark.Scan | code/data/benchmark.py:18-30 | the loop over the entries builds exactly the HR list and, per scale in order, the LR lists, both in entry order |
| BenchmarkData.Benchmark.AppendLrPaths | code/data/benchmark.py:24-28 | the inner loop appends the entry's LR path to the list of every scale and changes nothing else |
| BenchmarkData.Benchmark.Load | code/data/benchmark.py:18-30 | the HR list that `_scan` returns becomes the data set's images, so after loading the length of the data set is the number of directory entries |
| BenchmarkData.Benchmark.Length | code/data/benchmark.py:38-39 | the length of the data set is the number of HR images it holds; after `Load` that is the number of directory entries |
| BenchmarkData.Benchmark.GetIndex | code/data/benchmark.py:41-42 | a benchmark index is the image index itself |

## Left out

- `MeanShift` is not modelled. Its behaviour is weight initialisation on tensors.
- Tensor values are not modelled, only shapes: convolution weights, ReLU, batch statistics, and the `res_scale` multiplication in `ResBlock.forward`. Multiplication by a scalar does not change a shape.
- Blocks.DenseLayerShape: states the channel count of `cat((out, x))` but not that the new features come first. In `RDB.forward`, by contrast, the input comes first in `cat([x, o])`. Channel order is not part of a shape.
- The batch axis is left out of every shape. Both operands of each addition and concatenation share the input's batch size.
- The `conv` factory that `ResBlock`, `DenseLayer`, `RDB` and `Upsampler` take is fixed to `default_conv`.
- Upsampling.DeconvStageShape: the `'deconv'` branch calls the factory as `conv(n_feat, n_feat, 2, 2, padding=0, bias=bias)`, which `default_conv` does not accept. The model assumes a transposed-convolution factory with kernel 2, stride 2 and padding 0 is passed.
- `act` in `Upsampler` is a flag here. In the `'espcnn'` and scale-3 branches the source calls `act(**act_kwargs)` or `act()`, so it expects a module class there, and a plain `True` would raise `TypeError`. `act_kwargs` is not modelled.
- PyInt.Log2OfPow2: `int(math.log(scale, 2))` is a floating-point computation; it is modelled as the exact base-2 logarithm of a power of two.
- The `scandir` directory listing is I/O. The entries reach `Benchmark.Scan` as a sequence of names in enumeration order.
- `srdata.SRData`, the base class, is not part of this model. That covers the `super().__init__` call, which sets up `images_hr`, the directories and the per-image loading.
  - `imagesHr` is a plain field of the class. It is empty on construction and is filled by `Benchmark.Load`. `Load` stands for the base class keeping the HR list that `_scan` returns as `images_hr`, the list `__len__` reads. This is an assumption about the unmodelled base class. The LR lists are not stored.
  - `Benchmark.Scan` reads the scales from `args.scale`. This assumes the base class sets `self.scale` to `args.scale`, which is not modelled.
  - The `train` flag is unused by the benchmark code and is left out.
- `data.common`, `numpy`, `scipy.misc` and the rest of the imports are not part of this model.
- The unused `feats = [x]` in `RDB.forward` is not modelled. The registration of the dense layers with `add_module` is not modelled either.
- BenchmarkData.PathsShareStem: proved for the `.png` extension that `_set_filesystem` sets, not for an arbitrary one. It assumes an entry name without '/' and a stem with a character other than '.'.
