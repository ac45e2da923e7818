/**
 * The benchmark test-set loader of code/data/benchmark.py: how many times
 * the set is repeated per test round, where its files live, and how the list
 * of high-resolution (HR) image paths and, per scale, low-resolution (LR)
 * image paths is built from the HR directory's entries. The directory
 * listing is given as the sequence of entry names, in enumeration order.
 */
module BenchmarkData {
  import opened Wrappers
  import opened PyInt
  import opened PosixPath

  /** The exception the constructor can raise. */
  datatype DataError = ZeroDivisionError

  /** The command-line options the loader reads. */
  datatype Args = Args(testEvery: int, nTrain: int, batchSize: int, dataTest: string, scale: seq<int>)

  /** `args.test_every // (args.n_train // args.batch_size)`, with Python's floor division. */
  function RepeatCount(testEvery: int, nTrain: int, batchSize: int): Result<int, DataError>
  {
    if batchSize == 0 then Err(ZeroDivisionError)
    else
      var batches := FloorDiv(nTrain, batchSize);
      if batches == 0 then Err(ZeroDivisionError) else Ok(FloorDiv(testEvery, batches))
  }

  /**
   * With a non-negative training-set size and a positive batch size, the
   * repeat count fails with a division by zero exactly when there are fewer
   * training images than one batch; otherwise it is how many times the
   * number of full batches fits in test_every, rounded down.
   */
  lemma RepeatOutcome(testEvery: int, nTrain: int, batchSize: int)
    requires nTrain >= 0 && batchSize >= 1
    ensures RepeatCount(testEvery, nTrain, batchSize).Err? <==> nTrain < batchSize
    ensures RepeatCount(testEvery, nTrain, batchSize).Ok? ==>
      var q, r := nTrain / batchSize, RepeatCount(testEvery, nTrain, batchSize).value;
      q >= 1 && q * batchSize <= nTrain < q * batchSize + batchSize &&
      r * q <= testEvery < r * q + q
  {
    var q := FloorDiv(nTrain, batchSize);
    assert q == nTrain / batchSize;
    if nTrain < batchSize {
      assert q == 0;
    }
  }

  /** A batch size of zero always fails. */
  lemma RepeatZeroBatch(testEvery: int, nTrain: int)
    ensures RepeatCount(testEvery, nTrain, 0) == Err(ZeroDivisionError)
  {
  }

  function DigitChar(d: nat): char
    requires d < 10
  {
    "0123456789"[d]
  }

  /** The decimal digits of n, most significant first. */
  function Digits(n: nat): (s: string)
    ensures |s| >= 1
  {
    if n < 10 then [DigitChar(n)] else Digits(n / 10) + [DigitChar(n % 10)]
  }

  /** `str(n)` for an integer, as `'{}'.format` writes it. */
  function Decimal(n: int): (s: string)
    ensures |s| >= 1
  {
    if n < 0 then "-" + Digits(-n) else Digits(n)
  }

  /** Every character of Digits(n) is a decimal digit. */
  lemma {:induction false} DigitsAreDigits(n: nat)
    ensures forall j :: 0 <= j < |Digits(n)| ==> '0' <= Digits(n)[j] <= '9'
  {
    if n >= 10 {
      DigitsAreDigits(n / 10);
    }
  }

  /** A written number holds no '/', '.' or 'x', so it cannot be mistaken for a separator or extension. */
  lemma DecimalChars(n: int)
    ensures forall j :: 0 <= j < |Decimal(n)| ==> Decimal(n)[j] != '/' && Decimal(n)[j] != '.' && Decimal(n)[j] != 'x'
  {
    if n < 0 {
      DigitsAreDigits(-n);
      var d := Digits(-n);
      assert forall j :: 1 <= j < |Decimal(n)| ==> Decimal(n)[j] == d[j - 1];
    } else {
      DigitsAreDigits(n);
    }
  }

  /** The number a string of decimal digits denotes. */
  function DigitsValue(s: string): int
  {
    if s == [] then 0 else 10 * DigitsValue(s[..|s| - 1]) + (s[|s| - 1] as int - '0' as int)
  }

  /** Reading back the digits gives the number, so distinct scales get distinct names. */
  lemma {:induction false} DigitsRoundTrip(n: nat)
    ensures DigitsValue(Digits(n)) == n
  {
    var s := Digits(n);
    if n >= 10 {
      DigitsRoundTrip(n / 10);
      assert s[..|s| - 1] == Digits(n / 10);
    }
  }

  /** The file name stem of a directory entry: `os.path.splitext(entry.name)[0]`. */
  function Stem(name: string): string
  {
    SplitExt(name).0
  }

  /** HR path of an entry: `join(dir_hr, stem + ext)`. */
  function HrPath(dirHr: string, ext: string, name: string): string
  {
    Join(dirHr, Stem(name) + ext)
  }

  /** The scale directory of an LR file: `X{s}/`. */
  function LrDir(s: int): string
  {
    "X" + Decimal(s) + "/"
  }

  /** The LR file's name before its extension: `{stem}x{s}`. */
  function LrStem(s: int, stem: string): string
  {
    stem + "x" + Decimal(s)
  }

  /** LR file name of a stem at scale s: `'X{s}/{stem}x{s}{ext}'`. */
  function LrName(s: int, stem: string, ext: string): string
  {
    LrDir(s) + LrStem(s, stem) + ext
  }

  /** LR path of an entry at scale s: `join(dir_lr, 'X{s}/{stem}x{s}{ext}')`. */
  function LrPath(dirLr: string, ext: string, s: int, name: string): string
  {
    Join(dirLr, LrName(s, Stem(name), ext))
  }

  /** The stem of a name without '/' has none either. */
  lemma StemHasNoSlash(name: string)
    requires forall j :: 0 <= j < |name| ==> name[j] != '/'
    ensures forall j :: 0 <= j < |Stem(name)| ==> Stem(name)[j] != '/'
  {
    SplitExtParts(name);
    var stem := Stem(name);
    assert forall j :: 0 <= j < |stem| ==> stem[j] == name[j];
  }

  /** ".png" is an extension in splitext's sense. */
  lemma PngIsExtension()
    ensures IsExtension(".png")
  {
    var e := ".png";
    assert e[0] == '.' && e[1] == 'p' && e[2] == 'n' && e[3] == 'g';
  }

  /** splitext takes ".png" back off an HR file name. */
  lemma HrNameSplits(stem: string)
    requires forall j :: 0 <= j < |stem| ==> stem[j] != '/'
    requires HasNonDot(stem)
    ensures SplitExt(stem + ".png") == (stem, ".png")
  {
    RFindNone(stem);
    PngIsExtension();
    assert stem[RFind(stem, '/') + 1..] == stem;
    SplitExtAppend(stem, ".png");
  }

  /** The LR file name's last '/' is the one ending the scale directory X<s>. */
  lemma LrNameSlash(s: int, stem: string)
    requires forall j :: 0 <= j < |stem| ==> stem[j] != '/'
    ensures RFind(LrDir(s) + LrStem(s, stem), '/') == |LrDir(s)| - 1
  {
    var d := Decimal(s);
    var tail := LrStem(s, stem);
    DecimalChars(s);
    forall j | 0 <= j < |tail|
      ensures tail[j] != '/'
    {
      if j < |stem| {
        assert tail[j] == stem[j];
      } else if j > |stem| {
        assert tail[j] == d[j - |stem| - 1];
      }
    }
    RFindAppend(LrDir(s), tail, '/');
  }

  /** splitext takes ".png" back off an LR file name, leaving X<s>/<stem>x<s>. */
  lemma LrNameSplits(s: int, stem: string)
    requires forall j :: 0 <= j < |stem| ==> stem[j] != '/'
    requires HasNonDot(stem)
    ensures SplitExt(LrName(s, stem, ".png")) == (LrDir(s) + LrStem(s, stem), ".png")
  {
    var root := LrDir(s) + LrStem(s, stem);
    LrNameSlash(s, stem);
    assert root[|LrDir(s)|..] == LrStem(s, stem);
    NonDotAt(LrStem(s, stem), |stem|);
    PngIsExtension();
    SplitExtAppend(root, ".png");
  }

  /** f applied to each entry, in order. */
  function Column(f: string -> string, entries: seq<string>): (r: seq<string>)
    ensures |r| == |entries|
  {
    if entries == [] then [] else Column(f, entries[..|entries| - 1]) + [f(entries[|entries| - 1])]
  }

  /** Element i of a column is f of entry i. */
  lemma {:induction false} ColumnIndex(f: string -> string, entries: seq<string>)
    ensures forall i :: 0 <= i < |entries| ==> Column(f, entries)[i] == f(entries[i])
  {
    if entries != [] {
      var n := |entries| - 1;
      ColumnIndex(f, entries[..n]);
      forall i | 0 <= i < n
        ensures Column(f, entries)[i] == f(entries[i])
      {
        assert entries[..n][i] == entries[i];
      }
    }
  }

  /** The HR paths of the entries, in order. */
  function HrPaths(dirHr: string, ext: string, entries: seq<string>): (r: seq<string>)
    ensures |r| == |entries|
  {
    Column(name => HrPath(dirHr, ext, name), entries)
  }

  /** The LR paths of the entries at scale s, in order. */
  function LrColumn(dirLr: string, ext: string, s: int, entries: seq<string>): (r: seq<string>)
    ensures |r| == |entries|
  {
    Column(name => LrPath(dirLr, ext, s, name), entries)
  }

  /** For each scale, in order, the LR paths of the entries, in order. */
  function LrRows(dirLr: string, ext: string, scales: seq<int>, entries: seq<string>): (r: seq<seq<string>>)
    ensures |r| == |scales|
  {
    seq(|scales|, si requires 0 <= si < |scales| => LrColumn(dirLr, ext, scales[si], entries))
  }

  /** One more entry appends its LR path to the list of every scale. */
  lemma LrRowsStep(dirLr: string, ext: string, scales: seq<int>, entries: seq<string>, k: nat)
    requires k < |entries|
    ensures forall t :: 0 <= t < |scales| ==>
      LrRows(dirLr, ext, scales, entries[..k + 1])[t] ==
        LrRows(dirLr, ext, scales, entries[..k])[t] + [LrPath(dirLr, ext, scales[t], entries[k])]
  {
    assert entries[..k + 1][..k] == entries[..k] && entries[..k + 1][k] == entries[k];
  }

  /** Entry i's HR path is the i-th element of the HR list. */
  lemma HrPathsIndex(dirHr: string, ext: string, entries: seq<string>)
    ensures forall i :: 0 <= i < |entries| ==> HrPaths(dirHr, ext, entries)[i] == HrPath(dirHr, ext, entries[i])
  {
    ColumnIndex(name => HrPath(dirHr, ext, name), entries);
  }

  /** The LR list of scale si has one path per entry, entry i's path at position i. */
  lemma LrRowsIndex(dirLr: string, ext: string, scales: seq<int>, entries: seq<string>, si: nat)
    requires si < |scales|
    ensures |LrRows(dirLr, ext, scales, entries)[si]| == |entries|
    ensures forall i :: 0 <= i < |entries| ==>
      LrRows(dirLr, ext, scales, entries)[si][i] == LrPath(dirLr, ext, scales[si], entries[i])
  {
    ColumnIndex(name => LrPath(dirLr, ext, scales[si], name), entries);
  }

  /**
   * HR and LR paths of the same entry carry the same stem: the HR path ends
   * in stem + ext and the LR path in X<s>/<stem>x<s> + ext. For an entry
   * whose name has no '/' and a stem with a character other than '.',
   * splitting the extension off the HR file name and off the LR file name
   * gives back the stem and the stem with its "x<s>" suffix.
   */
  lemma PathsShareStem(dirHr: string, dirLr: string, s: int, name: string)
    requires forall j :: 0 <= j < |name| ==> name[j] != '/'
    requires HasNonDot(Stem(name))
    ensures var hr, lr, stem := HrPath(dirHr, ".png", name), LrPath(dirLr, ".png", s, name), Stem(name);
      |hr| >= |stem + ".png"| && |lr| >= |LrName(s, stem, ".png")| &&
      hr[|hr| - |stem + ".png"|..] == stem + ".png" &&
      lr[|lr| - |LrName(s, stem, ".png")|..] == LrName(s, stem, ".png") &&
      SplitExt(stem + ".png") == (stem, ".png") &&
      SplitExt(LrName(s, stem, ".png")) == (LrDir(s) + LrStem(s, stem), ".png")
  {
    var stem := Stem(name);
    JoinShape(dirHr, stem + ".png");
    JoinShape(dirLr, LrName(s, stem, ".png"));
    StemHasNoSlash(name);
    HrNameSplits(stem);
    LrNameSplits(s, stem);
  }

  /**
   * Under a data directory that does not end in '/', and for a relative
   * data-set name that does not end in '/' either, the data set lives in
   * <dir_data>/benchmark/<data_test>, with its HR images in the
   * sub-directory HR and its LR images in LR_bicubic.
   */
  lemma FilesystemLayout(dirData: string, dataTest: string)
    requires dirData != [] && dirData[|dirData| - 1] != '/'
    requires dataTest != [] && dataTest[0] != '/' && dataTest[|dataTest| - 1] != '/'
    ensures var apath := Join(Join(dirData, "benchmark"), dataTest);
      apath == dirData + "/" + "benchmark" + "/" + dataTest &&
      Join(apath, "HR") == apath + "/" + "HR" && Join(apath, "LR_bicubic") == apath + "/" + "LR_bicubic"
  {
    var b := dirData + "/" + "benchmark";
    JoinShape(dirData, "benchmark");
    var apath := b + "/" + dataTest;
    assert b[|b| - 1] == 'k';
    JoinShape(b, dataTest);
    assert apath[|apath| - 1] == dataTest[|dataTest| - 1];
    JoinShape(apath, "HR");
    JoinShape(apath, "LR_bicubic");
  }

  /** A name without '/' has none to find. */
  lemma RFindNone(s: string)
    requires forall j :: 0 <= j < |s| ==> s[j] != '/'
    ensures RFind(s, '/') == -1
  {
  }

  /** The benchmark data set: its options, paths, and the HR image list the base loader keeps. */
  class Benchmark {
    const args: Args
    var repeat: int
    var apath: string
    var dirHr: string
    var dirLr: string
    var ext: string
    var imagesHr: seq<string>

    constructor (args: Args, repeat: int)
      ensures this.args == args && this.repeat == repeat
      ensures apath == [] && dirHr == [] && dirLr == [] && ext == [] && imagesHr == []
    {
      this.args := args;
      this.repeat := repeat;
      apath, dirHr, dirLr, ext := [], [], [], [];
      imagesHr := [];
    }

    /** `Benchmark.__init__`: computes `repeat`, raising ZeroDivisionError when it cannot. */
    static method Create(args: Args) returns (r: Result<Benchmark, DataError>)
      ensures r.Err? <==> RepeatCount(args.testEvery, args.nTrain, args.batchSize).Err?
      ensures r.Ok? ==> fresh(r.value) && r.value.args == args &&
                        r.value.repeat == RepeatCount(args.testEvery, args.nTrain, args.batchSize).value
    {
      var rep := RepeatCount(args.testEvery, args.nTrain, args.batchSize);
      if rep.Err? {
        return Err(rep.error);
      }
      var b := new Benchmark(args, rep.value);
      r := Ok(b);
    }

    /** `_set_filesystem`: the benchmark's directory layout under dir_data. */
    method SetFilesystem(dirData: string)
      modifies this`apath, this`dirHr, this`dirLr, this`ext
      ensures apath == Join(Join(dirData, "benchmark"), args.dataTest)
      ensures dirHr == Join(apath, "HR") && dirLr == Join(apath, "LR_bicubic") && ext == ".png"
    {
      apath := Join(Join(dirData, "benchmark"), args.dataTest);
      dirHr := Join(apath, "HR");
      dirLr := Join(apath, "LR_bicubic");
      ext := ".png";
    }

    /**
     * `_scan`: one HR path per directory entry and, for every configured
     * scale in order, one LR path per entry, all in the order the entries
     * are listed.
     */
    method Scan(entries: seq<string>) returns (listHr: seq<string>, listLr: seq<seq<string>>)
      ensures listHr == HrPaths(dirHr, ext, entries)
      ensures listLr == LrRows(dirLr, ext, args.scale, entries)
    {
      var scale := args.scale;
      listHr := [];
      listLr := seq(|scale|, _ => []);
      assert entries[..0] == [];
      for k := 0 to |entries|
        invariant listHr == HrPaths(dirHr, ext, entries[..k])
        invariant listLr == LrRows(dirLr, ext, scale, entries[..k])
      {
        var filename := SplitExt(entries[k]).0;
        assert entries[..k + 1][..k] == entries[..k] && entries[..k + 1][k] == entries[k];
        listHr := listHr + [Join(dirHr, filename + ext)];
        listLr := AppendLrPaths(listLr, filename, entries[k]);
        LrRowsStep(dirLr, ext, scale, entries, k);
      }
      assert entries[..|entries|] == entries;
    }

    /**
     * The base loader keeping the HR list of `_scan` as `images_hr`, which
     * `__len__` counts: the data set has one image per directory entry.
     */
    method Load(entries: seq<string>)
      modifies this`imagesHr
      ensures imagesHr == HrPaths(dirHr, ext, entries)
      ensures Length() == |entries|
    {
      var listHr, _ := Scan(entries);
      imagesHr := listHr;
    }

    /** The inner loop of `_scan`: appends the entry's LR path to the list of every scale. */
    method AppendLrPaths(lists: seq<seq<string>>, filename: string, ghost name: string) returns (r: seq<seq<string>>)
      requires filename == Stem(name) && |lists| == |args.scale|
      ensures |r| == |lists|
      ensures forall t :: 0 <= t < |r| ==> r[t] == lists[t] + [LrPath(dirLr, ext, args.scale[t], name)]
    {
      r := lists;
      for si := 0 to |args.scale|
        invariant |r| == |lists|
        invariant forall t :: 0 <= t < si ==> r[t] == lists[t] + [LrPath(dirLr, ext, args.scale[t], name)]
        invariant forall t :: si <= t < |r| ==> r[t] == lists[t]
      {
        var s := args.scale[si];
        r := r[si := r[si] + [Join(dirLr, LrName(s, filename, ext))]];
      }
    }

    /** `__len__`: the number of HR images. */
    function Length(): (n: nat)
      reads this
      ensures n == |imagesHr|
    {
      |imagesHr|
    }

    /** `_get_index`: a benchmark index is the image index itself. */
    function GetIndex(idx: int): (i: int)
      ensures i == idx
    {
      idx
    }
  }
}
