/** The functional part of a reconstruction run's configuration
    (configs/functional_config.py): its defaults, copying the parsed
    command line into it, and the consistency rules checked afterwards. */
module FunctionalConfig {
  import opened Wrappers
  import opened PyRuntime

  /** `np.float32` / `np.float64`, the two element types `update` selects. */
  datatype DType = Float32 | Float64

  /** Where images are read from and written to, and how output files are
      named. */
  datatype PathOptions = PathOptions(
    inputPath: Option<string>,
    inputPathFlat: Option<string>,
    inputPathDark: Option<string>,
    inFormat: string,
    outputPath: Option<string>,
    outFormat: string,
    outSlicesPrefix: string,
    outHorizSlicesPrefix: string,
    outHorizSlicesSubdir: string,
    saveHorizSlices: bool)

  /** The pre-processing switches. */
  datatype PreprocOptions = PreprocOptions(
    savePreproc: bool,
    onlyPreproc: bool,
    reusePreproc: bool,
    preprocSubdir: string,
    dataAsStack: bool)

  /** Logging and debugging. */
  datatype DebugOptions = DebugOptions(
    verbosity: int,
    overwriteAll: bool,
    debug: bool,
    debugPort: Option<int>)

  /** The reconstruction tool and how work is spread over cores. */
  datatype ReconOptions = ReconOptions(
    tool: string,
    algorithm: string,
    numIter: int,
    maxAngle: real,
    cores: int,
    chunksize: Option<int>,
    parallelLoad: bool)

  /** The aggregate run mode. */
  datatype AggregateOptions = AggregateOptions(
    aggregate: Option<seq<string>>,
    aggregateAngles: Option<seq<string>>,
    aggregateSingleFolderOutput: Option<bool>)

  /** The argparse namespace `update` reads, its options grouped as above.
      Options declared with `type=float` hold reals, `nargs='*'` options a
      list or None. */
  datatype Args = Args(
    paths: PathOptions,
    preproc: PreprocOptions,
    dataDtype: string,
    debugging: DebugOptions,
    cor: Option<real>,
    findCor: bool,
    recon: ReconOptions,
    convert: bool,
    convertPrefix: string,
    imopr: Option<seq<string>>,
    aggregation: AggregateOptions)

  /** `bool(s)` for an optional string: present and non-empty. */
  predicate GivenText(s: Option<string>) { s.Some? && |s.value| > 0 }

  /** `bool(xs)` for an optional list: present and non-empty. */
  predicate GivenList(xs: Option<seq<string>>) { xs.Some? && |xs.value| > 0 }

  const NoInputMessage := "Cannot run a reconstruction without setting the input path"
  const NoOutputMessage := "An option was specified that requires an output directory, but no output directory was given!\n"
    + Indent + "The options that require output directory are:\n" + Indent + "-s/--save-preproc, --convert, --aggregate"
  /** The leading spaces the message's continued lines keep. */
  const Indent := "                "
  const NoCorMessage := "If running a reconstruction a Center of Rotation MUST be provided"

  /** The dtype `update` selects for a `--data-dtype` string. */
  function SelectDType(name: string, previous: DType): (d: DType)
    ensures name == "float32" ==> d == Float32
    ensures name == "float64" ==> d == Float64
    ensures name != "float32" && name != "float64" ==> d == previous
  {
    if name == "float32" then Float32 else if name == "float64" then Float64 else previous
  }

  /** The centre of rotation after `if args.cor: self.cor = int(args.cor)`:
      a missing or zero cor keeps the previous one, any other is truncated
      toward zero. */
  function UpdatedCor(argCor: Option<real>, previous: Option<int>): (c: Option<int>)
    ensures argCor.None? || argCor == Some(0.0) ==> c == previous
    ensures argCor.Some? && argCor.value >= 1.0 ==> c.Some? && c.value >= 1
    ensures argCor.Some? && 0.0 < argCor.value < 1.0 ==> c == Some(0)
    ensures argCor.Some? && argCor.value != 0.0 ==> c == Some(TruncToInt(argCor.value))
  {
    if argCor.Some? && argCor.value != 0.0 then Some(TruncToInt(argCor.value)) else previous
  }

  class FunctionalConfig {
    const readmeFileName: string

    var paths: PathOptions
    var preproc: PreprocOptions
    var dataDtype: DType
    var cor: Option<int>
    var findCor: bool
    var debugging: DebugOptions
    var recon: ReconOptions
    var imopr: Option<seq<string>>
    var aggregation: AggregateOptions
    var convert: bool
    var convertPrefix: string

    /** `__init__`; `multiprocessing.cpu_count()` is supplied as cpuCount. */
    constructor (cpuCount: int)
      ensures readmeFileName == "0.README_reconstruction.txt"
      ensures paths == PathOptions(None, None, None, "fits", None, "fits", "recon_slice", "recon_horiz", "horiz_slices", false)
      ensures preproc == PreprocOptions(true, false, false, "pre_processed", false)
      ensures dataDtype == Float32 && cor.None? && !findCor
      ensures debugging == DebugOptions(3, false, true, None)
      ensures recon == ReconOptions("tomopy", "gridrec", 5, 360.0, cpuCount, None, false)
      ensures imopr.None? && aggregation == AggregateOptions(None, None, None)
      ensures !convert && convertPrefix == "converted_images"
    {
      readmeFileName := "0.README_reconstruction.txt";
      paths := PathOptions(None, None, None, "fits", None, "fits", "recon_slice", "recon_horiz", "horiz_slices", false);
      preproc := PreprocOptions(true, false, false, "pre_processed", false);
      dataDtype := Float32;
      cor := None;
      findCor := false;
      debugging := DebugOptions(3, false, true, None);
      recon := ReconOptions("tomopy", "gridrec", 5, 360.0, cpuCount, None, false);
      imopr := None;
      aggregation := AggregateOptions(None, None, None);
      convert := false;
      convertPrefix := "converted_images";
    }

    /** A mode that writes files is on: pre-processed images are saved, or
        the run converts or aggregates. */
    predicate WritesOutput()
      reads this
    {
      preproc.savePreproc || convert || GivenList(aggregation.aggregate)
    }

    /** The run ends in a reconstruction, which needs a centre of rotation:
        no mode that stops earlier or finds the centre itself is on. */
    predicate Reconstructs()
      reads this
    {
      && !findCor && !preproc.onlyPreproc && !GivenList(imopr)
      && !GivenList(aggregation.aggregate) && !convert
    }

    /** `handle_special_arguments`: the configuration passes iff it has an
        input path, has an output path whenever a mode writes files, and
        has a centre of rotation whenever it reconstructs; a failure reports
        the first rule broken, in that order. */
    function HandleSpecialArguments(): (r: Outcome<PyError>)
      reads this
      ensures r.Pass? <==> GivenText(paths.inputPath)
                           && (WritesOutput() ==> GivenText(paths.outputPath))
                           && (Reconstructs() ==> cor.Some?)
      ensures !GivenText(paths.inputPath) ==> r == Fail(ValueError(NoInputMessage))
      ensures GivenText(paths.inputPath) && WritesOutput() && !GivenText(paths.outputPath) ==>
                r == Fail(ValueError(NoOutputMessage))
      ensures r == Fail(ValueError(NoCorMessage)) <==>
                (GivenText(paths.inputPath) && (WritesOutput() ==> GivenText(paths.outputPath))
                 && Reconstructs() && cor.None?)
    {
      if !GivenText(paths.inputPath) then Fail(ValueError(NoInputMessage))
      else if WritesOutput() && !GivenText(paths.outputPath) then Fail(ValueError(NoOutputMessage))
      else if cor.None? && Reconstructs() then Fail(ValueError(NoCorMessage))
      else Pass
    }

    /** `update`: copies every parsed option verbatim, maps the dtype name,
        takes a truthy cor truncated to an int, and as its last step checks
        the result. */
    method Update(args: Args) returns (outcome: Outcome<PyError>)
      modifies this
      ensures paths == args.paths && preproc == args.preproc
      ensures dataDtype == SelectDType(args.dataDtype, old(dataDtype))
      ensures debugging == args.debugging
      ensures cor == UpdatedCor(args.cor, old(cor))
      ensures findCor == args.findCor && recon == args.recon
      ensures convert == args.convert && convertPrefix == args.convertPrefix
      ensures imopr == args.imopr && aggregation == args.aggregation
      ensures outcome == HandleSpecialArguments()
    {
      paths := args.paths;
      preproc := args.preproc;

      dataDtype := SelectDType(args.dataDtype, dataDtype);

      debugging := args.debugging;

      cor := UpdatedCor(args.cor, cor);

      findCor := args.findCor;
      recon := args.recon;
      convert := args.convert;
      convertPrefix := args.convertPrefix;
      imopr := args.imopr;
      aggregation := args.aggregation;

      outcome := HandleSpecialArguments();
    }
  }
}
