/** `main()` of the export script from the checkpoint gate on: resolve the
    traced shape, derive the output path, export, check, then try the repair
    unit and fall back to the exported file. The only state it changes is the
    file system, modelled as a map from path to the graph stored there. */
module ExportPipeline {
  import opened Wrappers
  import opened ExportConfig
  import opened Onnx
  import Paths

  /** The files the script writes: each path holds one ONNX graph. */
  class Disk {
    var files: map<string, Graph>

    constructor (initial: map<string, Graph>)
      ensures files == initial
    {
      files := initial;
    }

    /** `torch.onnx.export` / `onnx.save`: (over)writes one file. */
    method Save(path: string, model: Graph)
      modifies this
      ensures files == old(files)[path := model]
    {
      files := files[path := model];
    }

    /** `onnx.load`: the graph stored at a path, if there is one. */
    method Load(path: string) returns (r: Option<Graph>)
      ensures r.Some? <==> path in files
      ensures r.Some? ==> r.value == files[path]
    {
      r := if path in files then Some(files[path]) else None;
    }
  }

  /** The collaborators whose code is not part of this model, as values:
      the experiment's default test size and the outcome of each foreign call. */
  datatype Env = Env(
    testSize: (int, int),                 // exp.test_size
    loadCheckpoint: string -> bool,       // torch.load + load_state_dict succeed
    trace: ExportCall -> Option<Graph>,   // torch.onnx.export; None when it raises
    check: Graph -> bool,                 // onnx.checker.check_model passes
    simplify: Graph -> SimplifyOutcome,
    optimize: Graph -> OptimizeOutcome
  )

  /** The steps with an effect outside the process, in the order they happen. */
  datatype Effect =
    | LoadCheckpoint(weights: string)
    | Export(call: ExportCall)
    | Check(path: string)     // onnx.load + checker
    | SaveRepaired(path: string)

  datatype Outcome =
    | Exit(code: int)                        // exit(1) at the checkpoint gate
    | Aborted(error: ExportError)            // an exception reaches the error boundary
    | Exported(path: string, repaired: bool) // the success message is logged

  /** The process exit status: `exit(1)` at the gate; 0 otherwise, because
      `logger.catch` with its default `reraise=False` logs an exception and
      lets `main()` return normally. */
  function ExitStatus(outcome: Outcome): (code: int)
    ensures outcome.Exit? ==> code == outcome.code
    ensures !outcome.Exit? ==> code == 0
  {
    if outcome.Exit? then outcome.code else 0
  }

  datatype RunResult = RunResult(outcome: Outcome, effects: seq<Effect>, files: map<string, Graph>)

  /** What one invocation does, from the parsed arguments, the collaborators
      and the files present before it starts. */
  function Run(args: Args, env: Env, files: map<string, Graph>): (r: RunResult)
    ensures r.outcome == Exit(1) <==> args.weights.None?
    ensures args.weights.None? ==> r.effects == [] && r.files == files
    ensures args.weights.Some? ==> |r.effects| > 0 && r.effects[0] == LoadCheckpoint(args.weights.value)
    ensures r.outcome.Exported? ==> r.outcome.path in r.files
    ensures args.weights.Some? && !env.loadCheckpoint(args.weights.value) ==>
      r == RunResult(Aborted(CheckpointError), [LoadCheckpoint(args.weights.value)], files)
  {
    match args.weights
    case None => RunResult(Exit(1), [], files)
    case Some(weights) =>
      if !env.loadCheckpoint(weights) then RunResult(Aborted(CheckpointError), [LoadCheckpoint(weights)], files)
      else
        match ResolveImageSize(args.imgSize, env.testSize)
        case Err(e) => RunResult(Aborted(e), [LoadCheckpoint(weights)], files)
        case Ok(hw) => RunTraced(args, env, weights, hw, files)
  }

  /** The export call a run makes once (H, W) is known. */
  function PlannedCall(args: Args, weights: string, hw: (int, int)): (call: ExportCall)
    ensures call.path == OutputPath(OutputFilename(args.onnxFilename, weights, args.batchSize, hw))
    ensures call.inputShape == [args.batchSize, 3, hw.0, hw.1]
    ensures call.inputNames == ["images"] && call.outputNames == ["output"] && call.opsetVersion == 13
    ensures call.dynamicAxes == DynamicAxes(args.dynamic)
  {
    ExportCallFor(OutputPath(OutputFilename(args.onnxFilename, weights, args.batchSize, hw)),
                  InputShape(args.batchSize, hw), args.dynamic)
  }

  /** The rest of a run once the checkpoint is loaded and (H, W) is known:
      export to the output path, check, and repair. */
  function RunTraced(args: Args, env: Env, weights: string, hw: (int, int),
                     files: map<string, Graph>): (r: RunResult)
    ensures |r.effects| >= 2 && r.effects[0] == LoadCheckpoint(weights)
    ensures r.effects[1] == Export(PlannedCall(args, weights, hw))
    ensures r.outcome.Exported? ==> r.outcome.path == PlannedCall(args, weights, hw).path
    ensures r.outcome.Exported? ==> r.outcome.path in r.files
    ensures env.trace(PlannedCall(args, weights, hw)).None? ==>
      r.outcome == Aborted(TraceError) && |r.effects| == 2 && r.files == files
  {
    var call := PlannedCall(args, weights, hw);
    var f := call.path;
    var loaded := [LoadCheckpoint(weights)];
    match env.trace(call)
    case None => RunResult(Aborted(TraceError), loaded + [Export(call)], files)
    case Some(g) => RunChecked(env, f, loaded + [Export(call)], files[f := g])
  }

  /** The end of a run once the exporter has written the file at `f`: read
      it back and check it, then let the repair unit overwrite it or leave
      it. `done` are the effects so far. */
  function RunChecked(env: Env, f: string, done: seq<Effect>, files: map<string, Graph>): (r: RunResult)
    requires f in files
    ensures r.effects == done + [Check(f)] || r.effects == done + [Check(f), SaveRepaired(f)]
    ensures r.outcome.Exported? <==> env.check(files[f])
    ensures !r.outcome.Exported? ==> r.outcome == Aborted(ValidationError)
    ensures r.outcome.Exported? ==> r.outcome.path == f && f in r.files
    ensures r.files == files || (env.simplify(files[f]).Simplified? && r.files == files[f := env.simplify(files[f]).model])
  {
    var g := files[f];
    var checked := done + [Check(f)];
    if !env.check(g) then RunResult(Aborted(ValidationError), checked, files)
    else
      match RepairedGraph(g, env.simplify, env.optimize)
      case None => RunResult(Exported(f, false), checked, files)
      case Some(s) => RunResult(Exported(f, true), checked + [SaveRepaired(f)], files[f := s])
  }

  /** The repair unit of the script: simplify, insist on the check flag,
      optimize, and save the simplified graph; any failure leaves the file as
      it is. */
  method Repair(disk: Disk, f: string, model: Graph,
                simplify: Graph -> SimplifyOutcome, optimize: Graph -> OptimizeOutcome)
    returns (repaired: bool)
    modifies disk
    ensures repaired <==> RepairedGraph(model, simplify, optimize).Some?
    ensures disk.files == if repaired then old(disk.files)[f := RepairedGraph(model, simplify, optimize).value]
                          else old(disk.files)
  {
    var simplified := simplify(model);
    if simplified.SimplifyRaised? || !simplified.check {
      return false;
    }
    var optimized := optimize(simplified.model);  // computed, never saved
    if optimized.OptimizeRaised? {
      return false;
    }
    disk.Save(f, simplified.model);
    return true;
  }

  /** `main()` step by step: the image size and the file name are filled in
      when missing, the exported file is written, read back and checked, and
      the repair unit may overwrite it. */
  method RunExport(disk: Disk, args: Args, env: Env) returns (outcome: Outcome, effects: seq<Effect>)
    modifies disk
    ensures RunResult(outcome, effects, disk.files) == Run(args, env, old(disk.files))
  {
    if args.weights.None? {
      return Exit(1), [];
    }
    var weights := args.weights.value;
    effects := [LoadCheckpoint(weights)];
    if !env.loadCheckpoint(weights) {
      return Aborted(CheckpointError), effects;
    }
    var imgSize := args.imgSize;
    if |imgSize| == 0 {
      imgSize := [env.testSize.0, env.testSize.1];
    }
    if |imgSize| < 2 {
      return Aborted(ImgSizeIndexError), effects;
    }
    var hw := (imgSize[0], imgSize[1]);
    assert ResolveImageSize(args.imgSize, env.testSize) == Ok(hw);
    outcome, effects := ExportTraced(disk, args, env, weights, hw);
  }

  /** Lines 90-106 of `main()`: build the input shape, the file name and the
      path, export, and hand the written file to the check and repair. */
  method ExportTraced(disk: Disk, args: Args, env: Env, weights: string, hw: (int, int))
    returns (outcome: Outcome, effects: seq<Effect>)
    modifies disk
    ensures RunResult(outcome, effects, disk.files) == RunTraced(args, env, weights, hw, old(disk.files))
  {
    effects := [LoadCheckpoint(weights)];
    var shape := [args.batchSize, Channels, hw.0, hw.1];
    assert shape == InputShape(args.batchSize, hw);
    var onnxFilename := args.onnxFilename;
    if onnxFilename.None? {
      onnxFilename := Some(DerivedFilename(weights, args.batchSize, hw));
    }
    assert onnxFilename.value == OutputFilename(args.onnxFilename, weights, args.batchSize, hw);
    var f := Paths.Join(OutputDir, onnxFilename.value);
    assert f == OutputPath(onnxFilename.value);
    var call := ExportCall(f, shape, [InputName], [OutputName], DynamicAxes(args.dynamic), OpsetVersion);
    assert call == ExportCallFor(f, shape, args.dynamic) == PlannedCall(args, weights, hw);
    effects := effects + [Export(call)];
    var traced := env.trace(call);
    if traced.None? {
      return Aborted(TraceError), effects;
    }
    disk.Save(f, traced.value);
    outcome, effects := CheckAndRepair(disk, env, f, effects);
  }

  /** Lines 109-124 of `main()`: load the exported file, check it, and run
      the repair unit over it. */
  method CheckAndRepair(disk: Disk, env: Env, f: string, done: seq<Effect>)
    returns (outcome: Outcome, effects: seq<Effect>)
    requires f in disk.files
    modifies disk
    ensures RunResult(outcome, effects, disk.files) == RunChecked(env, f, done, old(disk.files))
  {
    var onnxModel := disk.Load(f);
    effects := done + [Check(f)];
    if !env.check(onnxModel.value) {
      return Aborted(ValidationError), effects;
    }
    var repaired := Repair(disk, f, onnxModel.value, env.simplify, env.optimize);
    if repaired {
      effects := effects + [SaveRepaired(f)];
    }
    outcome := Exported(f, repaired);
  }
}
