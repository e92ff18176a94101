/** What a run of the export script guarantees, stated over the run function
    that RunExport is proved to follow. */
module ExportProperties {
  import opened Wrappers
  import opened ExportConfig
  import opened Onnx
  import opened ExportPipeline

  /** Without --weights the process exits with status 1 before loading,
      tracing or writing anything; with it, it never takes that exit, and the
      process exits with status 0 whether or not a later step raised. */
  lemma CheckpointGate(args: Args, env: Env, files: map<string, Graph>)
    ensures Run(args, env, files).outcome == Exit(1) <==> args.weights.None?
    ensures ExitStatus(Run(args, env, files).outcome) == if args.weights.None? then 1 else 0
    ensures args.weights.None? ==> Run(args, env, files).effects == [] && Run(args, env, files).files == files
  {
  }

  /** A checkpoint that cannot be loaded ends the run at the error
      boundary: nothing is traced or written and no success is reported. */
  lemma FailedLoadStops(args: Args, env: Env, files: map<string, Graph>)
    requires args.weights.Some? && !env.loadCheckpoint(args.weights.value)
    ensures Run(args, env, files) == RunResult(Aborted(CheckpointError), [LoadCheckpoint(args.weights.value)], files)
    ensures ExitStatus(Run(args, env, files).outcome) == 0
  {
  }

  /** A run reports success exactly when the checkpoint is given and loads,
      the size resolves, the export succeeds and the checker accepts the
      graph: only a failure of the repair unit is recovered. */
  lemma SuccessIff(args: Args, env: Env, files: map<string, Graph>)
    ensures Run(args, env, files).outcome.Exported? <==>
      && args.weights.Some?
      && env.loadCheckpoint(args.weights.value)
      && ResolveImageSize(args.imgSize, env.testSize).Ok?
      && var traced := env.trace(PlannedCall(args, args.weights.value, ResolveImageSize(args.imgSize, env.testSize).value));
         traced.Some? && env.check(traced.value)
  {
    if args.weights.Some? && env.loadCheckpoint(args.weights.value) && ResolveImageSize(args.imgSize, env.testSize).Ok? {
      var weights, hw := args.weights.value, ResolveImageSize(args.imgSize, env.testSize).value;
      assert Run(args, env, files) == RunTraced(args, env, weights, hw, files);
      match env.trace(PlannedCall(args, weights, hw))
      case None =>
      case Some(g) =>
        var call := PlannedCall(args, weights, hw);
        assert RunTraced(args, env, weights, hw, files)
          == RunChecked(env, call.path, [LoadCheckpoint(weights), Export(call)], files[call.path := g]);
    }
  }

  /** A one-value --img-size list fails at the first indexing of the second
      value: nothing is traced and no file is written. */
  lemma ShortImageSizeStopsBeforeExport(args: Args, env: Env, files: map<string, Graph>)
    requires args.weights.Some? && env.loadCheckpoint(args.weights.value) && |args.imgSize| == 1
    ensures Run(args, env, files) == RunResult(Aborted(ImgSizeIndexError), [LoadCheckpoint(args.weights.value)], files)
  {
  }

  /** Once the checkpoint is loaded and the size resolved, the second step is
      the export call: input (batch, 3, H, W) with (H, W) from --img-size or
      the experiment's test size, the fixed tensor names and opset 13, and
      batch axes marked dynamic exactly when --dynamic is given. The export
      effect also stands for the `torch.randn` call of line 90, whose failure
      (for a negative size) is counted as a failure of the tracer. */
  lemma TracedCall(args: Args, env: Env, files: map<string, Graph>)
    requires args.weights.Some? && env.loadCheckpoint(args.weights.value)
    requires ResolveImageSize(args.imgSize, env.testSize).Ok?
    ensures var r := Run(args, env, files);
      var hw := if args.imgSize == [] then env.testSize else (args.imgSize[0], args.imgSize[1]);
      && |r.effects| >= 2 && r.effects[0] == LoadCheckpoint(args.weights.value)
      && r.effects[1] == Export(ExportCall(
           OutputPath(OutputFilename(args.onnxFilename, args.weights.value, args.batchSize, hw)),
           [args.batchSize, 3, hw.0, hw.1], ["images"], ["output"], DynamicAxes(args.dynamic), 13))
  {
  }

  /** The single output path: every export, check and save of a run uses
      the path built from the file name, and so does the success report. */
  lemma OnlyOutputPathIsTouched(args: Args, env: Env, files: map<string, Graph>, hw: (int, int))
    requires args.weights.Some?
    requires ResolveImageSize(args.imgSize, env.testSize) == Ok(hw)
    ensures var r := Run(args, env, files);
      var f := OutputPath(OutputFilename(args.onnxFilename, args.weights.value, args.batchSize, hw));
      && (forall e | e in r.effects :: e.Export? ==> e.call.path == f)
      && (forall e | e in r.effects :: e.Check? ==> e.path == f)
      && (forall e | e in r.effects :: e.SaveRepaired? ==> e.path == f)
      && (r.outcome.Exported? ==> r.outcome.path == f)
  {
    var weights := args.weights.value;
    var call := PlannedCall(args, weights, hw);
    var r := Run(args, env, files);
    if !env.loadCheckpoint(weights) {
      assert r.effects == [LoadCheckpoint(weights)] && r.files == files;
    } else {
      assert r == RunTraced(args, env, weights, hw, files);
      match env.trace(call)
      case None =>
        assert r.effects == [LoadCheckpoint(weights), Export(call)] && r.files == files;
      case Some(g) =>
        assert r == RunChecked(env, call.path, [LoadCheckpoint(weights), Export(call)], files[call.path := g]);
    }
  }

  /** No file other than the one at the output path changes in a run. */
  lemma OtherFilesUnchanged(args: Args, env: Env, files: map<string, Graph>, hw: (int, int))
    requires args.weights.Some?
    requires ResolveImageSize(args.imgSize, env.testSize) == Ok(hw)
    ensures var r := Run(args, env, files);
      var f := OutputPath(OutputFilename(args.onnxFilename, args.weights.value, args.batchSize, hw));
      r.files - {f} == files - {f}
  {
    var weights := args.weights.value;
    var call := PlannedCall(args, weights, hw);
    var r := Run(args, env, files);
    if !env.loadCheckpoint(weights) {
      assert r.effects == [LoadCheckpoint(weights)] && r.files == files;
    } else {
      assert r == RunTraced(args, env, weights, hw, files);
      match env.trace(call)
      case None =>
        assert r.effects == [LoadCheckpoint(weights), Export(call)] && r.files == files;
      case Some(g) =>
        assert r == RunChecked(env, call.path, [LoadCheckpoint(weights), Export(call)], files[call.path := g]);
    }
  }

  /** When the repair unit is abandoned (simplifier raised, check flag false,
      or optimizer raised), the file at the output path is the exported graph,
      nothing is saved over it, and the run still reports success after
      exactly the load, the export and the check. */
  lemma RepairFallback(args: Args, env: Env, files: map<string, Graph>, hw: (int, int), g: Graph)
    requires args.weights.Some? && env.loadCheckpoint(args.weights.value)
    requires ResolveImageSize(args.imgSize, env.testSize) == Ok(hw)
    requires env.trace(PlannedCall(args, args.weights.value, hw)) == Some(g) && env.check(g)
    requires || env.simplify(g).SimplifyRaised?
             || !env.simplify(g).check
             || env.optimize(env.simplify(g).model).OptimizeRaised?
    ensures var r := Run(args, env, files);
      var f := PlannedCall(args, args.weights.value, hw).path;
      && r.outcome == Exported(f, false)
      && r.files == files[f := g]
      && r.effects == [LoadCheckpoint(args.weights.value), Export(PlannedCall(args, args.weights.value, hw)), Check(f)]
  {
  }

  /** When the repair unit succeeds, the file at the output path holds the
      simplified graph, saved once, as the step after the check. */
  lemma RepairPersistsSimplified(args: Args, env: Env, files: map<string, Graph>, hw: (int, int), g: Graph)
    requires args.weights.Some? && env.loadCheckpoint(args.weights.value)
    requires ResolveImageSize(args.imgSize, env.testSize) == Ok(hw)
    requires env.trace(PlannedCall(args, args.weights.value, hw)) == Some(g) && env.check(g)
    requires env.simplify(g).Simplified? && env.simplify(g).check
    requires env.optimize(env.simplify(g).model).Optimized?
    ensures var r := Run(args, env, files);
      var f := PlannedCall(args, args.weights.value, hw).path;
      && r.outcome == Exported(f, true)
      && r.files == files[f := env.simplify(g).model]
      && r.effects == [LoadCheckpoint(args.weights.value), Export(PlannedCall(args, args.weights.value, hw)),
                       Check(f), SaveRepaired(f)]
  {
  }

  /** The optimizer's graph never reaches the disk: replacing the optimizer by
      one that succeeds and fails on the same graphs changes nothing about a
      run. */
  lemma OptimizedGraphNeverSaved(args: Args, env: Env, files: map<string, Graph>,
                                 optimize: Graph -> OptimizeOutcome)
    requires forall g :: env.optimize(g).Optimized? == optimize(g).Optimized?
    ensures Run(args, env, files) == Run(args, env.(optimize := optimize), files)
  {
  }

  /** An example: `--weights model.pth --img-size 640 640` with every other
      option at its default. */
  lemma ModelPthRun(env: Env, files: map<string, Graph>)
    requires env.loadCheckpoint("model.pth")
    ensures var r := Run(DefaultArgs("model.pth").(imgSize := [640, 640]), env, files);
      && |r.effects| >= 2
      && r.effects[1] == Export(ExportCall("./weights/onnx/model_1x3x640x640.onnx",
           [1, 3, 640, 640], ["images"], ["output"], None, 13))
  {
    var args := DefaultArgs("model.pth").(imgSize := [640, 640]);
    assert OutputPath(OutputFilename(None, "model.pth", 1, (640, 640)))
      == "./weights/onnx/model_1x3x640x640.onnx" by {
      ModelPthExample();
      ModelPthOutputPath();
    }
    TracedCall(args, env, files);
  }
}
