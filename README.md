# YOLOX ONNX export: configuration and repair policy

A Dafny model of the decision logic in `main()` of the YOLOX ONNX export
script. From the parsed command-line values and the experiment's default test
size, a run

1. exits with status 1 when no checkpoint path (`--weights`) is given, before
   loading, tracing or writing anything;
2. resolves the traced image size (H, W): the experiment's `test_size` when
   `--img-size` is empty, otherwise the first two values given;
3. traces a random input of shape (batch, 3, H, W);
4. names the output `<checkpoint stem>_<batch>x3x<H>x<W>.onnx` unless
   `--onnx-filename` is given, and writes it under `./weights/onnx/`;
5. exports with input `images`, output `output`, opset 13, and the batch axis
   of both marked dynamic only with `--dynamic`;
6. reads the file back and checks it, then runs the repair unit: simplify,
   require the simplifier's check flag, optimize, and save the *simplified*
   graph over the file. Any failure in that unit leaves the exported file in
   place, and the run still reports success.

Modules:

- `Wrappers` — Option and Result.
- `Strings` — splitting at the last occurrence of a character (Python's
  `rfind`), with the lemma that it undoes a join.
- `Decimal` — Python's `str` on integers and its inverse.
- `Paths` — `PurePosixPath.name`, `.stem` and `.suffix` (with the suffix
  rule of Python 3.12 and 3.13), and joining with `/`.
- `ExportConfig` — the arguments, the size resolution, the file name and path,
  the dynamic axes and the export call, with a parser that reads a derived
  file name back.
- `Onnx` — ONNX graphs as opaque values, the simplifier and optimizer as
  outcomes, and the repair policy as a function.
- `ExportPipeline` — the file system as a `Disk` object mapping paths to
  graphs; the run as functions (`Run`, then `RunTraced` once the size is
  known, then `RunChecked` once the file is written); and `RunExport`,
  `ExportTraced`, `CheckAndRepair` and `Repair`, the step-by-step methods
  proved to follow them.
- `ExportProperties` — the guarantees of a run, as lemmas over `Run`.

The foreign calls (checkpoint loading, tracing, the ONNX checker, the
simplifier, the optimizer) and the experiment's test size are fields of an
`Env` value passed to the run, so every property holds whatever these
collaborators do.

Points of the code's behaviour that the model follows:

- A one-value `--img-size` list is not rejected up front: line 90 indexes the
  second value and the `IndexError` ends the run there
  (`Aborted(ImgSizeIndexError)`).
- The repair unit computes the optimizer's result (line 118) but saves the
  simplified graph (line 119); the model saves the simplified graph and proves
  that the optimizer's output never reaches the disk.
- When the repair unit fails nothing is re-saved: the exported file is left
  as it is.
- `main()` is decorated with loguru's `logger.catch` (line 65) with its
  default `reraise=False`: an exception other than the `SystemExit` of
  `exit(1)` is logged, `main()` returns normally and the process exits with
  status 0, without the success message. `ExitStatus` gives 1 for the
  checkpoint gate and 0 for every other outcome.
- Without `--dynamic` the exporter receives no dynamic axes at all
  (`dynamic_axes=None`); the fixed batch dimension is then the traced shape's.

## Model

| member | source | states |
|---|---|---|
| `ExportConfig.DefaultArgs` | tools/export_onnx.py:36-56 | with only `--weights`, the size list is empty, batch is 1, dynamic is off and no file name is set |
| `ExportConfig.InputShape` | tools/export_onnx.py:90 | the traced tensor has four dimensions: the batch size, 3 channels, then H and W |
| `ExportConfig.ResolveImageSize` | tools/export_onnx.py:86-90 | empty list gives the experiment's test size unchanged; one value fails with the index error; two or more give the first two values unchanged |
| `ExportConfig.OutputFilename` | tools/export_onnx.py:92-94 | an explicit file name is used verbatim; a derived one ends in `.onnx` |
| `ExportConfig.ShapeFilenameRoundTrip` | tools/export_onnx.py:93-94 | the derived name `<stem>_<b>x3x<H>x<W>.onnx` is read back to the exact stem, batch, H and W, whatever the stem contains |
| `ExportConfig.DerivedFilenameRoundTrip` | tools/export_onnx.py:93-94 | the name derived from a checkpoint path reads back to that path's stem, the batch size and the traced (H, W); `DerivedFilename` and `ShapeFilename` compute it |
| `ExportConfig.ShapeFilenameInjective` | tools/export_onnx.py:93-94 | different stems, batch sizes or shapes never derive the same file name |
| `ExportConfig.ModelPthExample` | tools/export_onnx.py:92-94 | `model.pth`, batch 1, 640x640 gives `model_1x3x640x640.onnx` |
| `ExportConfig.OutputPath` | tools/export_onnx.py:96 | the path is `./weights/onnx/` followed by the file name, unchanged |
| `Paths.Join` | tools/export_onnx.py:96 | joining puts the directory, one `/` and the file name end to end, each unchanged |
| `ExportConfig.OutputPathName` | tools/export_onnx.py:96 | for a non-empty file name, other than `.`, without `/`, the last component of the output path is that file name |
| `ExportConfig.DynamicAxes` | tools/export_onnx.py:103-104 | axes are passed iff `--dynamic`; then exactly `images` and `output` map axis 0 to `batch` |
| `ExportConfig.ExportCallFor` | tools/export_onnx.py:97-106 | the call uses the given path and shape, input `images`, output `output`, opset 13, and has dynamic axes iff the flag is set |
| `Decimal.IntToString` | tools/export_onnx.py:93-94 | `str` of an integer is non-empty, digits with a leading `-` exactly for negatives |
| `Decimal.IntToStringRoundTrip` | tools/export_onnx.py:93-94 | the text of batch, H and W parses back to the same integer |
| `Decimal.IntToStringInjective` | tools/export_onnx.py:93-94 | different integers print differently |
| `Paths.Name` | tools/export_onnx.py:93 | the last path component is empty or a single component without `/` |
| `Paths.NameOfJoin` | tools/export_onnx.py:93 | the name of `dir/file` is `file` for any directory |
| `Paths.NameIgnoresTrailingSeparators` | tools/export_onnx.py:93 | a trailing `/` or `/.` does not change the name |
| `Paths.NameOfComponent` | tools/export_onnx.py:93 | a bare file name is its own name |
| `Paths.Suffix` | tools/export_onnx.py:93 | the suffix is empty or a dot followed by at least one character and no other dot |
| `Paths.Stem` | tools/export_onnx.py:93 | the stem is a prefix of the name, followed in the name by a dot unless it is the whole name; its laws are StemSuffixPartition and StemOfAddedSuffix |
| `Paths.StemSuffixPartition` | tools/export_onnx.py:93 | stem followed by suffix is the name, and the stem is empty only for an empty name |
| `Paths.StemOfAddedSuffix` | tools/export_onnx.py:93 | removing the suffix of `stem.ext` gives `stem` back |
| `Paths.StemOfCheckpointPath` | tools/export_onnx.py:93 | the stem of `model.pth` is `model` |
| `Paths.StemOfNestedCheckpointPath` | tools/export_onnx.py:93 | the stem of `weights/yolox_s.pth` is `yolox_s` |
| `Paths.StemOfDottedNames` | tools/export_onnx.py:93 | only the last suffix is removed, and a leading dot is not a suffix |
| `Onnx.RepairedGraph` | tools/export_onnx.py:113-122 | the repair keeps a graph iff simplify returns with a true flag and optimize returns; the kept graph is the simplified one |
| `Onnx.OptimizerResultDiscarded` | tools/export_onnx.py:118-119 | the repaired graph depends only on whether the optimizer raises, not on what it returns |
| `ExportPipeline.ExitStatus` | tools/export_onnx.py:65-81 | the status is the code of `exit` at the gate and 0 for every other outcome, since the error boundary does not re-raise |
| `ExportPipeline.Run` | tools/export_onnx.py:75-124 | a run exits with 1 iff no checkpoint is given, and then does nothing else; otherwise loading the checkpoint is its first step, and a checkpoint that does not load aborts the run with nothing else done; a reported success names a file that exists |
| `ExportPipeline.PlannedCall` | tools/export_onnx.py:90-106 | the export call has the output path of the file name, input shape (batch, 3, H, W), names `images`/`output`, opset 13 and the flag's dynamic axes |
| `ExportPipeline.RunTraced` | tools/export_onnx.py:90-124 | once (H, W) is known, the load is followed by exactly the planned export call; success reports the planned path; a failed trace aborts with the trace error after exactly the load and the export, and writes nothing |
| `ExportPipeline.RunChecked` | tools/export_onnx.py:109-124 | after the export, the check is the next step and a save of the same file may follow; success iff the check passes, else the validation error; the file then holds the exported or the simplified graph |
| `ExportPipeline.Disk.Save` | tools/export_onnx.py:119 | saving replaces exactly the file at the path |
| `ExportPipeline.Disk.Load` | tools/export_onnx.py:109 | loading returns the graph stored at the path, if any |
| `ExportPipeline.Repair` | tools/export_onnx.py:113-122 | the repair step reports success iff the repair policy keeps a graph, and then the file holds that graph; otherwise no file changes |
| `ExportPipeline.CheckAndRepair` | tools/export_onnx.py:109-124 | loading, checking and repairing the written file ends as `RunChecked` says |
| `ExportPipeline.RunExport` | tools/export_onnx.py:75-124 | `main()` ends with the outcome, the effects and the files that `Run` gives for the files before it |
| `ExportPipeline.ExportTraced` | tools/export_onnx.py:90-124 | building the shape, name and path, exporting and then checking and repairing ends as `RunTraced` says |
| `ExportProperties.CheckpointGate` | tools/export_onnx.py:65-81 | a run exits with status 1 iff no checkpoint path is given, and then nothing is loaded, traced or written; every other run exits with status 0 |
| `ExportProperties.FailedLoadStops` | tools/export_onnx.py:75-78 | a checkpoint that does not load aborts the run after the load alone, with no file written, no success report and status 0 |
| `ExportProperties.SuccessIff` | tools/export_onnx.py:75-124 | a run reports success iff the checkpoint is given and loads, the size resolves, the export succeeds and the checker accepts the graph; a repair failure is the only one recovered |
| `ExportProperties.ShortImageSizeStopsBeforeExport` | tools/export_onnx.py:86-90 | a one-value size list aborts with the index error after loading and before any export or write |
| `ExportProperties.TracedCall` | tools/export_onnx.py:90-106 | the export call's input shape is (batch, 3, H, W) from the resolved size, with the fixed names, opset 13 and the dynamic axes of the flag |
| `ExportProperties.OnlyOutputPathIsTouched` | tools/export_onnx.py:96-119 | export, check, save and the success report all use the one output path |
| `ExportProperties.OtherFilesUnchanged` | tools/export_onnx.py:96-119 | the files on disk before and after a run agree everywhere except at the output path: no other file is created, removed or changed |
| `ExportProperties.RepairFallback` | tools/export_onnx.py:113-124 | if simplify raises, its flag is false or optimize raises, the file holds the exported graph, nothing is saved over it and the run still reports success after exactly the load, the export and the check |
| `ExportProperties.RepairPersistsSimplified` | tools/export_onnx.py:115-119 | after a successful repair the file holds the simplified graph, and the steps are exactly load, export, check and one save |
| `ExportProperties.OptimizedGraphNeverSaved` | tools/export_onnx.py:118-119 | a run is the same for any optimizer that raises on the same graphs, so its output graph is never persisted |
| `ExportProperties.ModelPthRun` | tools/export_onnx.py:86-106 | `--weights model.pth --img-size 640 640` with the other options at their defaults exports `./weights/onnx/model_1x3x640x640.onnx` from a 1x3x640x640 input, without dynamic axes |

## Left out

- Argument parsing (`make_parser`) and logging: the parsed values are the `Args` datatype and log lines are not modelled.
- The `logger.catch` error boundary: exceptions become `Aborted(error)` and exit status 0 (`ExitStatus`); the logged message is not modelled.
- Building the experiment and the model (`get_exp`, `exp.merge`, `exp.get_model`): their code is not part of this model. They run before the checkpoint gate (lines 69-72) and are assumed to succeed; if one raises, the run ends at the error boundary with status 0, even with no `--weights`, so `CheckpointGate` holds only for runs where they succeed. The test size is a pair in `Env`, assumed to have two entries.
- Checkpoint loading (`torch.load`, `model.eval`, `load_state_dict`): one success/failure outcome in `Env`; a failure aborts the run with `CheckpointError`.
- Activation substitution (`replace_module` with `SiLU`) and the `decode_in_inference` assignment: the module-tree traversal lives in `yolox.utils`, which is not part of this model.
- The random input values of `torch.randn`, and the error it raises for negative sizes: such a failure is folded into the tracer's failure outcome.
- Tracing, the ONNX checker, the simplifier and the optimizer: opaque outcomes in `Env`; a trace that fails is assumed to leave the files as they were, and a file written by the exporter is assumed to load back as the graph it wrote.
- Numerical equivalence of the simplified graph and determinism of tracing: floating-point behaviour of foreign libraries.
- `assert check` under `python -O`: the model assumes assertions are enabled, so a false flag always abandons the repair.
- File-system failures (missing `./weights/onnx` directory, permissions) and two concurrent runs racing on one output file.
- Paths: `Path` is modelled as `PurePosixPath` with the Python 3.12/3.13 suffix rule; Windows paths (`\` separators, drives) and the treatment of a trailing single dot as a suffix in later Python releases are not modelled.
