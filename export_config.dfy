/** The export configuration that the script derives from its command-line
    values before tracing: the image size, the traced input shape, the output
    file name and path, and the arguments passed to the ONNX exporter. */
module ExportConfig {
  import opened Wrappers
  import opened Strings
  import Decimal
  import Paths

  /** The parsed command-line values that the export core reads. */
  datatype Args = Args(
    weights: Option<string>,      // --weights, default None
    imgSize: seq<int>,            // --img-size H W, default []
    batchSize: int,               // --batch-size, default 1
    dynamic: bool,                // --dynamic, default off
    onnxFilename: Option<string>  // --onnx-filename, default None
  )

  /** The failures that end a run before the success message. */
  datatype ExportError =
    | ImgSizeIndexError   // `img_size[1]` of a one-element --img-size list
    | CheckpointError     // the checkpoint cannot be loaded into the model
    | TraceError          // the tracer raised
    | ValidationError     // the ONNX checker rejected the exported graph

  /** The values argparse gives when only --weights is passed. */
  function DefaultArgs(weights: string): (a: Args)
    ensures a.weights == Some(weights) && a.imgSize == [] && a.batchSize == 1
    ensures !a.dynamic && a.onnxFilename.None?
  {
    Args(Some(weights), [], 1, false, None)
  }

  const Channels: int := 3
  const OpsetVersion: int := 13
  const InputName: string := "images"
  const OutputName: string := "output"
  const OutputDir: string := "./weights/onnx"

  /** (H, W) used for tracing: an empty --img-size list is replaced by the
      experiment's test size, otherwise the first two values are read, which
      fails for a list of one value. Later values are ignored. */
  function ResolveImageSize(imgSize: seq<int>, testSize: (int, int)): (r: Result<(int, int), ExportError>)
    ensures |imgSize| == 0 ==> r == Ok(testSize)
    ensures |imgSize| == 1 ==> r == Err(ImgSizeIndexError)
    ensures |imgSize| >= 2 ==> r == Ok((imgSize[0], imgSize[1]))
  {
    var size := if |imgSize| == 0 then [testSize.0, testSize.1] else imgSize;
    if |size| < 2 then Err(ImgSizeIndexError) else Ok((size[0], size[1]))
  }

  /** The shape of the random tensor handed to the tracer. */
  function InputShape(batchSize: int, hw: (int, int)): (s: seq<int>)
    ensures |s| == 4 && s[0] == batchSize && s[1] == Channels
    ensures s[2] == hw.0 && s[3] == hw.1
  {
    [batchSize, Channels, hw.0, hw.1]
  }

  /** `<stem>_<batch>x3x<H>x<W>.onnx`. */
  function ShapeFilename(stem: string, batchSize: int, h: int, w: int): string
  {
    stem + "_" + Decimal.IntToString(batchSize) + "x3x" + Decimal.IntToString(h)
      + "x" + Decimal.IntToString(w) + ".onnx"
  }

  /** The file name used when --onnx-filename is not given: the checkpoint
      path's stem tagged with the traced shape. */
  function DerivedFilename(weights: string, batchSize: int, hw: (int, int)): string
  {
    ShapeFilename(Paths.Stem(Paths.Name(weights)), batchSize, hw.0, hw.1)
  }

  /** The output file name: the explicit one verbatim, otherwise the derived one. */
  function OutputFilename(explicit: Option<string>, weights: string, batchSize: int, hw: (int, int)): (name: string)
    ensures explicit.Some? ==> name == explicit.value
    ensures explicit.None? ==> EndsWith(name, ".onnx")
  {
    match explicit
    case Some(name) => name
    case None => DerivedFilename(weights, batchSize, hw)
  }

  /** The single path that the exporter writes, the checker reads and the
      repair step overwrites. */
  function OutputPath(filename: string): (p: string)
    ensures |p| == |OutputDir| + 1 + |filename|
    ensures p[..|OutputDir| + 1] == OutputDir + "/" && p[|OutputDir| + 1..] == filename
  {
    Paths.Join(OutputDir, filename)
  }

  /** A file name without '/' names the output file itself: the path adds a
      directory and nothing else. */
  lemma OutputPathName(filename: string)
    requires Paths.IsComponent(filename)
    ensures Paths.Name(OutputPath(filename)) == filename
  {
    Paths.NameOfJoin(OutputDir, filename);
  }

  type Axes = map<string, map<int, string>>

  /** The `dynamic_axes` argument: the batch axis of the input and the output
      is symbolic when --dynamic is set; otherwise no axes are passed. */
  function DynamicAxes(dynamic: bool): (r: Option<Axes>)
    ensures dynamic <==> r.Some?
    ensures r.Some? ==> r.value.Keys == {InputName, OutputName}
    ensures r.Some? ==> forall name :: name in r.value ==> r.value[name] == map[0 := "batch"]
  {
    if dynamic then Some(map[InputName := map[0 := "batch"], OutputName := map[0 := "batch"]])
    else None
  }

  /** The arguments of one `torch.onnx.export` call. */
  datatype ExportCall = ExportCall(
    path: string,
    inputShape: seq<int>,
    inputNames: seq<string>,
    outputNames: seq<string>,
    dynamicAxes: Option<Axes>,
    opsetVersion: int
  )

  /** The export call for a path, a traced shape and the dynamic flag. The
      names and the opset do not depend on the flag. */
  function ExportCallFor(path: string, shape: seq<int>, dynamic: bool): (c: ExportCall)
    ensures c.path == path && c.inputShape == shape
    ensures c.inputNames == [InputName] && c.outputNames == [OutputName] && c.opsetVersion == 13
    ensures c.dynamicAxes.Some? <==> dynamic
  {
    ExportCall(path, shape, [InputName], [OutputName], DynamicAxes(dynamic), OpsetVersion)
  }

  /** Reads a file name of the form `<stem>_<batch>x3x<H>x<W>.onnx` back into
      its stem and numbers; None for any other name. */
  function ParseShapeFilename(name: string): Option<(string, int, int, int)>
  {
    if !EndsWith(name, ".onnx") then None else ParseShapeTag(name[..|name| - 5])
  }

  /** Reads `<stem>_<batch>x3x<H>x<W>` from the right, so that the stem may
      contain any character. */
  function ParseShapeTag(body: string): Option<(string, int, int, int)>
  {
    var afterH :- SplitLast(body, 'x');
    var afterBatch :- SplitLast(afterH.0, 'x');
    var tagged := afterBatch.0;
    if !EndsWith(tagged, "x3") then None
    else
      var stemAndBatch :- SplitLast(tagged[..|tagged| - 2], '_');
      var b :- Decimal.ParseInt(stemAndBatch.1);
      var h :- Decimal.ParseInt(afterBatch.1);
      var w :- Decimal.ParseInt(afterH.1);
      Some((stemAndBatch.0, b, h, w))
  }

  lemma NumberHasNoSeparators(n: int)
    ensures 'x' !in Decimal.IntToString(n) && '_' !in Decimal.IntToString(n)
  {
  }

  /** The derived file name records the stem, the batch size and the shape
      unambiguously, whatever characters the stem contains. */
  lemma {:induction false} ShapeFilenameRoundTrip(stem: string, batchSize: int, h: int, w: int)
    ensures ParseShapeFilename(ShapeFilename(stem, batchSize, h, w)) == Some((stem, batchSize, h, w))
  {
    var bs, hs, ws := Decimal.IntToString(batchSize), Decimal.IntToString(h), Decimal.IntToString(w);
    var tagged := stem + ['_'] + bs + "x3";
    var afterH := tagged + ['x'] + hs;
    var body := afterH + ['x'] + ws;
    var name := ShapeFilename(stem, batchSize, h, w);
    assert name[..|name| - 5] == body && EndsWith(name, ".onnx") by {
      assert name == body + ".onnx";
      EndsWithJoin(body, ".onnx");
    }
    assert SplitLast(body, 'x') == Some((afterH, ws)) by {
      NumberHasNoSeparators(w);
      SplitLastOfJoin(afterH, 'x', ws);
    }
    assert SplitLast(afterH, 'x') == Some((tagged, hs)) by {
      NumberHasNoSeparators(h);
      SplitLastOfJoin(tagged, 'x', hs);
    }
    assert EndsWith(tagged, "x3") && tagged[..|tagged| - 2] == stem + ['_'] + bs by {
      EndsWithJoin(stem + ['_'] + bs, "x3");
    }
    assert SplitLast(stem + ['_'] + bs, '_') == Some((stem, bs)) by {
      NumberHasNoSeparators(batchSize);
      SplitLastOfJoin(stem, '_', bs);
    }
    Decimal.IntToStringRoundTrip(batchSize);
    Decimal.IntToStringRoundTrip(h);
    Decimal.IntToStringRoundTrip(w);
  }

  /** A derived file name reads back to the checkpoint path's stem, the batch
      size and the traced (H, W). */
  lemma DerivedFilenameRoundTrip(weights: string, batchSize: int, hw: (int, int))
    ensures ParseShapeFilename(DerivedFilename(weights, batchSize, hw))
         == Some((Paths.Stem(Paths.Name(weights)), batchSize, hw.0, hw.1))
  {
    ShapeFilenameRoundTrip(Paths.Stem(Paths.Name(weights)), batchSize, hw.0, hw.1);
  }

  /** Two runs with different checkpoint stems, batch sizes or shapes never
      derive the same file name. */
  lemma ShapeFilenameInjective(s1: string, b1: int, h1: int, w1: int, s2: string, b2: int, h2: int, w2: int)
    requires ShapeFilename(s1, b1, h1, w1) == ShapeFilename(s2, b2, h2, w2)
    ensures s1 == s2 && b1 == b2 && h1 == h2 && w1 == w2
  {
    ShapeFilenameRoundTrip(s1, b1, h1, w1);
    ShapeFilenameRoundTrip(s2, b2, h2, w2);
  }

  lemma Str640()
    ensures Decimal.IntToString(640) == "640" && Decimal.IntToString(1) == "1"
  {
  }

  /** An example: `model.pth` traced at 640x640 with batch 1. */
  lemma ModelPthExample()
    ensures OutputFilename(None, "model.pth", 1, (640, 640)) == "model_1x3x640x640.onnx"
  {
    assert DerivedFilename("model.pth", 1, (640, 640)) == ShapeFilename("model", 1, 640, 640) by {
      Paths.StemOfCheckpointPath();
    }
    assert ShapeFilename("model", 1, 640, 640) == "model_1x3x640x640.onnx" by {
      Str640();
    }
  }

  /** The file of that example lands in the fixed output directory. */
  lemma ModelPthOutputPath()
    ensures OutputPath("model_1x3x640x640.onnx") == "./weights/onnx/model_1x3x640x640.onnx"
  {
  }
}
