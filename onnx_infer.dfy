/** ONNXInference and run_inference of backEnd/oonx_infer.py: choosing the
    execution providers, the session and the names of its input and output,
    preprocess, single-image inference, batch inference over a folder and
    the dispatch on the kind of input path. ONNX Runtime and PIL are
    parameters: `runtime` opens a session, `decode` gives what PIL makes of
    an image file. */
module OnnxInfer {
  import opened Errors
  import opened Paths
  import opened FileSystem
  import opened Geometry
  import opened Layout

  const CudaProvider: string := "CUDAExecutionProvider"
  const CpuProvider: string := "CPUExecutionProvider"

  /** The `providers` list of the constructor: CUDA first, then CPU, for
      device "CUDA"; only CPU for anything else. CPU is always the fallback. */
  function ExecutionProviders(provider: string): (ps: seq<string>)
    ensures 0 < |ps| <= 2 && ps[|ps| - 1] == CpuProvider
    ensures CudaProvider in ps <==> provider == "CUDA"
    ensures provider == "CUDA" ==> ps[0] == CudaProvider
    ensures provider != "CUDA" ==> ps == [CpuProvider]
  {
    if provider == "CUDA" then [CudaProvider, CpuProvider] else [CpuProvider]
  }

  /** A batch of images in NCHW layout, as numpy holds it. */
  type Tensor = seq<seq<seq<seq<real>>>>

  /** An ONNX Runtime session: the names of its first input and first
      output and, for `run(output names, {input name: tensor})`, the
      sigmoid of outputs[0][0] that infer computes from it, or None when
      the runtime raises (a tensor the graph does not accept, say). */
  datatype Session = Session(inputName: string, outputName: string, run: (seq<string>, map<string, Tensor>) -> Option<real>)

  /** The probability a session run gives, or the runtime's failure. */
  function RunSession(s: Session, t: Tensor): (r: Result<real>)
    ensures r.Ok? <==> s.run([s.outputName], map[s.inputName := t]).Some?
    ensures r.Ok? ==> r.value == s.run([s.outputName], map[s.inputName := t]).value
    ensures r.Err? ==> r.error == SessionRunFailed
  {
    match s.run([s.outputName], map[s.inputName := t])
    case None => Err(SessionRunFailed)
    case Some(p) => Ok(p)
  }

  /** The RGB samples of a 224 x 224 image. */
  type CropSamples = a: seq<seq<seq<Byte>>> | Is3D(a, CropSize, CropSize, 3)
    witness seq(CropSize, _ => seq(CropSize, _ => seq(3, _ => 0)))

  /** What PIL makes of an image file after convert('RGB'): its size and
      the samples of the centre crop preprocess takes after resizing
      (the resampling itself is PIL's). */
  datatype Picture = Picture(size: Size, cropped: CropSamples)

  /** preprocess: the resize and crop geometry, then the (1, 3, 224, 224)
      normalised channel-first tensor. Only a zero-length side fails, on
      the division inside resize_keep_ratio. */
  function Preprocess(picture: Picture): (r: Result<Tensor>)
    ensures r.Err? <==> picture.size.width == 0 || picture.size.height == 0
    ensures r.Err? ==> r.error == ZeroDivision
    ensures r.Ok? ==> |r.value| == 1 && Is3D(r.value[0], 3, CropSize, CropSize)
    ensures r.Ok? ==> forall ch, y, x :: 0 <= ch < 3 && 0 <= y < CropSize && 0 <= x < CropSize ==>
      r.value[0][ch][y][x] == NormalizeSample(ch, picture.cropped[y][x][ch])
  {
    PreprocessGeometryInBounds(picture.size);
    match PreprocessGeometry(picture.size)
    case Err(err) => Err(err)
    case Ok(_) => Ok(ToInputTensor(picture.cropped, CropSize, CropSize))
  }

  /** What infer(path) returns with session `s`. Image.open fails on a path
      that is not a regular file. */
  function InferResult(s: Session, path: string, entry: Entry, decode: string -> Picture): (r: Result<real>)
    ensures !entry.File? ==> r == Err(CannotOpen(path))
    ensures entry.File? && Preprocess(decode(path)).Err? ==> r == Err(ZeroDivision)
  {
    if !entry.File? then Err(CannotOpen(path))
    else
      match Preprocess(decode(path))
      case Err(err) => Err(err)
      case Ok(t) => RunSession(s, t)
  }

  /** infer reaches the session exactly on a regular file whose image has
      no zero-length side, and then returns what the session gives for the
      preprocessed tensor, fed under the input name and asked for the
      output name; before that it fails on opening or on the resize. */
  lemma InferResultSpec(s: Session, path: string, entry: Entry, decode: string -> Picture)
    ensures var r, size := InferResult(s, path, entry, decode), decode(path).size;
      (entry.File? && size.width > 0 && size.height > 0 ==>
         r == RunSession(s, Preprocess(decode(path)).value)) &&
      (!(entry.File? && size.width > 0 && size.height > 0) ==>
         r == Err(if entry.File? then ZeroDivision else CannotOpen(path)))
  {
  }

  /** infer with session `s`, as a function of the path and its entry. */
  function SessionInfer(s: Session, decode: string -> Picture): (string, Entry) -> Result<real>
  {
    (path, entry) => InferResult(s, path, entry, decode)
  }

  /** The `results` list of batch_infer after the first n image paths,
      each handed to `infer` with the entry it names. */
  function BatchPrefix(infer: (string, Entry) -> Result<real>, paths: seq<string>, files: seq<Entry>, n: nat): Result<seq<(string, real)>>
    requires n <= |paths| == |files|
  {
    if n == 0 then Ok([])
    else
      match BatchPrefix(infer, paths, files, n - 1)
      case Err(err) => Err(err)
      case Ok(rs) =>
        match infer(paths[n - 1], files[n - 1])
        case Err(err) => Err(err)
        case Ok(p) => Ok(rs + [(LastComponent(paths[n - 1]), p)])
  }

  /** What batch_infer(folder) returns. `listing` is the folder's listing
      when it is a directory; glob finds nothing under anything else. */
  function BatchResults(s: Session, folder: string, listing: Option<seq<Entry>>, decode: string -> Picture): Result<seq<(string, real)>>
  {
    var cs := if listing.Some? then listing.value else [];
    var files := ImageEntries(cs);
    BatchPrefix(SessionInfer(s, decode), ImagePaths(folder, cs), files, |files|)
  }

  lemma {:induction false} BatchPrefixErrSticky(infer: (string, Entry) -> Result<real>, paths: seq<string>, files: seq<Entry>, i: nat, n: nat)
    requires i <= n <= |paths| == |files|
    requires BatchPrefix(infer, paths, files, i).Err?
    ensures BatchPrefix(infer, paths, files, n) == BatchPrefix(infer, paths, files, i)
    decreases n - i
  {
    if i < n {
      BatchPrefixErrSticky(infer, paths, files, i, n - 1);
    }
  }

  /** One step of the loop: a failing path ends the batch with its error,
      otherwise its pair is appended. */
  lemma BatchPrefixStep(infer: (string, Entry) -> Result<real>, paths: seq<string>, files: seq<Entry>, i: nat, results: seq<(string, real)>)
    requires i < |paths| == |files|
    requires BatchPrefix(infer, paths, files, i) == Ok(results)
    ensures infer(paths[i], files[i]).Err? ==> BatchPrefix(infer, paths, files, |files|) == Err(infer(paths[i], files[i]).error)
    ensures infer(paths[i], files[i]).Ok? ==>
      BatchPrefix(infer, paths, files, i + 1) == Ok(results + [(LastComponent(paths[i]), infer(paths[i], files[i]).value)])
  {
    if infer(paths[i], files[i]).Err? {
      BatchPrefixErrSticky(infer, paths, files, i + 1, |files|);
    }
  }

  /** After n paths without failure: one (basename, probability) pair per
      path, in order. */
  lemma {:induction false} BatchPrefixOk(infer: (string, Entry) -> Result<real>, paths: seq<string>, files: seq<Entry>, n: nat)
    requires n <= |paths| == |files|
    requires BatchPrefix(infer, paths, files, n).Ok?
    ensures var rs := BatchPrefix(infer, paths, files, n).value;
      |rs| == n &&
      forall i :: 0 <= i < n ==>
        infer(paths[i], files[i]).Ok? && rs[i] == (LastComponent(paths[i]), infer(paths[i], files[i]).value)
    decreases n
  {
    if n > 0 {
      var prev := BatchPrefix(infer, paths, files, n - 1);
      assert prev.Ok?;
      BatchPrefixOk(infer, paths, files, n - 1);
      var rs := BatchPrefix(infer, paths, files, n).value;
      assert rs == prev.value + [(LastComponent(paths[n - 1]), infer(paths[n - 1], files[n - 1]).value)];
      forall i | 0 <= i < n - 1
        ensures rs[i] == prev.value[i]
      {
      }
    }
  }

  /** A failure after n paths is the failure of the first path whose
      inference fails. */
  lemma {:induction false} BatchPrefixErr(infer: (string, Entry) -> Result<real>, paths: seq<string>, files: seq<Entry>, n: nat)
    requires n <= |paths| == |files|
    requires BatchPrefix(infer, paths, files, n).Err?
    ensures exists i :: (0 <= i < n && infer(paths[i], files[i]) == Err(BatchPrefix(infer, paths, files, n).error) &&
      forall j :: 0 <= j < i ==> infer(paths[j], files[j]).Ok?)
    decreases n
  {
    var prev := BatchPrefix(infer, paths, files, n - 1);
    if prev.Err? {
      BatchPrefixErr(infer, paths, files, n - 1);
      assert BatchPrefix(infer, paths, files, n) == prev;
    } else {
      BatchPrefixOk(infer, paths, files, n - 1);
      assert infer(paths[n - 1], files[n - 1]) == Err(BatchPrefix(infer, paths, files, n).error);
    }
  }

  /** After n paths: a failure exactly when some path's inference fails; it
      is then the first such failure; otherwise one (basename, probability)
      pair per path, in order. */
  lemma {:induction false} BatchPrefixSpec(infer: (string, Entry) -> Result<real>, paths: seq<string>, files: seq<Entry>, n: nat)
    requires n <= |paths| == |files|
    ensures var r := BatchPrefix(infer, paths, files, n);
      (r.Err? <==> exists i :: 0 <= i < n && infer(paths[i], files[i]).Err?) &&
      (r.Err? ==> exists i :: (0 <= i < n && infer(paths[i], files[i]) == Err(r.error) &&
         forall j :: 0 <= j < i ==> infer(paths[j], files[j]).Ok?)) &&
      (r.Ok? ==> |r.value| == n && forall i :: 0 <= i < n ==>
         (infer(paths[i], files[i]).Ok? && r.value[i] == (LastComponent(paths[i]), infer(paths[i], files[i]).value)))
  {
    if BatchPrefix(infer, paths, files, n).Ok? {
      BatchPrefixOk(infer, paths, files, n);
    } else {
      BatchPrefixErr(infer, paths, files, n);
    }
  }

  /** The names of batch results, in order. */
  function ResultNames(rs: seq<(string, real)>): (ns: seq<string>)
    ensures |ns| == |rs| && forall i :: 0 <= i < |rs| ==> ns[i] == rs[i].0
  {
    seq(|rs|, i requires 0 <= i < |rs| => rs[i].0)
  }

  /** Results named after the entries of a name-ordered listing, one per
      entry and in order, have strictly sorted names. */
  lemma NamesSorted(rs: seq<(string, real)>, files: seq<Entry>)
    requires SortedNames(files)
    requires |rs| == |files| && forall i :: 0 <= i < |rs| ==> rs[i].0 == files[i].name
    ensures StrictlySorted(ResultNames(rs))
  {
  }

  /** The basename of each joined path is the entry's name. */
  lemma PathsOfBasenames(folder: string, files: seq<Entry>)
    ensures forall i :: 0 <= i < |files| ==> LastComponent(PathsOf(folder, files)[i]) == files[i].name
  {
    forall i | 0 <= i < |files|
      ensures LastComponent(PathsOf(folder, files)[i]) == files[i].name
    {
      LastComponentOfGlobPath(folder, files[i].name);
    }
  }

  /** A batch over the paths of a listing is named after the entries. */
  lemma BatchNames(infer: (string, Entry) -> Result<real>, folder: string, files: seq<Entry>)
    requires BatchPrefix(infer, PathsOf(folder, files), files, |files|).Ok?
    ensures var rs := BatchPrefix(infer, PathsOf(folder, files), files, |files|).value;
      |rs| == |files| && forall i :: 0 <= i < |rs| ==> rs[i].0 == files[i].name
  {
    BatchPrefixOk(infer, PathsOf(folder, files), files, |files|);
    PathsOfBasenames(folder, files);
  }

  /** The basenames in a batch over the paths of a name-ordered listing are
      the entries' own names, so they are strictly sorted. */
  lemma BatchNamesSorted(infer: (string, Entry) -> Result<real>, folder: string, files: seq<Entry>)
    requires SortedNames(files)
    requires BatchPrefix(infer, PathsOf(folder, files), files, |files|).Ok?
    ensures StrictlySorted(ResultNames(BatchPrefix(infer, PathsOf(folder, files), files, |files|).value))
  {
    BatchNames(infer, folder, files);
    NamesSorted(BatchPrefix(infer, PathsOf(folder, files), files, |files|).value, files);
  }

  /** batch_infer on a directory, for any per-image `infer`: it fails
      exactly when some matched file fails, with the first such failure;
      otherwise it returns one pair per path of the sorted image list, in
      that order: the path's basename and what infer gives for the path.
      The names are strictly sorted. `BatchResults` is this with
      `SessionInfer`. */
  lemma BatchOverListing(infer: (string, Entry) -> Result<real>, folder: string, cs: seq<Entry>)
    requires SortedNames(cs)
    ensures var files, paths := ImageEntries(cs), ImagePaths(folder, cs);
      var r := BatchPrefix(infer, paths, files, |files|);
      (r.Err? <==> exists i :: 0 <= i < |paths| && infer(paths[i], files[i]).Err?) &&
      (r.Err? ==> exists i :: (0 <= i < |paths| && infer(paths[i], files[i]) == Err(r.error) &&
         forall j :: 0 <= j < i ==> infer(paths[j], files[j]).Ok?)) &&
      (r.Ok? ==> (|r.value| == |paths| &&
         (forall i :: 0 <= i < |paths| ==>
            infer(paths[i], files[i]).Ok? && r.value[i] == (LastComponent(paths[i]), infer(paths[i], files[i]).value)) &&
         StrictlySorted(ResultNames(r.value))))
  {
    var files := ImageEntries(cs);
    BatchPrefixSpec(infer, ImagePaths(folder, cs), files, |files|);
    if BatchPrefix(infer, ImagePaths(folder, cs), files, |files|).Ok? {
      ImageEntriesSorted(cs);
      BatchNamesSorted(infer, folder, files);
    }
  }

  /** For a path that is not a directory, batch_infer finds no image and
      returns the empty list. */
  lemma BatchResultsNotADirectory(s: Session, folder: string, decode: string -> Picture)
    ensures BatchResults(s, folder, None, decode) == Ok([])
  {
  }

  /** An ONNX model loaded for inference. */
  class OnnxInference {
    const session: Session
    const inputName: string
    const outputName: string

    /** The names are the session's first input and first output. */
    ghost predicate Valid()
    {
      inputName == session.inputName && outputName == session.outputName
    }

    /** The object around an loaded session, with the names of the
        session's first input and first output read once. */
    constructor (s: Session)
      ensures session == s
      ensures Valid()
    {
      session := s;
      inputName := s.inputName;
      outputName := s.outputName;
    }

    /** ONNXInference(onnx_path, provider): ONNX Runtime opens the model
        with the providers chosen for the device. A model it cannot open
        raises, and then no object is made. */
    static method Open(onnxPath: string, provider: string, runtime: (string, seq<string>) -> Option<Session>)
      returns (r: Result<OnnxInference>)
      ensures runtime(onnxPath, ExecutionProviders(provider)).None? ==> r == Err(ModelLoadFailed(onnxPath))
      ensures runtime(onnxPath, ExecutionProviders(provider)).Some? ==>
        r.Ok? && fresh(r.value) && r.value.session == runtime(onnxPath, ExecutionProviders(provider)).value && r.value.Valid()
    {
      var loaded := runtime(onnxPath, ExecutionProviders(provider));
      match loaded {
        case None =>
          r := Err(ModelLoadFailed(onnxPath));
        case Some(s) =>
          var inferencer := new OnnxInference(s);
          r := Ok(inferencer);
      }
    }

    /** infer, as the object runs it: the tensor is fed under the input
        name and the output asked for by the output name held in its own
        fields, which Valid() ties to the session. */
    method Infer(path: string, entry: Entry, decode: string -> Picture) returns (r: Result<real>)
      requires Valid()
      ensures r == InferResult(session, path, entry, decode)
    {
      if !entry.File? {
        return Err(CannotOpen(path));
      }
      var inputTensor := Preprocess(decode(path));
      if inputTensor.Err? {
        return Err(inputTensor.error);
      }
      var output := session.run([outputName], map[inputName := inputTensor.value]);
      r := if output.Some? then Ok(output.value) else Err(SessionRunFailed);
    }

    /** batch_infer. */
    method BatchInfer(folder: string, listing: Option<seq<Entry>>, decode: string -> Picture) returns (r: Result<seq<(string, real)>>)
      requires Valid()
      ensures r == BatchResults(session, folder, listing, decode)
    {
      var cs := if listing.Some? then listing.value else [];
      r := InferEach(ImagePaths(folder, cs), ImageEntries(cs), decode);
    }

    /** The loop of batch_infer: infer on each image path in order, the
        basename and probability appended to `results`; the first failure
        ends the loop. */
    method InferEach(imgPaths: seq<string>, files: seq<Entry>, decode: string -> Picture) returns (r: Result<seq<(string, real)>>)
      requires Valid()
      requires |imgPaths| == |files|
      ensures r == BatchPrefix(SessionInfer(session, decode), imgPaths, files, |files|)
    {
      var results: seq<(string, real)> := [];
      for i := 0 to |imgPaths|
        invariant BatchPrefix(SessionInfer(session, decode), imgPaths, files, i) == Ok(results)
      {
        var prob := Infer(imgPaths[i], files[i], decode);
        BatchPrefixStep(SessionInfer(session, decode), imgPaths, files, i, results);
        match prob {
          case Err(err) =>
            return Err(err);
          case Ok(p) =>
            results := results + [(LastComponent(imgPaths[i]), p)];
        }
      }
      r := Ok(results);
    }
  }

  /** What run_inference returns: a probability for a file, a list of
      results for a directory. */
  datatype Output = Single(prob: real) | Batch(results: seq<(string, real)>)

  /** The result of run_inference once the session `s` is open. `target`
      is the entry at input_path, None when nothing is there. */
  function RunResult(s: Session, inputPath: string, target: Option<Entry>, decode: string -> Picture): Result<Output>
  {
    if target.Some? && target.value.File? then
      match InferResult(s, inputPath, target.value, decode)
      case Err(err) => Err(err)
      case Ok(p) => Ok(Single(p))
    else if target.Some? && target.value.Dir? then
      match BatchResults(s, inputPath, Some(target.value.children), decode)
      case Err(err) => Err(err)
      case Ok(rs) => Ok(Batch(rs))
    else Err(InvalidInputPath(inputPath))
  }

  /** The dispatch of run_inference: a regular file gives infer's
      probability, or its failure; a directory gives batch_infer's list, or
      its failure; a single probability comes only from a regular file, a
      list only from a directory, and the invalid-path error exactly when
      the path is neither (inference itself never raises it). */
  lemma RunResultDispatch(s: Session, inputPath: string, target: Option<Entry>, decode: string -> Picture)
    ensures var r := RunResult(s, inputPath, target, decode);
      (target.Some? && target.value.File? ==>
         var p := InferResult(s, inputPath, target.value, decode);
         (r.Ok? <==> p.Ok?) && (r.Ok? ==> r.value == Single(p.value)) && (r.Err? ==> r.error == p.error)) &&
      (target.Some? && target.value.Dir? ==>
         var b := BatchResults(s, inputPath, Some(target.value.children), decode);
         (r.Ok? <==> b.Ok?) && (r.Ok? ==> r.value == Batch(b.value)) && (r.Err? ==> r.error == b.error)) &&
      (r.Ok? && r.value.Single? ==> target.Some? && target.value.File?) &&
      (r.Ok? && r.value.Batch? ==> target.Some? && target.value.Dir?) &&
      (r == Err(InvalidInputPath(inputPath)) <==> target.None? || target.value.Special?)
  {
    if target.Some? && target.value.Dir? {
      var cs := target.value.children;
      var files := ImageEntries(cs);
      BatchPrefixSpec(SessionInfer(s, decode), ImagePaths(inputPath, cs), files, |files|);
    }
  }

  /** run_inference: open the model, then dispatch on the kind of input
      path. A model that cannot be loaded fails first, whatever the path.
      The method builds the object and calls its methods, as the source
      does; RunResult and RunResultDispatch say what that computes. */
  method RunInference(modelPath: string, inputPath: string, target: Option<Entry>, device: string,
                      runtime: (string, seq<string>) -> Option<Session>, decode: string -> Picture) returns (r: Result<Output>)
    ensures var loaded := runtime(modelPath, ExecutionProviders(device));
      (loaded.None? ==> r == Err(ModelLoadFailed(modelPath))) &&
      (loaded.Some? ==> r == RunResult(loaded.value, inputPath, target, decode))
  {
    var loaded := OnnxInference.Open(modelPath, device, runtime);
    if loaded.Err? {
      return Err(loaded.error);
    }
    var inferencer := loaded.value;
    if target.Some? && target.value.File? {
      var prob := inferencer.Infer(inputPath, target.value, decode);
      if prob.Err? {
        return Err(prob.error);
      }
      r := Ok(Single(prob.value));
    } else if target.Some? && target.value.Dir? {
      var results := inferencer.BatchInfer(inputPath, Some(target.value.children), decode);
      if results.Err? {
        return Err(results.error);
      }
      r := Ok(Batch(results.value));
    } else {
      r := Err(InvalidInputPath(inputPath));
    }
  }
}
