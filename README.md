# IDetector inference and evaluation core, modelled in Dafny

IDetector decides whether an image is a real photograph or a synthetic
(generated) one. A ResNet-50 exported to ONNX produces one logit per image,
and the sigmoid of that logit is the probability that the image is
synthetic. This project models two files of `backEnd/`:

- `oonx_infer.py`:
  - the `ONNXInference` class: choosing the execution providers, the session and the names of its input and output;
  - `preprocess`, with `resize_keep_ratio` (shorter side to 256), `center_crop` (224 x 224), the `/ 255` scaling, the mean/std normalisation, the transpose to channel-first and the leading batch axis;
  - `infer` and `batch_infer` over the sorted image list of a folder;
  - `run_inference`, which picks a single probability for a file, a list for a directory, or `ValueError`.
- `new_eval.py`:
  - the `eval_single_image` guard;
  - `eval_whole_folder`: the folder-name label (`"0_real"` is real), the 0.5 threshold rule, and accuracy as correct / len, or 0.0 for no images;
  - the recursive `iterate_over_folders`, which maps folder keys to accuracies.

The modules follow the program's structure:

| file | module | what it holds |
|---|---|---|
| `errors.dfy` | `Errors` | `Option`, `Result` and the exceptions the core raises |
| `paths.dfy` | `Paths` | `os.path.join`, `os.path.dirname`, `os.path.basename` / `split("/")[-1]`, and Python's string order |
| `filesystem.dfy` | `FileSystem` | a directory tree of files, directories and special entries; glob matching of `*.jpg`, `*.png`, `*.JPEG`; the sorted image list |
| `geometry.dfy` | `Geometry` | the resize and crop arithmetic |
| `layout.dfy` | `Layout` | the normalisation and the HWC → 1CHW layout |
| `onnx_infer.dfy` | `OnnxInfer` | the class `OnnxInference`, `batch_infer`, `run_inference` |
| `new_eval.dfy` | `NewEval` | the label and counting rules, `eval_whole_folder`, `iterate_over_folders` |

Three things outside the core become parameters:

- `runtime`: ONNX Runtime opening a session, or failing to;
- `decode`: what PIL makes of an image file;
- `prob`: the PyTorch model's probability for an image path.

The file system is an `Entry` value. A directory's listing holds every name in
sorted order, which is the order `sorted(glob(...))` visits. A path glob
returns is spelled as glob spells it (`GlobPath`): the folder with its
trailing slashes stripped, then `/` and the name, so `"a//"` lists `"a/x.jpg"`.

Each loop of the source is a Dafny method with a `for` or `while` loop:
`OnnxInference.InferEach`, `CountCorrectFiles` and `IterateOverFolders`. Each
is proved equal to a recursive specification function (`BatchPrefix`,
`FolderPrefix`, `Scan`). The properties are then proved about those functions.

## Model

| member | source | states |
|---|---|---|
| Geometry.ResizeKeepRatio | backEnd/oonx_infer.py:48-54 | fails with the division by zero exactly when a side is 0; otherwise each new side is the floor of side * target / min(width, height) |
| Geometry.ResizeShorterSide | backEnd/oonx_infer.py:49-54 | for a non-degenerate image the shorter side becomes exactly the target, the longer one at least the target, and which side is shorter is kept |
| Geometry.CenterCrop | backEnd/oonx_infer.py:56-64 | the box is exactly crop x crop; the left/right (top/bottom) margins differ by the parity of the slack, so the odd pixel goes right (bottom) |
| Geometry.CenterCropInside | backEnd/oonx_infer.py:56-64 | the crop box lies inside the image if and only if both sides are at least the crop size |
| Geometry.PreprocessGeometryInBounds | backEnd/oonx_infer.py:30-34 | resizing to 256 and then cropping to 224 fails only on a zero-length side; otherwise the box is always in bounds and the cropped image is exactly 224 x 224 |
| Geometry.PreprocessGeometryExample | backEnd/oonx_infer.py:30-34 | a 512 x 256 image keeps its size and is cropped to the box (144, 16, 368, 240) |
| Layout.ChannelsFirst | backEnd/oonx_infer.py:45 | transpose(2, 0, 1) turns an h x w x c array into c x h x w, with out[ch][y][x] == in[y][x][ch] |
| Layout.ChannelsFirstLast | backEnd/oonx_infer.py:45 | the transpose is undone by the inverse axis permutation, so no element is lost |
| Layout.ChannelsLastFirst | backEnd/oonx_infer.py:45 | every channel-first array is the transpose of exactly one input, so no element is duplicated |
| Layout.NormalizeSampleInvertible | backEnd/oonx_infer.py:37-42 | `/ 255` followed by `(x - mean) / std` is inverted by multiplying back, and it is strictly increasing in the sample |
| Layout.Normalize | backEnd/oonx_infer.py:37-42 | the normalised array keeps the h x w x 3 shape, and each entry is its own sample normalised with its own channel's mean and std |
| Layout.ToInputTensor | backEnd/oonx_infer.py:37-46 | the input tensor has shape (1, 3, h, w), and t[0][ch][y][x] is the normalised input sample at (y, x, ch) |
| Layout.ToInputTensorRoundTrip | backEnd/oonx_infer.py:44-46 | reading the tensor back in height x width x channel order gives the normalised image |
| Paths.DirnameOfPattern | backEnd/new_eval.py:112 | the head os.path.split takes from os.path.join(folder, pattern), under which glob joins its matches, is the folder with its trailing slashes stripped |
| Paths.LastComponentOfGlobPath | backEnd/oonx_infer.py:91 | the basename of a path glob returns is the matched entry name itself |
| Paths.LastComponentSuffix | backEnd/new_eval.py:116 | split("/")[-1] is the longest suffix without a '/': either the whole path or preceded by a '/' |
| Paths.DirnameOfGlobPath | backEnd/new_eval.py:144-150 | os.path.dirname of an entry globbed under root is root without its trailing slashes, the same key for every entry |
| Paths.ParentKeyIdempotent | backEnd/new_eval.py:150-152 | stripping trailing slashes twice is stripping them once, so globbing again under a recorded key gives that key back |
| Paths.WithinChild | backEnd/new_eval.py:144-147 | every key at or below a globbed subdirectory is within the root and is never the root's own key |
| Paths.SiblingsDisjoint | backEnd/new_eval.py:144-147 | no path lies at or below two differently named globbed siblings, so the results of two subdirectories never share a key |
| Paths.SortedUnique | backEnd/new_eval.py:110-113 | two strictly sorted lists with the same elements are equal, so `sorted` of a set of paths is determined by the set |
| Paths.SortedPermutation | backEnd/new_eval.py:110-113 | a sorted rearrangement of a list without repetitions is strictly sorted and has the same elements |
| FileSystem.ImageEntriesMembers | backEnd/new_eval.py:109-113 | the image filter keeps exactly the listed entries whose names match `*.jpg`, `*.png` or `*.JPEG` |
| FileSystem.ImagePathsSortedGlob | backEnd/new_eval.py:109-113 | the file list is strictly sorted and holds exactly the paths the three globs return, spelled as glob spells them |
| FileSystem.ImageGlobsDisjoint | backEnd/new_eval.py:109-113 | no path is returned by two of the three globs |
| FileSystem.GlobListsUnion | backEnd/oonx_infer.py:84-86 | the three glob lists concatenated repeat nothing and hold exactly the image globs |
| FileSystem.SortedGlobIsImagePaths | backEnd/oonx_infer.py:84-86 | `sorted` of the concatenated glob lists, whatever order each glob lists its matches in, is the model's image list |
| FileSystem.FirstNonFile | backEnd/new_eval.py:119-126 | finds the first listed entry that is not a regular file, or reports that every entry is a regular file |
| OnnxInfer.ExecutionProviders | backEnd/oonx_infer.py:15 | CUDA comes first exactly for device "CUDA"; the CPU provider is always present and always last; any other device gives exactly the CPU provider |
| OnnxInfer.OnnxInference.Open | backEnd/oonx_infer.py:9-21 | a model ONNX Runtime cannot open gives the load error and no object; otherwise a new object over the session opened with the providers chosen for the device |
| OnnxInfer.OnnxInference.constructor | backEnd/oonx_infer.py:19-21 | the object records the session's first input and output names |
| OnnxInfer.RunSession | backEnd/oonx_infer.py:72-78 | the probability the session gives for the tensor fed under the input name, or the run failure when the runtime raises |
| OnnxInfer.Preprocess | backEnd/oonx_infer.py:25-46 | fails, with a division by zero, exactly when a side is 0; otherwise gives a (1, 3, 224, 224) tensor whose entry [0][ch][y][x] is the normalised crop sample at (y, x, ch) |
| OnnxInfer.InferResultSpec | backEnd/oonx_infer.py:66-79 | infer reaches the session exactly on a regular file with no zero-length side, and then returns what the run gives for the preprocessed tensor; otherwise it fails opening the file or dividing by zero |
| OnnxInfer.OnnxInference.Infer | backEnd/oonx_infer.py:66-79 | computes the infer result for the session it holds |
| OnnxInfer.OnnxInference.InferEach | backEnd/oonx_infer.py:88-92 | the loop appends one (basename, probability) pair per path, in order, and stops at the first failure |
| OnnxInfer.OnnxInference.BatchInfer | backEnd/oonx_infer.py:81-92 | batch_infer runs that loop over the sorted image list of the folder |
| OnnxInfer.BatchPrefixSpec | backEnd/oonx_infer.py:88-92 | the batch fails exactly when some path fails, and then with the first failure; otherwise it holds one pair per path, in order, made of the basename and that path's probability |
| OnnxInfer.BatchOverListing | backEnd/oonx_infer.py:81-92 | batch_infer on a directory, for any per-image inference: the same as BatchPrefixSpec over the sorted image list, and the result names are strictly sorted |
| OnnxInfer.BatchResultsNotADirectory | backEnd/oonx_infer.py:84-86 | on a path that is not a directory the globs find nothing, so the result is the empty list |
| OnnxInfer.RunResultDispatch | backEnd/oonx_infer.py:97-108 | a regular file gives infer's probability or its error, a directory batch_infer's list or its error; a single probability comes only from a file and a list only from a directory; the path error comes exactly when the path is neither |
| OnnxInfer.RunInference | backEnd/oonx_infer.py:94-108 | a model that cannot be opened fails first, whatever the input path; otherwise the dispatch on the kind of path runs with the opened session |
| NewEval.IsRealClassIff | backEnd/new_eval.py:116 | a folder is the real class if and only if its path is "0_real" or ends in "/0_real", so a trailing slash makes it synthetic |
| NewEval.TrailingSlashExamples | backEnd/new_eval.py:116 | "data/0_real" is real; "data/0_real/" and "data/10_real" are not |
| NewEval.CountComplement | backEnd/new_eval.py:129 | every probability is correct under exactly one label, so the real and synthetic counts add up to the number of images |
| NewEval.Accuracy | backEnd/new_eval.py:132 | accuracy lies in [0, 1], is 0.0 for no images, and otherwise times the number of images gives the correct count |
| NewEval.AccuracyComplement | backEnd/new_eval.py:129-132 | on a non-empty list the accuracies under the two labels add up to 1 |
| NewEval.AccuracyExamples | backEnd/new_eval.py:128-132 | a "0_real" folder with scores 0.1, 0.3, 0.7 scores 2/3; a score of exactly 0.5 counts as synthetic |
| NewEval.EvalSingleImage | backEnd/new_eval.py:73-74 | succeeds exactly on a regular file and then gives the model's probability; on anything else it raises the file-not-found error for that path |
| NewEval.FolderAccuracy | backEnd/new_eval.py:97-132 | a path that is not a directory fails with the not-a-directory error; a success lies in [0, 1] |
| NewEval.FolderAccuracyEdges | backEnd/new_eval.py:105-106 | a directory without images scores 0.0; the not-a-directory error comes before any image is looked at, whatever the model |
| NewEval.FolderPrefixSpec | backEnd/new_eval.py:118-130 | after n files the loop has failed exactly when one of them is not a regular file, and then names the first such path; otherwise it has counted exactly the correct probabilities |
| NewEval.FolderPrefixAccuracy | backEnd/new_eval.py:118-132 | the whole loop fails at the first non-file, and otherwise correct / len (0.0 when empty) equals the accuracy of the folder's probabilities |
| NewEval.FolderAccuracyByLoop | backEnd/new_eval.py:118-132 | eval_whole_folder on a directory is its counting loop followed by correct / len |
| NewEval.CountCorrectFiles | backEnd/new_eval.py:118-130 | the loop scores each path with eval_single_image, counts it when the label rule holds, and stops at the first failure |
| NewEval.EvalWholeFolder | backEnd/new_eval.py:97-132 | eval_whole_folder: the directory check, the sorted image list, the counting loop and the accuracy |
| NewEval.IterateOverFolders | backEnd/new_eval.py:134-160 | iterate_over_folders: the walk of the sorted listing, recursing on each subdirectory as glob spells it, merging its results, and evaluating the folder itself at its first visible non-directory entry |
| NewEval.ScanAdvance | backEnd/new_eval.py:144-159 | each entry of the walk either continues with the step's results or ends the whole walk with its error |
| NewEval.FolderResultsWithin | backEnd/new_eval.py:134-160 | every key the walk records is the root's own key (the root without trailing slashes) or a path below it |
| NewEval.FolderResultsSpec | backEnd/new_eval.py:134-160 | the walk fails exactly when a subdirectory fails, or when the folder has its own visible non-directory entry and evaluating it fails. Otherwise the folder's key is present exactly when it has such an entry, and it holds that folder's accuracy; every subdirectory's results are included unchanged; there are no other keys; and all keys lie within the root |
| NewEval.WalkStripsTrailingSlash | backEnd/new_eval.py:150 | a folder walked as "data/0_real/" is recorded as "data/0_real" and evaluated as real, while eval_whole_folder on "data/0_real/" itself would treat it as synthetic |

## Left out

- Image decoding and bilinear resampling: PIL's work is not modelled. `decode` gives each image's size and the RGB samples of its centre crop.
- Float arithmetic: scale factors, normalisation and accuracy use exact reals, where the source uses Python floats and numpy float32.
- Geometry.ResizeShorterSide: holds only in exact arithmetic. The source computes `int(side * (256 / min))` in double precision. For the shorter side the exact product is exactly 256, so rounding can land just below it and `int()` gives 255: `49 * (256 / 49)` is 255.99999999999997. In the program the shorter side is then often 255, not 256.
- Geometry.PreprocessGeometryInBounds: its "at least 256" holds only in exact arithmetic, for the same reason. The crop still fits in the program: a side of 255, or anything else at least 224, keeps the box inside (`Geometry.CenterCropInside`).
- The sigmoid and the ONNX graph: the session's `run` is an uninterpreted function that returns the probability.
- The PyTorch model, `init_necessary_args`, `exportOnnx` and the torchvision transform inside `eval_single_image`: all of them are the `prob` parameter.
- `input_shape`, the console messages, `tqdm` and `argparse`: they have no effect on results.
- The `__main__` block of `new_eval.py` and `backEnd/main.py`: they are not part of this model.
- OnnxInfer.InferResultSpec: a regular file that PIL cannot open or decode is not modelled as an error. Only a path that is not a regular file fails to open.
- OnnxInfer.OnnxInference.Open: every exception `ort.InferenceSession` raises (a missing file, a model it cannot parse, an unavailable provider) is one error, `ModelLoadFailed`. A model without inputs or outputs, where `get_inputs()[0]` would raise, is not modelled.
- OnnxInfer.RunSession: every exception `session.run` raises is one error, `SessionRunFailed`.
- NewEval.EvalSingleImage: errors raised after the guard (decoding, a zero-length side in torchvision's resize) are not modelled.
- Glob: metacharacters (`*`, `?`, `[`) inside folder names are not modelled. The folder part of each pattern is taken literally. Matching is case-sensitive, as on POSIX.
- Symbolic links are not modelled: an entry is a regular file, a directory, or something else.
- The order of the results dict: it is modelled as a map, so insertion order is not captured. Which keys are present and their values are captured.
- The root "": the model follows `os.path.isdir("")`, which is false, so evaluating that key fails. It does not model how glob then lists the working directory.
- Always in bounds: the code has no guard for a resized side below 224, and the model has no such error either. `Geometry.CenterCropInside` shows a guard would fire only on a side below 224. The exact model never produces one (`Geometry.PreprocessGeometryInBounds`). With floats a side can fall one pixel short of 256, which is still well above 224.
- Mixed-case extensions such as `.JPG` and `.PNG`: the glob patterns do not match them, so they are never evaluated. This follows the code.
- Directories without images: `iterate_over_folders` records an accuracy (0.0) for any directory that has a visible file, even one that is not an image. They are not omitted. This follows the code.
- Glob also matches a directory or special entry named like an image (for example `x.jpg/`). `eval_single_image` then raises for the whole folder. This follows the code.
- Errors: the model's errors are the ones the code raises or lets through:
  - `FileNotFoundError` for a non-file or a non-directory;
  - `ValueError` for an invalid `run_inference` path;
  - division by zero;
  - Image.open failing on a path that is not a regular file;
  - ONNX Runtime failing to load a model or to run it.
  The code defines no exception classes of its own.
