/** Batch accuracy evaluation of backEnd/new_eval.py: the folder-name label,
    the per-image correctness rule, eval_single_image's guard,
    eval_whole_folder and the recursive iterate_over_folders.
    The network is abstract: `prob(path)` is the sigmoid output the
    model gives for the image stored at `path`. */
module NewEval {
  import opened Errors
  import opened Paths
  import opened FileSystem

  const Threshold: real := 0.5
  const RealFolderName: string := "0_real"

  /** is_real_class: folder_path.split("/")[-1] == "0_real". */
  predicate IsRealClass(folder: string)
  {
    LastComponent(folder) == RealFolderName
  }

  /** A folder is the real class exactly when its path is "0_real" or ends
      in "/0_real"; so a trailing '/' makes it synthetic. */
  lemma IsRealClassIff(folder: string)
    ensures IsRealClass(folder) <==> folder == RealFolderName || EndsWith(folder, "/0_real")
  {
    var r := LastComponent(folder);
    var n := |folder|;
    LastComponentSuffix(folder);
    if EndsWith(folder, "/0_real") {
      var t := folder[n - 7..];
      assert t == "/0_real";
      assert folder[n - 7] == '/';
      assert forall k :: n - 6 <= k < n ==> folder[k] == t[k - (n - 7)] && folder[k] != '/';
      assert SlashEnd(folder) == n - 6;
      assert r == folder[n - 6..] == t[1..];
    } else if folder == RealFolderName {
      assert forall k :: 0 <= k < n ==> folder[k] != '/';
    }
    if r == RealFolderName && folder != RealFolderName {
      assert |r| < n;
      assert folder[n - 7] == '/';
      assert folder[n - 7..] == [folder[n - 7]] + folder[n - 6..];
    }
  }

  lemma TrailingSlashExamples()
    ensures IsRealClass("data/0_real")
    ensures !IsRealClass("data/0_real/")
    ensures !IsRealClass("data/10_real")
  {
    IsRealClassIff("data/0_real");
    IsRealClassIff("data/0_real/");
    IsRealClassIff("data/10_real");
  }

  /** The test inside eval_whole_folder's loop. */
  predicate IsCorrect(isReal: bool, prob: real)
  {
    (isReal && prob < Threshold) || (!isReal && prob >= Threshold)
  }

  /** How many of the probabilities count as correct under the label. */
  function CountCorrect(isReal: bool, probs: seq<real>): (n: nat)
    ensures n <= |probs|
  {
    if probs == [] then 0
    else CountCorrect(isReal, probs[..|probs| - 1]) + (if IsCorrect(isReal, probs[|probs| - 1]) then 1 else 0)
  }

  lemma CountCorrectPrefix(isReal: bool, probs: seq<real>, i: nat)
    requires i < |probs|
    ensures CountCorrect(isReal, probs[..i + 1]) ==
      CountCorrect(isReal, probs[..i]) + (if IsCorrect(isReal, probs[i]) then 1 else 0)
  {
    assert probs[..i + 1][..i] == probs[..i];
  }

  /** Every probability is correct under exactly one of the two labels, so
      the two counts add up to the number of images. */
  lemma {:induction false} CountComplement(probs: seq<real>)
    ensures CountCorrect(true, probs) + CountCorrect(false, probs) == |probs|
    decreases |probs|
  {
    if probs != [] {
      CountComplement(probs[..|probs| - 1]);
    }
  }

  /** correct / len(file_list), or 0.0 for an empty list. */
  function Accuracy(isReal: bool, probs: seq<real>): (a: real)
    ensures 0.0 <= a <= 1.0
    ensures |probs| == 0 ==> a == 0.0
    ensures |probs| > 0 ==> a * (|probs| as real) == CountCorrect(isReal, probs) as real
  {
    if |probs| > 0 then CountCorrect(isReal, probs) as real / |probs| as real else 0.0
  }

  /** On a non-empty list the two labels' accuracies add up to one. */
  lemma AccuracyComplement(probs: seq<real>)
    requires |probs| > 0
    ensures Accuracy(true, probs) + Accuracy(false, probs) == 1.0
  {
    CountComplement(probs);
    SharesOfWhole(Accuracy(true, probs), Accuracy(false, probs), |probs| as real,
      CountCorrect(true, probs) as real, CountCorrect(false, probs) as real);
  }

  /** Two parts of a whole, as fractions of it, add up to one. */
  lemma SharesOfWhole(x: real, y: real, n: real, a: real, b: real)
    requires n > 0.0 && x * n == a && y * n == b && a + b == n
    ensures x + y == 1.0
  {
    assert (x + y) * n == 1.0 * n;
  }

  /** A "0_real" folder of three images two of which score below 0.5 has
      accuracy 2/3; a score of exactly 0.5 counts as synthetic. */
  lemma AccuracyExamples()
    ensures Accuracy(true, [0.1, 0.3, 0.7]) == 2.0 / 3.0
    ensures Accuracy(true, [0.5]) == 0.0 && Accuracy(false, [0.5]) == 1.0
  {
    assert [0.1, 0.3, 0.7][..2] == [0.1, 0.3];
    assert [0.1, 0.3][..1] == [0.1];
    assert [0.5][..0] == [];
  }

  /** eval_single_image: an error unless the path is a regular file, else
      the model's probability for it. */
  function EvalSingleImage(path: string, entry: Entry, prob: string -> real): (r: Result<real>)
    ensures r.Ok? <==> entry.File?
    ensures r.Err? ==> r.error == NotAFile(path)
    ensures r.Ok? ==> r.value == prob(path)
  {
    if !entry.File? then Err(NotAFile(path)) else Ok(prob(path))
  }

  /** The model's probabilities for the listed paths, in list order. */
  function FolderProbs(paths: seq<string>, prob: string -> real): (ps: seq<real>)
    ensures |ps| == |paths|
    ensures forall i :: 0 <= i < |paths| ==> ps[i] == prob(paths[i])
  {
    seq(|paths|, i requires 0 <= i < |paths| => prob(paths[i]))
  }

  /** What eval_whole_folder returns. `listing` is Some(children) when
      os.path.isdir(folder) holds. */
  function FolderAccuracy(folder: string, listing: Option<seq<Entry>>, prob: string -> real): (r: Result<real>)
    ensures listing.None? ==> r == Err(NotADirectory(folder))
    ensures r.Ok? ==> 0.0 <= r.value <= 1.0
  {
    match listing
    case None => Err(NotADirectory(folder))
    case Some(cs) =>
      var files, paths := ImageEntries(cs), ImagePaths(folder, cs);
      match FirstNonFile(files)
      case Some(i) => Err(NotAFile(paths[i]))
      case None => Ok(Accuracy(IsRealClass(folder), FolderProbs(paths, prob)))
  }

  /** A folder with no image files that is a directory scores 0.0; a path
      that is not a directory fails before any image is looked at, whatever
      the model says. */
  lemma FolderAccuracyEdges(folder: string, cs: seq<Entry>, prob: string -> real, prob': string -> real)
    ensures ImageEntries(cs) == [] ==> FolderAccuracy(folder, Some(cs), prob) == Ok(0.0)
    ensures FolderAccuracy(folder, None, prob) == FolderAccuracy(folder, None, prob')
  {
  }

  /** The loop of eval_whole_folder after the first n files: the number
      counted correct so far, or the first failure. */
  function FolderPrefix(isReal: bool, paths: seq<string>, files: seq<Entry>, n: nat, prob: string -> real): Result<nat>
    requires n <= |paths| == |files|
  {
    if n == 0 then Ok(0)
    else
      match FolderPrefix(isReal, paths, files, n - 1, prob)
      case Err(err) => Err(err)
      case Ok(c) =>
        match EvalSingleImage(paths[n - 1], files[n - 1], prob)
        case Err(err) => Err(err)
        case Ok(p) => Ok(c + if IsCorrect(isReal, p) then 1 else 0)
  }

  lemma {:induction false} FolderPrefixErrSticky(isReal: bool, paths: seq<string>, files: seq<Entry>, i: nat, n: nat, prob: string -> real)
    requires i <= n <= |paths| == |files|
    requires FolderPrefix(isReal, paths, files, i, prob).Err?
    ensures FolderPrefix(isReal, paths, files, n, prob) == FolderPrefix(isReal, paths, files, i, prob)
    decreases n - i
  {
    if i < n {
      FolderPrefixErrSticky(isReal, paths, files, i, n - 1, prob);
    }
  }

  /** After n files: no failure exactly when all of them are regular files,
      and then the count is that of the correct ones; a failure names the
      first path that is not a regular file. */
  lemma {:induction false} FolderPrefixSpec(isReal: bool, paths: seq<string>, files: seq<Entry>, n: nat, prob: string -> real)
    requires n <= |paths| == |files|
    ensures var r := FolderPrefix(isReal, paths, files, n, prob);
      (r.Ok? <==> forall j :: 0 <= j < n ==> files[j].File?) &&
      (r.Ok? ==> r.value == CountCorrect(isReal, FolderProbs(paths, prob)[..n])) &&
      (r.Err? ==> exists i :: (0 <= i < n && !files[i].File? && r.error == NotAFile(paths[i]) &&
         forall j :: 0 <= j < i ==> files[j].File?))
    decreases n
  {
    if n > 0 {
      FolderPrefixSpec(isReal, paths, files, n - 1, prob);
      var probs := FolderProbs(paths, prob);
      CountCorrectPrefix(isReal, probs, n - 1);
      var prev := FolderPrefix(isReal, paths, files, n - 1, prob);
      if prev.Err? {
        assert FolderPrefix(isReal, paths, files, n, prob) == prev;
      } else if !files[n - 1].File? {
        assert FolderPrefix(isReal, paths, files, n, prob) == Err(NotAFile(paths[n - 1]));
      } else {
        assert FolderPrefix(isReal, paths, files, n, prob) ==
          Ok(prev.value + if IsCorrect(isReal, probs[n - 1]) then 1 else 0);
      }
    }
  }

  /** The loop over a file list ends in the first entry that is not a
      regular file, if there is one, and otherwise in correct / len. */
  lemma FolderPrefixAccuracy(isReal: bool, paths: seq<string>, files: seq<Entry>, prob: string -> real)
    requires |paths| == |files|
    ensures match FolderPrefix(isReal, paths, files, |files|, prob)
      case Err(err) => FirstNonFile(files).Some? && err == NotAFile(paths[FirstNonFile(files).value])
      case Ok(c) =>
        FirstNonFile(files).None? &&
        Accuracy(isReal, FolderProbs(paths, prob)) == if |files| > 0 then c as real / |files| as real else 0.0
  {
    FolderPrefixSpec(isReal, paths, files, |files|, prob);
    var probs := FolderProbs(paths, prob);
    assert probs[..|files|] == probs;
    var r := FolderPrefix(isReal, paths, files, |files|, prob);
    if r.Err? {
      var i :| 0 <= i < |files| && !files[i].File? && r.error == NotAFile(paths[i]) &&
        forall j :: 0 <= j < i ==> files[j].File?;
      assert FirstNonFile(files) == Some(i);
    } else {
      assert FirstNonFile(files) == None;
    }
  }

  /** eval_whole_folder on a directory is its loop over the image list
      followed by correct / len, or 0.0 for an empty list. */
  lemma FolderAccuracyByLoop(folder: string, cs: seq<Entry>, prob: string -> real)
    ensures var files, paths := ImageEntries(cs), ImagePaths(folder, cs);
      FolderAccuracy(folder, Some(cs), prob) ==
        match FolderPrefix(IsRealClass(folder), paths, files, |files|, prob)
        case Err(err) => Err(err)
        case Ok(c) => Ok(if |files| > 0 then c as real / |files| as real else 0.0)
  {
    FolderPrefixAccuracy(IsRealClass(folder), ImagePaths(folder, cs), ImageEntries(cs), prob);
  }

  /** The loop of eval_whole_folder over the image list: each path is
      scored by eval_single_image and counted when the label rule holds;
      the first failure ends the loop. */
  method CountCorrectFiles(isReal: bool, paths: seq<string>, files: seq<Entry>, prob: string -> real) returns (r: Result<nat>)
    requires |paths| == |files|
    ensures r == FolderPrefix(isReal, paths, files, |files|, prob)
  {
    var correct := 0;
    var i := 0;
    while i < |paths|
      invariant 0 <= i <= |paths|
      invariant FolderPrefix(isReal, paths, files, i, prob) == Ok(correct)
    {
      var p := EvalSingleImage(paths[i], files[i], prob);
      if p.Err? {
        FolderPrefixErrSticky(isReal, paths, files, i + 1, |files|, prob);
        return Err(p.error);
      }
      if IsCorrect(isReal, p.value) {
        correct := correct + 1;
      }
      i := i + 1;
    }
    r := Ok(correct);
  }

  /** eval_whole_folder. */
  method EvalWholeFolder(folder: string, listing: Option<seq<Entry>>, prob: string -> real) returns (r: Result<real>)
    ensures r == FolderAccuracy(folder, listing, prob)
  {
    match listing {
      case None =>
        r := Err(NotADirectory(folder));
      case Some(cs) =>
        var files := ImageEntries(cs);
        var fileList := ImagePaths(folder, cs);
        FolderAccuracyByLoop(folder, cs, prob);
        var count := CountCorrectFiles(IsRealClass(folder), fileList, files, prob);
        match count {
          case Err(err) =>
            r := Err(err);
          case Ok(correct) =>
            r := Ok(if |fileList| > 0 then correct as real / |fileList| as real else 0.0);
        }
    }
  }

  /** The listing eval_whole_folder sees for the key iterate_over_folders
      gives it: the directory being walked, except that os.path.isdir("")
      is false (the walk of "" lists the working directory). */
  function ListingAt(key: string, e: Entry): Option<seq<Entry>>
    requires e.Dir?
  {
    if key == "" then None else Some(e.children)
  }

  /** How the walk evaluates one folder, given its key and its listing. */
  type FolderEvaluator = (string, Option<seq<Entry>>) -> Result<real>

  /** eval_whole_folder with the model `prob`, as the walk calls it. */
  function FolderEval(prob: string -> real): FolderEvaluator
  {
    (folder, listing) => FolderAccuracy(folder, listing, prob)
  }

  /** iterate_over_folders(root) on the entry `root` names: a map from folder
      key to accuracy. Whatever is not a directory lists nothing. */
  function FolderResults(root: string, e: Entry, eval: FolderEvaluator): Result<map<string, real>>
    decreases e, 1
  {
    if e.Dir? then Scan(root, e, |e.children|, eval) else Ok(map[])
  }

  /** The `results` dict after the loop of iterate_over_folders has seen the
      first n entries of the listing of `e`, in sorted order. */
  function Scan(root: string, e: Entry, n: nat, eval: FolderEvaluator): Result<map<string, real>>
    requires e.Dir? && n <= |e.children|
    decreases e, 0, n, 1
  {
    if n == 0 then Ok(map[])
    else
      match Scan(root, e, n - 1, eval)
      case Err(err) => Err(err)
      case Ok(m) => ScanStep(root, e, n - 1, eval, m)
  }

  /** The loop body on entry i of the listing, given the results so far.
      glob's "*" skips hidden names and spells the entry as GlobPath. A
      subdirectory, walked under that path, has its results merged
      with dict.update; any other entry records the accuracy of its parent
      directory unless that key is already present. */
  function ScanStep(root: string, e: Entry, i: nat, eval: FolderEvaluator, m: map<string, real>): Result<map<string, real>>
    requires e.Dir? && i < |e.children|
    decreases e, 0, i + 1, 0
  {
    var c := e.children[i];
    var path := GlobPath(root, c.name);
    if !Visible(c.name) then Ok(m)
    else if c.Dir? then
      match FolderResults(path, c, eval)
      case Err(err) => Err(err)
      case Ok(sub) => Ok(m + sub)
    else
      var parent := Dirname(path);
      if parent in m then Ok(m)
      else
        match eval(parent, ListingAt(parent, e))
        case Err(err) => Err(err)
        case Ok(acc) => Ok(m[parent := acc])
  }

  lemma {:induction false} ScanErrSticky(root: string, e: Entry, i: nat, n: nat, eval: FolderEvaluator)
    requires e.Dir? && i <= n <= |e.children|
    requires Scan(root, e, i, eval).Err?
    ensures Scan(root, e, n, eval) == Scan(root, e, i, eval)
    decreases n - i
  {
    if i < n {
      ScanErrSticky(root, e, i, n - 1, eval);
    }
  }

  /** iterate_over_folders. */
  method IterateOverFolders(root: string, e: Entry, prob: string -> real) returns (r: Result<map<string, real>>)
    ensures r == FolderResults(root, e, FolderEval(prob))
    decreases e
  {
    if !e.Dir? {
      return Ok(map[]);
    }
    var results: map<string, real> := map[];
    for i := 0 to |e.children|
      invariant Scan(root, e, i, FolderEval(prob)) == Ok(results)
    {
      ScanAdvance(root, e, i, FolderEval(prob), results);
      var entry := e.children[i];
      if Visible(entry.name) {
        var path := GlobPath(root, entry.name);
        if entry.Dir? {
          var sub := IterateOverFolders(path, entry, prob);
          match sub {
            case Err(err) =>
              return Err(err);
            case Ok(m) =>
              results := results + m;
          }
        } else {
          var parentDir := Dirname(path);
          if parentDir !in results {
            var acc := EvalWholeFolder(parentDir, ListingAt(parentDir, e), prob);
            match acc {
              case Err(err) =>
                return Err(err);
              case Ok(a) =>
                results := results[parentDir := a];
            }
          }
        }
      }
    }
    r := Ok(results);
  }

  /** One entry of the walk: the loop goes on with the step's result, and a
      failing step is the result of the whole walk. */
  lemma ScanAdvance(root: string, e: Entry, i: nat, eval: FolderEvaluator, m: map<string, real>)
    requires e.Dir? && i < |e.children|
    requires Scan(root, e, i, eval) == Ok(m)
    ensures Scan(root, e, i + 1, eval) == ScanStep(root, e, i, eval, m)
    ensures ScanStep(root, e, i, eval, m).Err? ==> Scan(root, e, |e.children|, eval) == ScanStep(root, e, i, eval, m)
  {
    if ScanStep(root, e, i, eval, m).Err? {
      ScanErrSticky(root, e, i + 1, |e.children|, eval);
    }
  }

  /** The first n entries of a listing include a visible non-directory. */
  predicate HasOwnFile(cs: seq<Entry>, n: nat)
  {
    exists i :: 0 <= i < n && i < |cs| && Visible(cs[i].name) && !cs[i].Dir?
  }

  /** Every key of `m` lies at or below `root`. */
  predicate KeysWithin(root: string, m: map<string, real>)
  {
    forall k :: k in m ==> Within(root, k)
  }

  /** Every key iterate_over_folders records lies at or below the root: the
      root's own key, or a path that starts with that key and a '/' (just
      the path when the key is ""). */
  lemma {:induction false} FolderResultsWithin(root: string, e: Entry, eval: FolderEvaluator)
    ensures FolderResults(root, e, eval).Ok? ==> KeysWithin(root, FolderResults(root, e, eval).value)
    decreases e, 1
  {
    if e.Dir? && FolderResults(root, e, eval).Ok? {
      ScanWithin(root, e, |e.children|, eval);
    }
  }

  lemma {:induction false} ScanWithin(root: string, e: Entry, n: nat, eval: FolderEvaluator)
    requires e.Dir? && n <= |e.children|
    requires Scan(root, e, n, eval).Ok?
    ensures KeysWithin(root, Scan(root, e, n, eval).value)
    decreases e, 0, n
  {
    if n > 0 {
      ScanOkPrefix(root, e, n, eval);
      ScanWithin(root, e, n - 1, eval);
      ScanStepWithin(root, e, n - 1, eval, Scan(root, e, n - 1, eval).value);
    }
  }

  lemma {:induction false} ScanStepWithin(root: string, e: Entry, i: nat, eval: FolderEvaluator, m: map<string, real>)
    requires e.Dir? && i < |e.children|
    requires KeysWithin(root, m)
    requires ScanStep(root, e, i, eval, m).Ok?
    ensures KeysWithin(root, ScanStep(root, e, i, eval, m).value)
    decreases e, 0, i + 1, 0
  {
    var c := e.children[i];
    if Visible(c.name) {
      if c.Dir? {
        FolderResultsWithin(GlobPath(root, c.name), c, eval);
        var sub := FolderResults(GlobPath(root, c.name), c, eval);
        forall k | k in sub.value
          ensures Within(root, k)
        {
          WithinChild(root, c.name, k);
        }
      } else {
        DirnameOfGlobPath(root, c.name);
        WithinOwnKey(root);
      }
    }
  }

  /** The walk of the i-th entry of `e`, which is a directory. */
  function ChildResults(root: string, e: Entry, i: nat, eval: FolderEvaluator): Result<map<string, real>>
    requires e.Dir? && i < |e.children|
  {
    FolderResults(GlobPath(root, e.children[i].name), e.children[i], eval)
  }

  predicate IsSubdir(e: Entry, i: nat)
    requires e.Dir?
  {
    i < |e.children| && Visible(e.children[i].name) && e.children[i].Dir?
  }

  /** The results of the subdirectories among the first n entries are all
      present, unchanged, in `m`. */
  ghost predicate ChildResultsIn(root: string, e: Entry, n: nat, eval: FolderEvaluator, m: map<string, real>)
    requires e.Dir? && n <= |e.children|
  {
    forall i :: 0 <= i < n && IsSubdir(e, i) ==>
      (ChildResults(root, e, i, eval).Ok? &&
       forall k :: k in ChildResults(root, e, i, eval).value ==> k in m && m[k] == ChildResults(root, e, i, eval).value[k])
  }

  /** Every key of `m` is the root's own key or comes from one of the
      subdirectories among the first n entries. */
  ghost predicate KeysFromChildren(root: string, e: Entry, n: nat, eval: FolderEvaluator, m: map<string, real>)
    requires e.Dir? && n <= |e.children|
  {
    forall k :: k in m ==> (k == ParentKey(root) ||
      exists i :: 0 <= i < n && IsSubdir(e, i) && ChildResults(root, e, i, eval).Ok? && k in ChildResults(root, e, i, eval).value)
  }

  /** What the loop keeps true of `results` after n entries. */
  ghost predicate ScanInvariant(root: string, e: Entry, n: nat, eval: FolderEvaluator, m: map<string, real>)
    requires e.Dir? && n <= |e.children|
  {
    var pk := ParentKey(root);
    (pk in m <==> HasOwnFile(e.children, n)) &&
    (pk in m ==> eval(pk, ListingAt(pk, e)) == Ok(m[pk])) &&
    ChildResultsIn(root, e, n, eval, m) &&
    KeysFromChildren(root, e, n, eval, m)
  }

  /** Keys of a subdirectory's results are never the root's own key. */
  lemma ChildKeyNotParent(root: string, e: Entry, i: nat, eval: FolderEvaluator, k: string)
    requires e.Dir? && i < |e.children|
    requires ChildResults(root, e, i, eval).Ok? && k in ChildResults(root, e, i, eval).value
    ensures k != ParentKey(root)
  {
    var ci := e.children[i];
    FolderResultsWithin(GlobPath(root, ci.name), ci, eval);
    WithinChild(root, ci.name, k);
  }

  /** Keys of a subdirectory's results are never keys within a differently
      named sibling. */
  lemma ChildKeysApart(root: string, e: Entry, i: nat, j: nat, eval: FolderEvaluator, k: string)
    requires e.Dir? && SortedNames(e.children) && i < |e.children| && j < |e.children| && i != j
    requires ChildResults(root, e, i, eval).Ok? && k in ChildResults(root, e, i, eval).value
    ensures !Within(GlobPath(root, e.children[j].name), k)
  {
    var ci := e.children[i];
    FolderResultsWithin(GlobPath(root, ci.name), ci, eval);
    if i < j { SortedNamesDistinct(e.children, i, j); } else { SortedNamesDistinct(e.children, j, i); }
    SiblingsDisjoint(root, ci.name, e.children[j].name, k);
  }

  lemma ScanStepSubdir(root: string, e: Entry, i: nat, eval: FolderEvaluator, m: map<string, real>)
    requires e.Dir? && SortedNames(e.children) && i < |e.children| && IsSubdir(e, i)
    requires ScanInvariant(root, e, i, eval, m)
    requires ScanStep(root, e, i, eval, m).Ok?
    ensures ScanInvariant(root, e, i + 1, eval, ScanStep(root, e, i, eval, m).value)
  {
    var c := e.children[i];
    var pk := ParentKey(root);
    var sub := ChildResults(root, e, i, eval).value;
    var m' := m + sub;
    assert ScanStep(root, e, i, eval, m).value == m';
    forall k | k in sub
      ensures k != pk
    {
      ChildKeyNotParent(root, e, i, eval, k);
    }
    forall j | 0 <= j < i + 1 && IsSubdir(e, j)
      ensures ChildResults(root, e, j, eval).Ok?
      ensures forall k :: k in ChildResults(root, e, j, eval).value ==> k in m' && m'[k] == ChildResults(root, e, j, eval).value[k]
    {
      if j < i {
        forall k | k in ChildResults(root, e, j, eval).value
          ensures k !in sub
        {
          ChildKeysApart(root, e, j, i, eval, k);
          FolderResultsWithin(GlobPath(root, c.name), c, eval);
        }
      }
    }
    assert HasOwnFile(e.children, i + 1) == HasOwnFile(e.children, i);
    forall k | k in m'
      ensures k == pk || exists j :: 0 <= j < i + 1 && IsSubdir(e, j) && ChildResults(root, e, j, eval).Ok? && k in ChildResults(root, e, j, eval).value
    {
      if k in sub {
        assert IsSubdir(e, i) && k in ChildResults(root, e, i, eval).value;
      }
    }
  }

  lemma ScanStepOther(root: string, e: Entry, i: nat, eval: FolderEvaluator, m: map<string, real>)
    requires e.Dir? && i < |e.children| && !IsSubdir(e, i)
    requires ScanInvariant(root, e, i, eval, m)
    requires ScanStep(root, e, i, eval, m).Ok?
    ensures ScanInvariant(root, e, i + 1, eval, ScanStep(root, e, i, eval, m).value)
  {
    var c := e.children[i];
    var pk := ParentKey(root);
    var m' := ScanStep(root, e, i, eval, m).value;
    if Visible(c.name) {
      DirnameOfGlobPath(root, c.name);
      assert HasOwnFile(e.children, i + 1);
      forall j, k | 0 <= j < i && IsSubdir(e, j) && ChildResults(root, e, j, eval).Ok? && k in ChildResults(root, e, j, eval).value
        ensures k != pk
      {
        ChildKeyNotParent(root, e, j, eval, k);
      }
    } else {
      assert m' == m;
      assert HasOwnFile(e.children, i + 1) == HasOwnFile(e.children, i);
    }
  }

  /** A loop that has not failed after n entries had not failed after n - 1. */
  lemma ScanOkPrefix(root: string, e: Entry, n: nat, eval: FolderEvaluator)
    requires e.Dir? && 0 < n <= |e.children|
    requires Scan(root, e, n, eval).Ok?
    ensures Scan(root, e, n - 1, eval).Ok?
    ensures ScanStep(root, e, n - 1, eval, Scan(root, e, n - 1, eval).value) == Scan(root, e, n, eval)
  {
  }

  /** What the loop has built after n entries, when it has not failed. */
  lemma {:induction false} ScanOk(root: string, e: Entry, n: nat, eval: FolderEvaluator)
    requires e.Dir? && SortedNames(e.children) && n <= |e.children|
    requires Scan(root, e, n, eval).Ok?
    ensures ScanInvariant(root, e, n, eval, Scan(root, e, n, eval).value)
    decreases n
  {
    if n > 0 {
      ScanOkPrefix(root, e, n, eval);
      ScanOk(root, e, n - 1, eval);
      var m := Scan(root, e, n - 1, eval).value;
      if IsSubdir(e, n - 1) {
        ScanStepSubdir(root, e, n - 1, eval, m);
      } else {
        ScanStepOther(root, e, n - 1, eval, m);
      }
    }
  }

  /** Some subdirectory among the first n entries fails its walk. */
  ghost predicate SubdirFails(root: string, e: Entry, n: nat, eval: FolderEvaluator)
    requires e.Dir? && n <= |e.children|
  {
    exists i :: 0 <= i < n && IsSubdir(e, i) && ChildResults(root, e, i, eval).Err?
  }

  /** The directory has its own entries among the first n, and evaluating
      it fails. */
  predicate OwnEvalFails(root: string, e: Entry, n: nat, eval: FolderEvaluator)
    requires e.Dir?
  {
    HasOwnFile(e.children, n) && eval(ParentKey(root), ListingAt(ParentKey(root), e)).Err?
  }

  /** When the loop fails: some subdirectory's walk fails, or the directory
      has its own files and evaluating it fails. */
  lemma {:induction false} ScanErr(root: string, e: Entry, n: nat, eval: FolderEvaluator)
    requires e.Dir? && n <= |e.children|
    ensures Scan(root, e, n, eval).Err? <==> SubdirFails(root, e, n, eval) || OwnEvalFails(root, e, n, eval)
    decreases n
  {
    if n > 0 {
      ScanErr(root, e, n - 1, eval);
      var c := e.children[n - 1];
      HasOwnFileStep(e.children, n);
      SubdirFailsStep(root, e, n, eval);
      if Scan(root, e, n - 1, eval).Ok? {
        var m := Scan(root, e, n - 1, eval).value;
        ScanOwnKey(root, e, n - 1, eval);
        ScanStepErr(root, e, n - 1, eval, m);
      }
    }
  }

  lemma HasOwnFileStep(cs: seq<Entry>, n: nat)
    requires 0 < n <= |cs|
    ensures HasOwnFile(cs, n) <==> HasOwnFile(cs, n - 1) || (Visible(cs[n - 1].name) && !cs[n - 1].Dir?)
  {
  }

  lemma SubdirFailsStep(root: string, e: Entry, n: nat, eval: FolderEvaluator)
    requires e.Dir? && 0 < n <= |e.children|
    ensures SubdirFails(root, e, n, eval) <==>
      SubdirFails(root, e, n - 1, eval) || (IsSubdir(e, n - 1) && ChildResults(root, e, n - 1, eval).Err?)
  {
  }

  /** The root's own key is recorded exactly once the loop has seen an own
      entry, and it holds the evaluation of the directory. */
  lemma {:induction false} ScanOwnKey(root: string, e: Entry, n: nat, eval: FolderEvaluator)
    requires e.Dir? && n <= |e.children|
    requires Scan(root, e, n, eval).Ok?
    ensures var m, pk := Scan(root, e, n, eval).value, ParentKey(root);
      (pk in m <==> HasOwnFile(e.children, n)) &&
      (pk in m ==> eval(pk, ListingAt(pk, e)) == Ok(m[pk]))
    decreases n
  {
    if n > 0 {
      ScanOkPrefix(root, e, n, eval);
      ScanOwnKey(root, e, n - 1, eval);
      HasOwnFileStep(e.children, n);
      var c := e.children[n - 1];
      if Visible(c.name) {
        if c.Dir? {
          var sub := ChildResults(root, e, n - 1, eval).value;
          forall k | k in sub
            ensures k != ParentKey(root)
          {
            ChildKeyNotParent(root, e, n - 1, eval, k);
          }
        } else {
          DirnameOfGlobPath(root, c.name);
        }
      }
    }
  }

  /** A step fails exactly on a failing subdirectory, or on the first own
      entry of a directory whose evaluation fails. */
  lemma ScanStepErr(root: string, e: Entry, i: nat, eval: FolderEvaluator, m: map<string, real>)
    requires e.Dir? && i < |e.children|
    requires ParentKey(root) in m <==> HasOwnFile(e.children, i)
    requires ParentKey(root) in m ==> eval(ParentKey(root), ListingAt(ParentKey(root), e)) == Ok(m[ParentKey(root)])
    ensures var c, pk := e.children[i], ParentKey(root);
      ScanStep(root, e, i, eval, m).Err? <==>
        (IsSubdir(e, i) && ChildResults(root, e, i, eval).Err?) ||
        (Visible(c.name) && !c.Dir? && eval(pk, ListingAt(pk, e)).Err?)
  {
    var c := e.children[i];
    if Visible(c.name) && !c.Dir? {
      DirnameOfGlobPath(root, c.name);
    }
  }

  /** iterate_over_folders, described without reference to the order of the
      walk. A non-directory gives the empty map. For a directory: the walk
      fails exactly when a subdirectory's walk fails or the directory has
      its own (visible, non-directory) entries and evaluating it fails.
      Otherwise the directory's own key is present exactly when it has such
      entries, and it then holds eval_whole_folder's accuracy for it,
      computed once; every subdirectory's results are included unchanged,
      so no merge overwrites another subdirectory's key or the own key;
      there are no other keys; and every key lies at or below the root. */
  lemma FolderResultsSpec(root: string, e: Entry, eval: FolderEvaluator)
    requires WellFormed(e)
    ensures !e.Dir? ==> FolderResults(root, e, eval) == Ok(map[])
    ensures e.Dir? ==>
      (FolderResults(root, e, eval).Err? <==>
        SubdirFails(root, e, |e.children|, eval) || OwnEvalFails(root, e, |e.children|, eval))
    ensures e.Dir? && FolderResults(root, e, eval).Ok? ==>
      var m := FolderResults(root, e, eval).value;
      ScanInvariant(root, e, |e.children|, eval, m) && (forall k :: k in m ==> Within(root, k))
  {
    FolderResultsWithin(root, e, eval);
    if e.Dir? {
      ScanErr(root, e, |e.children|, eval);
      if FolderResults(root, e, eval).Ok? {
        ScanOk(root, e, |e.children|, eval);
      }
    }
  }

  /** A directory walked as "data/0_real/" is recorded under "data/0_real"
      and so evaluated as the real class, although eval_whole_folder called
      directly on "data/0_real/" would treat it as synthetic. */
  lemma WalkStripsTrailingSlash()
    ensures ParentKey("data/0_real/") == "data/0_real"
    ensures IsRealClass(ParentKey("data/0_real/")) && !IsRealClass("data/0_real/")
  {
    var s := "data/0_real/";
    assert s[..|s| - 1] == "data/0_real";
    assert !AllSlashes(s) by { assert s[0] != '/'; }
    TrailingSlashExamples();
  }
}
