/** A directory tree as the core sees it through glob.glob, os.path.isdir
    and os.path.isfile, and the image file list that both eval_whole_folder
    and batch_infer build from it. */
module FileSystem {
  import opened Errors
  import opened Paths

  /** A directory entry name: never empty and never holding a '/'. */
  type Name = s: string | s != "" && '/' !in s witness "_"

  /** `Special` is whatever is neither a regular file nor a directory to
      os.path (a broken link, a socket, a pipe, a device). A directory's
      `children` are its listing, in name order (see `WellFormed`). */
  datatype Entry =
    | File(name: Name)
    | Dir(name: Name, children: seq<Entry>)
    | Special(name: Name)

  predicate SortedNames(cs: seq<Entry>)
  {
    forall i, j {:trigger Less(cs[i].name, cs[j].name)} :: 0 <= i < j < |cs| ==> Less(cs[i].name, cs[j].name)
  }

  /** Every listing in the tree is held in name order, so the names in one
      directory are distinct. */
  predicate WellFormed(e: Entry)
    decreases e
  {
    e.Dir? ==>
      SortedNames(e.children) &&
      forall i :: 0 <= i < |e.children| ==> WellFormed(e.children[i])
  }

  lemma SortedNamesDistinct(cs: seq<Entry>, i: nat, j: nat)
    requires SortedNames(cs) && i < j < |cs|
    ensures cs[i].name != cs[j].name
  {
    if cs[i].name == cs[j].name {
      LessIrreflexive(cs[i].name);
    }
  }

  /** glob's wildcards never match a name that starts with '.'. */
  predicate Visible(name: string)
  {
    name != "" && name[0] != '.'
  }

  predicate EndsWith(s: string, suffix: string)
  {
    |suffix| <= |s| && s[|s| - |suffix|..] == suffix
  }

  /** glob pattern `*` + suffix, on one name (case-sensitive, as on POSIX). */
  predicate MatchesStarSuffix(name: string, suffix: string)
  {
    Visible(name) && EndsWith(name, suffix)
  }

  /** The three patterns "*.jpg", "*.png" and "*.JPEG". */
  predicate IsImageName(name: string)
  {
    MatchesStarSuffix(name, ".jpg") || MatchesStarSuffix(name, ".png") || MatchesStarSuffix(name, ".JPEG")
  }

  /** The entries of a listing that one of the image patterns matches, in
      listing order. Directories and special entries are matched as well:
      glob looks at names only. */
  function ImageEntries(cs: seq<Entry>): (r: seq<Entry>)
    ensures |r| <= |cs|
    ensures forall i :: 0 <= i < |r| ==> IsImageName(r[i].name)
  {
    if cs == [] then []
    else if IsImageName(cs[0].name) then [cs[0]] + ImageEntries(cs[1..])
    else ImageEntries(cs[1..])
  }

  /** The filter keeps exactly the entries the patterns match. */
  lemma {:induction false} ImageEntriesMembers(cs: seq<Entry>)
    ensures forall e :: e in ImageEntries(cs) <==> e in cs && IsImageName(e.name)
    decreases |cs|
  {
    if cs != [] {
      ImageEntriesMembers(cs[1..]);
      assert cs == [cs[0]] + cs[1..];
    }
  }

  /** The filter keeps the listing's order. */
  lemma {:induction false} ImageEntriesSorted(cs: seq<Entry>)
    requires SortedNames(cs)
    ensures SortedNames(ImageEntries(cs))
    decreases |cs|
  {
    if cs != [] {
      ImageEntriesSorted(cs[1..]);
      ImageEntriesMembers(cs[1..]);
      var rest := ImageEntries(cs[1..]);
      forall e | e in rest
        ensures Less(cs[0].name, e.name)
      {
        var j :| 0 <= j < |cs[1..]| && cs[1..][j] == e;
        assert cs[j + 1] == e;
      }
    }
  }

  /** The paths glob returns for some entries of `folder`: the folder with
      its trailing slashes stripped, a single '/' (none after "") and the
      name. */
  function PathsOf(folder: string, es: seq<Entry>): (r: seq<string>)
    ensures |r| == |es|
    ensures forall i :: 0 <= i < |es| ==> r[i] == Sep(ParentKey(folder)) + es[i].name
  {
    seq(|es|, i requires 0 <= i < |es| => GlobPath(folder, es[i].name))
  }

  /** `file_list` (new_eval.py) and `img_paths` (oonx_infer.py). */
  function ImagePaths(folder: string, cs: seq<Entry>): seq<string>
  {
    PathsOf(folder, ImageEntries(cs))
  }

  /** What one glob.glob(os.path.join(folder, "*" + suffix)) returns, as a set. */
  function GlobStarSuffix(folder: string, cs: seq<Entry>, suffix: string): set<string>
  {
    set i | 0 <= i < |cs| && MatchesStarSuffix(cs[i].name, suffix) :: GlobPath(folder, cs[i].name)
  }

  /** The union of the three image globs. */
  function ImageGlobs(folder: string, cs: seq<Entry>): set<string>
  {
    GlobStarSuffix(folder, cs, ".jpg") + GlobStarSuffix(folder, cs, ".png") + GlobStarSuffix(folder, cs, ".JPEG")
  }

  lemma ImagePathInGlobs(folder: string, cs: seq<Entry>, i: nat)
    requires i < |ImagePaths(folder, cs)|
    ensures ImagePaths(folder, cs)[i] in ImageGlobs(folder, cs)
  {
    var es := ImageEntries(cs);
    ImageEntriesMembers(cs);
    assert es[i] in es;
    var k :| 0 <= k < |cs| && cs[k] == es[i];
    var p := GlobPath(folder, cs[k].name);
    if MatchesStarSuffix(cs[k].name, ".jpg") {
      assert p in GlobStarSuffix(folder, cs, ".jpg");
    } else if MatchesStarSuffix(cs[k].name, ".png") {
      assert p in GlobStarSuffix(folder, cs, ".png");
    } else {
      assert p in GlobStarSuffix(folder, cs, ".JPEG");
    }
  }

  lemma GlobbedInImagePaths(folder: string, cs: seq<Entry>, p: string)
    requires p in ImageGlobs(folder, cs)
    ensures p in ImagePaths(folder, cs)
  {
    var es := ImageEntries(cs);
    ImageEntriesMembers(cs);
    var k :| 0 <= k < |cs| && IsImageName(cs[k].name) && p == GlobPath(folder, cs[k].name);
    assert cs[k] in cs;
    var i :| 0 <= i < |es| && es[i] == cs[k];
    assert ImagePaths(folder, cs)[i] == p;
  }

  /** The image file list is sorted, and holds exactly the paths the three
      globs return. */
  lemma ImagePathsSortedGlob(folder: string, cs: seq<Entry>)
    requires SortedNames(cs)
    ensures StrictlySorted(ImagePaths(folder, cs))
    ensures forall p :: p in ImagePaths(folder, cs) <==> p in ImageGlobs(folder, cs)
  {
    var es := ImageEntries(cs);
    var ps := ImagePaths(folder, cs);
    ImageEntriesSorted(cs);
    forall i, j | 0 <= i < j < |ps|
      ensures Less(ps[i], ps[j])
    {
      LessPrefix(Sep(ParentKey(folder)), es[i].name, es[j].name);
    }
    forall p
      ensures p in ps <==> p in ImageGlobs(folder, cs)
    {
      if p in ps {
        var i :| 0 <= i < |ps| && ps[i] == p;
        ImagePathInGlobs(folder, cs, i);
      }
      if p in ImageGlobs(folder, cs) {
        GlobbedInImagePaths(folder, cs, p);
      }
    }
  }

  /** A globbed path ends in the suffix its pattern asks for. */
  lemma GlobEndsWith(folder: string, cs: seq<Entry>, suffix: string, p: string)
    requires p in GlobStarSuffix(folder, cs, suffix)
    ensures EndsWith(p, suffix)
  {
    var i :| 0 <= i < |cs| && MatchesStarSuffix(cs[i].name, suffix) && p == GlobPath(folder, cs[i].name);
    var n := cs[i].name;
    assert n[0] in n;
    assert p == Sep(ParentKey(folder)) + n;
    assert p[|p| - |suffix|..] == n[|n| - |suffix|..];
  }

  /** No path is matched by two of the three image patterns: the three glob
      results never overlap, so their concatenation repeats nothing. */
  lemma ImageGlobsDisjoint(folder: string, cs: seq<Entry>, p: string)
    ensures !(p in GlobStarSuffix(folder, cs, ".jpg") && p in GlobStarSuffix(folder, cs, ".png"))
    ensures !(p in GlobStarSuffix(folder, cs, ".jpg") && p in GlobStarSuffix(folder, cs, ".JPEG"))
    ensures !(p in GlobStarSuffix(folder, cs, ".png") && p in GlobStarSuffix(folder, cs, ".JPEG"))
  {
    if p in GlobStarSuffix(folder, cs, ".jpg") {
      GlobEndsWith(folder, cs, ".jpg", p);
      assert p[|p| - 1] == 'g' && p[|p| - 4] == '.';
    }
    if p in GlobStarSuffix(folder, cs, ".png") {
      GlobEndsWith(folder, cs, ".png", p);
      assert p[|p| - 1] == 'g' && p[|p| - 2] == 'n' && p[|p| - 4] == '.';
    }
    if p in GlobStarSuffix(folder, cs, ".JPEG") {
      GlobEndsWith(folder, cs, ".JPEG", p);
      assert p[|p| - 1] == 'G' && p[|p| - 4] == 'J';
    }
  }

  /** One glob.glob call with pattern "*" + suffix: some ordering of its
      matches, each named once. */
  ghost predicate IsGlobList(folder: string, cs: seq<Entry>, suffix: string, g: seq<string>)
  {
    Distinct(g) && forall p :: p in g <==> p in GlobStarSuffix(folder, cs, suffix)
  }

  /** The concatenated globs repeat nothing and hold exactly the image
      globs. */
  lemma GlobListsUnion(folder: string, cs: seq<Entry>, jpg: seq<string>, png: seq<string>, jpeg: seq<string>)
    requires IsGlobList(folder, cs, ".jpg", jpg)
    requires IsGlobList(folder, cs, ".png", png)
    requires IsGlobList(folder, cs, ".JPEG", jpeg)
    ensures Distinct(jpg + png + jpeg)
    ensures forall p :: p in jpg + png + jpeg <==> p in ImageGlobs(folder, cs)
  {
    forall p | p in jpg
      ensures p !in png
    {
      ImageGlobsDisjoint(folder, cs, p);
    }
    DistinctConcat(jpg, png);
    forall p | p in jpg + png
      ensures p !in jpeg
    {
      ImageGlobsDisjoint(folder, cs, p);
    }
    DistinctConcat(jpg + png, jpeg);
  }

  /** `sorted(glob(*.jpg) + glob(*.png) + glob(*.JPEG))`, whatever order
      each glob lists its matches in, is the model's image list: any sorted
      rearrangement of the concatenation is it. */
  lemma SortedGlobIsImagePaths(folder: string, cs: seq<Entry>, jpg: seq<string>, png: seq<string>, jpeg: seq<string>, s: seq<string>)
    requires SortedNames(cs)
    requires IsGlobList(folder, cs, ".jpg", jpg)
    requires IsGlobList(folder, cs, ".png", png)
    requires IsGlobList(folder, cs, ".JPEG", jpeg)
    requires Sorted(s) && multiset(s) == multiset(jpg + png + jpeg)
    ensures s == ImagePaths(folder, cs)
  {
    var all := jpg + png + jpeg;
    GlobListsUnion(folder, cs, jpg, png, jpeg);
    SortedPermutation(s, all);
    assert forall p :: p in s <==> p in ImageGlobs(folder, cs);
    ImagePathsSortedGlob(folder, cs);
    SortedUnique(s, ImagePaths(folder, cs));
  }

  /** The index of the first entry that is not a regular file, if any. */
  function FirstNonFile(es: seq<Entry>): (r: Option<nat>)
    ensures r.Some? ==> r.value < |es| && !es[r.value].File?
                        && forall j :: 0 <= j < r.value ==> es[j].File?
    ensures r.None? ==> forall j :: 0 <= j < |es| ==> es[j].File?
  {
    if es == [] then None
    else if !es[0].File? then Some(0)
    else match FirstNonFile(es[1..])
      case None => None
      case Some(i) => Some(i + 1)
  }
}
