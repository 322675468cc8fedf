/** The slice of Python's posixpath and str behaviour the core relies on:
    os.path.join with a relative component, os.path.dirname,
    os.path.basename / str.split("/")[-1], and the ordering `sorted` uses. */
module Paths {

  /** What os.path.join(a, b) puts in front of a relative `b`: `a` itself
      when it is empty or already ends in '/', otherwise `a` + "/". */
  function Sep(a: string): (r: string)
    ensures |a| <= |r| && r[..|a|] == a
    ensures r == "" || r[|r| - 1] == '/'
    ensures r == "" <==> a == ""
  {
    if a == "" || a[|a| - 1] == '/' then a else a + "/"
  }

  /** os.path.join(a, b): an absolute `b` replaces `a`. */
  function Join(a: string, b: string): string
  {
    if |b| > 0 && b[0] == '/' then b else Sep(a) + b
  }

  /** str.rfind('/') + 1: the index just after the last '/', or 0. */
  function SlashEnd(p: string): (i: nat)
    ensures i <= |p|
    ensures i > 0 ==> p[i - 1] == '/'
    ensures forall k :: i <= k < |p| ==> p[k] != '/'
  {
    if p == "" then 0
    else if p[|p| - 1] == '/' then |p|
    else SlashEnd(p[..|p| - 1])
  }

  /** os.path.basename(p), which is also p.split("/")[-1]: the text after
      the last '/', the whole of `p` when it has none. */
  function LastComponent(p: string): (r: string)
    ensures '/' !in r
  {
    p[SlashEnd(p)..]
  }

  /** The basename is the longest suffix without a '/': it is a suffix, and
      it is either all of `p` or preceded by a '/'. */
  lemma LastComponentSuffix(p: string)
    ensures var r := LastComponent(p);
      |r| <= |p| && r == p[|p| - |r|..] && (|r| == |p| || p[|p| - |r| - 1] == '/')
  {
  }

  predicate AllSlashes(s: string)
  {
    forall k :: 0 <= k < |s| ==> s[k] == '/'
  }

  /** str.rstrip('/'). */
  function RStripSlashes(s: string): (r: string)
    ensures |r| <= |s| && r == s[..|r|]
    ensures r == "" || r[|r| - 1] != '/'
    ensures forall k :: |r| <= k < |s| ==> s[k] == '/'
  {
    if s != "" && s[|s| - 1] == '/' then RStripSlashes(s[..|s| - 1]) else s
  }

  /** os.path.dirname(p): everything up to the last '/', with trailing
      slashes removed unless that leaves only slashes. */
  function Dirname(p: string): string
  {
    var head := p[..SlashEnd(p)];
    if head != "" && !AllSlashes(head) then RStripSlashes(head) else head
  }

  /** The directory name that os.path.dirname gives back for any entry
      listed under `root`: `root` without its trailing slashes, except that
      "" and a run of slashes stay as they are. */
  function ParentKey(root: string): (r: string)
    ensures |r| <= |root|
    ensures r == "" <==> root == ""
  {
    if root == "" || AllSlashes(root) then root else RStripSlashes(root)
  }

  lemma {:induction false} SlashEndNoSlash(s: string, t: string)
    requires '/' !in t
    ensures SlashEnd(s + t) == SlashEnd(s)
    decreases |t|
  {
    if t == "" {
      assert s + t == s;
    } else {
      var t' := t[..|t| - 1];
      assert (s + t)[..|s + t| - 1] == s + t';
      assert t[|t| - 1] in t;
      assert forall c :: c in t' ==> c in t;
      SlashEndNoSlash(s, t');
    }
  }

  lemma SlashEndOfSep(a: string)
    ensures SlashEnd(Sep(a)) == |Sep(a)|
  {
  }

  /** The basename of a path joined from a directory and a name is the name. */
  lemma LastComponentOfJoin(root: string, name: string)
    requires name != "" && '/' !in name
    ensures LastComponent(Join(root, name)) == name
  {
    assert name[0] in name;
    SlashEndNoSlash(Sep(root), name);
    SlashEndOfSep(root);
  }

  lemma RStripAppendSlash(s: string)
    requires s != "" && s[|s| - 1] != '/'
    ensures RStripSlashes(s + "/") == s
  {
    assert (s + "/")[..|s + "/"| - 1] == s;
  }

  /** What iterate_over_folders records as the parent of an entry: the
      dirname of os.path.join(root, name) does not depend on the name. */
  lemma DirnameOfJoin(root: string, name: string)
    requires name != "" && '/' !in name
    ensures Dirname(Join(root, name)) == ParentKey(root)
  {
    assert name[0] in name;
    var p := Sep(root) + name;
    SlashEndNoSlash(Sep(root), name);
    SlashEndOfSep(root);
    assert p[..SlashEnd(p)] == Sep(root);
    if root != "" && root[|root| - 1] != '/' {
      assert !AllSlashes(root);
      assert !AllSlashes(root + "/") by {
        assert (root + "/")[|root| - 1] == root[|root| - 1];
      }
      RStripAppendSlash(root);
      assert RStripSlashes(root) == root;
    }
  }

  /** A child path `Sep(root) + name` is its own parent key and is followed
      by a single '/' in the paths of its own children. */
  lemma ChildPathShape(root: string, name: string)
    requires name != "" && '/' !in name
    ensures ParentKey(Join(root, name)) == Join(root, name)
    ensures Sep(Join(root, name)) == Join(root, name) + "/"
    ensures |Join(root, name)| > |Sep(root)|
  {
    var q := Join(root, name);
    assert name[0] in name;
    assert q[|q| - 1] == name[|name| - 1];
    assert name[|name| - 1] in name;
    assert !AllSlashes(q);
  }

  /** Python's `<` on str: lexicographic by code point. */
  predicate Less(a: string, b: string)
  {
    |b| > 0 && (|a| == 0 || a[0] < b[0] || (a[0] == b[0] && Less(a[1..], b[1..])))
  }

  lemma {:induction false} LessIrreflexive(a: string)
    ensures !Less(a, a)
    decreases |a|
  {
    if |a| > 0 {
      LessIrreflexive(a[1..]);
    }
  }

  lemma {:induction false} LessTransitive(a: string, b: string, c: string)
    requires Less(a, b) && Less(b, c)
    ensures Less(a, c)
    decreases |a|
  {
    if |a| > 0 && a[0] == b[0] && b[0] == c[0] {
      LessTransitive(a[1..], b[1..], c[1..]);
    }
  }

  /** A common prefix does not change the order of two strings. */
  lemma {:induction false} LessPrefix(p: string, a: string, b: string)
    requires Less(a, b)
    ensures Less(p + a, p + b)
    decreases |p|
  {
    if p != "" {
      assert (p + a)[1..] == p[1..] + a;
      assert (p + b)[1..] == p[1..] + b;
      LessPrefix(p[1..], a, b);
    } else {
      assert p + a == a && p + b == b;
    }
  }

  predicate StrictlySorted(s: seq<string>)
  {
    forall i, j :: 0 <= i < j < |s| ==> Less(s[i], s[j])
  }

  /** Two strictly sorted sequences with the same elements are equal: what
      Python's `sorted` returns for a collection of distinct strings is
      determined by the collection alone. */
  lemma {:induction false} SortedUnique(s: seq<string>, t: seq<string>)
    requires StrictlySorted(s) && StrictlySorted(t)
    requires forall x :: x in s <==> x in t
    ensures s == t
    decreases |s|
  {
    assert s == [] <==> t == [] by {
      if s != [] { assert s[0] in s; }
      if t != [] { assert t[0] in t; }
    }
    if s != [] {
      assert s[0] in s;
      assert t[0] in t;
      if s[0] != t[0] {
        var k :| 0 <= k < |t| && t[k] == s[0];
        var m :| 0 <= m < |s| && s[m] == t[0];
        assert k > 0 && m > 0;
        assert Less(t[0], s[0]);
        assert Less(s[0], t[0]);
        LessTransitive(t[0], s[0], t[0]);
        LessIrreflexive(t[0]);
      }
      forall x
        ensures x in s[1..] <==> x in t[1..]
      {
        if x in s[1..] {
          var j :| 1 <= j < |s| && s[j] == x;
          if x == s[0] { LessIrreflexive(x); }
          assert x in s;
          var i :| 0 <= i < |t| && t[i] == x;
          assert i != 0;
          assert t[1..][i - 1] == x;
        }
        if x in t[1..] {
          var j :| 1 <= j < |t| && t[j] == x;
          if x == t[0] { LessIrreflexive(x); }
          assert x in t;
          var i :| 0 <= i < |s| && s[i] == x;
          assert i != 0;
          assert s[1..][i - 1] == x;
        }
      }
      SortedUnique(s[1..], t[1..]);
      assert s == [s[0]] + s[1..];
      assert t == [t[0]] + t[1..];
    }
  }

  /** `k` is the parent key of `root` or a path strictly below `root`. */
  predicate Under(root: string, k: string)
  {
    k == ParentKey(root) || (|Sep(root)| < |k| && k[..|Sep(root)|] == Sep(root))
  }

  /** Everything within a child of `root` is within `root`, and is longer
      than `root`, so it is never `root`'s own parent key. */
  lemma UnderChild(root: string, name: string, k: string)
    requires name != "" && '/' !in name
    requires Under(Join(root, name), k)
    ensures Under(root, k)
    ensures |k| > |Sep(root)| && k != ParentKey(root)
  {
    ChildPathShape(root, name);
    var q := Join(root, name);
    assert |k| >= |q|;
    assert k[..|q|] == q by {
      if k != q {
        assert k[..|Sep(q)|][..|q|] == q;
      }
    }
    assert k[..|Sep(root)|] == q[..|Sep(root)|];
  }

  /** A path within the child `q` of a directory starts with `q` and goes
      on, if at all, with a '/'. */
  lemma UnderChildPrefix(root: string, name: string, k: string)
    requires name != "" && '/' !in name
    requires Under(Join(root, name), k)
    ensures var q := Join(root, name);
      |k| >= |q| && k[..|q|] == q && (|k| == |q| || k[|q|] == '/')
  {
    ChildPathShape(root, name);
    var q := Join(root, name);
    if k != q {
      assert k[..|Sep(q)|] == q + "/";
      assert k[..|q|] == (q + "/")[..|q|];
      assert k[|q|] == (q + "/")[|q|];
    }
  }

  /** The text before the first '/'. */
  function UpToSlash(s: string): string
  {
    if s == "" || s[0] == '/' then "" else [s[0]] + UpToSlash(s[1..])
  }

  lemma {:induction false} UpToSlashOfName(n: string, t: string)
    requires '/' !in n
    requires t == "" || t[0] == '/'
    ensures UpToSlash(n + t) == n
    decreases |n|
  {
    if n == "" {
      assert n + t == t;
    } else {
      assert n[0] in n;
      assert (n + t)[1..] == n[1..] + t;
      assert forall c :: c in n[1..] ==> c in n;
      UpToSlashOfName(n[1..], t);
    }
  }

  lemma SliceSplit(k: string, a: nat, b: nat)
    requires a <= b <= |k|
    ensures k[a..] == k[a..b] + k[b..]
  {
  }

  /** Past Sep(root), a path within the child `Join(root, name)` begins
      with `name` up to its first '/'. */
  lemma UnderChildName(root: string, name: string, k: string)
    requires name != "" && '/' !in name
    requires Under(Join(root, name), k)
    ensures |k| >= |Sep(root)| && UpToSlash(k[|Sep(root)|..]) == name
  {
    var s, q := Sep(root), Join(root, name);
    assert q == s + name by {
      assert name[0] in name;
    }
    assert k[..|q|] == q by {
      UnderChildPrefix(root, name, k);
    }
    var t := k[|q|..];
    assert t == "" || t[0] == '/' by {
      UnderChildPrefix(root, name, k);
    }
    assert k[|s|..|q|] == q[|s|..] == name;
    SliceSplit(k, |s|, |q|);
    UpToSlashOfName(name, t);
  }

  /** Paths within two differently named children of one directory are
      different. */
  lemma UnderSiblingsDisjoint(root: string, n1: string, n2: string, k: string)
    requires n1 != "" && '/' !in n1 && n2 != "" && '/' !in n2
    requires n1 != n2
    requires Under(Join(root, n1), k)
    ensures !Under(Join(root, n2), k)
  {
    UnderChildName(root, n1, k);
    if Under(Join(root, n2), k) {
      UnderChildName(root, n2, k);
    }
  }

  /** Stripping trailing slashes twice is stripping them once. */
  lemma ParentKeyIdempotent(root: string)
    ensures ParentKey(ParentKey(root)) == ParentKey(root)
  {
    if root != "" && !AllSlashes(root) {
      var r := RStripSlashes(root);
      assert !AllSlashes(r) by {
        assert r[|r| - 1] != '/';
      }
    }
  }

  /** What glob.glob(os.path.join(folder, pattern)) yields for a name it
      matches: glob splits the pattern with os.path.split, whose head is
      `folder` with its trailing slashes stripped (unless it is "" or only
      slashes), and yields os.path.join(head, name). */
  function GlobPath(folder: string, name: string): string
  {
    Join(ParentKey(folder), name)
  }

  /** The head os.path.split gives for os.path.join(folder, pattern). */
  lemma DirnameOfPattern(folder: string, pattern: string)
    requires pattern != "" && '/' !in pattern
    ensures Dirname(Join(folder, pattern)) == ParentKey(folder)
  {
    DirnameOfJoin(folder, pattern);
  }

  /** A globbed path is a directory key of its own, and its own children
      are globbed under it with a single '/'. */
  lemma GlobPathShape(folder: string, name: string)
    requires name != "" && '/' !in name
    ensures ParentKey(GlobPath(folder, name)) == GlobPath(folder, name)
    ensures Sep(GlobPath(folder, name)) == GlobPath(folder, name) + "/"
  {
    ChildPathShape(ParentKey(folder), name);
  }

  /** The basename of a globbed path is the matched name. */
  lemma LastComponentOfGlobPath(folder: string, name: string)
    requires name != "" && '/' !in name
    ensures LastComponent(GlobPath(folder, name)) == name
  {
    LastComponentOfJoin(ParentKey(folder), name);
  }

  /** What iterate_over_folders records as the parent of a globbed entry:
      os.path.dirname of it is the folder's key, whatever the name. */
  lemma DirnameOfGlobPath(folder: string, name: string)
    requires name != "" && '/' !in name
    ensures Dirname(GlobPath(folder, name)) == ParentKey(folder)
  {
    DirnameOfJoin(ParentKey(folder), name);
    ParentKeyIdempotent(folder);
  }

  /** `k` is the key of `root` or a path strictly below it, as glob spells
      paths below `root`. */
  predicate Within(root: string, k: string)
  {
    Under(ParentKey(root), k)
  }

  lemma WithinOwnKey(root: string)
    ensures Within(root, ParentKey(root))
  {
    ParentKeyIdempotent(root);
  }

  /** Everything within a globbed child of `root` is within `root`, and is
      never `root`'s own key. */
  lemma WithinChild(root: string, name: string, k: string)
    requires name != "" && '/' !in name
    requires Within(GlobPath(root, name), k)
    ensures Within(root, k) && k != ParentKey(root)
  {
    GlobPathShape(root, name);
    UnderChild(ParentKey(root), name, k);
    ParentKeyIdempotent(root);
  }

  /** Paths within two differently named globbed children of one directory
      are different. */
  lemma SiblingsDisjoint(root: string, n1: string, n2: string, k: string)
    requires n1 != "" && '/' !in n1 && n2 != "" && '/' !in n2
    requires n1 != n2
    requires Within(GlobPath(root, n1), k)
    ensures !Within(GlobPath(root, n2), k)
  {
    GlobPathShape(root, n1);
    GlobPathShape(root, n2);
    UnderSiblingsDisjoint(ParentKey(root), n1, n2, k);
  }

  /** Python's `<` on str is total. */
  lemma {:induction false} LessTotal(a: string, b: string)
    requires a != b
    ensures Less(a, b) || Less(b, a)
    decreases |a|
  {
    if a != "" && b != "" && a[0] == b[0] {
      assert a == [a[0]] + a[1..] && b == [b[0]] + b[1..];
      LessTotal(a[1..], b[1..]);
    }
  }

  /** What `sorted` returns: no element is greater than a later one. */
  predicate Sorted(s: seq<string>)
  {
    forall i, j :: 0 <= i < j < |s| ==> !Less(s[j], s[i])
  }

  predicate Distinct(s: seq<string>)
  {
    forall i, j :: 0 <= i < j < |s| ==> s[i] != s[j]
  }

  /** A sorted list without repetitions is strictly sorted. */
  lemma SortedDistinct(s: seq<string>)
    requires Sorted(s) && Distinct(s)
    ensures StrictlySorted(s)
  {
    forall i, j | 0 <= i < j < |s|
      ensures Less(s[i], s[j])
    {
      LessTotal(s[i], s[j]);
    }
  }

  /** Joining two lists without repetitions and without common elements
      repeats nothing. */
  lemma DistinctConcat(a: seq<string>, b: seq<string>)
    requires Distinct(a) && Distinct(b)
    requires forall x :: x in a ==> x !in b
    ensures Distinct(a + b)
  {
    forall i, j | 0 <= i < j < |a + b|
      ensures (a + b)[i] != (a + b)[j]
    {
      if i < |a| && |a| <= j {
        assert (a + b)[i] in a;
        assert (a + b)[j] == b[j - |a|];
      }
    }
  }

  /** A list without repetitions holds each element at most once. */
  lemma {:induction false} DistinctCount(t: seq<string>, x: string)
    requires Distinct(t)
    ensures multiset(t)[x] <= 1
    decreases |t|
  {
    if t != [] {
      var last := t[|t| - 1];
      var init := t[..|t| - 1];
      assert t == init + [last];
      DistinctCount(init, x);
      if last == x {
        assert x !in init;
      }
    }
  }

  /** Rearranging a list without repetitions repeats nothing. */
  lemma DistinctPermutation(s: seq<string>, t: seq<string>)
    requires multiset(s) == multiset(t) && Distinct(t)
    ensures Distinct(s)
  {
    forall i, j | 0 <= i < j < |s|
      ensures s[i] != s[j]
    {
      if s[i] == s[j] {
        var x := s[i];
        assert s == s[..i] + [s[i]] + s[i + 1..j] + [s[j]] + s[j + 1..];
        assert multiset(s)[x] >= 2;
        DistinctCount(t, x);
      }
    }
  }

  /** A sorted rearrangement of a list without repetitions is strictly
      sorted and has the same elements. */
  lemma SortedPermutation(s: seq<string>, t: seq<string>)
    requires Sorted(s) && multiset(s) == multiset(t) && Distinct(t)
    ensures StrictlySorted(s)
    ensures forall x :: x in s <==> x in t
  {
    DistinctPermutation(s, t);
    SortedDistinct(s);
    forall x
      ensures x in s <==> x in t
    {
      assert x in s <==> x in multiset(s);
      assert x in t <==> x in multiset(t);
    }
  }
}
