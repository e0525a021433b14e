/**
 * The per-pull-request file cache (cache.js) over an in-memory store. A path is
 * a sequence of segments, so `cache/<repo>/<pr>/<tag>/<file>` is the sequence
 * ["cache", repo, pr, tag] followed by the file's own segments, and a directory
 * exists when some stored file lies beneath it.
 */
module Cache {
  import opened Config

  type Bytes = seq<bv8>
  type Path = seq<string>
  type Store = map<Path, Bytes>

  /** The decimal digit of `d`. */
  function Digit(d: nat): char
    requires d < 10
  {
    ('0' as int + d) as char
  }

  /**
   * The decimal spelling of a non-negative integer id, which is what
   * `Number.prototype.toString` gives for ids that are safe integers (below 2^53).
   */
  function NatToString(n: nat): (r: string)
    ensures |r| >= 1
    ensures |r| == 1 <==> n < 10
  {
    if n < 10 then [Digit(n)] else NatToString(n / 10) + [Digit(n % 10)]
  }

  /** Distinct ids give distinct directory names. */
  lemma {:induction false} NatToStringInjective(a: nat, b: nat)
    requires NatToString(a) == NatToString(b)
    ensures a == b
  {
    var s := NatToString(a);
    if a >= 10 && b >= 10 {
      assert s[..|s| - 1] == NatToString(a / 10);
      assert NatToString(b)[..|s| - 1] == NatToString(b / 10);
      NatToStringInjective(a / 10, b / 10);
      assert Digit(a % 10) == s[|s| - 1] == Digit(b % 10);
    } else {
      assert Digit(a) == s[0] == Digit(b);
    }
  }

  /** getBranchPath: the directory of one branch tag of one pull request. */
  function BranchPath(repoId: nat, prId: nat, branchTag: string): (p: Path)
    ensures p == PrPath(repoId, prId) + [branchTag]
  {
    [CacheRoot, NatToString(repoId), NatToString(prId), branchTag]
  }

  /** The directory that clearPRCache removes. */
  function PrPath(repoId: nat, prId: nat): (p: Path)
    ensures |p| == 3 && p[0] == CacheRoot
    ensures p[1] == NatToString(repoId) && p[2] == NatToString(prId)
  {
    [CacheRoot, NatToString(repoId), NatToString(prId)]
  }

  /** Distinct (repository, pull request) pairs own distinct directories. */
  lemma PrPathInjective(r1: nat, p1: nat, r2: nat, p2: nat)
    requires PrPath(r1, p1) == PrPath(r2, p2)
    ensures r1 == r2 && p1 == p2
  {
    assert PrPath(r1, p1)[1] == PrPath(r2, p2)[1];
    assert PrPath(r1, p1)[2] == PrPath(r2, p2)[2];
    NatToStringInjective(r1, r2);
    NatToStringInjective(p1, p2);
  }

  /** A directory exists when some stored file lies beneath it. */
  predicate DirExists(m: Store, dir: Path) {
    exists k :: k in m && dir <= k
  }

  /** The store after writing `data` at `path`. */
  function Saved(m: Store, path: Path, data: Bytes): (r: Store)
    ensures path in r && r[path] == data
    ensures forall k :: k != path ==> (k in r <==> k in m)
    ensures forall k :: k != path && k in m ==> r[k] == m[k]
  {
    m[path := data]
  }

  /** The store after removing the whole directory `dir`. */
  function Cleared(m: Store, dir: Path): (r: Store)
    ensures forall k :: k in r <==> k in m && !(dir <= k)
    ensures forall k :: k in r ==> r[k] == m[k]
  {
    map k | k in m && !(dir <= k) :: m[k]
  }

  /** After a save under a branch tag, that branch's directory exists. */
  lemma SaveCreatesBranch(m: Store, repoId: nat, prId: nat, branchTag: string, filePath: Path, data: Bytes)
    ensures DirExists(Saved(m, BranchPath(repoId, prId, branchTag) + filePath, data),
                      BranchPath(repoId, prId, branchTag))
  {
    var key := BranchPath(repoId, prId, branchTag) + filePath;
    assert BranchPath(repoId, prId, branchTag) <= key;
  }

  /** After clearing a pull request, none of its branch directories exists. */
  lemma ClearRemovesEveryBranch(m: Store, repoId: nat, prId: nat, branchTag: string)
    ensures !DirExists(Cleared(m, PrPath(repoId, prId)), BranchPath(repoId, prId, branchTag))
  {
  }

  /** Clearing a directory that holds nothing changes nothing. */
  lemma ClearMissingIsNoop(m: Store, dir: Path)
    requires !DirExists(m, dir)
    ensures Cleared(m, dir) == m
  {
  }

  /** Clearing twice is clearing once. */
  lemma ClearIdempotent(m: Store, dir: Path)
    ensures Cleared(Cleared(m, dir), dir) == Cleared(m, dir)
  {
  }

  /**
   * Clearing one pull request keeps every file of every other pull request,
   * of the same repository or another, with its content.
   */
  lemma ClearKeepsOtherPrs(m: Store, repoId: nat, prId: nat, otherRepo: nat, otherPr: nat, k: Path)
    requires (otherRepo, otherPr) != (repoId, prId)
    requires k in m && PrPath(otherRepo, otherPr) <= k
    ensures k in Cleared(m, PrPath(repoId, prId))
    ensures Cleared(m, PrPath(repoId, prId))[k] == m[k]
  {
    if PrPath(repoId, prId) <= k {
      assert k[..3] == PrPath(repoId, prId) == PrPath(otherRepo, otherPr);
      PrPathInjective(repoId, prId, otherRepo, otherPr);
    }
  }

  /** Two saves of distinct files under one branch tag both keep their content. */
  lemma SavesOfDistinctFilesIndependent(m: Store, repoId: nat, prId: nat, branchTag: string,
                                        f1: Path, d1: Bytes, f2: Path, d2: Bytes)
    requires f1 != f2
    ensures var b := BranchPath(repoId, prId, branchTag);
            var r := Saved(Saved(m, b + f1, d1), b + f2, d2);
            b + f1 in r && r[b + f1] == d1 && b + f2 in r && r[b + f2] == d2
  {
    var b := BranchPath(repoId, prId, branchTag);
    assert (b + f1)[|b|..] == f1 && (b + f2)[|b|..] == f2;
  }

  /** The staging area: every cached file, keyed by its path. */
  class PrCache {
    var files: Store

    constructor ()
      ensures files == map[]
    {
      files := map[];
    }

    /** branchPathExists: the branch tag's directory holds at least one file. */
    function BranchPathExists(repoId: nat, prId: nat, branchTag: string): (r: bool)
      reads this
      ensures r <==> exists k :: k in files && BranchPath(repoId, prId, branchTag) <= k
    {
      DirExists(files, BranchPath(repoId, prId, branchTag))
    }

    /** writeFileCreateDirs: writes (or overwrites) one file; parent directories come with it. */
    method WriteFileCreateDirs(filePath: Path, data: Bytes)
      modifies this
      ensures files == Saved(old(files), filePath, data)
    {
      files := files[filePath := data];
    }

    /** saveFileToPRCache: stores a file under its pull request's branch-tag directory. */
    method SaveFileToPRCache(repoId: nat, prId: nat, branchTag: string, filePath: Path, data: Bytes)
      modifies this
      ensures files == Saved(old(files), BranchPath(repoId, prId, branchTag) + filePath, data)
      ensures BranchPathExists(repoId, prId, branchTag)
    {
      WriteFileCreateDirs([CacheRoot, NatToString(repoId), NatToString(prId), branchTag] + filePath, data);
      SaveCreatesBranch(old(files), repoId, prId, branchTag, filePath, data);
    }

    /** clearPRCache: removes the pull request's whole directory, if there is one. */
    method ClearPRCache(repoId: nat, prId: nat)
      modifies this
      ensures files == Cleared(old(files), PrPath(repoId, prId))
      ensures forall t :: !BranchPathExists(repoId, prId, t)
    {
      files := map k | k in files && !(PrPath(repoId, prId) <= k) :: files[k];
      forall t
        ensures !BranchPathExists(repoId, prId, t)
      {
        ClearRemovesEveryBranch(old(files), repoId, prId, t);
      }
    }
  }
}
