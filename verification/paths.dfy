/** Where the credential store keeps its files: the file names `get_paths`
    derives for an entry and the directory tree `ensure_dirs` creates.

    A path is the sequence of its segments, so joining is concatenation and
    the root of the file system is `[]`. The store's base directory is the
    working directory extended by `.sequential`. */
module Paths {
  import opened Text

  type Path = seq<string>

  /** Name of the store's base directory inside the working directory. */
  const StoreDirName := ".sequential"

  /** The two categories the layout provides for, in the order `ensure_dirs` visits them. */
  const Categories: seq<string> := ["tokens", "apis"]

  /** The two areas of a category: ciphertext files and key files. */
  const CipherArea := "encrypted"
  const KeyArea := "key"
  const Areas: seq<string> := [CipherArea, KeyArea]

  /** `BASE_DIR`: the store's base directory for a given working directory. */
  function BaseDir(cwd: Path): (base: Path)
    ensures |base| == |cwd| + 1 && base[..|cwd|] == cwd
    ensures base[|cwd|] == StoreDirName
  {
    cwd + [StoreDirName]
  }

  /** The directory a file path lies in. */
  function Parent(p: Path): Path
    requires |p| > 0
  {
    p[..|p| - 1]
  }

  /** File extension of ciphertext files: ".token" in the "tokens" category
      and ".api" in every other category. */
  function Ext(category: string): (ext: string)
    ensures ext == ".token" || ext == ".api"
    ensures ext == ".token" <==> category == "tokens"
  {
    if category == "tokens" then ".token" else ".api"
  }

  /** The two files of one entry. */
  datatype EntryPaths = EntryPaths(tokenFile: Path, keyFile: Path)

  /** `get_paths`: the ciphertext file lies in `base/category/encrypted` and
      is named `.` + the lower-cased provider + the category's extension; the
      key file lies in `base/category/key` and is named `.` + the lower-cased
      provider + `.key`. The two are never the same file. */
  function GetPaths(base: Path, category: string, provider: string): (r: EntryPaths)
    ensures |r.tokenFile| == |r.keyFile| == |base| + 3
    ensures Parent(r.tokenFile) == base + [category, CipherArea]
    ensures Parent(r.keyFile) == base + [category, KeyArea]
    ensures r.tokenFile[|base| + 2] == "." + Lower(provider) + Ext(category)
    ensures r.keyFile[|base| + 2] == "." + Lower(provider) + ".key"
    ensures r.tokenFile != r.keyFile
  {
    var encDir := base + [category, CipherArea];
    var keyDir := base + [category, KeyArea];
    var tokenFile := encDir + ["." + Lower(provider) + Ext(category)];
    var keyFile := keyDir + ["." + Lower(provider) + ".key"];
    assert tokenFile[|base| + 1] != keyFile[|base| + 1];
    EntryPaths(tokenFile, keyFile)
  }

  /** Case of the provider label does not matter: both files of `provider`
      are those of its lower-cased form. */
  lemma GetPathsIgnoresCase(base: Path, category: string, provider: string)
    ensures GetPaths(base, category, provider) == GetPaths(base, category, Lower(provider))
  {
    LowerIdempotent(provider);
  }

  /** A file name `.` + `a` + `ext` determines `a` once `ext` is known. */
  lemma DottedNameInjective(a: string, b: string, ext: string)
    requires "." + a + ext == "." + b + ext
    ensures a == b
  {
    var n := "." + a + ext;
    assert |a| == |b|;
    assert a == n[1..1 + |a|];
    assert b == n[1..1 + |b|];
  }

  /** Two entries share a ciphertext file exactly when they have the same
      category and their providers agree up to case; the same holds for key
      files. */
  lemma GetPathsInjective(base: Path, c1: string, p1: string, c2: string, p2: string)
    ensures GetPaths(base, c1, p1).tokenFile == GetPaths(base, c2, p2).tokenFile
        <==> c1 == c2 && Lower(p1) == Lower(p2)
    ensures GetPaths(base, c1, p1).keyFile == GetPaths(base, c2, p2).keyFile
        <==> c1 == c2 && Lower(p1) == Lower(p2)
  {
    var e1, e2 := GetPaths(base, c1, p1), GetPaths(base, c2, p2);
    if e1.tokenFile == e2.tokenFile {
      assert c1 == e1.tokenFile[|base|] == e2.tokenFile[|base|] == c2;
      DottedNameInjective(Lower(p1), Lower(p2), Ext(c1));
    }
    if e1.keyFile == e2.keyFile {
      assert c1 == e1.keyFile[|base|] == e2.keyFile[|base|] == c2;
      DottedNameInjective(Lower(p1), Lower(p2), ".key");
    }
  }

  /** No entry's ciphertext file is any entry's key file. */
  lemma TokenFileNeverKeyFile(base: Path, c1: string, p1: string, c2: string, p2: string)
    ensures GetPaths(base, c1, p1).tokenFile != GetPaths(base, c2, p2).keyFile
  {
    var e1, e2 := GetPaths(base, c1, p1), GetPaths(base, c2, p2);
    assert e1.tokenFile[|base| + 1] == CipherArea;
    assert e2.keyFile[|base| + 1] == KeyArea;
  }

  /** `p` and the directories above it, down to the first segment:
      what `os.makedirs(p)` makes sure exist. */
  function Prefixes(p: Path): set<Path> {
    set k | 1 <= k <= |p| :: p[..k]
  }

  /** The directories created by `makedirs` on each path of `leaves`. */
  function Ancestry(leaves: seq<Path>): set<Path>
    decreases |leaves|
  {
    if leaves == [] then {} else Ancestry(leaves[..|leaves| - 1]) + Prefixes(leaves[|leaves| - 1])
  }

  /** The four directories `ensure_dirs` asks for, in the order of its loops. */
  function LayoutLeaves(base: Path): seq<Path> {
    [ base + [Categories[0], Areas[0]], base + [Categories[0], Areas[1]],
      base + [Categories[1], Areas[0]], base + [Categories[1], Areas[1]] ]
  }

  /** Every directory that exists once `ensure_dirs` has run. */
  function LayoutDirs(base: Path): set<Path> {
    Ancestry(LayoutLeaves(base))
  }

  /** Reference description of the layout: the base directory and the
      directories above it, each category directory, and each area directory
      of each category. */
  predicate InLayout(base: Path, p: Path) {
    || (0 < |p| <= |base| && p == base[..|p|])
    || (|p| == |base| + 1 && p[..|base|] == base && p[|base|] in Categories)
    || (|p| == |base| + 2 && p[..|base|] == base && p[|base|] in Categories && p[|base| + 1] in Areas)
  }

  /** The directories `makedirs(base/c/a)` ensures: the directories above
      `base`, `base` itself, `base/c` and `base/c/a`. */
  lemma PrefixesOfLeaf(base: Path, c: string, a: string, q: Path)
    ensures q in Prefixes(base + [c, a]) <==>
      (0 < |q| <= |base| && q == base[..|q|]) || q == base + [c] || q == base + [c, a]
  {
    var leaf := base + [c, a];
    if 0 < |q| <= |base| && q == base[..|q|] {
      assert leaf[..|q|] == q;
    }
    if q == base + [c] {
      assert leaf[..|base| + 1] == q;
    }
    if q == leaf {
      assert leaf[..|leaf|] == q;
    }
    if q in Prefixes(leaf) {
      var k :| 1 <= k <= |leaf| && q == leaf[..k];
      if k <= |base| {
        assert leaf[..k] == base[..k];
      } else if k == |base| + 1 {
        assert leaf[..k] == base + [c];
      } else {
        assert leaf[..k] == leaf;
      }
    }
  }

  /** The four leaves' prefix sets make up the layout. */
  lemma LayoutDirsUnfold(base: Path)
    ensures var l := LayoutLeaves(base);
      LayoutDirs(base) == Prefixes(l[0]) + Prefixes(l[1]) + Prefixes(l[2]) + Prefixes(l[3])
  {
    var l := LayoutLeaves(base);
    assert l[..3][..2] == l[..2] && l[..2][..1] == l[..1] && l[..1][..0] == [];
    assert Ancestry(l[..1]) == Prefixes(l[0]);
    assert Ancestry(l[..2]) == Ancestry(l[..1]) + Prefixes(l[1]);
    assert Ancestry(l[..3]) == Ancestry(l[..2]) + Prefixes(l[2]);
    assert l[..|l| - 1] == l[..3];
    assert Ancestry(l) == Ancestry(l[..3]) + Prefixes(l[3]);
  }

  /** After `ensure_dirs` exactly the layout's directories are guaranteed:
      both categories with both areas under the base directory, together with
      the directories above them. */
  lemma LayoutDirsExactly(base: Path, p: Path)
    ensures p in LayoutDirs(base) <==> InLayout(base, p)
  {
    LayoutDirsUnfold(base);
    PrefixesOfLeaf(base, "tokens", "encrypted", p);
    PrefixesOfLeaf(base, "tokens", "key", p);
    PrefixesOfLeaf(base, "apis", "encrypted", p);
    PrefixesOfLeaf(base, "apis", "key", p);
    if InLayout(base, p) && |p| == |base| + 1 {
      assert p == base + [p[|base|]];
    } else if InLayout(base, p) && |p| == |base| + 2 {
      assert p == base + [p[|base|], p[|base| + 1]];
    }
  }

  /** For the two layout categories, both files of an entry lie in directories
      the layout provides, and neither file is itself a layout directory. */
  lemma EntryFilesInLayout(base: Path, category: string, provider: string)
    requires category in Categories
    ensures var e := GetPaths(base, category, provider);
      && Parent(e.tokenFile) in LayoutDirs(base) && Parent(e.keyFile) in LayoutDirs(base)
      && e.tokenFile !in LayoutDirs(base) && e.keyFile !in LayoutDirs(base)
  {
    var e := GetPaths(base, category, provider);
    LayoutDirsExactly(base, Parent(e.tokenFile));
    LayoutDirsExactly(base, Parent(e.keyFile));
    LayoutDirsExactly(base, e.tokenFile);
    LayoutDirsExactly(base, e.keyFile);
  }
}
