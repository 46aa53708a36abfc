/** The credential store: `ensure_dirs`, `generate_key`, `get_cipher`,
    `save_data` and `load_data` over an abstract file system.

    The file system is a map from file paths to their bytes and a set of
    directories. Each operation is given twice: as a function from the disk
    before to its result and the disk after (`...Step`), about which the
    lemmas below are proved, and as a method of `CredentialStore` that changes
    the disk step by step as the Python does and is proved to agree with the
    function. Randomness is a parameter: `newKey` is the key
    `Fernet.generate_key()` would produce, `iv` the IV and timestamp
    material of one encryption. */
module Credentials {
  import opened Text
  import opened Paths
  import opened Crypto

  datatype Disk = Disk(files: map<Path, Bytes>, dirs: set<Path>)

  /** The exceptions `save_data` lets escape: `open(..., "wb")` in a directory
      that does not exist, and a key file the cipher constructor refuses. */
  datatype StoreError = MissingDirectory | MalformedKey

  datatype Result<+T> = Ok(value: T) | Err(error: StoreError)

  /** `open(p, "wb")` can create or truncate `p`: its directory exists. */
  predicate CanCreate(d: Disk, p: Path) {
    |p| > 0 && Parent(p) in d.dirs
  }

  /** Every file lies in an existing directory, as on a real file system. */
  predicate WellFormed(d: Disk) {
    forall p | p in d.files :: CanCreate(d, p)
  }

  /** `ensure_dirs`: the layout directories are added to those present. */
  function EnsureDirsStep(d: Disk, base: Path): (r: Disk)
    ensures r.files == d.files
    ensures forall p :: p in r.dirs <==> p in d.dirs || InLayout(base, p)
  {
    forall p ensures p in LayoutDirs(base) <==> InLayout(base, p) {
      LayoutDirsExactly(base, p);
    }
    d.(dirs := d.dirs + LayoutDirs(base))
  }

  /** What a key lookup returns together with the disk after it. */
  datatype KeyStep = KeyStep(key: Result<Bytes>, disk: Disk)

  /** `generate_key`: an existing key file is returned unchanged; a missing
      one is created holding `newKey`, which is returned; creating it fails
      when its directory is missing. On success the key file holds the key
      returned, and no other file changes. */
  function GenerateKeyStep(d: Disk, keyFile: Path, newKey: Bytes): (r: KeyStep)
    ensures r.disk.dirs == d.dirs
    ensures r.disk.files == if r.key.Ok? then d.files[keyFile := r.key.value] else d.files
    ensures keyFile in d.files ==> r.key == Ok(d.files[keyFile]) && r.disk == d
    ensures keyFile !in d.files && CanCreate(d, keyFile) ==> r.key == Ok(newKey)
    ensures r.key.Err? <==> keyFile !in d.files && !CanCreate(d, keyFile)
    ensures r.key.Err? ==> r.key.error == MissingDirectory
  {
    if keyFile in d.files then KeyStep(Ok(d.files[keyFile]), d)
    else if CanCreate(d, keyFile) then KeyStep(Ok(newKey), d.(files := d.files[keyFile := newKey]))
    else KeyStep(Err(MissingDirectory), d)
  }

  /** `get_cipher`: the key of `generate_key` when the cipher accepts it,
      `MalformedKey` when it does not, and the failure of `generate_key`
      unchanged; the disk is the one `generate_key` leaves. */
  function GetCipherStep(d: Disk, keyFile: Path, c: Cipher, newKey: Bytes): (r: KeyStep)
    ensures r.disk == GenerateKeyStep(d, keyFile, newKey).disk
    ensures r.key.Ok? ==> c.validKey(r.key.value) && r.key == GenerateKeyStep(d, keyFile, newKey).key
    ensures GenerateKeyStep(d, keyFile, newKey).key.Ok? && r.key.Err? ==> r.key.error == MalformedKey
    ensures var g := GenerateKeyStep(d, keyFile, newKey);
      g.key.Ok? && c.validKey(g.key.value) ==> r.key == g.key
    ensures var g := GenerateKeyStep(d, keyFile, newKey);
      g.key.Err? ==> r.key == g.key
  {
    var g := GenerateKeyStep(d, keyFile, newKey);
    if g.key.Ok? && !c.validKey(g.key.value) then KeyStep(Err(MalformedKey), g.disk) else g
  }

  datatype SaveOutcome = SaveOutcome(result: Result<()>, disk: Disk)

  /** `save_data`: ensure the layout, get the entry's key (creating the key
      file if missing), encrypt the stripped text and overwrite the
      ciphertext file. The layout directories are added; on success the
      ciphertext file holds an encryption of the stripped text under the key
      the key file then holds; an existing key file keeps its bytes; on
      failure the ciphertext file is untouched; and no file other than the
      entry's two changes. */
  function SaveStep(d: Disk, base: Path, data: string, category: string, provider: string,
                    c: Cipher, newKey: Bytes, iv: Bytes): (s: SaveOutcome)
    ensures var e := GetPaths(base, category, provider);
      && s.disk.dirs == d.dirs + LayoutDirs(base)
      && s.disk.files - {e.tokenFile, e.keyFile} == d.files - {e.tokenFile, e.keyFile}
      && (e.keyFile in d.files ==> e.keyFile in s.disk.files && s.disk.files[e.keyFile] == d.files[e.keyFile])
      && (s.result.Ok? ==>
            && e.keyFile in s.disk.files && e.tokenFile in s.disk.files
            && s.disk.files[e.tokenFile] == c.encrypt(s.disk.files[e.keyFile], iv, Strip(data)))
      && (s.result.Err? ==>
            && (e.tokenFile in s.disk.files <==> e.tokenFile in d.files)
            && (e.tokenFile in d.files ==> s.disk.files[e.tokenFile] == d.files[e.tokenFile]))
  {
    var d1 := EnsureDirsStep(d, base);
    var paths := GetPaths(base, category, provider);
    var cipher := GetCipherStep(d1, paths.keyFile, c, newKey);
    if cipher.key.Err? then SaveOutcome(Err(cipher.key.error), cipher.disk)
    else if !CanCreate(cipher.disk, paths.tokenFile) then SaveOutcome(Err(MissingDirectory), cipher.disk)
    else
      var encrypted := c.encrypt(cipher.key.value, iv, Strip(data));
      SaveOutcome(Ok(()), cipher.disk.(files := cipher.disk.files[paths.tokenFile := encrypted]))
  }

  datatype LoadOutcome = LoadOutcome(text: string, disk: Disk)

  /** The text a ciphertext decrypts to, or "" when decryption fails. */
  function Decrypted(c: Cipher, key: Bytes, token: Bytes): string {
    match c.decrypt(key, token)
    case None => ""
    case Some(text) => text
  }

  /** `load_data`: ensure the layout; "" when the ciphertext file is absent;
      otherwise get the entry's key (creating the key file if missing) and
      decrypt, with every failure on the way giving "". The layout
      directories are added, and the only file it may write is the entry's
      key file, which it creates with the fresh key when the ciphertext file
      exists and the key file does not (for the two layout categories, whose
      key directory `ensure_dirs` provides). Whatever the cipher, the text is
      "" unless the ciphertext file exists, the cipher accepts the key and
      decryption succeeds. */
  function LoadStep(d: Disk, base: Path, category: string, provider: string,
                    c: Cipher, newKey: Bytes): (l: LoadOutcome)
    ensures var e := GetPaths(base, category, provider);
      && l.disk.dirs == d.dirs + LayoutDirs(base)
      && (l.disk.files == d.files
          || (e.tokenFile in d.files && e.keyFile !in d.files && l.disk.files == d.files[e.keyFile := newKey]))
    ensures var e := GetPaths(base, category, provider);
      (category in Categories && e.tokenFile in d.files && e.keyFile !in d.files
       ==> l.disk.files == d.files[e.keyFile := newKey])
    ensures var e := GetPaths(base, category, provider);
      var g := GetCipherStep(EnsureDirsStep(d, base), e.keyFile, c, newKey);
      e.tokenFile !in d.files || g.key.Err? ==> l.text == ""
    ensures var e := GetPaths(base, category, provider);
      var g := GetCipherStep(EnsureDirsStep(d, base), e.keyFile, c, newKey);
      e.tokenFile in d.files && g.key.Ok? ==>
        && (c.decrypt(g.key.value, d.files[e.tokenFile]) == None ==> l.text == "")
        && (c.decrypt(g.key.value, d.files[e.tokenFile]).Some? ==> l.text == c.decrypt(g.key.value, d.files[e.tokenFile]).value)
  {
    var d1 := EnsureDirsStep(d, base);
    var paths := GetPaths(base, category, provider);
    assert category in Categories ==> CanCreate(d1, paths.keyFile) by {
      if category in Categories {
        EntryFilesInLayout(base, category, provider);
      }
    }
    if paths.tokenFile !in d1.files then LoadOutcome("", d1)
    else
      var cipher := GetCipherStep(d1, paths.keyFile, c, newKey);
      if cipher.key.Err? then LoadOutcome("", cipher.disk)
      else LoadOutcome(Decrypted(c, cipher.key.value, cipher.disk.files[paths.tokenFile]), cipher.disk)
  }

  /** For the two layout categories `save_data` fails only on a key file the
      cipher refuses; a missing key file is created with the fresh key. */
  lemma SaveSucceedsIff(d: Disk, base: Path, data: string, category: string, provider: string,
                        c: Cipher, newKey: Bytes, iv: Bytes)
    requires category in Categories
    requires c.validKey(newKey)
    ensures var e := GetPaths(base, category, provider);
      (SaveStep(d, base, data, category, provider, c, newKey, iv).result.Ok?
       <==> e.keyFile !in d.files || c.validKey(d.files[e.keyFile]))
  {
    EntryFilesInLayout(base, category, provider);
  }

  /** Saving one entry leaves the files of every other entry as they were:
      entries differ when their categories differ or their providers differ
      other than in case. */
  lemma SaveLeavesOtherEntries(d: Disk, base: Path, data: string, category: string, provider: string,
                               c: Cipher, newKey: Bytes, iv: Bytes,
                               otherCategory: string, otherProvider: string)
    requires otherCategory != category || Lower(otherProvider) != Lower(provider)
    ensures var s := SaveStep(d, base, data, category, provider, c, newKey, iv);
      var o := GetPaths(base, otherCategory, otherProvider);
      && (o.tokenFile in s.disk.files <==> o.tokenFile in d.files)
      && (o.tokenFile in d.files ==> s.disk.files[o.tokenFile] == d.files[o.tokenFile])
      && (o.keyFile in s.disk.files <==> o.keyFile in d.files)
      && (o.keyFile in d.files ==> s.disk.files[o.keyFile] == d.files[o.keyFile])
  {
    var e := GetPaths(base, category, provider);
    var o := GetPaths(base, otherCategory, otherProvider);
    var s := SaveStep(d, base, data, category, provider, c, newKey, iv);
    GetPathsInjective(base, category, provider, otherCategory, otherProvider);
    TokenFileNeverKeyFile(base, category, provider, otherCategory, otherProvider);
    TokenFileNeverKeyFile(base, otherCategory, otherProvider, category, provider);
    var rest := {e.tokenFile, e.keyFile};
    assert o.tokenFile !in rest && o.keyFile !in rest;
    assert o.tokenFile in s.disk.files <==> o.tokenFile in s.disk.files - rest;
    assert o.tokenFile in d.files <==> o.tokenFile in d.files - rest;
    assert o.keyFile in s.disk.files <==> o.keyFile in s.disk.files - rest;
    assert o.keyFile in d.files <==> o.keyFile in d.files - rest;
    if o.tokenFile in d.files {
      assert (d.files - rest)[o.tokenFile] == d.files[o.tokenFile];
      assert (s.disk.files - rest)[o.tokenFile] == s.disk.files[o.tokenFile];
    }
    if o.keyFile in d.files {
      assert (d.files - rest)[o.keyFile] == d.files[o.keyFile];
      assert (s.disk.files - rest)[o.keyFile] == s.disk.files[o.keyFile];
    }
  }

  /** Round trip: once `save_data` has succeeded, `load_data` on the same
      entry returns the stripped text and leaves the disk as it is (the key
      file exists, so no key is generated). Any entry naming the same files,
      such as the same provider in another case, loads the same text. */
  lemma SaveThenLoad(d: Disk, base: Path, data: string, category: string, provider: string,
                     c: Cipher, newKey: Bytes, iv: Bytes, loadProvider: string, loadKey: Bytes)
    requires RoundTrip(c)
    requires Lower(loadProvider) == Lower(provider)
    requires SaveStep(d, base, data, category, provider, c, newKey, iv).result.Ok?
    ensures var s := SaveStep(d, base, data, category, provider, c, newKey, iv);
      LoadStep(s.disk, base, category, loadProvider, c, loadKey) == LoadOutcome(Strip(data), s.disk)
  {
    var s := SaveStep(d, base, data, category, provider, c, newKey, iv);
    var e := GetPaths(base, category, provider);
    GetPathsIgnoresCase(base, category, provider);
    GetPathsIgnoresCase(base, category, loadProvider);
    assert GetPaths(base, category, loadProvider) == e;
    assert EnsureDirsStep(s.disk, base) == s.disk;
    var key := s.disk.files[e.keyFile];
    assert c.validKey(key);
    assert c.decrypt(key, c.encrypt(key, iv, Strip(data))) == Some(Strip(data));
  }

  /** Not found is empty: without a ciphertext file `load_data` returns ""
      and creates no file. */
  lemma LoadNotFound(d: Disk, base: Path, category: string, provider: string, c: Cipher, newKey: Bytes)
    requires GetPaths(base, category, provider).tokenFile !in d.files
    ensures LoadStep(d, base, category, provider, c, newKey) == LoadOutcome("", EnsureDirsStep(d, base))
  {
  }

  /** A deleted key file strands the ciphertext: `load_data` creates a fresh
      key file and returns "", because the ciphertext was made under another
      key. */
  lemma LoadWithoutKeyStrands(d: Disk, base: Path, category: string, provider: string,
                              c: Cipher, newKey: Bytes, oldKey: Bytes, iv: Bytes, text: string)
    requires WrongKeyFails(c)
    requires category in Categories
    requires c.validKey(newKey) && newKey != oldKey
    requires var e := GetPaths(base, category, provider);
      && e.keyFile !in d.files
      && e.tokenFile in d.files && d.files[e.tokenFile] == c.encrypt(oldKey, iv, text)
    ensures var e := GetPaths(base, category, provider);
      LoadStep(d, base, category, provider, c, newKey)
        == LoadOutcome("", EnsureDirsStep(d, base).(files := d.files[e.keyFile := newKey]))
  {
    var e := GetPaths(base, category, provider);
    EntryFilesInLayout(base, category, provider);
    assert c.decrypt(newKey, c.encrypt(oldKey, iv, text)) == None;
  }

  /** Tamper detection: a non-empty text from `load_data` is one the
      ciphertext file holds an encryption of, under the key the key file then
      holds. A ciphertext no encryption under that key produced loads as "". */
  lemma LoadOnlyAuthentic(d: Disk, base: Path, category: string, provider: string, c: Cipher, newKey: Bytes)
    requires Integrity(c)
    ensures var l := LoadStep(d, base, category, provider, c, newKey);
      var e := GetPaths(base, category, provider);
      l.text != "" ==>
        && e.tokenFile in d.files && e.keyFile in l.disk.files
        && exists iv :: d.files[e.tokenFile] == c.encrypt(l.disk.files[e.keyFile], iv, l.text)
  {
    var l := LoadStep(d, base, category, provider, c, newKey);
    var e := GetPaths(base, category, provider);
    if l.text != "" {
      var key := l.disk.files[e.keyFile];
      var token := d.files[e.tokenFile];
      assert c.decrypt(key, token) == Some(l.text);
    }
  }

  /** Saving and loading keep every file inside an existing directory. */
  lemma StepsPreserveWellFormed(d: Disk, base: Path, data: string, category: string, provider: string,
                                c: Cipher, newKey: Bytes, iv: Bytes)
    requires WellFormed(d)
    ensures WellFormed(SaveStep(d, base, data, category, provider, c, newKey, iv).disk)
    ensures WellFormed(LoadStep(d, base, category, provider, c, newKey).disk)
  {
  }

  /** The store's state: its base directory and the disk under it. */
  class CredentialStore {
    const base: Path
    var files: map<Path, Bytes>
    var dirs: set<Path>

    function State(): Disk
      reads this
    {
      Disk(files, dirs)
    }

    /** `BASE_DIR` is fixed from the working directory when the module loads. */
    constructor (cwd: Path, disk: Disk)
      ensures base == BaseDir(cwd) && State() == disk
    {
      base := BaseDir(cwd);
      files := disk.files;
      dirs := disk.dirs;
    }

    /** `os.makedirs(p, exist_ok=True)`: `p` and every directory above it exist. */
    method MakeDirs(p: Path)
      modifies this
      ensures dirs == old(dirs) + Prefixes(p) && files == old(files)
    {
      dirs := dirs + Prefixes(p);
    }

    /** `open(p, "wb").write(contents)`: creates or overwrites `p` when its
      directory exists, and fails otherwise. */
    method WriteFile(p: Path, contents: Bytes) returns (ok: bool)
      modifies this
      ensures ok == CanCreate(old(State()), p)
      ensures dirs == old(dirs)
      ensures files == if ok then old(files)[p := contents] else old(files)
    {
      ok := |p| > 0 && Parent(p) in dirs;
      if ok {
        files := files[p := contents];
      }
    }

    /** `ensure_dirs`: `makedirs` on each category and area, in loop order. */
    method EnsureDirs()
      modifies this
      ensures State() == EnsureDirsStep(old(State()), base)
      ensures old(LayoutDirs(base) <= dirs) ==> State() == old(State())
    {
      ghost var leaves := LayoutLeaves(base);
      for i := 0 to |Categories|
        invariant files == old(files)
        invariant dirs == old(dirs) + Ancestry(leaves[..|Areas| * i])
      {
        for j := 0 to |Areas|
          invariant files == old(files)
          invariant dirs == old(dirs) + Ancestry(leaves[..|Areas| * i + j])
        {
          ghost var n := |Areas| * i + j;
          assert leaves[n] == base + [Categories[i], Areas[j]];
          assert leaves[..n + 1][..n] == leaves[..n];
          MakeDirs(base + [Categories[i], Areas[j]]);
        }
      }
      assert leaves[..|Areas| * |Categories|] == leaves;
    }

    /** `generate_key`: write `newKey` to the key file if it is absent, then
        read the key file back. */
    method GenerateKey(keyFile: Path, newKey: Bytes) returns (key: Result<Bytes>)
      modifies this
      ensures KeyStep(key, State()) == GenerateKeyStep(old(State()), keyFile, newKey)
    {
      if keyFile !in files {
        var ok := WriteFile(keyFile, newKey);
        if !ok {
          return Err(MissingDirectory);
        }
      }
      key := Ok(files[keyFile]);
    }

    /** `get_cipher`: the key of `generate_key`, if the cipher accepts it. */
    method GetCipher(keyFile: Path, c: Cipher, newKey: Bytes) returns (key: Result<Bytes>)
      modifies this
      ensures KeyStep(key, State()) == GetCipherStep(old(State()), keyFile, c, newKey)
    {
      key := GenerateKey(keyFile, newKey);
      if key.Ok? && !c.validKey(key.value) {
        key := Err(MalformedKey);
      }
    }

    /** `save_data`. */
    method SaveData(data: string, category: string, provider: string,
                    c: Cipher, newKey: Bytes, iv: Bytes) returns (result: Result<()>)
      modifies this
      ensures SaveOutcome(result, State()) == SaveStep(old(State()), base, data, category, provider, c, newKey, iv)
    {
      EnsureDirs();
      var paths := GetPaths(base, category, provider);
      var key := GetCipher(paths.keyFile, c, newKey);
      if key.Err? {
        return Err(key.error);
      }
      var encrypted := c.encrypt(key.value, iv, Strip(data));
      var ok := WriteFile(paths.tokenFile, encrypted);
      result := if ok then Ok(()) else Err(MissingDirectory);
    }

    /** `load_data`. */
    method LoadData(category: string, provider: string, c: Cipher, newKey: Bytes) returns (text: string)
      modifies this
      ensures LoadOutcome(text, State()) == LoadStep(old(State()), base, category, provider, c, newKey)
    {
      EnsureDirs();
      var paths := GetPaths(base, category, provider);
      if paths.tokenFile !in files {
        return "";
      }
      var key := GetCipher(paths.keyFile, c, newKey);
      if key.Err? {
        return "";
      }
      var encrypted := files[paths.tokenFile];
      text := Decrypted(c, key.value, encrypted);
    }
  }
}
