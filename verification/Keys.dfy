/** Encryption key files and who may use them (internal/pulsarlib/keys.go). */
module Keys {
  import opened Text

  /** A file's place in the file system: the components of its cleaned absolute path. */
  type Path = seq<string>

  /** A key directory: the path that was configured, and the readable files with their contents. */
  datatype Directory = Directory(root: Path, files: map<Path, string>)

  datatype KeyInfo = KeyInfo(name: string, key: string)

  datatype KeyError = NoActiveName | Unreadable(name: string)

  datatype Loaded<T> = Ok(value: T) | Err(error: KeyError)

  // --- Where a key name leads -------------------------------------------------------------------

  /** filepath.Clean below the root: no empty and no "." components, ".." takes the one before it away. */
  function Clean(parts: seq<string>): Path {
    if parts == [] then []
    else
      var front, last := Clean(parts[..|parts| - 1]), parts[|parts| - 1];
      if last == "" || last == "." then front
      else if last == ".." then (if front == [] then [] else front[..|front| - 1])
      else front + [last]
  }

  /** filepath.Join(dir, name + suffix). */
  function FileOf(root: Path, name: string, suffix: string): Path {
    Clean(root + Split(name + suffix, '/'))
  }

  function PublicFile(root: Path, name: string): Path {
    FileOf(root, name, ".pub.pem")
  }

  function PrivateFile(root: Path, name: string): Path {
    FileOf(root, name, ".priv.pem")
  }

  /** The directory a name leads to and what it is called there. */
  function Place(root: Path, name: string): (Path, string) {
    var parts := Split(name, '/');
    (Clean(root + parts[..|parts| - 1]), parts[|parts| - 1])
  }

  /** Two names are the same key to the file system. */
  predicate SameFile(root: Path, a: string, b: string) {
    Place(root, a) == Place(root, b)
  }

  lemma FileAtPlace(root: Path, name: string, suffix: string)
    requires '/' !in suffix && |suffix| > 2
    ensures FileOf(root, name, suffix) == Place(root, name).0 + [Place(root, name).1 + suffix]
  {
    SplitAppend(name, suffix, '/');
    var parts := Split(name, '/');
    var front, last := parts[..|parts| - 1], parts[|parts| - 1] + suffix;
    assert root + (front + [last]) == (root + front) + [last];
    assert |last| > 2;
  }

  /** Two names lead to one public key file, and to one private key file, exactly when their places are the same. */
  lemma FilesShared(root: Path, a: string, b: string)
    ensures PublicFile(root, a) == PublicFile(root, b) <==> SameFile(root, a, b)
    ensures PrivateFile(root, a) == PrivateFile(root, b) <==> SameFile(root, a, b)
    ensures PublicFile(root, a) != PrivateFile(root, b)
  {
    FileAtPlace(root, a, ".pub.pem");
    FileAtPlace(root, b, ".pub.pem");
    FileAtPlace(root, a, ".priv.pem");
    FileAtPlace(root, b, ".priv.pem");
    var (pathA, stemA) := Place(root, a);
    var (pathB, stemB) := Place(root, b);
    SameEnd(pathA, stemA + ".pub.pem", pathB, stemB + ".pub.pem");
    SameEnd(pathA, stemA + ".priv.pem", pathB, stemB + ".priv.pem");
    SameEnd(pathA, stemA + ".pub.pem", pathB, stemB + ".priv.pem");
    SameStem(stemA, stemB, ".pub.pem");
    SameStem(stemA, stemB, ".priv.pem");
    assert (stemA + ".pub.pem")[|stemA|] == '.';
    assert (stemB + ".priv.pem")[|stemB| + 1] == 'p';
  }

  lemma SameEnd(p: Path, x: string, q: Path, y: string)
    ensures p + [x] == q + [y] <==> p == q && x == y
  {
    if p + [x] == q + [y] {
      assert (p + [x])[..|p|] == (q + [y])[..|q|];
      assert (p + [x])[|p|] == (q + [y])[|q|];
    }
  }

  lemma SameStem(a: string, b: string, suffix: string)
    ensures a + suffix == b + suffix <==> a == b
  {
    if a + suffix == b + suffix {
      assert (a + suffix)[..|a|] == (b + suffix)[..|b|];
    }
  }

  /** A name that is no path. */
  predicate IsPlain(name: string) {
    '/' !in name
  }

  /** Different plain names never share a key file. */
  lemma PlainNamesSeparate(root: Path, a: string, b: string)
    requires IsPlain(a) && IsPlain(b)
    ensures SameFile(root, a, b) <==> a == b
  {
    SplitFree(a, '/');
    SplitFree(b, '/');
  }

  /** A name that is a path can: a leading slash or "./" changes nothing. */
  lemma PathsCanShare(root: Path, name: string)
    requires IsPlain(name)
    ensures SameFile(root, name, "./" + name) && SameFile(root, name, "/" + name)
    ensures "./" + name != name && "/" + name != name
  {
    SplitFree(name, '/');
    SplitAtSeparator(".", name, '/');
    SplitAtSeparator("", name, '/');
    assert "." + ['/'] + name == "./" + name && "" + ['/'] + name == "/" + name;
    assert root + [] == root;
    assert (root + ["."])[..|root|] == root && (root + [""])[..|root|] == root;
    assert |"./" + name| > |name| && |"/" + name| > |name|;
  }

  // --- Reading keys -----------------------------------------------------------------------------------

  function ReadKey(dir: Directory, name: string, file: Path): Loaded<KeyInfo> {
    if file in dir.files then Ok(KeyInfo(name, dir.files[file])) else Err(Unreadable(name))
  }

  /** fileKeyReader.PublicKey: the file is looked up by name at each use. */
  function PublicKey(dir: Directory, name: string): Loaded<KeyInfo> {
    ReadKey(dir, name, PublicFile(dir.root, name))
  }

  function PrivateKey(dir: Directory, name: string): Loaded<KeyInfo> {
    ReadKey(dir, name, PrivateFile(dir.root, name))
  }

  /** The gate passes exactly when every active name has its public key. */
  predicate Loads(dir: Directory, names: seq<string>) {
    names != [] && forall i | 0 <= i < |names| :: PublicKey(dir, names[i]).Ok?
  }

  /** The writer's start-up gate: it names the first unreadable key, or that there is no name. */
  method LoadKeySet(dir: Directory, activeNames: seq<string>) returns (r: Loaded<seq<string>>)
    ensures r.Ok? <==> Loads(dir, activeNames)
    ensures r.Ok? ==> r.value == activeNames
    ensures r == Err(NoActiveName) <==> activeNames == []
    ensures r.Err? && activeNames != [] ==>
      exists i | 0 <= i < |activeNames| ::
        && r.error == Unreadable(activeNames[i]) && PublicKey(dir, activeNames[i]).Err?
        && forall k | 0 <= k < i :: PublicKey(dir, activeNames[k]).Ok?
  {
    if |activeNames| == 0 {
      return Err(NoActiveName);
    }
    for i := 0 to |activeNames|
      invariant forall k | 0 <= k < i :: PublicKey(dir, activeNames[k]).Ok?
    {
      var name := activeNames[i];
      if FileOf(dir.root, name, ".pub.pem") !in dir.files {
        assert PublicKey(dir, activeNames[i]).Err?;
        return Err(Unreadable(name));
      }
    }
    r := Ok(activeNames);
  }
}
