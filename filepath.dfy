/** `path/filepath.Split` on a Unix system: the separator is '/', there is no volume name. */
module FilePath {

  const Separator: char := '/'

  /** Splits `path` immediately after its last separator into a directory part,
      which is empty or ends in a separator, and a file part without separators. */
  function Split(path: string): (r: (string, string))
    ensures r.0 + r.1 == path
    ensures Separator !in r.1
    ensures r.0 == [] || r.0[|r.0| - 1] == Separator
    decreases |path|
  {
    if path == [] then ([], [])
    else if path[|path| - 1] == Separator then (path, [])
    else
      var (dir, file) := Split(path[..|path| - 1]);
      (dir, file + [path[|path| - 1]])
  }

  /** The three properties of `Split` determine its result. */
  lemma {:induction false} SplitUnique(path: string, dir: string, file: string)
    requires dir + file == path
    requires Separator !in file
    requires dir == [] || dir[|dir| - 1] == Separator
    ensures Split(path) == (dir, file)
    decreases |file|
  {
    if file != [] {
      var init := path[..|path| - 1];
      assert init == dir + file[..|file| - 1];
      assert path[|path| - 1] == file[|file| - 1];
      SplitUnique(init, dir, file[..|file| - 1]);
      assert file[..|file| - 1] + [path[|path| - 1]] == file;
    } else {
      assert path == dir;
    }
  }

  /** Appending text without separators extends the file part and leaves the directory part. */
  lemma SplitAppend(path: string, tail: string)
    requires Separator !in tail
    ensures Split(path + tail) == (Split(path).0, Split(path).1 + tail)
  {
    var (dir, file) := Split(path);
    assert dir + (file + tail) == path + tail;
    SplitUnique(path + tail, dir, file + tail);
  }
}
