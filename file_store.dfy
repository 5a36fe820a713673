/**
 * The working directory as the GUI sees it: a finite map from a path to the
 * lines of that file. `Path::exists`, `OpenOptions::new().create(true).append(true)`
 * and `writeln!` are the only operations the GUI performs on it.
 */
module FileStore {

  type Files = map<string, seq<string>>

  /** The files after appending `lines` to `path`, creating it empty first when absent. */
  function AppendLines(files: Files, path: string, lines: seq<string>): (r: Files)
    ensures r.Keys == files.Keys + {path}
    ensures path in files ==> r[path] == files[path] + lines
    ensures path !in files ==> r[path] == lines
    ensures forall p :: p in files && p != path ==> r[p] == files[p]
  {
    files[path := (if path in files then files[path] else []) + lines]
  }

  /** Two appends to the same file are one append of both runs of lines. */
  lemma AppendLinesTwice(files: Files, path: string, first: seq<string>, second: seq<string>)
    ensures AppendLines(AppendLines(files, path, first), path, second) == AppendLines(files, path, first + second)
  {
    var existing := if path in files then files[path] else [];
    assert (existing + first) + second == existing + (first + second);
  }

  class FileSystem {
    var files: Files

    constructor (files: Files)
      ensures this.files == files
    {
      this.files := files;
    }

    /** `Path::new(path).exists()` */
    predicate Exists(path: string)
      reads this
    {
      path in files
    }

    /** Opening in append mode with `create(true)`: creates an empty file when absent. */
    method Open(path: string)
      modifies this
      ensures files == AppendLines(old(files), path, [])
      ensures Exists(path)
    {
      if path !in files {
        files := files[path := []];
      } else {
        assert files[path] + [] == files[path];
      }
    }

    /** `writeln!` on a file opened for appending. */
    method WriteLine(path: string, line: string)
      requires Exists(path)
      modifies this
      ensures files == AppendLines(old(files), path, [line])
    {
      files := files[path := files[path] + [line]];
    }
  }
}
