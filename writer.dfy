/** `CSVWriter` (src/writer.py): the tabular file sink. The file system
    is a map from a path to the rows of fields written to it, plus the set
    of directories that exist. */
module Writer {
  import opened Wrappers
  import Numerals

  /** One CSV row: its fields in order. */
  type Row = seq<string>

  class FileSystem {
    var files: map<string, seq<Row>>
    var dirs: set<string>

    constructor (files: map<string, seq<Row>>, dirs: set<string>)
      ensures this.files == files && this.dirs == dirs
    {
      this.files := files;
      this.dirs := dirs;
    }
  }

  /** The rows of the file at `path`; a missing file has none. */
  function Existing(files: map<string, seq<Row>>, path: string): seq<Row>
  {
    if path in files then files[path] else []
  }

  /** Python's truth value of an optional string: present and non-empty. */
  predicate Truthy(s: Option<string>)
  {
    s.Some? && s.value != ""
  }

  /** The default file name, `bluebird_{int(time.time())}.csv`. */
  function AutoName(now: int): string
  {
    "bluebird_" + Numerals.IntToString(now) + ".csv"
  }

  /** `os.path.join(dir, name)` on POSIX: an absolute `name` replaces the
      directory; otherwise a `/` separates them unless `dir` ends in one. */
  function PathJoin(dir: string, name: string): string
  {
    if name != [] && name[0] == '/' then name
    else if dir == [] || dir[|dir| - 1] == '/' then dir + name
    else dir + "/" + name
  }

  /** The path `CSVWriter.__init__` opens. */
  function SinkPath(fileName: Option<string>, outDirectory: Option<string>, now: int): string
  {
    var name := if fileName.None? then AutoName(now) else fileName.value;
    if Truthy(outDirectory) then PathJoin(outDirectory.value, name) else name
  }

  /** The header the constructor writes: the column names, only when it
      chose the file name itself. */
  function Header(fileName: Option<string>, columnNames: seq<string>): seq<Row>
  {
    if fileName.None? then [columnNames] else []
  }

  /** The directory the constructor makes sure exists, if any. */
  function CreatedDirs(outDirectory: Option<string>): set<string>
  {
    if Truthy(outDirectory) then {outDirectory.value} else {}
  }

  /** Two different start times give two different default file names. */
  lemma AutoNameInjective(a: int, b: int)
    requires AutoName(a) == AutoName(b)
    ensures a == b
  {
    var sa := Numerals.IntToString(a);
    var sb := Numerals.IntToString(b);
    var p := "bluebird_";
    assert AutoName(a)[|p|..|AutoName(a)| - 4] == sa;
    assert AutoName(b)[|p|..|AutoName(b)| - 4] == sb;
    Numerals.IntToStringInjective(a, b);
  }

  /** With an output directory the file is the directory joined with the
      name: a relative name lands inside the directory and the path ends
      with the name. The default name is always relative. */
  lemma SinkPathInDirectory(fileName: Option<string>, dir: string, now: int)
    requires dir != ""
    requires fileName.Some? ==> fileName.value == [] || fileName.value[0] != '/'
    ensures var name := if fileName.None? then AutoName(now) else fileName.value;
      var path := SinkPath(fileName, Some(dir), now);
      path[..|dir|] == dir
      && |path| >= |name| && path[|path| - |name|..] == name
      && (dir[|dir| - 1] != '/' ==> path == dir + "/" + name)
  {
  }

  /** The writer of one CSV file. */
  class CSVWriter {
    const fs: FileSystem
    const sourceName: string
    const columnNames: seq<string>
    /** Whether `_file` is still open. */
    var isOpen: bool
    /** How many times `stop` has been called. */
    ghost var stopCalls: nat

    /** An open writer's file exists. */
    ghost predicate Valid()
      reads this, fs
    {
      isOpen ==> sourceName in fs.files
    }

    /** `CSVWriter(column_names, file_name, out_directory)`, with `now` the
        value of `int(time.time())`: derives the path, creates the output
        directory, opens the file for appending and writes the header when
        it named the file itself. */
    constructor (fs: FileSystem, columnNames: seq<string>, fileName: Option<string>,
                 outDirectory: Option<string>, now: int)
      modifies fs
      ensures this.fs == fs && this.columnNames == columnNames
      ensures sourceName == SinkPath(fileName, outDirectory, now)
      ensures Valid() && isOpen && stopCalls == 0
      ensures fs.dirs == old(fs.dirs) + CreatedDirs(outDirectory)
      ensures fs.files == old(fs.files)[sourceName :=
                Existing(old(fs.files), sourceName) + Header(fileName, columnNames)]
    {
      var isNewFile := false;
      var name: string;
      if fileName.None? {
        isNewFile := true;
        name := AutoName(now);
      } else {
        name := fileName.value;
      }
      if Truthy(outDirectory) {
        name := PathJoin(outDirectory.value, name);
      }
      this.fs := fs;
      sourceName := name;
      this.columnNames := columnNames;
      isOpen := true;
      stopCalls := 0;
      new;
      if Truthy(outDirectory) && outDirectory.value !in fs.dirs {
        fs.dirs := fs.dirs + {outDirectory.value};
      }
      // open(..., "a"): creates the file if missing, keeps its rows
      ghost var before := fs.files;
      fs.files := fs.files[sourceName := Existing(fs.files, sourceName)];
      if isNewFile {
        fs.files := fs.files[sourceName := fs.files[sourceName] + [columnNames]];
        assert fs.files == before[sourceName := Existing(before, sourceName) + [columnNames]];
      } else {
        assert Existing(before, sourceName) + Header(fileName, columnNames) == Existing(before, sourceName);
      }
    }

    /** `append(data)`: writes the record as one row after the file's rows.
        On a closed file Python raises `ValueError`; `ok` is false then and
        nothing is written. */
    method Append(data: Row) returns (ok: bool)
      requires Valid()
      modifies fs
      ensures Valid()
      ensures ok == isOpen
      ensures fs.dirs == old(fs.dirs)
      ensures fs.files == if isOpen then old(fs.files)[sourceName := old(fs.files[sourceName]) + [data]]
                          else old(fs.files)
    {
      ok := isOpen;
      if isOpen {
        fs.files := fs.files[sourceName := fs.files[sourceName] + [data]];
      }
    }

    /** `stop()`: closes the file. Closing a closed file does nothing more. */
    method Stop()
      modifies this
      ensures !isOpen && stopCalls == old(stopCalls) + 1
    {
      isOpen := false;
      stopCalls := stopCalls + 1;
    }
  }
}
