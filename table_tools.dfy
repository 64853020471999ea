/** `tools/table_tools.py`: find table files under a directory and read the
    first rows of one. The directory scan and the pandas readers are
    arguments: `glob` gives, for a pattern, the paths it matches with their
    byte sizes; the readers return rows or raise. */
module TableTools {
  import opened Wrappers

  /** `TableSource(path=str(f), bytes=f.stat().st_size)`. */
  datatype TableSource = TableSource(path: string, bytes: nat)

  const TableSuffixes: set<string> := {".csv", ".parquet"}
  const DefaultNumRows: int := 20
  const MaxNumRows: int := 1000

  // ---------------------------------------------------------------------
  // Path.name and Path.suffix

  /** The index of the last `c` in `s`, or -1 (`str.rfind`). */
  function LastIndexOf(s: string, c: char): (i: int)
    ensures -1 <= i < |s|
    ensures i >= 0 ==> s[i] == c
    ensures forall j :: i < j < |s| ==> s[j] != c
  {
    if s == [] then -1
    else if s[|s| - 1] == c then |s| - 1
    else LastIndexOf(s[..|s| - 1], c)
  }

  /** `Path.name`: the text after the last separator. */
  function FileName(path: string): (name: string)
    ensures '/' !in name
    ensures |name| <= |path| && path[|path| - |name|..] == name
  {
    path[LastIndexOf(path, '/') + 1..]
  }

  /** `Path.suffix`: from the last dot of the name, provided the dot is
      neither the name's first character nor its last; `""` otherwise. */
  function Suffix(path: string): (suffix: string)
    ensures suffix == "" || (|suffix| >= 2 && suffix[0] == '.' && '.' !in suffix[1..])
    ensures '/' !in suffix
    ensures suffix != "" ==> |FileName(path)| > |suffix| && |path| >= |suffix| && path[|path| - |suffix|..] == suffix
  {
    var name := FileName(path);
    var i := LastIndexOf(name, '.');
    if 0 < i < |name| - 1 then name[i..] else ""
  }

  /** The three properties of `LastIndexOf` determine it. */
  lemma LastIndexOfIs(s: string, c: char, k: int)
    requires -1 <= k < |s|
    requires k >= 0 ==> s[k] == c
    requires forall j :: k < j < |s| ==> s[j] != c
    ensures LastIndexOf(s, c) == k
  {
  }

  /** The name of `dir + name` is `name` when `dir` is empty or ends in a separator. */
  lemma FileNameOf(dir: string, name: string)
    requires dir == [] || dir[|dir| - 1] == '/'
    requires '/' !in name
    ensures FileName(dir + name) == name
  {
    var path := dir + name;
    forall j | |dir| <= j < |path| ensures path[j] != '/' {
      assert path[j] == name[j - |dir|];
    }
    LastIndexOfIs(path, '/', |dir| - 1);
    assert path[|dir|..] == name;
  }

  /** The last dot of `stem + ext` is the one that starts `ext`. */
  lemma DotOfExtension(stem: string, ext: string)
    requires |ext| >= 2 && ext[0] == '.' && '.' !in ext[1..]
    ensures LastIndexOf(stem + ext, '.') == |stem|
  {
    var name := stem + ext;
    forall j | |stem| < j < |name| ensures name[j] != '.' {
      assert name[j] == ext[1..][j - |stem| - 1];
    }
    LastIndexOfIs(name, '.', |stem|);
  }

  /** A path made of a directory prefix, a non-empty stem and an extension
      has that extension as its suffix. */
  lemma SuffixOfFile(dir: string, stem: string, ext: string)
    requires dir == [] || dir[|dir| - 1] == '/'
    requires stem != [] && '/' !in stem
    requires |ext| >= 2 && ext[0] == '.' && '.' !in ext[1..] && '/' !in ext
    ensures Suffix(dir + stem + ext) == ext
  {
    var name := stem + ext;
    assert dir + stem + ext == dir + name;
    FileNameOf(dir, name);
    assert FileName(dir + stem + ext) == name;
    DotOfExtension(stem, ext);
    assert LastIndexOf(name, '.') == |stem|;
    assert name[|stem|..] == ext;
  }

  /** ASCII lower-casing of one character. */
  function LowerChar(c: char): (l: char)
  {
    if 'A' <= c <= 'Z' then (c as int + 32) as char else c
  }

  /** `str.lower`, for ASCII letters. */
  function Lower(s: string): (r: string)
    ensures |r| == |s|
    ensures forall i :: 0 <= i < |s| ==> r[i] == LowerChar(s[i])
  {
    seq(|s|, i requires 0 <= i < |s| => LowerChar(s[i]))
  }

  /** `f.suffix.lower() in {'.csv', '.parquet'}`. */
  predicate IsTableFile(path: string): (table: bool)
    ensures table ==> (|Suffix(path)| == 4 || |Suffix(path)| == 8) && |FileName(path)| > |Suffix(path)|
  {
    Lower(Suffix(path)) in TableSuffixes
  }

  /** A file whose extension lower-cases to `.csv` or `.parquet` is a table file. */
  lemma ExtensionMatches(dir: string, stem: string, ext: string)
    requires dir == [] || dir[|dir| - 1] == '/'
    requires stem != [] && '/' !in stem
    requires |ext| >= 2 && ext[0] == '.' && '.' !in ext[1..] && '/' !in ext
    ensures IsTableFile(dir + stem + ext) <==> Lower(ext) in TableSuffixes
  {
    SuffixOfFile(dir, stem, ext);
  }

  /** An upper-case `.CSV` extension matches. */
  lemma UpperCaseCsvMatches(dir: string, stem: string)
    requires dir == [] || dir[|dir| - 1] == '/'
    requires stem != [] && '/' !in stem
    ensures IsTableFile(dir + stem + ".CSV")
  {
    var ext := ".CSV";
    assert ext[1..] == "CSV";
    assert '/' !in ext;
    var l := Lower(ext);
    assert l[0] == '.' && l[1] == 'c' && l[2] == 's' && l[3] == 'v';
    assert l == ".csv";
    ExtensionMatches(dir, stem, ext);
  }

  /** A mixed-case `.Parquet` extension matches. */
  lemma MixedCaseParquetMatches(dir: string, stem: string)
    requires dir == [] || dir[|dir| - 1] == '/'
    requires stem != [] && '/' !in stem
    ensures IsTableFile(dir + stem + ".Parquet")
  {
    var ext := ".Parquet";
    assert ext[1..] == "Parquet";
    assert '/' !in ext;
    var l := Lower(ext);
    assert l[0] == '.' && l[1] == 'p' && l[2] == 'a' && l[3] == 'r' && l[4] == 'q';
    assert l[5] == 'u' && l[6] == 'e' && l[7] == 't';
    assert l == ".parquet";
    ExtensionMatches(dir, stem, ext);
  }

  /** A hidden file named `.csv` has no suffix, so it is not a table file. */
  lemma HiddenCsvRejected(dir: string)
    requires dir == [] || dir[|dir| - 1] == '/'
    ensures !IsTableFile(dir + ".csv")
  {
    FileNameOf(dir, ".csv");
    LastIndexOfIs(".csv", '.', 0);
  }

  /** Only the last extension counts. */
  lemma CompressedCsvRejected(dir: string, stem: string)
    requires dir == [] || dir[|dir| - 1] == '/'
    requires stem != [] && '/' !in stem
    ensures !IsTableFile(dir + (stem + ".csv") + ".gz")
  {
    var ext := ".gz";
    assert '/' !in stem + ".csv";
    assert ext[1..] == "gz";
    assert '/' !in ext;
    var l := Lower(ext);
    assert l[0] == '.' && l[1] == 'g' && l[2] == 'z';
    assert l == ".gz";
    ExtensionMatches(dir, stem + ".csv", ext);
  }

  // ---------------------------------------------------------------------
  // sorted(files)

  /** The rank of a path character: the separator comes before every other
      character, so comparing strings compares paths part by part. */
  function CharRank(c: char): (rank: int)
  {
    if c == '/' then -1 else c as int
  }

  /** `a <= b` as paths. */
  predicate PathLe(a: string, b: string): (le: bool)
    ensures a <= b ==> le
  {
    if a == [] then true
    else if b == [] then false
    else if CharRank(a[0]) != CharRank(b[0]) then CharRank(a[0]) < CharRank(b[0])
    else PathLe(a[1..], b[1..])
  }

  lemma {:induction false} PathLeTotal(a: string, b: string)
    ensures PathLe(a, b) || PathLe(b, a)
  {
    if a != [] && b != [] && CharRank(a[0]) == CharRank(b[0]) {
      PathLeTotal(a[1..], b[1..]);
    }
  }

  lemma {:induction false} PathLeTransitive(a: string, b: string, c: string)
    requires PathLe(a, b) && PathLe(b, c)
    ensures PathLe(a, c)
  {
    if a != [] && b != [] && c != [] && CharRank(a[0]) == CharRank(b[0]) == CharRank(c[0]) {
      PathLeTransitive(a[1..], b[1..], c[1..]);
    }
  }

  /** Two paths that are each at most the other are the same path. */
  lemma {:induction false} PathLeAntisymmetric(a: string, b: string)
    requires PathLe(a, b) && PathLe(b, a)
    ensures a == b
  {
    if a != [] && b != [] {
      PathLeAntisymmetric(a[1..], b[1..]);
      assert a[0] == b[0];
      assert a == [a[0]] + a[1..] && b == [b[0]] + b[1..];
    }
  }

  predicate SortedByPath(s: seq<TableSource>)
  {
    forall i, j :: 0 <= i < j < |s| ==> PathLe(s[i].path, s[j].path)
  }

  /** An entry at most every entry of a sorted list can go in front of it. */
  lemma SortedCons(x: TableSource, s: seq<TableSource>)
    requires SortedByPath(s)
    requires forall y :: y in s ==> PathLe(x.path, y.path)
    ensures SortedByPath([x] + s)
  {
    var r := [x] + s;
    forall i, j | 0 <= i < j < |r| ensures PathLe(r[i].path, r[j].path) {
      if i == 0 {
        assert r[j] == s[j - 1];
      } else {
        assert r[i] == s[i - 1] && r[j] == s[j - 1];
      }
    }
  }

  function Insert(f: TableSource, s: seq<TableSource>): (r: seq<TableSource>)
    requires SortedByPath(s)
    ensures SortedByPath(r)
    ensures multiset(r) == multiset(s) + multiset{f}
  {
    if s == [] then [f]
    else if PathLe(f.path, s[0].path) then
      assert forall y :: y in s ==> PathLe(f.path, y.path) by {
        forall y | y in s ensures PathLe(f.path, y.path) {
          var j :| 0 <= j < |s| && s[j] == y;
          if j > 0 { PathLeTransitive(f.path, s[0].path, s[j].path); }
        }
      }
      SortedCons(f, s);
      [f] + s
    else
      PathLeTotal(f.path, s[0].path);
      var tail := s[1..];
      assert SortedByPath(tail) by {
        forall i, j | 0 <= i < j < |tail| ensures PathLe(tail[i].path, tail[j].path) {
          assert tail[i] == s[i + 1] && tail[j] == s[j + 1];
        }
      }
      var rest := Insert(f, tail);
      assert s == [s[0]] + tail;
      assert forall y :: y in rest ==> PathLe(s[0].path, y.path) by {
        forall y | y in rest ensures PathLe(s[0].path, y.path) {
          assert y in multiset(rest);
          if y != f {
            assert y in multiset(tail);
            var j :| 0 <= j < |tail| && tail[j] == y;
            assert s[j + 1] == y;
          }
        }
      }
      SortedCons(s[0], rest);
      [s[0]] + rest
  }

  /** `sorted(files)`: ordered by path and holding exactly the same entries. */
  function SortByPath(s: seq<TableSource>): (r: seq<TableSource>)
    ensures SortedByPath(r)
    ensures multiset(r) == multiset(s)
  {
    if s == [] then []
    else
      assert s == [s[0]] + s[1..];
      Insert(s[0], SortByPath(s[1..]))
  }

  // ---------------------------------------------------------------------
  // discover_table_files and inspect_table_file

  /** The glob pattern: every depth when `recursive`, the top level otherwise. */
  function GlobPattern(recursive: bool): (pattern: string)
    ensures pattern == "**/*" <==> recursive
    ensures pattern == "*" <==> !recursive
  {
    if recursive then "**/*" else "*"
  }

  /** The list comprehension that keeps the table files, in their order. */
  function TableFiles(files: seq<TableSource>): (r: seq<TableSource>)
    ensures forall f :: f in r ==> IsTableFile(f.path)
    ensures forall f :: multiset(r)[f] == if IsTableFile(f.path) then multiset(files)[f] else 0
  {
    if files == [] then []
    else
      assert files == [files[0]] + files[1..];
      (if IsTableFile(files[0].path) then [files[0]] else []) + TableFiles(files[1..])
  }

  function MissingDirectory(path: string): (message: string)
  {
    "Directory '" + path + "' does not exist"
  }

  /** `discover_table_files`. `path` is the already user-expanded root and
      `isDirectory` says whether it exists and is a directory. */
  function DiscoverTableFiles(path: string, isDirectory: bool, glob: string -> seq<TableSource>,
                              recursive: bool := false): (r: Result<seq<TableSource>>)
    ensures !isDirectory ==> r == Err(MissingDirectory(path))
    ensures isDirectory ==> r.Ok?
    ensures r.Ok? ==>
      var found := glob(GlobPattern(recursive));
      && SortedByPath(r.value)
      && (forall f :: f in r.value ==> IsTableFile(f.path))
      && (forall f :: multiset(r.value)[f] == if IsTableFile(f.path) then multiset(found)[f] else 0)
  {
    if !isDirectory then Err(MissingDirectory(path))
    else Ok(SortByPath(TableFiles(glob(GlobPattern(recursive)))))
  }

  /** Without `recursive`, only the top level of the directory is scanned. */
  lemma DefaultScanIsTopLevel(path: string, glob: string -> seq<TableSource>)
    ensures DiscoverTableFiles(path, true, glob) == Ok(SortByPath(TableFiles(glob("*"))))
  {
  }

  function CouldNotRead(path: string, error: string): (message: string)
  {
    "Could not read file '" + path + "': " + error
  }

  function NotATableFile(path: string): (message: string)
  {
    "'" + path + "' is not a valid CSV or Parquet file"
  }

  /** `inspect_table_file`: dispatch on the lower-cased suffix. The CSV reader
      is asked for `numRows` rows; the whole Parquet file is read and its
      first `numRows` rows kept. The bound on `numRows` is the tool's
      argument validation. */
  function InspectTableFile<Row>(path: string,
                                 readCsv: (string, int) -> Attempt<seq<Row>>,
                                 readParquet: string -> Attempt<seq<Row>>,
                                 numRows: int := DefaultNumRows): (r: Result<seq<Row>>)
    requires 1 <= numRows <= MaxNumRows
    ensures Lower(Suffix(path)) == ".csv" ==>
      var read := readCsv(path, numRows);
      r == if read.Returned? then Ok(read.value) else Err(CouldNotRead(path, read.error))
    ensures Lower(Suffix(path)) == ".parquet" ==>
      var read := readParquet(path);
      && (read.Raised? ==> r == Err(CouldNotRead(path, read.error)))
      && (read.Returned? ==> r.Ok? && |r.value| <= numRows && r.value <= read.value
                             && |r.value| == Min(numRows, |read.value|))
    ensures !IsTableFile(path) ==> r == Err(NotATableFile(path))
  {
    var suffix := Lower(Suffix(path));
    if suffix == ".csv" then
      match readCsv(path, numRows)
      case Returned(rows) => Ok(rows)
      case Raised(e) => Err(CouldNotRead(path, e))
    else if suffix == ".parquet" then
      match readParquet(path)
      case Returned(rows) => Ok(rows[..Min(numRows, |rows|)])
      case Raised(e) => Err(CouldNotRead(path, e))
    else Err(NotATableFile(path))
  }

  /** Without `num_rows`, a CSV file is asked for its first 20 rows and a
      Parquet file is cut to at most 20. */
  lemma DefaultReadsTwentyRows<Row>(path: string, readCsv: (string, int) -> Attempt<seq<Row>>,
                                    readParquet: string -> Attempt<seq<Row>>)
    ensures Lower(Suffix(path)) == ".csv" && readCsv(path, 20).Returned? ==>
      InspectTableFile(path, readCsv, readParquet) == Ok(readCsv(path, 20).value)
    ensures Lower(Suffix(path)) == ".parquet" && readParquet(path).Returned? ==>
      && InspectTableFile(path, readCsv, readParquet).Ok?
      && |InspectTableFile(path, readCsv, readParquet).value| == Min(20, |readParquet(path).value|)
  {
  }

  /** A table file is handed to a reader, never refused for its suffix. */
  lemma TableFileNotRefused<Row>(path: string, numRows: int,
                                 readCsv: (string, int) -> Attempt<seq<Row>>,
                                 readParquet: string -> Attempt<seq<Row>>)
    requires 1 <= numRows <= MaxNumRows
    requires IsTableFile(path)
    ensures InspectTableFile(path, readCsv, readParquet, numRows) != Err(NotATableFile(path))
  {
    assert NotATableFile(path)[0] == '\'';
    forall e: string ensures CouldNotRead(path, e) != NotATableFile(path) {
      assert CouldNotRead(path, e)[0] == 'C';
    }
  }

  /** Every file `discover_table_files` reports is handed to a reader by
      `inspect_table_file`. */
  lemma DiscoveredFilesAreReadable<Row>(path: string, recursive: bool, glob: string -> seq<TableSource>,
                                        numRows: int, readCsv: (string, int) -> Attempt<seq<Row>>,
                                        readParquet: string -> Attempt<seq<Row>>)
    requires 1 <= numRows <= MaxNumRows
    ensures forall f :: f in DiscoverTableFiles(path, true, glob, recursive).value ==>
      InspectTableFile(f.path, readCsv, readParquet, numRows) != Err(NotATableFile(f.path))
  {
    forall f | f in DiscoverTableFiles(path, true, glob, recursive).value
      ensures InspectTableFile(f.path, readCsv, readParquet, numRows) != Err(NotATableFile(f.path))
    {
      TableFileNotRefused(f.path, numRows, readCsv, readParquet);
    }
  }
}
