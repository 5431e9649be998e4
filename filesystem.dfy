/**
 * The project filesystem manager, `FilesystemManager`: the scan of a project
 * tree with its language histogram, the nested structure map, per-line text
 * search, replace-with-count, project statistics, project creation from a
 * template, the change diff of the polling directory watcher and the log of
 * file operations.
 *
 * The disk is abstracted: a directory walk is a sequence of entries in walk
 * order, a file is its path, name, decoded text and a few flags, and glob
 * matching (`fnmatch`) is a predicate passed in.
 */
module Filesystem {
  import opened Wrappers
  import opened Text

  // ---------------------------------------------------------------- languages

  /** Language per lower-cased file suffix. */
  const LanguageExtensions: map<string, string> := map[
    ".py" := "Python", ".js" := "JavaScript", ".ts" := "TypeScript",
    ".html" := "HTML", ".css" := "CSS", ".java" := "Java", ".cpp" := "C++",
    ".c" := "C", ".go" := "Go", ".rs" := "Rust", ".php" := "PHP",
    ".rb" := "Ruby", ".swift" := "Swift", ".kt" := "Kotlin",
    ".scala" := "Scala", ".r" := "R", ".sql" := "SQL", ".sh" := "Shell",
    ".yml" := "YAML", ".yaml" := "YAML", ".json" := "JSON", ".xml" := "XML",
    ".md" := "Markdown", ".dockerfile" := "Docker", ".tf" := "Terraform"
  ]

  /** The histogram bucket of a file with suffix `ext`: its language, or "Other". */
  function LanguageOf(ext: string): (lang: string)
    ensures lang == "Other" <==> ext !in LanguageExtensions
    ensures lang != "Other" ==> lang == LanguageExtensions[ext]
  {
    if ext in LanguageExtensions then LanguageExtensions[ext] else "Other"
  }

  // ---------------------------------------------------------------- histograms

  /** The counts `d[k] = d.get(k, 0) + 1` accumulated over `labels`, in order. */
  function Tally(labels: seq<string>): map<string, nat> {
    if labels == [] then map[] else Bump(Tally(labels[..|labels| - 1]), labels[|labels| - 1])
  }

  /** `d[l] = d.get(l, 0) + 1` */
  function Bump(m: map<string, nat>, l: string): map<string, nat> {
    m[l := (if l in m then m[l] else 0) + 1]
  }

  /** A tally has one bucket per distinct label, holding that label's multiplicity. */
  lemma {:induction false} TallyCounts(labels: seq<string>)
    ensures forall l :: l in Tally(labels) <==> l in labels
    ensures forall l | l in Tally(labels) :: Tally(labels)[l] == multiset(labels)[l]
  {
    if labels != [] {
      var init := labels[..|labels| - 1];
      var l := labels[|labels| - 1];
      assert labels == init + [l];
      TallyCounts(init);
    }
  }

  /** The sum of the values of `m`. */
  ghost function Total(m: map<string, nat>): nat
    decreases |m|
  {
    if m == map[] then 0
    else
      var k :| k in m;
      m[k] + Total(m - {k})
  }

  lemma {:induction false} TotalRemove(m: map<string, nat>, k: string)
    requires k in m
    ensures Total(m) == m[k] + Total(m - {k})
    decreases |m|
  {
    var j :| j in m && Total(m) == m[j] + Total(m - {j});
    if j != k {
      TotalRemove(m - {j}, k);
      TotalRemove(m - {k}, j);
      assert m - {j} - {k} == m - {k} - {j};
    }
  }

  /** The buckets of a tally add up to the number of labels. */
  lemma {:induction false} TallyTotal(labels: seq<string>)
    ensures Total(Tally(labels)) == |labels|
  {
    if labels != [] {
      var init := labels[..|labels| - 1];
      var l := labels[|labels| - 1];
      TallyTotal(init);
      TotalBump(Tally(init), l);
    }
  }

  /** Adding one to a bucket, or opening a new bucket at one, adds one to the total. */
  lemma TotalBump(m: map<string, nat>, l: string)
    ensures Total(Bump(m, l)) == Total(m) + 1
  {
    var m' := Bump(m, l);
    TotalRemove(m', l);
    if l in m {
      TotalRemove(m, l);
      assert m' - {l} == m - {l};
    } else {
      assert m' - {l} == m;
    }
  }

  // ---------------------------------------------------------------- scan

  /** One entry of the directory walk below the project root, as path components. */
  datatype WalkEntry = WalkEntry(parts: seq<string>, isDirectory: bool, size: nat, modified: int, statOk: bool)

  /** A scanned file; `parts` are the components of its path relative to the root. */
  datatype FileInfo = FileInfo(parts: seq<string>, name: string, size: nat, modified: int, extension: string)

  datatype ProjectStructure = ProjectStructure(
    rootPath: string,
    files: seq<FileInfo>,
    directories: seq<seq<string>>,
    totalFiles: nat,
    totalSize: nat,
    languages: map<string, nat>,
    structureMap: map<string, Node>)

  predicate IsHiddenName(name: string) {
    StartsWith(name, ".")
  }

  /** The walk reaches the entry and keeps it: without `includeHidden` no component may be a dot-name. */
  predicate Shown(parts: seq<string>, includeHidden: bool) {
    includeHidden || forall k | 0 <= k < |parts| :: !IsHiddenName(parts[k])
  }

  predicate KeptFile(e: WalkEntry, includeHidden: bool) {
    !e.isDirectory && |e.parts| > 0 && Shown(e.parts, includeHidden) && e.statOk
  }

  predicate KeptDirectory(e: WalkEntry, includeHidden: bool) {
    e.isDirectory && |e.parts| > 0 && Shown(e.parts, includeHidden)
  }

  function InfoOf(e: WalkEntry): FileInfo
    requires |e.parts| > 0
  {
    var name := e.parts[|e.parts| - 1];
    FileInfo(e.parts, name, e.size, e.modified, Lower(PathSuffix(name)))
  }

  /** The files a scan records, in walk order. */
  function ScannedFiles(entries: seq<WalkEntry>, includeHidden: bool): (files: seq<FileInfo>)
    ensures |files| <= |entries|
  {
    if entries == [] then []
    else
      var init := entries[..|entries| - 1];
      var e := entries[|entries| - 1];
      assert entries == init + [e];
      var rest := ScannedFiles(init, includeHidden);
      if KeptFile(e, includeHidden) then rest + [InfoOf(e)] else rest
  }

  /** The directories a scan records, in walk order. */
  function ScannedDirectories(entries: seq<WalkEntry>, includeHidden: bool): (dirs: seq<seq<string>>)
    ensures |dirs| <= |entries|
  {
    if entries == [] then []
    else
      var init := entries[..|entries| - 1];
      var e := entries[|entries| - 1];
      assert entries == init + [e];
      var rest := ScannedDirectories(init, includeHidden);
      if KeptDirectory(e, includeHidden) then rest + [e.parts] else rest
  }

  /** A file is recorded exactly when the walk meets it as a kept file. */
  lemma {:induction false} ScannedFilesExactly(entries: seq<WalkEntry>, includeHidden: bool)
    ensures forall f | f in ScannedFiles(entries, includeHidden) ::
      exists e | e in entries :: KeptFile(e, includeHidden) && f == InfoOf(e)
    ensures forall e | e in entries && KeptFile(e, includeHidden) :: InfoOf(e) in ScannedFiles(entries, includeHidden)
  {
    if entries != [] {
      var init := entries[..|entries| - 1];
      var e := entries[|entries| - 1];
      assert entries == init + [e];
      ScannedFilesExactly(init, includeHidden);
    }
  }

  /** A directory is recorded exactly when the walk meets it and keeps it. */
  lemma {:induction false} ScannedDirectoriesExactly(entries: seq<WalkEntry>, includeHidden: bool)
    ensures forall d | d in ScannedDirectories(entries, includeHidden) ::
      exists e | e in entries :: KeptDirectory(e, includeHidden) && d == e.parts
    ensures forall e | e in entries && KeptDirectory(e, includeHidden) :: e.parts in ScannedDirectories(entries, includeHidden)
  {
    if entries != [] {
      var init := entries[..|entries| - 1];
      var e := entries[|entries| - 1];
      assert entries == init + [e];
      ScannedDirectoriesExactly(init, includeHidden);
    }
  }

  function SizeSum(files: seq<FileInfo>): nat {
    if files == [] then 0 else SizeSum(files[..|files| - 1]) + files[|files| - 1].size
  }

  /** The language bucket of each file, in order. */
  function Languages(files: seq<FileInfo>): (r: seq<string>)
    ensures |r| == |files|
  {
    if files == [] then [] else Languages(files[..|files| - 1]) + [LanguageOf(files[|files| - 1].extension)]
  }

  /**
   * The loop of `scan_project` over the walk: it collects the kept files and
   * directories, adds up their sizes and counts one language per file.
   */
  method ScanEntries(entries: seq<WalkEntry>, includeHidden: bool)
    returns (files: seq<FileInfo>, directories: seq<seq<string>>, totalSize: nat, languages: map<string, nat>)
    ensures files == ScannedFiles(entries, includeHidden)
    ensures directories == ScannedDirectories(entries, includeHidden)
    ensures totalSize == SizeSum(files)
    ensures languages == Tally(Languages(files))
  {
    files, directories, totalSize, languages := [], [], 0, map[];
    var i := 0;
    while i < |entries|
      invariant 0 <= i <= |entries|
      invariant files == ScannedFiles(entries[..i], includeHidden)
      invariant directories == ScannedDirectories(entries[..i], includeHidden)
      invariant totalSize == SizeSum(files)
      invariant languages == Tally(Languages(files))
    {
      var e := entries[i];
      ScanFileStep(entries, i, includeHidden);
      ScanDirectoryStep(entries, i, includeHidden);
      if KeptDirectory(e, includeHidden) {
        directories := directories + [e.parts];
      } else if KeptFile(e, includeHidden) {
        var info := InfoOf(e);
        var language := LanguageOf(info.extension);
        TallyStep(files, info);
        SizeSumAppend(files, info);
        files := files + [info];
        totalSize := totalSize + info.size;
        languages := Bump(languages, language);
      }
      i := i + 1;
    }
    assert entries[..i] == entries;
  }

  lemma ScanFileStep(entries: seq<WalkEntry>, i: int, includeHidden: bool)
    requires 0 <= i < |entries|
    ensures KeptFile(entries[i], includeHidden) ==>
      ScannedFiles(entries[..i + 1], includeHidden) == ScannedFiles(entries[..i], includeHidden) + [InfoOf(entries[i])]
    ensures !KeptFile(entries[i], includeHidden) ==>
      ScannedFiles(entries[..i + 1], includeHidden) == ScannedFiles(entries[..i], includeHidden)
  {
    assert entries[..i + 1][..i] == entries[..i];
  }

  lemma ScanDirectoryStep(entries: seq<WalkEntry>, i: int, includeHidden: bool)
    requires 0 <= i < |entries|
    ensures KeptDirectory(entries[i], includeHidden) ==>
      ScannedDirectories(entries[..i + 1], includeHidden) == ScannedDirectories(entries[..i], includeHidden) + [entries[i].parts]
    ensures !KeptDirectory(entries[i], includeHidden) ==>
      ScannedDirectories(entries[..i + 1], includeHidden) == ScannedDirectories(entries[..i], includeHidden)
  {
    assert entries[..i + 1][..i] == entries[..i];
  }

  lemma TallyStep(files: seq<FileInfo>, f: FileInfo)
    ensures Tally(Languages(files + [f])) == Bump(Tally(Languages(files)), LanguageOf(f.extension))
  {
    var labels := Languages(files);
    var language := LanguageOf(f.extension);
    LanguagesAppend(files, f);
    TallyAppend(labels, language);
  }

  lemma SizeSumAppend(files: seq<FileInfo>, f: FileInfo)
    ensures SizeSum(files + [f]) == SizeSum(files) + f.size
  {
    assert (files + [f])[..|files|] == files;
  }

  lemma LanguagesAppend(files: seq<FileInfo>, f: FileInfo)
    ensures Languages(files + [f]) == Languages(files) + [LanguageOf(f.extension)]
  {
    assert (files + [f])[..|files|] == files;
  }

  lemma TallyAppend(labels: seq<string>, l: string)
    ensures Tally(labels + [l]) == Bump(Tally(labels), l)
  {
    assert (labels + [l])[..|labels|] == labels;
  }

  /** Every recorded file lands in exactly one language bucket, so the buckets add up to `total_files`. */
  lemma LanguageHistogram(entries: seq<WalkEntry>, includeHidden: bool)
    ensures var files := ScannedFiles(entries, includeHidden);
      Total(Tally(Languages(files))) == |files|
  {
    TallyTotal(Languages(ScannedFiles(entries, includeHidden)));
  }

  // ---------------------------------------------------------------- structure map

  /** A value of the nested structure map: a directory's own map, or a file's leaf record. */
  datatype Node = Folder(children: map<string, Node>) | FileLeaf(size: nat, extension: string, modified: int)

  function LeafOf(f: FileInfo): Node {
    FileLeaf(f.size, f.extension, f.modified)
  }

  predicate IsPrefix(p: seq<string>, q: seq<string>) {
    |p| <= |q| && q[..|p|] == p
  }

  /**
   * The walk of a `current` pointer down `parts`: every missing key on the way
   * becomes an empty directory; with a `leaf` the last component is set to it,
   * without one the last component is just made to exist. (A leaf met on the
   * way is replaced by a directory; a real directory tree never has one there.)
   */
  function Insert(m: map<string, Node>, parts: seq<string>, leaf: Option<Node>): map<string, Node>
    decreases |parts|
  {
    if |parts| == 0 then m
    else if |parts| == 1 && leaf.Some? then m[parts[0] := leaf.value]
    else
      var child := if parts[0] in m && m[parts[0]].Folder? then m[parts[0]].children else map[];
      m[parts[0] := Folder(Insert(child, parts[1..], leaf))]
  }

  /** The node reached by following `parts` through nested directories. */
  function Resolve(m: map<string, Node>, parts: seq<string>): Option<Node>
    decreases |parts|
  {
    if |parts| == 0 || parts[0] !in m then None
    else if |parts| == 1 then Some(m[parts[0]])
    else if m[parts[0]].Folder? then Resolve(m[parts[0]].children, parts[1..])
    else None
  }

  predicate IsFolderAt(m: map<string, Node>, parts: seq<string>) {
    Resolve(m, parts).Some? && Resolve(m, parts).value.Folder?
  }

  /** After an insertion the path leads to the leaf, or to a directory. */
  lemma {:induction false} InsertReaches(m: map<string, Node>, parts: seq<string>, leaf: Option<Node>)
    requires |parts| > 0
    ensures leaf.Some? ==> Resolve(Insert(m, parts, leaf), parts) == leaf
    ensures leaf.None? ==> IsFolderAt(Insert(m, parts, leaf), parts)
    decreases |parts|
  {
    if |parts| > 1 {
      var child := if parts[0] in m && m[parts[0]].Folder? then m[parts[0]].children else map[];
      InsertReaches(child, parts[1..], leaf);
    }
  }

  /** An insertion keeps every directory, unless a leaf is put on or above it. */
  lemma {:induction false} InsertKeepsFolder(m: map<string, Node>, p: seq<string>, leaf: Option<Node>, q: seq<string>)
    requires IsFolderAt(m, q)
    requires leaf.Some? ==> !IsPrefix(p, q)
    ensures IsFolderAt(Insert(m, p, leaf), q)
    decreases |p|
  {
    if |p| > 0 && p[0] == q[0] && |q| > 1 && !(|p| == 1 && leaf.Some?) {
      assert IsPrefix(p[1..], q[1..]) ==> IsPrefix(p, q);
      InsertKeepsFolder(m[p[0]].children, p[1..], leaf, q[1..]);
    }
  }

  /** An insertion keeps every leaf whose path neither lies on the inserted path nor is under it. */
  lemma {:induction false} InsertKeepsLeaf(m: map<string, Node>, p: seq<string>, leaf: Option<Node>, q: seq<string>)
    requires Resolve(m, q).Some? && Resolve(m, q).value.FileLeaf?
    requires !IsPrefix(q, p)
    requires leaf.Some? ==> !IsPrefix(p, q)
    ensures Resolve(Insert(m, p, leaf), q) == Resolve(m, q)
    decreases |p|
  {
    if |p| > 1 && |q| > 1 && p[0] == q[0] {
      assert IsPrefix(q[1..], p[1..]) ==> IsPrefix(q, p);
      assert IsPrefix(p[1..], q[1..]) ==> IsPrefix(p, q);
      InsertKeepsLeaf(m[p[0]].children, p[1..], leaf, q[1..]);
    } else if |p| == 1 && p[0] == q[0] {
      assert q[..1] == p;
    }
  }

  /** The directories loop of `_build_structure_map`, as a fold. */
  function AddDirectories(m: map<string, Node>, dirs: seq<seq<string>>): map<string, Node> {
    if dirs == [] then m else Insert(AddDirectories(m, dirs[..|dirs| - 1]), dirs[|dirs| - 1], None)
  }

  /** The files loop of `_build_structure_map`, as a fold. */
  function AddFiles(m: map<string, Node>, files: seq<FileInfo>): map<string, Node> {
    if files == [] then m
    else
      var f := files[|files| - 1];
      Insert(AddFiles(m, files[..|files| - 1]), f.parts, Some(LeafOf(f)))
  }

  /** `_build_structure_map`: directories first, then files, each walked in from the root. */
  method BuildStructureMap(files: seq<FileInfo>, directories: seq<seq<string>>) returns (structure: map<string, Node>)
    ensures structure == AddFiles(AddDirectories(map[], directories), files)
  {
    structure := map[];
    var i := 0;
    while i < |directories|
      invariant 0 <= i <= |directories|
      invariant structure == AddDirectories(map[], directories[..i])
    {
      assert directories[..i + 1][..i] == directories[..i];
      structure := Insert(structure, directories[i], None);
      i := i + 1;
    }
    assert directories[..i] == directories;
    ghost var base := structure;
    var j := 0;
    while j < |files|
      invariant 0 <= j <= |files|
      invariant structure == AddFiles(base, files[..j])
    {
      assert files[..j + 1][..j] == files[..j];
      structure := Insert(structure, files[j].parts, Some(LeafOf(files[j])));
      j := j + 1;
    }
    assert files[..j] == files;
  }

  /**
   * What a real directory tree guarantees: paths are non-empty, distinct file
   * paths never extend one another, and no file path is, or lies above, a
   * directory path.
   */
  predicate WellFormedTree(files: seq<FileInfo>, directories: seq<seq<string>>) {
    (forall d | d in directories :: |d| > 0)
    && (forall f | f in files :: |f.parts| > 0)
    && (forall i, j | 0 <= i < |files| && 0 <= j < |files| && i != j :: !IsPrefix(files[i].parts, files[j].parts))
    && (forall f, d | f in files && d in directories :: !IsPrefix(f.parts, d))
  }

  lemma {:induction false} DirectoriesPresent(dirs: seq<seq<string>>)
    requires forall d | d in dirs :: |d| > 0
    ensures forall d | d in dirs :: IsFolderAt(AddDirectories(map[], dirs), d)
  {
    if dirs != [] {
      var init := dirs[..|dirs| - 1];
      var last := dirs[|dirs| - 1];
      assert forall d | d in init :: d in dirs;
      DirectoriesPresent(init);
      var m := AddDirectories(map[], init);
      InsertReaches(m, last, None);
      forall d | d in dirs
        ensures IsFolderAt(Insert(m, last, None), d)
      {
        if d != last {
          assert d in init;
          InsertKeepsFolder(m, last, None, d);
        }
      }
    }
  }

  lemma {:induction false} FilesPresent(base: map<string, Node>, files: seq<FileInfo>, directories: seq<seq<string>>)
    requires WellFormedTree(files, directories)
    requires forall d | d in directories :: IsFolderAt(base, d)
    ensures forall d | d in directories :: IsFolderAt(AddFiles(base, files), d)
    ensures forall f | f in files :: Resolve(AddFiles(base, files), f.parts) == Some(LeafOf(f))
  {
    if files != [] {
      var init := files[..|files| - 1];
      WellFormedInit(files, directories);
      FilesPresent(base, init, directories);
      FileStep(AddFiles(base, init), files, directories);
    }
  }

  lemma WellFormedInit(files: seq<FileInfo>, directories: seq<seq<string>>)
    requires WellFormedTree(files, directories) && files != []
    ensures WellFormedTree(files[..|files| - 1], directories)
  {
    var init := files[..|files| - 1];
    assert forall f | f in init :: f in files;
    forall i, j | 0 <= i < |init| && 0 <= j < |init| && i != j
      ensures !IsPrefix(init[i].parts, init[j].parts)
    {
      assert init[i] == files[i] && init[j] == files[j];
    }
  }

  /** Inserting the last file keeps every directory and every earlier file. */
  lemma FileStep(m: map<string, Node>, files: seq<FileInfo>, directories: seq<seq<string>>)
    requires WellFormedTree(files, directories) && files != []
    requires forall d | d in directories :: IsFolderAt(m, d)
    requires forall f | f in files[..|files| - 1] :: Resolve(m, f.parts) == Some(LeafOf(f))
    ensures var last := files[|files| - 1];
      var m' := Insert(m, last.parts, Some(LeafOf(last)));
      (forall d | d in directories :: IsFolderAt(m', d))
      && (forall f | f in files :: Resolve(m', f.parts) == Some(LeafOf(f)))
  {
    var last := files[|files| - 1];
    var m' := Insert(m, last.parts, Some(LeafOf(last)));
    InsertReaches(m, last.parts, Some(LeafOf(last)));
    forall d | d in directories
      ensures IsFolderAt(m', d)
    {
      InsertKeepsFolder(m, last.parts, Some(LeafOf(last)), d);
    }
    forall f | f in files
      ensures Resolve(m', f.parts) == Some(LeafOf(f))
    {
      var i :| 0 <= i < |files| && files[i] == f;
      if i < |files| - 1 {
        assert f in files[..|files| - 1];
        InsertKeepsLeaf(m, last.parts, Some(LeafOf(last)), f.parts);
      }
    }
  }

  /**
   * In the structure map of a real tree every directory path is a chain of
   * nested directories and every file path ends in that file's leaf record.
   */
  lemma StructureMapComplete(files: seq<FileInfo>, directories: seq<seq<string>>)
    requires WellFormedTree(files, directories)
    ensures var structure := AddFiles(AddDirectories(map[], directories), files);
      (forall d | d in directories :: IsFolderAt(structure, d))
      && (forall f | f in files :: Resolve(structure, f.parts) == Some(LeafOf(f)))
  {
    DirectoriesPresent(directories);
    FilesPresent(AddDirectories(map[], directories), files, directories);
  }

  // ---------------------------------------------------------------- search

  /**
   * A file met by the walk of `search_in_files` or `replace_in_files`. `text`
   * is its content decoded with undecodable bytes dropped; `strictUtf8` says
   * whether strict decoding succeeds too (and then yields the same text).
   */
  datatype SourceFile = SourceFile(path: string, name: string, text: string, readable: bool, strictUtf8: bool, writable: bool)

  /** `fnmatch.fnmatch(name, pattern)`, which the model does not spell out. */
  type Matcher = (string, string) -> bool

  /** `file_patterns or ['*']` */
  function Patterns(patterns: seq<string>): (r: seq<string>)
    ensures |r| > 0
    ensures patterns != [] ==> r == patterns
  {
    if patterns == [] then ["*"] else patterns
  }

  predicate Selected(name: string, patterns: seq<string>, fnmatch: Matcher) {
    exists p | p in Patterns(patterns) :: fnmatch(name, p)
  }

  /** `f.readlines()`: the lines of `text`, each keeping its '\n'. */
  function ReadLines(text: string): (lines: seq<string>)
    ensures Join(lines, "") == text
    ensures forall i | 0 <= i < |lines| :: lines[i] != []
    ensures forall i | 0 <= i < |lines| - 1 :: lines[i][|lines[i]| - 1] == '\n'
    decreases |text|
  {
    if text == [] then []
    else
      var i := Find(text, "\n");
      if i < 0 then [text]
      else
        assert text[i] == '\n' by { assert text[i..i + 1] == "\n"; }
        assert text[..i + 1] + text[i + 1..] == text;
        [text[..i + 1]] + ReadLines(text[i + 1..])
  }

  /** The text compared: as it is, or lower-cased when the search ignores case. */
  function Folded(s: string, caseSensitive: bool): string {
    if caseSensitive then s else Lower(s)
  }

  predicate LineHit(line: string, query: string, caseSensitive: bool) {
    Contains(Folded(line, caseSensitive), Folded(query, caseSensitive))
  }

  datatype Match = Match(lineNumber: nat, lineContent: string, column: nat)

  /** The match record of line number `number`: the stripped line and the first column of the query in the compared line. */
  function MatchOf(line: string, number: nat, query: string, caseSensitive: bool): Match
    requires LineHit(line, query, caseSensitive)
  {
    Match(number, Strip(line), Find(Folded(line, caseSensitive), Folded(query, caseSensitive)))
  }

  /** The matches of one file: the hitting lines, numbered from 1, in order. */
  function MatchesIn(lines: seq<string>, query: string, caseSensitive: bool): seq<Match> {
    if lines == [] then []
    else
      var init := MatchesIn(lines[..|lines| - 1], query, caseSensitive);
      var line := lines[|lines| - 1];
      if LineHit(line, query, caseSensitive) then init + [MatchOf(line, |lines|, query, caseSensitive)] else init
  }

  /** A match record is that of a line containing the query, with the line's 1-based number. */
  lemma {:induction false} MatchSound(lines: seq<string>, query: string, caseSensitive: bool, m: Match)
    requires m in MatchesIn(lines, query, caseSensitive)
    ensures 1 <= m.lineNumber <= |lines| && LineHit(lines[m.lineNumber - 1], query, caseSensitive)
      && m == MatchOf(lines[m.lineNumber - 1], m.lineNumber, query, caseSensitive)
  {
    var n := |lines|;
    var init := lines[..n - 1];
    if m in MatchesIn(init, query, caseSensitive) {
      MatchSound(init, query, caseSensitive, m);
      assert lines[m.lineNumber - 1] == init[m.lineNumber - 1];
    }
  }

  /** Every line containing the query has its match record. */
  lemma {:induction false} MatchesComplete(lines: seq<string>, query: string, caseSensitive: bool)
    ensures forall i | 0 <= i < |lines| && LineHit(lines[i], query, caseSensitive) ::
      MatchOf(lines[i], i + 1, query, caseSensitive) in MatchesIn(lines, query, caseSensitive)
  {
    if lines != [] {
      var n := |lines|;
      var init := lines[..n - 1];
      MatchesComplete(init, query, caseSensitive);
      var ms := MatchesIn(lines, query, caseSensitive);
      assert MatchesIn(init, query, caseSensitive) <= ms;
      forall i | 0 <= i < n && LineHit(lines[i], query, caseSensitive)
        ensures MatchOf(lines[i], i + 1, query, caseSensitive) in ms
      {
        if i < n - 1 {
          assert lines[i] == init[i];
        }
      }
    }
  }

  /**
   * A file's match list holds exactly one record per line containing the
   * query, carrying that line's 1-based number, its stripped text and the
   * first column of the query in it.
   */
  lemma MatchesExactly(lines: seq<string>, query: string, caseSensitive: bool)
    ensures forall m | m in MatchesIn(lines, query, caseSensitive) ::
      1 <= m.lineNumber <= |lines| && LineHit(lines[m.lineNumber - 1], query, caseSensitive)
      && m == MatchOf(lines[m.lineNumber - 1], m.lineNumber, query, caseSensitive)
    ensures forall i | 0 <= i < |lines| && LineHit(lines[i], query, caseSensitive) ::
      MatchOf(lines[i], i + 1, query, caseSensitive) in MatchesIn(lines, query, caseSensitive)
  {
    forall m | m in MatchesIn(lines, query, caseSensitive)
      ensures 1 <= m.lineNumber <= |lines| && LineHit(lines[m.lineNumber - 1], query, caseSensitive)
        && m == MatchOf(lines[m.lineNumber - 1], m.lineNumber, query, caseSensitive)
    {
      MatchSound(lines, query, caseSensitive, m);
    }
    MatchesComplete(lines, query, caseSensitive);
  }


  /** What `search_in_files` returns for the files the walk meets, in walk order. */
  function SearchResults(files: seq<SourceFile>, query: string, patterns: seq<string>, caseSensitive: bool,
                         fnmatch: Matcher): map<string, seq<Match>> {
    if files == [] then map[]
    else
      var results := SearchResults(files[..|files| - 1], query, patterns, caseSensitive, fnmatch);
      var f := files[|files| - 1];
      if Selected(f.name, patterns, fnmatch) && f.readable then
        var matches := MatchesIn(ReadLines(f.text), query, caseSensitive);
        if matches != [] then results[f.path := matches] else results
      else results
  }

  /** The walked file gets an entry in the search result. */
  predicate Hit(f: SourceFile, query: string, patterns: seq<string>, caseSensitive: bool, fnmatch: Matcher) {
    Selected(f.name, patterns, fnmatch) && f.readable && MatchesIn(ReadLines(f.text), query, caseSensitive) != []
  }

  lemma SearchStep(files: seq<SourceFile>, query: string, patterns: seq<string>, caseSensitive: bool, fnmatch: Matcher)
    requires files != []
    ensures var f := files[|files| - 1];
      var before := SearchResults(files[..|files| - 1], query, patterns, caseSensitive, fnmatch);
      SearchResults(files, query, patterns, caseSensitive, fnmatch)
        == if Hit(f, query, patterns, caseSensitive, fnmatch) then before[f.path := MatchesIn(ReadLines(f.text), query, caseSensitive)] else before
  {
  }

  /**
   * A path is in the search result exactly when some walked file at that path
   * matches a pattern, can be read and has a line containing the query; its
   * entry is then the match list of such a file.
   */
  lemma {:induction false} SearchResultsExactly(files: seq<SourceFile>, query: string, patterns: seq<string>,
                                                caseSensitive: bool, fnmatch: Matcher)
    ensures var results := SearchResults(files, query, patterns, caseSensitive, fnmatch);
      forall path ::
        (path in results <==> exists f | f in files :: f.path == path && Hit(f, query, patterns, caseSensitive, fnmatch))
        && (path in results ==>
              exists f | f in files :: f.path == path && results[path] == MatchesIn(ReadLines(f.text), query, caseSensitive))
  {
    if files != [] {
      var init := files[..|files| - 1];
      var last := files[|files| - 1];
      SearchResultsExactly(init, query, patterns, caseSensitive, fnmatch);
      SearchStep(files, query, patterns, caseSensitive, fnmatch);
      var results := SearchResults(files, query, patterns, caseSensitive, fnmatch);
      forall path
        ensures (path in results <==> exists f | f in files :: f.path == path && Hit(f, query, patterns, caseSensitive, fnmatch))
          && (path in results ==>
                exists f | f in files :: f.path == path && results[path] == MatchesIn(ReadLines(f.text), query, caseSensitive))
      {
        assert forall f | f in init :: f in files;
        assert forall f | f in files :: f in init || f == last;
      }
    }
  }

  // ---------------------------------------------------------------- replace

  /** `replace_in_files` rewrites (or, on a dry run, would rewrite) the file. */
  predicate Replaced(f: SourceFile, searchText: string, patterns: seq<string>, fnmatch: Matcher, dryRun: bool) {
    Selected(f.name, patterns, fnmatch) && f.readable && f.strictUtf8 && Contains(f.text, searchText)
    && (dryRun || f.writable)
  }

  /** The files that get an entry in the result of `replace_in_files`, in walk order. */
  function Edited(files: seq<SourceFile>, searchText: string, patterns: seq<string>, fnmatch: Matcher, dryRun: bool): seq<SourceFile> {
    if files == [] then []
    else
      var init := Edited(files[..|files| - 1], searchText, patterns, fnmatch, dryRun);
      var f := files[|files| - 1];
      if Replaced(f, searchText, patterns, fnmatch, dryRun) then init + [f] else init
  }

  /** The result map: each edited path to its number of occurrences. */
  function Counts(edited: seq<SourceFile>, searchText: string): map<string, nat> {
    if edited == [] then map[]
    else
      var f := edited[|edited| - 1];
      Counts(edited[..|edited| - 1], searchText)[f.path := Count(f.text, searchText)]
  }

  /** The writes of a real run: each edited path with every occurrence replaced. */
  function Rewrites(edited: seq<SourceFile>, searchText: string, replaceText: string): (writes: seq<(string, string)>)
    ensures |writes| == |edited|
  {
    if edited == [] then []
    else
      var f := edited[|edited| - 1];
      Rewrites(edited[..|edited| - 1], searchText, replaceText) + [(f.path, Replace(f.text, searchText, replaceText))]
  }

  datatype FileOperation = FileOperation(operationType: string, sourcePath: string, targetPath: string, status: string, errorMessage: string)

  function ReplaceLog(edited: seq<SourceFile>): (ops: seq<FileOperation>)
    ensures |ops| == |edited|
  {
    if edited == [] then []
    else ReplaceLog(edited[..|edited| - 1]) + [FileOperation("replace", edited[|edited| - 1].path, "", "completed", "")]
  }

  lemma EditedStep(files: seq<SourceFile>, searchText: string, patterns: seq<string>, fnmatch: Matcher, dryRun: bool)
    requires files != []
    ensures var f := files[|files| - 1];
      var before := Counts(Edited(files[..|files| - 1], searchText, patterns, fnmatch, dryRun), searchText);
      Counts(Edited(files, searchText, patterns, fnmatch, dryRun), searchText)
        == if Replaced(f, searchText, patterns, fnmatch, dryRun) then before[f.path := Count(f.text, searchText)] else before
  {
    var e := Edited(files[..|files| - 1], searchText, patterns, fnmatch, dryRun);
    var f := files[|files| - 1];
    assert (e + [f])[..|e|] == e;
  }

  /**
   * The replacement counts: a path is counted exactly when one of its walked
   * files contains the search text (and, on a real run, can be rewritten), and
   * its count is that file's positive `count` of the text.
   */
  lemma {:induction false} CountsExactly(files: seq<SourceFile>, searchText: string, patterns: seq<string>, fnmatch: Matcher, dryRun: bool)
    ensures var counts := Counts(Edited(files, searchText, patterns, fnmatch, dryRun), searchText);
      forall path ::
        (path in counts <==> exists f | f in files :: f.path == path && Replaced(f, searchText, patterns, fnmatch, dryRun))
        && (path in counts ==>
              counts[path] > 0
              && exists f | f in files :: f.path == path && Replaced(f, searchText, patterns, fnmatch, dryRun)
                   && counts[path] == Count(f.text, searchText))
  {
    if files != [] {
      var init := files[..|files| - 1];
      var last := files[|files| - 1];
      CountsExactly(init, searchText, patterns, fnmatch, dryRun);
      EditedStep(files, searchText, patterns, fnmatch, dryRun);
      var counts := Counts(Edited(files, searchText, patterns, fnmatch, dryRun), searchText);
      forall path
        ensures (path in counts <==> exists f | f in files :: f.path == path && Replaced(f, searchText, patterns, fnmatch, dryRun))
          && (path in counts ==>
                counts[path] > 0
                && exists f | f in files :: f.path == path && Replaced(f, searchText, patterns, fnmatch, dryRun)
                     && counts[path] == Count(f.text, searchText))
      {
        assert forall f | f in init :: f in files;
        assert forall f | f in files :: f in init || f == last;
      }
    }
  }

  /** A rewrite changes the length by one `len(replace) - len(search)` per counted occurrence. */
  lemma {:induction false} RewriteLengths(edited: seq<SourceFile>, searchText: string, replaceText: string)
    ensures var writes := Rewrites(edited, searchText, replaceText);
      forall i | 0 <= i < |edited| ::
        writes[i].0 == edited[i].path
        && |writes[i].1| == |edited[i].text| + Count(edited[i].text, searchText) * (|replaceText| - |searchText|)
  {
    if edited != [] {
      var n := |edited|;
      var init := edited[..n - 1];
      RewriteLengths(init, searchText, replaceText);
      var writes := Rewrites(edited, searchText, replaceText);
      var before := Rewrites(init, searchText, replaceText);
      assert writes == before + [(edited[n - 1].path, Replace(edited[n - 1].text, searchText, replaceText))];
      forall i | 0 <= i < n
        ensures writes[i].0 == edited[i].path
          && |writes[i].1| == |edited[i].text| + Count(edited[i].text, searchText) * (|replaceText| - |searchText|)
      {
        if i < n - 1 {
          assert writes[i] == before[i] && edited[i] == init[i];
        } else {
          ReplaceLength(edited[i].text, searchText, replaceText);
        }
      }
    }
  }

  // ---------------------------------------------------------------- statistics

  datatype ProjectStats =
    | NotScanned
    | Stats(totalFiles: nat, totalDirectories: nat, totalSize: nat, languages: map<string, nat>,
            fileExtensions: map<string, nat>, averageFileSize: nat)

  /** `file_info.extension or "no_extension"` */
  function ExtensionLabel(f: FileInfo): string {
    if f.extension == "" then "no_extension" else f.extension
  }

  function ExtensionLabels(files: seq<FileInfo>): (r: seq<string>)
    ensures |r| == |files|
  {
    if files == [] then [] else ExtensionLabels(files[..|files| - 1]) + [ExtensionLabel(files[|files| - 1])]
  }

  lemma ExtensionTallyStep(files: seq<FileInfo>, f: FileInfo)
    ensures Tally(ExtensionLabels(files + [f])) == Bump(Tally(ExtensionLabels(files)), ExtensionLabel(f))
  {
    assert (files + [f])[..|files|] == files;
    assert ExtensionLabels(files + [f]) == ExtensionLabels(files) + [ExtensionLabel(f)];
    TallyAppend(ExtensionLabels(files), ExtensionLabel(f));
  }

  /** The statistics of a cached scan; the average is the floor of size over `max(1, total_files)`. */
  function StatsOf(s: ProjectStructure): (r: ProjectStats)
    ensures r.Stats? && r.totalFiles == s.totalFiles && r.totalSize == s.totalSize
    ensures var n := if s.totalFiles > 0 then s.totalFiles else 1;
      r.averageFileSize * n <= s.totalSize < (r.averageFileSize + 1) * n
  {
    var n := if s.totalFiles > 0 then s.totalFiles else 1;
    Stats(s.totalFiles, |s.directories|, s.totalSize, s.languages, Tally(ExtensionLabels(s.files)), s.totalSize / n)
  }

  /** `get_project_stats` as written: the cache is looked up under `key` itself. */
  function StatsFor(cache: map<string, ProjectStructure>, key: string): (r: ProjectStats)
    ensures r.NotScanned? <==> key !in cache
  {
    if key in cache then StatsOf(cache[key]) else NotScanned
  }

  /** A structure as `scan_project` builds it. */
  predicate Consistent(s: ProjectStructure) {
    s.totalFiles == |s.files| && s.totalSize == SizeSum(s.files) && s.languages == Tally(Languages(s.files))
  }

  /** Both histograms of the statistics add up to the number of files. */
  lemma StatsHistograms(s: ProjectStructure)
    requires Consistent(s)
    ensures Total(StatsOf(s).languages) == s.totalFiles
    ensures Total(StatsOf(s).fileExtensions) == s.totalFiles
  {
    TallyTotal(Languages(s.files));
    TallyTotal(ExtensionLabels(s.files));
  }

  /**
   * `scan_project` caches under `str(Path(p))` while `get_project_stats`
   * looks up `p` itself: a project scanned as "demo/" is reported as not
   * scanned when asked for as "demo/".
   */
  lemma StatsMissTrailingSlash(s: ProjectStructure)
    ensures StatsFor(map[NormPath("demo/") := s], "demo/") == NotScanned
  {
    var key := NormPath("demo/");
    assert key != "demo/" by {
      assert "demo/"[4] == '/';
    }
  }

  /** Looking the cache up under the normalised path finds every scanned project, however its path was written. */
  lemma StatsFoundNormalized(cache: map<string, ProjectStructure>, p: string, s: ProjectStructure)
    ensures StatsFor(cache[NormPath(p) := s], NormPath(p)) == StatsOf(s)
  {
  }

  // ---------------------------------------------------------------- templates

  /** A directory layout to create: a directory with named entries, or a file (its text is not modelled). */
  datatype Tree = Branch(entries: map<string, Tree>) | Document

  const TemplateNames: set<string> := {"default", "python_package", "web_app"}

  const DefaultTemplate: Tree := Branch(map[
    "src" := Branch(map[]), "tests" := Branch(map[]), "docs" := Branch(map[]),
    "README.md" := Document, "requirements.txt" := Document, ".gitignore" := Document])

  const PythonPackageTemplate: Tree := Branch(map[
    "src" := Branch(map["__init__.py" := Document, "main.py" := Document]),
    "tests" := Branch(map["__init__.py" := Document, "test_main.py" := Document]),
    "setup.py" := Document, "requirements.txt" := Document, "README.md" := Document, ".gitignore" := Document])

  const WebAppTemplate: Tree := Branch(map[
    "frontend" := Branch(map["src" := Branch(map["index.html" := Document, "style.css" := Document, "script.js" := Document])]),
    "backend" := Branch(map["app.py" := Document]),
    "requirements.txt" := Document, "README.md" := Document])

  /** `templates.get(template, templates["default"])` */
  function TemplateLayout(template: string): (t: Tree)
    ensures t.Branch? && "README.md" in t.entries && "requirements.txt" in t.entries
    ensures template !in TemplateNames ==> t == DefaultTemplate
    ensures template == "web_app" <==> "frontend" in t.entries
  {
    if template == "python_package" then PythonPackageTemplate
    else if template == "web_app" then WebAppTemplate
    else DefaultTemplate
  }

  /** A non-empty custom structure wins over the template. */
  function ProjectLayout(template: string, custom: map<string, Tree>): Tree {
    if custom != map[] then Branch(custom) else TemplateLayout(template)
  }

  // ---------------------------------------------------------------- watching

  /** A file the watcher's walk meets; `mtime` is `None` when `stat` fails. */
  datatype WatchedFile = WatchedFile(path: string, name: string, mtime: Option<int>)

  /** One poll of the watcher: path to modification time of every matching file that could be stat'ed. */
  function Snapshot(files: seq<WatchedFile>, patterns: seq<string>, fnmatch: Matcher): (scan: map<string, int>)
    ensures forall path | path in scan :: exists f | f in files :: f.path == path && f.mtime.Some?
  {
    if files == [] then map[]
    else
      var scan := Snapshot(files[..|files| - 1], patterns, fnmatch);
      var f := files[|files| - 1];
      if Selected(f.name, patterns, fnmatch) && f.mtime.Some? then scan[f.path := f.mtime.value] else scan
  }

  /**
   * One step of `watch_directory`: scan again, report every path that is new
   * or whose time changed as "modified" and every path that disappeared as
   * "deleted"; the new scan becomes the next `last`.
   */
  method PollChanges(files: seq<WatchedFile>, patterns: seq<string>, fnmatch: Matcher, last: map<string, int>)
    returns (current: map<string, int>, modified: set<string>, deleted: set<string>)
    ensures current == Snapshot(files, patterns, fnmatch)
    ensures forall path :: path in modified <==> path in current && (path !in last || last[path] != current[path])
    ensures forall path :: path in deleted <==> path in last && path !in current
  {
    current := map[];
    var i := 0;
    while i < |files|
      invariant 0 <= i <= |files|
      invariant current == Snapshot(files[..i], patterns, fnmatch)
    {
      assert files[..i + 1][..i] == files[..i];
      var f := files[i];
      if (exists p | p in Patterns(patterns) :: fnmatch(f.name, p)) && f.mtime.Some? {
        current := current[f.path := f.mtime.value];
      }
      i := i + 1;
    }
    assert files[..i] == files;

    modified := {};
    var todo := current.Keys;
    while todo != {}
      invariant todo <= current.Keys
      invariant forall path :: path in modified <==>
        path in current && path !in todo && (path !in last || last[path] != current[path])
      decreases todo
    {
      var path :| path in todo;
      if path !in last || last[path] != current[path] {
        modified := modified + {path};
      }
      todo := todo - {path};
    }

    deleted := {};
    var rest := last.Keys;
    while rest != {}
      invariant rest <= last.Keys
      invariant forall path :: path in deleted <==> path in last && path !in rest && path !in current
      decreases rest
    {
      var path :| path in rest;
      if path !in current {
        deleted := deleted + {path};
      }
      rest := rest - {path};
    }
  }

  // ---------------------------------------------------------------- loop steps

  lemma MatchesStep(lines: seq<string>, j: int, query: string, caseSensitive: bool)
    requires 0 <= j < |lines|
    ensures MatchesIn(lines[..j + 1], query, caseSensitive)
      == if LineHit(lines[j], query, caseSensitive)
         then MatchesIn(lines[..j], query, caseSensitive) + [MatchOf(lines[j], j + 1, query, caseSensitive)]
         else MatchesIn(lines[..j], query, caseSensitive)
  {
    assert lines[..j + 1][..j] == lines[..j];
  }

  /** The line loop of `search_in_files` for one file: its match records, in line order. */
  method SearchLines(lines: seq<string>, query: string, caseSensitive: bool) returns (matches: seq<Match>)
    ensures matches == MatchesIn(lines, query, caseSensitive)
  {
    matches := [];
    var j := 0;
    while j < |lines|
      invariant 0 <= j <= |lines|
      invariant matches == MatchesIn(lines[..j], query, caseSensitive)
    {
      MatchesStep(lines, j, query, caseSensitive);
      var searchLine := Folded(lines[j], caseSensitive);
      var searchQuery := Folded(query, caseSensitive);
      if Contains(searchLine, searchQuery) {
        matches := matches + [Match(j + 1, Strip(lines[j]), Find(searchLine, searchQuery))];
      }
      j := j + 1;
    }
    assert lines[..j] == lines;
  }

  lemma SearchPrefixStep(files: seq<SourceFile>, i: int, query: string, patterns: seq<string>, caseSensitive: bool,
                         fnmatch: Matcher)
    requires 0 <= i < |files|
    ensures var f := files[i];
      var before := SearchResults(files[..i], query, patterns, caseSensitive, fnmatch);
      SearchResults(files[..i + 1], query, patterns, caseSensitive, fnmatch)
        == if Hit(f, query, patterns, caseSensitive, fnmatch) then before[f.path := MatchesIn(ReadLines(f.text), query, caseSensitive)] else before
  {
    assert files[..i + 1][..i] == files[..i];
    SearchStep(files[..i + 1], query, patterns, caseSensitive, fnmatch);
  }

  lemma EditedPrefixStep(files: seq<SourceFile>, i: int, searchText: string, replaceText: string,
                         patterns: seq<string>, fnmatch: Matcher, dryRun: bool)
    requires 0 <= i < |files|
    ensures var before := Edited(files[..i], searchText, patterns, fnmatch, dryRun);
      var f := files[i];
      if Replaced(f, searchText, patterns, fnmatch, dryRun) then
        Edited(files[..i + 1], searchText, patterns, fnmatch, dryRun) == before + [f]
        && Counts(before + [f], searchText) == Counts(before, searchText)[f.path := Count(f.text, searchText)]
        && Rewrites(before + [f], searchText, replaceText)
             == Rewrites(before, searchText, replaceText) + [(f.path, Replace(f.text, searchText, replaceText))]
        && ReplaceLog(before + [f]) == ReplaceLog(before) + [FileOperation("replace", f.path, "", "completed", "")]
      else Edited(files[..i + 1], searchText, patterns, fnmatch, dryRun) == before
  {
    assert files[..i + 1][..i] == files[..i];
    var before := Edited(files[..i], searchText, patterns, fnmatch, dryRun);
    assert (before + [files[i]])[..|before|] == before;
  }

  // ---------------------------------------------------------------- the manager

  /** The extension histogram of `get_project_stats`, counted file by file ("no_extension" for none). */
  method CountExtensions(files: seq<FileInfo>) returns (extensions: map<string, nat>)
    ensures extensions == Tally(ExtensionLabels(files))
  {
    extensions := map[];
    var i := 0;
    while i < |files|
      invariant 0 <= i <= |files|
      invariant extensions == Tally(ExtensionLabels(files[..i]))
    {
      var f := files[i];
      assert files[..i + 1] == files[..i] + [f];
      ExtensionTallyStep(files[..i], f);
      var ext := if f.extension == "" then "no_extension" else f.extension;
      extensions := Bump(extensions, ext);
      i := i + 1;
    }
    assert files[..i] == files;
  }

  class FilesystemManager {
    /** `Path(workspace_root)` as a string. */
    const workspaceRoot: string
    /** Every logged file operation, oldest first. */
    var operationHistory: seq<FileOperation>
    /** Scanned projects by `str(Path(project_path))`. */
    var projectCache: map<string, ProjectStructure>

    /** Every cached structure is one `scan_project` built. */
    ghost predicate Valid()
      reads this
    {
      forall key | key in projectCache :: Consistent(projectCache[key])
    }

    constructor (workspaceRoot: string)
      ensures this.workspaceRoot == NormPath(workspaceRoot)
      ensures operationHistory == [] && projectCache == map[]
      ensures Valid()
    {
      this.workspaceRoot := NormPath(workspaceRoot);
      operationHistory := [];
      projectCache := map[];
    }

    /**
     * `scan_project`: a missing root is an error; otherwise the walk is
     * collected, the structure map built and the result cached under the
     * normalised root path.
     */
    method ScanProject(projectPath: string, rootExists: bool, entries: seq<WalkEntry>, includeHidden: bool)
      returns (r: Result<ProjectStructure, string>)
      requires Valid()
      modifies this`projectCache
      ensures Valid()
      ensures !rootExists ==> r == Err("Project path does not exist: " + NormPath(projectPath)) && projectCache == old(projectCache)
      ensures rootExists ==> (
        r.Ok?
        && r.value.rootPath == NormPath(projectPath)
        && r.value.files == ScannedFiles(entries, includeHidden)
        && r.value.directories == ScannedDirectories(entries, includeHidden)
        && r.value.structureMap == AddFiles(AddDirectories(map[], r.value.directories), r.value.files)
        && Consistent(r.value)
        && projectCache == old(projectCache)[NormPath(projectPath) := r.value])
    {
      var root := NormPath(projectPath);
      if !rootExists {
        return Err("Project path does not exist: " + root);
      }
      var files, directories, totalSize, languages := ScanEntries(entries, includeHidden);
      var structureMap := BuildStructureMap(files, directories);
      var structure := ProjectStructure(root, files, directories, |files|, totalSize, languages, structureMap);
      projectCache := projectCache[root := structure];
      r := Ok(structure);
    }

    /**
     * `search_in_files`: for every walked file matching a pattern, the lines
     * containing the query; a file is listed only when it has a match.
     */
    method SearchInFiles(files: seq<SourceFile>, query: string, patterns: seq<string>, caseSensitive: bool, fnmatch: Matcher)
      returns (results: map<string, seq<Match>>)
      ensures results == SearchResults(files, query, patterns, caseSensitive, fnmatch)
    {
      results := map[];
      var i := 0;
      while i < |files|
        invariant 0 <= i <= |files|
        invariant results == SearchResults(files[..i], query, patterns, caseSensitive, fnmatch)
      {
        SearchPrefixStep(files, i, query, patterns, caseSensitive, fnmatch);
        var f := files[i];
        if (exists p | p in Patterns(patterns) :: fnmatch(f.name, p)) && f.readable {
          var matches := SearchLines(ReadLines(f.text), query, caseSensitive);
          if matches != [] {
            results := results[f.path := matches];
          }
        }
        i := i + 1;
      }
      assert files[..i] == files;
    }

    /**
     * `replace_in_files`: every matching, strictly decodable file containing
     * the search text is counted; unless `dryRun` it is rewritten with every
     * occurrence replaced and a completed "replace" operation is logged. A file
     * that cannot be rewritten is skipped.
     */
    method ReplaceInFiles(files: seq<SourceFile>, searchText: string, replaceText: string, patterns: seq<string>,
                          fnmatch: Matcher, dryRun: bool)
      returns (replacements: map<string, nat>, writes: seq<(string, string)>)
      modifies this`operationHistory
      ensures var edited := Edited(files, searchText, patterns, fnmatch, dryRun);
        replacements == Counts(edited, searchText)
        && writes == (if dryRun then [] else Rewrites(edited, searchText, replaceText))
        && operationHistory == old(operationHistory) + (if dryRun then [] else ReplaceLog(edited))
    {
      replacements, writes := map[], [];
      ghost var edited: seq<SourceFile> := [];
      var i := 0;
      while i < |files|
        invariant 0 <= i <= |files|
        invariant edited == Edited(files[..i], searchText, patterns, fnmatch, dryRun)
        invariant replacements == Counts(edited, searchText)
        invariant writes == (if dryRun then [] else Rewrites(edited, searchText, replaceText))
        invariant operationHistory == old(operationHistory) + (if dryRun then [] else ReplaceLog(edited))
      {
        EditedPrefixStep(files, i, searchText, replaceText, patterns, fnmatch, dryRun);
        var f := files[i];
        var hit, count, newContent := ReplaceOne(f, searchText, replaceText, patterns, fnmatch, dryRun);
        if hit {
          if !dryRun {
            writes := writes + [(f.path, newContent)];
            LogReplace(f.path);
          }
          replacements := replacements[f.path := count];
          edited := edited + [f];
        }
        i := i + 1;
      }
      assert files[..i] == files;
    }

    /**
     * One file of `replace_in_files`: whether it matches a pattern, is read as UTF-8, contains
     * the search text and (outside a dry run) can be written; with its count and new content.
     */
    static method ReplaceOne(f: SourceFile, searchText: string, replaceText: string, patterns: seq<string>,
                             fnmatch: Matcher, dryRun: bool)
      returns (hit: bool, count: nat, newContent: string)
      ensures hit == Replaced(f, searchText, patterns, fnmatch, dryRun)
      ensures count == Count(f.text, searchText) && newContent == Replace(f.text, searchText, replaceText)
    {
      hit := (exists p | p in Patterns(patterns) :: fnmatch(f.name, p)) && f.readable && f.strictUtf8
             && Contains(f.text, searchText) && (dryRun || f.writable);
      newContent := Replace(f.text, searchText, replaceText);
      count := Count(f.text, searchText);
    }

    /** Logs one completed replacement. */
    method LogReplace(path: string)
      modifies this`operationHistory
      ensures operationHistory == old(operationHistory) + [FileOperation("replace", path, "", "completed", "")]
    {
      operationHistory := operationHistory + [FileOperation("replace", path, "", "completed", "")];
    }

    /** `get_project_stats` as written: the raw argument is the cache key. */
    method GetProjectStats(projectPath: string) returns (r: ProjectStats)
      ensures r == StatsFor(projectCache, projectPath)
    {
      r := StatsFromCache(projectPath);
    }

    /** `get_project_stats` looking up the key `scan_project` caches under. */
    method GetProjectStatsNormalized(projectPath: string) returns (r: ProjectStats)
      ensures r == StatsFor(projectCache, NormPath(projectPath))
    {
      r := StatsFromCache(NormPath(projectPath));
    }

    /** The statistics of the structure cached under `key`, counting extensions in a loop. */
    method StatsFromCache(key: string) returns (r: ProjectStats)
      ensures r == StatsFor(projectCache, key)
    {
      if key !in projectCache {
        return NotScanned;
      }
      var structure := projectCache[key];
      var extensions := CountExtensions(structure.files);
      var n := if structure.totalFiles > 0 then structure.totalFiles else 1;
      r := Stats(structure.totalFiles, |structure.directories|, structure.totalSize, structure.languages,
                 extensions, structure.totalSize / n);
    }

    /**
     * `create_project_structure`: the project lives at `workspace_root /
     * project_name` (an absolute name is used as it is). An existing project
     * is refused before anything happens; a failing root `mkdir`
     * (`mkdirFailure`) raises before anything is logged; otherwise the layout
     * (the non-empty custom structure, else the template) is laid out, and
     * exactly one "create_project" operation is logged, completed or failed.
     * A failure while laying out (`failure`) is raised again.
     */
    method CreateProjectStructure(projectName: string, template: string, custom: map<string, Tree>,
                                  projectExists: bool, mkdirFailure: Option<string>, failure: Option<string>)
      returns (r: Result<string, string>, layout: Tree)
      modifies this`operationHistory
      ensures var path := PathJoin(workspaceRoot, projectName);
        (projectExists ==> r == Err("Project already exists: " + path) && operationHistory == old(operationHistory))
        && (!projectExists && mkdirFailure.Some? ==>
              r == Err(mkdirFailure.value) && operationHistory == old(operationHistory))
        && (!projectExists && mkdirFailure.None? ==>
              layout == ProjectLayout(template, custom)
              && (r.Ok? <==> failure.None?)
              && (r.Ok? ==> r.value == path)
              && (failure.Some? ==> r == Err(failure.value))
              && operationHistory == old(operationHistory) + [
                   if failure.None? then FileOperation("create_project", path, "", "completed", "")
                   else FileOperation("create_project", path, "", "failed", failure.value)])
    {
      var path := PathJoin(workspaceRoot, projectName);
      layout := Document;
      if projectExists {
        return Err("Project already exists: " + path), layout;
      }
      if mkdirFailure.Some? {
        return Err(mkdirFailure.value), layout;
      }
      layout := ProjectLayout(template, custom);
      if failure.Some? {
        operationHistory := operationHistory + [FileOperation("create_project", path, "", "failed", failure.value)];
        r := Err(failure.value);
      } else {
        operationHistory := operationHistory + [FileOperation("create_project", path, "", "completed", "")];
        r := Ok(path);
      }
    }

    /** `get_operation_history(limit)`: the slice `[-limit:]` of the log (50 by default). */
    function GetOperationHistory(limit: int): (r: seq<FileOperation>)
      reads this
      ensures |r| <= |operationHistory| && r == operationHistory[|operationHistory| - |r|..]
      ensures limit > 0 ==> |r| == (if limit < |operationHistory| then limit else |operationHistory|)
      ensures limit == 0 ==> r == operationHistory
    {
      LastN(operationHistory, limit)
    }

    /** `clear_cache` */
    method ClearCache()
      modifies this`projectCache
      ensures projectCache == map[] && Valid()
    {
      projectCache := map[];
    }
  }

}
