/**
 * The part of sysfs the plugin looks at, as one immutable value, and the two
 * file readers built on it. A path is a list of components below
 * /sys/fs/bcache/; the root itself is the empty path.
 */
module SysTree {
  import opened Builtins

  type Path = seq<string>

  /**
   * dirs: the listing os.listdir returns for each directory, in its order.
   * files: the lines readlines() returns for each readable file.
   * links: the target os.readlink returns for each symbolic link.
   */
  datatype Tree = Tree(dirs: map<Path, seq<string>>, files: map<Path, seq<string>>, links: map<Path, string>)

  /** os.path.isdir. */
  predicate IsDir(t: Tree, p: Path) {
    p in t.dirs
  }

  /**
   * file_to_lines never raises: a file that cannot be opened or read gives
   * no lines, any other file all of its lines, in order.
   */
  function FileToLines(t: Tree, p: Path): seq<string> {
    if p in t.files then t.files[p] else []
  }

  /**
   * file_to_line: the first line stripped of surrounding whitespace, or ''
   * when there is none. The line never starts or ends with whitespace and
   * is no longer than the first line.
   */
  function FileToLine(t: Tree, p: Path): (r: string)
    ensures r == [] || (!IsSpace(r[0]) && !IsSpace(r[|r| - 1]))
    ensures FileToLines(t, p) == [] ==> r == []
    ensures FileToLines(t, p) != [] ==> |r| <= |FileToLines(t, p)[0]|
  {
    var lines := FileToLines(t, p);
    if lines != [] then StripSpec(lines[0]); Strip(lines[0]) else ""
  }

  /** A file that cannot be read reads as the empty line. */
  lemma MissingFileReadsEmpty(t: Tree, p: Path)
    requires p !in t.files
    ensures FileToLines(t, p) == [] && FileToLine(t, p) == ""
  {
  }

  /** Only the first line counts: whatever follows it never changes the result. */
  lemma LaterLinesIgnored(t: Tree, p: Path, first: string, rest: seq<string>, other: seq<string>)
    requires p in t.files && t.files[p] == [first] + rest
    ensures FileToLine(t, p) == FileToLine(t.(files := t.files[p := [first] + other]), p)
    ensures FileToLine(t, p) == Strip(first)
  {
  }

  /** A first line without surrounding whitespace comes back unchanged. */
  lemma CleanLineUnchanged(t: Tree, p: Path, line: string)
    requires p in t.files && t.files[p] != [] && t.files[p][0] == line && NoSpace(line)
    ensures FileToLine(t, p) == line
  {
    StripNothingToStrip(line);
  }
}
