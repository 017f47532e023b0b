/** The parts of `std::path::Path` the download loops use on a URL's path
    and on the output directory: `file_name`, `extension` and `join`, for
    Unix paths with `/` as the only separator. */
module Paths {
  import opened Strings

  /** The pieces of a path that name something: `Path::components` skips
      empty pieces (repeated or trailing slashes) and `.` pieces. */
  function NormalPieces(pieces: seq<string>): (r: seq<string>)
    ensures forall i :: 0 <= i < |r| ==> r[i] != [] && r[i] != "."
    ensures forall i :: 0 <= i < |r| ==> r[i] in pieces
    decreases |pieces|
  {
    if pieces == [] then []
    else
      var rest := NormalPieces(pieces[..|pieces| - 1]);
      var last := pieces[|pieces| - 1];
      if last == [] || last == "." then rest else rest + [last]
  }

  /** `Path::new(path).file_name()`: the last component, when it is a normal
      name (not the root, not `.`, not `..`). */
  function FileName(path: string): (r: Option<string>)
    ensures r.Some? ==> r.value != [] && r.value != "." && r.value != ".." && '/' !in r.value
  {
    var names := NormalPieces(Split(path, '/'));
    if names == [] || names[|names| - 1] == ".." then None else Some(names[|names| - 1])
  }

  /** The last occurrence of `c` in `s`. */
  function LastIndexOf(s: string, c: char): (r: Option<nat>)
    ensures r.Some? ==> r.value < |s| && s[r.value] == c && c !in s[r.value + 1..]
    ensures r.None? ==> c !in s
    decreases |s|
  {
    if s == [] then None
    else if s[|s| - 1] == c then Some(|s| - 1)
    else
      var r := LastIndexOf(s[..|s| - 1], c);
      assert s == s[..|s| - 1] + [s[|s| - 1]];
      r
  }

  /** `OsStr` extension of a file name: what follows the last `.`, unless the
      only `.` is a leading one (`.bashrc`) or there is none. */
  function Extension(name: string): (r: Option<string>)
    ensures r.Some? ==> '.' !in r.value
    ensures r.Some? ==> exists k: nat :: 0 < k < |name| && name == name[..k] + "." + r.value
    ensures r.None? <==> name == ".." || forall i :: 0 < i < |name| ==> name[i] != '.'
  {
    if name == ".." then None
    else
      match LastIndexOf(name, '.')
      case None => None
      case Some(k) =>
        if k == 0 then None
        else
          assert name == name[..k] + "." + name[k + 1..];
          Some(name[k + 1..])
  }

  /** `Path::new(path).extension()`. */
  function PathExtension(path: string): Option<string> {
    match FileName(path)
    case None => None
    case Some(name) => Extension(name)
  }

  /** `PathBuf::join`: an absolute component replaces the path; otherwise
      it is appended after a `/`, which is not doubled when the path already
      ends in one and not added to an empty path. */
  function PathJoin(base: string, comp: string): string {
    if |comp| > 0 && comp[0] == '/' then comp
    else if base != [] && base[|base| - 1] != '/' then base + "/" + comp
    else base + comp
  }

  /** An absolute component is the result; a relative one ends the result,
      which starts with the path. */
  lemma PathJoinShape(base: string, comp: string)
    ensures StartsWith(comp, "/") ==> PathJoin(base, comp) == comp
    ensures !StartsWith(comp, "/") ==> EndsWith(PathJoin(base, comp), comp) && StartsWith(PathJoin(base, comp), base)
  {
    if !StartsWith(comp, "/") {
      if base != [] && base[|base| - 1] != '/' {
        assert (base + "/" + comp)[..|base|] == base;
      } else {
        assert (base + comp)[..|base|] == base;
      }
    }
  }

  /** Joining relative names onto a directory that does not end in `/`
      gives the names separated by single slashes. */
  lemma JoinRelative(base: string, comp: string)
    requires base != [] && base[|base| - 1] != '/'
    requires comp == [] || comp[0] != '/'
    ensures PathJoin(base, comp) == base + "/" + comp
  {
  }

  lemma {:induction false} NormalPiecesAppend(pieces: seq<string>, last: string)
    requires last != [] && last != "."
    ensures NormalPieces(pieces + [last]) == NormalPieces(pieces) + [last]
  {
    assert (pieces + [last])[..|pieces|] == pieces;
  }

  /** The file name of a path is the piece after its last `/` when that
      piece is a proper name. */
  lemma FileNameLast(dir: string, name: string)
    requires name != [] && name != "." && name != ".." && '/' !in name
    ensures FileName(dir + "/" + name) == Some(name)
  {
    SplitSnoc(dir, name, '/');
    NormalPiecesAppend(Split(dir, '/'), name);
  }

  /** Splitting at a last separator, with a separator-free piece after it. */
  lemma {:induction false} SplitSnoc(a: string, b: string, c: char)
    requires c !in b
    ensures Split(a + [c] + b, c) == Split(a, c) + [b]
    decreases |a|
  {
    FindCharFromFirst(a, 0, {c});
    match FindCharFrom(a, 0, {c})
    case None =>
      SplitCons(a, b, c);
      SplitJoin([b], c);
    case Some(i) =>
      var x := a[..i];
      var y := a[i + 1..];
      assert a == x + [c] + y;
      assert a + [c] + b == x + [c] + (y + [c] + b);
      assert c !in x;
      SplitCons(x, y + [c] + b, c);
      SplitCons(x, y, c);
      SplitSnoc(y, b, c);
      ConsSnoc(x, Split(y, c), b);
  }

  lemma ConsSnoc<T>(x: T, m: seq<T>, y: T)
    ensures [x] + (m + [y]) == ([x] + m) + [y]
  {
  }
}
