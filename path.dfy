/**
 * The part of Python's `pathlib.Path` (POSIX flavour, as in Python 3.12) that
 * `RAGAgent.add_document_from_file` uses to build a document id and its
 * metadata: `str(path)`, `path.name`, `path.suffix` and `path.stem`.
 */
module PyPath {
  import opened PyText

  /** `s.split(sep)` for a single-character separator. */
  function Split(s: string, sep: char): (parts: seq<string>)
    ensures |parts| >= 1
    ensures forall i :: 0 <= i < |parts| ==> sep !in parts[i]
    decreases |s|
  {
    if |s| == 0 then [""]
    else
      var rest := Split(s[1..], sep);
      if s[0] == sep then [""] + rest
      else [[s[0]] + rest[0]] + rest[1..]
  }

  /** Drops the empty and "." components, as pathlib's parser does. */
  function KeepNamed(parts: seq<string>): (r: seq<string>)
    ensures |r| <= |parts|
    ensures forall i :: 0 <= i < |r| ==> r[i] != "" && r[i] != "."
    decreases |parts|
  {
    if |parts| == 0 then []
    else
      var rest := KeepNamed(parts[1..]);
      if parts[0] == "" || parts[0] == "." then rest else [parts[0]] + rest
  }

  /** The components of a POSIX path after the root (`Path(s)._tail`). */
  function Components(s: string): seq<string> {
    KeepNamed(Split(s, '/'))
  }

  /** The root of a POSIX path: exactly two leading slashes are kept,
      one or three and more become one. */
  function Root(s: string): string {
    if StartsWith(s, "//") && !StartsWith(s, "///") then "//"
    else if StartsWith(s, "/") then "/"
    else ""
  }

  /** `str(Path(s))`: the normalised text of the path ("." when empty). */
  function PathText(s: string): (r: string)
    ensures r != ""
  {
    var body := Root(s) + Join(Components(s), "/");
    if body == "" then "." else body
  }

  /** `Path(s).name`: the last component, or "" when there is none. */
  function Name(s: string): (r: string)
    ensures Components(s) == [] ==> r == ""
    ensures Components(s) != [] ==> r == Components(s)[|Components(s)| - 1]
    ensures '/' !in r
  {
    var parts := Components(s);
    if parts == [] then ""
    else
      assert parts[|parts| - 1] in Split(s, '/') by { KeepNamedSubset(Split(s, '/'), parts[|parts| - 1]); }
      parts[|parts| - 1]
  }

  lemma {:induction false} KeepNamedSubset(parts: seq<string>, p: string)
    requires p in KeepNamed(parts)
    ensures p in parts
    decreases |parts|
  {
    if |parts| > 0 && p != parts[0] {
      KeepNamedSubset(parts[1..], p);
    }
  }

  /** `s.rfind(c)`: the index of the last `c` in `s`, or -1. */
  function RFind(s: string, c: char): (i: int)
    ensures -1 <= i < |s|
    ensures i >= 0 ==> s[i] == c
    ensures forall j :: i < j < |s| ==> s[j] != c
    decreases |s|
  {
    if |s| == 0 then -1
    else if s[|s| - 1] == c then |s| - 1
    else RFind(s[..|s| - 1], c)
  }

  /** `PurePosixPath.suffix` on a name: the part from the last dot, unless
      that dot is the first or the last character. */
  function Suffix(name: string): string {
    var i := RFind(name, '.');
    if 0 < i < |name| - 1 then name[i..] else ""
  }

  /** `PurePosixPath.stem` on a name: the name without its suffix. */
  function Stem(name: string): string {
    var i := RFind(name, '.');
    if 0 < i < |name| - 1 then name[..i] else name
  }

  /** A name is its stem followed by its suffix; a non-empty suffix is a dot
      followed by at least one character and no further dot. */
  lemma StemSuffixSplit(name: string)
    ensures Stem(name) + Suffix(name) == name
    ensures Suffix(name) == "" || (|Suffix(name)| >= 2 && Suffix(name)[0] == '.' && '.' !in Suffix(name)[1..])
  {
    var i := RFind(name, '.');
    if 0 < i < |name| - 1 {
      assert name[i..][1..] == name[i + 1..];
    }
  }
}
