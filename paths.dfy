/** The parts of Python's `pathlib` the modelled code relies on: joining a
    relative text onto a directory, the final component's name, stem and
    suffix, and `with_stem` / `with_suffix`. */
module Paths {
  import opened Wrappers
  import opened Exceptions
  import Strings

  /** A normalised path as a sequence of components; an absolute path starts
      with the component "/". */
  datatype Path = Path(parts: seq<string>)

  /** Drop the empty and "." components, as pathlib does when it parses. */
  function KeepNamed(cs: seq<string>): seq<string>
  {
    if |cs| == 0 then []
    else (if cs[0] == "" || cs[0] == "." then [] else [cs[0]]) + KeepNamed(cs[1..])
  }

  function Components(s: string): seq<string>
  {
    KeepNamed(Strings.Split(s, '/'))
  }

  predicate HasNoSlash(s: string) { Strings.Lacks(s, '/') }

  /** `base / rel`: an absolute `rel` replaces `base`. */
  function JoinPath(base: Path, rel: string): Path
  {
    if |rel| > 0 && rel[0] == '/' then Path(["/"] + Components(rel)) else Path(base.parts + Components(rel))
  }

  lemma {:induction false} KeepNamedAppend(x: seq<string>, y: seq<string>)
    ensures KeepNamed(x + y) == KeepNamed(x) + KeepNamed(y)
  {
    if |x| > 0 {
      assert (x + y)[1..] == x[1..] + y;
      KeepNamedAppend(x[1..], y);
    } else {
      assert x + y == y;
    }
  }

  /** A text made of named components separated by '/' splits back into
      exactly those components. */
  lemma {:induction false} ComponentsOfNamed(cs: seq<string>, s: string)
    requires |cs| > 0
    requires forall i :: 0 <= i < |cs| ==> HasNoSlash(cs[i]) && cs[i] != "" && cs[i] != "."
    requires s == JoinedBySlash(cs)
    ensures Components(s) == cs
  {
    if |cs| == 1 {
      Strings.SplitLacking(cs[0], '/');
      assert cs == [cs[0]];
      assert s == cs[0];
      assert KeepNamed([cs[0]]) == [cs[0]] + KeepNamed([cs[0]][1..]);
      assert [cs[0]][1..] == [];
    } else {
      var rest := JoinedBySlash(cs[1..]);
      Strings.SplitJoin(cs[0], rest, '/');
      assert s == cs[0] + ['/'] + rest;
      ComponentsOfNamed(cs[1..], rest);
      KeepNamedAppend([cs[0]], Strings.Split(rest, '/'));
    }
  }

  function JoinedBySlash(cs: seq<string>): string
  {
    if |cs| == 0 then "" else if |cs| == 1 then cs[0] else cs[0] + "/" + JoinedBySlash(cs[1..])
  }

  /** `p.name`: the last component, "" for an empty or root path. */
  function Name(p: Path): string
  {
    if |p.parts| == 0 || p.parts[|p.parts| - 1] == "/" then "" else p.parts[|p.parts| - 1]
  }

  /** `p.parent` for a path with a name: everything but the last component. */
  function Parent(p: Path): Path
    requires Name(p) != ""
  {
    Path(p.parts[..|p.parts| - 1])
  }

  /** Position of the last '.' in `s`, or -1. */
  function LastDot(s: string): (i: int)
    ensures -1 <= i < |s|
    ensures i >= 0 ==> s[i] == '.'
    ensures forall j :: i < j < |s| ==> s[j] != '.'
  {
    if |s| == 0 then -1 else if s[|s| - 1] == '.' then |s| - 1 else LastDot(s[..|s| - 1])
  }

  /** `PurePath.suffix` of a name: from the last dot on, unless that dot is
      the first or the last character. */
  function Suffix(name: string): string
  {
    var i := LastDot(name);
    if 0 < i < |name| - 1 then name[i..] else ""
  }

  /** `PurePath.stem` of a name: the name without its suffix. */
  function Stem(name: string): string
  {
    name[..|name| - |Suffix(name)|]
  }

  /** `p.with_name(name)`: ValueError for a path without a name or a new name
      that is empty, "." or holds a '/'. */
  function WithName(p: Path, name: string): Result<Path, Exc>
  {
    if Name(p) == "" || name == "" || name == "." || !HasNoSlash(name) then Err(ValueError(["invalid name"]))
    else Ok(Path(p.parts[..|p.parts| - 1] + [name]))
  }

  /** `p.with_stem(stem)` is `p.with_name(stem + p.suffix)`. */
  function WithStem(p: Path, stem: string): Result<Path, Exc>
  {
    WithName(p, stem + Suffix(Name(p)))
  }

  /** `p.with_suffix(suffix)` for a suffix that starts with '.' and is longer
      than the dot: the old suffix is replaced, or the new one appended. */
  function WithSuffix(p: Path, suffix: string): Result<Path, Exc>
    requires |suffix| > 1 && suffix[0] == '.' && HasNoSlash(suffix)
  {
    var name := Name(p);
    if name == "" then Err(ValueError(["empty name"]))
    else WithName(p, name[..|name| - |Suffix(name)|] + suffix)
  }
}
