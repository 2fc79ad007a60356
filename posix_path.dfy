/**
 * A model of how Node's `path.join` followed by `path.resolve` turns a
 * directory and a relative name into an absolute POSIX path: the name is split
 * on "/", empty and "." segments are dropped, ".." removes the last segment
 * (never going above the root), and every other segment is appended.
 */
module PosixPath {
  import opened JsText

  /** An absolute, normalized path given as its segments; [] is the root. */
  type Segments = seq<string>

  function Step(stack: Segments, part: string): Segments
  {
    if part == "" || part == "." then stack
    else if part == ".." then (if stack == [] then [] else stack[..|stack| - 1])
    else stack + [part]
  }

  function Walk(stack: Segments, parts: seq<string>): Segments
    decreases |parts|
  {
    if parts == [] then stack else Walk(Step(stack, parts[0]), parts[1..])
  }

  /** `path.resolve(path.join(dir, name))` for an absolute `dir`. */
  function Resolve(dir: Segments, name: string): Segments
  {
    Walk(dir, Split(name, '/'))
  }

  /** The segments written out, each preceded by "/". */
  function Slashed(segs: Segments): string
  {
    if segs == [] then "" else "/" + segs[0] + Slashed(segs[1..])
  }

  /** The text of an absolute path. */
  function Text(segs: Segments): string
  {
    if segs == [] then "/" else Slashed(segs)
  }

  /** `path` lies in `dir` or below it. */
  predicate Inside(dir: Segments, path: Segments)
  {
    dir <= path
  }

  lemma {:induction false} SlashedAppend(a: Segments, b: Segments)
    ensures Slashed(a + b) == Slashed(a) + Slashed(b)
  {
    if a != [] {
      assert (a + b)[1..] == a[1..] + b;
      SlashedAppend(a[1..], b);
    } else {
      assert a + b == b;
    }
  }

  /** For a directory other than the root, a path inside it has its text as a prefix. */
  lemma InsideHasTextPrefix(dir: Segments, path: Segments)
    requires dir != [] && Inside(dir, path)
    ensures StartsWith(Text(path), Text(dir))
  {
    assert path == dir + path[|dir|..];
    SlashedAppend(dir, path[|dir|..]);
  }

  /** Without a ".." segment a walk never leaves the directory it starts from. */
  lemma {:induction false} WalkWithoutParentStaysInside(stack: Segments, parts: seq<string>)
    requires forall i :: 0 <= i < |parts| ==> parts[i] != ".."
    ensures Inside(stack, Walk(stack, parts))
    decreases |parts|
  {
    if parts != [] {
      var next := Step(stack, parts[0]);
      assert forall i :: 0 <= i < |parts[1..]| ==> parts[1..][i] == parts[i + 1];
      WalkWithoutParentStaysInside(next, parts[1..]);
    }
  }

  /** A name without "/" is a single segment. */
  lemma {:induction false} SplitWithoutSeparator(s: string, c: char)
    requires c !in s
    ensures Split(s, c) == [s]
  {
    if s != [] {
      SplitWithoutSeparator(s[1..], c);
      assert [s[0]] + s[1..] == s;
    }
  }
}
