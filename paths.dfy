/**
 * The part of Python's pathlib (PurePosixPath) the scripts use: building a path
 * from a string, str() of a path, the `/` operator and `.parent`.
 */
module Paths {
  import opened Text

  /** A path as pathlib keeps it: whether it is rooted, and its components. */
  datatype PurePath = PurePath(absolute: bool, parts: seq<string>)

  /** A component as pathlib keeps it: not empty, not ".", without a slash. */
  predicate IsPart(s: string) {
    s != "" && s != "." && '/' !in s
  }

  predicate Normal(p: PurePath) {
    forall i :: 0 <= i < |p.parts| ==> IsPart(p.parts[i])
  }

  /** The pieces of s between slashes, with the empty and "." pieces dropped. */
  function Components(s: string): (r: seq<string>)
    ensures forall i :: 0 <= i < |r| ==> IsPart(r[i])
    decreases |s|
  {
    if s == [] then [] else
      var seg := Before(s, '/');
      var rest := if |seg| < |s| then s[|seg| + 1..] else [];
      var here: seq<string> := if seg == "" || seg == "." then [] else [seg];
      here + Components(rest)
  }

  /** PurePosixPath(s). */
  function Parse(s: string): (p: PurePath)
    ensures Normal(p)
    ensures p.absolute <==> StartsWith(s, "/")
  {
    PurePath(StartsWith(s, "/"), Components(s))
  }

  /** str(p): "." for the empty relative path. */
  function Str(p: PurePath): string {
    if p.absolute then "/" + Join("/", p.parts)
    else if p.parts == [] then "."
    else Join("/", p.parts)
  }

  /** p / s: the components of s appended, unless s is absolute, which replaces p. */
  function Concat(p: PurePath, s: string): (r: PurePath)
    ensures Normal(p) ==> Normal(r)
    ensures StartsWith(s, "/") ==> r == Parse(s)
    ensures !StartsWith(s, "/") ==> r.absolute == p.absolute && r.parts == p.parts + Components(s)
  {
    var q := Parse(s);
    if q.absolute then q else PurePath(p.absolute, p.parts + q.parts)
  }

  /** p.parent: the last component dropped; the empty path is its own parent. */
  function Parent(p: PurePath): (r: PurePath)
    ensures r.absolute == p.absolute
    ensures Normal(p) ==> Normal(r)
    ensures p.parts != [] ==> r.parts + [p.parts[|p.parts| - 1]] == p.parts
    ensures p.parts == [] ==> r == p
  {
    if p.parts == [] then p else PurePath(p.absolute, p.parts[..|p.parts| - 1])
  }

  lemma {:induction false} BeforeOfJoined(x: string, rest: string)
    requires '/' !in x
    ensures rest != [] && rest[0] == '/' ==> Before(x + rest, '/') == x
    ensures rest == [] ==> Before(x + rest, '/') == x
    decreases |x|
  {
    if x != [] {
      assert (x + rest)[0] == x[0];
      assert (x + rest)[1..] == x[1..] + rest;
      BeforeOfJoined(x[1..], rest);
      assert [x[0]] + x[1..] == x;
    } else {
      assert x + rest == rest;
    }
  }

  lemma {:induction false} ComponentsCons(x: string, rest: string)
    requires IsPart(x)
    ensures Components(x + "/" + rest) == [x] + Components(rest)
  {
    var s := x + "/" + rest;
    assert s == x + ("/" + rest);
    BeforeOfJoined(x, "/" + rest);
    assert s[|x| + 1..] == rest;
  }

  lemma {:induction false} ComponentsOfPart(x: string)
    requires IsPart(x)
    ensures Components(x) == [x]
  {
    assert x + "" == x;
    BeforeOfJoined(x, "");
    assert Components([]) == [];
  }

  lemma {:induction false} ComponentsJoin(parts: seq<string>)
    requires forall i :: 0 <= i < |parts| ==> IsPart(parts[i])
    ensures Components(Join("/", parts)) == parts
    decreases |parts|
  {
    if |parts| == 1 {
      ComponentsOfPart(parts[0]);
      ConsTail(parts);
    } else if |parts| > 1 {
      var tail := parts[1..];
      forall i | 0 <= i < |tail| ensures IsPart(tail[i]) {
        assert tail[i] == parts[i + 1];
      }
      ComponentsJoin(tail);
      ComponentsCons(parts[0], Join("/", tail));
      ConsTail(parts);
    }
  }

  lemma {:induction false} JoinedNotRooted(parts: seq<string>)
    requires |parts| > 0 && IsPart(parts[0])
    ensures !StartsWith(Join("/", parts), "/")
  {
    JoinStartsWith("/", parts);
  }

  /** PurePosixPath(str(p)) == p for every normalised path. */
  lemma {:induction false} ParseStr(p: PurePath)
    requires Normal(p)
    ensures Parse(Str(p)) == p
  {
    var j := Join("/", p.parts);
    ComponentsJoin(p.parts);
    if p.absolute {
      var s := "/" + j;
      assert Before(s, '/') == "";
      assert s[1..] == j;
      assert Components(s) == Components(j);
    } else if p.parts == [] {
      assert Before(".", '/') == ".";
      assert Components(".") == [];
    } else {
      JoinedNotRooted(p.parts);
    }
  }
}
