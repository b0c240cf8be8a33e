/**
 * The slice of `pathlib.PurePosixPath` the wrapper relies on: building a path from
 * a string, printing it, `.parent` and the `/` operator.
 */
module Paths {

  /**
   * The root of a POSIX path: none, "/", or "//". POSIX leaves a path that starts
   * with exactly two slashes implementation-defined, so pathlib keeps that root as
   * it is; one slash, or three or more, is the ordinary root "/".
   */
  datatype Root = NoRoot | Slash | DoubleSlash

  function RootText(r: Root): string
  {
    match r
    case NoRoot => ""
    case Slash => "/"
    case DoubleSlash => "//"
  }

  /** A path is a root and its components; `Path('./YOLOX')` is `PurePath(NoRoot, ["YOLOX"])`. */
  datatype PurePath = PurePath(root: Root, parts: seq<string>)

  predicate Absolute(p: PurePath) { p.root != NoRoot }

  /** pathlib drops empty and "." components and never keeps a '/' inside one. */
  predicate Component(c: string) { c != "" && c != "." && '/' !in c }

  predicate WellFormed(p: PurePath) { forall i :: 0 <= i < |p.parts| ==> Component(p.parts[i]) }

  /** The pieces of `s` between slashes, like Python's `s.split('/')`. */
  function Segments(s: string): (r: seq<string>)
    ensures |r| >= 1
    ensures forall i :: 0 <= i < |r| ==> '/' !in r[i]
    decreases |s|
  {
    if s == [] then [""]
    else
      var rest := Segments(s[1..]);
      if s[0] == '/' then [""] + rest else [[s[0]] + rest[0]] + rest[1..]
  }

  predicate NoSlashes(segs: seq<string>) { forall i :: 0 <= i < |segs| ==> '/' !in segs[i] }

  function Keep(segs: seq<string>): (r: seq<string>)
    requires NoSlashes(segs)
    ensures forall i :: 0 <= i < |r| ==> Component(r[i])
  {
    if segs == [] then []
    else if segs[0] == "" || segs[0] == "." then Keep(segs[1..])
    else [segs[0]] + Keep(segs[1..])
  }

  /** The root `Path(s)` takes from the slashes that start `s`. */
  function RootOf(s: string): Root
  {
    if |s| == 0 || s[0] != '/' then NoRoot
    else if |s| >= 2 && s[1] == '/' && (|s| == 2 || s[2] != '/') then DoubleSlash
    else Slash
  }

  /** `Path(s)` for a string `s`. */
  function Parse(s: string): (p: PurePath)
    ensures WellFormed(p)
  {
    PurePath(RootOf(s), Keep(Segments(s)))
  }

  function JoinParts(parts: seq<string>): string
  {
    if parts == [] then "" else if |parts| == 1 then parts[0] else parts[0] + "/" + JoinParts(parts[1..])
  }

  /** `str(p)`: the root, then the components joined by "/"; "." for the empty relative path. */
  function Render(p: PurePath): string
  {
    if p.root == NoRoot && p.parts == [] then "."
    else RootText(p.root) + JoinParts(p.parts)
  }

  /** `p.parent`: the path without its last component; a bare root and "." are their own parents. */
  function Parent(p: PurePath): (q: PurePath)
    ensures q.root == p.root
    ensures p.parts != [] ==> q.parts + [p.parts[|p.parts| - 1]] == p.parts
    ensures p.parts == [] ==> q == p
  {
    if p.parts == [] then p else PurePath(p.root, p.parts[..|p.parts| - 1])
  }

  /** `p / q`: a right operand with a root replaces the left one. */
  function Join(p: PurePath, q: PurePath): (r: PurePath)
    ensures WellFormed(p) && WellFormed(q) ==> WellFormed(r)
    ensures Absolute(q) ==> r == q
    ensures !Absolute(q) ==> r.root == p.root && r.parts == p.parts + q.parts
  {
    if Absolute(q) then q else PurePath(p.root, p.parts + q.parts)
  }

  lemma {:induction false} SegmentsOfPrefix(a: string, t: string)
    requires '/' !in a
    ensures Segments(a + t) == [a + Segments(t)[0]] + Segments(t)[1..]
    decreases |a|
  {
    if a != [] {
      assert (a + t)[1..] == a[1..] + t;
      SegmentsOfPrefix(a[1..], t);
      assert [a[0]] + (a[1..] + Segments(t)[0]) == a + Segments(t)[0];
    } else {
      assert a + t == t;
      assert a + Segments(t)[0] == Segments(t)[0];
    }
  }

  lemma {:induction false} SegmentsOfJoin(parts: seq<string>)
    requires parts != []
    requires forall i :: 0 <= i < |parts| ==> '/' !in parts[i]
    ensures Segments(JoinParts(parts)) == parts
    decreases |parts|
  {
    if |parts| == 1 {
      SegmentsOfPrefix(parts[0], "");
      assert parts[0] + "" == parts[0];
    } else {
      var rest := JoinParts(parts[1..]);
      assert parts[0] + "/" + rest == parts[0] + ("/" + rest);
      SegmentsOfPrefix(parts[0], "/" + rest);
      assert ("/" + rest)[1..] == rest;
      SegmentsOfJoin(parts[1..]);
      assert parts[0] + "" == parts[0];
    }
  }

  lemma {:induction false} KeepComponents(parts: seq<string>)
    requires forall i :: 0 <= i < |parts| ==> Component(parts[i])
    ensures NoSlashes(parts) && Keep(parts) == parts
    decreases |parts|
  {
    if parts != [] {
      KeepComponents(parts[1..]);
    }
  }

  lemma JoinPartsStart(parts: seq<string>)
    requires parts != [] && Component(parts[0])
    ensures JoinParts(parts) != [] && JoinParts(parts)[0] == parts[0][0]
  {
  }

  lemma SegmentsAfterSlash(t: string)
    ensures Segments("/" + t) == [""] + Segments(t)
  {
    assert ("/" + t)[1..] == t;
  }

  lemma KeepAfterEmpty(segs: seq<string>)
    requires NoSlashes(segs)
    ensures NoSlashes([""] + segs) && Keep([""] + segs) == Keep(segs)
  {
    assert ([""] + segs)[1..] == segs;
  }

  /** The components of a printed path are the ones it was printed from. */
  lemma KeepOfJoin(parts: seq<string>)
    requires WellFormed(PurePath(NoRoot, parts))
    ensures Keep(Segments(JoinParts(parts))) == parts
  {
    if parts == [] {
      assert Segments("") == [""];
      assert Keep([""]) == Keep([]);
    } else {
      SegmentsOfJoin(parts);
      KeepComponents(parts);
    }
  }

  /** The root text in front of the joined components adds no component. */
  lemma KeepOfRooted(r: Root, parts: seq<string>)
    requires WellFormed(PurePath(r, parts))
    ensures Keep(Segments(RootText(r) + JoinParts(parts))) == parts
  {
    var j := JoinParts(parts);
    KeepOfJoin(parts);
    match r
    case NoRoot =>
      assert RootText(r) + j == j;
    case Slash =>
      SegmentsAfterSlash(j);
      KeepAfterEmpty(Segments(j));
    case DoubleSlash =>
      assert RootText(r) + j == "/" + ("/" + j);
      SegmentsAfterSlash("/" + j);
      SegmentsAfterSlash(j);
      KeepAfterEmpty(Segments(j));
      KeepAfterEmpty([""] + Segments(j));
  }

  /** Printing a well-formed path and building a path from that text gives the path back. */
  lemma ParseRender(p: PurePath)
    requires WellFormed(p)
    ensures Parse(Render(p)) == p
  {
    var s := Render(p);
    if p.root == NoRoot && p.parts == [] {
      assert s == ".";
      assert s[1..] == [] && Segments(s[1..]) == [""];
      assert Segments(s) == [[s[0]] + ""] + [];
      assert [s[0]] + "" == ".";
      assert Keep(["."]) == Keep([]);
    } else {
      KeepOfRooted(p.root, p.parts);
      var j := JoinParts(p.parts);
      if p.parts != [] {
        JoinPartsStart(p.parts);
        assert j[0] != '/';
      }
      assert s == RootText(p.root) + j;
      assert RootOf(s) == p.root;
    }
  }

  /** `str(Path(s))` is a normal form: building a path from it again changes nothing. */
  lemma RenderNormalizes(s: string)
    ensures Parse(Render(Parse(s))) == Parse(s)
  {
    ParseRender(Parse(s));
  }

  /**
   * Exactly two leading slashes are kept as a root of their own and printed back;
   * three or more are the ordinary root.
   */
  lemma DoubleSlashRootKept(c: string)
    requires Component(c)
    ensures Parse("//" + c) == PurePath(DoubleSlash, [c])
    ensures Render(Parse("//" + c)) == "//" + c
    ensures Parse("///" + c) == PurePath(Slash, [c])
  {
    ParseRender(PurePath(DoubleSlash, [c]));
    assert Render(PurePath(DoubleSlash, [c])) == "//" + c;
    ParseRender(PurePath(Slash, [c]));
    var s := "///" + c;
    assert s == "/" + ("//" + c);
    SegmentsAfterSlash("//" + c);
    KeepAfterEmpty(Segments("//" + c));
  }

  /** A string without slashes, ".", or emptiness is a one-component relative path. */
  lemma ParseComponent(c: string)
    requires Component(c)
    ensures Parse(c) == PurePath(NoRoot, [c])
  {
    SegmentsOfPrefix(c, "");
    assert c + "" == c;
    assert Segments(c) == [c];
    assert Keep([c]) == [c] + Keep([]);
  }
}
