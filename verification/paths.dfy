/** Unix path comparison as Rust's `std::path::Path` performs it.

    `PathBuf` equality does not compare bytes: it compares the sequences of
    components that `Path::components` yields. Splitting happens at `/`;
    empty pieces (repeated or trailing separators) and `.` pieces are dropped,
    except that a relative path that begins with `.` keeps one leading `CurDir`;
    `..` is kept as `ParentDir` and is never resolved. */
module Paths {

  type Path = string

  const Separator: char := '/'

  datatype Component = RootDir | CurDir | ParentDir | Normal(name: string)

  /** A name that `Path::components` can yield as a `Normal` component. */
  predicate NormalName(n: string) {
    n != "" && n != "." && n != ".." && Separator !in n
  }

  /** A component that may appear after the first position. */
  predicate BodyComponent(c: Component) {
    c.ParentDir? || (c.Normal? && NormalName(c.name))
  }

  /** The shape of every sequence `Components` yields: `RootDir` or `CurDir`
      only in front, every other component a body component. */
  predicate WellFormed(cs: seq<Component>) {
    && (forall k :: 0 < k < |cs| ==> BodyComponent(cs[k]))
    && (|cs| > 0 ==> cs[0] == RootDir || cs[0] == CurDir || BodyComponent(cs[0]))
  }

  /** Position of the first separator in `s`, or `|s|` when there is none. */
  function SeparatorIndex(s: string): (i: nat)
    ensures i <= |s|
    ensures i < |s| ==> s[i] == Separator
    ensures forall k :: 0 <= k < i ==> s[k] != Separator
  {
    if |s| == 0 then 0
    else if s[0] == Separator then 0
    else 1 + SeparatorIndex(s[1..])
  }

  /** The component (if any) contributed by one piece between separators. */
  function Piece(p: string): (r: seq<Component>)
    requires Separator !in p
    ensures |r| <= 1
    ensures |r| == 0 <==> p == "" || p == "."
    ensures forall c :: c in r ==> BodyComponent(c)
  {
    if p == "" || p == "." then []
    else if p == ".." then [ParentDir]
    else [Normal(p)]
  }

  /** The components of the part of a path after its optional root or leading `.`. */
  function Body(s: string): (r: seq<Component>)
    ensures forall k :: 0 <= k < |r| ==> BodyComponent(r[k])
    decreases |s|
  {
    var i := SeparatorIndex(s);
    if i == |s| then Piece(s)
    else Piece(s[..i]) + Body(s[i + 1..])
  }

  predicate HasRoot(p: Path) {
    |p| > 0 && p[0] == Separator
  }

  /** A relative path that is `.` or begins with `./` keeps a leading `CurDir`. */
  predicate StartsWithCurDir(p: Path) {
    !HasRoot(p) && |p| > 0 && p[0] == '.' && (|p| == 1 || p[1] == Separator)
  }

  /** `Path::components` on Unix. */
  function Components(p: Path): (r: seq<Component>)
    ensures WellFormed(r)
    ensures HasRoot(p) <==> |r| > 0 && r[0] == RootDir
    ensures StartsWithCurDir(p) <==> |r| > 0 && r[0] == CurDir
  {
    if HasRoot(p) then [RootDir] + Body(p[1..])
    else if StartsWithCurDir(p) then [CurDir] + Body(p[1..])
    else Body(p)
  }

  /** `Path` equality: same components. */
  predicate PathEq(a: Path, b: Path) {
    Components(a) == Components(b)
  }

  function ComponentText(c: Component): string
    requires BodyComponent(c)
  {
    if c.ParentDir? then ".." else c.name
  }

  /** Joins body components with single separators. */
  function JoinBody(cs: seq<Component>): string
    requires forall k :: 0 <= k < |cs| ==> BodyComponent(cs[k])
  {
    if |cs| == 0 then ""
    else if |cs| == 1 then ComponentText(cs[0])
    else ComponentText(cs[0]) + [Separator] + JoinBody(cs[1..])
  }

  /** A canonical spelling with these components: single separators, no
      trailing separator, and `./` in front when the first component is `CurDir`. */
  function Render(cs: seq<Component>): Path
    requires WellFormed(cs)
  {
    if |cs| == 0 then ""
    else if cs[0] == RootDir then [Separator] + JoinBody(cs[1..])
    else if cs[0] == CurDir then ['.', Separator] + JoinBody(cs[1..])
    else JoinBody(cs)
  }

  lemma SeparatorIndexAfter(a: string, b: string)
    requires Separator !in a
    ensures SeparatorIndex(a + [Separator] + b) == |a|
  {
    var s := a + [Separator] + b;
    assert forall k :: 0 <= k < |a| ==> s[k] == a[k];
    assert s[|a|] == Separator;
  }

  /** A piece followed by a separator contributes its component, then the rest is split. */
  lemma BodyCons(t: string, rest: string)
    requires Separator !in t
    ensures Body(t + [Separator] + rest) == Piece(t) + Body(rest)
  {
    var s := t + [Separator] + rest;
    SeparatorIndexAfter(t, rest);
    assert s[..|t|] == t;
    assert s[|t| + 1..] == rest;
  }

  /** A string without separators is a single piece. */
  lemma BodySingle(t: string)
    requires Separator !in t
    ensures Body(t) == Piece(t)
  {
    assert forall k :: 0 <= k < |t| ==> t[k] in t;
  }

  lemma PieceOfText(c: Component)
    requires BodyComponent(c)
    ensures Piece(ComponentText(c)) == [c]
  {
  }

  /** A body component followed by a separator is split back off the front. */
  lemma BodyConsComponent(c: Component, tail: string)
    requires BodyComponent(c)
    ensures Body(ComponentText(c) + [Separator] + tail) == [c] + Body(tail)
  {
    BodyCons(ComponentText(c), tail);
    PieceOfText(c);
  }

  /** One step of `BodyOfJoin`: the head component in front of an already split tail. */
  lemma BodyOfJoinStep(cs: seq<Component>)
    requires forall k :: 0 <= k < |cs| ==> BodyComponent(cs[k])
    requires |cs| > 1
    requires Body(JoinBody(cs[1..])) == cs[1..]
    ensures Body(JoinBody(cs)) == cs
  {
    BodyConsComponent(cs[0], JoinBody(cs[1..]));
    assert cs == [cs[0]] + cs[1..];
  }

  /** Splitting a joined body gives back the components that were joined. */
  lemma {:induction false} BodyOfJoin(cs: seq<Component>)
    requires forall k :: 0 <= k < |cs| ==> BodyComponent(cs[k])
    ensures Body(JoinBody(cs)) == cs
    decreases |cs|
  {
    if |cs| == 0 {
      BodySingle("");
    } else if |cs| == 1 {
      BodySingle(ComponentText(cs[0]));
      PieceOfText(cs[0]);
    } else {
      BodyOfJoin(cs[1..]);
      BodyOfJoinStep(cs);
    }
  }

  /** A joined body never starts like a rooted path or a `./` path. */
  lemma JoinBodyHead(cs: seq<Component>)
    requires forall k :: 0 <= k < |cs| ==> BodyComponent(cs[k])
    requires |cs| > 0
    ensures var s := JoinBody(cs);
      |s| > 0 && s[0] != Separator && (s[0] == '.' ==> |s| >= 2 && s[1] != Separator)
  {
    var t := ComponentText(cs[0]);
    assert t[0] in t;
    if |t| >= 2 {
      assert t[1] in t;
    }
    if |cs| > 1 {
      var s := JoinBody(cs);
      assert s == t + [Separator] + JoinBody(cs[1..]);
      assert s[0] == t[0];
      assert |t| >= 2 ==> s[1] == t[1];
    }
  }

  lemma RenderRooted(cs: seq<Component>)
    requires WellFormed(cs) && |cs| > 0 && cs[0] == RootDir
    ensures Components(Render(cs)) == cs
  {
    var p := Render(cs);
    assert HasRoot(p);
    assert p[1..] == JoinBody(cs[1..]);
    BodyOfJoin(cs[1..]);
    assert cs == [cs[0]] + cs[1..];
  }

  /** A leading separator in a body contributes nothing. */
  lemma BodyLeadingSeparator(rest: string)
    ensures Body([Separator] + rest) == Body(rest)
  {
    BodyCons("", rest);
    assert "" + [Separator] + rest == [Separator] + rest;
  }

  /** A path spelled `./rest` is `CurDir` followed by the components of `rest`. */
  lemma ComponentsDotSlash(rest: string)
    ensures Components(['.', Separator] + rest) == [CurDir] + Body(rest)
  {
    var p := ['.', Separator] + rest;
    assert StartsWithCurDir(p);
    assert p[1..] == [Separator] + rest;
    BodyLeadingSeparator(rest);
  }

  lemma RenderCurDir(cs: seq<Component>)
    requires WellFormed(cs) && |cs| > 0 && cs[0] == CurDir
    ensures Components(Render(cs)) == cs
  {
    ComponentsDotSlash(JoinBody(cs[1..]));
    BodyOfJoin(cs[1..]);
    assert cs == [CurDir] + cs[1..];
  }

  lemma RenderRelative(cs: seq<Component>)
    requires WellFormed(cs) && |cs| > 0 && cs[0] != RootDir && cs[0] != CurDir
    ensures Components(Render(cs)) == cs
  {
    assert forall k :: 0 <= k < |cs| ==> BodyComponent(cs[k]);
    JoinBodyHead(cs);
    BodyOfJoin(cs);
  }

  /** Rendering and then splitting is the identity on well-formed sequences:
      every well-formed sequence is the component list of some path. */
  lemma ComponentsOfRender(cs: seq<Component>)
    requires WellFormed(cs)
    ensures Components(Render(cs)) == cs
  {
    if |cs| == 0 {
      BodySingle("");
    } else if cs[0] == RootDir {
      RenderRooted(cs);
    } else if cs[0] == CurDir {
      RenderCurDir(cs);
    } else {
      RenderRelative(cs);
    }
  }

  /** `Render` picks a representative of each `Path` equality class:
      the rendering of a path's components is equal to the path. */
  lemma RenderIsPathEqual(p: Path)
    ensures PathEq(Render(Components(p)), p)
  {
    ComponentsOfRender(Components(p));
  }

  lemma {:induction false} BodyTrailingSeparator(s: string)
    ensures Body(s + [Separator]) == Body(s)
    decreases |s|
  {
    var t := s + [Separator];
    var i := SeparatorIndex(s);
    if i == |s| {
      SeparatorIndexAfter(s, "");
      assert s + [Separator] + "" == t;
      assert t[..|s|] == s;
      assert t[|s| + 1..] == "";
      assert Body("") == Piece("");
    } else {
      assert forall k :: 0 <= k < |s| ==> t[k] == s[k];
      assert t[i] == Separator;
      assert SeparatorIndex(t) == i;
      assert t[..i] == s[..i];
      assert t[i + 1..] == s[i + 1..] + [Separator];
      BodyTrailingSeparator(s[i + 1..]);
    }
  }

  /** A trailing separator does not change a non-empty path. */
  lemma TrailingSeparatorIgnored(p: Path)
    requires p != ""
    ensures PathEq(p + [Separator], p)
  {
    var q := p + [Separator];
    assert q[0] == p[0];
    assert |p| >= 2 ==> q[1] == p[1];
    assert q[1..] == p[1..] + [Separator];
    BodyTrailingSeparator(p[1..]);
    BodyTrailingSeparator(p);
  }
}
