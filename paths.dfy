/** `pathlib.PurePosixPath`: a path is its root (absolute or not) and its
    parts.  Parsing drops empty and "." components, so the parts of a parsed
    path never contain '/', "" or "."; `str` writes the root and the parts
    back with '/' between them. */
module Paths {
  import opened Text

  datatype Path = Path(absolute: bool, parts: seq<string>)

  /** A part as `pathlib` keeps it. */
  predicate GoodPart(p: string) {
    p != "" && p != "." && '/' !in p
  }

  predicate Canonical(p: Path) {
    forall k :: 0 <= k < |p.parts| ==> GoodPart(p.parts[k])
  }

  /** The components `pathlib` keeps, in order. */
  function Clean(components: seq<string>): (r: seq<string>)
    ensures forall k :: 0 <= k < |r| ==> r[k] in components && r[k] != "" && r[k] != "."
    ensures forall c :: c in components && c != "" && c != "." ==> c in r
  {
    if components == [] then []
    else if components[0] == "" || components[0] == "." then Clean(components[1..])
    else [components[0]] + Clean(components[1..])
  }

  lemma SplitPartsNoSlash(s: string)
    ensures forall k :: 0 <= k < |Split(s, '/')| ==> '/' !in Split(s, '/')[k]
    decreases |s|
  {
    if '/' in s {
      var i := FirstIndexOf(s, '/');
      SplitPartsNoSlash(s[i + 1..]);
    }
  }

  /** `PurePosixPath(s)`; a leading "//", which `pathlib` keeps as a root
      of its own, is read as the single root "/". */
  function FromString(s: string): (p: Path)
    ensures Canonical(p)
    ensures p.absolute <==> StartsWith(s, "/")
  {
    SplitPartsNoSlash(s);
    Path(StartsWith(s, "/"), Clean(Split(s, '/')))
  }

  /** `str(p)`: "." for the empty relative path, so never empty, and a
      leading '/' exactly for an absolute path. */
  function ToString(p: Path): (s: string)
    ensures Canonical(p) ==> s != "" && (p.absolute <==> s[0] == '/')
  {
    if p.absolute then "/" + Join(p.parts, "/")
    else if p.parts == [] then "."
    else JoinHead(p.parts, "/"); Join(p.parts, "/")
  }

  /** A joined text starts with its first part. */
  lemma JoinHead(parts: seq<string>, sep: string)
    requires |parts| >= 1
    ensures |Join(parts, sep)| >= |parts[0]| && Join(parts, sep)[..|parts[0]|] == parts[0]
  {
  }

  /** `p / rel`: an absolute right-hand side replaces the left one;
      otherwise the parts are appended. */
  function Div(p: Path, rel: string): (r: Path)
    ensures Canonical(p) ==> Canonical(r)
  {
    var q := FromString(rel);
    if q.absolute then q else Path(p.absolute, p.parts + q.parts)
  }

  /** `p.name`: the last part, "" when there is none. */
  function Name(p: Path): string {
    if p.parts == [] then "" else p.parts[|p.parts| - 1]
  }

  lemma {:induction false} CleanGood(parts: seq<string>)
    requires forall k :: 0 <= k < |parts| ==> GoodPart(parts[k])
    ensures Clean(parts) == parts
  {
    if parts != [] {
      CleanGood(parts[1..]);
    }
  }

  lemma SplitLeadingSlash(t: string)
    ensures Split("/" + t, '/') == [""] + Split(t, '/')
  {
    var s := "/" + t;
    assert FirstIndexOf(s, '/') == 0;
    assert s[1..] == t;
  }

  lemma {:induction false} JoinNotStartingWithSlash(parts: seq<string>)
    requires |parts| >= 1 && GoodPart(parts[0])
    ensures !StartsWith(Join(parts, "/"), "/")
  {
    if |parts| > 1 {
      assert Join(parts, "/") == parts[0] + "/" + Join(parts[1..], "/");
    }
    assert Join(parts, "/")[0] == parts[0][0];
    assert parts[0][0] in parts[0];
  }

  /** Parsing what `str` wrote gives the path back. */
  lemma ToStringRoundTrip(p: Path)
    requires Canonical(p)
    ensures FromString(ToString(p)) == p
  {
    if p.parts == [] {
      if p.absolute {
        assert ToString(p) == "/" + "";
        SplitLeadingSlash("");
        assert Split("", '/') == [""];
        assert Clean(["", ""]) == Clean([""]) == Clean([]);
        assert StartsWith("/", "/");
      } else {
        assert '/' !in ".";
        assert Split(".", '/') == ["."];
        assert Clean(["."]) == Clean([]);
        assert "."[..1][0] == '.';
      }
    } else {
      SplitJoin(p.parts, '/');
      CleanGood(p.parts);
      if p.absolute {
        SplitLeadingSlash(Join(p.parts, "/"));
        assert Clean([""] + p.parts) == Clean(p.parts);
      } else {
        JoinNotStartingWithSlash(p.parts);
      }
    }
  }

  /** A relative right-hand side with at least one part names the joined
      path; an absolute one replaces the left-hand side. */
  lemma DivName(p: Path, rel: string)
    requires FromString(rel).parts != []
    ensures Name(Div(p, rel)) == Name(FromString(rel))
    ensures FromString(rel).absolute ==> Div(p, rel) == FromString(rel)
    ensures !FromString(rel).absolute ==> Div(p, rel).parts == p.parts + FromString(rel).parts
  {
  }

  /** A single good part parses to a relative path of that part. */
  lemma FromStringPart(s: string)
    requires GoodPart(s)
    ensures FromString(s) == Path(false, [s])
  {
    assert Split(s, '/') == [s];
    assert [s][1..] == [];
    assert Clean([s]) == [s];
    assert s[0] in s;
    assert s[..1] == [s[0]];
  }

  /** What `str` writes in front of a part appended to `p`. */
  function Prefix(p: Path): string {
    if p.parts == [] then (if p.absolute then "/" else "") else ToString(p) + "/"
  }

  /** `str(p / name)` for a single good part is `str(p)`, a slash and the
      part (without doubling the root "/" and without the "." of the empty
      relative path). */
  lemma ToStringDiv(p: Path, name: string)
    requires GoodPart(name)
    ensures Div(p, name).parts == p.parts + [name] && Div(p, name).absolute == p.absolute
    ensures ToString(Div(p, name)) == Prefix(p) + name
  {
    ChildDiv(p, name);
    ToStringChild(p, name);
  }

  /** `p / name` for a name that is a single part: the name appended. */
  function Child(p: Path, name: string): Path {
    Path(p.absolute, p.parts + [name])
  }

  /** For a single good part, appending it is what `p / name` does. */
  lemma ChildDiv(p: Path, name: string)
    requires GoodPart(name)
    ensures Child(p, name) == Div(p, name)
  {
    FromStringPart(name);
  }

  lemma ToStringChild(p: Path, name: string)
    ensures ToString(Child(p, name)) == Prefix(p) + name
  {
    if p.parts != [] {
      JoinSnoc(p.parts, name, "/");
    } else {
      assert p.parts + [name] == [name];
    }
  }
}
