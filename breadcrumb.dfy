/** The breadcrumb trail of the top bar: "Home", then one crumb per path
    segment, each linking to the path up to and including that segment;
    the last crumb is the current page and is not a link. */
module Breadcrumb {
  import opened Common

  datatype Crumb = Crumb(name: string, href: string)

  const HomeCrumb := Crumb("Home", "/")

  /** `s.charAt(0).toUpperCase() + s.slice(1)`. */
  function Capitalize(s: string): (r: string)
    ensures |r| == |s|
    ensures s != [] ==> r[0] == UpperChar(s[0]) && r[1..] == s[1..]
  {
    if s == [] then [] else [UpperChar(s[0])] + s[1..]
  }

  /** The readable name of a segment: a few fixed names, else capitalized. */
  function SegmentName(segment: string): string
  {
    if segment == "ssh-connection" then "SSH Connection"
    else if segment == "first-setup" then "First Setup"
    else if segment == "quick-start" then "Quick Start"
    else if segment == "vps" then "VPS"
    else if segment == "docs" then "Documentation"
    else Capitalize(segment)
  }

  lemma SegmentNames()
    ensures SegmentName("docs") == "Documentation"
    ensures SegmentName("store") == "Store"
    ensures SegmentName("vps") == "VPS"
  {
    assert Capitalize("store") == "Store";
  }

  /** The path accumulated over the first segments: "/" before each. */
  function PathOf(segments: seq<string>): (r: string)
    ensures |r| >= |segments|
  {
    if segments == [] then ""
    else PathOf(segments[..|segments| - 1]) + "/" + segments[|segments| - 1]
  }

  /** The accumulated path is the slash-joined segments after a leading
      slash. */
  lemma {:induction false} PathOfIsJoin(segments: seq<string>)
    requires |segments| >= 1
    ensures PathOf(segments) == "/" + Join(segments, '/')
    decreases |segments|
  {
    if |segments| > 1 {
      var init := segments[..|segments| - 1];
      PathOfIsJoin(init);
      JoinSnoc(init, segments[|segments| - 1], '/');
      assert init + [segments[|segments| - 1]] == segments;
    }
  }

  lemma {:induction false} JoinSnoc(parts: seq<string>, last: string, sep: char)
    requires |parts| >= 1
    ensures Join(parts + [last], sep) == Join(parts, sep) + [sep] + last
    decreases |parts|
  {
    if |parts| == 1 {
      assert parts + [last] == [parts[0], last];
    } else {
      assert (parts + [last])[1..] == parts[1..] + [last];
      JoinSnoc(parts[1..], last, sep);
    }
  }

  /** The first `k` crumbs after "Home" are those of the first `k` segments. */
  predicate TrailUpTo(segs: seq<string>, items: seq<Crumb>, k: nat)
  {
    k <= |segs| && |items| == k + 1 && items[0] == HomeCrumb
    && forall j :: 0 <= j < k ==> items[j + 1] == Crumb(SegmentName(segs[j]), PathOf(segs[..j + 1]))
  }

  lemma TrailStep(segs: seq<string>, items: seq<Crumb>, k: nat)
    requires k < |segs| && TrailUpTo(segs, items, k)
    ensures PathOf(segs[..k + 1]) == PathOf(segs[..k]) + "/" + segs[k]
    ensures TrailUpTo(segs, items + [Crumb(SegmentName(segs[k]), PathOf(segs[..k + 1]))], k + 1)
  {
    assert segs[..k + 1][..k] == segs[..k];
  }

  /** The trail of a pathname. */
  method Trail(pathname: string) returns (items: seq<Crumb>)
    ensures var segs := PathSegments(pathname);
      |items| == |segs| + 1 && items[0] == HomeCrumb
      && forall k :: 0 <= k < |segs| ==> items[k + 1] == Crumb(SegmentName(segs[k]), PathOf(segs[..k + 1]))
  {
    var segs := PathSegments(pathname);
    items := [HomeCrumb];
    var currentPath := "";
    var k := 0;
    while k < |segs|
      invariant k <= |segs|
      invariant TrailUpTo(segs, items, k)
      invariant currentPath == PathOf(segs[..k])
    {
      TrailStep(segs, items, k);
      currentPath := currentPath + "/" + segs[k];
      var crumb := Crumb(SegmentName(segs[k]), currentPath);
      items := items + [crumb];
      k := k + 1;
    }
  }

  /** Path lengths grow with every segment, so no two crumbs share an href
      (which the trail uses as its keys). */
  lemma {:induction false} CrumbHrefsGrow(segs: seq<string>, i: nat, j: nat)
    requires forall k :: 0 <= k < |segs| ==> segs[k] != ""
    requires i < j <= |segs|
    ensures |PathOf(segs[..i])| + 2 * (j - i) <= |PathOf(segs[..j])|
    decreases j - i
  {
    if i + 1 < j {
      CrumbHrefsGrow(segs, i, j - 1);
    }
    assert segs[..j][..j - 1] == segs[..j - 1];
    assert segs[..j][j - 1] == segs[j - 1];
  }

  /** For a pathname without doubled or trailing slashes, the last crumb
      leads to the pathname itself. */
  lemma LastCrumbIsCurrentPage(segments: seq<string>)
    requires |segments| >= 1
    requires forall i :: 0 <= i < |segments| ==> segments[i] != "" && '/' !in segments[i]
    ensures var pathname := "/" + Join(segments, '/');
      PathOf(PathSegments(pathname)) == pathname
  {
    PathSegmentsRoundTrip(segments);
    PathOfIsJoin(segments);
  }

  /** A crumb is a link unless it is the last. */
  predicate IsLink(items: seq<Crumb>, index: nat)
  {
    index < |items| - 1
  }
}
