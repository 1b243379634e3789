/**
 * The breadcrumb trail (src/components/ui/Breadcrumb.jsx): the crumbs built
 * from the current path, which crumbs are links, and when the trail is shown.
 */
module Breadcrumb {
  import opened Wrappers
  import Text

  /** One crumb; the title is missing (`undefined`) when neither the map nor a segment gives one. */
  datatype Crumb = Crumb(title: Option<string>, path: string)

  /** `pathMap`: the titles of the application's pages. */
  const PathMap: map<string, string> := map[
    "/dashboard" := "Dashboard",
    "/content-generation" := "Content Generation",
    "/model-management" := "Model Management",
    "/landing-page" := "Landing Page",
    "/authentication" := "Authentication",
    "/settings" := "Settings",
    "/help" := "Help"]

  const Home := Crumb(Some("Dashboard"), "/dashboard")

  /** `.filter(Boolean)` on strings: drops the empty ones and keeps the order. */
  function NonEmpty(parts: seq<string>): (r: seq<string>)
    ensures forall k | 0 <= k < |r| :: r[k] != ""
    ensures forall x :: x in r <==> x in parts && x != ""
    decreases |parts|
  {
    if |parts| == 0 then []
    else if parts[0] == "" then NonEmpty(parts[1..])
    else [parts[0]] + NonEmpty(parts[1..])
  }

  /** Each non-empty piece is kept as often as it occurs; the empty string not at all. */
  lemma {:induction false} NonEmptyCounts(parts: seq<string>)
    ensures multiset(NonEmpty(parts)) == multiset(parts)["" := 0]
    decreases |parts|
  {
    if |parts| > 0 {
      NonEmptyCounts(parts[1..]);
      assert parts == [parts[0]] + parts[1..];
      assert multiset(parts) == multiset{parts[0]} + multiset(parts[1..]);
    }
  }

  /** The pieces keep their order: filtering distributes over concatenation. */
  lemma {:induction false} NonEmptyAppend(a: seq<string>, b: seq<string>)
    ensures NonEmpty(a + b) == NonEmpty(a) + NonEmpty(b)
    decreases |a|
  {
    if |a| > 0 {
      NonEmptyAppend(a[1..], b);
      assert (a + b)[1..] == a[1..] + b;
    } else {
      assert a + b == b;
    }
  }

  /** Filtering a list without empty strings keeps it. */
  lemma {:induction false} NonEmptyKeeps(parts: seq<string>)
    requires forall k | 0 <= k < |parts| :: parts[k] != ""
    ensures NonEmpty(parts) == parts
    decreases |parts|
  {
    if |parts| > 0 {
      NonEmptyKeeps(parts[1..]);
    }
  }

  /** `pathname.split('/').filter(Boolean)`. */
  function Segments(pathname: string): (segs: seq<string>)
    ensures forall k | 0 <= k < |segs| :: segs[k] != "" && '/' !in segs[k]
  {
    var parts := Text.Split(pathname, '/');
    var segs := NonEmpty(parts);
    assert forall k | 0 <= k < |segs| :: segs[k] in parts;
    segs
  }

  /** `/${pathSegments.join('/')}`: repeated and trailing slashes are gone. */
  function CurrentPath(pathname: string): string {
    "/" + Text.Join(Segments(pathname), '/')
  }

  /** `pathMap[currentPath] || pathSegments[pathSegments.length - 1]`. */
  function Label(pathname: string): Option<string> {
    var path, segs := CurrentPath(pathname), Segments(pathname);
    if path in PathMap then Some(PathMap[path])
    else if |segs| > 0 then Some(segs[|segs| - 1])
    else None
  }

  /** `generateBreadcrumbs`. */
  function Breadcrumbs(pathname: string): seq<Crumb> {
    if pathname != "/dashboard" && CurrentPath(pathname) != "/dashboard"
    then [Home, Crumb(Label(pathname), CurrentPath(pathname))]
    else [Home]
  }

  /**
   * Normalising twice is normalising once: the normalised path has the same
   * segments as the original, so it is its own normal form.
   */
  lemma NormalisationIdempotent(pathname: string)
    ensures Segments(CurrentPath(pathname)) == Segments(pathname)
    ensures CurrentPath(CurrentPath(pathname)) == CurrentPath(pathname)
  {
    var segs := Segments(pathname);
    var joined := Text.Join(segs, '/');
    var p := "/" + joined;
    assert p[1..] == joined;
    if |segs| == 0 {
      assert Text.Split(p, '/') == [""] + Text.Split("", '/');
      assert Text.Split(p, '/') == ["", ""];
    } else {
      Text.SplitJoin(segs, '/');
      assert Text.Split(p, '/') == [""] + segs;
      NonEmptyKeeps(segs);
      assert ([""] + segs)[1..] == segs;
    }
  }

  /** The dashboard's own path normalises to itself. */
  lemma DashboardPath()
    ensures CurrentPath("/dashboard") == "/dashboard"
  {
    var rest := Text.Split("dashboard", '/');
    Text.SplitWithout("dashboard", '/');
    assert Text.Split("/dashboard", '/') == [""] + rest;
    assert NonEmpty([""] + ["dashboard"]) == NonEmpty(["dashboard"]);
    assert NonEmpty(["dashboard"]) == ["dashboard"];
  }

  /**
   * The trail starts at the dashboard and has one or two crumbs. The second is
   * there exactly when the normalised path is not the dashboard, and it points
   * at the normalised path with the mapped title or else the last segment.
   */
  lemma BreadcrumbsShape(pathname: string)
    ensures var crumbs := Breadcrumbs(pathname);
      && 1 <= |crumbs| <= 2
      && crumbs[0] == Home
      && (|crumbs| == 2 <==> CurrentPath(pathname) != "/dashboard")
      && (|crumbs| == 2 ==> crumbs[1] == Crumb(Label(pathname), CurrentPath(pathname)))
  {
    DashboardPath();
  }

  /** At the root `/` the trail has a second crumb with no label, pointing at `/`. */
  lemma RootHasUnlabelledCrumb()
    ensures Breadcrumbs("/") == [Home, Crumb(None, "/")]
  {
    assert Text.Split("/", '/') == [""] + Text.Split("", '/');
    assert NonEmpty(["", ""]) == [];
    assert CurrentPath("/") == "/";
  }

  /** The trail is rendered only with more than one crumb. */
  predicate Renders(crumbs: seq<Crumb>) {
    |crumbs| > 1
  }

  /** Crumb `i` is a button; the last crumb is plain text. */
  predicate Clickable(crumbs: seq<Crumb>, i: nat) {
    i != |crumbs| - 1
  }

  /** A rendered trail is two crumbs: the dashboard link and the current page as text. */
  lemma RenderedTrail(pathname: string)
    requires Renders(Breadcrumbs(pathname))
    ensures Clickable(Breadcrumbs(pathname), 0) && !Clickable(Breadcrumbs(pathname), 1)
    ensures CurrentPath(pathname) != "/dashboard"
  {
    BreadcrumbsShape(pathname);
  }
}
