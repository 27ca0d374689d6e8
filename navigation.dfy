/** The shared header's path helpers: the base path of the current page, site-relative link
    building, the trailing-slash step of pathname normalisation, the active-link rule and
    home-page detection. The current pathname, which the page reads from `window.location`,
    is a parameter here. */
module Navigation {
  import opened Strings

  const HTML_DIR: string := "/html/"
  const UP: string := "../"
  const HERE: string := "./"
  const INDEX: string := "index.html"

  /** `getBasePath`: pages inside "/html/" reach the site root through "../", the others
      through "./". */
  function GetBasePath(pathname: string): (base: string)
    ensures base == UP <==> Contains(pathname, HTML_DIR)
    ensures base == HERE <==> !Contains(pathname, HTML_DIR)
  {
    if Contains(pathname, HTML_DIR) then UP else HERE
  }

  /** `buildPath(relativePath)`: a site-root-relative path turned into a link relative to the
      current page. */
  function BuildPath(pathname: string, relativePath: string): string {
    var base := GetBasePath(pathname);
    if relativePath == "/" || relativePath == "" then
      (if base == UP then "../index.html" else "./index.html")
    else if StartsWith(relativePath, "html/") then
      (if base == UP then ReplaceFirst(relativePath, "html/", "") else relativePath)
    else base + relativePath
  }

  /** The three cases of `buildPath`: the root maps to the base's "index.html", a path under
      "html/" loses that prefix from inside "/html/" and is kept as it is elsewhere, and
      anything else is put after the base. */
  lemma BuildPathCases(pathname: string, relativePath: string)
    ensures relativePath == "/" || relativePath == "" ==>
              BuildPath(pathname, relativePath) == GetBasePath(pathname) + INDEX
    ensures relativePath != "/" && StartsWith(relativePath, "html/") ==>
              BuildPath(pathname, relativePath)
              == (if Contains(pathname, HTML_DIR) then relativePath[5..] else relativePath)
    ensures relativePath != "/" && relativePath != "" && !StartsWith(relativePath, "html/") ==>
              BuildPath(pathname, relativePath) == GetBasePath(pathname) + relativePath
  {
  }

  /** The directory the site's pages live in: the root, or "/html/" for the pages under it. */
  function PageDirectory(pathname: string): string {
    if Contains(pathname, HTML_DIR) then HTML_DIR else "/"
  }

  /** Resolution of a relative link against a page directory at most one level below the
      root, for links of the shapes `buildPath` produces. */
  function Resolve(directory: string, link: string): string {
    if StartsWith(link, UP) then "/" + link[|UP|..]
    else if StartsWith(link, HERE) then directory + link[|HERE|..]
    else directory + link
  }

  lemma ResolveUp(directory: string, rest: string)
    ensures Resolve(directory, UP + rest) == "/" + rest
  {
    assert (UP + rest)[..|UP|] == UP && (UP + rest)[|UP|..] == rest;
  }

  lemma ResolveHere(directory: string, rest: string)
    ensures Resolve(directory, HERE + rest) == directory + rest
  {
    assert (HERE + rest)[1] == '/';
    assert (HERE + rest)[..|HERE|] == HERE && (HERE + rest)[|HERE|..] == rest;
  }

  /** After the "html/" prefix of a path without "./" comes neither "./" nor "../". */
  lemma HtmlRest(relativePath: string)
    requires StartsWith(relativePath, "html/") && !Contains(relativePath, HERE)
    ensures var rest := relativePath[5..];
            !StartsWith(rest, UP) && !StartsWith(rest, HERE) && HTML_DIR + rest == "/" + relativePath
  {
    var rest := relativePath[5..];
    assert relativePath == "html/" + rest;
    assert !OccursAt(relativePath, HERE, 5) && !OccursAt(relativePath, HERE, 6);
    if |rest| >= 2 {
      assert relativePath[5..7] == rest[..2];
    }
    if |rest| >= 3 {
      assert relativePath[6..8] == rest[1..3];
    }
  }

  /** A link built by `buildPath` leads, from whichever directory the current page is in, to
      the same site-root path: "/index.html" for the root, "/" + the path otherwise. Paths
      holding "./" or "../" segments are outside what the helper is meant for. */
  lemma BuildPathResolves(pathname: string, relativePath: string)
    requires relativePath == "/" || (!StartsWith(relativePath, "/") && !Contains(relativePath, HERE))
    ensures Resolve(PageDirectory(pathname), BuildPath(pathname, relativePath))
            == "/" + (if relativePath == "/" || relativePath == "" then INDEX else relativePath)
  {
    var directory := PageDirectory(pathname);
    var link := BuildPath(pathname, relativePath);
    var up := Contains(pathname, HTML_DIR);
    if relativePath == "/" || relativePath == "" {
      if up {
        assert link == UP + INDEX;
        ResolveUp(directory, INDEX);
      } else {
        assert link == HERE + INDEX;
        ResolveHere(directory, INDEX);
      }
    } else if StartsWith(relativePath, "html/") {
      HtmlRest(relativePath);
      if up {
        assert link == relativePath[5..];
      } else {
        assert link == relativePath;
        assert !StartsWith(link, UP) && !StartsWith(link, HERE);
      }
    } else if up {
      assert link == UP + relativePath;
      ResolveUp(directory, relativePath);
    } else {
      assert link == HERE + relativePath;
      ResolveHere(directory, relativePath);
    }
  }

  // ---------------------------------------------------------------------------
  // Normalisation and the active link
  // ---------------------------------------------------------------------------

  /** `replace(/\/+$/, '')`: the run of '/' at the end removed. */
  function StripTrailingSlashes(path: string): (r: string)
    ensures |r| <= |path| && r == path[..|r|]
    ensures forall i :: |r| <= i < |path| ==> path[i] == '/'
    ensures r == [] || r[|r| - 1] != '/'
  {
    if path != [] && path[|path| - 1] == '/' then
      var r := StripTrailingSlashes(path[..|path| - 1]);
      assert path[..|path| - 1][..|r|] == path[..|r|];
      r
    else path
  }

  /** The trailing-slash step of `normalizePathname`, applied to a pathname already taken
      out of its URL: trailing '/' removed, and "/" when nothing is left. */
  function NormalizeTrailing(pathname: string): string {
    var stripped := StripTrailingSlashes(pathname);
    if stripped == "" then "/" else stripped
  }

  /** The normal form never ends in '/' unless it is "/" itself, is the pathname without its
      trailing slashes, leaves a pathname without them alone, and is idempotent. */
  lemma NormalizeTrailingShape(pathname: string)
    ensures var r := NormalizeTrailing(pathname);
            && (r == "/" || (r != "" && !EndsWith(r, "/")))
            && (r != "/" ==> StartsWith(pathname, r) && forall i :: |r| <= i < |pathname| ==> pathname[i] == '/')
            && (pathname != "" && !EndsWith(pathname, "/") ==> r == pathname)
            && NormalizeTrailing(r) == r
  {
    var r := NormalizeTrailing(pathname);
    var stripped := StripTrailingSlashes(pathname);
    EndsWithSlash(pathname);
    EndsWithSlash(r);
    if r != "/" {
      assert r == stripped;
      assert pathname[..|r|] == r;
    }
    EndsWithSlash(StripTrailingSlashes(r));
  }

  /** Ending in "/" is having '/' as the last character. */
  lemma EndsWithSlash(s: string)
    ensures EndsWith(s, "/") <==> s != [] && s[|s| - 1] == '/'
  {
    if s != [] {
      assert s[|s| - 1..] == [s[|s| - 1]];
    }
  }

  /** The `isActive` rule of `setActiveNavLink` for a normalised current pathname and link
      path. */
  predicate IsActive(current: string, path: string) {
    || (current == "/" && (path == "/" || EndsWith(path, "/index.html")))
    || (current != "/" && path != "/" && Contains(current, LastSegment(path)))
  }

  /** A link to the page being shown is always marked active. */
  lemma SelfLinkActive(pathname: string)
    ensures IsActive(NormalizeTrailing(pathname), NormalizeTrailing(pathname))
  {
    var current := NormalizeTrailing(pathname);
    if current != "/" {
      EndsWithContains(current, LastSegment(current));
    }
  }

  /** On the root page only links to a home page are active, and elsewhere a link to "/" is
      never active. */
  lemma ActiveLinksAtRoot(current: string, path: string)
    ensures current == "/" && IsActive(current, path) ==> IsHomePage(path)
    ensures current != "/" ==> !IsActive(current, "/")
  {
    if current == "/" && path != "/" && EndsWith(path, "/index.html") {
      assert path[|path| - |INDEX|..] == path[|path| - 11..][1..];
    }
  }

  /** `setActiveNavLink`: `linkPaths[i]` is the pathname of link i's href, and `active[i]`
      its "active" class, toggled on exactly where the rule holds. */
  method SetActiveNavLink(pathname: string, linkPaths: seq<string>, active: array<bool>)
    requires active.Length == |linkPaths|
    modifies active
    ensures forall i :: 0 <= i < active.Length ==>
              active[i] == IsActive(NormalizeTrailing(pathname), NormalizeTrailing(linkPaths[i]))
  {
    var current := NormalizeTrailing(pathname);
    var k := 0;
    while k < |linkPaths|
      invariant 0 <= k <= |linkPaths|
      invariant forall i :: 0 <= i < k ==> active[i] == IsActive(current, NormalizeTrailing(linkPaths[i]))
    {
      var path := NormalizeTrailing(linkPaths[k]);
      var isActive := (current == "/" && (path == "/" || EndsWith(path, "/index.html")))
                      || (current != "/" && path != "/" && Contains(current, LastSegment(path)));
      active[k] := isActive;
      k := k + 1;
    }
  }

  // ---------------------------------------------------------------------------
  // Home page
  // ---------------------------------------------------------------------------

  /** The home-page test of the start-up handler. */
  predicate IsHomePage(pathname: string) {
    pathname == "/" || EndsWith(pathname, INDEX)
  }

  /** The home link `buildPath("/")` builds leads, from any page, to a page the start-up
      handler treats as the home page. */
  lemma HomeLinkLeadsHome(pathname: string)
    ensures IsHomePage(Resolve(PageDirectory(pathname), BuildPath(pathname, "/")))
  {
    BuildPathResolves(pathname, "/");
    var target := "/" + INDEX;
    assert target[|target| - |INDEX|..] == INDEX;
  }
}
