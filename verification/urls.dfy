/** Resolution of a resource path against the client's base URL, as
    `urllib.parse.urljoin` does it (reference resolution, section 5.2 of
    RFC 3986), for the references a resource path normally is: an empty
    path, an absolute path ("/users") or a relative path ("users/1"), with
    no dot-segments, empty segments, query, fragment, parameters or scheme. */
module Urls {
  import Text

  const Http := "http://"
  const Https := "https://"

  /** `s.startswith(("http://", "https://"))` */
  predicate HasHttpPrefix(s: string) {
    Text.StartsWith(s, Http) || Text.StartsWith(s, Https)
  }

  function SchemeEnd(b: string): (n: nat)
    requires HasHttpPrefix(b)
    ensures n <= |b|
  {
    if Text.StartsWith(b, Http) then |Http| else |Https|
  }

  /** "scheme://authority": everything before the path. */
  function Origin(b: string): (o: string)
    requires HasHttpPrefix(b)
    ensures Text.StartsWith(b, o)
    ensures |o| >= SchemeEnd(b)
    ensures '/' !in o[SchemeEnd(b)..]
  {
    var n := SchemeEnd(b);
    var k := Text.IndexOf(b[n..], '/');
    assert b[..n + k][n..] == b[n..][..k];
    b[..n + k]
  }

  /** The path component of `b`: empty or starting with '/'. */
  function PathOf(b: string): (p: string)
    requires HasHttpPrefix(b)
    ensures b == Origin(b) + p
    ensures p == [] || p[0] == '/'
  {
    b[|Origin(b)|..]
  }

  /** A segment "." or ".." begins at position i of p. */
  predicate DotSegmentAt(p: string, i: nat)
    requires i < |p|
  {
    && (i == 0 || p[i - 1] == '/')
    && p[i] == '.'
    && (i + 1 == |p| || p[i + 1] == '/' || (p[i + 1] == '.' && (i + 2 == |p| || p[i + 2] == '/')))
  }

  /** A path free of the features this model does not resolve: query,
      fragment and parameter delimiters, empty segments and dot-segments. */
  predicate CleanPath(p: string) {
    && (forall i :: 0 <= i < |p| ==> p[i] != '?' && p[i] != '#' && p[i] != ';')
    && (forall i :: 0 <= i < |p| - 1 ==> !(p[i] == '/' && p[i + 1] == '/'))
    && (forall i :: 0 <= i < |p| ==> !DotSegmentAt(p, i))
  }

  /** No space or control character. `urlsplit` deletes tab, CR and LF
      wherever they occur and strips leading spaces and control characters
      before anything is resolved; text free of them is resolved as it
      stands. */
  predicate Printable(s: string) {
    forall i :: 0 <= i < |s| ==> s[i] > ' '
  }

  /** An authority `urlsplit` accepts without raising `ValueError`: no
      square brackets (it would check them as an IPv6 literal) and only
      ASCII characters (it would check the NFKC form of any other for URL
      delimiters). */
  predicate PlainAuthority(b: string)
    requires HasHttpPrefix(b)
  {
    forall i :: SchemeEnd(b) <= i < |Origin(b)| ==> b[i] != '[' && b[i] != ']' && b[i] < '\U{80}'
  }

  /** A base URL of the shape this model resolves against: an http or https
      URL with a non-empty plain authority, a clean path, no query or
      fragment, and nothing `urlsplit` would delete. */
  predicate ModelledBase(b: string) {
    && HasHttpPrefix(b)
    && |Origin(b)| > SchemeEnd(b)
    && PlainAuthority(b)
    && (forall i :: SchemeEnd(b) <= i < |b| ==> b[i] != '?' && b[i] != '#')
    && Printable(b)
    && CleanPath(PathOf(b))
  }

  /** A resource path of the shape this model resolves: clean, free of ':'
      so that it cannot be read as carrying a scheme, and free of the
      characters `urlsplit` would delete. */
  predicate ModelledRef(r: string) {
    CleanPath(r) && Printable(r) && (forall i :: 0 <= i < |r| ==> r[i] != ':')
  }

  /** The directory of a base path that a relative reference is merged into
      (section 5.2.3 of RFC 3986): "/" for an empty path with an authority,
      otherwise everything up to and including the last '/'. */
  function Directory(p: string): (d: string)
    requires p == [] || p[0] == '/'
    ensures |d| >= 1 && d[0] == '/' && d[|d| - 1] == '/'
  {
    if p == [] then "/" else Text.UpToLast(p, '/')
  }

  /** `urljoin(base, ref)`. A request never leaves the base URL's scheme
      and authority, and a non-empty reference is always the tail of the
      resolved URL. */
  function Resolve(base: string, ref: string): (r: string)
    requires ModelledBase(base) && ModelledRef(ref)
    ensures Text.StartsWith(r, Origin(base))
    ensures ref == [] ==> r == base
    ensures ref != [] ==> Text.EndsWith(r, ref)
  {
    if ref == [] then base
    else if ref[0] == '/' then Origin(base) + ref
    else Origin(base) + Directory(PathOf(base)) + ref
  }

  /** An absolute path replaces the whole base path. */
  lemma ResolveAbsolutePath(base: string, ref: string)
    requires ModelledBase(base) && ModelledRef(ref)
    requires ref != [] && ref[0] == '/'
    ensures Resolve(base, ref) == Origin(base) + ref
    ensures forall base' :: ModelledBase(base') && Origin(base') == Origin(base) ==> Resolve(base', ref) == Resolve(base, ref)
  {
  }

  /** A relative path is appended to a base whose path is empty (with a '/'
      in between) or ends with '/'. */
  lemma ResolveAppends(base: string, ref: string)
    requires ModelledBase(base) && ModelledRef(ref)
    requires ref != [] && ref[0] != '/'
    ensures PathOf(base) == [] ==> Resolve(base, ref) == base + "/" + ref
    ensures Text.EndsWith(base, "/") ==> Resolve(base, ref) == base + ref
  {
    var p := PathOf(base);
    if Text.EndsWith(base, "/") && p != [] {
      assert p[|p| - 1] == base[|base| - 1];
      assert Text.UpToLast(p, '/') == p;
    }
    if p == [] {
      var n := SchemeEnd(base);
      assert base == Origin(base);
      assert base[|base| - 1] == Origin(base)[n..][|base| - 1 - n];
      assert !Text.EndsWith(base, "/");
    }
  }

  /** A relative path replaces the last segment of a base path that does
      not end with '/': "https://h/v1" and "users" give "https://h/users". */
  lemma ResolveReplacesLastSegment(base: string, ref: string)
    requires ModelledBase(base) && ModelledRef(ref)
    requires ref != [] && ref[0] != '/'
    requires PathOf(base) != [] && !Text.EndsWith(base, "/")
    ensures Resolve(base, ref) == Origin(base) + Text.UpToLast(PathOf(base), '/') + ref
    ensures |Text.UpToLast(PathOf(base), '/')| < |PathOf(base)|
  {
    var p := PathOf(base);
    assert p[|p| - 1] == base[|base| - 1];
  }

  /** A single segment of ordinary characters is a modelled reference. */
  lemma PlainSegmentModelled(r: string)
    requires '/' !in r && '.' !in r && '?' !in r && '#' !in r && ';' !in r && ':' !in r
    requires Printable(r)
    ensures ModelledRef(r)
  {
    assert forall i :: 0 <= i < |r| ==> r[i] in r;
  }

  const ExampleBase := "https://api.example.com"

  lemma ExampleScheme()
    ensures HasHttpPrefix(ExampleBase) && SchemeEnd(ExampleBase) == 8
  {
    assert ExampleBase[4] == 's';
    assert ExampleBase[..8] == Https;
  }

  lemma ExampleNoQuery()
    ensures forall i :: 8 <= i < |ExampleBase| ==> ExampleBase[i] != '?' && ExampleBase[i] != '#'
  {
    var b := ExampleBase;
    assert b[8..] == "api.example.com";
    assert '?' !in b[8..] && '#' !in b[8..];
    forall i | 8 <= i < |b|
      ensures b[i] != '?' && b[i] != '#'
    {
      assert b[i] == b[8..][i - 8];
    }
  }

  /** A base URL that is just a scheme and an authority has an empty path
      and is a modelled base. */
  lemma HostOnlyModelled(b: string)
    requires HasHttpPrefix(b) && |b| > SchemeEnd(b)
    requires forall i :: SchemeEnd(b) <= i < |b| ==> b[i] != '/' && b[i] != '?' && b[i] != '#'
    requires Printable(b)
    requires forall i :: SchemeEnd(b) <= i < |b| ==> b[i] != '[' && b[i] != ']' && b[i] < '\U{80}'
    ensures ModelledBase(b) && PathOf(b) == []
  {
    var n := SchemeEnd(b);
    var k := Text.IndexOf(b[n..], '/');
    assert forall j :: 0 <= j < |b| - n ==> b[n..][j] == b[n + j];
    assert k == |b| - n;
    assert Origin(b) == b;
    assert CleanPath([]);
  }

  lemma ExampleBaseModelled()
    ensures ModelledBase(ExampleBase) && PathOf(ExampleBase) == []
  {
    ExampleScheme();
    ExampleNoQuery();
    var b := ExampleBase;
    assert '/' !in b[8..];
    forall i | 8 <= i < |b|
      ensures b[i] != '/'
    {
      assert b[i] == b[8..][i - 8];
    }
    HostOnlyModelled(b);
  }

  const ExampleRef := "test-endpoint"

  lemma ExampleRefModelled()
    ensures ModelledRef(ExampleRef)
  {
    var r := ExampleRef;
    assert '/' !in r && '.' !in r && '?' !in r;
    assert '#' !in r && ';' !in r && ':' !in r;
    PlainSegmentModelled(r);
  }

  /** The example the client's tests pin down: "https://api.example.com"
      and "test-endpoint" give "https://api.example.com/test-endpoint". */
  lemma ResolveExample()
    ensures ModelledBase(ExampleBase) && ModelledRef(ExampleRef)
    ensures Resolve(ExampleBase, ExampleRef) == ExampleBase + "/" + ExampleRef
  {
    ExampleBaseModelled();
    ExampleRefModelled();
    assert ExampleRef[0] == 't';
    ResolveAppends(ExampleBase, ExampleRef);
  }
}
