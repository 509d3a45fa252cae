/** The URL splitter `_split_url`: divides a URL into an origin (`base`)
    and a path, by string cutting only (no URL parsing). */
module Urls {
  import opened Text

  const SchemeSeparator := "://"

  /** Index from which the host is read: just past the leftmost "://",
      or 0 when the URL has none. */
  function HostStart(url: string): (h: nat)
    ensures h <= |url|
    ensures Contains(url, SchemeSeparator) ==>
      h >= 3 && IsFirstOccurrence(url, SchemeSeparator, h - 3)
    ensures !Contains(url, SchemeSeparator) ==> h == 0
  {
    match Find(url, SchemeSeparator)
    case None => 0
    case Some(k) => k + |SchemeSeparator|
  }

  /** The shared last step of the splitter: `parts = s.split("/", 1)`, then
      the first part and, when there is a second, "/" put back before it. */
  function CutAtSlash(s: string): (r: (string, string))
    ensures r.0 + r.1 == s
    ensures r.1 == "" || r.1[0] == '/'
    ensures NoSlash(r.0)
  {
    var parts := SplitOnce(s, "/");
    NoSlashBeforeFirstSlash(s, parts);
    (parts[0], if |parts| > 1 then "/" + parts[1] else "")
  }

  /** The splitter as the generator writes it: split once on "://", cut the
      remainder at its first "/", and re-assemble `scheme://host` and the
      path. URLs without a scheme are cut at their first "/". */
  function SplitUrl(url: string): (r: (string, string))
    ensures r.0 + r.1 == url
    ensures r.1 == "" || r.1[0] == '/'
  {
    if Contains(url, SchemeSeparator) then
      var halves := SplitOnce(url, SchemeSeparator);
      var scheme, rest := halves[0], halves[1];
      var (host, path) := CutAtSlash(rest);
      assert (scheme + SchemeSeparator + host) + path == scheme + SchemeSeparator + (host + path);
      (scheme + SchemeSeparator + host, path)
    else
      CutAtSlash(url)
  }

  /** `(base, path)` is a split of `url` as the generator promises one:
      the two halves rebuild the URL, the path is empty or rooted, and the
      host (the text of `base` past the leftmost "://", or all of `base`
      without a scheme) holds no slash. */
  ghost predicate WellSplit(url: string, base: string, path: string) {
    && base + path == url
    && (path == "" || path[0] == '/')
    && HostStart(url) <= |base|
    && NoSlash(base[HostStart(url)..])
  }

  /** The splitter's result is a well-formed split. */
  lemma {:induction false} SplitUrlIsWellSplit(url: string)
    ensures WellSplit(url, SplitUrl(url).0, SplitUrl(url).1)
  {
    var (base, path) := SplitUrl(url);
    var h := HostStart(url);
    if Contains(url, SchemeSeparator) {
      var halves := SplitOnce(url, SchemeSeparator);
      var (host, _) := CutAtSlash(halves[1]);
      FirstOccurrenceUnique(url, SchemeSeparator, |halves[0]|, h - 3);
      assert base == halves[0] + SchemeSeparator + host;
      assert base[h..] == host;
    }
  }

  /** The text before the leftmost "/" holds no "/". */
  lemma NoSlashBeforeFirstSlash(s: string, parts: seq<string>)
    requires parts == SplitOnce(s, "/")
    ensures NoSlash(parts[0])
  {
    if |parts| == 1 {
      forall i | 0 <= i < |s|
        ensures s[i] != '/'
      {
        assert !OccursAt(s, "/", i);
      }
    } else {
      forall i | 0 <= i < |parts[0]|
        ensures parts[0][i] != '/'
      {
        assert !OccursAt(s, "/", i);
        assert s[i] == parts[0][i];
      }
    }
  }

  /** A string has one leftmost occurrence of a pattern. */
  lemma FirstOccurrenceUnique(s: string, pat: string, k1: nat, k2: nat)
    requires IsFirstOccurrence(s, pat, k1) && IsFirstOccurrence(s, pat, k2)
    ensures k1 == k2
  {
  }

  /** A URL has exactly one well-formed split. */
  lemma {:induction false} WellSplitUnique(url: string, b1: string, p1: string, b2: string, p2: string)
    requires WellSplit(url, b1, p1) && WellSplit(url, b2, p2)
    ensures b1 == b2 && p1 == p2
  {
    var h := HostStart(url);
    if |b1| < |b2| {
      SlashAtCut(url, b1, p1, b2);
    } else if |b2| < |b1| {
      SlashAtCut(url, b2, p2, b1);
    }
    assert b1 == url[..|b1|] && b2 == url[..|b2|];
  }

  /** If a shorter well-formed base were cut before a longer one, the longer
      one's host would contain the slash the shorter one's path starts with. */
  lemma SlashAtCut(url: string, short: string, path: string, long: string)
    requires short + path == url
    requires path == "" || path[0] == '/'
    requires HostStart(url) <= |short| < |long|
    requires |long| <= |url| && long == url[..|long|]
    ensures !NoSlash(long[HostStart(url)..])
  {
    var h := HostStart(url);
    assert path != "";
    assert url[|short|] == '/';
    assert long[h..][|short| - h] == long[|short|] == url[|short|];
  }

  /** The split is characterised by its promise: `SplitUrl(url)` is the one
      and only well-formed split of `url`. */
  lemma SplitUrlCharacterized(url: string, base: string, path: string)
    ensures SplitUrl(url) == (base, path) <==> WellSplit(url, base, path)
  {
    SplitUrlIsWellSplit(url);
    if WellSplit(url, base, path) {
      WellSplitUnique(url, base, path, SplitUrl(url).0, SplitUrl(url).1);
    }
  }

  /** The path is empty exactly when no slash follows the host start: after
      the leftmost "://" when there is one, anywhere in the URL otherwise. */
  lemma SplitUrlPathEmptyIff(url: string)
    ensures SplitUrl(url).1 == "" <==> NoSlash(url[HostStart(url)..])
  {
    SplitUrlIsWellSplit(url);
    var (base, path) := SplitUrl(url);
    var h := HostStart(url);
    if path == "" {
      assert base == url;
    } else {
      assert url[h..][|base| - h] == url[|base|] == path[0];
    }
  }

  /** With a scheme, the base is the scheme, "://", and a slash-free host;
      the scheme is the text before the leftmost "://". */
  lemma SplitUrlWithScheme(url: string)
    requires Contains(url, SchemeSeparator)
    ensures exists k: nat, host: string ::
      && IsFirstOccurrence(url, SchemeSeparator, k)
      && SplitUrl(url).0 == url[..k] + SchemeSeparator + host
      && NoSlash(host)
  {
    SplitUrlIsWellSplit(url);
    var base := SplitUrl(url).0;
    var h := HostStart(url);
    var k: nat := h - 3;
    var host := base[h..];
    assert base == url[..|base|];
    assert base == url[..k] + SchemeSeparator + host;
  }

  /** `s` contains no colon, so no "://" can start inside it. */
  predicate NoColon(s: string) {
    forall i :: 0 <= i < |s| ==> s[i] != ':'
  }

  /** Splitting inverts joining: a URL assembled from a colon-free scheme,
      "://", a slash-free host and an empty or rooted path splits back into
      `scheme://host` and that path. */
  lemma JoinedUrlSplits(scheme: string, host: string, path: string)
    requires NoColon(scheme) && NoSlash(host)
    requires path == "" || path[0] == '/'
    ensures SplitUrl(scheme + SchemeSeparator + host + path) == (scheme + SchemeSeparator + host, path)
  {
    var url := scheme + SchemeSeparator + host + path;
    var base := scheme + SchemeSeparator + host;
    var k := |scheme|;
    assert url[k..k + 3] == SchemeSeparator;
    forall j: nat | j < k
      ensures !OccursAt(url, SchemeSeparator, j)
    {
      assert url[j] == scheme[j];
      assert j + 3 <= |url| ==> url[j..j + 3][0] == url[j];
    }
    assert OccursAt(url, SchemeSeparator, k);
    FirstOccurrenceUnique(url, SchemeSeparator, k, HostStart(url) - 3);
    assert base + path == url;
    assert base[HostStart(url)..] == host;
    SplitUrlCharacterized(url, base, path);
  }

  /** Without any colon there is no scheme: a slash-free host followed by an
      empty or rooted path splits back into the two. */
  lemma SchemelessUrlSplits(host: string, path: string)
    requires NoColon(host + path) && NoSlash(host)
    requires path == "" || path[0] == '/'
    ensures SplitUrl(host + path) == (host, path)
  {
    var url := host + path;
    forall i: nat | i <= |url|
      ensures !OccursAt(url, SchemeSeparator, i)
    {
      assert i + 3 <= |url| ==> url[i..i + 3][0] == url[i];
    }
    assert HostStart(url) == 0;
    SplitUrlCharacterized(url, host, path);
  }
}
