/**
 * The page link of an ATT&CK object: the last two `/`-separated components
 * of the url in its first external reference (`url.split('/')`, then
 * `'/'.join(parts[-2:])`).
 */
module Urls {
  import opened Stix

  /** Number of occurrences of `c` in `s`. */
  function Count(s: string, c: char): nat
  {
    if s == [] then 0 else (if s[0] == c then 1 else 0) + Count(s[1..], c)
  }

  lemma {:induction false} CountAppend(a: string, b: string, c: char)
    ensures Count(a + b, c) == Count(a, c) + Count(b, c)
  {
    if a != [] {
      assert (a + b)[1..] == a[1..] + b;
      CountAppend(a[1..], b, c);
    } else {
      assert a + b == b;
    }
  }

  lemma {:induction false} CountZero(s: string, c: char)
    ensures Count(s, c) == 0 <==> c !in s
  {
    if s != [] {
      CountZero(s[1..], c);
      assert s == [s[0]] + s[1..];
    }
  }

  /** `sep.join(parts)`. */
  function Join(parts: seq<string>, sep: char): string
  {
    if |parts| == 0 then ""
    else if |parts| == 1 then parts[0]
    else parts[0] + [sep] + Join(parts[1..], sep)
  }

  /** A parts list that `Split` can yield: non-empty, no part holds the separator. */
  predicate Separated(parts: seq<string>, sep: char)
  {
    |parts| >= 1 && forall i | 0 <= i < |parts| :: sep !in parts[i]
  }

  /** Prefixing a character to the first part prefixes it to the joined string. */
  lemma JoinConsFirst(ch: char, parts: seq<string>, sep: char)
    requires |parts| >= 1
    ensures Join([[ch] + parts[0]] + parts[1..], sep) == [ch] + Join(parts, sep)
  {
    var q := [[ch] + parts[0]] + parts[1..];
    assert q[1..] == parts[1..];
  }

  /** `s.split(sep)`: the pieces between separators, in order, empty ones included. */
  function Split(s: string, sep: char): (parts: seq<string>)
    ensures Separated(parts, sep)
    ensures Join(parts, sep) == s
  {
    if s == [] then [""]
    else
      var rest := Split(s[1..], sep);
      if s[0] == sep then
        assert ([""] + rest)[1..] == rest;
        [""] + rest
      else
        JoinConsFirst(s[0], rest, sep);
        [[s[0]] + rest[0]] + rest[1..]
  }

  /** A separator-free string splits into itself. */
  lemma {:induction false} SplitPlain(p: string, sep: char)
    requires sep !in p
    ensures Split(p, sep) == [p]
  {
    if p != [] {
      SplitPlain(p[1..], sep);
    }
  }

  /** A separator-free prefix followed by the separator becomes one part of its own. */
  lemma {:induction false} SplitAfterPart(p: string, t: string, sep: char)
    requires sep !in p
    ensures Split(p + [sep] + t, sep) == [p] + Split(t, sep)
  {
    var s := p + [sep] + t;
    if p == [] {
      assert s[1..] == t;
    } else {
      assert s[1..] == p[1..] + [sep] + t;
      SplitAfterPart(p[1..], t, sep);
      assert s[0] == p[0] != sep;
      assert [p[0]] + p[1..] == p;
    }
  }

  /** Split undoes Join on a parts list Split could have produced. */
  lemma {:induction false} SplitJoin(parts: seq<string>, sep: char)
    requires Separated(parts, sep)
    ensures Split(Join(parts, sep), sep) == parts
  {
    if |parts| == 1 {
      SplitPlain(parts[0], sep);
    } else {
      SplitJoin(parts[1..], sep);
      SplitAfterPart(parts[0], Join(parts[1..], sep), sep);
      assert [parts[0]] + parts[1..] == parts;
    }
  }

  /** Joining separator-free parts yields one separator between each two. */
  lemma {:induction false} JoinCount(parts: seq<string>, sep: char)
    requires Separated(parts, sep)
    ensures Count(Join(parts, sep), sep) == |parts| - 1
  {
    CountZero(parts[0], sep);
    if |parts| > 1 {
      JoinCount(parts[1..], sep);
      CountAppend(parts[0] + [sep], Join(parts[1..], sep), sep);
      CountAppend(parts[0], [sep], sep);
    }
  }

  /** The joined string cut at the separator before part `k`. */
  lemma {:induction false} JoinAt(parts: seq<string>, k: nat, sep: char)
    requires 0 < k < |parts|
    ensures Join(parts, sep) == Join(parts[..k], sep) + [sep] + Join(parts[k..], sep)
  {
    if k > 1 {
      JoinAt(parts[1..], k - 1, sep);
      assert parts[1..][..k - 1] == parts[..k][1..];
      assert parts[1..][k - 1..] == parts[k..];
    }
  }

  /** `split_url[-2:]`: the last two elements, or all of them when there are fewer. */
  function LastTwo<T>(xs: seq<T>): seq<T>
  {
    if |xs| >= 2 then xs[|xs| - 2..] else xs
  }

  /**
   * The link that `getUrlFromStix` builds from a url: the part after its
   * second-to-last `/`, or the whole url when it has at most one `/`. That is
   * a suffix holding exactly one `/` when the url has any and none otherwise,
   * and, when shorter than the url, cut just after a `/`.
   */
  function UrlTail(url: string): (r: string)
    ensures |r| <= |url| && url[|url| - |r|..] == r
    ensures Count(r, '/') == (if Count(url, '/') == 0 then 0 else 1)
    ensures |r| < |url| ==> url[|url| - |r| - 1] == '/'
  {
    var parts := Split(url, '/');
    var r := Join(LastTwo(parts), '/');
    JoinCount(parts, '/');
    if |parts| > 2 then
      var k := |parts| - 2;
      JoinAt(parts, k, '/');
      JoinCount(parts[k..], '/');
      assert url == Join(parts[..k], '/') + ['/'] + r;
      r
    else
      r
  }

  /** A url of two components or fewer is its own link. */
  lemma ShortUrlUnchanged(url: string)
    requires Count(url, '/') <= 1
    ensures UrlTail(url) == url
  {
    JoinCount(Split(url, '/'), '/');
  }

  /** `getUrlFromStix`: the link of the first external reference's url. */
  function GetUrlFromStix(datum: Record): (link: string)
    requires |datum.externalRefs| > 0 && datum.externalRefs[0].url.Some?
    ensures var url := datum.externalRefs[0].url.value;
      && |link| <= |url| && url[|url| - |link|..] == link
      && Count(link, '/') == (if Count(url, '/') == 0 then 0 else 1)
      && (|link| < |url| ==> url[|url| - |link| - 1] == '/')
  {
    UrlTail(datum.externalRefs[0].url.value)
  }
}
