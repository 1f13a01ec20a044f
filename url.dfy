/** `normalizeUrl` (public/app.js): the cleaning applied to the Gateway and
    Relay base URLs whenever they are loaded or saved. */
module Url {
  import opened Js

  /** The scheme prepended to a URL that lacks one. */
  const DefaultScheme: string := "https://"

  function AsciiLower(c: char): char {
    if 'A' <= c <= 'Z' then (c as int + 32) as char else c
  }

  /** `s` with its ASCII letters in lower case. */
  function Folded(s: string): (r: string)
    ensures |r| == |s|
    ensures forall i :: 0 <= i < |s| ==> r[i] == AsciiLower(s[i])
  {
    if s == [] then [] else [AsciiLower(s[0])] + Folded(s[1..])
  }

  lemma FoldedHttp(s: string)
    ensures |s| >= 7 ==> (Folded(s[..7]) == "http://" <==>
              && AsciiLower(s[0]) == 'h' && AsciiLower(s[1]) == 't' && AsciiLower(s[2]) == 't' && AsciiLower(s[3]) == 'p'
              && s[4..7] == "://")
    ensures |s| >= 8 ==> (Folded(s[..8]) == "https://" <==>
              && AsciiLower(s[0]) == 'h' && AsciiLower(s[1]) == 't' && AsciiLower(s[2]) == 't' && AsciiLower(s[3]) == 'p'
              && AsciiLower(s[4]) == 's' && s[5..8] == "://")
  {
    if |s| >= 7 {
      var f := Folded(s[..7]);
      assert f[4] == AsciiLower(s[4]) && f[5] == AsciiLower(s[5]) && f[6] == AsciiLower(s[6]);
      assert s[4..7] == [s[4], s[5], s[6]];
      assert f == [f[0], f[1], f[2], f[3], f[4], f[5], f[6]];
    }
    if |s| >= 8 {
      var f := Folded(s[..8]);
      assert f[5] == AsciiLower(s[5]) && f[6] == AsciiLower(s[6]) && f[7] == AsciiLower(s[7]);
      assert s[5..8] == [s[5], s[6], s[7]];
      assert f == [f[0], f[1], f[2], f[3], f[4], f[5], f[6], f[7]];
    }
  }

  /** `/^https?:\/\//i.test(s)`: "http", an optional "s" (letters in either
      case), then "://" -- that is, `s` starts with "http://" or "https://"
      up to the case of its letters. */
  predicate HasScheme(s: string): (r: bool)
    ensures r <==> (|s| >= 7 && Folded(s[..7]) == "http://") || (|s| >= 8 && Folded(s[..8]) == "https://")
  {
    FoldedHttp(s);
    && |s| >= 7
    && AsciiLower(s[0]) == 'h' && AsciiLower(s[1]) == 't' && AsciiLower(s[2]) == 't' && AsciiLower(s[3]) == 'p'
    && (|| s[4..7] == "://"
        || (|s| >= 8 && AsciiLower(s[4]) == 's' && s[5..8] == "://"))
  }

  lemma DefaultSchemeIsScheme(v: string)
    ensures HasScheme(DefaultScheme + v)
  {
    assert (DefaultScheme + v)[..8] == DefaultScheme;
  }

  /** `s.replace(/\/+$/g, "")`: the longest prefix of `s` that does not end
      in `/`; everything cut off is a slash. */
  function StripTrailingSlashes(s: string): (r: string)
    ensures r <= s
    ensures r == [] || r[|r| - 1] != '/'
    ensures forall k :: |r| <= k < |s| ==> s[k] == '/'
  {
    if s != [] && s[|s| - 1] == '/' then StripTrailingSlashes(s[..|s| - 1]) else s
  }

  /** `normalizeUrl(u)`. A blank input gives "" and nothing else does, so the
      rejection after the scheme is added never happens; every other result
      starts with an http(s) scheme and ends in a slash only when nothing but
      the default scheme is left. */
  function NormalizeUrl(u: string): (r: string)
    ensures r == [] <==> AllWhitespace(u)
    ensures r != [] ==> HasScheme(r)
    ensures r != [] && r[|r| - 1] == '/' ==> r == DefaultScheme
  {
    var t := Trim(u);
    if t == [] then []
    else
      var v := StripTrailingSlashes(t);
      var w := if HasScheme(v) then v else DefaultScheme + v;
      DefaultSchemeIsScheme(v);
      if HasScheme(w) then w else []
  }

  /** The text of a non-blank URL survives normalisation: it is trimmed and
      loses its trailing slashes, and gains the default scheme exactly when
      what is left has no http(s) scheme of its own. */
  lemma {:induction false} NormalizeUrlKeepsText(u: string)
    requires !AllWhitespace(u)
    ensures var v := StripTrailingSlashes(Trim(u));
            && (HasScheme(v) ==> NormalizeUrl(u) == v)
            && (!HasScheme(v) ==> NormalizeUrl(u) == DefaultScheme + v)
  {
    DefaultSchemeIsScheme(StripTrailingSlashes(Trim(u)));
  }

  /** A URL that is already clean (an http(s) scheme, no surrounding
      whitespace, no trailing slash) is returned unchanged. */
  lemma NormalizeUrlKeepsCleanUrl(u: string)
    requires HasScheme(u)
    requires !IsWhitespace(u[0]) && !IsWhitespace(u[|u| - 1])
    requires u[|u| - 1] != '/'
    ensures NormalizeUrl(u) == u
  {
    assert Trim(u) == u;
    assert StripTrailingSlashes(u) == u;
  }

  /** A host without a scheme, no surrounding whitespace and no trailing
      slash gets `https://` in front and is otherwise kept. */
  lemma NormalizeUrlAddsScheme(v: string)
    requires v != [] && !IsWhitespace(v[0]) && !IsWhitespace(v[|v| - 1])
    requires v[|v| - 1] != '/' && !HasScheme(v)
    ensures NormalizeUrl(v) == DefaultScheme + v
  {
    assert Trim(v) == v;
    assert StripTrailingSlashes(v) == v;
    NormalizeUrlKeepsText(v);
  }

  /** A trailing slash after a clean URL is dropped. */
  lemma NormalizeUrlDropsSlash(v: string)
    requires HasScheme(v)
    requires !IsWhitespace(v[0]) && !IsWhitespace(v[|v| - 1])
    requires v[|v| - 1] != '/'
    ensures NormalizeUrl(v + "/") == v
  {
    var u := v + "/";
    assert u[0] == v[0] && u[|u| - 1] == '/';
    assert Trim(u) == u;
    assert u[..|u| - 1] == v;
    assert StripTrailingSlashes(u) == v;
    NormalizeUrlKeepsText(u);
  }

  /** A URL that a further `normalizeUrl` leaves alone: empty, or neither
      ending in whitespace nor the bare default scheme. */
  predicate Settled(url: string) {
    url == [] || (!IsWhitespace(url[|url| - 1]) && url != DefaultScheme)
  }

  /** Normalising a normalised URL changes nothing when the result is
      settled. */
  lemma NormalizeUrlStable(u: string)
    requires Settled(NormalizeUrl(u))
    ensures NormalizeUrl(NormalizeUrl(u)) == NormalizeUrl(u)
  {
    var r := NormalizeUrl(u);
    if r != [] {
      assert r[0] == 'h' || r[0] == 'H';
      NormalizeUrlKeepsCleanUrl(r);
    }
  }

  /** Whitespace before a trailing slash survives normalisation ... */
  lemma NormalizeUrlKeepsInnerBlank(u: string)
    requires u == "x /"
    ensures NormalizeUrl(u) == "https://x "
  {
    assert Trim(u) == u;
    assert u[..|u| - 1] == "x ";
    assert StripTrailingSlashes(u) == "x ";
    NormalizeUrlKeepsText(u);
  }

  /** ... and a second pass then trims it away, so normalisation is not
      idempotent. */
  lemma NormalizeUrlTrimsOnSecondPass(u: string)
    requires u == "https://x "
    ensures NormalizeUrl(u) == "https://x"
  {
    assert DefaultScheme + "x" == "https://x";
    DefaultSchemeIsScheme("x");
    assert LeadingWhitespace(u) == 0;
    assert TrailingWhitespace(u) == 1;
    assert Trim(u) == "https://x";
    assert StripTrailingSlashes("https://x") == "https://x";
    NormalizeUrlKeepsText(u);
  }

  lemma StripTwoSlashes(v: string)
    requires v != [] && v[|v| - 1] != '/'
    ensures StripTrailingSlashes(v + "//") == v
  {
    var u := v + "//";
    assert u[..|u| - 1] == v + "/";
    assert (v + "/")[..|v|] == v;
  }

  /** A slash-only input leaves the bare default scheme ... */
  lemma NormalizeUrlSlashOnly(u: string)
    requires u == "/"
    ensures NormalizeUrl(u) == DefaultScheme
  {
    assert Trim(u) == u;
    assert StripTrailingSlashes(u) == "";
    NormalizeUrlKeepsText(u);
  }

  /** ... which a second pass treats as a host name. */
  lemma NormalizeUrlBareScheme(u: string)
    requires u == "https://"
    ensures NormalizeUrl(u) == "https://https:"
  {
    var v := "https:";
    assert DefaultScheme + v == "https://https:";
    assert u == v + "//";
    StripTwoSlashes(v);
    assert !IsWhitespace(u[0]) && !IsWhitespace(u[|u| - 1]);
    assert Trim(u) == u;
    assert !HasScheme(v);
    NormalizeUrlKeepsText(u);
  }

  /** A host name without a scheme gets `https://`. */
  lemma NormalizeUrlAddsSchemeExample(u: string)
    requires u == "example.com"
    ensures NormalizeUrl(u) == "https://example.com"
  {
    assert DefaultScheme + u == "https://example.com";
    assert AsciiLower(u[0]) == 'e';
    NormalizeUrlAddsScheme(u);
  }

  /** Trailing slashes go, an existing scheme stays. */
  lemma NormalizeUrlStripsSlashExample(u: string)
    requires u == "http://x.com/"
    ensures NormalizeUrl(u) == "http://x.com"
  {
    var v := "http://x.com";
    assert u == v + "/";
    assert v[..7] == "http://" && v[4..7] == "://";
    NormalizeUrlDropsSlash(v);
  }

  /** A text that is not a URL is not rejected: it gets a scheme too. */
  lemma NormalizeUrlAcceptsAnyText(u: string)
    requires u == "not a url"
    ensures NormalizeUrl(u) == "https://not a url"
  {
    assert DefaultScheme + u == "https://not a url";
    assert AsciiLower(u[0]) == 'n';
    NormalizeUrlAddsScheme(u);
  }
}
