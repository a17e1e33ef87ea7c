/** firebase-config.js: the build step that writes the hosting configuration.
    The redirects read from YAML are filtered and given a default status code,
    and a production build appends two security headers to the first header
    rule. Reading and writing files, YAML parsing and the environment are not
    modelled: their results are parameters. */
module FirebaseConfig {
  import opened Js

  /** A parsed YAML redirect. `redirectType` is the `type` key when it is a
      number, `None` when it is missing or not a number. */
  datatype RawRedirect = RawRedirect(source: Option<string>, destination: Option<string>, redirectType: Option<int>)

  /** A redirect of the hosting configuration. */
  datatype Redirect = Redirect(source: string, destination: string, redirectType: int)

  /** A `{key, value}` response header. */
  datatype Header = Header(key: string, value: string)

  const DefaultType: int := 301

  const CspPrefix: string := "script-src 'strict-dynamic' "
  const CspSuffix: string :=
    " 'unsafe-inline' http: https:; object-src 'none'; base-uri 'self'; frame-ancestors 'self'; report-uri https://csp.withgoogle.com/csp/webdev"

  /** `[301, 302].includes(type)`. */
  predicate AllowedType(t: Option<int>): (b: bool)
    ensures b <==> t.Some? && t.value in [301, 302]
  {
    t == Some(301) || t == Some(302)
  }

  /** `redirect.source && redirect.destination`. */
  predicate Kept(r: RawRedirect): (b: bool)
    ensures b <==> r.source.Some? && r.destination.Some? && r.source.value != "" && r.destination.value != ""
  {
    Truthy(r.source) && Truthy(r.destination)
  }

  /** The entry the reducer pushes for a kept redirect. */
  function Normalise(r: RawRedirect): (out: Redirect)
    requires Kept(r)
    ensures out.redirectType == 301 || out.redirectType == 302
    ensures AllowedType(r.redirectType) ==> out.redirectType == r.redirectType.value
    ensures !AllowedType(r.redirectType) ==> out.redirectType == DefaultType
    ensures out.source == r.source.value && out.destination == r.destination.value
  {
    var t := if AllowedType(r.redirectType) then r.redirectType.value else DefaultType;
    Redirect(r.source.value, r.destination.value, t)
  }

  /** The reducer's result, declaratively. */
  function Normalised(parsed: seq<RawRedirect>): seq<Redirect> {
    if parsed == [] then []
    else
      var last := parsed[|parsed| - 1];
      Normalised(parsed[..|parsed| - 1]) + (if Kept(last) then [Normalise(last)] else [])
  }

  /** The value of the Content-Security-Policy header for `hashList`. */
  function CspValue(hashList: seq<string>): (v: string)
    ensures |v| >= |CspPrefix| + |CspSuffix|
    ensures v[..|CspPrefix|] == CspPrefix && v[|v| - |CspSuffix|..] == CspSuffix
    ensures |hashList| == 0 ==> v == CspPrefix + CspSuffix
    ensures |hashList| == 1 ==> v == CspPrefix + hashList[0] + CspSuffix
  {
    CspPrefix + Join(hashList, " ") + CspSuffix
  }

  /** The two headers a production build appends, in order. */
  function ProdHeaders(hashList: seq<string>): (hs: seq<Header>)
    ensures |hs| == 2
    ensures hs[0].key == "Content-Security-Policy" && |CspPrefix| <= |hs[0].value| && hs[0].value[..|CspPrefix|] == CspPrefix
    ensures hs[1] == Header("X-Frame-Options", "SAMEORIGIN")
  {
    [Header("Content-Security-Policy", CspValue(hashList)), Header("X-Frame-Options", "SAMEORIGIN")]
  }

  /** `parsedRedirects.reduce(...)`: push a normalised copy of every redirect
      with a source and a destination. */
  method ReduceRedirects(parsedRedirects: seq<RawRedirect>) returns (redirects: seq<Redirect>)
    ensures redirects == Normalised(parsedRedirects)
  {
    redirects := [];
    var i := 0;
    while i < |parsedRedirects|
      invariant 0 <= i <= |parsedRedirects|
      invariant redirects == Normalised(parsedRedirects[..i])
    {
      var redirect := parsedRedirects[i];
      var t := if AllowedType(redirect.redirectType) then redirect.redirectType.value else DefaultType;
      if Truthy(redirect.source) && Truthy(redirect.destination) {
        redirects := redirects + [Redirect(redirect.source.value, redirect.destination.value, t)];
      }
      assert parsedRedirects[..i + 1][..i] == parsedRedirects[..i];
      i := i + 1;
    }
    assert parsedRedirects[..i] == parsedRedirects;
  }

  /** The part of `firebase.incl.json` the script changes. */
  class HostingConfig {
    var redirects: seq<Redirect>
    /** `hosting.headers[0].headers`. */
    var firstRuleHeaders: seq<Header>

    constructor (redirects: seq<Redirect>, firstRuleHeaders: seq<Header>)
      ensures this.redirects == redirects && this.firstRuleHeaders == firstRuleHeaders
    {
      this.redirects := redirects;
      this.firstRuleHeaders := firstRuleHeaders;
    }

    /** The script's two steps: replace the redirects, then in production push
        the two headers after the existing ones. */
    method Configure(parsedRedirects: seq<RawRedirect>, isProd: bool, hashList: seq<string>)
      modifies this
      ensures redirects == Normalised(parsedRedirects)
      ensures isProd ==> firstRuleHeaders == old(firstRuleHeaders) + ProdHeaders(hashList)
      ensures !isProd ==> firstRuleHeaders == old(firstRuleHeaders)
    {
      redirects := ReduceRedirects(parsedRedirects);
      if isProd {
        firstRuleHeaders := firstRuleHeaders + [Header("Content-Security-Policy", CspValue(hashList))];
        firstRuleHeaders := firstRuleHeaders + [Header("X-Frame-Options", "SAMEORIGIN")];
      }
    }
  }

  /** The reducer distributes over concatenation, so it keeps the relative
      order of the entries it keeps. */
  lemma {:induction false} NormalisedAppend(a: seq<RawRedirect>, b: seq<RawRedirect>)
    ensures Normalised(a + b) == Normalised(a) + Normalised(b)
    decreases |b|
  {
    if b != [] {
      var b' := b[..|b| - 1];
      assert (a + b)[..|a + b| - 1] == a + b';
      NormalisedAppend(a, b');
    } else {
      assert a + b == a;
    }
  }

  /** Every output entry was made from a kept input entry: the one returned. */
  lemma {:induction false} NormalisedOrigin(parsed: seq<RawRedirect>, k: nat) returns (j: nat)
    requires k < |Normalised(parsed)|
    ensures j < |parsed| && Kept(parsed[j]) && Normalised(parsed)[k] == Normalise(parsed[j])
  {
    var prefix := parsed[..|parsed| - 1];
    if k < |Normalised(prefix)| {
      j := NormalisedOrigin(prefix, k);
      assert parsed[j] == prefix[j];
    } else {
      j := |parsed| - 1;
    }
  }

  /** There are no more outputs than inputs, and every output has type 301
      or 302. */
  lemma {:induction false} NormalisedSound(parsed: seq<RawRedirect>)
    ensures |Normalised(parsed)| <= |parsed|
    ensures forall k :: 0 <= k < |Normalised(parsed)| ==>
      Normalised(parsed)[k].redirectType == 301 || Normalised(parsed)[k].redirectType == 302
  {
    if parsed != [] {
      NormalisedSound(parsed[..|parsed| - 1]);
    }
  }

  /** Every input entry with a source and a destination appears in the output,
      normalised; an entry missing either is dropped. */
  lemma {:induction false} NormalisedComplete(parsed: seq<RawRedirect>, j: nat)
    requires j < |parsed|
    ensures Kept(parsed[j]) ==> Normalise(parsed[j]) in Normalised(parsed)
    ensures Normalised(parsed[..j] + [parsed[j]]) ==
      Normalised(parsed[..j]) + (if Kept(parsed[j]) then [Normalise(parsed[j])] else [])
  {
    var front := parsed[..j] + [parsed[j]];
    assert front[..|front| - 1] == parsed[..j];
    assert parsed == front + parsed[j + 1..];
    NormalisedAppend(front, parsed[j + 1..]);
  }

  /** The header value names every hash: between the fixed policy text the
      hashes can be read back by splitting on spaces. */
  lemma CspListsHashes(hashList: seq<string>)
    requires forall i :: 0 <= i < |hashList| ==> ' ' !in hashList[i]
    ensures var v := CspValue(hashList);
      && |v| >= |CspPrefix| + |CspSuffix|
      && v[..|CspPrefix|] == CspPrefix
      && v[|v| - |CspSuffix|..] == CspSuffix
      && (|hashList| >= 1 ==> Split(v[|CspPrefix|..|v| - |CspSuffix|], ' ') == hashList)
      && (|hashList| == 0 ==> v[|CspPrefix|..|v| - |CspSuffix|] == "")
  {
    var v := CspValue(hashList);
    var joined := Join(hashList, " ");
    assert v[|CspPrefix|..|v| - |CspSuffix|] == joined;
    if |hashList| >= 1 {
      SplitJoin(hashList, ' ');
    }
  }

  /** A production build over a configuration whose first rule has headers
      ends with exactly the two headers, CSP first; other builds add none. */
  method ProdBuildScenario(existing: seq<Header>, hashList: seq<string>)
    returns (prod: seq<Header>, dev: seq<Header>)
    ensures |prod| == |existing| + 2 && prod[..|existing|] == existing
    ensures prod[|existing|].key == "Content-Security-Policy" && prod[|existing| + 1] == Header("X-Frame-Options", "SAMEORIGIN")
    ensures dev == existing
  {
    var prodConfig := new HostingConfig([], existing);
    prodConfig.Configure([], true, hashList);
    prod := prodConfig.firstRuleHeaders;
    var devConfig := new HostingConfig([], existing);
    devConfig.Configure([], false, hashList);
    dev := devConfig.firstRuleHeaders;
  }
}
