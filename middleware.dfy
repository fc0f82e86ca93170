/**
 * The request middleware (src/middleware.ts): it builds one Content Security
 * Policy string by collapsing the whitespace of a template, forwards the
 * request with a nonce and that policy, and answers with the policy, the
 * CORS headers and, for an allowed origin, that origin echoed back; an
 * `OPTIONS` preflight gets an empty 204 answer carrying the same headers.
 *
 * Header names are kept in the lower-case form that the Fetch `Headers`
 * class stores, so a set replaces an existing header whatever its case.
 */
module Middleware {
  import opened Wrappers

  // ---------------------------------------------------------------------------
  // Whitespace normalisation: `replace(/\s+/g, " ").trim()`
  // ---------------------------------------------------------------------------

  /** The characters of the JavaScript `\s` class, which is also the set `trim` removes. */
  predicate IsSpace(c: char) {
    || c == '\t' || c == '\n' || c == '\U{000B}' || c == '\U{000C}' || c == '\r' || c == ' '
    || c == '\U{00A0}' || c == '\U{1680}' || '\U{2000}' <= c <= '\U{200A}'
    || c == '\U{2028}' || c == '\U{2029}' || c == '\U{202F}' || c == '\U{205F}'
    || c == '\U{3000}' || c == '\U{FEFF}'
  }

  /** The string without its leading whitespace. */
  function SkipSpaces(s: string): (r: string)
    ensures |r| <= |s| && r == s[|s| - |r|..]
    ensures r == [] || !IsSpace(r[0])
    ensures s != [] && IsSpace(s[0]) ==> |r| < |s|
    ensures forall i :: 0 <= i < |s| - |r| ==> IsSpace(s[i])
  {
    if s != [] && IsSpace(s[0]) then SkipSpaces(s[1..]) else s
  }

  /** The string without its trailing whitespace. */
  function TrimEnd(s: string): (r: string)
    ensures |r| <= |s| && r == s[..|r|]
    ensures r == [] || !IsSpace(r[|r| - 1])
    ensures forall i :: |r| <= i < |s| ==> IsSpace(s[i])
  {
    if s != [] && IsSpace(s[|s| - 1]) then TrimEnd(s[..|s| - 1]) else s
  }

  /** `String.prototype.trim`. */
  function Trim(s: string): string {
    TrimEnd(SkipSpaces(s))
  }

  /** No character is a whitespace character other than the plain space. */
  predicate OnlyPlainSpaces(s: string) {
    forall i :: 0 <= i < |s| && IsSpace(s[i]) ==> s[i] == ' '
  }

  /** No two whitespace characters are adjacent. */
  predicate NoAdjacentSpaces(s: string) {
    forall i :: 0 <= i < |s| - 1 ==> !(IsSpace(s[i]) && IsSpace(s[i + 1]))
  }

  /** The string neither starts nor ends with whitespace. */
  predicate Trimmed(s: string) {
    s == [] || (!IsSpace(s[0]) && !IsSpace(s[|s| - 1]))
  }

  /** A string in the form the normalisation produces. */
  predicate Normal(s: string) {
    OnlyPlainSpaces(s) && NoAdjacentSpaces(s) && Trimmed(s)
  }

  /** `replace(/\s+/g, " ")`: every maximal whitespace run becomes one space. */
  function CollapseSpaces(s: string): (r: string)
    ensures r == [] <==> s == []
    ensures s != [] ==> (IsSpace(r[0]) <==> IsSpace(s[0]))
    ensures OnlyPlainSpaces(r) && NoAdjacentSpaces(r)
    decreases |s|
  {
    if s == [] then []
    else if IsSpace(s[0]) then [' '] + CollapseSpaces(SkipSpaces(s))
    else [s[0]] + CollapseSpaces(s[1..])
  }

  /** The policy normalisation: collapse, then trim. */
  function NormalizeCsp(s: string): (r: string)
    ensures Normal(r)
  {
    var collapsed := CollapseSpaces(s);
    Trim(collapsed)
  }

  /**
   * The non-whitespace characters of `s` in order, each paired with whether
   * whitespace comes right before it; `afterSpace` is the flag for the first.
   * Two strings with the same marks differ only in how their whitespace runs
   * are spelled.
   */
  function Marks(s: string, afterSpace: bool): seq<(char, bool)>
    decreases |s|
  {
    if s == [] then []
    else if IsSpace(s[0]) then Marks(s[1..], true)
    else [(s[0], afterSpace)] + Marks(s[1..], false)
  }

  /** Leading whitespace only sets the flag of the first mark. */
  lemma {:induction false} MarksSkipSpaces(s: string, afterSpace: bool)
    requires s != [] && IsSpace(s[0])
    ensures Marks(s, afterSpace) == Marks(SkipSpaces(s), true)
  {
    if s[1..] != [] && IsSpace(s[1]) {
      MarksSkipSpaces(s[1..], true);
    }
  }

  /** Collapsing whitespace keeps the marks: the same text, with a space exactly where a run was. */
  lemma {:induction false} MarksCollapse(s: string, afterSpace: bool)
    ensures Marks(CollapseSpaces(s), afterSpace) == Marks(s, afterSpace)
    decreases |s|
  {
    if s == [] {
    } else if IsSpace(s[0]) {
      var rest := SkipSpaces(s);
      MarksCollapse(rest, true);
      MarksSkipSpaces(s, afterSpace);
      assert CollapseSpaces(s) == [' '] + CollapseSpaces(rest);
      assert Marks([' '] + CollapseSpaces(rest), afterSpace) == Marks(CollapseSpaces(rest), true) by {
        assert ([' '] + CollapseSpaces(rest))[1..] == CollapseSpaces(rest);
      }
    } else {
      MarksCollapse(s[1..], false);
      assert CollapseSpaces(s) == [s[0]] + CollapseSpaces(s[1..]);
      assert ([s[0]] + CollapseSpaces(s[1..]))[1..] == CollapseSpaces(s[1..]);
    }
  }

  /** One trailing whitespace character adds no mark. */
  lemma {:induction false} MarksTrailingSpace(s: string, c: char, afterSpace: bool)
    requires IsSpace(c)
    ensures Marks(s + [c], afterSpace) == Marks(s, afterSpace)
    decreases |s|
  {
    if s == [] {
      assert Marks([c], afterSpace) == Marks([], true);
    } else {
      assert (s + [c])[1..] == s[1..] + [c];
      MarksTrailingSpace(s[1..], c, IsSpace(s[0]));
    }
  }

  /** Trailing whitespace adds no mark. */
  lemma {:induction false} MarksTrimEnd(s: string, afterSpace: bool)
    ensures Marks(TrimEnd(s), afterSpace) == Marks(s, afterSpace)
    decreases |s|
  {
    if s != [] && IsSpace(s[|s| - 1]) {
      var init := s[..|s| - 1];
      MarksTrimEnd(init, afterSpace);
      MarksTrailingSpace(init, s[|s| - 1], afterSpace);
      assert init + [s[|s| - 1]] == s;
    }
  }

  /**
   * The normalised policy has the marks of its template: the same
   * non-whitespace text in the same order, with one space exactly where the
   * template had a whitespace run between two pieces of text.
   */
  lemma NormalizeKeepsMarks(s: string)
    ensures Marks(NormalizeCsp(s), true) == Marks(s, true)
  {
    var collapsed := CollapseSpaces(s);
    MarksCollapse(s, true);
    MarksTrimEnd(SkipSpaces(collapsed), true);
    if collapsed != [] && IsSpace(collapsed[0]) {
      MarksSkipSpaces(collapsed, true);
    }
  }

  /** A string already in normal form is left alone by the collapse. */
  lemma {:induction false} CollapseFixesPlainSpacing(s: string)
    requires OnlyPlainSpaces(s) && NoAdjacentSpaces(s)
    ensures CollapseSpaces(s) == s
    decreases |s|
  {
    if s != [] {
      var tail := s[1..];
      assert OnlyPlainSpaces(tail) && NoAdjacentSpaces(tail) by {
        forall i | 0 <= i < |tail| ensures IsSpace(tail[i]) ==> tail[i] == ' ' {
          assert tail[i] == s[i + 1];
        }
        forall i | 0 <= i < |tail| - 1 ensures !(IsSpace(tail[i]) && IsSpace(tail[i + 1])) {
          assert tail[i] == s[i + 1] && tail[i + 1] == s[i + 2];
        }
      }
      CollapseFixesPlainSpacing(tail);
      if IsSpace(s[0]) {
        assert tail == [] || !IsSpace(tail[0]);
        assert SkipSpaces(s) == tail;
      }
    }
  }

  /** Normalising twice gives the same policy as normalising once. */
  lemma NormalizeIdempotent(s: string)
    ensures NormalizeCsp(NormalizeCsp(s)) == NormalizeCsp(s)
  {
    var once := NormalizeCsp(s);
    CollapseFixesPlainSpacing(once);
    assert SkipSpaces(once) == once;
    assert TrimEnd(once) == once;
  }

  /** The policy template, whitespace as written. */
  const CSP_TEMPLATE: string := @"
    default-src 'self';
    script-src 'self' 'unsafe-eval' 'unsafe-inline';
    style-src 'self' 'unsafe-inline';
    img-src 'self' data: https:;
    font-src 'self';
    connect-src 'self' 
      https://farcaster.xyz 
      https://client.farcaster.xyz 
      https://warpcast.com 
      https://client.warpcast.com 
      https://wrpcd.net 
      https://*.wrpcd.net 
      https://privy.farcaster.xyz 
      https://privy.warpcast.com 
      https://auth.privy.io 
      https://*.rpc.privy.systems 
      https://cloudflareinsights.com 
      https://explorer-api.walletconnect.com 
      https://*.walletconnect.com 
      https://*.walletconnect.org 
      https://*.base.org 
      https://mainnet.base.org
      https://base-mainnet.g.alchemy.com
      https://*.alchemy.com
      https://1rpc.io 
      wss://*.base.org 
      ws://*.base.org 
      http://*.base.org 
      https://*.base.org 
      https://relay.walletconnect.com 
      https://registry.walletconnect.com 
      https://verify.walletconnect.com 
      https://explorer-api.walletconnect.com 
      https://api.walletconnect.com 
      wss://*.walletconnect.com 
      https://*.walletconnect.org 
      wss://*.walletconnect.org
      https://api.portals.fi
      https://*.portals.fi;
  "

  /**
   * The policy sent with every request and every response. (Normalising
   * `CSP_TEMPLATE + []` rather than the bare literal keeps the verifier from
   * evaluating the normalisation character by character.)
   */
  function CspHeader(): (csp: string)
    ensures Normal(csp)
  {
    assert CSP_TEMPLATE + [] == CSP_TEMPLATE;
    NormalizeCsp(CSP_TEMPLATE + [])
  }

  // ---------------------------------------------------------------------------
  // Origin allow-list
  // ---------------------------------------------------------------------------

  const ALLOWED_ORIGINS: seq<string> := [
    "https://wallet.farcaster.xyz",
    "https://client.warpcast.com",
    "https://explorer-api.walletconnect.com",
    "https://*.walletconnect.com",
    "https://*.walletconnect.org"
  ]

  /** The position of the first `c` in `s`. */
  function IndexOf(s: string, c: char): (k: nat)
    requires c in s
    ensures k < |s| && s[k] == c && c !in s[..k]
  {
    if s[0] == c then 0
    else
      assert c in s[1..] by { assert s == [s[0]] + s[1..]; }
      var k := 1 + IndexOf(s[1..], c);
      assert s[..k] == [s[0]] + s[1..][..k - 1];
      k
  }

  /** `String.prototype.replace` with a one-character string pattern: only the first occurrence goes. */
  function RemoveFirst(s: string, c: char): (r: string)
    ensures c !in s ==> r == s
    ensures c in s ==> |r| == |s| - 1 && r == s[..IndexOf(s, c)] + s[IndexOf(s, c) + 1..]
  {
    if c in s then
      var k := IndexOf(s, c);
      s[..k] + s[k + 1..]
    else
      s
  }

  /** `String.prototype.endsWith`. */
  predicate EndsWith(s: string, suffix: string) {
    |suffix| <= |s| && s[|s| - |suffix|..] == suffix
  }

  /** One entry's test: an entry containing `*` matches origins ending with the entry minus its first `*`; any other entry only itself. */
  predicate EntryMatches(entry: string, origin: string) {
    if '*' in entry then EndsWith(origin, RemoveFirst(entry, '*')) else origin == entry
  }

  /** `allowedOrigins.some(...)`. */
  function AnyMatches(entries: seq<string>, origin: string): (b: bool)
    ensures b <==> exists i :: 0 <= i < |entries| && EntryMatches(entries[i], origin)
  {
    if entries == [] then false
    else EntryMatches(entries[0], origin) || AnyMatches(entries[1..], origin)
  }

  /** The request's `origin` header is present, non-empty and matches some entry. */
  predicate OriginAllowed(origin: Option<string>) {
    origin.Some? && origin.value != "" && AnyMatches(ALLOWED_ORIGINS, origin.value)
  }

  /** The first occurrence is the one `IndexOf` finds. */
  lemma {:induction false} IndexOfFirst(s: string, c: char, k: nat)
    requires k < |s| && s[k] == c && c !in s[..k]
    ensures IndexOf(s, c) == k
  {
    if k > 0 {
      assert s[0] == s[..k][0];
      assert s[1..][..k - 1] == s[1..k];
      assert s[1..k] == s[..k][1..];
      IndexOfFirst(s[1..], c, k - 1);
    }
  }

  /** Removing the `*` right after `scheme` leaves `scheme` followed by the rest. */
  lemma RemoveStarAfter(scheme: string, rest: string)
    requires '*' !in scheme
    ensures RemoveFirst(scheme + "*" + rest, '*') == scheme + rest
  {
    var entry := scheme + "*" + rest;
    assert entry[..|scheme|] == scheme;
    IndexOfFirst(entry, '*', |scheme|);
    assert entry[|scheme| + 1..] == rest;
  }

  /**
   * A wildcard entry `scheme*rest`, with no `*` in `scheme`, admits exactly
   * the origins that end with `scheme + rest`: the `*` is dropped, not
   * treated as a pattern.
   */
  lemma WildcardEntryMatches(scheme: string, rest: string, origin: string)
    requires '*' !in scheme
    ensures EntryMatches(scheme + "*" + rest, origin) <==> EndsWith(origin, scheme + rest)
  {
    var entry := scheme + "*" + rest;
    assert entry[|scheme|] == '*';
    RemoveStarAfter(scheme, rest);
  }

  /** An entry without `*` admits only the origin equal to it. */
  lemma ExactEntryMatches(entry: string, origin: string)
    requires '*' !in entry
    ensures EntryMatches(entry, origin) <==> origin == entry
  {
  }

  /** The three exact entries admit only themselves. */
  lemma ExactEntriesMatch(origin: string)
    ensures EntryMatches(ALLOWED_ORIGINS[0], origin) <==> origin == "https://wallet.farcaster.xyz"
    ensures EntryMatches(ALLOWED_ORIGINS[1], origin) <==> origin == "https://client.warpcast.com"
    ensures EntryMatches(ALLOWED_ORIGINS[2], origin) <==> origin == "https://explorer-api.walletconnect.com"
  {
    assert ALLOWED_ORIGINS[0] == "https://wallet.farcaster.xyz" && '*' !in "https://wallet.farcaster.xyz";
    assert ALLOWED_ORIGINS[1] == "https://client.warpcast.com" && '*' !in "https://client.warpcast.com";
    assert ALLOWED_ORIGINS[2] == "https://explorer-api.walletconnect.com" && '*' !in "https://explorer-api.walletconnect.com";
  }

  /** The `*.walletconnect.com` entry admits exactly the origins ending with `https://.walletconnect.com`. */
  lemma WalletConnectComEntryMatches(origin: string)
    ensures EntryMatches(ALLOWED_ORIGINS[3], origin) <==> EndsWith(origin, "https://.walletconnect.com")
  {
    assert ALLOWED_ORIGINS[3] == "https://" + "*" + ".walletconnect.com";
    assert "https://" + ".walletconnect.com" == "https://.walletconnect.com";
    WildcardEntryMatches("https://", ".walletconnect.com", origin);
  }

  /** The `*.walletconnect.org` entry admits exactly the origins ending with `https://.walletconnect.org`. */
  lemma WalletConnectOrgEntryMatches(origin: string)
    ensures EntryMatches(ALLOWED_ORIGINS[4], origin) <==> EndsWith(origin, "https://.walletconnect.org")
  {
    assert ALLOWED_ORIGINS[4] == "https://" + "*" + ".walletconnect.org";
    assert "https://" + ".walletconnect.org" == "https://.walletconnect.org";
    WildcardEntryMatches("https://", ".walletconnect.org", origin);
  }

  /** `some` over a five-entry list, spelled out. */
  lemma AnyMatchesFive(a: string, b: string, c: string, d: string, e: string, origin: string)
    ensures AnyMatches([a, b, c, d, e], origin) <==>
      EntryMatches(a, origin) || EntryMatches(b, origin) || EntryMatches(c, origin)
      || EntryMatches(d, origin) || EntryMatches(e, origin)
  {
    var entries := [a, b, c, d, e];
    assert entries[0] == a && entries[1] == b && entries[2] == c && entries[3] == d && entries[4] == e;
    forall i | 0 <= i < |entries|
      ensures entries[i] == a || entries[i] == b || entries[i] == c || entries[i] == d || entries[i] == e
    {
    }
  }

  /** An origin is allowed iff it is one of the three exact entries or ends with one of the two wildcard suffixes. */
  lemma AllowedOrigins(origin: string)
    requires origin != ""
    ensures OriginAllowed(Some(origin)) <==>
      || origin == "https://wallet.farcaster.xyz"
      || origin == "https://client.warpcast.com"
      || origin == "https://explorer-api.walletconnect.com"
      || EndsWith(origin, "https://.walletconnect.com")
      || EndsWith(origin, "https://.walletconnect.org")
  {
    var entries := ALLOWED_ORIGINS;
    assert entries == [entries[0], entries[1], entries[2], entries[3], entries[4]];
    AnyMatchesFive(entries[0], entries[1], entries[2], entries[3], entries[4], origin);
    ExactEntriesMatch(origin);
    WalletConnectComEntryMatches(origin);
    WalletConnectOrgEntryMatches(origin);
  }

  /** A suffix fixes the characters at the end of the string. */
  lemma EndsWithAt(s: string, suffix: string, k: int)
    requires EndsWith(s, suffix) && 0 <= k < |suffix|
    ensures s[|s| - |suffix| + k] == suffix[k]
  {
    assert s[|s| - |suffix|..][k] == suffix[k];
  }

  /**
   * `scheme + host + rest` does not end with `scheme + rest` when `scheme`
   * ends with `/` and `host` is non-empty and does not: the character before
   * `rest` would have to be both.
   */
  lemma HostBreaksSuffix(scheme: string, host: string, rest: string)
    requires scheme != [] && scheme[|scheme| - 1] == '/'
    requires host != [] && host[|host| - 1] != '/'
    ensures !EndsWith(scheme + host + rest, scheme + rest)
  {
    var origin := scheme + host + rest;
    var suffix := scheme + rest;
    if EndsWith(origin, suffix) {
      EndsWithAt(origin, suffix, |scheme| - 1);
    }
  }

  /** Equal strings with the same prefix and suffix have the same middle. */
  lemma SameMiddle(prefix: string, x: string, y: string, suffix: string)
    requires prefix + x + suffix == prefix + y + suffix
    ensures x == y
  {
    var s := prefix + x + suffix;
    assert x == s[|prefix|..|s| - |suffix|];
    assert y == (prefix + y + suffix)[|prefix|..|s| - |suffix|];
  }

  /** A subdomain origin ends with neither wildcard suffix. */
  lemma SubdomainMissesWildcards(host: string)
    requires host != "" && host[|host| - 1] != '/'
    ensures !EndsWith("https://" + host + ".walletconnect.com", "https://.walletconnect.com")
    ensures !EndsWith("https://" + host + ".walletconnect.com", "https://.walletconnect.org")
  {
    var origin := "https://" + host + ".walletconnect.com";
    HostBreaksSuffix("https://", host, ".walletconnect.com");
    assert "https://" + ".walletconnect.com" == "https://.walletconnect.com";
    assert origin[|origin| - 1] == 'm';
    if EndsWith(origin, "https://.walletconnect.org") {
      EndsWithAt(origin, "https://.walletconnect.org", 25);
    }
  }

  /** A subdomain origin other than `explorer-api` is none of the exact entries. */
  lemma SubdomainMissesExactEntries(host: string)
    requires host != "explorer-api"
    ensures "https://" + host + ".walletconnect.com" != "https://wallet.farcaster.xyz"
    ensures "https://" + host + ".walletconnect.com" != "https://client.warpcast.com"
    ensures "https://" + host + ".walletconnect.com" != "https://explorer-api.walletconnect.com"
  {
    var origin := "https://" + host + ".walletconnect.com";
    assert origin[|origin| - 1] == 'm' && origin[|origin| - 18] == '.';
    assert "https://wallet.farcaster.xyz"[27] == 'z';
    assert "https://client.warpcast.com"[9] == 'l';
    if origin == "https://explorer-api.walletconnect.com" {
      assert "https://explorer-api.walletconnect.com" == "https://" + "explorer-api" + ".walletconnect.com";
      SameMiddle("https://", host, "explorer-api", ".walletconnect.com");
    }
  }

  /**
   * No subdomain origin `https://<host>.walletconnect.com` passes, unless the
   * host is the one exact entry or ends with a `/`: the wildcard entries
   * never admit a real subdomain such as `relay`.
   */
  lemma SubdomainsRejected(host: string)
    requires host != "" && host[|host| - 1] != '/' && host != "explorer-api"
    ensures !OriginAllowed(Some("https://" + host + ".walletconnect.com"))
  {
    var origin := "https://" + host + ".walletconnect.com";
    AllowedOrigins(origin);
    SubdomainMissesWildcards(host);
    SubdomainMissesExactEntries(host);
  }

  /** `https://relay.walletconnect.com` is not allowed. */
  lemma RelayRejected()
    ensures !OriginAllowed(Some("https://relay.walletconnect.com"))
  {
    SubdomainsRejected("relay");
    assert "https://" + "relay" + ".walletconnect.com" == "https://relay.walletconnect.com";
  }

  // ---------------------------------------------------------------------------
  // Header assembly
  // ---------------------------------------------------------------------------

  type Headers = map<string, string>

  datatype Request = Request(httpMethod: string, headers: Headers)

  /** The pass-through response (forwarding the rewritten request headers) or the empty preflight answer. */
  datatype Response =
    | Next(forwardedHeaders: Headers, headers: Headers)
    | Empty(status: int, headers: Headers)

  const ALLOW_METHODS := "GET, POST, OPTIONS, PUT, DELETE, HEAD"
  const ALLOW_HEADERS := "Content-Type, Authorization, X-Requested-With"
  const ALLOW_CREDENTIALS := "true"
  const MAX_AGE := "86400"

  function OriginOf(request: Request): Option<string> {
    if "origin" in request.headers then Some(request.headers["origin"]) else None
  }

  /**
   * The response's headers: the policy, the four fixed CORS headers whatever
   * the origin, and the request's origin echoed back exactly when it is allowed.
   */
  function ResponseHeaders(csp: string, origin: Option<string>): (headers: Headers)
    ensures headers.Keys ==
      {"content-security-policy", "access-control-allow-methods", "access-control-allow-headers",
       "access-control-allow-credentials", "access-control-max-age"}
      + (if OriginAllowed(origin) then {"access-control-allow-origin"} else {})
    ensures headers["content-security-policy"] == csp
    ensures OriginAllowed(origin) ==> headers["access-control-allow-origin"] == origin.value
    ensures headers["access-control-allow-methods"] == ALLOW_METHODS
    ensures headers["access-control-allow-headers"] == ALLOW_HEADERS
    ensures headers["access-control-allow-credentials"] == ALLOW_CREDENTIALS
    ensures headers["access-control-max-age"] == MAX_AGE
  {
    var headers := map["content-security-policy" := csp];
    var headers := if OriginAllowed(origin) then headers["access-control-allow-origin" := origin.value] else headers;
    headers["access-control-allow-methods" := ALLOW_METHODS]["access-control-allow-headers" := ALLOW_HEADERS]
      ["access-control-allow-credentials" := ALLOW_CREDENTIALS]["access-control-max-age" := MAX_AGE]
  }

  /** The forwarded request's headers: the original ones plus the nonce and the policy. */
  function ForwardedHeaders(request: Request, nonce: string, csp: string): (headers: Headers)
    ensures headers.Keys == request.headers.Keys + {"x-nonce", "content-security-policy"}
    ensures headers["x-nonce"] == nonce && headers["content-security-policy"] == csp
    ensures forall name :: name in request.headers && name != "x-nonce" && name != "content-security-policy" ==>
      headers[name] == request.headers[name]
  {
    request.headers["x-nonce" := nonce]["content-security-policy" := csp]
  }

  /**
   * The middleware's answer for a given policy string `csp`: the forwarded
   * request and the response carry that same policy.
   */
  method Respond(request: Request, nonce: string, csp: string) returns (response: Response)
    ensures response.Empty? <==> request.httpMethod == "OPTIONS"
    ensures response.Empty? ==> response.status == 204
    ensures response.Next? ==> response.forwardedHeaders == ForwardedHeaders(request, nonce, csp)
    ensures response.headers == ResponseHeaders(csp, OriginOf(request))
  {
    var requestHeaders := request.headers;
    requestHeaders := requestHeaders["x-nonce" := nonce];
    requestHeaders := requestHeaders["content-security-policy" := csp];

    var headers: Headers := map["content-security-policy" := csp];

    var origin := OriginOf(request);
    if OriginAllowed(origin) {
      headers := headers["access-control-allow-origin" := origin.value];
    }
    headers := headers["access-control-allow-methods" := ALLOW_METHODS];
    headers := headers["access-control-allow-headers" := ALLOW_HEADERS];
    headers := headers["access-control-allow-credentials" := ALLOW_CREDENTIALS];
    headers := headers["access-control-max-age" := MAX_AGE];

    if request.httpMethod == "OPTIONS" {
      return Empty(204, headers);
    }
    return Next(requestHeaders, headers);
  }

  /** The middleware: `nonce` stands for the random value it generates. */
  method Handle(request: Request, nonce: string) returns (response: Response)
    ensures response.Empty? <==> request.httpMethod == "OPTIONS"
    ensures response.Empty? ==> response.status == 204
    ensures response.Next? ==> response.forwardedHeaders == ForwardedHeaders(request, nonce, CspHeader())
    ensures response.headers == ResponseHeaders(CspHeader(), OriginOf(request))
  {
    var csp := CspHeader();
    response := Respond(request, nonce, csp);
  }
}
