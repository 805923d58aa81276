/**
 * The legacy signer `Auth::setAuthorization` (src/lib/auth/Auth.php). It
 * has the signature the `Request\Http` transport calls its signer with,
 * and the transport's flow is modelled with it. It merges the same four headers
 * into the options as the API client's signer, but signs other inputs: the
 * URL path without its query, and the `body` entry encoded with the default
 * flags.
 *
 * The nonce, the timestamp and the hash come from an `Auth_util` object
 * whose class is not part of this model: they are what `AuthUtil` holds.
 */
module LegacyAuth {
  import opened PhpValues
  import opened PhpStrings
  import opened PhpForeign
  import opened Signing
  import Client

  /** What `Auth_util` gives one call of `setAuthorization`: the results of
      `generateNonce()` and `dateNow()`, and `generateHash` itself, taking
      the six-entry array and the signing key. */
  datatype AuthUtil = AuthUtil(nonce: Value, timestamp: Value, generateHash: (HashInput, Value) -> Value)

  /** `$opts['uri']` as `parse_url` receives it: a missing or null URI is "". */
  function LegacyUri(opts: PhpArray): string
  {
    Stringify(Get(opts, "uri"))
  }

  /** The two signers read the URI in the same way. */
  lemma UriReadingsAgree(opts: PhpArray)
    ensures LegacyUri(opts) == UriOf(opts)
  {
  }

  /** The hash input the legacy signer assembles, the nonce and timestamp
      read back from the stamped headers. */
  function LegacyInput(f: Foreign, opts: PhpArray, clientId: Value, stamped: PhpArray): HashInput
  {
    var parsed := f.parseUrl(LegacyUri(opts));
    HashInput(clientId, OrElse(PathOf(parsed), Str("")), OrElse(Str(QueryOf(parsed)), Str("")),
              SignedBody(f, opts, "body", 0), Get(stamped, "nonce"), Get(stamped, "timestamp"))
  }

  /** The hash input in terms of the arguments: client id, path, query
      string, body, and the nonce and timestamp `Auth_util` produced. */
  function SigningInput(f: Foreign, opts: PhpArray, clientId: Value, util: AuthUtil): (h: HashInput)
    ensures h.path.Str? && h.qs.Str? && (h.body.Str? || h.body == Bool(false))
    ensures h.path != Str("0") && h.qs != Str("0")
  {
    var parsed := f.parseUrl(LegacyUri(opts));
    HashInput(clientId, OrElse(PathOf(parsed), Str("")), OrElse(Str(QueryOf(parsed)), Str("")),
              SignedBody(f, opts, "body", 0), util.nonce, util.timestamp)
  }

  /** The headers after the nonce, client id and timestamp assignments. */
  function Stamped(opts: PhpArray, clientId: Value, util: AuthUtil): PhpArray
  {
    StampHeaders(HeadersOf(opts), util.nonce, clientId, util.timestamp)
  }

  /** The nonce and timestamp the hash receives are the ones just stored in
      the headers. */
  lemma StampedInput(f: Foreign, opts: PhpArray, clientId: Value, util: AuthUtil)
    ensures LegacyInput(f, opts, clientId, Stamped(opts, clientId, util)) == SigningInput(f, opts, clientId, util)
  {
    var h := Stamped(opts, clientId, util);
    assert Get(h, "nonce") == util.nonce && Get(h, "timestamp") == util.timestamp;
  }

  /** `setAuthorization($options, $signKey, $clientId)`: the headers gain an
      `authorization` that is `generateHash` of the signing input under the
      signing key. */
  function SetAuthorization(options: Value, signKey: Value, clientId: Value, util: AuthUtil, f: Foreign)
    : (opts: PhpArray)
    requires SignableOptions(options)
    ensures Lookup(opts, "headers") == Some(Arr(SentHeaders(opts)))
    ensures Lookup(SentHeaders(opts), "authorization") ==
      Some(util.generateHash(SigningInput(f, ArrayOrEmpty(options), clientId, util), signKey))
  {
    var opts := ArrayOrEmpty(options);
    var stamped := Stamped(opts, clientId, util);
    var authorization := util.generateHash(LegacyInput(f, opts, clientId, stamped), signKey);
    StampedInput(f, opts, clientId, util);
    SignedHeaders(opts, HeadersOf(opts), util.nonce, clientId, util.timestamp, authorization);
    Authorize(opts, stamped, authorization)
  }

  /** Only `headers` changes; every header other than the four keeps its
      value; the nonce and timestamp are the ones `Auth_util` produced and
      the `clientid` header is the `clientId` argument, which is also the
      client id the hash receives. */
  lemma SetAuthorizationHeaders(options: Value, signKey: Value, clientId: Value, util: AuthUtil, f: Foreign)
    requires SignableOptions(options)
    ensures var opts := SetAuthorization(options, signKey, clientId, util, f);
      && (forall k :: k != "headers" ==> Lookup(opts, k) == Lookup(ArrayOrEmpty(options), k))
      && (forall k :: !IsAuthHeader(k) ==>
            Lookup(SentHeaders(opts), k) == Lookup(HeadersOf(ArrayOrEmpty(options)), k))
      && Lookup(SentHeaders(opts), "nonce") == Some(util.nonce)
      && Lookup(SentHeaders(opts), "clientid") == Some(clientId)
      && Lookup(SentHeaders(opts), "timestamp") == Some(util.timestamp)
      && SigningInput(f, ArrayOrEmpty(options), clientId, util).clientId == clientId
  {
    var opts := ArrayOrEmpty(options);
    var stamped := Stamped(opts, clientId, util);
    SignedHeaders(opts, HeadersOf(opts), util.nonce, clientId, util.timestamp,
                  util.generateHash(LegacyInput(f, opts, clientId, stamped), signKey));
  }

  /** On a proper options array whose headers carry none of the four, the
      options keep their keys (`headers` appended if it was missing) and the
      headers gain exactly the four, after the existing ones. */
  lemma SetAuthorizationKeys(options: Value, signKey: Value, clientId: Value, util: AuthUtil, f: Foreign)
    requires SignableOptions(options)
    requires ArrayOrEmpty(options).Valid() && HeadersOf(ArrayOrEmpty(options)).Valid()
    requires "nonce" !in HeadersOf(ArrayOrEmpty(options)).keys
    requires "clientid" !in HeadersOf(ArrayOrEmpty(options)).keys
    requires "timestamp" !in HeadersOf(ArrayOrEmpty(options)).keys
    requires "authorization" !in HeadersOf(ArrayOrEmpty(options)).keys
    ensures var opts := SetAuthorization(options, signKey, clientId, util, f);
      && opts.Valid()
      && opts.keys == (if "headers" in ArrayOrEmpty(options).keys then ArrayOrEmpty(options).keys
                       else ArrayOrEmpty(options).keys + ["headers"])
      && SentHeaders(opts).Valid()
      && SentHeaders(opts).keys == HeadersOf(ArrayOrEmpty(options)).keys + AuthHeaderNames
  {
    var opts := ArrayOrEmpty(options);
    var stamped := Stamped(opts, clientId, util);
    SignedKeys(opts, HeadersOf(opts), util.nonce, clientId, util.timestamp,
               util.generateHash(LegacyInput(f, opts, clientId, stamped), signKey));
  }

  /** A falsy `$options` (null, false, "", "0", 0, []) is signed as `[]`: the
      result holds the `headers` entry alone, with the four headers. */
  lemma FalsyOptionsAreEmpty(options: Value, signKey: Value, clientId: Value, util: AuthUtil, f: Foreign)
    requires !Truthy(options)
    requires options.Arr? ==> options.arr.Valid()
    ensures SignableOptions(options) && SignableOptions(Arr(EmptyArray))
    ensures SetAuthorization(options, signKey, clientId, util, f)
         == SetAuthorization(Arr(EmptyArray), signKey, clientId, util, f)
    ensures var opts := SetAuthorization(options, signKey, clientId, util, f);
      opts.keys == ["headers"] && SentHeaders(opts).keys == AuthHeaderNames
  {
    if options.Arr? {
      assert options.arr.vals == map[];
    }
    assert ArrayOrEmpty(options) == EmptyArray;
    SetAuthorizationKeys(options, signKey, clientId, util, f);
  }

  /** The signed path is the URL path alone, "" when it is falsy; the query
      string is the query, "" when absent or falsy. */
  lemma SignedPathAndQuery(f: Foreign, opts: PhpArray, clientId: Value, util: AuthUtil)
    ensures var parsed := f.parseUrl(LegacyUri(opts));
      var h := SigningInput(f, opts, clientId, util);
      && Stringify(h.path) == (if Truthy(PathOf(parsed)) then Stringify(PathOf(parsed)) else "")
      && Stringify(h.qs) == (if TruthyString(QueryOf(parsed)) then QueryOf(parsed) else "")
      && (parsed.Some? && parsed.value.query.None? ==> Stringify(h.qs) == "")
  {
  }

  /** With a path `p` and a truthy query `q`, the legacy signer signs `p`
      followed by `q`, where the API client signs `p?q` followed by `q`: the
      two signers disagree on every URI with a query. */
  lemma SignersDisagreeOnQuery(f: Foreign, opts: PhpArray, clientId: Value, util: AuthUtil, p: string, q: string)
    requires f.parseUrl(LegacyUri(opts)) == Some(UrlParts(Some(p), Some(q)))
    requires TruthyString(p) && TruthyString(q)
    ensures var h := SigningInput(f, opts, clientId, util);
      Stringify(h.path) + Stringify(h.qs) == p + q
    ensures var parsed := f.parseUrl(UriOf(opts));
      && Client.SignedPath(parsed) + Client.SignedQuery(parsed) == p + "?" + q + q
      && p + q != Client.SignedPath(parsed) + Client.SignedQuery(parsed)
  {
    UriReadingsAgree(opts);
    Client.QueryIsSignedTwice(f.parseUrl(UriOf(opts)), p, q);
    assert |p + q| < |p + "?" + q + q|;
  }

  /** The body segment is "{}" when no `body` is set and otherwise the
      default-flag JSON text of the body (flags 0: slashes and non-ASCII
      characters escaped). */
  lemma SignedBodySegment(f: Foreign, opts: PhpArray, clientId: Value, util: AuthUtil)
    ensures var body := SigningInput(f, opts, clientId, util).body;
      && (!Isset(opts, "body") ==> body == Str("{}"))
      && (Isset(opts, "body") && f.jsonEncode(opts.vals["body"], 0).Some? ==>
            body == Str(f.jsonEncode(opts.vals["body"], 0).value))
      && (Stringify(body) == "{}" <==>
            !Isset(opts, "body") || f.jsonEncode(opts.vals["body"], 0) == Some("{}"))
  {
    BracesBodyMeansNoBody(f, opts, "body", 0);
  }
}
