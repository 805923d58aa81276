/**
 * The request-signing steps shared by the API client's signer
 * (src/ApiClient.php) and the legacy signer (src/lib/auth/Auth.php): the
 * hash input and its source string, the header stamping, and the signed
 * request components read off the options (path, query string, body).
 * The client's own nonce and timestamp helpers are here as well.
 */
module Signing {
  import opened PhpValues
  import opened PhpStrings
  import opened PhpForeign

  /** The four headers a signer adds, in the order it assigns them. */
  const AuthHeaderNames: seq<string> := ["nonce", "clientid", "timestamp", "authorization"]

  /** `k` is one of the four headers a signer adds. */
  predicate IsAuthHeader(k: string)
  {
    k == "nonce" || k == "clientid" || k == "timestamp" || k == "authorization"
  }

  /** A value `rand(10, 99)` can return. */
  type TwoDigit = r: int | 10 <= r <= 99 witness 10

  /** The clock and random readings one signing by the API client makes, in
      the order the code makes them: `dateNow()` inside `generateNonce`, then
      `rand(10, 99)`, then the second `dateNow()` for the `timestamp` header.
      A millisecond reading is what `round(microtime(true) * 1000)` returns. */
  datatype Clock = Clock(nonceMillis: nat, rand: TwoDigit, stampMillis: nat)

  /** The six-entry array `generateHash` receives. */
  datatype HashInput = HashInput(
    clientId: Value, path: Value, qs: Value, body: Value, nonce: Value, timestamp: Value)

  /** The string `generateHash` signs: the six inputs, each converted to a
      string, joined with no separator. */
  function HashSource(h: HashInput): string
  {
    Stringify(h.clientId) + Stringify(h.path) + Stringify(h.qs)
      + Stringify(h.body) + Stringify(h.nonce) + Stringify(h.timestamp)
  }

  /** `generateHash($options, $key)`, with `createHMAC` as the HMAC-SHA512. */
  function GenerateHash(f: Foreign, h: HashInput, key: string): string
  {
    f.hmacSha512(HashSource(h), key)
  }

  /** The hash sees its input only through the source string: two inputs
      that concatenate to the same text get the same hash, whatever parts
      they were cut into. */
  lemma GenerateHashOfSource(f: Foreign, h1: HashInput, h2: HashInput, key: string)
    requires HashSource(h1) == HashSource(h2)
    ensures GenerateHash(f, h1, key) == GenerateHash(f, h2, key)
    ensures GenerateHash(f, h1, key) == f.hmacSha512(HashSource(h2), key)
  {
  }

  /** A middle part is determined by the parts around it. */
  lemma MiddleDetermined(pre: string, b1: string, b2: string, post: string)
    requires pre + b1 + post == pre + b2 + post
    ensures b1 == b2
  {
    assert |b1| == |b2|;
    assert b1 == (pre + b1 + post)[|pre|..|pre| + |b1|];
    assert b2 == (pre + b2 + post)[|pre|..|pre| + |b2|];
  }

  /** The hash source is the six parts in their fixed order: with the other
      five parts fixed, two sources agree exactly when the bodies do. */
  lemma HashSourceDeterminesBody(h1: HashInput, h2: HashInput)
    requires h1.clientId == h2.clientId && h1.path == h2.path && h1.qs == h2.qs
    requires h1.nonce == h2.nonce && h1.timestamp == h2.timestamp
    ensures HashSource(h1) == HashSource(h2) <==> Stringify(h1.body) == Stringify(h2.body)
  {
    var pre := Stringify(h1.clientId) + Stringify(h1.path) + Stringify(h1.qs);
    var post := Stringify(h1.nonce) + Stringify(h1.timestamp);
    var b1, b2 := Stringify(h1.body), Stringify(h2.body);
    assert HashSource(h1) == pre + b1 + post;
    assert HashSource(h2) == pre + b2 + post;
    if HashSource(h1) == HashSource(h2) {
      MiddleDetermined(pre, b1, b2, post);
    }
  }

  /** The decimal text of a millisecond reading, as PHP converts the float. */
  function TimestampString(millis: nat): (s: string)
    ensures s == NatToString(millis)
  {
    Stringify(Float(millis))
  }

  /** `generateNonce()`: a suffix of the timestamp's text followed by the
      two random digits. `substr($ts, strlen($ts) - 6)` keeps the last six
      characters of a text of six or more; of a shorter text its offset is
      negative and counts from the end, so three characters or fewer are kept
      whole and four or five keep only their last `6 - length`. */
  function GenerateNonce(millis: nat, rand: TwoDigit): (nonce: string)
    ensures var ts := TimestampString(millis);
      && |nonce| - 2 == NonceCut(|ts|)
      && nonce[..|nonce| - 2] == ts[|ts| - (|nonce| - 2)..]
      && nonce[|nonce| - 2..] == NatToString(rand)
  {
    var ts := TimestampString(millis);
    var str := Substr(ts, |ts| - 6);
    var suffix := NatToString(rand);
    assert (str + suffix)[..|str|] == str && (str + suffix)[|str|..] == suffix by {
      NatToStringLength(rand, 1);
      NatToStringLength(rand, 2);
    }
    assert |str| == NonceCut(|ts|);
    str + suffix
  }

  /** How many characters of a reading's text of length `n` the nonce keeps. */
  function NonceCut(n: nat): nat
  {
    if n >= 6 then 6 else if n <= 3 then n else 6 - n
  }

  /** Digits stay digits when a string is cut and glued. */
  lemma DigitsGlued(ts: string, n: nat, suffix: string)
    requires AllDigits(ts) && AllDigits(suffix) && n <= |ts|
    ensures AllDigits(ts[|ts| - n..] + suffix)
  {
    var str := ts[|ts| - n..];
    assert forall i :: 0 <= i < |str| ==> str[i] == ts[|ts| - n + i];
    assert forall i :: 0 <= i < |str + suffix| ==>
      (str + suffix)[i] == if i < |str| then str[i] else suffix[i - |str|];
  }

  /** A nonce is made of decimal digits. */
  lemma NonceDigits(millis: nat, rand: TwoDigit)
    ensures AllDigits(GenerateNonce(millis, rand))
  {
    var ts := TimestampString(millis);
    var str := Substr(ts, |ts| - 6);
    DigitsGlued(ts, |str|, NatToString(rand));
  }

  /** For a reading of six digits or more the nonce is exactly the last six
      digits of the reading followed by the two random ones. */
  lemma NonceOfLongReading(millis: nat, rand: TwoDigit)
    requires millis >= 100000
    ensures var ts, nonce := TimestampString(millis), GenerateNonce(millis, rand);
      |nonce| == 8 && nonce[..6] == ts[|ts| - 6..]
  {
    var ts := TimestampString(millis);
    NatToStringLength(millis, 5);
    NatToStringLength(rand, 1);
    NatToStringLength(rand, 2);
    assert |ts| >= 6;
    assert |Substr(ts, |ts| - 6)| == 6;
  }

  /** `$x ? $x : $otherwise`: one of the two, truthy exactly when one of
      them is, and the fallback whenever the result is falsy. */
  function OrElse(x: Value, otherwise: Value): (r: Value)
    ensures r == x || r == otherwise
    ensures Truthy(x) ==> r == x
    ensures Truthy(r) <==> Truthy(x) || Truthy(otherwise)
    ensures !Truthy(r) ==> r == otherwise
  {
    if Truthy(x) then x else otherwise
  }

  /** `isset($a[$k]) ? $a[$k] : $otherwise`: the stored value or the
      fallback, and never null unless the fallback is, since `isset` treats
      a stored null as missing. */
  function IssetOr(a: PhpArray, k: string, otherwise: Value): (r: Value)
    ensures Lookup(a, k) == Some(r) || r == otherwise
    ensures Isset(a, k) ==> r == a.vals[k]
    ensures !Isset(a, k) ==> r == otherwise
    ensures r == Null ==> otherwise == Null
  {
    if Isset(a, k) then a.vals[k] else otherwise
  }

  /** Options a signer can process: an array or a falsy value, whose
      `headers` (when set) is an array or `false`, and whose `uri` is not an
      array. Assigning a key into `false` turns it into an array (as
      `HeadersOf` reads it); into a string, a number or `true` it is an
      error, and so are the other cases. */
  predicate SignableOptions(options: Value)
  {
    && (Truthy(options) ==> options.Arr?)
    && (Isset(ArrayOrEmpty(options), "headers") ==>
          Get(ArrayOrEmpty(options), "headers").Arr? || Get(ArrayOrEmpty(options), "headers") == Bool(false))
    && !Get(ArrayOrEmpty(options), "uri").Arr?
  }

  /** `isset($opts['headers']) ? $opts['headers'] : []`. */
  function HeadersOf(opts: PhpArray): PhpArray
  {
    ArrayOrEmpty(IssetOr(opts, "headers", Arr(EmptyArray)))
  }

  /** `isset($opts['uri']) ? $opts['uri'] : ''`, the URI the API client
      hands to `parse_url`. */
  function UriOf(opts: PhpArray): string
  {
    Stringify(IssetOr(opts, "uri", Str("")))
  }

  /** `isset($parsedUrl['query']) ? $parsedUrl['query'] : ''`. */
  function QueryOf(parsed: Option<UrlParts>): string
  {
    if parsed.Some? && parsed.value.query.Some? then parsed.value.query.value else ""
  }

  /** `$parsedUrl['path']`: null when the URL has no path or does not parse. */
  function PathOf(parsed: Option<UrlParts>): Value
  {
    if parsed.Some? && parsed.value.path.Some? then Str(parsed.value.path.value) else Null
  }

  /** The `body` entry of a hash input: the JSON text of `$opts[key]` when
      it is set, `false` when encoding fails, "{}" otherwise. */
  function SignedBody(f: Foreign, opts: PhpArray, key: string, flags: int): (body: Value)
    ensures body.Str? || body == Bool(false)
    ensures body == Bool(false) <==> Isset(opts, key) && f.jsonEncode(opts.vals[key], flags).None?
    ensures body.Str? && body.s != "{}" ==> Isset(opts, key) && f.jsonEncode(opts.vals[key], flags) == Some(body.s)
  {
    if Isset(opts, key) then
      match f.jsonEncode(opts.vals[key], flags)
      case Some(text) => Str(text)
      case None => Bool(false)
    else Str("{}")
  }

  /** The body segment is "{}" exactly when no body is set, or when the
      encoder itself returns "{}". */
  lemma BracesBodyMeansNoBody(f: Foreign, opts: PhpArray, key: string, flags: int)
    ensures Stringify(SignedBody(f, opts, key, flags)) == "{}" <==>
      !Isset(opts, key) || f.jsonEncode(opts.vals[key], flags) == Some("{}")
  {
  }

  /** The first three header assignments of a signer: `nonce`, `clientid`
      and `timestamp`, every other header untouched. */
  function StampHeaders(headers: PhpArray, nonce: Value, clientId: Value, timestamp: Value)
    : (h: PhpArray)
    ensures Lookup(h, "nonce") == Some(nonce)
    ensures Lookup(h, "clientid") == Some(clientId)
    ensures Lookup(h, "timestamp") == Some(timestamp)
    ensures forall k :: !IsAuthHeader(k) ==> Lookup(h, k) == Lookup(headers, k)
  {
    var h1 := Put(headers, "nonce", nonce);
    var h2 := Put(h1, "clientid", clientId);
    Put(h2, "timestamp", timestamp)
  }

  /** The last two assignments of a signer: `authorization` added to the
      stamped headers, which are stored back under `headers`. */
  function Authorize(opts: PhpArray, stamped: PhpArray, authorization: Value): (signed: PhpArray)
    ensures forall k :: k != "headers" ==> Lookup(signed, k) == Lookup(opts, k)
    ensures Lookup(signed, "headers") == Some(Arr(Put(stamped, "authorization", authorization)))
  {
    Put(opts, "headers", Arr(Put(stamped, "authorization", authorization)))
  }

  /** The headers of signed options. */
  function SentHeaders(opts: PhpArray): PhpArray
  {
    ArrayOrEmpty(Get(opts, "headers"))
  }

  /** What a signer's five assignments leave: only `headers` changes; in it
      every header other than the four keeps its value, and the four hold the
      values assigned. */
  lemma SignedHeaders(opts: PhpArray, h0: PhpArray, nonce: Value, clientId: Value, timestamp: Value,
                      authorization: Value)
    ensures var signed := Authorize(opts, StampHeaders(h0, nonce, clientId, timestamp), authorization);
      var h := SentHeaders(signed);
      && (forall k :: k != "headers" ==> Lookup(signed, k) == Lookup(opts, k))
      && Lookup(signed, "headers") == Some(Arr(h))
      && (forall k :: !IsAuthHeader(k) ==> Lookup(h, k) == Lookup(h0, k))
      && Lookup(h, "nonce") == Some(nonce)
      && Lookup(h, "clientid") == Some(clientId)
      && Lookup(h, "timestamp") == Some(timestamp)
      && Lookup(h, "authorization") == Some(authorization)
  {
    var stamped := StampHeaders(h0, nonce, clientId, timestamp);
    var signed := Authorize(opts, stamped, authorization);
    assert SentHeaders(signed) == Put(stamped, "authorization", authorization);
  }

  /** On proper arrays whose headers carry none of the four, signing keeps
      the option keys (appending `headers` when it was missing) and appends
      the four headers after the existing ones. */
  lemma SignedKeys(opts: PhpArray, h0: PhpArray, nonce: Value, clientId: Value, timestamp: Value,
                   authorization: Value)
    requires opts.Valid() && h0.Valid()
    requires "nonce" !in h0.keys && "clientid" !in h0.keys
    requires "timestamp" !in h0.keys && "authorization" !in h0.keys
    ensures var signed := Authorize(opts, StampHeaders(h0, nonce, clientId, timestamp), authorization);
      && signed.Valid()
      && signed.keys == (if "headers" in opts.keys then opts.keys else opts.keys + ["headers"])
      && SentHeaders(signed).Valid()
      && SentHeaders(signed).keys == h0.keys + AuthHeaderNames
  {
    var stamped := StampHeaders(h0, nonce, clientId, timestamp);
    StampedKeys(h0, nonce, clientId, timestamp, authorization);
    var h := Put(stamped, "authorization", authorization);
    PutValid(opts, "headers", Arr(h));
    assert SentHeaders(Authorize(opts, stamped, authorization)) == h;
  }

  /** Signing a proper array of headers gives a proper array. */
  lemma StampedValid(h0: PhpArray, nonce: Value, clientId: Value, timestamp: Value, authorization: Value)
    requires h0.Valid()
    ensures Put(StampHeaders(h0, nonce, clientId, timestamp), "authorization", authorization).Valid()
  {
    var h1 := Put(h0, "nonce", nonce);
    PutValid(h0, "nonce", nonce);
    var h2 := Put(h1, "clientid", clientId);
    PutValid(h1, "clientid", clientId);
    PutValid(h2, "timestamp", timestamp);
    PutValid(Put(h2, "timestamp", timestamp), "authorization", authorization);
  }

  /** When the incoming headers are a proper array with none of the four
      signing headers, signing appends the four after them, in the order the
      signer assigns them. */
  lemma StampedKeys(h0: PhpArray, nonce: Value, clientId: Value, timestamp: Value, authorization: Value)
    requires h0.Valid()
    requires "nonce" !in h0.keys && "clientid" !in h0.keys
    requires "timestamp" !in h0.keys && "authorization" !in h0.keys
    ensures var h := Put(StampHeaders(h0, nonce, clientId, timestamp), "authorization", authorization);
      h.Valid() && h.keys == h0.keys + AuthHeaderNames
  {
    StampedValid(h0, nonce, clientId, timestamp, authorization);
    assert "nonce" !in h0.vals && "clientid" !in h0.vals;
    assert "timestamp" !in h0.vals && "authorization" !in h0.vals;
    StampedAppends(h0, nonce, clientId, timestamp, authorization);
  }

  /** The four keys, each absent before, are appended in assignment order. */
  lemma StampedAppends(h0: PhpArray, nonce: Value, clientId: Value, timestamp: Value, authorization: Value)
    requires "nonce" !in h0.vals && "clientid" !in h0.vals
    requires "timestamp" !in h0.vals && "authorization" !in h0.vals
    ensures Put(StampHeaders(h0, nonce, clientId, timestamp), "authorization", authorization).keys
      == h0.keys + AuthHeaderNames
  {
  }

  /** When the headers already carry one of the four, its value is replaced
      and its position kept: re-signing signed headers adds no key. */
  lemma ResignKeepsKeys(h0: PhpArray, nonce: Value, clientId: Value, timestamp: Value, authorization: Value)
    requires h0.Valid()
    requires "nonce" in h0.keys && "clientid" in h0.keys
    requires "timestamp" in h0.keys && "authorization" in h0.keys
    ensures var h := Put(StampHeaders(h0, nonce, clientId, timestamp), "authorization", authorization);
      h.Valid() && h.keys == h0.keys
  {
    StampedValid(h0, nonce, clientId, timestamp, authorization);
    assert "nonce" in h0.vals && "clientid" in h0.vals;
    assert "timestamp" in h0.vals && "authorization" in h0.vals;
  }
}
