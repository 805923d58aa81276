/**
 * The option pipeline of the `Request\Http` transport (src/Request/Http.php):
 * defaults merged in with `array_replace_recursive`, the query string and
 * the URI appended, every `getAreas` entry removed, and the options signed
 * before they are handed to Guzzle.
 *
 * The transport signs with `Renderforest\Auth\Auth::getInstance()`, a class
 * that is not part of this model. The only `setAuthorization($options,
 * $signKey, $clientId)` the repository shows is the legacy one in
 * src/lib/auth/Auth.php, and the model takes the transport's signer to
 * behave like it.
 */
module RequestHttp {
  import opened PhpValues
  import opened PhpStrings
  import opened PhpForeign
  import opened Signing
  import LegacyAuth

  /** `$this->HOST`. */
  const Host: string := "https://api.renderforest.com"

  /** `$this->DEFAULT_OPTIONS` for the SDK version read from composer.json. */
  function DefaultOptions(sdkVersion: string): (d: PhpArray)
    ensures d.Valid() && d.keys == ["method", "headers"]
    ensures Lookup(d, "method") == Some(Str("GET"))
  {
    var headers := PhpArray(["Accept", "User-Agent"],
                            map["Accept" := Str("application/json"),
                                "User-Agent" := Str("renderforest/sdk-php/" + sdkVersion)]);
    PhpArray(["method", "headers"], map["method" := Str("GET"), "headers" := Arr(headers)])
  }

  // ---------------------------------------------------------------------
  // Nested arrays

  /** Every array inside `v`, at any depth, is a proper array. */
  predicate WellFormed(v: Value)
    decreases v
  {
    match v
    case Arr(a) => a.Valid() && forall k :: k in a.vals ==> WellFormed(a.vals[k])
    case _ => true
  }

  /** No array inside `v`, at any depth, has the key `key`. */
  predicate Absent(v: Value, key: string)
    decreases v
  {
    match v
    case Arr(a) => key !in a.vals && forall k :: k in a.vals ==> Absent(a.vals[k], key)
    case _ => true
  }

  /** `v` with the entry `key` removed from every array inside it, at any
      depth: what `recursiveUnset` leaves. */
  function StripValue(v: Value, key: string): Value
    decreases v, 1
  {
    if v.Arr? then Arr(StripArray(v.arr, key)) else v
  }

  /** `a` without `key`, every remaining value stripped in turn; the
      remaining keys keep their order. */
  function StripArray(a: PhpArray, key: string): (r: PhpArray)
    ensures key !in r.vals
    ensures forall k :: k in r.vals <==> k in a.vals && k != key
    decreases a, 0
  {
    PhpArray(RemoveKey(a.keys, key), map k | k in a.vals && k != key :: StripValue(a.vals[k], key))
  }

  /** After stripping, `key` is nowhere in the value, at any depth. */
  lemma {:induction false} StripAbsent(v: Value, key: string)
    ensures Absent(StripValue(v, key), key)
    decreases v
  {
    if v.Arr? {
      var s := StripArray(v.arr, key);
      forall k | k in s.vals
        ensures Absent(s.vals[k], key)
      {
        StripAbsent(v.arr.vals[k], key);
      }
    }
  }

  /** Stripping keeps proper arrays proper, at every depth. */
  lemma {:induction false} StripWellFormed(v: Value, key: string)
    requires WellFormed(v)
    ensures WellFormed(StripValue(v, key))
    decreases v
  {
    if v.Arr? {
      var a := v.arr;
      var s := StripArray(a, key);
      forall k | k in s.vals
        ensures WellFormed(s.vals[k])
      {
        StripWellFormed(a.vals[k], key);
      }
      assert forall i :: 0 <= i < |s.keys| ==> s.keys[i] in s.keys;
    }
  }

  /** A value that has no `key` anywhere is left as it is. */
  lemma {:induction false} StripNoop(v: Value, key: string)
    requires WellFormed(v) && Absent(v, key)
    ensures StripValue(v, key) == v
    decreases v
  {
    if v.Arr? {
      var a := v.arr;
      var s := StripArray(a, key);
      forall k | k in a.vals
        ensures StripValue(a.vals[k], key) == a.vals[k]
      {
        StripNoop(a.vals[k], key);
      }
      assert s.vals == a.vals;
      RemoveAbsentKey(a.keys, key);
    }
  }

  /** Stripping twice is stripping once. */
  lemma StripIdempotent(v: Value, key: string)
    requires WellFormed(v)
    ensures StripValue(StripValue(v, key), key) == StripValue(v, key)
  {
    StripWellFormed(v, key);
    StripAbsent(v, key);
    StripNoop(StripValue(v, key), key);
  }

  /** Stripping an array keeps every other key, in its order, and every
      value that is not an array. */
  lemma StripKeepsOthers(a: PhpArray, key: string)
    ensures forall x :: x in StripArray(a, key).keys <==> x in a.keys && x != key
    ensures key !in a.keys ==> StripArray(a, key).keys == a.keys
    ensures Distinct(a.keys) ==> forall p :: 0 <= p < |a.keys| && a.keys[p] == key ==>
      StripArray(a, key).keys == a.keys[..p] + a.keys[p + 1..]
    ensures forall k :: k != key ==> (Lookup(StripArray(a, key), k).Some? <==> Lookup(a, k).Some?)
    ensures forall k :: k != key && k in a.vals && !a.vals[k].Arr? ==>
      Lookup(StripArray(a, key), k) == Lookup(a, k)
    ensures forall k :: k != key && k in a.vals && a.vals[k].Arr? ==>
      Lookup(StripArray(a, key), k) == Some(Arr(StripArray(a.vals[k].arr, key)))
  {
    RemoveKeyOrder(a.keys, key);
  }

  // ---------------------------------------------------------------------
  // array_replace_recursive

  /** The value `array_replace_recursive` stores under a key the replacement
      holds as `r`, where the base holds `b` (None: the base lacks the key):
      two arrays are merged, anything else is replaced. */
  function MergedEntry(b: Option<Value>, r: Value): Value
    decreases r, 0
  {
    if b.Some? && b.value.Arr? && r.Arr? then Arr(ReplaceFrom(b.value.arr, r.arr, 0)) else r
  }

  /** The replacement's entries from position `i` on, stored into `base`
      one after the other in the replacement's order. */
  function ReplaceFrom(base: PhpArray, repl: PhpArray, i: nat): PhpArray
    requires i <= |repl.keys|
    decreases repl, 1, |repl.keys| - i
  {
    if i == |repl.keys| then base
    else
      var k := repl.keys[i];
      var next := if k in repl.vals then Put(base, k, MergedEntry(Lookup(base, k), repl.vals[k])) else base;
      ReplaceFrom(next, repl, i + 1)
  }

  /** `array_replace_recursive($base, $replacement)`. */
  function ReplaceRecursive(base: PhpArray, repl: PhpArray): (r: PhpArray)
    ensures |base.keys| <= |r.keys| && r.keys[..|base.keys|] == base.keys
  {
    ReplaceFromKeepsBase(base, repl, 0);
    ReplaceFrom(base, repl, 0)
  }

  /** Merging keeps the base's keys where they are, at the front; the
      replacement's new keys can only come after them. */
  lemma {:induction false} ReplaceFromKeepsBase(base: PhpArray, repl: PhpArray, i: nat)
    requires i <= |repl.keys|
    ensures var r := ReplaceFrom(base, repl, i);
      |base.keys| <= |r.keys| && r.keys[..|base.keys|] == base.keys
    decreases |repl.keys| - i
  {
    if i < |repl.keys| {
      var k := repl.keys[i];
      var next := if k in repl.vals then Put(base, k, MergedEntry(Lookup(base, k), repl.vals[k])) else base;
      ReplaceFromKeepsBase(next, repl, i + 1);
      var r := ReplaceFrom(next, repl, i + 1);
      assert next.keys[..|base.keys|] == base.keys;
      assert r.keys[..|base.keys|] == r.keys[..|next.keys|][..|base.keys|];
    }
  }

  /** Where the replacement's keys from position `i` on land. */
  lemma {:induction false} ReplaceFromLookup(base: PhpArray, repl: PhpArray, i: nat, k: string)
    requires Distinct(repl.keys) && i <= |repl.keys|
    requires forall j :: 0 <= j < |repl.keys| ==> repl.keys[j] in repl.vals
    ensures Lookup(ReplaceFrom(base, repl, i), k) ==
      if k in repl.keys[i..] then Some(MergedEntry(Lookup(base, k), repl.vals[k])) else Lookup(base, k)
    decreases |repl.keys| - i
  {
    if i < |repl.keys| {
      var ki := repl.keys[i];
      var next := Put(base, ki, MergedEntry(Lookup(base, ki), repl.vals[ki]));
      ReplaceFromLookup(next, repl, i + 1, k);
      assert repl.keys[i..] == [ki] + repl.keys[i + 1..];
      if k == ki {
        assert k !in repl.keys[i + 1..];
      } else {
        assert Lookup(next, k) == Lookup(base, k);
        assert k in repl.keys[i..] <==> k in repl.keys[i + 1..];
      }
    }
  }

  /** `array_replace_recursive` on proper arrays: a key of the replacement
      holds the merged entry, every other key keeps its base value. */
  lemma ReplaceLookup(base: PhpArray, repl: PhpArray, k: string)
    requires repl.Valid()
    ensures Lookup(ReplaceRecursive(base, repl), k) ==
      if k in repl.vals then Some(MergedEntry(Lookup(base, k), repl.vals[k])) else Lookup(base, k)
  {
    ReplaceFromLookup(base, repl, 0, k);
    assert repl.keys[0..] == repl.keys;
  }

  /** An entry of a well-formed array is well-formed. */
  lemma WellFormedEntry(a: PhpArray, k: string)
    requires WellFormed(Arr(a))
    ensures k in a.vals ==> WellFormed(a.vals[k])
    ensures k in a.vals && a.vals[k].Arr? ==> a.vals[k].arr.Valid()
  {
  }

  /** Storing a well-formed value into a well-formed array. */
  lemma PutWellFormed(a: PhpArray, k: string, v: Value)
    requires WellFormed(Arr(a)) && WellFormed(v)
    ensures WellFormed(Arr(Put(a, k, v)))
  {
    PutValid(a, k, v);
  }

  /** Merging keeps nested arrays proper. */
  lemma {:induction false} MergedWellFormed(b: Option<Value>, r: Value)
    requires b.Some? ==> WellFormed(b.value)
    requires WellFormed(r)
    ensures WellFormed(MergedEntry(b, r))
    decreases r, 0
  {
    if b.Some? && b.value.Arr? && r.Arr? {
      ReplaceFromWellFormed(b.value.arr, r.arr, 0);
    }
  }

  lemma {:induction false} ReplaceFromWellFormed(base: PhpArray, repl: PhpArray, i: nat)
    requires WellFormed(Arr(base)) && WellFormed(Arr(repl)) && i <= |repl.keys|
    ensures WellFormed(Arr(ReplaceFrom(base, repl, i)))
    decreases repl, 1, |repl.keys| - i
  {
    if i < |repl.keys| {
      var k := repl.keys[i];
      var m := MergedEntry(Lookup(base, k), repl.vals[k]);
      MergedWellFormed(Lookup(base, k), repl.vals[k]);
      PutWellFormed(base, k, m);
      ReplaceFromWellFormed(Put(base, k, m), repl, i + 1);
    }
  }

  /** `array_replace_recursive` of proper arrays is a proper array. */
  lemma ReplaceWellFormed(base: PhpArray, repl: PhpArray)
    requires WellFormed(Arr(base)) && WellFormed(Arr(repl))
    ensures WellFormed(Arr(ReplaceRecursive(base, repl)))
  {
    ReplaceFromWellFormed(base, repl, 0);
  }

  // ---------------------------------------------------------------------
  // Preparing a request

  /** `isset($options['method']) && $options['method'] === 'GET'`. */
  predicate IsGet(options: PhpArray)
  {
    Isset(options, "method") && options.vals["method"] == Str("GET")
  }

  /** Options `appendQueryParams` can process: for a GET, a set `qs` is an
      array (`sizeof` of anything else is a type error). */
  predicate QueryableOptions(options: PhpArray)
  {
    IsGet(options) && Isset(options, "qs") ==> options.vals["qs"].Arr?
  }

  /** The condition under which `appendQueryParams` changes the options: a
      GET with a non-empty `qs` array. */
  predicate HasQuery(options: PhpArray)
    requires QueryableOptions(options)
  {
    IsGet(options) && Isset(options, "qs") && |options.vals["qs"].arr.keys| > 0
  }

  /** `appendQueryParams($options)`. */
  function AppendQueryParams(options: PhpArray, f: Foreign): (r: PhpArray)
    requires QueryableOptions(options)
    ensures forall k :: k != "endpoint" ==> Lookup(r, k) == Lookup(options, k)
    ensures r.keys == options.keys || r.keys == options.keys + ["endpoint"]
  {
    if HasQuery(options) then
      var queryParams := "?" + f.buildQuery(options.vals["qs"].arr);
      Put(options, "endpoint", Str(Stringify(Get(options, "endpoint")) + queryParams))
    else options
  }

  /** `appendQueryParams` touches `endpoint` alone, and changes it exactly
      for a GET with a non-empty `qs`, to the old endpoint followed by `?`
      and the query. */
  lemma AppendQueryParamsEffect(options: PhpArray, f: Foreign)
    requires QueryableOptions(options)
    ensures var r := AppendQueryParams(options, f);
      && (forall k :: k != "endpoint" ==> Lookup(r, k) == Lookup(options, k))
      && (Lookup(r, "endpoint") == Lookup(options, "endpoint") <==> !HasQuery(options))
      && (HasQuery(options) ==>
            Lookup(r, "endpoint") ==
              Some(Str(Stringify(Get(options, "endpoint")) + "?" + f.buildQuery(options.vals["qs"].arr))))
      && (!HasQuery(options) ==> r == options)
  {
    if HasQuery(options) {
      var e := Stringify(Get(options, "endpoint"));
      var query := f.buildQuery(options.vals["qs"].arr);
      assert e + ("?" + query) == e + "?" + query;
      assert |e + "?" + query| > |e|;
      var previous := Get(options, "endpoint");
      if previous.Str? {
        assert previous.s == e;
      }
    }
  }

  /** `appendURI($options)`. */
  function AppendUri(options: PhpArray): (r: PhpArray)
    ensures "uri" in r.vals && r.vals["uri"].Str?
    ensures |Host| <= |r.vals["uri"].s| && r.vals["uri"].s[..|Host|] == Host
    ensures forall k :: k != "uri" ==> Lookup(r, k) == Lookup(options, k)
  {
    Put(options, "uri", Str(Host + Stringify(Get(options, "endpoint"))))
  }

  /** `appendURI` sets `uri` to the host followed by the endpoint and
      changes nothing else. */
  lemma AppendUriEffect(options: PhpArray)
    ensures var r := AppendUri(options);
      && Lookup(r, "uri") == Some(Str(Host + Stringify(Get(options, "endpoint"))))
      && (forall k :: k != "uri" ==> Lookup(r, k) == Lookup(options, k))
      && (options.Valid() ==> r.Valid())
  {
    PutValid(options, "uri", Str(Host + Stringify(Get(options, "endpoint"))));
  }

  /** `prepareRequest($options)`. */
  function PrepareRequest(options: PhpArray, f: Foreign): (r: PhpArray)
    requires QueryableOptions(options)
    ensures "uri" in r.vals && r.vals["uri"].Str?
    ensures |Host| <= |r.vals["uri"].s| && r.vals["uri"].s[..|Host|] == Host
    ensures forall k :: k != "uri" && k != "endpoint" ==> Lookup(r, k) == Lookup(options, k)
  {
    AppendUri(AppendQueryParams(options, f))
  }

  /** A prepared request's `uri` is the host, the endpoint, and for a GET
      with a non-empty `qs` the query after a `?`; only `endpoint` and `uri`
      change. */
  lemma PrepareRequestUri(options: PhpArray, f: Foreign)
    requires QueryableOptions(options)
    ensures var r := PrepareRequest(options, f);
      var endpoint := Stringify(Get(options, "endpoint"));
      && (HasQuery(options) ==>
            Lookup(r, "uri") == Some(Str(Host + endpoint + "?" + f.buildQuery(options.vals["qs"].arr))))
      && (!HasQuery(options) ==> Lookup(r, "uri") == Some(Str(Host + endpoint)))
      && (forall k :: k != "uri" && k != "endpoint" ==> Lookup(r, k) == Lookup(options, k))
  {
    AppendQueryParamsEffect(options, f);
    var a := AppendQueryParams(options, f);
    AppendUriEffect(a);
    if HasQuery(options) {
      var endpoint := Stringify(Get(options, "endpoint"));
      var query := f.buildQuery(options.vals["qs"].arr);
      assert Host + (endpoint + ("?" + query)) == Host + endpoint + "?" + query;
    }
  }

  // ---------------------------------------------------------------------
  // The two request flows

  /** Caller options the `Request\Http` flows can process: a proper nested
      array whose `qs`, when set on a request that ends up a GET, is an array
      (`sizeof` of anything else is a type error). */
  predicate RequestableOptions(options: PhpArray)
  {
    && WellFormed(Arr(options))
    && (("method" !in options.vals || options.vals["method"] == Str("GET")) && Isset(options, "qs") ==>
          options.vals["qs"].Arr?)
  }

  /** The keys the defaults hold. */
  lemma DefaultKeys(sdkVersion: string)
    ensures forall k :: k in DefaultOptions(sdkVersion).vals <==> k == "method" || k == "headers"
  {
  }

  /** Merging caller options into the defaults: `method` defaults to GET
      and `qs` is the caller's, so `appendQueryParams` can process the result. */
  lemma MergedQueryable(sdkVersion: string, options: PhpArray)
    requires RequestableOptions(options)
    ensures QueryableOptions(ReplaceRecursive(DefaultOptions(sdkVersion), options))
    ensures Lookup(ReplaceRecursive(DefaultOptions(sdkVersion), options), "qs") == Lookup(options, "qs")
  {
    var d := DefaultOptions(sdkVersion);
    DefaultKeys(sdkVersion);
    ReplaceLookup(d, options, "method");
    ReplaceLookup(d, options, "qs");
  }

  /** The options both flows prepare: `prepareRequest` of the caller's
      options merged into the defaults; `unauthorizedRequest($options)`
      hands exactly these to `request`. */
  function Prepared(sdkVersion: string, options: PhpArray, f: Foreign): (p: PhpArray)
    requires RequestableOptions(options)
    ensures forall k :: k != "uri" && k != "endpoint" && k != "method" && k != "headers" ==>
      Lookup(p, k) == Lookup(options, k)
  {
    MergedQueryable(sdkVersion, options);
    MergedOthers(sdkVersion, options);
    PrepareRequest(ReplaceRecursive(DefaultOptions(sdkVersion), options), f)
  }

  /** Merging into the defaults leaves every key other than `method` and
      `headers` as the caller gave it. */
  lemma MergedOthers(sdkVersion: string, options: PhpArray)
    requires options.Valid()
    ensures forall k :: k != "method" && k != "headers" ==>
      Lookup(ReplaceRecursive(DefaultOptions(sdkVersion), options), k) == Lookup(options, k)
  {
    DefaultKeys(sdkVersion);
    forall k | k != "method" && k != "headers"
      ensures Lookup(ReplaceRecursive(DefaultOptions(sdkVersion), options), k) == Lookup(options, k)
    {
      ReplaceLookup(DefaultOptions(sdkVersion), options, k);
    }
  }

  /** Caller options the authorized flow can process: requestable, with
      `headers`, when set, an array or `false` (the signer adds entries to
      it, and PHP turns `false` into an array when it does). */
  predicate SignableRequest(options: PhpArray)
  {
    && RequestableOptions(options)
    && (Isset(options, "headers") ==> options.vals["headers"].Arr? || options.vals["headers"] == Bool(false))
  }

  /** Prepared and cleaned, such options are options the signer accepts. */
  lemma CleanedSignable(sdkVersion: string, options: PhpArray, f: Foreign)
    requires SignableRequest(options)
    ensures SignableOptions(Arr(StripArray(Prepared(sdkVersion, options, f), "getAreas")))
  {
    var d := DefaultOptions(sdkVersion);
    var m := ReplaceRecursive(d, options);
    MergedQueryable(sdkVersion, options);
    var p := Prepared(sdkVersion, options, f);
    PrepareRequestUri(m, f);
    ReplaceLookup(d, options, "headers");
    assert Lookup(p, "headers") == Lookup(m, "headers");
    assert "uri" != "getAreas" && "headers" != "getAreas";
  }

  /** The options `authorizedRequest($options)` hands to `request`: the
      prepared options without any `getAreas` entry, signed by the legacy
      signer with the configured key and client id. */
  function Authorized(sdkVersion: string, options: PhpArray, signKey: Value, clientId: Value,
                      util: LegacyAuth.AuthUtil, f: Foreign): (sent: PhpArray)
    requires SignableRequest(options)
    ensures "getAreas" !in sent.vals
    ensures Lookup(sent, "headers") == Some(Arr(SentHeaders(sent)))
  {
    CleanedSignable(sdkVersion, options, f);
    LegacyAuth.SetAuthorizationHeaders(Arr(StripArray(Prepared(sdkVersion, options, f), "getAreas")),
                                       signKey, clientId, util, f);
    assert "getAreas" != "headers";
    LegacyAuth.SetAuthorization(Arr(StripArray(Prepared(sdkVersion, options, f), "getAreas")),
                                signKey, clientId, util, f)
  }

  /** Storing a value without `key` under another key keeps `key` out. */
  lemma PutAbsent(a: PhpArray, k: string, v: Value, key: string)
    requires Absent(Arr(a), key) && Absent(v, key) && k != key
    ensures Absent(Arr(Put(a, k, v)), key)
  {
  }

  /** Signing adds `key` nowhere when neither the options nor the values
      the signer stores hold it and it is none of the keys it writes. */
  lemma AuthorizeAbsent(opts: PhpArray, h0: PhpArray, nonce: Value, clientId: Value, timestamp: Value,
                        authorization: Value, key: string)
    requires Absent(Arr(opts), key) && Absent(Arr(h0), key)
    requires Absent(nonce, key) && Absent(clientId, key)
    requires Absent(timestamp, key) && Absent(authorization, key)
    requires key != "headers" && !IsAuthHeader(key)
    ensures Absent(Arr(Authorize(opts, StampHeaders(h0, nonce, clientId, timestamp), authorization)), key)
  {
    var h1 := Put(h0, "nonce", nonce);
    PutAbsent(h0, "nonce", nonce, key);
    var h2 := Put(h1, "clientid", clientId);
    PutAbsent(h1, "clientid", clientId, key);
    var h3 := Put(h2, "timestamp", timestamp);
    PutAbsent(h2, "timestamp", timestamp, key);
    PutAbsent(h3, "authorization", authorization, key);
    PutAbsent(opts, "headers", Arr(Put(h3, "authorization", authorization)), key);
  }

  /** `getAreas` is none of the keys a signer writes. */
  lemma GetAreasIsNotWritten()
    ensures "getAreas" != "headers" && !IsAuthHeader("getAreas")
  {
  }

  /** The authorized flow sends no `getAreas` entry at any depth, whatever
      the caller passed, as long as the values the signer stores hold none. */
  lemma AuthorizedHasNoGetAreas(sdkVersion: string, options: PhpArray, signKey: Value, clientId: Value,
                                util: LegacyAuth.AuthUtil, f: Foreign)
    requires SignableRequest(options)
    requires Absent(clientId, "getAreas") && Absent(util.nonce, "getAreas") && Absent(util.timestamp, "getAreas")
    requires forall h :: Absent(util.generateHash(h, signKey), "getAreas")
    ensures Absent(Arr(Authorized(sdkVersion, options, signKey, clientId, util, f)), "getAreas")
  {
    var p := Prepared(sdkVersion, options, f);
    var clean := StripArray(p, "getAreas");
    StripAbsent(Arr(p), "getAreas");
    CleanedSignable(sdkVersion, options, f);
    var h0 := HeadersOf(clean);
    assert Absent(Arr(h0), "getAreas");
    var stamped := LegacyAuth.Stamped(clean, clientId, util);
    var authorization := util.generateHash(LegacyAuth.LegacyInput(f, clean, clientId, stamped), signKey);
    GetAreasIsNotWritten();
    AuthorizeAbsent(clean, h0, util.nonce, clientId, util.timestamp, authorization, "getAreas");
  }

  /** Preparing leaves `headers` as the merge left it. */
  lemma PreparedHeaders(sdkVersion: string, options: PhpArray, f: Foreign)
    requires RequestableOptions(options)
    ensures Lookup(Prepared(sdkVersion, options, f), "headers") ==
            Lookup(ReplaceRecursive(DefaultOptions(sdkVersion), options), "headers")
  {
    MergedQueryable(sdkVersion, options);
    PrepareRequestUri(ReplaceRecursive(DefaultOptions(sdkVersion), options), f);
    assert "headers" != "uri" && "headers" != "endpoint";
  }

  /** Preparing and cleaning leave `uri` as preparing set it. */
  lemma CleanedUri(sdkVersion: string, options: PhpArray, f: Foreign)
    requires RequestableOptions(options)
    ensures Lookup(StripArray(Prepared(sdkVersion, options, f), "getAreas"), "uri") ==
            Lookup(Prepared(sdkVersion, options, f), "uri")
  {
    var p := Prepared(sdkVersion, options, f);
    MergedQueryable(sdkVersion, options);
    PrepareRequestUri(ReplaceRecursive(DefaultOptions(sdkVersion), options), f);
    assert "uri" != "getAreas";
    assert Lookup(p, "uri").Some? && p.vals["uri"].Str?;
  }

  /** The authorized flow sends the prepared URI. */
  lemma AuthorizedUri(sdkVersion: string, options: PhpArray, signKey: Value, clientId: Value,
                      util: LegacyAuth.AuthUtil, f: Foreign)
    requires SignableRequest(options)
    ensures Lookup(Authorized(sdkVersion, options, signKey, clientId, util, f), "uri") ==
            Lookup(Prepared(sdkVersion, options, f), "uri")
  {
    var p := Prepared(sdkVersion, options, f);
    CleanedSignable(sdkVersion, options, f);
    LegacyAuth.SetAuthorizationHeaders(Arr(StripArray(p, "getAreas")), signKey, clientId, util, f);
    CleanedUri(sdkVersion, options, f);
    assert "uri" != "headers";
  }

  /** The authorized flow sends the four signing headers: the configured
      client id, the nonce and timestamp of the signer, and the hash of the
      cleaned options under the configured key. */
  lemma AuthorizedIsSigned(sdkVersion: string, options: PhpArray, signKey: Value, clientId: Value,
                           util: LegacyAuth.AuthUtil, f: Foreign)
    requires SignableRequest(options)
    ensures var sent := Authorized(sdkVersion, options, signKey, clientId, util, f);
      var clean := StripArray(Prepared(sdkVersion, options, f), "getAreas");
      && Lookup(SentHeaders(sent), "nonce") == Some(util.nonce)
      && Lookup(SentHeaders(sent), "clientid") == Some(clientId)
      && Lookup(SentHeaders(sent), "timestamp") == Some(util.timestamp)
      && Lookup(SentHeaders(sent), "authorization") ==
           Some(util.generateHash(LegacyAuth.SigningInput(f, clean, clientId, util), signKey))
  {
    var p := Prepared(sdkVersion, options, f);
    CleanedSignable(sdkVersion, options, f);
    LegacyAuth.SetAuthorizationHeaders(Arr(StripArray(p, "getAreas")), signKey, clientId, util, f);
  }

  /** The unauthorized flow keeps the caller's `getAreas` entry. */
  lemma UnauthorizedKeepsGetAreas(sdkVersion: string, options: PhpArray, f: Foreign)
    requires RequestableOptions(options)
    ensures Lookup(Prepared(sdkVersion, options, f), "getAreas") == Lookup(options, "getAreas")
  {
    var d := DefaultOptions(sdkVersion);
    DefaultKeys(sdkVersion);
    MergedQueryable(sdkVersion, options);
    ReplaceLookup(d, options, "getAreas");
    PrepareRequestUri(ReplaceRecursive(d, options), f);
    assert "getAreas" != "uri" && "getAreas" != "endpoint";
  }

  /** The default headers carry none of the four signing headers. */
  lemma DefaultsUnsigned(sdkVersion: string, n: string)
    requires IsAuthHeader(n)
    ensures "headers" in DefaultOptions(sdkVersion).vals
    ensures DefaultOptions(sdkVersion).vals["headers"].Arr?
    ensures Lookup(DefaultOptions(sdkVersion).vals["headers"].arr, n) == None
  {
  }

  /** Merging caller headers `hv` into headers without `n` gives `n` the
      caller's value, if any. */
  lemma MergedHeaderLookup(dh: PhpArray, hv: Option<Value>, n: string)
    requires Lookup(dh, n) == None
    requires hv.Some? && hv.value.Arr? ==> hv.value.arr.Valid()
    ensures Lookup(ArrayOrEmpty(if hv.Some? then MergedEntry(Some(Arr(dh)), hv.value) else Arr(dh)), n) ==
            Lookup(ArrayOrEmpty(if hv.Some? then hv.value else Null), n)
  {
    if hv.Some? && hv.value.Arr? {
      ReplaceLookup(dh, hv.value.arr, n);
    }
  }

  /** The unauthorized flow adds none of the four signing headers: the
      request carries one only when the caller's own headers do. */
  lemma UnauthorizedIsUnsigned(sdkVersion: string, options: PhpArray, f: Foreign)
    requires RequestableOptions(options)
    ensures forall n :: IsAuthHeader(n) ==>
      Lookup(SentHeaders(Prepared(sdkVersion, options, f)), n) == Lookup(ArrayOrEmpty(Get(options, "headers")), n)
  {
    var d := DefaultOptions(sdkVersion);
    PreparedHeaders(sdkVersion, options, f);
    ReplaceLookup(d, options, "headers");
    var hv := Lookup(options, "headers");
    WellFormedEntry(options, "headers");
    assert SentHeaders(Prepared(sdkVersion, options, f)) ==
      ArrayOrEmpty(if hv.Some? then MergedEntry(Some(d.vals["headers"]), hv.value) else d.vals["headers"]);
    assert Get(options, "headers") == if hv.Some? then hv.value else Null;
    forall n | IsAuthHeader(n)
      ensures Lookup(SentHeaders(Prepared(sdkVersion, options, f)), n) == Lookup(ArrayOrEmpty(Get(options, "headers")), n)
    {
      DefaultsUnsigned(sdkVersion, n);
      MergedHeaderLookup(d.vals["headers"].arr, hv, n);
    }
  }

  /** The transport: the signing configuration, which `setConfig` replaces,
      and the SDK version its default `User-Agent` carries. */
  class Http {
    var signKey: Value
    var clientId: Value
    const sdkVersion: string

    /** The constructor leaves the configuration null. */
    constructor (sdkVersion: string)
      ensures signKey == Null && clientId == Null && this.sdkVersion == sdkVersion
    {
      signKey := Null;
      clientId := Null;
      this.sdkVersion := sdkVersion;
    }

    /** `setConfig($signKey, $clientId)`. */
    method SetConfig(signKey: Value, clientId: Value)
      modifies this
      ensures this.signKey == signKey && this.clientId == clientId
    {
      this.signKey := signKey;
      this.clientId := clientId;
    }

    /** `recursiveUnset($array, $key)`: drops `key`, then strips every
        array value in place, one entry after the other. */
    method RecursiveUnset(a: PhpArray, key: string) returns (r: PhpArray)
      requires WellFormed(Arr(a))
      ensures r == StripArray(a, key)
      decreases a
    {
      r := Remove(a, key);
      StripStart(a, key);
      var i := 0;
      while i < |r.keys|
        invariant StrippedUpTo(a, key, r, i)
        decreases |r.keys| - i
      {
        var k := r.keys[i];
        var v := r.vals[k];
        if v.Arr? {
          var inner := RecursiveUnset(v.arr, key);
          StripStepArray(a, key, r, i, inner);
          r := Put(r, k, Arr(inner));
        } else {
          StripStepScalar(a, key, r, i);
        }
        i := i + 1;
      }
      StripDone(a, key, r);
    }

    /** `unauthorizedRequest($options)`, up to the transfer. */
    method UnauthorizedRequest(options: PhpArray, f: Foreign) returns (sent: PhpArray)
      requires RequestableOptions(options)
      ensures sent == Prepared(sdkVersion, options, f)
    {
      MergedQueryable(sdkVersion, options);
      var merged := ReplaceRecursive(DefaultOptions(sdkVersion), options);
      sent := PrepareRequest(merged, f);
    }

    /** `authorizedRequest($options)`, up to the transfer. */
    method AuthorizedRequest(options: PhpArray, util: LegacyAuth.AuthUtil, f: Foreign) returns (sent: PhpArray)
      requires SignableRequest(options)
      ensures sent == Authorized(sdkVersion, options, signKey, clientId, util, f)
    {
      MergedQueryable(sdkVersion, options);
      var merged := ReplaceRecursive(DefaultOptions(sdkVersion), options);
      var prepared := PrepareRequest(merged, f);
      PreparedWellFormed(sdkVersion, options, f);
      var clean := RecursiveUnset(prepared, "getAreas");
      CleanedSignable(sdkVersion, options, f);
      sent := LegacyAuth.SetAuthorization(Arr(clean), signKey, clientId, util, f);
    }
  }

  /** The state of `recursiveUnset`'s loop after `i` entries: `key` is
      gone, the first `i` entries are stripped, the others untouched. */
  predicate StrippedUpTo(a: PhpArray, key: string, r: PhpArray, i: int)
  {
    && 0 <= i <= |r.keys|
    && r.keys == RemoveKey(a.keys, key) && Distinct(r.keys)
    && r.vals.Keys == a.vals.Keys - {key}
    && (forall j :: 0 <= j < |r.keys| ==> r.keys[j] in r.vals)
    && (forall j :: 0 <= j < i ==> r.vals[r.keys[j]] == StripValue(a.vals[r.keys[j]], key))
    && (forall j :: i <= j < |r.keys| ==> r.vals[r.keys[j]] == a.vals[r.keys[j]])
  }

  /** `unset($array[$key])` starts the loop. */
  lemma StripStart(a: PhpArray, key: string)
    requires a.Valid()
    ensures StrippedUpTo(a, key, Remove(a, key), 0)
  {
  }

  /** An array entry replaced by its stripped form. */
  lemma StripStepArray(a: PhpArray, key: string, r: PhpArray, i: int, inner: PhpArray)
    requires StrippedUpTo(a, key, r, i) && i < |r.keys|
    requires a.vals[r.keys[i]].Arr? && inner == StripArray(a.vals[r.keys[i]].arr, key)
    ensures StrippedUpTo(a, key, Put(r, r.keys[i], Arr(inner)), i + 1)
  {
    var r2 := Put(r, r.keys[i], Arr(inner));
    assert forall j :: 0 <= j < |r.keys| && j != i ==> r.keys[j] != r.keys[i];
  }

  /** Any other entry is left as it is, which is its stripped form. */
  lemma StripStepScalar(a: PhpArray, key: string, r: PhpArray, i: int)
    requires StrippedUpTo(a, key, r, i) && i < |r.keys|
    requires !r.vals[r.keys[i]].Arr?
    ensures StrippedUpTo(a, key, r, i + 1)
  {
  }

  /** After the last entry the array is `StripArray(a, key)`. */
  lemma StripDone(a: PhpArray, key: string, r: PhpArray)
    requires a.Valid() && StrippedUpTo(a, key, r, |r.keys|)
    ensures r == StripArray(a, key)
  {
    var s := StripArray(a, key);
    forall k | k in r.vals
      ensures r.vals[k] == s.vals[k]
    {
      assert k in r.keys;
      var j :| 0 <= j < |r.keys| && r.keys[j] == k;
    }
  }

  /** Preparing keeps nested arrays proper. */
  lemma PrepareWellFormed(options: PhpArray, f: Foreign)
    requires QueryableOptions(options) && WellFormed(Arr(options))
    ensures WellFormed(Arr(PrepareRequest(options, f)))
  {
    var a := AppendQueryParams(options, f);
    if HasQuery(options) {
      PutWellFormed(options, "endpoint", Str(Stringify(Get(options, "endpoint")) + "?" + f.buildQuery(options.vals["qs"].arr)));
    }
    PutWellFormed(a, "uri", Str(Host + Stringify(Get(a, "endpoint"))));
  }

  /** The options both flows prepare are a proper nested array. */
  lemma PreparedWellFormed(sdkVersion: string, options: PhpArray, f: Foreign)
    requires RequestableOptions(options)
    ensures WellFormed(Arr(Prepared(sdkVersion, options, f)))
  {
    MergedQueryable(sdkVersion, options);
    ReplaceWellFormed(DefaultOptions(sdkVersion), options);
    PrepareWellFormed(ReplaceRecursive(DefaultOptions(sdkVersion), options), f);
  }
}
