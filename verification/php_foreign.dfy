/**
 * The PHP library functions the SDK calls but whose internals are not part
 * of this model. Each is a field of `Foreign`, so every statement about the
 * SDK holds for whatever these functions compute.
 */
module PhpForeign {
  import opened PhpValues

  /** The two components of `parse_url`'s result the SDK reads; a component
      the URL lacks is None. */
  datatype UrlParts = UrlParts(path: Option<string>, query: Option<string>)

  datatype Foreign = Foreign(
    /** `hash_hmac("SHA512", $text, $key)`: HMAC (RFC 2104) over SHA-512
        (FIPS 180-4), as lower-case hex. Arguments: text, then key. */
    hmacSha512: (string, string) -> string,
    /** `json_encode($value, $flags)`; None is the `false` it returns on failure. */
    jsonEncode: (Value, int) -> Option<string>,
    /** `parse_url($url)`; None is the `false` it returns for a malformed URL. */
    parseUrl: string -> Option<UrlParts>,
    /** `http_build_query($array)`. */
    buildQuery: PhpArray -> string
  )

  const JSON_UNESCAPED_SLASHES: int := 64
  const JSON_UNESCAPED_UNICODE: int := 256
}
