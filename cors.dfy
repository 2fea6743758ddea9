/**
 * The CORS origin policy of server.js: the allowlist of five fixed origins plus
 * `FRONTEND_URL` when it is set, and the `origin` callback.
 */
module Cors {
  import opened Wrappers

  const FixedOrigins: seq<string> := [
    "https://princo.vercel.app",
    "http://localhost:3000",
    "http://localhost:3001",
    "http://localhost:3002",
    "http://localhost:5173"
  ]

  /** The list literal filtered with `Boolean`: an unset or empty `FRONTEND_URL` is dropped. */
  function AllowedOrigins(frontendUrl: Option<string>): (r: seq<string>)
    ensures forall i :: 0 <= i < |r| ==> r[i] != ""
    ensures forall o :: o in r <==> o in FixedOrigins || (frontendUrl.Some? && frontendUrl.value != "" && o == frontendUrl.value)
  {
    FixedOrigins + (if frontendUrl.Some? && frontendUrl.value != "" then [frontendUrl.value] else [])
  }

  datatype Decision = Allow | Reject

  /** The `origin` callback: no origin (or an empty one) is allowed, otherwise the origin must
      be an exact entry of the list; a rejection passes an error to the callback. */
  function OriginCallback(allowed: seq<string>, origin: Option<string>): (r: Decision)
    ensures r == Allow <==> origin.None? || origin.value == "" || origin.value in allowed
  {
    if origin.None? || origin.value == "" then Allow
    else if origin.value in allowed then Allow
    else Reject
  }

  /** With the list built once at start-up, the decision depends only on the origin: a present
      origin is allowed exactly when it is one of the fixed five or equals a set `FRONTEND_URL`. */
  lemma OriginAllowedIff(frontendUrl: Option<string>, origin: string)
    requires origin != ""
    ensures OriginCallback(AllowedOrigins(frontendUrl), Some(origin)) == Allow <==>
      origin in FixedOrigins || (frontendUrl.Some? && origin == frontendUrl.value)
  {
  }

  /** A listed origin with a trailing slash is rejected, because the comparison is exact. */
  lemma TrailingSlashRejected(origin: string)
    requires origin == "http://localhost:3000/"
    ensures OriginCallback(AllowedOrigins(None), Some(origin)) == Reject
  {
    assert origin[21] == '/';
    forall i | 0 <= i < |FixedOrigins| ensures FixedOrigins[i] != origin {
      assert |FixedOrigins[i]| != |origin|;
    }
  }
}
