/**
 * `rateKey` of `lib/rate-limit/key.ts`: the key a request is rate-limited by,
 * `u:<user id>` for a known user and `ip:<address>` otherwise.
 */
module RateKey {
  import opened Wrappers
  import opened JsText

  /**
   * What `rateKey` reads from a request: `req.user?.id` (None for undefined or
   * null), the headers by lower-case name, and `req.ip`.
   */
  datatype Request = Request(userId: Option<string>, headers: map<string, string>, ip: Option<string>)

  /** `req.user?.id ?? req.headers.get('x-user-id') ?? null`: `??` only skips a missing value, not an empty one. */
  function UserId(req: Request): (r: Option<string>)
    ensures req.userId.Some? ==> r == req.userId
    ensures req.userId.None? ==> (r.Some? <==> "x-user-id" in req.headers)
    ensures req.userId.None? && r.Some? ==> r.value == req.headers["x-user-id"]
  {
    if req.userId.Some? then req.userId
    else if "x-user-id" in req.headers then Some(req.headers["x-user-id"])
    else None
  }

  /** `ipHeader?.split(',')[0]?.trim() ?? req.ip ?? '0.0.0.0'`: a present `x-forwarded-for` always wins, even when empty. */
  function Ip(req: Request): (r: string)
  {
    if "x-forwarded-for" in req.headers then Trim(Split(req.headers["x-forwarded-for"], ',')[0])
    else if req.ip.Some? then req.ip.value
    else "0.0.0.0"
  }

  /** `rateKey(req)`. */
  function RateKeyOf(req: Request): (r: string)
    ensures StartsWith(r, "u:") || StartsWith(r, "ip:")
    ensures StartsWith(r, "u:") <==> UserId(req).Some? && UserId(req).value != ""
  {
    var id := UserId(req);
    if id.Some? && id.value != "" then
      assert ("u:" + id.value)[..2] == "u:";
      "u:" + id.value
    else
      assert ("ip:" + Ip(req))[..3] == "ip:";
      assert ("ip:" + Ip(req))[..2] != "u:" by { assert ("ip:" + Ip(req))[0] == 'i'; }
      "ip:" + Ip(req)
  }

  /** A non-empty `req.user.id` wins over the `x-user-id` header. */
  lemma UserWins(req: Request, id: string)
    requires req.userId == Some(id) && id != ""
    ensures RateKeyOf(req) == "u:" + id
  {
  }

  /** Without `req.user.id`, a non-empty `x-user-id` header names the user. */
  lemma HeaderUser(req: Request)
    requires req.userId.None? && "x-user-id" in req.headers && req.headers["x-user-id"] != ""
    ensures RateKeyOf(req) == "u:" + req.headers["x-user-id"]
  {
  }

  /** An empty `req.user.id` is not skipped by `??`, so the header is never consulted and the key falls back to the address. */
  lemma EmptyUserIdHidesHeader(req: Request)
    requires req.userId == Some("")
    ensures RateKeyOf(req) == "ip:" + Ip(req)
  {
  }

  /** Only the first comma-separated entry of `x-forwarded-for` counts, trimmed. */
  lemma ForwardedFirst(req: Request, first: string, rest: string)
    requires req.userId.None? && "x-user-id" !in req.headers
    requires "x-forwarded-for" in req.headers && req.headers["x-forwarded-for"] == first + "," + rest
    requires NoChar(first, ',')
    ensures RateKeyOf(req) == "ip:" + Trim(first)
  {
    SplitAtSep(first, ',', rest);
    assert first + "," + rest == first + [','] + rest;
  }

  /** A forwarded header without a comma is used whole, trimmed. */
  lemma ForwardedSingle(req: Request)
    requires req.userId.None? && "x-user-id" !in req.headers
    requires "x-forwarded-for" in req.headers && NoChar(req.headers["x-forwarded-for"], ',')
    ensures RateKeyOf(req) == "ip:" + Trim(req.headers["x-forwarded-for"])
  {
    SplitNoSep(req.headers["x-forwarded-for"], ',');
  }

  /** With no user, no forwarded header and no `req.ip`, the key is `ip:0.0.0.0`. */
  lemma Unknown(req: Request)
    requires UserId(req).None? && "x-forwarded-for" !in req.headers && req.ip.None?
    ensures RateKeyOf(req) == "ip:0.0.0.0"
  {
  }
}
