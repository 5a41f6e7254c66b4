/**
 * The fixed-window rate limiter of `lib/rate-limit/rate-limit.ts`.
 *
 * The process-wide `STORE` is a `Store` object owning a map from bucket key to
 * bucket; `Date.now()` is the `now` parameter (milliseconds) of each call, and
 * `clientUUID(req)` (a SHA-1 digest) is the `clientId` carried by the request.
 * Each call is specified by the pure `Record`, about which the counting
 * properties are proved.
 */
module RateLimit {
  import opened Wrappers
  import opened JsText
  import opened JsNumber

  // ------------------------------------------------------------- requests

  /** Request headers by lower-case name: what `req.headers.get(name)` finds. */
  type Headers = map<string, string>

  datatype Request = Request(headers: Headers, clientId: string)

  /** The entry under `k`, if any: `req.headers.get(k)` on headers, `store.get(k)` on buckets. */
  function Lookup<V>(m: map<string, V>, k: string): (r: Option<V>)
    ensures r.Some? <==> k in m
    ensures r.Some? ==> r.value == m[k]
  {
    if k in m then Some(m[k]) else None
  }

  /** A header that is present and not empty, which is what `h.get(name) || …` keeps. */
  predicate Truthy(v: Option<string>) {
    v.Some? && v.value != ""
  }

  /**
   * `readApiToken`: the trimmed rest of an `Authorization` value whose first seven
   * characters are `bearer ` in any case, else a non-empty `x-api-key`.
   */
  function ReadApiToken(h: Headers): (r: Option<string>)
  {
    var auth := Lookup(h, "authorization");
    if Truthy(auth) && StartsWith(Lower(auth.value), "bearer ") then Some(Trim(auth.value[7..]))
    else if Truthy(Lookup(h, "x-api-key")) then Lookup(h, "x-api-key")
    else None
  }

  /** A bearer prefix wins over `x-api-key`; without one, only a non-empty `x-api-key` is a token. */
  lemma ReadApiTokenSpec(h: Headers)
    ensures var auth := Lookup(h, "authorization"); var r := ReadApiToken(h);
      && (Truthy(auth) && StartsWith(Lower(auth.value), "bearer ") ==> r == Some(Trim(auth.value[7..])))
      && (!(Truthy(auth) && StartsWith(Lower(auth.value), "bearer ")) ==> (r.Some? <==> Truthy(Lookup(h, "x-api-key"))))
      && (r.Some? && !(Truthy(auth) && StartsWith(Lower(auth.value), "bearer ")) ==> r.value == h["x-api-key"] && r.value != "")
  {
  }

  /** `/^[0-9a-f]{8}-[0-9a-f]{4}-[0-9a-f]{4}-[0-9a-f]{4}-[0-9a-f]{12}$/i`. */
  predicate IsUuid(s: string) {
    |s| == 36 && forall i :: 0 <= i < 36 ==> if i == 8 || i == 13 || i == 18 || i == 23 then s[i] == '-' else IsHexDigit(s[i])
  }

  /** `h.get('x-ace-user-id') || h.get('x-user-id') || ''`. */
  function ExplicitId(h: Headers): (r: string)
    ensures r != "" ==> Lookup(h, "x-ace-user-id") == Some(r) || Lookup(h, "x-user-id") == Some(r)
  {
    if Truthy(Lookup(h, "x-ace-user-id")) then h["x-ace-user-id"]
    else if Truthy(Lookup(h, "x-user-id")) then h["x-user-id"]
    else ""
  }

  /** `userKey`: an explicit UUID in lower case, else `tok:` and the token, else `anon:` and the client id. */
  function UserKey(req: Request): (r: string)
  {
    var e := ExplicitId(req.headers);
    if IsUuid(e) then Lower(e)
    else
      var t := ReadApiToken(req.headers);
      if t.Some? && t.value != "" then "tok:" + t.value else "anon:" + req.clientId
  }

  /** Lower-casing keeps the UUID shape. */
  lemma LowerUuid(e: string)
    requires IsUuid(e)
    ensures IsUuid(Lower(e))
  {
    var l := Lower(e);
    forall i | 0 <= i < 36
      ensures if i == 8 || i == 13 || i == 18 || i == 23 then l[i] == '-' else IsHexDigit(l[i])
    {
      assert l[i] == LowerChar(e[i]);
    }
  }

  /** The three kinds of user key never collide: a lower-case UUID, `tok:…` or `anon:…`, exactly one of them. */
  lemma UserKeyKinds(req: Request)
    ensures var r := UserKey(req);
      && (IsUuid(r) <==> IsUuid(ExplicitId(req.headers)))
      && (StartsWith(r, "tok:") <==> !IsUuid(ExplicitId(req.headers)) && Truthy(ReadApiToken(req.headers)))
      && (StartsWith(r, "anon:") <==> !IsUuid(ExplicitId(req.headers)) && !Truthy(ReadApiToken(req.headers)))
  {
    var r := UserKey(req);
    var e := ExplicitId(req.headers);
    assert StartsWith(r, "tok:") ==> r[0] == 't' && r[1] == 'o' by {
      if |r| >= 4 { assert r[..4][0] == r[0] && r[..4][1] == r[1]; }
    }
    assert StartsWith(r, "anon:") ==> r[0] == 'a' && r[1] == 'n' by {
      if |r| >= 5 { assert r[..5][0] == r[0] && r[..5][1] == r[1]; }
    }
    if IsUuid(e) {
      LowerUuid(e);
      assert IsHexDigit(r[0]) && IsHexDigit(r[1]);
    } else if Truthy(ReadApiToken(req.headers)) {
      assert r[..4] == "tok:";
    } else {
      assert r[..5] == "anon:";
    }
  }

  /**
   * An `Authorization: Bearer` whose value is blank yields the token `""`, which
   * `userKey` treats as no token at all: the request is keyed by its client id
   * even when it also carries an `x-api-key`.
   */
  lemma BlankBearerIsAnonymous(req: Request)
    requires !IsUuid(ExplicitId(req.headers))
    requires Truthy(Lookup(req.headers, "authorization"))
    requires StartsWith(Lower(req.headers["authorization"]), "bearer ")
    requires Blank(req.headers["authorization"][7..])
    ensures UserKey(req) == "anon:" + req.clientId
  {
    var rest := req.headers["authorization"][7..];
    TrimEndSpec(rest);
  }

  /** `bucketKey`: the endpoint, `:bucket` when the bucket is not empty, then `:` and the user key. */
  function BucketKey(req: Request, endpoint: string, bucket: Option<string>): (r: string)
    ensures StartsWith(r, endpoint) && EndsWith(r, ":" + UserKey(req))
    ensures Truthy(bucket) ==> StartsWith(r, endpoint + ":" + bucket.value)
  {
    var suffix := if Truthy(bucket) then ":" + bucket.value else "";
    var tail := ":" + UserKey(req);
    ThreeParts(endpoint, suffix, tail);
    assert Truthy(bucket) ==> endpoint + suffix == endpoint + ":" + bucket.value;
    endpoint + suffix + tail
  }

  /** The first part, the first two parts and the last part of a three-part concatenation. */
  lemma ThreeParts<T>(a: seq<T>, b: seq<T>, c: seq<T>)
    ensures var r := a + b + c; r[..|a|] == a && r[..|a + b|] == a + b && r[|r| - |c|..] == c
  {
    var r := a + b + c;
    assert r[..|a + b|] == a + b;
    assert r[..|a|] == a;
    assert r[|r| - |c|..] == c;
  }

  /** Users with different keys never share a bucket of the same endpoint and bucket name. */
  lemma DistinctUsersDistinctBuckets(r1: Request, r2: Request, endpoint: string, bucket: Option<string>)
    requires UserKey(r1) != UserKey(r2)
    ensures BucketKey(r1, endpoint, bucket) != BucketKey(r2, endpoint, bucket)
  {
    var q := endpoint + (if Truthy(bucket) then ":" + bucket.value else "");
    var t1, t2 := ":" + UserKey(r1), ":" + UserKey(r2);
    PrefixKeepsDifference(":", UserKey(r1), UserKey(r2));
    PrefixKeepsDifference(q, t1, t2);
    assert BucketKey(r1, endpoint, bucket) == q + t1;
    assert BucketKey(r2, endpoint, bucket) == q + t2;
  }

  /** A common prefix keeps two different sequences different. */
  lemma PrefixKeepsDifference<T>(p: seq<T>, x: seq<T>, y: seq<T>)
    requires x != y
    ensures p + x != p + y
  {
    assert (p + x)[|p|..] == x;
    assert (p + y)[|p|..] == y;
  }

  // ------------------------------------------------------------- options

  datatype Options = Options(
    endpoint: string,
    windowSec: Option<Number>,
    maxHits: Option<Number>,
    bucket: Option<string>,
    limit: Option<Number>)

  datatype Limits = Limits(endpoint: string, windowSec: real, maxHits: real)

  /** The normalisation at the head of `isRateLimited` (repeated in `guardOr429`). */
  function LimitsOf(opts: Options): (r: Limits)
    ensures r.endpoint != "" && r.windowSec >= 1.0 && r.maxHits >= 1.0
  {
    var endpoint := if opts.endpoint != "" then opts.endpoint else "default";
    var windowSec := if IsFinite(opts.windowSec) then MaxReal(1.0, opts.windowSec.value.x) else 60.0;
    var rawMax :=
      if IsFinite(opts.maxHits) then opts.maxHits.value.x
      else if IsFinite(opts.limit) then opts.limit.value.x
      else 60.0;
    Limits(endpoint, windowSec, MaxReal(1.0, rawMax))
  }

  /** Where each limit comes from: the option when it is finite and at least 1, the floor 1 below that, the default otherwise; `limit` only stands in for a missing `maxHits`. */
  lemma LimitsPrecedence(opts: Options, other: Option<Number>)
    ensures var r := LimitsOf(opts);
      && (opts.endpoint == "" ==> r.endpoint == "default")
      && (opts.endpoint != "" ==> r.endpoint == opts.endpoint)
      && (!IsFinite(opts.windowSec) ==> r.windowSec == 60.0)
      && (IsFinite(opts.windowSec) && opts.windowSec.value.x >= 1.0 ==> r.windowSec == opts.windowSec.value.x)
      && (IsFinite(opts.windowSec) && opts.windowSec.value.x < 1.0 ==> r.windowSec == 1.0)
      && (IsFinite(opts.maxHits) && opts.maxHits.value.x >= 1.0 ==> r.maxHits == opts.maxHits.value.x)
      && (IsFinite(opts.maxHits) ==> r.maxHits == LimitsOf(opts.(limit := other)).maxHits)
      && (!IsFinite(opts.maxHits) && IsFinite(opts.limit) && opts.limit.value.x >= 1.0 ==> r.maxHits == opts.limit.value.x)
      && (!IsFinite(opts.maxHits) && !IsFinite(opts.limit) ==> r.maxHits == 60.0)
  {
  }

  // ------------------------------------------------------------- buckets

  datatype Bucket = Bucket(count: nat, resetAt: real)

  /** The bucket a call works on: the stored one, or a fresh window when there is none or it has expired. */
  function Current(b: Option<Bucket>, now: int, winMs: real): (r: Bucket)
  {
    if b.None? || now as real >= b.value.resetAt then Bucket(0, now as real + winMs) else b.value
  }

  /** One call on one bucket: whether it is refused, and the bucket afterwards. */
  function Hit(b: Option<Bucket>, now: int, maxHits: real, winMs: real): (r: (bool, Bucket))
    ensures r.1.resetAt == Current(b, now, winMs).resetAt
  {
    var c := Current(b, now, winMs);
    if c.count as real >= maxHits then (true, c) else (false, c.(count := c.count + 1))
  }

  /** A missing or expired bucket restarts its window, and the call opening it is allowed. */
  lemma ResetAllows(b: Option<Bucket>, now: int, maxHits: real, winMs: real)
    requires maxHits >= 1.0
    requires b.None? || now as real >= b.value.resetAt
    ensures Hit(b, now, maxHits, winMs) == (false, Bucket(1, now as real + winMs))
  {
  }

  /** A refused call found a live bucket and leaves it as it was. */
  lemma RefusedKeeps(b: Option<Bucket>, now: int, maxHits: real, winMs: real)
    requires maxHits >= 1.0
    requires Hit(b, now, maxHits, winMs).0
    ensures b.Some? && (now as real) < b.value.resetAt
    ensures Hit(b, now, maxHits, winMs).1 == b.value
  {
  }

  /** An allowed call adds exactly one hit to the current window. */
  lemma AllowedCounts(b: Option<Bucket>, now: int, maxHits: real, winMs: real)
    requires !Hit(b, now, maxHits, winMs).0
    ensures Hit(b, now, maxHits, winMs).1.count == Current(b, now, winMs).count + 1
    ensures (Current(b, now, winMs).count as real) < maxHits
  {
  }

  /** With a whole-number limit `n`, no bucket ever counts more than `n` hits. */
  lemma CountBound(b: Option<Bucket>, now: int, n: nat, winMs: real)
    requires n >= 1
    requires b.Some? ==> b.value.count <= n
    ensures Hit(b, now, n as real, winMs).1.count <= n
  {
  }

  // ------------------------------------------------------------- the store

  /** One call of `isRateLimited` on the store `m`: the verdict, and the store afterwards. */
  function Record(m: map<string, Bucket>, key: string, now: int, maxHits: real, winMs: real): (r: (bool, map<string, Bucket>))
    ensures r.0 == Hit(Lookup(m, key), now, maxHits, winMs).0
    ensures key in r.1 && r.1[key] == Hit(Lookup(m, key), now, maxHits, winMs).1
    ensures forall k :: k != key ==> (k in r.1 <==> k in m)
    ensures forall k :: k in m && k != key ==> r.1[k] == m[k]
  {
    var h := Hit(Lookup(m, key), now, maxHits, winMs);
    (h.0, m[key := h.1])
  }

  /** A refused call leaves the whole store unchanged. */
  lemma RecordRefusedKeeps(m: map<string, Bucket>, key: string, now: int, maxHits: real, winMs: real)
    requires maxHits >= 1.0
    requires Record(m, key, now, maxHits, winMs).0
    ensures Record(m, key, now, maxHits, winMs).1 == m
  {
    RefusedKeeps(Lookup(m, key), now, maxHits, winMs);
    assert m[key := m[key]] == m;
  }

  /** Every bucket stays within a common whole-number limit. */
  lemma RecordKeepsBound(m: map<string, Bucket>, key: string, now: int, n: nat, winMs: real)
    requires n >= 1
    requires forall k :: k in m ==> m[k].count <= n
    ensures var r := Record(m, key, now, n as real, winMs).1;
      forall k :: k in r ==> r[k].count <= n
  {
    CountBound(Lookup(m, key), now, n, winMs);
  }

  /** The verdicts of successive calls on one bucket. */
  function Replay(b: Option<Bucket>, nows: seq<int>, maxHits: real, winMs: real): (r: seq<bool>)
    ensures |r| == |nows|
    decreases |nows|
  {
    if nows == [] then []
    else
      var h := Hit(b, nows[0], maxHits, winMs);
      [h.0] + Replay(Some(h.1), nows[1..], maxHits, winMs)
  }

  /** Inside a live window that already counts `c` hits, call `i` is refused exactly when `c + i` reaches the limit. */
  lemma {:induction false} WindowFrom(c: nat, resetAt: real, nows: seq<int>, maxHits: real, winMs: real)
    requires forall i :: 0 <= i < |nows| ==> (nows[i] as real) < resetAt
    ensures var r := Replay(Some(Bucket(c, resetAt)), nows, maxHits, winMs);
      forall i :: 0 <= i < |nows| ==> (r[i] <==> (c + i) as real >= maxHits)
    decreases |nows|
  {
    if nows != [] {
      var h := Hit(Some(Bucket(c, resetAt)), nows[0], maxHits, winMs);
      var r := Replay(Some(Bucket(c, resetAt)), nows, maxHits, winMs);
      assert r == [h.0] + Replay(Some(h.1), nows[1..], maxHits, winMs);
      var c' := if h.0 then c else c + 1;
      assert h.1 == Bucket(c', resetAt);
      WindowFrom(c', resetAt, nows[1..], maxHits, winMs);
      forall i | 0 <= i < |nows|
        ensures r[i] <==> (c + i) as real >= maxHits
      {
        if i > 0 {
          assert r[i] == Replay(Some(h.1), nows[1..], maxHits, winMs)[i - 1];
        }
      }
    }
  }

  /**
   * Calls on one key that open a window and stay inside it: exactly the first
   * `maxHits` of them are allowed and every later one is refused.
   */
  lemma FirstCallsAllowed(b: Option<Bucket>, nows: seq<int>, maxHits: real, winMs: real)
    requires maxHits >= 1.0 && winMs > 0.0 && |nows| >= 1
    requires b.None? || nows[0] as real >= b.value.resetAt
    requires forall i :: 0 <= i < |nows| ==> (nows[i] as real) < nows[0] as real + winMs
    ensures var r := Replay(b, nows, maxHits, winMs);
      forall i :: 0 <= i < |nows| ==> (r[i] <==> i as real >= maxHits)
  {
    var resetAt := nows[0] as real + winMs;
    ResetAllows(b, nows[0], maxHits, winMs);
    var r := Replay(b, nows, maxHits, winMs);
    assert r == [false] + Replay(Some(Bucket(1, resetAt)), nows[1..], maxHits, winMs);
    WindowFrom(1, resetAt, nows[1..], maxHits, winMs);
    forall i | 0 <= i < |nows|
      ensures r[i] <==> i as real >= maxHits
    {
      if i > 0 {
        assert r[i] == Replay(Some(Bucket(1, resetAt)), nows[1..], maxHits, winMs)[i - 1];
      }
    }
  }

  /** The body of the 429 response `guardOr429` returns. */
  datatype Rejection = Rejection(
    status: nat,
    error: string,
    endpoint: string,
    bucket: Option<string>,
    windowSec: real,
    maxHits: real)

  /** The `STORE` map; `Date.now()` is the `now` argument of each call. */
  class Store {
    var buckets: map<string, Bucket>

    constructor ()
      ensures buckets == map[]
    {
      buckets := map[];
    }

    /** `isRateLimited(req, opts)`: true when the call is refused. */
    method IsRateLimited(req: Request, opts: Options, now: int) returns (limited: bool)
      modifies this
      ensures var l := LimitsOf(opts);
        (limited, buckets) == Record(old(buckets), BucketKey(req, l.endpoint, opts.bucket), now, l.maxHits, l.windowSec * 1000.0)
    {
      var l := LimitsOf(opts);
      var key := BucketKey(req, l.endpoint, opts.bucket);
      var winMs := l.windowSec * 1000.0;
      var b: Bucket;
      ghost var before := buckets;
      if key !in buckets || now as real >= buckets[key].resetAt {
        b := Bucket(0, now as real + winMs);
        buckets := buckets[key := b];
      } else {
        b := buckets[key];
        assert buckets[key := b] == buckets;
      }
      assert b == Current(Lookup(before, key), now, winMs);
      if b.count as real >= l.maxHits {
        return true;
      }
      b := b.(count := b.count + 1);
      buckets := buckets[key := b];
      assert buckets == before[key := b];
      return false;
    }

    /** `guardOr429(req, opts)`: a 429 rejection exactly when the call is refused. */
    method GuardOr429(req: Request, opts: Options, now: int) returns (response: Option<Rejection>)
      modifies this
      ensures var l := LimitsOf(opts);
        var rec := Record(old(buckets), BucketKey(req, l.endpoint, opts.bucket), now, l.maxHits, l.windowSec * 1000.0);
        && buckets == rec.1
        && (response.Some? <==> rec.0)
        && (response.Some? ==> response.value == Rejection(429, "rate_limited", opts.endpoint, opts.bucket, l.windowSec, l.maxHits))
    {
      var limited := IsRateLimited(req, opts, now);
      if limited {
        var l := LimitsOf(opts);
        return Some(Rejection(429, "rate_limited", opts.endpoint, opts.bucket, l.windowSec, l.maxHits));
      }
      return None;
    }
  }
}
