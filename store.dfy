/**
 * The two external stores both services talk to, reduced to what the
 * services observe: a Redis-like key/value cache with per-key expiry, and the
 * error and option values the services pass around.  Remote API responses
 * are inputs to the operations (`Remote<T>`), never computed here.
 */
module Store {

  datatype Option<T> = None | Some(value: T)

  /** Value of a JavaScript `x || d` where `x` may be missing; the falsy
      values of the strings and numbers involved ('' and 0) equal the
      defaults the services use, so only absence matters. */
  function OrElse<T>(x: Option<T>, d: T): T
  {
    if x.Some? then x.value else d
  }

  /** JavaScript truthiness of an optional string (null, undefined and '' are falsy). */
  predicate Truthy(x: Option<string>)
  {
    x.Some? && x.value != ""
  }

  datatype Result<T, E> = Ok(value: T) | Err(error: E)

  /** The outcome of a call to a remote platform: the parsed response, or a thrown error. */
  datatype Remote<T> = Fetched(data: T) | RemoteFailed

  /** What the cache holds under a key: a raw string, or the JSON text of a
      value (serialisation and parsing are modelled as the identity). */
  datatype Stored<V> = Raw(text: string) | Json(value: V)
  {
    /** The truthiness of the string `GET` returns: JSON text is never empty. */
    predicate Truthy()
    {
      Raw? ==> text != ""
    }
  }

  /** `JSON.parse(cached)` as a cache-aside read returns it: raw token text is
      not JSON, so parsing it throws and the operation fails with its own error. */
  function FromCache<V, E>(s: Stored<V>, failure: E): (r: Result<V, E>)
    ensures r.Ok? <==> s.Json?
    ensures r.Ok? ==> r.value == s.value
    ensures r.Err? ==> r.error == failure
  {
    if s.Json? then Ok(s.value) else Err(failure)
  }

  /** `value || 0` for a numeric metric: what the API sent, or 0 when it left the metric out. */
  predicate Defaulted(metric: Option<real>, stored: real)
  {
    stored == if metric.Some? then metric.value else 0.0
  }

  datatype Entry<V> = Entry(stored: Stored<V>, ttl: int)

  /** The live keys of the cache at the moment of a call. */
  type Cache<V> = map<string, Entry<V>>

  /** `redisClient.get(key)` as the services test it (`if (cached)`): a miss
      is an absent key or an empty string. */
  function Get<V>(c: Cache<V>, key: string): Option<Stored<V>>
  {
    if key in c && c[key].stored.Truthy() then Some(c[key].stored) else None
  }

  /** Redis refuses `SET key value EX ttl` unless `ttl` is positive. */
  predicate AcceptsTtl(ttl: int)
  {
    ttl > 0
  }

  /** `redisClient.set(key, value, 'EX', ttl)` with a TTL Redis accepts. */
  function Put<V>(c: Cache<V>, key: string, s: Stored<V>, ttl: int): (r: Cache<V>)
    requires AcceptsTtl(ttl)
    ensures r.Keys == c.Keys + {key}
    ensures key in r && r[key] == Entry(s, ttl)
    ensures Get(r, key) == (if s.Truthy() then Some(s) else None)
    ensures forall k :: k != key ==> Get(r, k) == Get(c, k)
  {
    c[key := Entry(s, ttl)]
  }

  /** The cache-aside round trip: a value a miss cached as JSON is what the
      next read of that key parses back. */
  lemma CachedJsonIsServed<V, E>(c: Cache<V>, key: string, v: V, ttl: int, failure: E)
    requires AcceptsTtl(ttl)
    ensures Get(Put(c, key, Json(v), ttl), key) == Some(Json(v))
    ensures FromCache(Get(Put(c, key, Json(v), ttl), key).value, failure) == Ok(v)
  {
  }

  function DigitChar(d: nat): (ch: char)
    requires d < 10
    ensures '0' <= ch <= '9'
  {
    (('0' as int) + d) as char
  }

  /** A user id as JavaScript renders a non-negative integer in a template string. */
  function Decimal(n: nat): (s: string)
    ensures |s| > 0
    ensures n >= 10 ==> |s| >= 2
    ensures forall i :: 0 <= i < |s| ==> '0' <= s[i] <= '9'
    decreases n
  {
    if n < 10 then [DigitChar(n)] else Decimal(n / 10) + [DigitChar(n % 10)]
  }

  /** Distinct user ids render differently, so per-user keys never collide. */
  lemma {:induction false} DecimalInjective(a: nat, b: nat)
    requires Decimal(a) == Decimal(b)
    ensures a == b
  {
    if a < 10 && b < 10 {
      assert DigitChar(a) == Decimal(a)[0] == Decimal(b)[0] == DigitChar(b);
      assert (DigitChar(a) as int) == ('0' as int) + a;
    } else if a >= 10 && b >= 10 {
      var sa, sb := Decimal(a), Decimal(b);
      assert sa[|sa| - 1] == DigitChar(a % 10);
      assert sb[|sb| - 1] == DigitChar(b % 10);
      assert (DigitChar(a % 10) as int) == ('0' as int) + a % 10;
      assert (DigitChar(b % 10) as int) == ('0' as int) + b % 10;
      assert sa[..|sa| - 1] == Decimal(a / 10);
      assert sb[..|sb| - 1] == Decimal(b / 10);
      DecimalInjective(a / 10, b / 10);
    }
  }
}
