/** The limiter as the program runs it: the script on the Redis keyspace, `Allow`
    of internal/ratelimit/redis.go, and the HTTP middleware around it. */
module RedisLimiter {
  import opened Collections
  import opened SlidingWindow
  import opened LimiterHistory
  import opened LimiterPromises

  // ----- Redis -----

  /** The part of a Redis server that the script uses. */
  class Redis {
    var store: Store

    constructor ()
      ensures store == map[]
    {
      store := map[];
    }

    method DropIfExpired(key: string, at: int, lapse: bool)
      modifies this
      ensures store == old(store)[key := Lookup(old(store), key).(tokens :=
                if lapse && at >= Lookup(old(store), key).expireAt then map[] else Lookup(old(store), key).tokens)]
    {
      var b := Lookup(store, key);
      if lapse && at >= b.expireAt {
        b := b.(tokens := map[]);
      }
      store := store[key := b];
    }

    method ZRemRangeByScore(key: string, max: int)
      modifies this
      ensures store == old(store)[key := Lookup(old(store), key).(tokens := Evict(Lookup(old(store), key).tokens, max))]
    {
      var b := Lookup(store, key);
      store := store[key := b.(tokens := Evict(b.tokens, max))];
    }

    method ZCard(key: string) returns (n: nat)
      ensures n == |Lookup(store, key).tokens|
    {
      n := |Lookup(store, key).tokens|;
    }

    /** The score of a member with the least score, if there is any member. */
    method ZRangeFirst(key: string) returns (first: Option<int>)
      ensures first.None? <==> Lookup(store, key).tokens == map[]
      ensures first.Some? ==>
                exists t :: IsOldest(Lookup(store, key).tokens, t) && Lookup(store, key).tokens[t] == first.value
    {
      var tokens := Lookup(store, key).tokens;
      if tokens == map[] {
        first := None;
      } else {
        OldestFound(tokens);
        var t :| t in tokens && forall u :: u in tokens ==> tokens[t] <= tokens[u];
        assert IsOldest(tokens, t);
        first := Some(tokens[t]);
      }
    }

    method ZAdd(key: string, score: int, token: Token)
      modifies this
      ensures store == old(store)[key := Lookup(old(store), key).(
                tokens := Lookup(old(store), key).tokens[token := score])]
    {
      var b := Lookup(store, key);
      store := store[key := b.(tokens := b.tokens[token := score])];
    }

    method PExpire(key: string, at: int, ttl: int)
      modifies this
      ensures store == old(store)[key := Lookup(old(store), key).(expireAt := at + ttl)]
    {
      store := store[key := Lookup(store, key).(expireAt := at + ttl)];
    }

    /** The time until the oldest member leaves the window, with the script's two fallbacks. */
    method RetryAfter(key: string, stamp: int, window: int) returns (retry: int)
      ensures retry == RetryOf(Lookup(store, key).tokens, stamp, window)
    {
      ghost var tokens := Lookup(store, key).tokens;
      var first := ZRangeFirst(key);
      retry := window;
      if first.Some? {
        retry := first.value + window - stamp;
        if retry < 0 {
          retry := 0;
        }
        ghost var t :| IsOldest(tokens, t) && tokens[t] == first.value;
        RetryOfLeast(tokens, t, stamp, window);
      }
    }

    /** The Lua script, command by command; Redis runs it atomically. */
    method RunScript(c: Call, cfg: Config) returns (reply: Reply)
      modifies this
      ensures store == old(store)[c.key := Script(Lookup(old(store), c.key), c, cfg)]
      ensures reply == ReplyTo(Lookup(old(store), c.key), c, cfg)
    {
      ghost var found := Lookup(store, c.key);
      DropIfExpired(c.key, c.at, c.lapse);
      assert Lookup(store, c.key) == found.(tokens := if Lapses(found, c) then map[] else found.tokens);
      ZRemRangeByScore(c.key, c.stamp - cfg.window);
      assert Lookup(store, c.key) == Bucket(Kept(found, c, cfg), found.expireAt);
      var count := ZCard(c.key);
      if count >= cfg.limit {
        var retry := RetryAfter(c.key, c.stamp, cfg.window);
        return Reply(false, count, retry);
      }
      ZAdd(c.key, c.stamp, c.token);
      PExpire(c.key, c.at, cfg.window);
      return Reply(true, count + 1, 0);
    }
  }

  // ----- Allow -----

  /** `retryAfter` is in milliseconds and zero on accept. */
  datatype Decision = Decision(allowed: bool, limit: int, remaining: int, retryAfter: int)

  datatype Outcome = Decided(decision: Decision) | ScriptFailed

  /** What becomes of a script run: answered, not run at all, or run with a reply that is
      lost or has the wrong shape. */
  datatype Link = Answered | Unreachable | ReplyLost

  const WINDOW_MS := 60 * 1000
  const SECOND_MS := 1000

  function Decimal(n: int): (s: string)
    decreases n < 0, if n < 0 then -n else n
  {
    if n < 0 then "-" + Decimal(-n)
    else if n < 10 then [('0' as int + n) as char]
    else Decimal(n / 10) + [('0' as int + n % 10) as char]
  }

  /** The number that a numeral stands for. */
  function Numeral(s: string): int
  {
    if s == [] then 0
    else if s[0] == '-' then -Numeral(s[1..])
    else 10 * Numeral(s[..|s| - 1]) + (s[|s| - 1] as int - '0' as int)
  }

  lemma {:induction false} DecimalDigits(n: nat)
    ensures Decimal(n) != [] && forall i :: 0 <= i < |Decimal(n)| ==> '0' <= Decimal(n)[i] <= '9'
    ensures Numeral(Decimal(n)) == n
  {
    if n >= 10 {
      DecimalDigits(n / 10);
      assert Decimal(n)[..|Decimal(n)| - 1] == Decimal(n / 10);
    } else {
      assert Decimal(n)[..0] == [];
    }
  }

  lemma {:induction false} DecimalRoundTrip(n: int)
    ensures Numeral(Decimal(n)) == n
  {
    if n < 0 {
      DecimalDigits(-n);
      assert Decimal(n)[1..] == Decimal(-n);
    } else {
      DecimalDigits(n);
    }
  }

  /** The sorted-set member of one request. */
  function TokenFor(nowMS: int, uuid: string): Token
  {
    Decimal(nowMS) + ":" + uuid
  }

  /** Members tell requests apart: with uuids of one length, two are the same if and only
      if stamp and uuid are. */
  lemma {:induction false} TokensDiffer(t: int, u: string, t': int, u': string)
    requires |u| == |u'|
    ensures TokenFor(t, u) == TokenFor(t', u') <==> t == t' && u == u'
  {
    var a, b := TokenFor(t, u), TokenFor(t', u');
    assert a[|a| - |u|..] == u && b[|b| - |u'|..] == u';
    assert a[..|a| - |u| - 1] == Decimal(t) && b[..|b| - |u'| - 1] == Decimal(t');
    DecimalRoundTrip(t);
    DecimalRoundTrip(t');
  }

  /** One call of `Allow`: the client's key, the clock reading and the uuid taken before the
      script runs, and what Redis contributes. */
  datatype Request = Request(client: string, nowMS: int, uuid: string, at: int, lapse: bool)

  /** The decision on a reply.  An accept shows the room left; a reject shows none and a
      waiting time of at least one second. */
  ghost predicate Decides(limit: int, reply: Reply, d: Decision)
  {
    if reply.allowed then d == Decision(true, limit, limit - reply.count, 0)
    else d == Decision(false, limit, 0, if reply.retry < 1000 then 1000 else reply.retry)
  }

  /** An accepting reply counts at most the limit, a rejecting one at least. */
  lemma {:induction false} ReplyBounds(b: Bucket, c: Call, cfg: Config)
    ensures var reply := ReplyTo(b, c, cfg);
            if reply.allowed then reply.count <= cfg.limit else reply.count >= cfg.limit
  {
  }

  class RedisLimiter {
    const client: Redis
    const limit: int
    const windowMS: int
    const keyPrefix: string

    constructor (client: Redis, requestsPerMinute: int, burst: int)
      ensures this.client == client && limit == requestsPerMinute + burst
      ensures windowMS == 60_000 && keyPrefix == "ratelimit"
    {
      this.client := client;
      limit := requestsPerMinute + burst;
      windowMS := WINDOW_MS;
      keyPrefix := "ratelimit";
    }

    function Cfg(): Config
    {
      Config(limit, windowMS)
    }

    /** The script run for one request. */
    function CallFor(r: Request): Call
    {
      Call(keyPrefix + ":" + r.client, r.nowMS, TokenFor(r.nowMS, r.uuid), r.at, r.lapse)
    }

    /** `q` holds the client's key and what the clock, the generator and Redis contribute;
        `link` says what becomes of the script run. */
    method Allow(q: Request, link: Link) returns (r: Outcome)
      modifies client
      ensures client.store == if link == Unreachable then old(client.store)
                              else NextStore(old(client.store), CallFor(q), Cfg())
      ensures r.Decided? <==> link == Answered
      ensures r.Decided? ==>
                Decides(limit, ReplyTo(Lookup(old(client.store), CallFor(q).key), CallFor(q), Cfg()), r.decision)
    {
      if link == Unreachable {
        return ScriptFailed;
      }
      ReplyBounds(Lookup(client.store, CallFor(q).key), CallFor(q), Cfg());
      var reply := client.RunScript(CallFor(q), Config(limit, windowMS));
      if link == ReplyLost {
        return ScriptFailed;
      }
      var remaining := limit - reply.count;
      if remaining < 0 {
        remaining := 0;
      }
      var d := Decision(reply.allowed, limit, remaining, 0);
      if !reply.allowed {
        d := d.(retryAfter := reply.retry);
        if d.retryAfter < SECOND_MS {
          d := d.(retryAfter := SECOND_MS);
        }
      }
      return Decided(d);
    }
  }

  // ----- the middleware -----

  datatype Response =
    | Forwarded
    | ForwardedWithin(limit: int, remaining: int)
    | TooManyRequests(limit: int, remaining: int, retryAfterSeconds: int)

  /** The response to a reply: forwarded with the room left, or 429 with a waiting time of
      at least one second, in whole seconds rounded down. */
  ghost predicate Answers(limit: int, reply: Reply, resp: Response)
  {
    if reply.allowed then resp == ForwardedWithin(limit, limit - reply.count)
    else
      && resp.TooManyRequests? && resp.limit == limit && resp.remaining == 0
      && var wait, h := if reply.retry < 1000 then 1000 else reply.retry, resp.retryAfterSeconds;
         h * 1000 <= wait < (h + 1) * 1000
  }

  /** The path without its trailing slashes. */
  function TrimSlashes(p: string): (r: string)
    ensures r <= p && (r == [] || r[|r| - 1] != '/')
    ensures forall i :: |r| <= i < |p| ==> p[i] == '/'
  {
    if p == [] || p[|p| - 1] != '/' then p else TrimSlashes(p[..|p| - 1])
  }

  class Middleware {
    const limiter: RedisLimiter
    var bypassSet: set<string>
    var rejected: nat

    constructor (limiter: RedisLimiter, bypass: seq<string>)
      ensures this.limiter == limiter && rejected == 0
      ensures forall p :: p in bypassSet <==> exists i :: 0 <= i < |bypass| && TrimSlashes(bypass[i]) == p
    {
      this.limiter := limiter;
      bypassSet := {};
      rejected := 0;
      new;
      for k := 0 to |bypass|
        invariant this.limiter == limiter && rejected == 0
        invariant forall p :: p in bypassSet <==> exists i :: 0 <= i < k && TrimSlashes(bypass[i]) == p
      {
        bypassSet := bypassSet + {TrimSlashes(bypass[k])};
      }
    }

    /** Bypassed paths and limiter errors are always forwarded; otherwise the response
        is that of the decision, and each 429 is counted once. */
    method Handle(path: string, q: Request, link: Link) returns (resp: Response)
      modifies this`rejected, limiter.client
      ensures var asked := TrimSlashes(path) !in bypassSet && link != Unreachable;
              limiter.client.store ==
              if asked then NextStore(old(limiter.client.store), limiter.CallFor(q), limiter.Cfg())
              else old(limiter.client.store)
      ensures if TrimSlashes(path) in bypassSet || link != Answered then
                resp == Forwarded && rejected == old(rejected)
              else
                var c := limiter.CallFor(q);
                var reply := ReplyTo(Lookup(old(limiter.client.store), c.key), c, limiter.Cfg());
                && Answers(limiter.limit, reply, resp)
                && rejected == old(rejected) + if reply.allowed then 0 else 1
    {
      if TrimSlashes(path) in bypassSet {
        return Forwarded;
      }
      var outcome := limiter.Allow(q, link);
      if outcome.ScriptFailed? {
        return Forwarded;
      }
      var d := outcome.decision;
      if !d.allowed {
        rejected := rejected + 1;
        return TooManyRequests(d.limit, d.remaining, d.retryAfter / SECOND_MS);
      }
      return ForwardedWithin(d.limit, d.remaining);
    }
  }

  // ----- one bucket per client -----

  /** The script run is that of the request: its own key for every client, the stamp taken
      in Go, a member that no other request has, and the configured limit and window. */
  lemma {:induction false} CallIsFaithful(limiter: RedisLimiter, q: Request, q': Request)
    requires |q.uuid| == |q'.uuid|
    ensures limiter.CallFor(q).key == limiter.CallFor(q').key <==> q.client == q'.client
    ensures limiter.CallFor(q).token == limiter.CallFor(q').token <==> q.nowMS == q'.nowMS && q.uuid == q'.uuid
    ensures limiter.CallFor(q).stamp == q.nowMS && limiter.CallFor(q).at == q.at && limiter.CallFor(q).lapse == q.lapse
    ensures limiter.Cfg().limit == limiter.limit && limiter.Cfg().window == limiter.windowMS
  {
    KeysDiffer(limiter, q, q');
    TokensDiffer(q.nowMS, q.uuid, q'.nowMS, q'.uuid);
  }

  lemma {:induction false} KeysDiffer(limiter: RedisLimiter, q: Request, q': Request)
    ensures limiter.CallFor(q).key == limiter.CallFor(q').key <==> q.client == q'.client
  {
    var n := |limiter.keyPrefix| + 1;
    assert limiter.CallFor(q).key[n..] == q.client && limiter.CallFor(q').key[n..] == q'.client;
  }

  /** The script runs of a sequence of requests that reach Redis. */
  function CallsFor(limiter: RedisLimiter, reqs: seq<Request>): (cs: seq<Call>)
    ensures |cs| == |reqs|
  {
    seq(|reqs|, i requires 0 <= i < |reqs| => limiter.CallFor(reqs[i]))
  }

  /** The requests of one client among the first `n`. */
  function OfClient(reqs: seq<Request>, client: string, n: nat): (r: seq<Request>)
    requires n <= |reqs|
  {
    if n == 0 then [] else
    OfClient(reqs, client, n - 1) + if reqs[n - 1].client == client then [reqs[n - 1]] else []
  }

  lemma {:induction false} OfClientCalls(limiter: RedisLimiter, reqs: seq<Request>, q: Request, n: nat)
    requires n <= |reqs|
    ensures CallsFor(limiter, OfClient(reqs, q.client, n)) == Only(CallsFor(limiter, reqs), limiter.CallFor(q).key, n)
  {
    if n > 0 {
      OfClientCalls(limiter, reqs, q, n - 1);
      KeysDiffer(limiter, reqs[n - 1], q);
    }
  }

  lemma {:induction false} OfClientPrefix(reqs: seq<Request>, client: string, m: nat, n: nat)
    requires m <= n <= |reqs|
    ensures OfClient(reqs, client, m) <= OfClient(reqs, client, n)
  {
    if m < n {
      OfClientPrefix(reqs, client, m, n - 1);
    }
  }

  /** Clients do not interfere: for every sequence of requests, with stamps in any order,
      the reply to each is that of the sequence of its own client's requests alone. */
  lemma {:induction false} ClientsAreIndependent(limiter: RedisLimiter, reqs: seq<Request>, i: nat)
    requires i < |reqs|
    ensures var own, pos := OfClient(reqs, reqs[i].client, |reqs|), |OfClient(reqs, reqs[i].client, i)|;
            && pos < |own| && own[pos] == reqs[i]
            && ReplyAt(CallsFor(limiter, own), pos, limiter.Cfg()) ==
               ReplyAt(CallsFor(limiter, reqs), i, limiter.Cfg())
  {
    var client := reqs[i].client;
    OfClientPrefix(reqs, client, i + 1, |reqs|);
    assert OfClient(reqs, client, i + 1)[|OfClient(reqs, client, i)|] == reqs[i];
    OfClientCalls(limiter, reqs, reqs[i], i);
    OfClientCalls(limiter, reqs, reqs[i], |reqs|);
    KeysAreIndependent(CallsFor(limiter, reqs), limiter.Cfg(), i);
  }

  // ----- the response -----

  /** With steady clocks a request is answered 429 if and only if its client has made `limit`
      accepted requests or more in the trailing window, and is forwarded otherwise. */
  lemma {:induction false} RejectsExactlyOverLimit(cs: seq<Call>, cfg: Config, j: nat, resp: Response)
    requires FreshTokens(cs) && Steady(cs, cfg) && j < |cs| && Answers(cfg.limit, ReplyAt(cs, j, cfg), resp)
    ensures var n := |Trailing(cs, Verdicts(cs, |cs|, cfg), cfg.window, j)|;
            && (resp.TooManyRequests? <==> n >= cfg.limit)
            && (n < cfg.limit ==> resp == ForwardedWithin(cfg.limit, cfg.limit - n - 1))
  {
    VerdictIsTrailingCount(cs, cfg, j);
    ReplyCounts(cs, cfg, j);
  }

  /** The remaining value of an accepted call forecasts how many more calls on the key at
      the same stamp are accepted: exactly that many, and no further one. */
  lemma {:induction false} RemainingHeaderIsExact(cs: seq<Call>, cfg: Config, j: nat, i: nat, resp: Response)
    requires FreshTokens(cs) && cfg.limit >= 1 && cfg.window >= 1
    requires SortedTimes(cs)
    requires j < i < |cs| && cs[i].key == cs[j].key && Verdicts(cs, |cs|, cfg)[j] && SameInstant(cs, cfg, j, i + 1)
    requires Answers(cfg.limit, ReplyAt(cs, j, cfg), resp)
    ensures resp.ForwardedWithin? && resp.limit == cfg.limit
    ensures Verdicts(cs, |cs|, cfg)[i] <==> CallsOn(cs, cs[j].key, j + 1, i) < resp.remaining
  {
    ReplyCounts(cs, cfg, j);
    RemainingIsExact(cs, cfg, j, i);
  }

  // ----- the Retry-After header -----

  /** Every rejected call is answered 429 with a header between 1 and 60. */
  lemma {:induction false} HeaderInRange(cs: seq<Call>, cfg: Config, j: nat, resp: Response)
    requires FreshTokens(cs) && Steady(cs, cfg) && cfg.limit >= 1 && cfg.window == 60_000
    requires j < |cs| && !Verdicts(cs, |cs|, cfg)[j] && Answers(cfg.limit, ReplyAt(cs, j, cfg), resp)
    ensures resp.TooManyRequests? && resp.limit == cfg.limit && resp.remaining == 0
    ensures 1 <= resp.retryAfterSeconds <= 60
  {
    RetryValue(cs, cfg, j);
  }

  /** The header is tight to one second: one second more is always enough for a client
      whose key sees no other request, and waiting exactly the header is enough if and
      only if the exact retry time is at most one second or a whole number of seconds. */
  lemma {:induction false} HeaderIsTight(cs: seq<Call>, cfg: Config, j: nat, i: nat, resp: Response)
    requires FreshTokens(cs) && Steady(cs, cfg) && cfg.limit >= 1 && cfg.window == 60_000
    requires j < i < |cs| && cs[i].key == cs[j].key && !Verdicts(cs, |cs|, cfg)[j]
    requires forall m :: j < m < i ==> cs[m].key != cs[j].key
    requires Answers(cfg.limit, ReplyAt(cs, j, cfg), resp)
    ensures resp.TooManyRequests?
    ensures cs[i].stamp >= cs[j].stamp + (resp.retryAfterSeconds + 1) * 1000 ==> Verdicts(cs, |cs|, cfg)[i]
    ensures cs[i].stamp == cs[j].stamp + resp.retryAfterSeconds * 1000 ==>
              var r := ReplyAt(cs, j, cfg).retry;
              (Verdicts(cs, |cs|, cfg)[i] <==> r <= 1000 || r % 1000 == 0)
  {
    RetryIsExact(cs, cfg, j, i);
    assert !ReplyAt(cs, j, cfg).allowed by { VerdictAt(cs, |cs|, cfg, j); }
    HeaderArithmetic(ReplyAt(cs, j, cfg).retry, resp.retryAfterSeconds);
  }

  lemma {:induction false} HeaderArithmetic(retry: int, h: int)
    requires 1 <= retry && h * 1000 <= (if retry < 1000 then 1000 else retry) < (h + 1) * 1000
    ensures retry < (h + 1) * 1000
    ensures retry <= h * 1000 <==> retry <= 1000 || retry % 1000 == 0
  {
  }

  /** A run in which a client that waits exactly the header's one second is rejected again. */
  function HeaderWitness(): seq<Call>
  {
    [Call("k", 0, "a", 0, false), Call("k", 58500, "b", 58500, false), Call("k", 59500, "c", 59500, false)]
  }

  lemma {:induction false} HeaderAloneCanFail()
    ensures var cs, cfg := HeaderWitness(), Config(1, 60_000);
            && FreshTokens(cs) && Steady(cs, cfg) && |cs| == 3
            && !Verdicts(cs, 3, cfg)[1] && Answers(1, ReplyAt(cs, 1, cfg), TooManyRequests(1, 0, 1))
            && cs[2].stamp == cs[1].stamp + 1 * 1000
            && !Verdicts(cs, 3, cfg)[2]
  {
    SteadyIfClocksAgree(HeaderWitness(), Config(1, 60_000));
    TooSoon(HeaderWitness(), Config(1, 60_000));
  }

  lemma {:induction false} TooSoon(cs: seq<Call>, cfg: Config)
    requires FreshTokens(cs) && Steady(cs, cfg) && |cs| == 3 && cfg == Config(1, 60_000)
    requires cs[0].key == cs[1].key == cs[2].key
    requires cs[0].stamp == 0 && cs[1].stamp == 58500 && cs[2].stamp == 59500
    ensures !Verdicts(cs, 3, cfg)[1] && Answers(1, ReplyAt(cs, 1, cfg), TooManyRequests(1, 0, 1))
    ensures !Verdicts(cs, 3, cfg)[2]
  {
    SteadyIsWindowed(cs, cfg);
    SecondIsRejected(cs, Verdicts(cs, 3, cfg), cfg);
    RetryValue(cs, cfg, 1);
    RetryIsExact(cs, cfg, 1, 2);
  }

  lemma {:induction false} SecondIsRejected(cs: seq<Call>, ok: seq<bool>, cfg: Config)
    requires Windowed(cs, ok, cfg) && |cs| == 3 && cfg == Config(1, 60_000)
    requires cs[0].key == cs[1].key && cs[0].stamp == 0 && cs[1].stamp == 58500
    ensures !ok[1] && AcceptedSeq(cs, ok, cs[1].key, 1) == [0]
  {
    assert Fits(cs, ok, cfg, 0) && Fits(cs, ok, cfg, 1);
    assert Trailing(cs, ok, cfg.window, 0) == {};
    assert 0 in Trailing(cs, ok, cfg.window, 1);
  }
}
