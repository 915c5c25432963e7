/** The sliding-window-log script of internal/ratelimit/redis.go, as a transition
    on one Redis key, and the runs of that script over many keys. */
module SlidingWindow {

  type Token = string

  /** The script's constant arguments: `limit` is requests per minute plus burst,
      `window` the window length in milliseconds. */
  datatype Config = Config(limit: int, window: int)

  /** One sorted set (token to score) and the time at which Redis may drop it. */
  datatype Bucket = Bucket(tokens: map<Token, int>, expireAt: int)

  const EMPTY := Bucket(map[], 0)

  /** One run of the script.  `stamp` is the clock reading taken before the call,
      `at` the Redis clock when the script runs.  `lapse` says that Redis drops
      the key before this call if its expiry time has been reached; leaving it
      free covers every expiry policy, including a Redis that never expires. */
  datatype Call = Call(key: string, stamp: int, token: Token, at: int, lapse: bool)

  datatype Reply = Reply(allowed: bool, count: nat, retry: int)

  /** ZREMRANGEBYSCORE -inf cutoff: scores up to and including the cutoff go. */
  function Evict(tokens: map<Token, int>, cutoff: int): (r: map<Token, int>)
  {
    map t | t in tokens && tokens[t] > cutoff :: tokens[t]
  }

  predicate Lapses(b: Bucket, c: Call)
  {
    c.lapse && c.at >= b.expireAt
  }

  /** The tokens that the script counts: those that neither expiry nor eviction removed. */
  function Kept(b: Bucket, c: Call, cfg: Config): (r: map<Token, int>)
  {
    Evict(if Lapses(b, c) then map[] else b.tokens, c.stamp - cfg.window)
  }

  predicate Accepts(b: Bucket, c: Call, cfg: Config)
  {
    |Kept(b, c, cfg)| < cfg.limit
  }

  /** The bucket after the script has run. */
  function Script(b: Bucket, c: Call, cfg: Config): (r: Bucket)
  {
    var kept := Kept(b, c, cfg);
    if Accepts(b, c, cfg) then Bucket(kept[c.token := c.stamp], c.at + cfg.window)
    else Bucket(kept, b.expireAt)
  }

  /** ZRANGE 0 0: `t` is a member with the least score. */
  ghost predicate IsOldest(tokens: map<Token, int>, t: Token)
  {
    t in tokens && forall u :: u in tokens ==> tokens[t] <= tokens[u]
  }

  lemma {:induction false} OldestExists(tokens: map<Token, int>) returns (t: Token)
    requires tokens != map[]
    ensures IsOldest(tokens, t)
    decreases |tokens|
  {
    var u :| u in tokens;
    var rest := tokens - {u};
    if rest == map[] {
      assert forall v :: v in tokens ==> v == u || v in rest;
      t := u;
    } else {
      assert |rest.Keys| < |tokens.Keys| by { assert rest.Keys == tokens.Keys - {u}; }
      var v := OldestExists(rest);
      assert forall w :: w in tokens ==> w == u || w in rest;
      t := if tokens[u] < tokens[v] then u else v;
    }
  }

  /** The waiting time that a rejecting script returns: the time until the oldest
      kept token leaves the window, with the script's two fallbacks. */
  ghost function RetryOf(kept: map<Token, int>, stamp: int, window: int): (r: int)
  {
    if kept == map[] then window
    else
      OldestFound(kept);
      var t :| IsOldest(kept, t);
      var wait := kept[t] + window - stamp;
      if wait < 0 then 0 else wait
  }

  lemma {:induction false} OldestFound(tokens: map<Token, int>)
    requires tokens != map[]
    ensures exists t :: IsOldest(tokens, t)
  {
    var t := OldestExists(tokens);
  }

  ghost function ReplyTo(b: Bucket, c: Call, cfg: Config): (r: Reply)
  {
    var kept := Kept(b, c, cfg);
    if Accepts(b, c, cfg) then Reply(true, |kept| + 1, 0)
    else Reply(false, |kept|, RetryOf(kept, c.stamp, cfg.window))
  }

  // ----- runs over many keys -----

  type Store = map<string, Bucket>

  function Lookup(m: Store, key: string): Bucket
  {
    if key in m then m[key] else EMPTY
  }

  /** The whole keyspace after one call. */
  function NextStore(m: Store, c: Call, cfg: Config): Store
  {
    m[c.key := Script(Lookup(m, c.key), c, cfg)]
  }

  /** The keyspace before the run and after each of its calls, starting from an empty Redis. */
  function Stores(cs: seq<Call>, cfg: Config): (r: seq<Store>)
    ensures |r| == |cs| + 1
  {
    if cs == [] then [map[]] else
    var before := Stores(cs[..|cs| - 1], cfg);
    before + [NextStore(before[|cs| - 1], cs[|cs| - 1], cfg)]
  }

  function BucketAt(cs: seq<Call>, key: string, n: nat, cfg: Config): Bucket
    requires n <= |cs|
  {
    Lookup(Stores(cs, cfg)[n], key)
  }

  /** The bucket that call `i` finds. */
  function Found(cs: seq<Call>, i: nat, cfg: Config): Bucket
    requires i < |cs|
  {
    BucketAt(cs, cs[i].key, i, cfg)
  }

  /** The verdicts of a run, call by call. */
  function Verdicts(cs: seq<Call>, n: nat, cfg: Config): (ok: seq<bool>)
    requires n <= |cs|
    ensures |ok| == n
  {
    if n == 0 then [] else Verdicts(cs, n - 1, cfg) + [Accepts(Found(cs, n - 1, cfg), cs[n - 1], cfg)]
  }

  /** The calls before which Redis dropped the key. */
  function Lapsed(cs: seq<Call>, n: nat, cfg: Config): (gone: seq<bool>)
    requires n <= |cs|
    ensures |gone| == n
  {
    if n == 0 then [] else Lapsed(cs, n - 1, cfg) + [Lapses(Found(cs, n - 1, cfg), cs[n - 1])]
  }

  ghost function ReplyAt(cs: seq<Call>, i: nat, cfg: Config): Reply
    requires i < |cs|
  {
    ReplyTo(Found(cs, i, cfg), cs[i], cfg)
  }

  function KeptAt(cs: seq<Call>, i: nat, cfg: Config): map<Token, int>
    requires i < |cs|
  {
    Kept(Found(cs, i, cfg), cs[i], cfg)
  }

  lemma {:induction false} VerdictAt(cs: seq<Call>, n: nat, cfg: Config, i: nat)
    requires i < n <= |cs|
    ensures Verdicts(cs, n, cfg)[i] == Accepts(Found(cs, i, cfg), cs[i], cfg)
    ensures Lapsed(cs, n, cfg)[i] == Lapses(Found(cs, i, cfg), cs[i])
  {
    if i < n - 1 {
      VerdictAt(cs, n - 1, cfg, i);
    }
  }

  /** Every request carries a fresh uuid, so no token repeats in a run. */
  ghost predicate FreshTokens(cs: seq<Call>)
  {
    forall i, j :: 0 <= i < j < |cs| ==> cs[i].token != cs[j].token
  }

  ghost predicate SortedStamps(cs: seq<Call>)
  {
    forall i, j :: 0 <= i < j < |cs| ==> cs[i].stamp <= cs[j].stamp
  }

  ghost predicate SortedTimes(cs: seq<Call>)
  {
    forall i, j :: 0 <= i < j < |cs| ==> cs[i].at <= cs[j].at
  }

  /** If call `m` finds its key dropped, an accepted call `i` on it is a full window older, by the stamps. */
  ghost predicate LapseIsLate(cs: seq<Call>, cfg: Config, i: nat, m: nat)
    requires i < m < |cs|
  {
    cs[i].key == cs[m].key && Verdicts(cs, |cs|, cfg)[i] && Lapsed(cs, |cs|, cfg)[m] ==>
      cs[i].stamp + cfg.window <= cs[m].stamp
  }

  /** Redis drops a key only when, by the stamps, all its tokens have left the window. */
  ghost predicate ExpiryIsLate(cs: seq<Call>, cfg: Config)
  {
    forall i: nat, m: nat :: i < m < |cs| ==> LapseIsLate(cs, cfg, i, m)
  }

  /** Stamps reach Redis in order, and keys do not expire early. */
  ghost predicate Steady(cs: seq<Call>, cfg: Config)
  {
    SortedStamps(cs) && ExpiryIsLate(cs, cfg)
  }

  /** On a key that may expire, a full window on the Redis clock is one by the stamps. */
  ghost predicate ClocksAgree(cs: seq<Call>, window: int)
  {
    forall i, m :: 0 <= i < m < |cs| && cs[i].key == cs[m].key && cs[m].lapse && cs[i].at + window <= cs[m].at ==>
      cs[i].stamp + window <= cs[m].stamp
  }

  /** Token `t` outlives one run of the script. */
  predicate Stays(b: Bucket, c: Call, cfg: Config, t: Token)
  {
    t in b.tokens && !Lapses(b, c) && b.tokens[t] > c.stamp - cfg.window
  }

  /** Which tokens one run of the script leaves behind. */
  lemma {:induction false} ScriptTokens(b: Bucket, c: Call, cfg: Config, t: Token)
    ensures var after := Script(b, c, cfg).tokens;
            var added := Accepts(b, c, cfg) && t == c.token;
            && (t in after <==> added || Stays(b, c, cfg, t))
            && (t in after ==> after[t] == if added then c.stamp else b.tokens[t])
  {
  }

  /** The run starts empty and every call runs the script once on the keyspace it finds. */
  lemma {:induction false} StoresStep(cs: seq<Call>, cfg: Config, n: nat)
    requires n < |cs|
    ensures Stores(cs, cfg)[0] == map[]
    ensures Stores(cs, cfg)[n + 1] == NextStore(Stores(cs, cfg)[n], cs[n], cfg)
  {
    if n < |cs| - 1 {
      StoresStep(cs[..|cs| - 1], cfg, n);
    } else {
      StoresStart(cs[..|cs| - 1], cfg);
    }
  }

  lemma {:induction false} StoresStart(cs: seq<Call>, cfg: Config)
    ensures Stores(cs, cfg)[0] == map[]
  {
    if cs != [] {
      StoresStart(cs[..|cs| - 1], cfg);
    }
  }

  lemma {:induction false} BucketStart(cs: seq<Call>, key: string, cfg: Config)
    ensures BucketAt(cs, key, 0, cfg) == EMPTY
  {
    StoresStart(cs, cfg);
  }

  /** One call touches only its own key. */
  lemma {:induction false} BucketStep(cs: seq<Call>, key: string, n: nat, cfg: Config)
    requires n < |cs|
    ensures BucketAt(cs, key, n + 1, cfg) ==
            if cs[n].key == key then Script(BucketAt(cs, key, n, cfg), cs[n], cfg)
            else BucketAt(cs, key, n, cfg)
  {
    StoresStep(cs, cfg, n);
  }
}
