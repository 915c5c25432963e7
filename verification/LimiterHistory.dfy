/** What the trimmed sorted set says about the full history of a run:
    exact for arbitrary stamps and expiry, then simplified for steady clocks.
    A history is the calls together with their verdicts `ok` and the calls `gone`
    before which Redis had dropped the key. */
module LimiterHistory {
  import opened Collections
  import opened SlidingWindow

  /** No call strictly between `i` and `j` on the key of `i` removed the token of `i`. */
  ghost predicate Survives(cs: seq<Call>, gone: seq<bool>, window: int, i: nat, j: nat)
    requires i < |cs| == |gone| && j <= |cs|
  {
    forall m: nat :: i < m < j && cs[m].key == cs[i].key ==> !gone[m] && cs[m].stamp - window < cs[i].stamp
  }

  /** Call `i` put a token under `key` that is still there just before call `j`. */
  ghost predicate Holds(cs: seq<Call>, ok: seq<bool>, gone: seq<bool>, window: int, key: string, i: nat, j: nat)
    requires j <= |cs| == |ok| == |gone|
  {
    i < j && cs[i].key == key && ok[i] && Survives(cs, gone, window, i, j)
  }

  /** The map `tokens` lists the tokens of a set of calls with their stamps. */
  ghost predicate TokensOf(cs: seq<Call>, calls: set<nat>, tokens: map<Token, int>)
    requires forall i :: i in calls ==> i < |cs|
  {
    InTokens(cs, calls, tokens) && FromCalls(cs, calls, tokens)
  }

  ghost predicate InTokens(cs: seq<Call>, calls: set<nat>, tokens: map<Token, int>)
    requires forall i :: i in calls ==> i < |cs|
  {
    forall i :: i in calls ==> cs[i].token in tokens && tokens[cs[i].token] == cs[i].stamp
  }

  ghost predicate FromCalls(cs: seq<Call>, calls: set<nat>, tokens: map<Token, int>)
    requires forall i :: i in calls ==> i < |cs|
  {
    forall t :: t in tokens ==> exists i :: i in calls && cs[i].token == t
  }

  ghost function Holders(cs: seq<Call>, ok: seq<bool>, gone: seq<bool>, window: int, key: string, j: nat): set<nat>
    requires j <= |cs| == |ok| == |gone|
  {
    set i: nat | i < j && Holds(cs, ok, gone, window, key, i, j)
  }

  /** Exact refinement for arbitrary stamps and expiry: the sorted set holds
      precisely the accepted calls that no later call on the key has removed. */
  lemma {:induction false} TokensExact(cs: seq<Call>, cfg: Config, key: string, j: nat)
    requires FreshTokens(cs) && j <= |cs|
    ensures TokensOf(cs, Holders(cs, Verdicts(cs, |cs|, cfg), Lapsed(cs, |cs|, cfg), cfg.window, key, j),
                     BucketAt(cs, key, j, cfg).tokens)
  {
    var ok, gone := Verdicts(cs, |cs|, cfg), Lapsed(cs, |cs|, cfg);
    if j == 0 {
      BucketStart(cs, key, cfg);
    } else {
      var n := j - 1;
      TokensExact(cs, cfg, key, n);
      BucketStep(cs, key, n, cfg);
      if cs[n].key == key {
        VerdictAt(cs, |cs|, cfg, n);
        HoldersStep(cs, ok, gone, cfg, key, n, BucketAt(cs, key, n, cfg));
      } else {
        HoldersSame(cs, ok, gone, cfg.window, key, n);
      }
    }
  }

  /** A call on another key changes nothing. */
  lemma {:induction false} HoldersSame(cs: seq<Call>, ok: seq<bool>, gone: seq<bool>, window: int, key: string, n: nat)
    requires n < |cs| == |ok| == |gone| && cs[n].key != key
    ensures Holders(cs, ok, gone, window, key, n + 1) == Holders(cs, ok, gone, window, key, n)
  {
    forall i: nat ensures Holds(cs, ok, gone, window, key, i, n + 1) <==> Holds(cs, ok, gone, window, key, i, n) {
    }
  }

  lemma {:induction false} HoldersStep(cs: seq<Call>, ok: seq<bool>, gone: seq<bool>, cfg: Config, key: string,
                                       n: nat, b: Bucket)
    requires FreshTokens(cs) && n < |cs| == |ok| == |gone| && cs[n].key == key
    requires ok[n] == Accepts(b, cs[n], cfg) && gone[n] == Lapses(b, cs[n])
    requires TokensOf(cs, Holders(cs, ok, gone, cfg.window, key, n), b.tokens)
    ensures TokensOf(cs, Holders(cs, ok, gone, cfg.window, key, n + 1), Script(b, cs[n], cfg).tokens)
  {
    var before, after := Holders(cs, ok, gone, cfg.window, key, n), Holders(cs, ok, gone, cfg.window, key, n + 1);
    var tokens := Script(b, cs[n], cfg).tokens;
    HoldersGrow(cs, ok, gone, cfg.window, key, n);
    forall i | i in after
      ensures cs[i].token in tokens && tokens[cs[i].token] == cs[i].stamp
    {
      ScriptTokens(b, cs[n], cfg, cs[i].token);
    }
    forall t | t in tokens
      ensures exists i :: i in after && cs[i].token == t
    {
      ScriptTokens(b, cs[n], cfg, t);
      if ok[n] && t == cs[n].token {
        assert n in after;
      } else {
        var i :| i in before && cs[i].token == t;
        assert i in after;
      }
    }
  }

  lemma {:induction false} HoldersGrow(cs: seq<Call>, ok: seq<bool>, gone: seq<bool>, window: int, key: string, n: nat)
    requires n < |cs| == |ok| == |gone| && cs[n].key == key
    ensures forall i: nat :: i in Holders(cs, ok, gone, window, key, n + 1) <==>
              (i == n && ok[n]) ||
              (i in Holders(cs, ok, gone, window, key, n) && !gone[n] && cs[n].stamp - window < cs[i].stamp)
  {
  }

  /** The calls whose tokens the script counts at call `j`. */
  ghost function Counted(cs: seq<Call>, ok: seq<bool>, gone: seq<bool>, window: int, j: nat): set<nat>
    requires j < |cs| == |ok| == |gone|
  {
    set i: nat | i < j && cs[i].key == cs[j].key && ok[i] && Survives(cs, gone, window, i, j + 1)
  }

  /** The tokens counted at call `j` are those of the surviving accepted calls, one
      each; so the verdict compares their number with the limit. */
  lemma {:induction false} VerdictExact(cs: seq<Call>, cfg: Config, j: nat)
    requires FreshTokens(cs) && j < |cs|
    ensures var ok, gone := Verdicts(cs, |cs|, cfg), Lapsed(cs, |cs|, cfg);
            && TokensOf(cs, Counted(cs, ok, gone, cfg.window, j), KeptAt(cs, j, cfg))
            && |KeptAt(cs, j, cfg)| == |Counted(cs, ok, gone, cfg.window, j)|
            && (ok[j] <==> |Counted(cs, ok, gone, cfg.window, j)| < cfg.limit)
  {
    var ok, gone := Verdicts(cs, |cs|, cfg), Lapsed(cs, |cs|, cfg);
    TokensExact(cs, cfg, cs[j].key, j);
    VerdictAt(cs, |cs|, cfg, j);
    CountedTokens(cs, ok, gone, cfg, j, Found(cs, j, cfg));
    TokensOfSize(cs, Counted(cs, ok, gone, cfg.window, j), KeptAt(cs, j, cfg));
  }

  lemma {:induction false} CountedTokens(cs: seq<Call>, ok: seq<bool>, gone: seq<bool>, cfg: Config, j: nat, b: Bucket)
    requires j < |cs| == |ok| == |gone| && gone[j] == Lapses(b, cs[j])
    requires TokensOf(cs, Holders(cs, ok, gone, cfg.window, cs[j].key, j), b.tokens)
    ensures TokensOf(cs, Counted(cs, ok, gone, cfg.window, j), Kept(b, cs[j], cfg))
  {
    var held, counted := Holders(cs, ok, gone, cfg.window, cs[j].key, j), Counted(cs, ok, gone, cfg.window, j);
    forall i: nat
      ensures i in counted <==> i in held && !gone[j] && cs[j].stamp - cfg.window < cs[i].stamp
    {
    }
  }

  lemma {:induction false} TokensOfSize(cs: seq<Call>, calls: set<nat>, tokens: map<Token, int>)
    requires FreshTokens(cs)
    requires forall i :: i in calls ==> i < |cs|
    requires TokensOf(cs, calls, tokens)
    ensures |tokens| == |calls|
  {
    var f := (i: nat) requires i < |cs| => cs[i].token;
    forall x, y | x in calls && y in calls && f(x) == f(y)
      ensures x == y
    {
      assert x < y || y < x || x == y;
    }
    ImageSize(calls, tokens.Keys, f);
  }

  // ----- steady clocks -----

  /** Accepted calls on the key of `j` within the trailing window of call `j`,
      taken from the full history and not from the trimmed set. */
  ghost function Trailing(cs: seq<Call>, ok: seq<bool>, window: int, j: nat): set<nat>
    requires j < |cs| == |ok|
  {
    set i: nat | i < j && cs[i].key == cs[j].key && ok[i] && cs[i].stamp > cs[j].stamp - window
  }

  /** From an accepted call on, the key's expiry time is at least one window later. */
  lemma {:induction false} ExpiryAfterAccept(cs: seq<Call>, cfg: Config, i: nat, m: nat)
    requires i < m <= |cs| && Verdicts(cs, |cs|, cfg)[i] && SortedTimes(cs)
    ensures BucketAt(cs, cs[i].key, m, cfg).expireAt >= cs[i].at + cfg.window
  {
    BucketStep(cs, cs[i].key, m - 1, cfg);
    if m - 1 > i {
      ExpiryAfterAccept(cs, cfg, i, m - 1);
    } else {
      VerdictAt(cs, |cs|, cfg, i);
    }
  }

  /** Call `i` is the last accepted one on `key` among the first `n`. */
  ghost predicate LastAccept(cs: seq<Call>, ok: seq<bool>, key: string, i: nat, n: nat)
    requires n <= |cs| == |ok|
  {
    i < n && cs[i].key == key && ok[i] && forall m :: i < m < n && cs[m].key == key ==> !ok[m]
  }

  /** A key may be dropped exactly one window, on the Redis clock, after the last call that
      was accepted on it; rejected calls do not put this off. */
  lemma {:induction false} ExpiryExact(cs: seq<Call>, cfg: Config, key: string, i: nat, n: nat)
    requires n <= |cs| && LastAccept(cs, Verdicts(cs, |cs|, cfg), key, i, n)
    ensures BucketAt(cs, key, n, cfg).expireAt == cs[i].at + cfg.window
  {
    BucketStep(cs, key, n - 1, cfg);
    VerdictAt(cs, |cs|, cfg, n - 1);
    if i < n - 1 {
      ExpiryExact(cs, cfg, key, i, n - 1);
    }
  }

  /** So a call finds its key dropped if and only if that time has come and Redis has acted on it. */
  lemma {:induction false} LapsedExact(cs: seq<Call>, cfg: Config, i: nat, m: nat)
    requires m < |cs| && LastAccept(cs, Verdicts(cs, |cs|, cfg), cs[m].key, i, m)
    ensures Lapsed(cs, |cs|, cfg)[m] <==> cs[m].lapse && cs[m].at >= cs[i].at + cfg.window
  {
    ExpiryExact(cs, cfg, cs[m].key, i, m);
    VerdictAt(cs, |cs|, cfg, m);
  }

  /** A run in which no key expires is steady if its stamps are in order; so is one in
      which the clock of Redis agrees with the stamps, as a single clock does. */
  lemma {:induction false} SteadyIfClocksAgree(cs: seq<Call>, cfg: Config)
    requires SortedStamps(cs)
    requires (forall i :: 0 <= i < |cs| ==> !cs[i].lapse) || (SortedTimes(cs) && ClocksAgree(cs, cfg.window))
    ensures Steady(cs, cfg)
  {
    forall i: nat, m: nat | i < m < |cs| ensures LapseIsLate(cs, cfg, i, m) {
      VerdictAt(cs, |cs|, cfg, m);
      if cs[i].key == cs[m].key && Verdicts(cs, |cs|, cfg)[i] && cs[m].lapse {
        ExpiryAfterAccept(cs, cfg, i, m);
      }
    }
  }

  /** With steady clocks, surviving means being inside the trailing window. */
  lemma {:induction false} SteadySurvival(cs: seq<Call>, cfg: Config, i: nat, j: nat)
    requires Steady(cs, cfg) && i < j < |cs| && cs[i].key == cs[j].key && Verdicts(cs, |cs|, cfg)[i]
    ensures Survives(cs, Lapsed(cs, |cs|, cfg), cfg.window, i, j + 1) <==> cs[i].stamp > cs[j].stamp - cfg.window
  {
    var gone := Lapsed(cs, |cs|, cfg);
    if cs[i].stamp > cs[j].stamp - cfg.window {
      forall m: nat | i < m < j + 1 && cs[m].key == cs[i].key
        ensures !gone[m] && cs[m].stamp - cfg.window < cs[i].stamp
      {
        assert m < j ==> cs[m].stamp <= cs[j].stamp;
        assert LapseIsLate(cs, cfg, i, m);
      }
    }
  }

  /** With steady clocks, the counted tokens are exactly the accepted requests of the
      trailing window of the full history, and the verdict compares their number with the limit. */
  lemma {:induction false} VerdictIsTrailingCount(cs: seq<Call>, cfg: Config, j: nat)
    requires FreshTokens(cs) && Steady(cs, cfg) && j < |cs|
    ensures var trailing := Trailing(cs, Verdicts(cs, |cs|, cfg), cfg.window, j);
            && TokensOf(cs, trailing, KeptAt(cs, j, cfg))
            && |KeptAt(cs, j, cfg)| == |trailing|
            && (Verdicts(cs, |cs|, cfg)[j] <==> |trailing| < cfg.limit)
  {
    var ok, gone := Verdicts(cs, |cs|, cfg), Lapsed(cs, |cs|, cfg);
    VerdictExact(cs, cfg, j);
    forall i: nat | i < j && cs[i].key == cs[j].key && ok[i]
      ensures i in Counted(cs, ok, gone, cfg.window, j) <==> i in Trailing(cs, ok, cfg.window, j)
    {
      SteadySurvival(cs, cfg, i, j);
    }
    assert Counted(cs, ok, gone, cfg.window, j) == Trailing(cs, ok, cfg.window, j);
  }

  /** Verdict `j` compares the number of accepted calls in the trailing window with the limit. */
  ghost predicate Fits(cs: seq<Call>, ok: seq<bool>, cfg: Config, j: nat)
    requires j < |cs| == |ok|
  {
    ok[j] <==> |Trailing(cs, ok, cfg.window, j)| < cfg.limit
  }

  /** The verdicts that a limiter with a full, untrimmed history would give. */
  ghost predicate Windowed(cs: seq<Call>, ok: seq<bool>, cfg: Config)
  {
    |ok| == |cs| && SortedStamps(cs) && forall j: nat :: j < |cs| ==> Fits(cs, ok, cfg, j)
  }

  /** The script refines the untrimmed limiter. */
  lemma {:induction false} SteadyIsWindowed(cs: seq<Call>, cfg: Config)
    requires FreshTokens(cs) && Steady(cs, cfg)
    ensures Windowed(cs, Verdicts(cs, |cs|, cfg), cfg)
  {
    var ok := Verdicts(cs, |cs|, cfg);
    forall j: nat | j < |cs|
      ensures Fits(cs, ok, cfg, j)
    {
      VerdictIsTrailingCount(cs, cfg, j);
    }
  }

  // ----- the accepted calls of one key, in order -----

  ghost function AcceptedSeq(cs: seq<Call>, ok: seq<bool>, key: string, n: nat): seq<nat>
    requires n <= |cs| == |ok|
  {
    if n == 0 then [] else
    var before := AcceptedSeq(cs, ok, key, n - 1);
    if cs[n - 1].key == key && ok[n - 1] then before + [n - 1] else before
  }

  /** `acc` lists, in order, accepted calls on `key` among the first `n`. */
  ghost predicate Lists(cs: seq<Call>, ok: seq<bool>, key: string, n: nat, acc: seq<nat>)
    requires n <= |cs| == |ok|
  {
    && (forall x :: 0 <= x < |acc| ==> acc[x] < n && cs[acc[x]].key == key && ok[acc[x]])
    && (forall x, y :: 0 <= x < y < |acc| ==> acc[x] < acc[y])
  }

  /** `acc` leaves out none of them. */
  ghost predicate Complete(cs: seq<Call>, ok: seq<bool>, key: string, n: nat, acc: seq<nat>)
    requires n <= |cs| == |ok|
  {
    forall i: nat :: i < n && cs[i].key == key && ok[i] ==> i in acc
  }

  lemma {:induction false} AcceptedSeqLists(cs: seq<Call>, ok: seq<bool>, key: string, n: nat)
    requires n <= |cs| == |ok|
    ensures Lists(cs, ok, key, n, AcceptedSeq(cs, ok, key, n))
  {
    if n > 0 {
      AcceptedSeqLists(cs, ok, key, n - 1);
    }
  }

  lemma {:induction false} AcceptedSeqComplete(cs: seq<Call>, ok: seq<bool>, key: string, n: nat)
    requires n <= |cs| == |ok|
    ensures Complete(cs, ok, key, n, AcceptedSeq(cs, ok, key, n))
  {
    if n > 0 {
      AcceptedSeqComplete(cs, ok, key, n - 1);
    }
  }

  /** The list of accepted calls only grows, at its end. */
  lemma {:induction false} AcceptedSeqPrefix(cs: seq<Call>, ok: seq<bool>, key: string, m: nat, n: nat)
    requires m <= n <= |cs| == |ok|
    ensures AcceptedSeq(cs, ok, key, m) <= AcceptedSeq(cs, ok, key, n)
  {
    if m < n {
      AcceptedSeqPrefix(cs, ok, key, m, n - 1);
    }
  }

  /** The limiter as a queue of the last `limit` accepted stamps: a call is accepted
      exactly when the `limit`-th most recent accepted call is a full window old. */
  ghost predicate QueueAccepts(cs: seq<Call>, cfg: Config, acc: seq<nat>, stamp: int)
    requires forall x :: 0 <= x < |acc| ==> acc[x] < |cs|
    requires cfg.limit >= 1
  {
    |acc| < cfg.limit || cs[acc[|acc| - cfg.limit]].stamp + cfg.window <= stamp
  }

  /** Counting a trailing window refines that queue. */
  lemma {:induction false} VerdictByQueue(cs: seq<Call>, ok: seq<bool>, cfg: Config, j: nat)
    requires Windowed(cs, ok, cfg) && cfg.limit >= 1 && j < |cs|
    ensures var acc := AcceptedSeq(cs, ok, cs[j].key, j);
            && Lists(cs, ok, cs[j].key, j, acc)
            && (ok[j] <==> QueueAccepts(cs, cfg, acc, cs[j].stamp))
  {
    var acc := AcceptedSeq(cs, ok, cs[j].key, j);
    AcceptedSeqLists(cs, ok, cs[j].key, j);
    AcceptedSeqComplete(cs, ok, cs[j].key, j);
    assert Fits(cs, ok, cfg, j);
    var trailing := Trailing(cs, ok, cfg.window, j);
    var cut := |acc| - cfg.limit;
    if cut < 0 {
      TrailingIsSuffix(cs, ok, cfg.window, j, acc, 0);
      TrailingBound(trailing, acc);
    } else if cs[acc[cut]].stamp + cfg.window <= cs[j].stamp {
      TrailingIsSuffix(cs, ok, cfg.window, j, acc, cut + 1);
      TrailingBound(trailing, acc[cut + 1..]);
    } else {
      SuffixIsTrailing(cs, ok, cfg.window, j, acc, cut);
      SubsetSize(Elements(acc[cut..]), trailing);
      ElementsSize(acc[cut..]);
    }
  }

  lemma {:induction false} TrailingBound(trailing: set<nat>, suffix: seq<nat>)
    requires trailing <= Elements(suffix)
    ensures |trailing| <= |suffix|
  {
    SubsetSize(trailing, Elements(suffix));
    ElementsSize(suffix);
  }

  lemma {:induction false} EarlierIsOut(cs: seq<Call>, ok: seq<bool>, window: int, j: nat, acc: seq<nat>, cut: nat,
                                        x: nat)
    requires SortedStamps(cs) && j < |cs| == |ok| && Lists(cs, ok, cs[j].key, j, acc) && x < cut <= |acc|
    requires cs[acc[cut - 1]].stamp + window <= cs[j].stamp
    ensures acc[x] !in Trailing(cs, ok, window, j)
  {
    assert x < cut - 1 ==> acc[x] < acc[cut - 1];
  }

  /** Once an accepted call has left the window, so have all earlier ones. */
  lemma {:induction false} TrailingIsSuffix(cs: seq<Call>, ok: seq<bool>, window: int, j: nat, acc: seq<nat>, cut: nat)
    requires SortedStamps(cs) && j < |cs| == |ok| && cut <= |acc|
    requires Lists(cs, ok, cs[j].key, j, acc) && Complete(cs, ok, cs[j].key, j, acc)
    requires cut > 0 ==> cs[acc[cut - 1]].stamp + window <= cs[j].stamp
    ensures Trailing(cs, ok, window, j) <= Elements(acc[cut..])
  {
    forall i | i in Trailing(cs, ok, window, j)
      ensures i in acc[cut..]
    {
      var x :| 0 <= x < |acc| && acc[x] == i;
      if x < cut {
        EarlierIsOut(cs, ok, window, j, acc, cut, x);
      }
      assert acc[cut..][x - cut] == i;
    }
  }

  /** If an accepted call is in the window, so are all later ones. */
  lemma {:induction false} SuffixIsTrailing(cs: seq<Call>, ok: seq<bool>, window: int, j: nat, acc: seq<nat>, cut: nat)
    requires SortedStamps(cs) && j < |cs| == |ok| && Lists(cs, ok, cs[j].key, j, acc) && cut < |acc|
    requires cs[acc[cut]].stamp + window > cs[j].stamp
    ensures Elements(acc[cut..]) <= Trailing(cs, ok, window, j)
  {
    forall i | i in acc[cut..]
      ensures i in Trailing(cs, ok, window, j)
    {
      var x :| 0 <= x < |acc[cut..]| && acc[cut..][x] == i;
      assert i == acc[cut + x];
      if x > 0 { assert acc[cut] < i; }
    }
  }
}
