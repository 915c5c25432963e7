/** What the limiter promises over whole runs: it is as generous as any limiter
    that respects the window, and as strict; its retry and remaining values are exact. */
module LimiterPromises {
  import opened Collections
  import opened SlidingWindow
  import opened LimiterHistory

  // ----- greedy optimality -----

  /** Member `x` of a choice and the member `limit` places later are at least one window apart. */
  ghost predicate Apart(cs: seq<Call>, cfg: Config, pick: seq<nat>, x: nat)
    requires cfg.limit >= 1 && x + cfg.limit < |pick|
    requires pick[x] < |cs| && pick[x + cfg.limit] < |cs|
  {
    cs[pick[x]].stamp + cfg.window <= cs[pick[x + cfg.limit]].stamp
  }

  /** A choice of calls on one key that respects the window. */
  ghost predicate Admissible(cs: seq<Call>, cfg: Config, key: string, pick: seq<nat>)
    requires cfg.limit >= 1
  {
    && (forall x :: 0 <= x < |pick| ==> pick[x] < |cs| && cs[pick[x]].key == key)
    && (forall x, y :: 0 <= x < y < |pick| ==> pick[x] < pick[y])
    && (forall x: nat :: x + cfg.limit < |pick| ==> Apart(cs, cfg, pick, x))
  }

  lemma {:induction false} AcceptedAdmissible(cs: seq<Call>, ok: seq<bool>, cfg: Config, key: string, n: nat)
    requires Windowed(cs, ok, cfg) && cfg.limit >= 1 && n <= |cs|
    ensures Admissible(cs, cfg, key, AcceptedSeq(cs, ok, key, n))
  {
    AcceptedSeqLists(cs, ok, key, n);
    if n > 0 {
      var before := AcceptedSeq(cs, ok, key, n - 1);
      AcceptedAdmissible(cs, ok, cfg, key, n - 1);
      if cs[n - 1].key == key && ok[n - 1] {
        VerdictByQueue(cs, ok, cfg, n - 1);
        AppendAdmissible(cs, cfg, key, before, n - 1);
      }
    }
  }

  /** A call accepted by the queue may be added to an admissible choice. */
  lemma {:induction false} AppendAdmissible(cs: seq<Call>, cfg: Config, key: string, pick: seq<nat>, n: nat)
    requires cfg.limit >= 1 && Admissible(cs, cfg, key, pick) && n < |cs| && cs[n].key == key
    requires forall x :: 0 <= x < |pick| ==> pick[x] < n
    requires QueueAccepts(cs, cfg, pick, cs[n].stamp)
    ensures Admissible(cs, cfg, key, pick + [n])
  {
    var after := pick + [n];
    forall x: nat | x + cfg.limit < |after| ensures Apart(cs, cfg, after, x) {
      if x + cfg.limit < |pick| {
        assert Apart(cs, cfg, pick, x);
      }
    }
  }

  /** On every prefix of the run, the limiter has accepted at least as many calls
      as any admissible choice has made. */
  lemma {:induction false} StaysAhead(cs: seq<Call>, ok: seq<bool>, cfg: Config, key: string, pick: seq<nat>, m: nat,
                                      n: nat)
    requires Windowed(cs, ok, cfg) && cfg.limit >= 1 && Admissible(cs, cfg, key, pick)
    requires m <= |pick| && n <= |cs| && forall x :: 0 <= x < m ==> pick[x] < n
    ensures m <= |AcceptedSeq(cs, ok, key, n)|
    decreases n
  {
    if m > 0 {
      var last := pick[m - 1];
      AcceptedSeqPrefix(cs, ok, key, n - 1, n);
      if last < n - 1 {
        assert forall x :: 0 <= x < m ==> pick[x] <= last;
        StaysAhead(cs, ok, cfg, key, pick, m, n - 1);
      } else {
        StaysAhead(cs, ok, cfg, key, pick, m - 1, n - 1);
        if m - 1 >= cfg.limit && |AcceptedSeq(cs, ok, key, last)| == m - 1 {
          var q := m - 1 - cfg.limit;
          StaysAhead(cs, ok, cfg, key, pick, q + 1, pick[q] + 1);
          AcceptedSeqPrefix(cs, ok, key, pick[q] + 1, last);
          NotBehind(cs, ok, cfg, key, pick, q, last);
        }
        VerdictByQueue(cs, ok, cfg, last);
      }
    }
  }

  /** If the limiter has accepted `q` + 1 calls by the time of pick `q`, its call `q`
      has left the window by the time of pick `q` + limit. */
  lemma {:induction false} NotBehind(cs: seq<Call>, ok: seq<bool>, cfg: Config, key: string, pick: seq<nat>, q: nat,
                                     n: nat)
    requires SortedStamps(cs) && |ok| == |cs| && cfg.limit >= 1 && Admissible(cs, cfg, key, pick)
    requires q + cfg.limit < |pick| && pick[q] < n <= pick[q + cfg.limit]
    requires q < |AcceptedSeq(cs, ok, key, pick[q] + 1)|
    requires AcceptedSeq(cs, ok, key, pick[q] + 1) <= AcceptedSeq(cs, ok, key, n)
    ensures var first := AcceptedSeq(cs, ok, key, n)[q];
            first < |cs| && cs[first].stamp + cfg.window <= cs[pick[q + cfg.limit]].stamp
  {
    AcceptedSeqLists(cs, ok, key, pick[q] + 1);
    assert Apart(cs, cfg, pick, q);
    assert AcceptedSeq(cs, ok, key, n)[q] == AcceptedSeq(cs, ok, key, pick[q] + 1)[q] <= pick[q];
  }

  /** Greedy optimality: the accepted calls are themselves an admissible choice,
      and on every prefix no admissible choice is larger. */
  lemma {:induction false} GreedyOptimal(cs: seq<Call>, cfg: Config, key: string, pick: seq<nat>, m: nat, n: nat)
    requires FreshTokens(cs) && Steady(cs, cfg) && cfg.limit >= 1 && n <= |cs|
    requires Admissible(cs, cfg, key, pick) && m <= |pick| && forall x :: 0 <= x < m ==> pick[x] < n
    ensures Admissible(cs, cfg, key, AcceptedSeq(cs, Verdicts(cs, |cs|, cfg), key, n))
    ensures m <= |AcceptedSeq(cs, Verdicts(cs, |cs|, cfg), key, n)|
  {
    SteadyIsWindowed(cs, cfg);
    AcceptedAdmissible(cs, Verdicts(cs, |cs|, cfg), cfg, key, n);
    StaysAhead(cs, Verdicts(cs, |cs|, cfg), cfg, key, pick, m, n);
  }

  // ----- throughput -----

  /** Accepted calls on `key` stamped in the half-open interval from `lo` to `hi`. */
  ghost function AcceptedIn(cs: seq<Call>, ok: seq<bool>, key: string, lo: int, hi: int): set<nat>
    requires |ok| == |cs|
  {
    set i: nat | i < |cs| && cs[i].key == key && ok[i] && lo <= cs[i].stamp < hi
  }

  lemma {:induction false} OneWindow(cs: seq<Call>, ok: seq<bool>, cfg: Config, key: string, lo: int)
    requires Windowed(cs, ok, cfg) && cfg.limit >= 0
    ensures |AcceptedIn(cs, ok, key, lo, lo + cfg.window)| <= cfg.limit
  {
    var all := AcceptedIn(cs, ok, key, lo, lo + cfg.window);
    if all != {} {
      var j := LargestExists(all);
      assert Fits(cs, ok, cfg, j);
      SubsetSize(all - {j}, Trailing(cs, ok, cfg.window, j));
    }
  }

  lemma {:induction false} SplitInterval(cs: seq<Call>, ok: seq<bool>, key: string, lo: int, mid: int, hi: int)
    requires |ok| == |cs|
    ensures |AcceptedIn(cs, ok, key, lo, hi)| <= |AcceptedIn(cs, ok, key, lo, mid)| + |AcceptedIn(cs, ok, key, mid, hi)|
  {
    var first, rest := AcceptedIn(cs, ok, key, lo, mid), AcceptedIn(cs, ok, key, mid, hi);
    SubsetSize(AcceptedIn(cs, ok, key, lo, hi), first + rest);
  }

  lemma {:induction false} OneMore(k: nat, x: int)
    requires k > 0
    ensures k * x == x + (k - 1) * x
  {
  }

  lemma {:induction false} ManyWindows(cs: seq<Call>, ok: seq<bool>, cfg: Config, key: string, lo: int, k: nat)
    requires Windowed(cs, ok, cfg) && cfg.limit >= 0 && cfg.window >= 0
    ensures |AcceptedIn(cs, ok, key, lo, lo + k * cfg.window)| <= k * cfg.limit
    decreases k
  {
    if k == 0 {
      assert AcceptedIn(cs, ok, key, lo, lo) == {};
    } else {
      OneWindow(cs, ok, cfg, key, lo);
      ManyWindows(cs, ok, cfg, key, lo + cfg.window, k - 1);
      SplitInterval(cs, ok, key, lo, lo + cfg.window, lo + k * cfg.window);
      OneMore(k, cfg.window);
      OneMore(k, cfg.limit);
    }
  }

  /** Long-run throughput: `k` windows admit at most `k` times the limit. */
  lemma {:induction false} LongRunThroughput(cs: seq<Call>, cfg: Config, key: string, lo: int, k: nat)
    requires FreshTokens(cs) && Steady(cs, cfg) && cfg.limit >= 0 && cfg.window >= 0
    ensures |AcceptedIn(cs, Verdicts(cs, |cs|, cfg), key, lo, lo + k * cfg.window)| <= k * cfg.limit
  {
    SteadyIsWindowed(cs, cfg);
    ManyWindows(cs, Verdicts(cs, |cs|, cfg), cfg, key, lo, k);
  }

  // ----- clock skew -----

  /** Scripts run at nondecreasing real times, and each stamp is within `d` of the
      real time of its script. */
  ghost predicate Skewed(cs: seq<Call>, d: int)
  {
    && (forall i, j :: 0 <= i < j < |cs| ==> cs[i].at <= cs[j].at)
    && (forall i :: 0 <= i < |cs| ==> -d <= cs[i].stamp - cs[i].at <= d)
  }

  /** Accepted calls on `key` whose scripts ran between `lo` and `hi`. */
  ghost function RanIn(cs: seq<Call>, ok: seq<bool>, key: string, lo: int, hi: int): set<nat>
    requires |ok| == |cs|
  {
    set i: nat | i < |cs| && cs[i].key == key && ok[i] && lo <= cs[i].at <= hi
  }

  lemma {:induction false} SkewSurvival(cs: seq<Call>, cfg: Config, d: int, i: nat, j: nat)
    requires Skewed(cs, d) && i < j < |cs| && cs[i].key == cs[j].key && Verdicts(cs, |cs|, cfg)[i]
    requires cs[j].at - cs[i].at < cfg.window - 2 * d
    ensures Survives(cs, Lapsed(cs, |cs|, cfg), cfg.window, i, j + 1)
  {
    var gone := Lapsed(cs, |cs|, cfg);
    forall m: nat | i < m < j + 1 && cs[m].key == cs[i].key
      ensures !gone[m] && cs[m].stamp - cfg.window < cs[i].stamp
    {
      assert cs[m].at <= cs[j].at;
      VerdictAt(cs, |cs|, cfg, m);
      ExpiryAfterAccept(cs, cfg, i, m);
    }
  }

  /** Safety under clock skew, for stamps in any order and with expiry: no real-time
      interval shorter than the window less twice the skew holds more than `limit` accepted calls. */
  lemma {:induction false} SkewSafety(cs: seq<Call>, cfg: Config, key: string, d: int, lo: int, hi: int)
    requires FreshTokens(cs) && Skewed(cs, d) && cfg.limit >= 0
    requires hi - lo < cfg.window - 2 * d
    ensures |RanIn(cs, Verdicts(cs, |cs|, cfg), key, lo, hi)| <= cfg.limit
  {
    var ok, gone := Verdicts(cs, |cs|, cfg), Lapsed(cs, |cs|, cfg);
    var all := RanIn(cs, ok, key, lo, hi);
    if all != {} {
      var j := LargestExists(all);
      VerdictExact(cs, cfg, j);
      forall i | i in all - {j}
        ensures i in Counted(cs, ok, gone, cfg.window, j)
      {
        SkewSurvival(cs, cfg, d, i, j);
      }
      SubsetSize(all - {j}, Counted(cs, ok, gone, cfg.window, j));
    }
  }

  // ----- expiry, other keys and rejected calls do not matter -----

  /** A reply depends on the bucket only through the counted tokens. */
  lemma {:induction false} ReplyByKept(b: Bucket, c: Call, b': Bucket, c': Call, cfg: Config)
    requires Kept(b, c, cfg) == Kept(b', c', cfg) && c.stamp == c'.stamp
    ensures ReplyTo(b, c, cfg) == ReplyTo(b', c', cfg)
  {
  }

  predicate SameRequest(a: Call, b: Call)
  {
    a.key == b.key && a.stamp == b.stamp && a.token == b.token
  }

  /** `part` is `cs` with some calls left out; `keep` says which remain.  Expiry may
      behave differently in the two runs. */
  ghost predicate Thinned(cs: seq<Call>, part: seq<Call>, keep: seq<nat>)
  {
    && |part| == |keep|
    && (forall x :: 0 <= x < |keep| ==> keep[x] < |cs|)
    && (forall x, y :: 0 <= x < y < |keep| ==> keep[x] < keep[y])
    && (forall x :: 0 <= x < |keep| ==> SameRequest(part[x], cs[keep[x]]))
  }

  /** The trailing windows of the two runs hold the same calls. */
  lemma {:induction false} ThinnedTrailing(cs: seq<Call>, ok: seq<bool>, part: seq<Call>, ok': seq<bool>,
                                           keep: seq<nat>, window: int, x: nat)
    requires Thinned(cs, part, keep) && x < |keep| && |ok| == |cs| && |ok'| == |part|
    requires forall i: nat :: i < |cs| && i !in keep ==> !ok[i]
    requires forall y :: 0 <= y < x ==> ok'[y] == ok[keep[y]]
    ensures forall y: nat :: y < x ==>
              (y in Trailing(part, ok', window, x) <==> keep[y] in Trailing(cs, ok, window, keep[x]))
    ensures forall i :: i in Trailing(cs, ok, window, keep[x]) ==>
              exists y :: y in Trailing(part, ok', window, x) && keep[y] == i
  {
    var whole, thin := Trailing(cs, ok, window, keep[x]), Trailing(part, ok', window, x);
    forall i | i in whole
      ensures exists y :: y in thin && keep[y] == i
    {
      var y :| 0 <= y < |keep| && keep[y] == i;
      assert y in thin;
    }
  }

  lemma {:induction false} ThinnedCount(cs: seq<Call>, ok: seq<bool>, part: seq<Call>, ok': seq<bool>,
                                        keep: seq<nat>, window: int, x: nat)
    requires Thinned(cs, part, keep) && x < |keep| && |ok| == |cs| && |ok'| == |part|
    requires forall i: nat :: i < |cs| && i !in keep ==> !ok[i]
    requires forall y :: 0 <= y < x ==> ok'[y] == ok[keep[y]]
    ensures |Trailing(part, ok', window, x)| == |Trailing(cs, ok, window, keep[x])|
  {
    ThinnedTrailing(cs, ok, part, ok', keep, window, x);
    var f := (y: nat) requires y < |keep| => keep[y];
    var thin := Trailing(part, ok', window, x);
    forall y, z | y in thin && z in thin && f(y) == f(z)
      ensures y == z
    {
      assert y < z || z < y || y == z;
    }
    ImageSize<nat, nat>(thin, Trailing(cs, ok, window, keep[x]), f);
  }

  lemma {:induction false} ThinnedVerdict(cs: seq<Call>, ok: seq<bool>, part: seq<Call>, ok': seq<bool>,
                                          keep: seq<nat>, cfg: Config, x: nat)
    requires Thinned(cs, part, keep) && Windowed(cs, ok, cfg) && Windowed(part, ok', cfg)
    requires forall i: nat :: i < |cs| && i !in keep ==> !ok[i]
    requires x <= |keep|
    ensures forall y :: 0 <= y < x ==> ok'[y] == ok[keep[y]]
  {
    if x > 0 {
      ThinnedVerdict(cs, ok, part, ok', keep, cfg, x - 1);
      ThinnedCount(cs, ok, part, ok', keep, cfg.window, x - 1);
      assert Fits(cs, ok, cfg, keep[x - 1]) && Fits(part, ok', cfg, x - 1);
    }
  }

  lemma {:induction false} ThinnedFresh(cs: seq<Call>, part: seq<Call>, keep: seq<nat>)
    requires Thinned(cs, part, keep) && FreshTokens(cs)
    ensures FreshTokens(part)
  {
    forall x, y | 0 <= x < y < |part|
      ensures part[x].token != part[y].token
    {
      assert keep[x] < keep[y];
    }
  }

  /** Deleting any rejected calls from a steady run, and changing how keys expire,
      leaves every remaining reply as it was: verdict, count and retry time. */
  lemma {:induction false} RejectedAreInvisible(cs: seq<Call>, part: seq<Call>, keep: seq<nat>, cfg: Config, x: nat)
    requires FreshTokens(cs) && Steady(cs, cfg) && Steady(part, cfg) && Thinned(cs, part, keep) && x < |keep|
    requires forall i: nat :: i < |cs| && i !in keep ==> !Verdicts(cs, |cs|, cfg)[i]
    ensures ReplyAt(part, x, cfg) == ReplyAt(cs, keep[x], cfg)
  {
    ThinnedKept(cs, part, keep, cfg, x);
    assert SameRequest(part[x], cs[keep[x]]);
    ReplyByKept(Found(part, x, cfg), part[x], Found(cs, keep[x], cfg), cs[keep[x]], cfg);
  }

  lemma {:induction false} ThinnedKept(cs: seq<Call>, part: seq<Call>, keep: seq<nat>, cfg: Config, x: nat)
    requires FreshTokens(cs) && Steady(cs, cfg) && Steady(part, cfg) && Thinned(cs, part, keep) && x < |keep|
    requires forall i: nat :: i < |cs| && i !in keep ==> !Verdicts(cs, |cs|, cfg)[i]
    ensures KeptAt(cs, keep[x], cfg) == KeptAt(part, x, cfg)
  {
    var ok, ok' := Verdicts(cs, |cs|, cfg), Verdicts(part, |part|, cfg);
    var whole, thin := KeptAt(cs, keep[x], cfg), KeptAt(part, x, cfg);
    ThinnedFresh(cs, part, keep);
    assert forall y :: 0 <= y < x ==> ok'[y] == ok[keep[y]] by {
      SteadyIsWindowed(cs, cfg);
      SteadyIsWindowed(part, cfg);
      ThinnedVerdict(cs, ok, part, ok', keep, cfg, x);
    }
    assert forall t :: t in thin ==> t in whole && whole[t] == thin[t] by {
      VerdictIsTrailingCount(cs, cfg, keep[x]);
      VerdictIsTrailingCount(part, cfg, x);
      ThinnedIncluded(cs, ok, part, ok', keep, cfg.window, x, whole, thin);
    }
    assert forall t :: t in whole ==> t in thin by {
      VerdictIsTrailingCount(cs, cfg, keep[x]);
      VerdictIsTrailingCount(part, cfg, x);
      ThinnedCovers(cs, ok, part, ok', keep, cfg.window, x, whole, thin);
    }
    assert whole.Keys == thin.Keys;
  }

  lemma {:induction false} ThinnedIncluded(cs: seq<Call>, ok: seq<bool>, part: seq<Call>, ok': seq<bool>,
                                           keep: seq<nat>, window: int, x: nat,
                                           whole: map<Token, int>, thin: map<Token, int>)
    requires Thinned(cs, part, keep) && x < |keep| && |ok| == |cs| && |ok'| == |part|
    requires forall y :: 0 <= y < x ==> ok'[y] == ok[keep[y]]
    requires InTokens(cs, Trailing(cs, ok, window, keep[x]), whole)
    requires InTokens(part, Trailing(part, ok', window, x), thin)
    requires FromCalls(part, Trailing(part, ok', window, x), thin)
    ensures forall t :: t in thin ==> t in whole && whole[t] == thin[t]
  {
    forall t | t in thin
      ensures t in whole && whole[t] == thin[t]
    {
      var y :| y in Trailing(part, ok', window, x) && part[y].token == t;
      assert SameRequest(part[y], cs[keep[y]]) && SameRequest(part[x], cs[keep[x]]);
      assert keep[y] in Trailing(cs, ok, window, keep[x]);
    }
  }

  lemma {:induction false} ThinnedCovers(cs: seq<Call>, ok: seq<bool>, part: seq<Call>, ok': seq<bool>, keep: seq<nat>,
                                         window: int, x: nat, whole: map<Token, int>, thin: map<Token, int>)
    requires Thinned(cs, part, keep) && x < |keep| && |ok| == |cs| && |ok'| == |part|
    requires forall i: nat :: i < |cs| && i !in keep ==> !ok[i]
    requires forall y :: 0 <= y < x ==> ok'[y] == ok[keep[y]]
    requires FromCalls(cs, Trailing(cs, ok, window, keep[x]), whole)
    requires InTokens(part, Trailing(part, ok', window, x), thin)
    ensures forall t :: t in whole ==> t in thin
  {
    forall t | t in whole
      ensures t in thin
    {
      var i :| i in Trailing(cs, ok, window, keep[x]) && cs[i].token == t;
      var y :| 0 <= y < |keep| && keep[y] == i;
      assert SameRequest(part[y], cs[i]) && SameRequest(part[x], cs[keep[x]]);
      assert y in Trailing(part, ok', window, x);
    }
  }

  /** The run in which no key ever expires. */
  function WithoutExpiry(cs: seq<Call>): seq<Call>
  {
    seq(|cs|, i requires 0 <= i < |cs| => cs[i].(lapse := false))
  }

  lemma {:induction false} LateExpiryIsInvisible(cs: seq<Call>, cfg: Config, i: nat)
    requires FreshTokens(cs) && Steady(cs, cfg) && i < |cs|
    ensures ReplyAt(cs, i, cfg) == ReplyAt(WithoutExpiry(cs), i, cfg)
  {
    var all := seq(|cs|, x requires 0 <= x < |cs| => x);
    forall x: nat | x < |cs| ensures x in all {
      assert all[x] == x;
    }
    SteadyIfClocksAgree(WithoutExpiry(cs), cfg);
    assert Thinned(cs, WithoutExpiry(cs), all);
    RejectedAreInvisible(cs, WithoutExpiry(cs), all, cfg, i);
  }

  /** A call that finds its key dropped although a token was still in the window answers
      differently from the run without expiry. */
  lemma {:induction false} EarlyLapseShows(cs: seq<Call>, cfg: Config, i: nat, m: nat)
    requires FreshTokens(cs) && SortedStamps(cs) && i < m < |cs| && !LapseIsLate(cs, cfg, i, m)
    requires ReplyAt(cs, i, cfg) == ReplyAt(WithoutExpiry(cs), i, cfg)
    ensures ReplyAt(cs, m, cfg) != ReplyAt(WithoutExpiry(cs), m, cfg)
  {
    var all := WithoutExpiry(cs);
    VerdictAt(cs, |cs|, cfg, m);
    ReplyCounts(cs, cfg, i);
    ReplyCounts(cs, cfg, m);
    ReplyCounts(all, cfg, i);
    ReplyCounts(all, cfg, m);
    assert |KeptAt(cs, m, cfg)| == 0 by { LapseForgets(Found(cs, m, cfg), cs[m], cfg); }
    assert |KeptAt(all, m, cfg)| > 0 by { StillCounted(cs, cfg, i, m); }
  }

  lemma {:induction false} LapseForgets(b: Bucket, c: Call, cfg: Config)
    requires Lapses(b, c)
    ensures |Kept(b, c, cfg)| == 0
  {
    assert Kept(b, c, cfg) == map[];
  }

  /** The reply gives away the verdict and the number of counted tokens. */
  lemma {:induction false} ReplyCounts(cs: seq<Call>, cfg: Config, i: nat)
    requires i < |cs|
    ensures var reply := ReplyAt(cs, i, cfg);
            && reply.allowed == Verdicts(cs, |cs|, cfg)[i]
            && reply.allowed == (|KeptAt(cs, i, cfg)| < cfg.limit)
            && reply.count == |KeptAt(cs, i, cfg)| + if reply.allowed then 1 else 0
  {
    VerdictAt(cs, |cs|, cfg, i);
  }

  /** Without expiry an accepted call is counted as long as it is in the window. */
  lemma {:induction false} StillCounted(cs: seq<Call>, cfg: Config, i: nat, m: nat)
    requires FreshTokens(cs) && SortedStamps(cs) && i < m < |cs| && cs[i].key == cs[m].key
    requires Verdicts(WithoutExpiry(cs), |cs|, cfg)[i] && cs[i].stamp > cs[m].stamp - cfg.window
    ensures |KeptAt(WithoutExpiry(cs), m, cfg)| > 0
  {
    var all := WithoutExpiry(cs);
    WithoutExpiryFresh(cs, all);
    SteadyIfClocksAgree(all, cfg);
    VerdictIsTrailingCount(all, cfg, m);
    assert i in Trailing(all, Verdicts(all, |all|, cfg), cfg.window, m);
  }

  lemma {:induction false} WithoutExpiryFresh(cs: seq<Call>, all: seq<Call>)
    requires FreshTokens(cs) && all == WithoutExpiry(cs)
    ensures FreshTokens(all)
  {
  }

  /** The TTL is invisible, in that every reply equals that of the run without PEXPIRE, if
      and only if no key is dropped while, by the stamps, a token is still in the window. */
  lemma {:induction false} TtlIsInvisible(cs: seq<Call>, cfg: Config)
    requires FreshTokens(cs) && SortedStamps(cs)
    ensures ExpiryIsLate(cs, cfg) <==>
            forall i: nat :: i < |cs| ==> ReplyAt(cs, i, cfg) == ReplyAt(WithoutExpiry(cs), i, cfg)
  {
    if ExpiryIsLate(cs, cfg) {
      forall i: nat | i < |cs| ensures ReplyAt(cs, i, cfg) == ReplyAt(WithoutExpiry(cs), i, cfg) {
        LateExpiryIsInvisible(cs, cfg, i);
      }
    } else {
      var i: nat, m: nat :| i < m < |cs| && !LapseIsLate(cs, cfg, i, m);
      if ReplyAt(cs, i, cfg) == ReplyAt(WithoutExpiry(cs), i, cfg) {
        EarlyLapseShows(cs, cfg, i, m);
      }
    }
  }

  /** The calls on one key among the first `n`. */
  function Only(cs: seq<Call>, key: string, n: nat): (r: seq<Call>)
    requires n <= |cs|
    ensures |r| <= n
  {
    if n == 0 then [] else
    var before := Only(cs, key, n - 1);
    if cs[n - 1].key == key then before + [cs[n - 1]] else before
  }

  lemma {:induction false} StorePrefix(xs: seq<Call>, ys: seq<Call>, n: nat, cfg: Config)
    requires xs <= ys && n <= |xs|
    ensures Stores(xs, cfg)[n] == Stores(ys, cfg)[n]
    decreases |ys|
  {
    if |xs| == |ys| {
      assert xs == ys;
    } else {
      var front := ys[..|ys| - 1];
      assert xs <= front;
      StorePrefix(xs, front, n, cfg);
    }
  }

  lemma {:induction false} OnlyPrefix(cs: seq<Call>, key: string, m: nat, n: nat)
    requires m <= n <= |cs|
    ensures Only(cs, key, m) <= Only(cs, key, n)
  {
    if m < n {
      OnlyPrefix(cs, key, m, n - 1);
    }
  }

  lemma {:induction false} OnlyBucket(cs: seq<Call>, key: string, n: nat, cfg: Config, own: seq<Call>)
    requires n <= |cs| && own == Only(cs, key, n)
    ensures BucketAt(own, key, |own|, cfg) == BucketAt(cs, key, n, cfg)
  {
    if n == 0 {
      BucketStart(cs, key, cfg);
      BucketStart(own, key, cfg);
    } else {
      var before := Only(cs, key, n - 1);
      OnlyBucket(cs, key, n - 1, cfg, before);
      BucketStep(cs, key, n - 1, cfg);
      if cs[n - 1].key == key {
        LastBucket(before, cs[n - 1], cfg);
      }
    }
  }

  /** Adding a call to a run adds one script run to its own bucket. */
  lemma {:induction false} LastBucket(before: seq<Call>, c: Call, cfg: Config)
    ensures BucketAt(before + [c], c.key, |before| + 1, cfg) == Script(BucketAt(before, c.key, |before|, cfg), c, cfg)
  {
    StorePrefix(before, before + [c], |before|, cfg);
    BucketStep(before + [c], c.key, |before|, cfg);
  }

  /** Non-interference: whatever other keys do, and for stamps in any order, each reply
      is that of the run restricted to the call's own key. */
  lemma {:induction false} KeysAreIndependent(cs: seq<Call>, cfg: Config, i: nat)
    requires i < |cs|
    ensures var own, pos := Only(cs, cs[i].key, |cs|), |Only(cs, cs[i].key, i)|;
            pos < |own| && own[pos] == cs[i] && ReplyAt(own, pos, cfg) == ReplyAt(cs, i, cfg)
  {
    var key := cs[i].key;
    var own, before := Only(cs, key, |cs|), Only(cs, key, i);
    OnlyPrefix(cs, key, i + 1, |cs|);
    assert Only(cs, key, i + 1) == before + [cs[i]];
    OnlyBucket(cs, key, i, cfg, before);
    StorePrefix(before, own, |before|, cfg);
  }

  // ----- retry time -----

  /** With steady clocks a reject finds exactly the last `limit` accepted calls in the window. */
  lemma {:induction false} RejectedWindow(cs: seq<Call>, ok: seq<bool>, cfg: Config, j: nat)
    requires Windowed(cs, ok, cfg) && cfg.limit >= 1 && j < |cs| && !ok[j]
    ensures var acc := AcceptedSeq(cs, ok, cs[j].key, j);
            var cut := |acc| - cfg.limit;
            && Lists(cs, ok, cs[j].key, j, acc) && cut >= 0
            && cs[acc[cut]].stamp + cfg.window > cs[j].stamp
            && Trailing(cs, ok, cfg.window, j) == Elements(acc[cut..])
            && |Trailing(cs, ok, cfg.window, j)| == cfg.limit
  {
    var acc := AcceptedSeq(cs, ok, cs[j].key, j);
    VerdictByQueue(cs, ok, cfg, j);
    var cut := |acc| - cfg.limit;
    var trailing := Trailing(cs, ok, cfg.window, j);
    assert Elements(acc[cut..]) <= trailing by {
      SuffixIsTrailing(cs, ok, cfg.window, j, acc, cut);
    }
    assert cut > 0 ==> cs[acc[cut - 1]].stamp + cfg.window <= cs[j].stamp by {
      if cut > 0 {
        AcceptedAdmissible(cs, ok, cfg, cs[j].key, j);
        assert Apart(cs, cfg, acc, cut - 1);
      }
    }
    assert trailing <= Elements(acc[cut..]) by {
      AcceptedSeqComplete(cs, ok, cs[j].key, j);
      TrailingIsSuffix(cs, ok, cfg.window, j, acc, cut);
    }
    ElementsSize(acc[cut..]);
  }

  /** The retry value is the time until the oldest call in the window leaves it. */
  lemma {:induction false} RetryValue(cs: seq<Call>, cfg: Config, j: nat)
    requires FreshTokens(cs) && Steady(cs, cfg) && cfg.limit >= 1 && j < |cs| && !Verdicts(cs, |cs|, cfg)[j]
    ensures var acc := AcceptedSeq(cs, Verdicts(cs, |cs|, cfg), cs[j].key, j);
            var reply := ReplyAt(cs, j, cfg);
            && |acc| >= cfg.limit && acc[|acc| - cfg.limit] < j
            && !reply.allowed && reply.count == cfg.limit && KeptAt(cs, j, cfg) != map[]
            && reply.retry == cs[acc[|acc| - cfg.limit]].stamp + cfg.window - cs[j].stamp
            && 1 <= reply.retry <= cfg.window
  {
    var ok, kept := Verdicts(cs, |cs|, cfg), KeptAt(cs, j, cfg);
    SteadyIsWindowed(cs, cfg);
    VerdictIsTrailingCount(cs, cfg, j);
    var t := OldestOfReject(cs, ok, cfg, j, kept);
    RejectReply(cs, cfg, j, t);
  }

  /** The oldest token that a rejecting call counts is that of the `limit`-th most recent accepted call. */
  lemma {:induction false} OldestOfReject(cs: seq<Call>, ok: seq<bool>, cfg: Config, j: nat, kept: map<Token,
                                          int>) returns (t: Token)
    requires Windowed(cs, ok, cfg) && cfg.limit >= 1 && j < |cs| && !ok[j]
    requires TokensOf(cs, Trailing(cs, ok, cfg.window, j), kept)
    ensures var acc := AcceptedSeq(cs, ok, cs[j].key, j);
            && |acc| >= cfg.limit && acc[|acc| - cfg.limit] < j
            && IsOldest(kept, t) && kept[t] == cs[acc[|acc| - cfg.limit]].stamp
            && cs[j].stamp - cfg.window < kept[t] <= cs[j].stamp
    ensures |Trailing(cs, ok, cfg.window, j)| == cfg.limit
  {
    var acc := AcceptedSeq(cs, ok, cs[j].key, j);
    RejectedWindow(cs, ok, cfg, j);
    OldestOfSuffix(cs, acc, |acc| - cfg.limit, kept);
    t := cs[acc[|acc| - cfg.limit]].token;
  }

  /** What a reject answers when the oldest counted token is `t`. */
  lemma {:induction false} RejectReply(cs: seq<Call>, cfg: Config, j: nat, t: Token)
    requires j < |cs| && !Verdicts(cs, |cs|, cfg)[j] && IsOldest(KeptAt(cs, j, cfg), t)
    ensures var kept := KeptAt(cs, j, cfg);
            var wait := kept[t] + cfg.window - cs[j].stamp;
            ReplyAt(cs, j, cfg) == Reply(false, |kept|, if wait < 0 then 0 else wait)
  {
    VerdictAt(cs, |cs|, cfg, j);
    RetryOfLeast(KeptAt(cs, j, cfg), t, cs[j].stamp, cfg.window);
  }

  /** Among calls in order of their stamps, the first has the least score. */
  lemma {:induction false} OldestOfSuffix(cs: seq<Call>, acc: seq<nat>, cut: nat, kept: map<Token, int>)
    requires SortedStamps(cs) && cut < |acc|
    requires forall x :: 0 <= x < |acc| ==> acc[x] < |cs|
    requires forall x, y :: 0 <= x < y < |acc| ==> acc[x] < acc[y]
    requires TokensOf(cs, Elements(acc[cut..]), kept)
    ensures IsOldest(kept, cs[acc[cut]].token) && kept[cs[acc[cut]].token] == cs[acc[cut]].stamp
  {
    assert acc[cut..][0] == acc[cut];
    forall t | t in kept
      ensures kept[t] >= cs[acc[cut]].stamp
    {
      var i :| i in Elements(acc[cut..]) && cs[i].token == t;
      var x :| 0 <= x < |acc[cut..]| && acc[cut..][x] == i;
      assert i == acc[cut + x];
    }
  }

  lemma {:induction false} RetryOfLeast(kept: map<Token, int>, t: Token, stamp: int, window: int)
    requires IsOldest(kept, t)
    ensures RetryOf(kept, stamp, window) == if kept[t] + window - stamp < 0 then 0 else kept[t] + window - stamp
  {
    assert kept != map[];
    assert forall u :: IsOldest(kept, u) ==> kept[u] == kept[t];
  }

  /** `free` is the moment at which the oldest of the last `limit` accepted calls leaves the window. */
  ghost predicate FreeAt(cs: seq<Call>, cfg: Config, acc: seq<nat>, free: int)
    requires cfg.limit >= 1
  {
    |acc| >= cfg.limit && acc[|acc| - cfg.limit] < |cs| && free == cs[acc[|acc| - cfg.limit]].stamp + cfg.window
  }

  /** While no call reaches that moment, the accepted calls stay the same. */
  lemma {:induction false} RejectedUntilFree(cs: seq<Call>, ok: seq<bool>, cfg: Config, j: nat, i: nat, free: int)
    requires Windowed(cs, ok, cfg) && cfg.limit >= 1 && j < i <= |cs| && !ok[j]
    requires FreeAt(cs, cfg, AcceptedSeq(cs, ok, cs[j].key, j), free)
    requires forall m :: j < m < i && cs[m].key == cs[j].key ==> cs[m].stamp < free
    ensures AcceptedSeq(cs, ok, cs[j].key, i) == AcceptedSeq(cs, ok, cs[j].key, j)
  {
    if i > j + 1 {
      RejectedUntilFree(cs, ok, cfg, j, i - 1, free);
      if cs[i - 1].key == cs[j].key {
        VerdictByQueue(cs, ok, cfg, i - 1);
      }
    }
  }

  /** The retry time is exact: after a reject at call `j`, every later call on the key
      stamped before it is rejected, however many there are, and the first call stamped
      at or after it is accepted.  The value lies between 1 and the window, so the
      script's two fallbacks are never taken. */
  lemma {:induction false} RetryIsExact(cs: seq<Call>, cfg: Config, j: nat, i: nat)
    requires FreshTokens(cs) && Steady(cs, cfg) && cfg.limit >= 1
    requires j < i < |cs| && cs[i].key == cs[j].key && !Verdicts(cs, |cs|, cfg)[j]
    ensures 1 <= ReplyAt(cs, j, cfg).retry <= cfg.window
    ensures cs[i].stamp < cs[j].stamp + ReplyAt(cs, j, cfg).retry ==> !Verdicts(cs, |cs|, cfg)[i]
    ensures cs[i].stamp >= cs[j].stamp + ReplyAt(cs, j, cfg).retry &&
            (forall m :: j < m < i && cs[m].key == cs[j].key ==> cs[m].stamp < cs[j].stamp + ReplyAt(cs, j, cfg).retry)
            ==> Verdicts(cs, |cs|, cfg)[i]
  {
    SteadyIsWindowed(cs, cfg);
    RetryValue(cs, cfg, j);
    FreeAgain(cs, Verdicts(cs, |cs|, cfg), cfg, j, i, cs[j].stamp + ReplyAt(cs, j, cfg).retry);
  }

  /** The same for the moment `free`. */
  lemma {:induction false} FreeAgain(cs: seq<Call>, ok: seq<bool>, cfg: Config, j: nat, i: nat, free: int)
    requires Windowed(cs, ok, cfg) && cfg.limit >= 1 && j < i < |cs| && cs[i].key == cs[j].key && !ok[j]
    requires FreeAt(cs, cfg, AcceptedSeq(cs, ok, cs[j].key, j), free)
    ensures cs[i].stamp < free ==> !ok[i]
    ensures cs[i].stamp >= free && (forall m :: j < m < i && cs[m].key == cs[j].key ==> cs[m].stamp < free) ==> ok[i]
  {
    VerdictByQueue(cs, ok, cfg, i);
    if forall m :: j < m < i && cs[m].key == cs[j].key ==> cs[m].stamp < free {
      RejectedUntilFree(cs, ok, cfg, j, i, free);
    }
  }

  /** With a limit below one nothing is ever accepted, and the waiting time given is a
      full window: the only way to reach the script's first fallback. */
  lemma {:induction false} NothingPasses(cs: seq<Call>, cfg: Config, i: nat)
    requires cfg.limit <= 0 && i < |cs|
    ensures ReplyAt(cs, i, cfg) == Reply(false, 0, cfg.window)
  {
    NothingStored(cs, cs[i].key, i, cfg);
    assert KeptAt(cs, i, cfg) == map[];
  }

  lemma {:induction false} NothingStored(cs: seq<Call>, key: string, n: nat, cfg: Config)
    requires cfg.limit <= 0 && n <= |cs|
    ensures BucketAt(cs, key, n, cfg).tokens == map[]
  {
    if n == 0 {
      BucketStart(cs, key, cfg);
    } else {
      NothingStored(cs, key, n - 1, cfg);
      BucketStep(cs, key, n - 1, cfg);
    }
  }

  // ----- remaining -----

  /** The number of calls on `key` from index `lo` up to `hi`. */
  function CallsOn(cs: seq<Call>, key: string, lo: nat, hi: nat): (n: nat)
    requires lo <= hi <= |cs|
  {
    if lo == hi then 0 else CallsOn(cs, key, lo, hi - 1) + if cs[hi - 1].key == key then 1 else 0
  }

  /** The sorted set never outgrows the limit. */
  lemma {:induction false} NeverOverLimit(cs: seq<Call>, key: string, n: nat, cfg: Config)
    requires n <= |cs| && cfg.limit >= 0
    ensures |BucketAt(cs, key, n, cfg).tokens| <= cfg.limit
  {
    if n == 0 {
      BucketStart(cs, key, cfg);
    } else {
      NeverOverLimit(cs, key, n - 1, cfg);
      BucketStep(cs, key, n - 1, cfg);
      ScriptSize(BucketAt(cs, key, n - 1, cfg), cs[n - 1], cfg);
    }
  }

  lemma {:induction false} ScriptSize(b: Bucket, c: Call, cfg: Config)
    ensures |Script(b, c, cfg).tokens| <= |b.tokens| || |Script(b, c, cfg).tokens| <= cfg.limit
    ensures Accepts(b, c, cfg) && c.token !in b.tokens ==> |Script(b, c, cfg).tokens| == |Kept(b, c, cfg)| + 1
  {
    var kept := Kept(b, c, cfg);
    assert kept.Keys <= b.tokens.Keys;
    SubsetSize(kept.Keys, b.tokens.Keys);
    assert kept[c.token := c.stamp].Keys == kept.Keys + {c.token};
  }

  /** Calls after `j` on its key, up to `i`, all come at the stamp of `j`, with fresh
      tokens and before the key can expire. */
  ghost predicate SameInstant(cs: seq<Call>, cfg: Config, j: nat, i: nat)
    requires j < i <= |cs|
  {
    forall m :: j < m < i && cs[m].key == cs[j].key ==> cs[m].stamp == cs[j].stamp && cs[m].at < cs[j].at + cfg.window
  }

  /** A burst at one instant fills the set one call at a time, up to the limit. */
  lemma {:induction false} BurstFills(cs: seq<Call>, cfg: Config, j: nat, i: nat, first: nat)
    requires FreshTokens(cs) && cfg.limit >= 1 && cfg.window >= 1 && j < i <= |cs|
    requires SortedTimes(cs)
    requires Verdicts(cs, |cs|, cfg)[j] && SameInstant(cs, cfg, j, i)
    requires Filled(BucketAt(cs, cs[j].key, j + 1, cfg), cs[j].stamp, cfg, first)
    ensures Filled(BucketAt(cs, cs[j].key, i, cfg), cs[j].stamp, cfg, first + CallsOn(cs, cs[j].key, j + 1, i))
  {
    if i > j + 1 {
      var key, n := cs[j].key, i - 1;
      BurstFills(cs, cfg, j, n, first);
      BucketStep(cs, key, n, cfg);
      BurstUndisturbed(cs, cfg, j, n);
      BurstNext(BucketAt(cs, key, n, cfg), cs[n], key, cs[j].stamp, cfg, first + CallsOn(cs, key, j + 1, n));
    }
  }

  lemma {:induction false} BurstUndisturbed(cs: seq<Call>, cfg: Config, j: nat, n: nat)
    requires FreshTokens(cs) && j < n < |cs| && Verdicts(cs, |cs|, cfg)[j]
    requires SortedTimes(cs)
    ensures var b := BucketAt(cs, cs[j].key, n, cfg);
            && (cs[n].at < cs[j].at + cfg.window ==> !Lapses(b, cs[n]))
            && cs[n].token !in b.tokens
  {
    ExpiryAfterAccept(cs, cfg, j, n);
    TokenIsNew(cs, cfg, cs[j].key, n);
  }

  lemma {:induction false} BurstNext(b: Bucket, c: Call, key: string, stamp: int, cfg: Config, n: nat)
    requires Filled(b, stamp, cfg, n) && cfg.window >= 1
    requires c.key == key ==> c.stamp == stamp && !Lapses(b, c) && c.token !in b.tokens
    ensures Filled(if c.key == key then Script(b, c, cfg) else b, stamp, cfg, if c.key == key then n + 1 else n)
  {
    if c.key == key {
      BurstStep(b, c, cfg, n);
    }
  }

  lemma {:induction false} BurstStarts(cs: seq<Call>, cfg: Config, j: nat)
    requires FreshTokens(cs) && cfg.window >= 1 && j < |cs| && Verdicts(cs, |cs|, cfg)[j]
    ensures Filled(BucketAt(cs, cs[j].key, j + 1, cfg), cs[j].stamp, cfg, |KeptAt(cs, j, cfg)| + 1)
  {
    var b := Found(cs, j, cfg);
    BucketStep(cs, cs[j].key, j, cfg);
    assert cs[j].token !in b.tokens by { TokenIsNew(cs, cfg, cs[j].key, j); }
    VerdictAt(cs, |cs|, cfg, j);
    ScriptSize(b, cs[j], cfg);
    AcceptFills(b, cs[j], cfg);
  }

  lemma {:induction false} AcceptFills(b: Bucket, c: Call, cfg: Config)
    requires Accepts(b, c, cfg) && cfg.window >= 1
    requires |Script(b, c, cfg).tokens| == |Kept(b, c, cfg)| + 1
    ensures Filled(Script(b, c, cfg), c.stamp, cfg, |Kept(b, c, cfg)| + 1)
  {
    forall t | t in Script(b, c, cfg).tokens
      ensures Script(b, c, cfg).tokens[t] > c.stamp - cfg.window
    {
      ScriptTokens(b, c, cfg, t);
    }
  }

  /** All scores are inside the window of `stamp`, and there are `n` of them or the limit. */
  ghost predicate Filled(b: Bucket, stamp: int, cfg: Config, n: nat)
  {
    && (forall t :: t in b.tokens ==> b.tokens[t] > stamp - cfg.window)
    && |b.tokens| == if n <= cfg.limit then n else cfg.limit
  }

  /** A call that evicts nothing adds its token if there is room and changes nothing otherwise. */
  lemma {:induction false} BurstStep(b: Bucket, c: Call, cfg: Config, n: nat)
    requires Filled(b, c.stamp, cfg, n) && cfg.window >= 1 && !Lapses(b, c) && c.token !in b.tokens
    ensures Kept(b, c, cfg) == b.tokens
    ensures Filled(Script(b, c, cfg), c.stamp, cfg, n + 1)
  {
    assert b.tokens[c.token := c.stamp].Keys == b.tokens.Keys + {c.token};
  }

  lemma {:induction false} TokenIsNew(cs: seq<Call>, cfg: Config, key: string, j: nat)
    requires FreshTokens(cs) && j < |cs|
    ensures cs[j].token !in BucketAt(cs, key, j, cfg).tokens
  {
    TokensExact(cs, cfg, key, j);
  }

  /** Remaining is a true forecast, whatever stamps came before: after an accept that
      reports `r` remaining, exactly the next `r` calls on the key at the same stamp are accepted. */
  lemma {:induction false} RemainingIsExact(cs: seq<Call>, cfg: Config, j: nat, i: nat)
    requires FreshTokens(cs) && cfg.limit >= 1 && cfg.window >= 1
    requires SortedTimes(cs)
    requires j < i < |cs| && cs[i].key == cs[j].key && Verdicts(cs, |cs|, cfg)[j] && SameInstant(cs, cfg, j, i + 1)
    ensures ReplyAt(cs, j, cfg).count <= cfg.limit
    ensures Verdicts(cs, |cs|, cfg)[i] <==>
            CallsOn(cs, cs[j].key, j + 1, i) < cfg.limit - ReplyAt(cs, j, cfg).count
  {
    VerdictAt(cs, |cs|, cfg, j);
    VerdictAt(cs, |cs|, cfg, i);
    BurstStarts(cs, cfg, j);
    BurstFills(cs, cfg, j, i, |KeptAt(cs, j, cfg)| + 1);
    ExpiryAfterAccept(cs, cfg, j, i);
    assert KeptAt(cs, i, cfg) == Found(cs, i, cfg).tokens;
  }
}
