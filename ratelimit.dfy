/**
 * The per-chat limit on AI calls: at most five calls in any sixty seconds.
 * Timestamps are readings of a monotonic clock in seconds, passed in as `now`.
 */
module RateLimit {

  const AiRateLimit: nat := 5
  const AiRateWindow: real := 60.0

  /** The timestamps still inside the window that ends at `now`, in their original order. */
  function Recent(stamps: seq<real>, now: real): (r: seq<real>)
    ensures |r| <= |stamps|
    ensures forall t :: multiset(r)[t] == if now - t < AiRateWindow then multiset(stamps)[t] else 0
    ensures forall t :: t in r <==> t in stamps && now - t < AiRateWindow
  {
    if stamps == [] then []
    else
      assert stamps == [stamps[0]] + stamps[1..];
      (if now - stamps[0] < AiRateWindow then [stamps[0]] else []) + Recent(stamps[1..], now)
  }

  /** Filtering at a later time after filtering at an earlier one is filtering at the later one. */
  lemma {:induction false} RecentTwice(stamps: seq<real>, earlier: real, later: real)
    requires earlier <= later
    ensures Recent(Recent(stamps, earlier), later) == Recent(stamps, later)
  {
    if stamps != [] {
      var head := if earlier - stamps[0] < AiRateWindow then [stamps[0]] else [];
      RecentTwice(stamps[1..], earlier, later);
      RecentAppend(head, Recent(stamps[1..], earlier), later);
      if head != [] {
        assert Recent(head, later) == (if later - stamps[0] < AiRateWindow then [stamps[0]] else []) + Recent([], later);
      }
    }
  }

  /**
   * The filter keeps order: it works piece by piece. With `RecentSingle`,
   * which keeps a single timestamp exactly when it is inside the window,
   * this fixes the result for every input.
   */
  lemma {:induction false} RecentAppend(a: seq<real>, b: seq<real>, now: real)
    ensures Recent(a + b, now) == Recent(a, now) + Recent(b, now)
  {
    if a == [] {
      assert a + b == b;
    } else {
      assert (a + b)[1..] == a[1..] + b;
      RecentAppend(a[1..], b, now);
    }
  }

  lemma RecentSingle(t: real, now: real)
    ensures Recent([t], now) == if now - t < AiRateWindow then [t] else []
  {
    assert [t][1..] == [];
  }

  /** The call made at `now` is always inside its own window. */
  lemma RecentWithNow(stamps: seq<real>, now: real)
    ensures Recent(stamps + [now], now) == Recent(stamps, now) + [now]
  {
    RecentAppend(stamps, [now], now);
    assert Recent([now], now) == [now] + Recent([], now);
  }

  /** Every call in `calls` had fewer than five calls of `history` or of `calls` in the window before it. */
  predicate RespectsLimit(history: seq<real>, calls: seq<real>)
  {
    forall k :: 0 <= k < |calls| ==> |Recent(history + calls[..k], calls[k])| < AiRateLimit
  }

  /** A call with fewer than five calls in the window before it may join calls that respect the limit. */
  lemma RespectsLimitExtend(calls: seq<real>, now: real)
    requires RespectsLimit([], calls)
    requires |Recent(calls, now)| < AiRateLimit
    ensures RespectsLimit([], calls + [now])
  {
    var g := calls + [now];
    forall k | 0 <= k < |g|
      ensures |Recent([] + g[..k], g[k])| < AiRateLimit
    {
      if k < |calls| {
        assert [] + g[..k] == [] + calls[..k];
        assert g[k] == calls[k];
      } else {
        assert [] + g[..k] == calls;
      }
    }
  }

  /**
   * Calls that respect the limit never put more than five calls, the call
   * itself included, into the sixty seconds that end at any of them.
   */
  lemma AtMostFivePerWindow(calls: seq<real>)
    requires RespectsLimit([], calls)
    ensures forall k :: 0 <= k < |calls| ==> |Recent(calls[..k + 1], calls[k])| <= AiRateLimit
  {
    forall k | 0 <= k < |calls|
      ensures |Recent(calls[..k + 1], calls[k])| <= AiRateLimit
    {
      assert [] + calls[..k] == calls[..k];
      assert calls[..k + 1] == calls[..k] + [calls[k]];
      RecentWithNow(calls[..k], calls[k]);
    }
  }

  /** What one chat's stored timestamps `kept` say about its allowed calls `granted` at its latest request `last`. */
  ghost predicate Tracks(kept: seq<real>, granted: seq<real>, last: real)
  {
    |kept| <= AiRateLimit && kept == Recent(granted, last) && RespectsLimit([], granted)
  }

  /**
   * One check on one chat's values: filtering the stored timestamps equals
   * filtering all allowed calls, and the result (with `now` when allowed)
   * tracks the allowed calls at `now`.
   */
  lemma CheckStep(stored: seq<real>, granted: seq<real>, last: real, now: real)
    requires Tracks(stored, granted, last) && last <= now
    ensures Recent(stored, now) == Recent(granted, now)
    ensures Tracks(Recent(granted, now), granted, now)
    ensures |Recent(granted, now)| < AiRateLimit ==> Tracks(Recent(granted, now) + [now], granted + [now], now)
  {
    RecentTwice(granted, last, now);
    if |Recent(granted, now)| < AiRateLimit {
      RecentWithNow(granted, now);
      RespectsLimitExtend(granted, now);
    }
  }

  /** The timestamps of one chat's calls, for every chat that has made one. */
  class AiRateLimiter {
    var calls: map<int, seq<real>>
    /** Every call the limiter has allowed, per chat, in order. */
    ghost var granted: map<int, seq<real>>
    /** The time of each chat's latest request. */
    ghost var lastAsk: map<int, real>

    /**
     * No chat holds more timestamps than the limit; a chat's timestamps are
     * its allowed calls inside the window of its latest request; and the
     * allowed calls respect the limit.
     */
    ghost predicate Valid()
      reads this
    {
      calls.Keys == granted.Keys && calls.Keys == lastAsk.Keys &&
      forall c :: c in calls ==> Tracks(calls[c], granted[c], lastAsk[c])
    }

    constructor ()
      ensures Valid()
      ensures calls == map[] && granted == map[]
    {
      calls := map[];
      granted := map[];
      lastAsk := map[];
    }

    /** A chat that has not called yet has no timestamps. */
    function CallsOf(chatId: int): seq<real>
      reads this
    {
      if chatId in calls then calls[chatId] else []
    }

    ghost function GrantedOf(chatId: int): seq<real>
      reads this
    {
      if chatId in granted then granted[chatId] else []
    }

    /** `time.monotonic()` never goes back: a request comes no earlier than the chat's previous one. */
    ghost predicate InOrder(chatId: int, now: real)
      reads this
    {
      chatId in lastAsk ==> lastAsk[chatId] <= now
    }

    /**
     * `_check_ai_rate_limit`: forgets the calls older than the window, then
     * allows this one, and records it, only if fewer than five remain; that
     * is, only if fewer than five of the chat's allowed calls are that recent.
     */
    method Check(chatId: int, now: real) returns (allowed: bool)
      requires Valid() && InOrder(chatId, now)
      modifies this
      ensures Valid()
      ensures allowed <==> |Recent(old(CallsOf(chatId)), now)| < AiRateLimit
      ensures allowed <==> |Recent(old(GrantedOf(chatId)), now)| < AiRateLimit
      ensures calls == old(calls)[chatId := Recent(old(CallsOf(chatId)), now) + if allowed then [now] else []]
      ensures granted == old(granted)[chatId := old(GrantedOf(chatId)) + if allowed then [now] else []]
      ensures lastAsk == old(lastAsk)[chatId := now]
    {
      var kept := Recent(CallsOf(chatId), now);
      ghost var g := GrantedOf(chatId);
      CheckStep(CallsOf(chatId), g, if chatId in calls then lastAsk[chatId] else now, now);
      if |kept| >= AiRateLimit {
        calls, granted, lastAsk := calls[chatId := kept], granted[chatId := g], lastAsk[chatId := now];
        assert kept + [] == kept && g + [] == g;
        return false;
      }
      calls, granted, lastAsk := calls[chatId := kept + [now]], granted[chatId := g + [now]], lastAsk[chatId := now];
      return true;
    }
  }

  /**
   * What `_check_ai_rate_limit` promises: however the requests came, at most
   * five of a chat's allowed calls fall in the sixty seconds up to and
   * including any of them.
   */
  lemma LimiterAllowsFivePerWindow(limiter: AiRateLimiter, chatId: int)
    requires limiter.Valid()
    ensures var g := limiter.GrantedOf(chatId);
      forall k :: 0 <= k < |g| ==> |Recent(g[..k + 1], g[k])| <= AiRateLimit
  {
    if chatId in limiter.granted {
      AtMostFivePerWindow(limiter.granted[chatId]);
    }
  }
}
