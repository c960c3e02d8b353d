/**
 The token bucket (internal/auth/ratelimit.go): one counter, proved to admit
 exactly what a sliding window over the full history of calls allows. Tokens and
 time are reals and the clock never goes back.
 */
module RateLimit {

  datatype Call = Call(at: real, admitted: bool)

  /** How many calls were admitted at or after `s`. */
  function AdmittedSince(h: seq<Call>, s: real): nat {
    if h == [] then 0
    else
      var c := h[|h| - 1];
      AdmittedSince(h[..|h| - 1], s) + if c.admitted && c.at >= s then 1 else 0
  }

  /** How many calls were admitted in the window from `s` to `e`, ends included. */
  function AdmittedIn(h: seq<Call>, s: real, e: real): nat {
    if h == [] then 0
    else
      var c := h[|h| - 1];
      AdmittedIn(h[..|h| - 1], s, e) + if c.admitted && s <= c.at <= e then 1 else 0
  }

  ghost predicate Ordered(h: seq<Call>) {
    forall i, j :: 0 <= i < j < |h| ==> h[i].at <= h[j].at
  }

  /** The tokens that arrive in time `d`. */
  function Gain(rate: real, d: real): real {
    d * rate
  }

  lemma GainAdds(rate: real, x: real, y: real)
    ensures Gain(rate, x + y) == Gain(rate, x) + Gain(rate, y)
  {
  }

  lemma GainGrows(rate: real, x: real, y: real)
    requires rate >= 0.0 && x <= y
    ensures Gain(rate, x) <= Gain(rate, y)
    ensures Gain(rate, 0.0) == 0.0
  {
  }

  /** What is left of the allowance of the window from `s` to `now`. */
  function Slack(rate: real, burst: real, h: seq<Call>, s: real, now: real): real {
    burst + Gain(rate, now - s) - AdmittedSince(h, s) as real
  }

  /**
   The sliding-window rule: one more call at `now` keeps every window that starts
   at an earlier call, or now, within the burst plus the rate times its length.
   */
  ghost predicate WindowsAllow(rate: real, burst: real, h: seq<Call>, now: real) {
    && Slack(rate, burst, h, now, now) >= 1.0
    && forall k :: 0 <= k < |h| ==> Slack(rate, burst, h, h[k].at, now) >= 1.0
  }

  /** A history in which every call was admitted exactly when the rule allowed it. */
  ghost predicate RuleFollowed(rate: real, burst: real, h: seq<Call>) {
    Ordered(h) && forall k :: 0 <= k < |h| ==> (h[k].admitted <==> WindowsAllow(rate, burst, h[..k], h[k].at))
  }

  datatype Bucket = Bucket(tokens: real, last: real)

  function Refilled(rate: real, burst: real, b: Bucket, now: real): real {
    var t := b.tokens + Gain(rate, now - b.last);
    if t > burst then burst else t
  }

  function Take(rate: real, burst: real, b: Bucket, now: real): (bool, Bucket) {
    var t := Refilled(rate, burst, b, now);
    if t < 1.0 then (false, Bucket(t, now)) else (true, Bucket(t - 1.0, now))
  }

  /** The counter is the least slack of any window that starts at a call. */
  ghost predicate Tracks(rate: real, burst: real, h: seq<Call>, b: Bucket) {
    && Ordered(h) && (forall k :: 0 <= k < |h| ==> h[k].at <= b.last)
    && (forall k :: 0 <= k < |h| ==> b.tokens <= Slack(rate, burst, h, h[k].at, b.last))
    && if h == [] then b.tokens == burst
       else h[|h| - 1].at == b.last && exists k :: 0 <= k < |h| && b.tokens == Slack(rate, burst, h, h[k].at, b.last)
  }

  lemma {:induction false} NothingSince(h: seq<Call>, s: real)
    requires forall k :: 0 <= k < |h| ==> h[k].at < s
    ensures AdmittedSince(h, s) == 0
  {
    if h != [] {
      NothingSince(h[..|h| - 1], s);
    }
  }

  /** Time passing adds the same to the slack of every window. */
  lemma SlackGrows(rate: real, burst: real, h: seq<Call>, s: real, t: real, now: real)
    ensures Slack(rate, burst, h, s, now) == Slack(rate, burst, h, s, t) + Gain(rate, now - t)
  {
    GainAdds(rate, t - s, now - t);
    assert (t - s) + (now - t) == now - s;
  }

  lemma AllSlackGrows(rate: real, burst: real, h: seq<Call>, t: real, now: real)
    ensures forall k :: 0 <= k < |h| ==>
                Slack(rate, burst, h, h[k].at, now) == Slack(rate, burst, h, h[k].at, t) + Gain(rate, now - t)
  {
    forall k | 0 <= k < |h|
      ensures Slack(rate, burst, h, h[k].at, now) == Slack(rate, burst, h, h[k].at, t) + Gain(rate, now - t)
    {
      SlackGrows(rate, burst, h, h[k].at, t, now);
    }
  }

  /** The window from now has the whole burst left, unless the last call was at this very moment. */
  lemma SlackFromNow(rate: real, burst: real, h: seq<Call>, b: Bucket, now: real)
    requires rate >= 0.0 && Tracks(rate, burst, h, b) && b.last <= now
    ensures now > b.last || h == [] ==> Slack(rate, burst, h, now, now) == burst
    ensures now == b.last && h != [] ==> h[|h| - 1].at == now
    ensures Slack(rate, burst, h, now, now) <= burst
  {
    GainGrows(rate, 0.0, 0.0);
    if now > b.last || h == [] {
      NothingSince(h, now);
    }
  }

  /** The refilled counter is the least slack at `now`, over windows from earlier calls and from now. */
  lemma RefilledIsLeast(rate: real, burst: real, h: seq<Call>, b: Bucket, now: real) returns (w: real)
    requires rate >= 0.0 && Tracks(rate, burst, h, b) && b.last <= now
    ensures var t := Refilled(rate, burst, b, now);
            && t <= Slack(rate, burst, h, now, now)
            && (forall k :: 0 <= k < |h| ==> t <= Slack(rate, burst, h, h[k].at, now))
            && t == Slack(rate, burst, h, w, now)
            && (w == now || exists k :: 0 <= k < |h| && h[k].at == w)
  {
    SlackFromNow(rate, burst, h, b, now);
    AllSlackGrows(rate, burst, h, b.last, now);
    GainGrows(rate, 0.0, now - b.last);
    hide Slack, Gain;
    w := now;
    if h != [] && (Refilled(rate, burst, b, now) < burst || now == b.last) {
      var k :| 0 <= k < |h| && b.tokens == Slack(rate, burst, h, h[k].at, b.last);
      w := h[k].at;
      assert Slack(rate, burst, h, w, now) <= Slack(rate, burst, h, now, now) || now > b.last;
    }
  }

  /** The refilled counter reaches one exactly when the sliding-window rule allows a call. */
  lemma CounterDecides(rate: real, burst: real, h: seq<Call>, b: Bucket, now: real)
    requires rate >= 0.0 && Tracks(rate, burst, h, b) && b.last <= now
    ensures Take(rate, burst, b, now).0 <==> WindowsAllow(rate, burst, h, now)
  {
    var w := RefilledIsLeast(rate, burst, h, b, now);
    hide Slack, Refilled;
  }

  lemma SlackAfter(rate: real, burst: real, h: seq<Call>, c: Call, s: real)
    requires s <= c.at
    ensures Slack(rate, burst, h + [c], s, c.at) == Slack(rate, burst, h, s, c.at) - if c.admitted then 1.0 else 0.0
  {
    assert (h + [c])[..|h|] == h;
  }

  lemma TracksAfterCall(rate: real, burst: real, h: seq<Call>, b: Bucket, now: real)
    requires rate >= 0.0 && Tracks(rate, burst, h, b) && b.last <= now
    ensures var (r, b') := Take(rate, burst, b, now);
            Tracks(rate, burst, h + [Call(now, r)], b')
  {
    var (r, b') := Take(rate, burst, b, now);
    var c := Call(now, r);
    var h' := h + [c];
    var w := RefilledIsLeast(rate, burst, h, b, now);
    forall k | 0 <= k < |h'|
      ensures Slack(rate, burst, h', h'[k].at, now) == Slack(rate, burst, h, h'[k].at, now) - if r then 1.0 else 0.0
    {
      SlackAfter(rate, burst, h, c, h'[k].at);
    }
    hide Slack, Refilled;
    var k := |h|;
    if w != now {
      k :| 0 <= k < |h| && h[k].at == w;
    }
    assert h'[k].at == w && b'.tokens == Slack(rate, burst, h', h'[k].at, now);
  }

  /** The bucket of one connection. */
  class Limiter {
    const rate: real
    const burst: real
    var tokens: real
    var last: real
    /** Every call so far and its answer. */
    ghost var history: seq<Call>

    ghost predicate Valid()
      reads this
    {
      rate >= 0.0 && Tracks(rate, burst, history, Value()) && RuleFollowed(rate, burst, history)
    }

    ghost function Value(): Bucket
      reads this
    {
      Bucket(tokens, last)
    }

    constructor (rate: real, burst: real, now: real)
      requires rate >= 0.0
      ensures Valid() && history == [] && Value() == Bucket(burst, now)
      ensures this.rate == rate && this.burst == burst
    {
      this.rate, this.burst := rate, burst;
      tokens, last := burst, now;
      history := [];
    }

    /** Admits a call exactly when the sliding-window rule over the whole history does. */
    method Allow(now: real) returns (r: bool)
      requires Valid() && last <= now
      modifies this
      ensures Valid()
      ensures r <==> WindowsAllow(rate, burst, old(history), now)
      ensures history == old(history) + [Call(now, r)]
      ensures (r, Value()) == Take(rate, burst, old(Value()), now)
    {
      ghost var h, b := history, Value();
      r := Spend(now);
      CounterDecides(rate, burst, h, b, now);
      TracksAfterCall(rate, burst, h, b, now);
      assert Ordered(h + [Call(now, r)]);
      hide Tracks, WindowsAllow, Take;
      RuleExtends(rate, burst, h, Call(now, r));
      history := history + [Call(now, r)];
    }

    method Spend(now: real) returns (r: bool)
      modifies this`tokens, this`last
      ensures (r, Value()) == Take(rate, burst, old(Value()), now)
    {
      assert (now - last) * rate == Gain(rate, now - last);
      tokens := tokens + (now - last) * rate;
      hide Gain;
      if tokens > burst {
        tokens := burst;
      }
      last := now;
      if tokens < 1.0 {
        return false;
      }
      tokens := tokens - 1.0;
      return true;
    }
  }

  lemma RuleExtends(rate: real, burst: real, h: seq<Call>, c: Call)
    requires RuleFollowed(rate, burst, h) && Ordered(h + [c])
    requires c.admitted <==> WindowsAllow(rate, burst, h, c.at)
    ensures RuleFollowed(rate, burst, h + [c])
  {
    var h' := h + [c];
    forall k | 0 <= k < |h'|
      ensures h'[k].admitted <==> WindowsAllow(rate, burst, h'[..k], h'[k].at)
    {
      assert h'[..k] == h[..k];
    }
  }

  /** The first call in a window: nothing admitted in the window precedes it. */
  lemma {:induction false} FirstInWindow(h: seq<Call>, s: real) returns (k: nat)
    requires Ordered(h) && AdmittedSince(h, s) > 0
    ensures k < |h| && h[k].at >= s && AdmittedSince(h, h[k].at) == AdmittedSince(h, s)
  {
    var n := |h| - 1;
    if AdmittedSince(h[..n], s) > 0 {
      k := FirstInWindow(h[..n], s);
    } else {
      k := n;
      SinceMonotone(h[..n], s, h[n].at);
    }
  }

  lemma {:induction false} SinceMonotone(h: seq<Call>, s: real, u: real)
    requires s <= u
    ensures AdmittedSince(h, u) <= AdmittedSince(h, s)
  {
    if h != [] {
      SinceMonotone(h[..|h| - 1], s, u);
    }
  }

  lemma {:induction false} InIsSince(h: seq<Call>, s: real, e: real)
    requires forall k :: 0 <= k < |h| ==> h[k].at <= e
    ensures AdmittedIn(h, s, e) == AdmittedSince(h, s)
  {
    if h != [] {
      InIsSince(h[..|h| - 1], s, e);
    }
  }

  lemma RulePrefix(rate: real, burst: real, h: seq<Call>, n: nat)
    requires RuleFollowed(rate, burst, h) && n <= |h|
    ensures RuleFollowed(rate, burst, h[..n])
  {
    hide WindowsAllow;
    forall k | 0 <= k < n
      ensures h[..n][k].admitted <==> WindowsAllow(rate, burst, h[..n][..k], h[..n][k].at)
    {
      assert h[..n][..k] == h[..k];
    }
  }

  /** What the rule says about a window that contains an admitted call. */
  lemma AdmittedFits(rate: real, burst: real, p: seq<Call>, at: real, s: real, e: real)
    requires rate >= 0.0 && s <= at <= e && Ordered(p) && WindowsAllow(rate, burst, p, at)
    ensures AdmittedSince(p, s) as real + 1.0 <= burst + Gain(rate, e - s)
  {
    GainGrows(rate, 0.0, e - s);
    if AdmittedSince(p, s) > 0 {
      var k := FirstInWindow(p, s);
      assert Slack(rate, burst, p, p[k].at, at) >= 1.0;
      GainGrows(rate, at - p[k].at, e - s);
      hide Gain;
    } else {
      assert Slack(rate, burst, p, at, at) >= 1.0;
      hide Gain;
    }
  }

  /** No window whatever admits more than the burst plus the rate times its length. */
  lemma {:induction false} EveryWindowBounded(rate: real, burst: real, h: seq<Call>, s: real, e: real)
    requires rate >= 0.0 && burst >= 0.0 && s <= e && RuleFollowed(rate, burst, h)
    ensures AdmittedIn(h, s, e) as real <= burst + rate * (e - s)
  {
    GainGrows(rate, 0.0, e - s);
    assert Gain(rate, e - s) == rate * (e - s);
    hide Gain, WindowsAllow;
    if h != [] {
      var n := |h| - 1;
      RulePrefix(rate, burst, h, n);
      EveryWindowBounded(rate, burst, h[..n], s, e);
      if h[n].admitted && s <= h[n].at <= e {
        InIsSince(h[..n], s, e);
        AdmittedFits(rate, burst, h[..n], h[n].at, s, e);
      }
    }
  }
}
