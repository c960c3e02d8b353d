/**
 The matchmaking queue, two sorted sets in Redis, and one pass of the matcher
 over it with nothing in between (internal/match/match.go).
 */
module MatchQueue {

  type Scores = map<string, real>

  datatype Pair = Pair(a: string, b: string)

  datatype Config = Config(baseWindow: real, widenPerSec: real, maxWindow: real, batch: int)

  /** How many neighbours a range query returns at most. */
  const NEIGHBOURS := 10
  const DEFAULT_BATCH := 20

  /** How far apart in rating a player accepts an opponent, after waiting since `since` (milliseconds). */
  function Window(cfg: Config, now: real, since: real): real {
    var w := cfg.baseWindow + Widened(cfg.widenPerSec, now - since);
    if w > cfg.maxWindow then cfg.maxWindow else w
  }

  function Widened(perSec: real, waitedMs: real): real {
    perSec * (waitedMs / 1000.0)
  }

  /**
   The ratings a player who has waited `waitedMs` milliseconds accepts: no further
   away than the base, plus so much per second waited, and never beyond the cap.
   */
  ghost predicate InReach(cfg: Config, waitedMs: real, distance: real) {
    && -cfg.maxWindow <= distance <= cfg.maxWindow
    && -(cfg.baseWindow + cfg.widenPerSec * waitedMs / 1000.0) <= distance
    && distance <= cfg.baseWindow + cfg.widenPerSec * waitedMs / 1000.0
  }

  /** The range query asks for exactly the ratings in reach. */
  lemma WindowIsReach(cfg: Config, now: real, since: real, score: real, other: real)
    ensures var w := Window(cfg, now, since);
            score - w <= other <= score + w <==> InReach(cfg, now - since, other - score)
  {
    assert Widened(cfg.widenPerSec, now - since) == cfg.widenPerSec * (now - since) / 1000.0;
  }

  lemma ReachGrows(cfg: Config, x: real, y: real, distance: real)
    requires cfg.widenPerSec >= 0.0 && x <= y && InReach(cfg, x, distance)
    ensures InReach(cfg, y, distance) && InReach(cfg, y, -distance)
  {
    ProductGrows(cfg.widenPerSec, x, y);
  }

  lemma ProductGrows(c: real, x: real, y: real)
    requires c >= 0.0 && x <= y
    ensures c * x <= c * y
  {
  }

  /** The `limit` members with the lowest scores, in score order; ties in any order. */
  ghost predicate IsLowest(ids: seq<string>, m: Scores, limit: nat) {
    && |ids| <= limit
    && (forall k :: 0 <= k < |ids| ==> ids[k] in m)
    && (forall j, k :: 0 <= j < k < |ids| ==> ids[j] != ids[k] && m[ids[j]] <= m[ids[k]])
    && (forall p, k :: p in m && p !in ids && 0 <= k < |ids| ==> m[ids[k]] <= m[p])
    && (|ids| < limit ==> forall p :: p in m ==> p in ids)
  }

  function Between(m: Scores, lo: real, hi: real): Scores {
    map p | p in m && lo <= m[p] <= hi :: m[p]
  }

  method Lowest(m: Scores, limit: nat) returns (ids: seq<string>)
    ensures IsLowest(ids, m, limit)
  {
    ids := [];
    var rest := m.Keys;
    while rest != {} && |ids| < limit
      invariant |ids| <= limit && rest <= m.Keys
      invariant forall p :: p in m ==> (p in ids <==> p !in rest)
      invariant forall k :: 0 <= k < |ids| ==> ids[k] in m
      invariant forall j, k :: 0 <= j < k < |ids| ==> ids[j] != ids[k] && m[ids[j]] <= m[ids[k]]
      invariant forall p, k :: p in rest && 0 <= k < |ids| ==> m[ids[k]] <= m[p]
      decreases rest
    {
      LowestExists(m, rest);
      var x :| x in rest && forall p :: p in rest ==> m[x] <= m[p];
      ids := ids + [x];
      rest := rest - {x};
    }
  }

  lemma {:induction false} LowestExists(m: Scores, s: set<string>)
    requires s != {} && s <= m.Keys
    ensures exists x :: x in s && forall p :: p in s ==> m[x] <= m[p]
    decreases s
  {
    var y :| y in s;
    if s == {y} {
      assert forall p :: p in s ==> m[y] <= m[p];
    } else {
      LowestExists(m, s - {y});
      var x :| x in s - {y} && forall p :: p in s - {y} ==> m[x] <= m[p];
      var z := if m[x] <= m[y] then x else y;
      assert z in s && forall p :: p in s ==> m[z] <= m[p];
    }
  }

  lemma SomeOther(ids: seq<string>, m: Scores, limit: nat, a: string)
    requires IsLowest(ids, m, limit) && |ids| >= 2
    ensures exists p :: p in ids && p != a
  {
    assert ids[0] != ids[1] && ids[0] in ids && ids[1] in ids;
  }

  /** The first of the ids that is neither `a` nor already paired; "" when there is none. */
  function Opponent(ids: seq<string>, a: string, paired: set<string>): (b: string)
    ensures b != "" ==> b != a && b !in paired && b in ids
    ensures b == "" && "" !in ids ==> forall p :: p in ids ==> p == a || p in paired
    ensures b != "" ==> exists k :: 0 <= k < |ids| && ids[k] == b
                                    && forall j :: 0 <= j < k ==> ids[j] == a || ids[j] in paired
  {
    if ids == [] then ""
    else if ids[0] != a && ids[0] !in paired then ids[0]
    else Opponent(ids[1..], a, paired)
  }

  method FirstOther(ids: seq<string>, a: string, paired: set<string>) returns (b: string)
    ensures b == Opponent(ids, a, paired)
  {
    b := "";
    for k := 0 to |ids|
      invariant Opponent(ids, a, paired) == Opponent(ids[k..], a, paired)
    {
      if ids[k] != a && ids[k] !in paired {
        return ids[k];
      }
      assert ids[k..][1..] == ids[k + 1..];
    }
  }

  /** The members of all pairs, with multiplicity. */
  function Members(ps: seq<Pair>): multiset<string> {
    if ps == [] then multiset{}
    else Members(ps[..|ps| - 1]) + multiset{ps[|ps| - 1].a, ps[|ps| - 1].b}
  }

  lemma MembersExtend(ps: seq<Pair>, p: Pair)
    ensures Members(ps + [p]) == Members(ps) + multiset{p.a, p.b}
  {
    assert (ps + [p])[..|ps|] == ps;
  }

  /** `q` is within the reach of `p`. */
  ghost predicate Close(cfg: Config, rating: Scores, time: Scores, now: real, p: string, q: string)
    requires p in rating && q in rating && p in time
  {
    InReach(cfg, now - time[p], rating[q] - rating[p])
  }

  /** The same players wait in both sets. */
  ghost predicate InSync(rating: Scores, time: Scores) {
    rating.Keys == time.Keys && "" !in rating
  }

  /** Nobody else who waits is within the reach of `p`. */
  ghost predicate Lonely(cfg: Config, rating: Scores, time: Scores, now: real, p: string)
    requires InSync(rating, time) && p in rating
  {
    forall q :: q in rating && q != p ==> !Close(cfg, rating, time, now, p, q)
  }

  /** Of these players, those still waiting have nobody within reach. */
  ghost predicate Settled(cfg: Config, rating: Scores, time: Scores, now: real, batch: seq<string>)
    requires InSync(rating, time)
  {
    forall k :: 0 <= k < |batch| && batch[k] in rating ==> Lonely(cfg, rating, time, now, batch[k])
  }

  /** The queue a pass started from is what still waits, with ratings and times kept, plus the pairs, each player once. */
  ghost predicate Conserved(rating0: Scores, time0: Scores, rating: Scores, time: Scores, pairs: seq<Pair>) {
    && InSync(rating, time)
    && (forall p :: p in rating ==> p in rating0 && rating[p] == rating0[p])
    && (forall p :: p in time ==> p in time0 && time[p] == time0[p])
    && Members(pairs) + multiset(rating.Keys) == multiset(rating0.Keys)
  }

  /** Of everybody in the reach of `a`, nobody is rated lower than `b`. */
  ghost predicate BestFor(cfg: Config, rating: Scores, time: Scores, now: real, a: string, b: string)
    requires InSync(rating, time) && a in rating
  {
    && b in rating && b != a && Close(cfg, rating, time, now, a, b)
    && forall q :: q in rating && q != a && Close(cfg, rating, time, now, a, q) ==> rating[b] <= rating[q]
  }

  /** Nobody of the batch before `p.a` has anybody in reach, and `p.b` is the best for `p.a`. */
  ghost predicate Greedy(cfg: Config, rating: Scores, time: Scores, now: real, met: seq<string>, p: Pair) {
    && InSync(rating, time) && p.a in rating && BestFor(cfg, rating, time, now, p.a, p.b)
    && exists i :: 0 <= i < |met| && met[i] == p.a && Settled(cfg, rating, time, now, met[..i])
  }

  /** A sorted set without the members of these pairs. */
  function Without(m: Scores, pairs: seq<Pair>): Scores {
    map p | p in m && Members(pairs)[p] == 0 :: m[p]
  }

  /** Each pair is the greedy one for the queue the earlier pairs have left. */
  ghost predicate GreedyPass(cfg: Config, now: real, rating0: Scores, time0: Scores, met: seq<string>, pairs: seq<Pair>) {
    forall k :: 0 <= k < |pairs| ==>
                    Greedy(cfg, Without(rating0, pairs[..k]), Without(time0, pairs[..k]), now, met, pairs[k])
  }

  /** A pair made from the original queue: `b` within the reach of `a`, who has waited at least as long. */
  ghost predicate GoodPair(cfg: Config, rating0: Scores, time0: Scores, now: real, p: Pair) {
    && p.a in rating0 && p.b in rating0 && p.a in time0 && p.b in time0 && p.a != p.b
    && Close(cfg, rating0, time0, now, p.a, p.b)
    && (cfg.widenPerSec >= 0.0 ==> time0[p.a] <= time0[p.b])
  }

  function BatchLimit(cfg: Config): nat {
    if cfg.batch <= 0 then DEFAULT_BATCH else cfg.batch
  }

  /**
   What a whole pass over the batch `met`, the longest waiting twenty or as many as
   configured, achieves: each pair in turn is the first of the batch who has anybody
   in reach, with the lowest rated of those; the queue is what was there less the
   pairs; and nobody scanned and still waiting has anybody in reach.
   */
  ghost predicate PassResult(cfg: Config, now: real, rating0: Scores, time0: Scores, met: seq<string>,
                             rating: Scores, time: Scores, pairs: seq<Pair>)
  {
    && IsLowest(met, time0, if cfg.batch > 0 then cfg.batch else 20)
    && Conserved(rating0, time0, rating, time, pairs)
    && GreedyPass(cfg, now, rating0, time0, met, pairs)
    && (forall k :: 0 <= k < |pairs| ==> GoodPair(cfg, rating0, time0, now, pairs[k]))
    && Settled(cfg, rating, time, now, met)
  }

  lemma PairConserves(rating0: Scores, time0: Scores, rating: Scores, time: Scores, pairs: seq<Pair>, p: Pair)
    requires Conserved(rating0, time0, rating, time, pairs)
    requires p.a in rating && p.b in rating && p.a != p.b
    ensures Conserved(rating0, time0, rating - {p.a, p.b}, time - {p.a, p.b}, pairs + [p])
  {
    MembersExtend(pairs, p);
    var left := rating - {p.a, p.b};
    assert rating.Keys == left.Keys + {p.a, p.b};
    assert multiset(rating.Keys) == multiset(left.Keys) + multiset{p.a, p.b};
  }

  /** Players who leave take nobody into reach. */
  lemma SettledStays(cfg: Config, rating: Scores, time: Scores, now: real, batch: seq<string>, gone: set<string>)
    requires InSync(rating, time) && Settled(cfg, rating, time, now, batch)
    ensures Settled(cfg, rating - gone, time - gone, now, batch)
  {
    hide InReach;
    var r, t := rating - gone, time - gone;
    forall k, q | 0 <= k < |batch| && batch[k] in r && q in r && q != batch[k]
      ensures !Close(cfg, r, t, now, batch[k], q)
    {
      assert Lonely(cfg, rating, time, now, batch[k]) && !Close(cfg, rating, time, now, batch[k], q);
    }
  }

  /** Reach is mutual towards whoever has waited longer. */
  lemma LongerWaitReaches(cfg: Config, rating: Scores, time: Scores, now: real, a: string, b: string)
    requires a in rating && b in rating && a in time && b in time
    requires cfg.widenPerSec >= 0.0 && time[b] <= time[a] && Close(cfg, rating, time, now, a, b)
    ensures Close(cfg, rating, time, now, b, a)
  {
    ReachGrows(cfg, now - time[a], now - time[b], rating[b] - rating[a]);
    hide InReach;
  }

  lemma InPrefix(xs: seq<string>, i: nat, k: nat)
    requires k < i <= |xs|
    ensures xs[k] in xs[..i]
  {
    assert xs[..i][k] == xs[k];
  }

  /**
   An opponent found by rating has not waited longer: it would have been met
   before, and would then have taken somebody itself.
   */
  lemma OpponentComesLater(cfg: Config, time0: Scores, rating: Scores, time: Scores, now: real,
                           batch: seq<string>, limit: nat, i: nat, b: string)
    requires InSync(rating, time) && IsLowest(batch, time0, limit) && i < |batch|
    requires batch[i] in rating && b in rating && b != batch[i] && Close(cfg, rating, time, now, batch[i], b)
    requires forall p :: p in time ==> p in time0 && time[p] == time0[p]
    requires Settled(cfg, rating, time, now, batch[..i]) && cfg.widenPerSec >= 0.0
    ensures time0[batch[i]] <= time0[b]
  {
    if b in batch[..i] && time0[b] <= time0[batch[i]] {
      LongerWaitReaches(cfg, rating, time, now, batch[i], b);
      assert false;
    }
    if b in batch && b !in batch[..i] {
      var k: nat :| k < |batch| && batch[k] == b;
      if k < i {
        InPrefix(batch, i, k);
      }
    }
    hide Close;
  }

  lemma NobodySettled(cfg: Config, rating: Scores, time: Scores, now: real)
    requires InSync(rating, time)
    ensures forall xs: seq<string> :: Settled(cfg, rating, time, now, xs[..0])
  {
  }

  lemma NoPairsYet(cfg: Config, now: real, rating0: Scores, time0: Scores, met: seq<string>)
    ensures GreedyPass(cfg, now, rating0, time0, met, [])
  {
  }

  /** Kept ratings and times mean the same reach as in the original queue. */
  lemma SameReach(cfg: Config, rating0: Scores, time0: Scores, rating: Scores, time: Scores, now: real,
                  a: string, b: string)
    requires a in rating && b in rating && a in time && a in rating0 && b in rating0 && a in time0
    requires rating[a] == rating0[a] && rating[b] == rating0[b] && time[a] == time0[a]
    ensures Close(cfg, rating, time, now, a, b) <==> Close(cfg, rating0, time0, now, a, b)
  {
  }

  /** The first neighbour that will do is rated no higher than any other that would. */
  lemma FirstIsLowest(near: Scores, ids: seq<string>, limit: nat, a: string, paired: set<string>, q: string)
    requires IsLowest(ids, near, limit) && Opponent(ids, a, paired) != ""
    requires q in near && q != a && q !in paired
    ensures near[Opponent(ids, a, paired)] <= near[q]
  {
    var b := Opponent(ids, a, paired);
    var k :| 0 <= k < |ids| && ids[k] == b && forall j :: 0 <= j < k ==> ids[j] == a || ids[j] in paired;
    if q in ids {
      var m :| 0 <= m < |ids| && ids[m] == q;
    }
  }

  lemma NearIsReach(cfg: Config, rating: Scores, time: Scores, now: real, a: string)
    requires InSync(rating, time) && a in rating
    ensures var w := Window(cfg, now, time[a]); var near := Between(rating, rating[a] - w, rating[a] + w);
            forall q :: q in rating ==> (q in near <==> Close(cfg, rating, time, now, a, q))
  {
    forall q | q in rating
      ensures var w := Window(cfg, now, time[a]);
              rating[a] - w <= rating[q] <= rating[a] + w <==> Close(cfg, rating, time, now, a, q)
    {
      WindowIsReach(cfg, now, time[a], rating[a], rating[q]);
      hide Window, InReach;
    }
    hide Window, InReach;
  }

  /** The range query looks at few neighbours, yet finds the lowest rated in reach, and nobody only if there is nobody. */
  lemma OpponentFound(cfg: Config, rating: Scores, time: Scores, now: real, a: string, paired: set<string>,
                      ids: seq<string>)
    requires InSync(rating, time) && a in rating && paired !! rating.Keys
    requires var w := Window(cfg, now, time[a]); IsLowest(ids, Between(rating, rating[a] - w, rating[a] + w), NEIGHBOURS)
    ensures var b := Opponent(ids, a, paired);
            && (b != "" ==> BestFor(cfg, rating, time, now, a, b))
            && (b == "" ==> Lonely(cfg, rating, time, now, a))
  {
    NearIsReach(cfg, rating, time, now, a);
    hide Window, Close;
    var w := Window(cfg, now, time[a]);
    var near := Between(rating, rating[a] - w, rating[a] + w);
    if Opponent(ids, a, paired) != "" {
      OpponentIsBest(cfg, rating, time, now, a, paired, ids, near);
    } else {
      NobodyNear(cfg, rating, time, now, a, paired, ids, near);
    }
    hide Opponent, Lonely, BestFor;
  }

  lemma OpponentIsBest(cfg: Config, rating: Scores, time: Scores, now: real, a: string, paired: set<string>,
                       ids: seq<string>, near: Scores)
    requires InSync(rating, time) && a in rating && paired !! rating.Keys && IsLowest(ids, near, NEIGHBOURS)
    requires forall q :: q in near ==> q in rating && near[q] == rating[q]
    requires forall q :: q in rating ==> (q in near <==> Close(cfg, rating, time, now, a, q))
    requires Opponent(ids, a, paired) != ""
    ensures BestFor(cfg, rating, time, now, a, Opponent(ids, a, paired))
  {
    hide Close;
    var b := Opponent(ids, a, paired);
    assert b in near;
    forall q | q in rating && q != a && Close(cfg, rating, time, now, a, q)
      ensures rating[b] <= rating[q]
    {
      FirstIsLowest(near, ids, NEIGHBOURS, a, paired, q);
    }
  }

  lemma NobodyNear(cfg: Config, rating: Scores, time: Scores, now: real, a: string, paired: set<string>,
                   ids: seq<string>, near: Scores)
    requires InSync(rating, time) && a in rating && paired !! rating.Keys && IsLowest(ids, near, NEIGHBOURS)
    requires forall q :: q in near ==> q in rating
    requires forall q :: q in rating ==> (q in near <==> Close(cfg, rating, time, now, a, q))
    requires Opponent(ids, a, paired) == ""
    ensures Lonely(cfg, rating, time, now, a)
  {
    hide Close;
    assert forall p :: p in ids ==> p in near;
    if |ids| >= 2 {
      SomeOther(ids, near, NEIGHBOURS, a);
      assert false;
    }
    forall q | q in rating && q != a
      ensures !Close(cfg, rating, time, now, a, q)
    {
      assert q in near ==> q in ids;
    }
  }

  /** What is left of a conserved queue is the original one without the pairs. */
  lemma ConservedLeaves(rating0: Scores, time0: Scores, rating: Scores, time: Scores, pairs: seq<Pair>)
    requires Conserved(rating0, time0, rating, time, pairs) && InSync(rating0, time0)
    ensures rating == Without(rating0, pairs) && time == Without(time0, pairs)
  {
    forall p: string
      ensures p in rating <==> p in rating0 && Members(pairs)[p] == 0
    {
      assert multiset(rating0.Keys)[p] == Members(pairs)[p] + multiset(rating.Keys)[p];
      assert multiset(rating0.Keys)[p] == if p in rating0 then 1 else 0;
      assert multiset(rating.Keys)[p] == if p in rating then 1 else 0;
    }
  }

  /** A greedy pair of a pass is a good one. */
  lemma GreedyIsGood(cfg: Config, now: real, rating0: Scores, time0: Scores, met: seq<string>, limit: nat,
                     pairs: seq<Pair>, k: nat)
    requires k < |pairs| && IsLowest(met, time0, limit) && GreedyPass(cfg, now, rating0, time0, met, pairs)
    ensures GoodPair(cfg, rating0, time0, now, pairs[k])
  {
    var r, t, p := Without(rating0, pairs[..k]), Without(time0, pairs[..k]), pairs[k];
    assert Greedy(cfg, r, t, now, met, p);
    var i: nat :| i < |met| && met[i] == p.a && Settled(cfg, r, t, now, met[..i]);
    hide InReach, Settled;
    if cfg.widenPerSec >= 0.0 {
      OpponentComesLater(cfg, time0, r, t, now, met, limit, i, p.b);
    }
    hide IsLowest;
    SameReach(cfg, rating0, time0, r, t, now, p.a, p.b);
  }

  lemma GreedyExtends(cfg: Config, now: real, rating0: Scores, time0: Scores, met: seq<string>, pairs: seq<Pair>, p: Pair)
    requires GreedyPass(cfg, now, rating0, time0, met, pairs)
    requires Greedy(cfg, Without(rating0, pairs), Without(time0, pairs), now, met, p)
    ensures GreedyPass(cfg, now, rating0, time0, met, pairs + [p])
  {
    var more := pairs + [p];
    hide Greedy;
    assert more[..|pairs|] == pairs;
    forall k | 0 <= k < |more|
      ensures Greedy(cfg, Without(rating0, more[..k]), Without(time0, more[..k]), now, met, more[k])
    {
      if k < |pairs| {
        assert more[..k] == pairs[..k];
      }
    }
  }

  /** Taking a player of the batch out together with the best opponent in reach. */
  lemma PairTaken(cfg: Config, now: real, met: seq<string>, i: nat, b: string,
                  rating0: Scores, time0: Scores, rating: Scores, time: Scores, pairs: seq<Pair>)
    requires i < |met| && InSync(rating0, time0)
    requires Conserved(rating0, time0, rating, time, pairs) && Settled(cfg, rating, time, now, met[..i])
    requires GreedyPass(cfg, now, rating0, time0, met, pairs)
    requires met[i] in rating && BestFor(cfg, rating, time, now, met[i], b)
    ensures var r, t := rating - {met[i], b}, time - {met[i], b};
            && Conserved(rating0, time0, r, t, pairs + [Pair(met[i], b)])
            && GreedyPass(cfg, now, rating0, time0, met, pairs + [Pair(met[i], b)])
            && Settled(cfg, r, t, now, met[..i + 1])
  {
    ConservedLeaves(rating0, time0, rating, time, pairs);
    hide Lonely, Close, GreedyPass;
    var a := met[i];
    assert met[..i + 1] == met[..i] + [a];
    GreedyExtends(cfg, now, rating0, time0, met, pairs, Pair(a, b));
    SettledStays(cfg, rating, time, now, met[..i], {a, b});
    PairConserves(rating0, time0, rating, time, pairs, Pair(a, b));
  }

  class Queue {
    var rating: Scores
    var time: Scores

    constructor ()
      ensures rating == map[] && time == map[]
    {
      rating, time := map[], map[];
    }

    /** Enters the queue; a player already waiting keeps the old rating and time. */
    method Join(p: string, score: real, now: real)
      modifies this
      ensures rating == if p in old(rating) then old(rating) else old(rating)[p := score]
      ensures time == if p in old(time) then old(time) else old(time)[p := now]
    {
      if p !in rating {
        rating := rating[p := score];
      }
      if p !in time {
        time := time[p := now];
      }
    }

    method Leave(p: string)
      modifies this
      ensures rating == old(rating) - {p} && time == old(time) - {p}
    {
      rating, time := rating - {p}, time - {p};
    }

    method Take(p: string) returns (ok: bool)
      modifies this
      ensures ok <==> p in old(rating)
      ensures rating == old(rating) - {p}
      ensures time == if ok then old(time) - {p} else old(time)
    {
      ok := p in rating;
      rating := rating - {p};
      if ok {
        time := time - {p};
      }
    }

    method Restore(p: string, score: real, since: real)
      modifies this
      ensures rating == old(rating)[p := score] && time == old(time)[p := since]
    {
      rating, time := rating[p := score], time[p := since];
    }

    /** Takes both players out of the queue; if the second has gone, the first is put back. */
    method TakeBoth(a: string, b: string) returns (ok: bool)
      requires InSync(rating, time) && a in rating && a != b
      modifies this
      ensures ok <==> b in old(rating)
      ensures ok ==> rating == old(rating) - {a, b} && time == old(time) - {a, b}
      ensures !ok ==> rating == old(rating) && time == old(time)
    {
      var score, since := rating[a], time[a];
      ok := Take(a);
      if ok {
        ok := Take(b);
        if !ok {
          Restore(a, score, since);
        }
      }
    }

    /** The opponent a pass finds for `a`, or "". */
    method FindOpponent(cfg: Config, now: real, a: string, paired: set<string>) returns (b: string)
      requires InSync(rating, time) && a in rating && paired !! rating.Keys
      ensures b != "" ==> BestFor(cfg, rating, time, now, a, b)
      ensures b == "" ==> Lonely(cfg, rating, time, now, a)
    {
      var w := Window(cfg, now, time[a]);
      var ids := Lowest(Between(rating, rating[a] - w, rating[a] + w), NEIGHBOURS);
      b := FirstOther(ids, a, paired);
      OpponentFound(cfg, rating, time, now, a, paired, ids);
    }

    /** What the pass does for player `met[i]`: the opponent it is paired with, or "". */
    method MatchOne(cfg: Config, now: real, met: seq<string>, i: nat, paired: set<string>,
                    ghost rating0: Scores, ghost time0: Scores, ghost pairs: seq<Pair>)
      returns (b: string)
      requires i < |met| && paired !! rating.Keys && InSync(rating0, time0)
      requires Conserved(rating0, time0, rating, time, pairs) && Settled(cfg, rating, time, now, met[..i])
      requires GreedyPass(cfg, now, rating0, time0, met, pairs)
      modifies this
      ensures InSync(rating, time) && Settled(cfg, rating, time, now, met[..i + 1])
      ensures b == "" ==> rating == old(rating) && time == old(time)
      ensures b != "" ==>
                && rating == old(rating) - {met[i], b}
                && Conserved(rating0, time0, rating, time, pairs + [Pair(met[i], b)])
                && GreedyPass(cfg, now, rating0, time0, met, pairs + [Pair(met[i], b)])
    {
      hide Window, Lonely, Close, GreedyPass;
      assert met[..i + 1] == met[..i] + [met[i]];
      var a := met[i];
      if a in paired || a !in rating {
        return "";
      }
      b := FindOpponent(cfg, now, a, paired);
      if b != "" {
        PairTaken(cfg, now, met, i, b, rating0, time0, rating, time, pairs);
        var ok := TakeBoth(a, b);
      }
    }

    /**
     One pass over the longest waiting players, nothing else happening meanwhile.
     `met` is the batch it scanned.
     */
    method MatchOnce(cfg: Config, now: real) returns (pairs: seq<Pair>, met: seq<string>)
      requires InSync(rating, time)
      modifies this
      ensures PassResult(cfg, now, old(rating), old(time), met, rating, time, pairs)
    {
      hide GoodPair, Settled, IsLowest, GreedyPass;
      var limit := BatchLimit(cfg);
      met := Lowest(time, limit);
      pairs := [];
      var paired: set<string> := {};
      assert Settled(cfg, rating, time, now, met[..0]) by { NobodySettled(cfg, rating, time, now); }
      NoPairsYet(cfg, now, rating, time, met);
      for i := 0 to |met|
        invariant Conserved(old(rating), old(time), rating, time, pairs)
        invariant paired !! rating.Keys
        invariant GreedyPass(cfg, now, old(rating), old(time), met, pairs)
        invariant Settled(cfg, rating, time, now, met[..i])
      {
        var b := MatchOne(cfg, now, met, i, paired, old(rating), old(time), pairs);
        if b != "" {
          paired := paired + {met[i], b};
          pairs := pairs + [Pair(met[i], b)];
        }
      }
      assert met[..|met|] == met;
      forall k | 0 <= k < |pairs|
        ensures GoodPair(cfg, old(rating), old(time), now, pairs[k])
      {
        GreedyIsGood(cfg, now, old(rating), old(time), met, limit, pairs, k);
      }
    }
  }
}
