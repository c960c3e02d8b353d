/**
 A pass with nothing in between, call by call: the interleaving model and the
 single pass of `MatchQueue` agree (internal/match/match.go).
 */
module MatchAlone {
  import opened MatchQueue
  import opened MatchRace

  /** A pass that begins at `now` on these sets, and what its range query returned. */
  datatype Trial = Trial(cfg: Config, now: real, rating0: Scores, time0: Scores, zs: seq<(string, real)>, made0: seq<Match>)
  {
    function Met(): seq<string> {
      Ids(zs)
    }

    ghost predicate Sound() {
      InSync(rating0, time0) && IsQueueHead(zs, time0, BatchLimit(cfg))
    }

    /** The result so far: the first `n` of the batch are dealt with. */
    ghost predicate Good(n: nat, rating: Scores, time: Scores, pairs: seq<Pair>, paired: set<string>)
      requires n <= |zs|
    {
      && Conserved(rating0, time0, rating, time, pairs)
      && GreedyPass(cfg, now, rating0, time0, Met(), pairs)
      && Settled(cfg, rating, time, now, Met()[..n]) && paired !! rating.Keys
    }

    /** Player `n` of the batch is next, with this rating and time. */
    ghost predicate Ready(n: nat, a: string, since: real, score: real,
                          rating: Scores, time: Scores, pairs: seq<Pair>, paired: set<string>)
      requires n < |zs|
    {
      && Good(n, rating, time, pairs, paired)
      && a == Met()[n] && a in rating && rating[a] == score && time[a] == since
    }

    ghost predicate Chosen(n: nat, a: string, since: real, score: real, b: string,
                           rating: Scores, time: Scores, pairs: seq<Pair>, paired: set<string>)
      requires n < |zs|
    {
      && Ready(n, a, since, score, rating, time, pairs, paired)
      && BestFor(cfg, rating, time, now, a, b)
    }

    /** What holds between two calls of the pass, in each phase. */
    ghost predicate Underway(q: Pass, rating: Scores, time: Scores, pairs: seq<Pair>) {
      && q.now == now && |q.rest| <= |zs| && q.rest == zs[|zs| - |q.rest|..]
      && var n := |zs| - |q.rest|;
         match q.phase
         case Scanning => Good(n, rating, time, pairs, q.paired)
         case Ranging(a, since, score) => n > 0 && Ready(n - 1, a, since, score, rating, time, pairs, q.paired)
         case TakingA(a, since, score, b) => n > 0 && Chosen(n - 1, a, since, score, b, rating, time, pairs, q.paired)
         case ClearingA(a, since, score, b) =>
           n > 0 && a !in rating && Chosen(n - 1, a, since, score, b, rating[a := score], time, pairs, q.paired)
         case TakingB(a, since, score, b) =>
           && n > 0 && a !in rating && a !in time
           && Chosen(n - 1, a, since, score, b, rating[a := score], time[a := since], pairs, q.paired)
         case ClearingB(a, b) => Good(n, rating, time - {b}, pairs + [Pair(a, b)], q.paired + {a, b})
         case _ => false
    }

    /** The pass, its queue and its pairs in a world. */
    ghost predicate At(w: World, i: nat) {
      && i < |w.passes| && made0 <= w.made
      && Underway(w.passes[i], w.rating, w.time, PairsOf(w.made[|made0|..]))
    }
  }

  /** The player is dealt with when they are gone or have nobody in reach. */
  lemma DealtWith(tr: Trial, n: nat, rating: Scores, time: Scores, pairs: seq<Pair>, paired: set<string>)
    requires n < |tr.zs| && tr.Good(n, rating, time, pairs, paired)
    requires var a := tr.Met()[n]; a in rating ==> Lonely(tr.cfg, rating, time, tr.now, a)
    ensures tr.Good(n + 1, rating, time, pairs, paired)
  {
    hide Lonely, Conserved, GreedyPass;
    assert InSync(rating, time) by { KeptInSync(tr, n, rating, time, pairs, paired); }
    assert tr.Met()[..n + 1] == tr.Met()[..n] + [tr.Met()[n]];
  }

  lemma KeptInSync(tr: Trial, n: nat, rating: Scores, time: Scores, pairs: seq<Pair>, paired: set<string>)
    requires n <= |tr.zs| && tr.Good(n, rating, time, pairs, paired)
    ensures InSync(rating, time)
  {
  }

  lemma PairDone(tr: Trial, n: nat, a: string, since: real, score: real, b: string,
                 rating: Scores, time: Scores, pairs: seq<Pair>, paired: set<string>)
    requires tr.Sound() && n < |tr.zs| && tr.Chosen(n, a, since, score, b, rating, time, pairs, paired)
    ensures tr.Good(n + 1, rating - {a, b}, time - {a, b}, pairs + [Pair(a, b)], paired + {a, b})
  {
    hide IsLowest, BestFor, Conserved, Settled, GreedyPass;
    PairTaken(tr.cfg, tr.now, tr.Met(), n, b, tr.rating0, tr.time0, rating, time, pairs);
  }

  // ---------------------------------------------------------------- one call

  lemma ScoreKeeps(tr: Trial, q: Pass, rating: Scores, time: Scores, pairs: seq<Pair>)
    requires tr.Sound() && tr.Underway(q, rating, time, pairs) && q.phase.Scanning? && q.rest != []
    ensures var (a, since) := q.rest[0];
            var phase := if a in q.paired || a !in rating then Scanning else Ranging(a, since, rating[a]);
            tr.Underway(q.(rest := q.rest[1..], phase := phase), rating, time, pairs)
  {
    hide IsLowest, Lonely, InSync, GreedyPass, Settled;
    var n := |tr.zs| - |q.rest|;
    assert q.rest[0] == tr.zs[n] && q.rest[1..] == tr.zs[n + 1..];
    var a := tr.zs[n].0;
    if a !in rating {
      DealtWith(tr, n, rating, time, pairs, q.paired);
    } else {
      TimeKept(tr, n, a, rating, time, pairs, q.paired);
    }
    hide Conserved, GreedyPass, Settled;
  }

  lemma TimeKept(tr: Trial, n: nat, a: string, rating: Scores, time: Scores, pairs: seq<Pair>, paired: set<string>)
    requires n <= |tr.zs| && tr.Good(n, rating, time, pairs, paired) && a in rating
    ensures a in time && a in tr.time0 && time[a] == tr.time0[a]
  {
  }

  lemma RangeKeeps(tr: Trial, q: Pass, rating: Scores, time: Scores, pairs: seq<Pair>, ids: seq<string>)
    requires tr.Sound() && tr.Underway(q, rating, time, pairs) && q.phase.Ranging?
    requires var reach := Window(tr.cfg, tr.now, q.phase.since);
             IsLowest(ids, Between(rating, q.phase.score - reach, q.phase.score + reach), NEIGHBOURS)
    ensures var b := Opponent(ids, q.phase.a, q.paired);
            var phase := if b == "" then Scanning else TakingA(q.phase.a, q.phase.since, q.phase.score, b);
            tr.Underway(q.(phase := phase), rating, time, pairs)
  {
    hide Window, IsLowest, BestFor, Lonely, Conserved, GreedyPass, Settled, IsQueueHead;
    var n := |tr.zs| - |q.rest| - 1;
    KeptInSync(tr, n, rating, time, pairs, q.paired);
    OpponentFound(tr.cfg, rating, time, tr.now, q.phase.a, q.paired, ids);
    hide Opponent;
    if Opponent(ids, q.phase.a, q.paired) == "" {
      DealtWith(tr, n, rating, time, pairs, q.paired);
    }
  }

  lemma TakeAKeeps(tr: Trial, q: Pass, rating: Scores, time: Scores, pairs: seq<Pair>)
    requires tr.Underway(q, rating, time, pairs) && q.phase.TakingA?
    ensures q.phase.a in rating
    ensures tr.Underway(q.(phase := ClearingA(q.phase.a, q.phase.since, q.phase.score, q.phase.b)),
                        rating - {q.phase.a}, time, pairs)
  {
    hide BestFor, Conserved, GreedyPass, Settled;
    assert (rating - {q.phase.a})[q.phase.a := q.phase.score] == rating;
  }

  lemma ClearAKeeps(tr: Trial, q: Pass, rating: Scores, time: Scores, pairs: seq<Pair>)
    requires tr.Underway(q, rating, time, pairs) && q.phase.ClearingA?
    ensures tr.Underway(q.(phase := TakingB(q.phase.a, q.phase.since, q.phase.score, q.phase.b)),
                        rating, time - {q.phase.a}, pairs)
  {
    var a := q.phase.a;
    assert a in time by {
      KeptInSync(tr, |tr.zs| - |q.rest| - 1, rating[a := q.phase.score], time, pairs, q.paired);
    }
    hide BestFor, Conserved, GreedyPass, Settled;
    assert (time - {a})[a := q.phase.since] == time;
  }

  lemma ChosenWaits(tr: Trial, n: nat, a: string, since: real, score: real, b: string,
                    rating: Scores, time: Scores, pairs: seq<Pair>, paired: set<string>)
    requires n < |tr.zs| && tr.Chosen(n, a, since, score, b, rating, time, pairs, paired)
    ensures b in rating && b != a
  {
  }

  lemma TakeBKeeps(tr: Trial, q: Pass, rating: Scores, time: Scores, pairs: seq<Pair>)
    requires tr.Sound() && tr.Underway(q, rating, time, pairs) && q.phase.TakingB?
    ensures q.phase.b in rating
    ensures tr.Underway(q.(phase := ClearingB(q.phase.a, q.phase.b)), rating - {q.phase.b}, time, pairs)
  {
    hide Trial.Chosen, Trial.Good, Trial.Sound;
    var a, b, since, score := q.phase.a, q.phase.b, q.phase.since, q.phase.score;
    var r, t := rating[a := score], time[a := since];
    ChosenWaits(tr, |tr.zs| - |q.rest| - 1, a, since, score, b, r, t, pairs, q.paired);
    PairDone(tr, |tr.zs| - |q.rest| - 1, a, since, score, b, r, t, pairs, q.paired);
    assert r - {a, b} == rating - {b} && t - {a, b} == time - {b};
  }

  lemma ClearBKeeps(tr: Trial, q: Pass, rating: Scores, time: Scores, pairs: seq<Pair>)
    requires tr.Underway(q, rating, time, pairs) && q.phase.ClearingB?
    ensures tr.Underway(q.(phase := Scanning, paired := q.paired + {q.phase.a, q.phase.b}),
                        rating, time - {q.phase.b}, pairs + [Pair(q.phase.a, q.phase.b)])
  {
    hide Trial.Good;
  }

  lemma OneMade(tr: Trial, w: World, m: Match)
    requires tr.made0 <= w.made
    ensures tr.made0 <= w.made + [m]
    ensures PairsOf((w.made + [m])[|tr.made0|..]) == PairsOf(w.made[|tr.made0|..]) + [m.pair]
  {
    assert (w.made + [m])[|tr.made0|..] == w.made[|tr.made0|..] + [m];
  }

  lemma CallKeeps(tr: Trial, w: World, i: nat)
    requires tr.Sound() && tr.At(w, i)
    requires !w.passes[i].phase.Scanning? && !w.passes[i].phase.Ranging?
    ensures tr.At(CallOf(w, i, w.passes[i]), i)
  {
    var q, h := w.passes[i], CallOf(w, i, w.passes[i]);
    var pairs := PairsOf(w.made[|tr.made0|..]);
    NoPutBack(tr, q, w.rating, w.time, pairs);
    hide Trial.Underway, Trial.Sound, PairsOf;
    match q.phase
    case TakingA(_, _, _, _) =>
      TakeAKeeps(tr, q, w.rating, w.time, pairs);
      SameMade(tr, w, h, i);
    case ClearingA(_, _, _, _) =>
      ClearAKeeps(tr, q, w.rating, w.time, pairs);
      SameMade(tr, w, h, i);
    case TakingB(_, _, _, _) =>
      TakeBKeeps(tr, q, w.rating, w.time, pairs);
      SameMade(tr, w, h, i);
    case ClearingB(a, b) =>
      ClearBKeeps(tr, q, w.rating, w.time, pairs);
      OneMade(tr, w, Match(i, Pair(a, b)));
    case _ =>
  }

  lemma NoPutBack(tr: Trial, q: Pass, rating: Scores, time: Scores, pairs: seq<Pair>)
    requires tr.Underway(q, rating, time, pairs)
    ensures !q.phase.PuttingBack? && !q.phase.PuttingBackTime? && !q.phase.Unborn?
  {
    hide Trial.Good, Trial.Ready, Trial.Chosen;
  }

  lemma SameMade(tr: Trial, w: World, h: World, i: nat)
    requires tr.made0 <= w.made && h.made == w.made + [] && i < |h.passes|
    requires tr.Underway(h.passes[i], h.rating, h.time, PairsOf(w.made[|tr.made0|..]))
    ensures tr.At(h, i)
  {
    hide Trial.Underway;
    assert h.made == w.made;
  }

  // ---------------------------------------------------------------- the whole pass

  /** A step of this pass, after its range query over the batch. */
  predicate OwnStep(s: Step, i: nat) {
    (s.Score? && s.i == i) || (s.Range? && s.i == i) || (s.Call? && s.i == i)
  }

  lemma OwnScoreKeeps(tr: Trial, w: World, i: nat)
    requires tr.Sound() && tr.At(w, i) && Enabled(tr.cfg, w, Score(i))
    ensures tr.At(MatchRace.After(w, Score(i)), i)
  {
    hide Trial.Underway, Trial.Sound, PairsOf, CallOf, IsLowest, Between, Window, Opponent, IsQueueHead;
    ScoreKeeps(tr, w.passes[i], w.rating, w.time, PairsOf(w.made[|tr.made0|..]));
  }

  lemma OwnRangeKeeps(tr: Trial, w: World, i: nat, ids: seq<string>)
    requires tr.Sound() && tr.At(w, i) && Enabled(tr.cfg, w, Range(i, ids))
    ensures tr.At(MatchRace.After(w, Range(i, ids)), i)
  {
    hide Trial.Underway, Trial.Sound, PairsOf, CallOf, IsLowest, Between, Window, Opponent, IsQueueHead;
    var pairs := PairsOf(w.made[|tr.made0|..]);
    SameNow(tr, w.passes[i], w.rating, w.time, pairs);
    RangeKeeps(tr, w.passes[i], w.rating, w.time, pairs, ids);
  }

  lemma OwnStepKeeps(tr: Trial, w: World, s: Step, i: nat)
    requires tr.Sound() && tr.At(w, i) && OwnStep(s, i) && Enabled(tr.cfg, w, s)
    ensures tr.At(MatchRace.After(w, s), i)
  {
    hide Trial.At, Trial.Sound, CallOf, IsLowest, Between, Window, Opponent, IsQueueHead;
    if s.Score? {
      OwnScoreKeeps(tr, w, i);
    } else if s.Range? {
      OwnRangeKeeps(tr, w, i, s.ids);
    } else {
      CallKeeps(tr, w, i);
    }
  }

  lemma SameNow(tr: Trial, q: Pass, rating: Scores, time: Scores, pairs: seq<Pair>)
    requires tr.Underway(q, rating, time, pairs)
    ensures q.now == tr.now
  {
  }

  lemma ScanStarts(tr: Trial, w: World, i: nat)
    requires tr.Sound() && i < |w.passes| && w.passes[i].phase.Unborn?
    requires w.rating == tr.rating0 && w.time == tr.time0 && w.made == tr.made0
    ensures tr.At(MatchRace.After(w, Scan(i, tr.now, tr.zs)), i)
  {
    hide IsQueueHead, Window;
    NobodySettled(tr.cfg, w.rating, w.time, tr.now);
    assert tr.Met()[..0] == [] && w.made[|tr.made0|..] == [] && PairsOf([]) == [];
    assert tr.zs[0..] == tr.zs;
    assert Conserved(tr.rating0, tr.time0, w.rating, w.time, []);
    assert Settled(tr.cfg, w.rating, w.time, tr.now, tr.Met()[..0]);
  }

  lemma {:induction false} PassUnderway(tr: Trial, w: World, steps: seq<Step>, i: nat)
    requires tr.Sound() && i < |w.passes| && w.passes[i].phase.Unborn?
    requires w.rating == tr.rating0 && w.time == tr.time0 && w.made == tr.made0
    requires steps != [] && steps[0] == Scan(i, tr.now, tr.zs) && IsRun(tr.cfg, w, steps)
    requires forall k :: 0 < k < |steps| ==> OwnStep(steps[k], i)
    ensures tr.At(Reached(w, steps), i)
  {
    hide Trial.At, Trial.Sound, MatchRace.After, Enabled, OwnStep;
    var n := |steps| - 1;
    if n == 0 {
      assert steps[..0] == [];
      ScanStarts(tr, w, i);
    } else {
      RunPrefix(tr.cfg, w, steps, n);
      PassUnderway(tr, w, steps[..n], i);
      OwnStepKeeps(tr, Reached(w, steps[..n]), steps[n], i);
    }
  }

  lemma PassDone(tr: Trial, rating: Scores, time: Scores, pairs: seq<Pair>, paired: set<string>)
    requires tr.Sound() && tr.Good(|tr.zs|, rating, time, pairs, paired)
    ensures PassResult(tr.cfg, tr.now, tr.rating0, tr.time0, tr.Met(), rating, time, pairs)
  {
    assert tr.Met()[..|tr.zs|] == tr.Met();
    hide IsLowest, Conserved, GreedyPass, Settled, GoodPair;
    forall k | 0 <= k < |pairs|
      ensures GoodPair(tr.cfg, tr.rating0, tr.time0, tr.now, pairs[k])
    {
      GreedyIsGood(tr.cfg, tr.now, tr.rating0, tr.time0, tr.Met(), BatchLimit(tr.cfg), pairs, k);
    }
  }

  lemma BatchDone(tr: Trial, w: World, i: nat)
    requires tr.Sound() && tr.At(w, i) && w.passes[i].phase.Scanning? && w.passes[i].rest == []
    ensures PassResult(tr.cfg, tr.now, tr.rating0, tr.time0, tr.Met(), w.rating, w.time, PairsOf(w.made[|tr.made0|..]))
  {
    hide Trial.Good, Trial.Sound;
    PassDone(tr, w.rating, w.time, PairsOf(w.made[|tr.made0|..]), w.passes[i].paired);
    hide PassResult;
  }

  /**
   A pass whose calls follow one another with nothing in between, once it has
   worked off its batch, has the result of the single pass.
   */
  lemma AloneAsSpecified(cfg: Config, w: World, steps: seq<Step>, i: nat, now: real, zs: seq<(string, real)>)
    requires i < |w.passes| && w.passes[i].phase.Unborn? && InSync(w.rating, w.time)
    requires steps != [] && steps[0] == Scan(i, now, zs) && IsRun(cfg, w, steps)
    requires forall k :: 0 < k < |steps| ==> OwnStep(steps[k], i)
    ensures var h := Reached(w, steps);
            && i < |h.passes| && w.made <= h.made
            && (h.passes[i].phase.Scanning? && h.passes[i].rest == [] ==>
                    PassResult(cfg, now, w.rating, w.time, Ids(zs), h.rating, h.time, PairsOf(h.made[|w.made|..])))
  {
    var tr := Trial(cfg, now, w.rating, w.time, zs, w.made);
    assert Enabled(cfg, Reached(w, steps[..0]), steps[0]) && steps[..0] == [];
    assert tr.Sound();
    hide IsRun, OwnStep, MatchRace.After, Enabled, Reached, Trial.Sound, PassResult, Trial.Underway;
    PassUnderway(tr, w, steps, i);
    var h := Reached(w, steps);
    if h.passes[i].phase.Scanning? && h.passes[i].rest == [] {
      BatchDone(tr, h, i);
    }
  }

  // ---------------------------------------------------------------- it gets there

  /** A range query always has an answer. */
  lemma {:induction false} SomeLowest(m: Scores, limit: nat) returns (ids: seq<string>)
    ensures IsLowest(ids, m, limit)
  {
    if limit == 0 {
      return [];
    }
    ids := SomeLowest(m, limit - 1);
    var rest := set p | p in m && p !in ids;
    assert forall p :: p in m && p !in ids ==> p in rest;
    if |ids| == limit - 1 && rest != {} {
      LowestExists(m, rest);
      var x :| x in rest && forall p :: p in rest ==> m[x] <= m[p];
      ids := ids + [x];
    }
  }

  /** A bound on the calls a pass still has to make. */
  function Work(q: Pass): nat {
    7 * |q.rest| +
    match q.phase
    case Ranging(_, _, _) => 6
    case TakingA(_, _, _, _) => 5
    case ClearingA(_, _, _, _) => 4
    case TakingB(_, _, _, _) => 3
    case ClearingB(_, _) => 2
    case PuttingBack(_, _, _) => 2
    case PuttingBackTime(_, _) => 1
    case _ => 0
  }

  /** A pass that has work left can make its next call, and then has less. */
  lemma NextCall(cfg: Config, w: World, i: nat) returns (s: Step)
    requires i < |w.passes| && !w.passes[i].phase.Unborn?
    requires !(w.passes[i].phase.Scanning? && w.passes[i].rest == [])
    ensures OwnStep(s, i) && Enabled(cfg, w, s)
    ensures Work(MatchRace.After(w, s).passes[i]) < Work(w.passes[i])
  {
    hide IsLowest, Window, Between, Opponent, IsQueueHead, RatingAfter, TimeAfter;
    var q := w.passes[i];
    if q.phase.Scanning? {
      s := Score(i);
    } else if q.phase.Ranging? {
      var reach := Window(cfg, q.now, q.phase.since);
      var ids := SomeLowest(Between(w.rating, q.phase.score - reach, q.phase.score + reach), NEIGHBOURS);
      s := Range(i, ids);
    } else {
      s := Call(i);
    }
  }

  lemma {:induction false} GoesOn(tr: Trial, w: World, steps: seq<Step>, i: nat) returns (all: seq<Step>)
    requires tr.Sound() && IsRun(tr.cfg, w, steps) && tr.At(Reached(w, steps), i)
    requires steps != [] && forall k :: 0 < k < |steps| ==> OwnStep(steps[k], i)
    ensures steps <= all && IsRun(tr.cfg, w, all) && forall k :: 0 < k < |all| ==> OwnStep(all[k], i)
    ensures var h := Reached(w, all); i < |h.passes| && h.passes[i].phase.Scanning? && h.passes[i].rest == []
    decreases Work(Reached(w, steps).passes[i])
  {
    hide IsRun, Enabled, MatchRace.After, OwnStep, Work, Trial.Good, Trial.Sound;
    var h := Reached(w, steps);
    all := steps;
    if !(h.passes[i].phase.Scanning? && h.passes[i].rest == []) {
      assert !h.passes[i].phase.Unborn?;
      var s := NextCall(tr.cfg, h, i);
      OwnStepKeeps(tr, h, s, i);
      hide Trial.At;
      RunExtend(tr.cfg, w, steps, s);
      all := GoesOn(tr, w, steps + [s], i);
    }
  }

  /** A pass that is left alone works off its batch. */
  lemma AloneCompletes(cfg: Config, w: World, i: nat, now: real, zs: seq<(string, real)>) returns (steps: seq<Step>)
    requires i < |w.passes| && w.passes[i].phase.Unborn? && InSync(w.rating, w.time)
    requires IsQueueHead(zs, w.time, BatchLimit(cfg))
    ensures steps != [] && steps[0] == Scan(i, now, zs) && IsRun(cfg, w, steps)
    ensures forall k :: 0 < k < |steps| ==> OwnStep(steps[k], i)
    ensures var h := Reached(w, steps);
            && i < |h.passes| && h.passes[i].phase.Scanning? && h.passes[i].rest == []
            && w.made <= h.made
            && PassResult(cfg, now, w.rating, w.time, Ids(zs), h.rating, h.time, PairsOf(h.made[|w.made|..]))
  {
    var tr := Trial(cfg, now, w.rating, w.time, zs, w.made);
    var s := Scan(i, now, zs);
    assert tr.Sound() && IsRun(cfg, w, []) && Reached(w, []) == w && Enabled(cfg, w, s);
    hide MatchRace.After, Enabled, Trial.At, Trial.Sound, PassResult, IsQueueHead;
    RunExtend(cfg, w, [], s);
    assert [] + [s] == [s];
    ScanStarts(tr, w, i);
    steps := GoesOn(tr, w, [s], i);
    hide IsRun, Reached;
    AloneAsSpecified(cfg, w, steps, i, now, zs);
  }
}
