/**
 When leaving the queue is final (internal/match/match.go). A call that was only
 half done when a player left may still bring them back: a join between its two
 insertions, or a pass that has taken the player out.
 */
module MatchLeave {
  import opened MatchQueue
  import opened MatchRace

  /** The pass holds the player, or is about to put their queue time back. */
  predicate MayReturn(phase: Phase, p: string) {
    p in Claims(phase) || (phase.PuttingBackTime? && phase.a == p)
  }

  /** No join of the player is half done, and no pass holds them or is half done putting them back. */
  ghost predicate NothingPending(w: World, p: string) {
    p !in w.joining && forall i :: 0 <= i < |w.passes| ==> !MayReturn(w.passes[i].phase, p)
  }

  /** No new join of the player begins. */
  ghost predicate NeverJoins(steps: seq<Step>, p: string) {
    forall k :: 0 <= k < |steps| && steps[k].JoinRating? ==> steps[k].p != p
  }

  /** The player is out of both sets, and in no pair made since `w`. */
  ghost predicate StaysOut(w: World, h: World, p: string) {
    p !in h.rating && p !in h.time && PairCount(h.made, p) == PairCount(w.made, p)
  }

  lemma CallShape(w: World, i: nat)
    requires i < |w.passes|
    ensures var h := CallOf(w, i, w.passes[i]);
            |h.passes| == |w.passes| && h.passes == w.passes[i := h.passes[i]]
  {
    match w.passes[i].phase
    case TakingA(_, _, _, _) =>
    case _ =>
  }

  /** A pass takes hold only of players it finds in the rating set, and inserts only players it holds. */
  lemma CallTakesWaiting(w: World, i: nat, p: string)
    requires i < |w.passes| && p !in w.rating && p !in w.time && !MayReturn(w.passes[i].phase, p)
    ensures var h := CallOf(w, i, w.passes[i]);
            && p !in h.rating && p !in h.time && h.joining == w.joining
            && |h.passes| == |w.passes| && !MayReturn(h.passes[i].phase, p)
  {
    match w.passes[i].phase
    case TakingA(_, _, _, _) =>
    case ClearingA(_, _, _, _) =>
    case TakingB(_, _, _, _) =>
    case ClearingB(_, _) =>
    case PuttingBack(_, _, _) =>
    case _ =>
  }

  lemma CallPairsHeld(w: World, i: nat, p: string)
    requires i < |w.passes| && !MayReturn(w.passes[i].phase, p)
    ensures PairCount(CallOf(w, i, w.passes[i]).made, p) == PairCount(w.made, p)
  {
    var more := MadeBy(i, w.passes[i].phase);
    if more == [] {
      assert w.made + more == w.made;
    } else {
      assert (w.made + more)[..|w.made|] == w.made;
    }
  }

  lemma CallStaysOut(w: World, i: nat, p: string)
    requires i < |w.passes| && p !in w.rating && p !in w.time && NothingPending(w, p)
    ensures var h := CallOf(w, i, w.passes[i]); StaysOut(w, h, p) && NothingPending(h, p)
  {
    CallShape(w, i);
    CallTakesWaiting(w, i, p);
    CallPairsHeld(w, i, p);
    hide CallOf, PairCount, MayReturn;
  }

  /** Reading and choosing puts no player in the pass's hands. */
  lemma ScanStaysOut(cfg: Config, w: World, s: Step, p: string)
    requires Enabled(cfg, w, s) && (s.Scan? || s.Score? || s.Range?)
    requires p !in w.rating && p !in w.time && NothingPending(w, p)
    ensures StaysOut(w, After(w, s), p) && NothingPending(After(w, s), p)
  {
    hide Opponent, IsLowest, IsQueueHead, Between, Window, PairCount;
    var h := After(w, s);
    assert !MayReturn(h.passes[s.i].phase, p);
    hide MayReturn;
  }

  lemma StepStaysOut(cfg: Config, w: World, s: Step, p: string)
    requires Enabled(cfg, w, s) && !(s.JoinRating? && s.p == p)
    requires p !in w.rating && p !in w.time && NothingPending(w, p)
    ensures StaysOut(w, After(w, s), p) && NothingPending(After(w, s), p)
  {
    hide CallOf, Opponent, IsLowest, IsQueueHead, Between, Window, PairCount;
    if s.Call? {
      CallStaysOut(w, s.i, p);
    } else if s.Scan? || s.Score? || s.Range? {
      ScanStaysOut(cfg, w, s, p);
    } else if s.Begin? {
      assert !MayReturn(Unborn, p);
      hide MayReturn;
    } else {
      hide MayReturn;
    }
  }

  /** A player who is out, with nothing pending, stays out until they join again. */
  lemma {:induction false} RunStaysOut(cfg: Config, w: World, steps: seq<Step>, p: string)
    requires p !in w.rating && p !in w.time && NothingPending(w, p)
    requires IsRun(cfg, w, steps) && NeverJoins(steps, p)
    ensures StaysOut(w, Reached(w, steps), p) && NothingPending(Reached(w, steps), p)
  {
    hide After, Enabled, NothingPending, PairCount;
    if steps != [] {
      var n := |steps| - 1;
      RunPrefix(cfg, w, steps, n);
      RunStaysOut(cfg, w, steps[..n], p);
      StepStaysOut(cfg, Reached(w, steps[..n]), steps[n], p);
    }
  }

  /** How many calls a pass is away from pairing or putting back whom it holds. */
  function CallsLeft(p: Phase): nat {
    match p
    case ClearingA(_, _, _, _) => 3
    case TakingB(_, _, _, _) => 2
    case _ => 1
  }

  lemma PairCounted(made: seq<Match>, m: Match, p: string)
    requires p == m.pair.a || p == m.pair.b
    ensures PairCount(made + [m], p) == PairCount(made, p) + 1
  {
    assert (made + [m])[..|made|] == made;
  }

  lemma HolderPairs(w: World, i: nat, p: string)
    requires i < |w.passes| && MayReturn(w.passes[i].phase, p) && w.passes[i].phase.ClearingB?
    ensures PairCount(CallOf(w, i, w.passes[i]).made, p) > PairCount(w.made, p)
  {
    hide PairCount;
    var phase := w.passes[i].phase;
    PairCounted(w.made, Match(i, Pair(phase.a, phase.b)), p);
  }

  /** One call brings a pass nearer to pairing or putting back the player it holds. */
  lemma HolderStep(w: World, i: nat, p: string)
    requires i < |w.passes| && MayReturn(w.passes[i].phase, p) && !w.passes[i].phase.ClearingB?
    ensures var h, phase := CallOf(w, i, w.passes[i]), w.passes[i].phase;
            && h.made == w.made && i < |h.passes|
            && if phase.PuttingBack? then p in h.rating
               else if phase.PuttingBackTime? then p in h.time
               else MayReturn(h.passes[i].phase, p) && CallsLeft(h.passes[i].phase) < CallsLeft(phase)
  {
    match w.passes[i].phase
    case ClearingA(_, _, _, _) =>
    case TakingB(_, _, _, _) =>
    case PuttingBack(_, _, _) =>
    case _ =>
  }

  /** Left to itself, a pass that holds a player puts them back or pairs them. */
  lemma {:induction false} HolderGoesOn(cfg: Config, w: World, steps: seq<Step>, i: nat, p: string)
    returns (all: seq<Step>)
    requires IsRun(cfg, w, steps) && NeverJoins(steps, p)
    requires var h := Reached(w, steps);
             h.made == w.made && i < |h.passes| && MayReturn(h.passes[i].phase, p)
    ensures IsRun(cfg, w, all) && NeverJoins(all, p) && !StaysOut(w, Reached(w, all), p)
    decreases CallsLeft(Reached(w, steps).passes[i].phase)
  {
    hide IsRun, CallOf, CallsLeft, PairCount, Opponent;
    var h := Reached(w, steps);
    if h.passes[i].phase.ClearingB? {
      HolderPairs(h, i, p);
    } else {
      HolderStep(h, i, p);
    }
    assert Enabled(cfg, h, Call(i));
    hide MayReturn, Enabled;
    RunExtend(cfg, w, steps, Call(i));
    all := steps + [Call(i)];
    assert Reached(w, all) == CallOf(h, i, h.passes[i]);
    if StaysOut(w, Reached(w, all), p) {
      all := HolderGoesOn(cfg, w, all, i, p);
    }
  }

  /**
   A player who leaves and begins no new join stays out of both sets and of
   every later pair, whatever the others do, exactly when at that moment no join
   of theirs is half done and no pass holds them or is half done putting them
   back.
   */
  lemma LeaveFinalIff(cfg: Config, w: World, p: string)
    ensures var v := After(w, Leave(p));
            NothingPending(w, p) <==>
            (forall steps :: IsRun(cfg, v, steps) && NeverJoins(steps, p) ==> StaysOut(v, Reached(v, steps), p))
  {
    hide IsRun, NeverJoins, StaysOut, MayReturn, Reached;
    var v := After(w, Leave(p));
    assert v.passes == w.passes && v.joining == w.joining && p !in v.rating && p !in v.time;
    hide After;
    if NothingPending(w, p) {
      forall steps | IsRun(cfg, v, steps) && NeverJoins(steps, p)
        ensures StaysOut(v, Reached(v, steps), p)
      {
        RunStaysOut(cfg, v, steps, p);
      }
    } else {
      PendingComesBack(cfg, v, p);
    }
  }

  lemma PendingComesBack(cfg: Config, w: World, p: string)
    requires !NothingPending(w, p)
    ensures exists steps :: IsRun(cfg, w, steps) && NeverJoins(steps, p) && !StaysOut(w, Reached(w, steps), p)
  {
    NothingYet(cfg, w, p);
    if p in w.joining {
      JoinGoesOn(cfg, w, p);
    } else {
      var i: nat :| i < |w.passes| && MayReturn(w.passes[i].phase, p);
      hide IsRun, NeverJoins, StaysOut, MayReturn;
      var all := HolderGoesOn(cfg, w, [], i, p);
    }
  }

  lemma JoinGoesOn(cfg: Config, w: World, p: string)
    requires p in w.joining
    ensures exists steps :: IsRun(cfg, w, steps) && NeverJoins(steps, p) && !StaysOut(w, Reached(w, steps), p)
  {
    NothingYet(cfg, w, p);
    var s := JoinTime(p, 0.0);
    RunExtend(cfg, w, [], s);
    assert p in Reached(w, [] + [s]).time;
    assert NeverJoins([] + [s], p);
  }

  lemma NothingYet(cfg: Config, w: World, p: string)
    ensures IsRun(cfg, w, []) && NeverJoins([], p) && Reached(w, []) == w
  {
  }

  // ---------------------------------------------------------------- a run in which leaving is not final

  /** Two players with equal ratings are within reach of each other, and in one batch. */
  predicate PairsAtOnce(cfg: Config) {
    cfg.baseWindow >= 0.0 && cfg.maxWindow >= 0.0 && cfg.batch != 1
  }

  lemma Extends(cfg: Config, steps: seq<Step>, s: Step, w: World, h: World)
    requires IsRun(cfg, EMPTY, steps) && Reached(EMPTY, steps) == w && Enabled(cfg, w, s) && After(w, s) == h
    ensures IsRun(cfg, EMPTY, steps + [s]) && Reached(EMPTY, steps + [s]) == h
  {
    hide IsRun, Enabled, After;
    RunExtend(cfg, EMPTY, steps, s);
  }

  const TWO := map["a" := 0.0, "b" := 0.0]
  const BOTH := multiset{"a", "b"}

  /** Both players wait and no pass runs yet. */
  function Waiting(passes: seq<Pass>): World {
    World(TWO, TWO, passes, multiset{}, BOTH, [])
  }

  /** The pass has taken "a" out of the rating set. */
  const HOLDING := World(map["b" := 0.0], TWO, [Pass(0.0, [("b", 0.0)], {}, ClearingA("a", 0.0, 0.0, "b"))],
                         multiset{}, BOTH, [])

  lemma BothJoin(cfg: Config) returns (steps: seq<Step>)
    ensures IsRun(cfg, EMPTY, steps) && Reached(EMPTY, steps) == Waiting([])
  {
    hide IsRun, Reached;
    var w1 := World(map["a" := 0.0], map[], [], multiset{"a"}, multiset{"a"}, []);
    var w2 := World(map["a" := 0.0], map["a" := 0.0], [], multiset{}, multiset{"a"}, []);
    var w3 := World(TWO, map["a" := 0.0], [], multiset{"b"}, BOTH, []);
    NothingYet(cfg, EMPTY, "");
    Extends(cfg, [], JoinRating("a", 0.0), EMPTY, w1);
    steps := [] + [JoinRating("a", 0.0)];
    Extends(cfg, steps, JoinTime("a", 0.0), w1, w2);
    steps := steps + [JoinTime("a", 0.0)];
    assert w2.rating["b" := 0.0] == TWO;
    Extends(cfg, steps, JoinRating("b", 0.0), w2, w3);
    steps := steps + [JoinRating("b", 0.0)];
    assert w3.time["b" := 0.0] == TWO;
    Extends(cfg, steps, JoinTime("b", 0.0), w3, Waiting([]));
    steps := steps + [JoinTime("b", 0.0)];
  }

  lemma BothScanned(cfg: Config)
    requires PairsAtOnce(cfg)
    ensures IsQueueHead([("a", 0.0), ("b", 0.0)], TWO, BatchLimit(cfg))
  {
    var zs := [("a", 0.0), ("b", 0.0)];
    assert Ids(zs) == ["a", "b"];
  }

  lemma BothInRange(cfg: Config)
    requires PairsAtOnce(cfg)
    ensures var reach := Window(cfg, 0.0, 0.0); IsLowest(["a", "b"], Between(TWO, 0.0 - reach, 0.0 + reach), NEIGHBOURS)
  {
    assert Widened(cfg.widenPerSec, 0.0 - 0.0) == 0.0;
    hide Widened;
    assert Between(TWO, 0.0 - Window(cfg, 0.0, 0.0), 0.0 + Window(cfg, 0.0, 0.0)) == TWO;
    assert ["a", "b"][0] == "a" && ["a", "b"][1] == "b";
  }

  /** A pass scans the two and takes the first. */
  lemma FirstTaken(cfg: Config) returns (steps: seq<Step>)
    requires PairsAtOnce(cfg)
    ensures IsRun(cfg, EMPTY, steps) && Reached(EMPTY, steps) == HOLDING
  {
    hide IsRun, Reached, IsQueueHead, IsLowest, Between, Window;
    var zs := [("a", 0.0), ("b", 0.0)];
    BothScanned(cfg);
    BothInRange(cfg);
    steps := BothJoin(cfg);
    Extends(cfg, steps, Begin, Waiting([]), Waiting([Pass(0.0, [], {}, Unborn)]));
    steps := steps + [Begin];
    var w1 := Waiting([Pass(0.0, zs, {}, Scanning)]);
    Extends(cfg, steps, Scan(0, 0.0, zs), Waiting([Pass(0.0, [], {}, Unborn)]), w1);
    steps := steps + [Scan(0, 0.0, zs)];
    assert zs[1..] == [("b", 0.0)];
    var w2 := Waiting([Pass(0.0, zs[1..], {}, Ranging("a", 0.0, 0.0))]);
    Extends(cfg, steps, Score(0), w1, w2);
    steps := steps + [Score(0)];
    assert Opponent(["a", "b"], "a", {}) == "b" by { assert ["a", "b"][1..] == ["b"]; }
    hide Opponent;
    var w3 := Waiting([Pass(0.0, zs[1..], {}, TakingA("a", 0.0, 0.0, "b"))]);
    Extends(cfg, steps, Range(0, ["a", "b"]), w2, w3);
    steps := steps + [Range(0, ["a", "b"])];
    assert TWO - {"a"} == map["b" := 0.0];
    Extends(cfg, steps, Call(0), w3, HOLDING);
    steps := steps + [Call(0)];
  }

  /** A player leaves while a pass holds them, and is paired afterwards. */
  lemma PairedAfterLeaving(cfg: Config) returns (before: seq<Step>, after: seq<Step>)
    requires PairsAtOnce(cfg)
    ensures IsRun(cfg, EMPTY, before + [Leave("a")] + after) && NeverJoins(after, "a")
    ensures Reached(EMPTY, before).made == []
    ensures Reached(EMPTY, before + [Leave("a")] + after).made == [Match(0, Pair("a", "b"))]
  {
    hide IsRun, Reached, Opponent;
    before := FirstTaken(cfg);
    after := [Call(0), Call(0), Call(0)];
    var left := HOLDING.(time := map["b" := 0.0]);
    assert TWO - {"a"} == map["b" := 0.0] && map["b" := 0.0] - {"a"} == map["b" := 0.0];
    Extends(cfg, before, Leave("a"), HOLDING, left);
    var rest := [("b", 0.0)];
    var steps := before + [Leave("a")];
    var w1 := left.(passes := [Pass(0.0, rest, {}, TakingB("a", 0.0, 0.0, "b"))]);
    Extends(cfg, steps, Call(0), left, w1);
    steps := steps + [Call(0)];
    var w2 := left.(rating := map[], passes := [Pass(0.0, rest, {}, ClearingB("a", "b"))]);
    Extends(cfg, steps, Call(0), w1, w2);
    steps := steps + [Call(0)];
    var w3 := World(map[], map[], [Pass(0.0, rest, {"a", "b"}, Scanning)], multiset{}, BOTH,
                    [Match(0, Pair("a", "b"))]);
    assert map["b" := 0.0] - {"b"} == map[];
    assert {} + {"a", "b"} == {"a", "b"};
    Extends(cfg, steps, Call(0), w2, w3);
    steps := steps + [Call(0)];
    assert steps == before + [Leave("a")] + after;
  }
}
