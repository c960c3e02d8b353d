/**
 When the rating set and the time set fall out of step (internal/match/match.go).
 Every operation changes them in two calls; other calls may come in between.
 */
module MatchStep {
  import opened MatchQueue
  import opened MatchRace
  import opened MatchLeave

  predicate Clears(phase: Phase, p: string) {
    (phase.ClearingA? && phase.a == p) || (phase.ClearingB? && phase.b == p)
  }

  predicate PutsTimeBack(phase: Phase, p: string) {
    phase.PuttingBackTime? && phase.a == p
  }

  /** A pass has removed the player's rating and is about to remove the time. */
  ghost predicate ClearPending(w: World, p: string) {
    exists i :: 0 <= i < |w.passes| && Clears(w.passes[i].phase, p)
  }

  /** A join or a pass has inserted the player's rating and is about to insert the time. */
  ghost predicate InsertPending(w: World, p: string) {
    p in w.joining || exists i :: 0 <= i < |w.passes| && PutsTimeBack(w.passes[i].phase, p)
  }

  /** A player in one set only is so because of an operation that is half done. */
  ghost predicate Explained(w: World, p: string) {
    && (p in w.rating && p !in w.time ==> InsertPending(w, p))
    && (p in w.time && p !in w.rating ==> ClearPending(w, p))
  }

  /** The second half inserts the time of a player whose rating has gone in between. */
  ghost predicate InsertsLateTime(w: World, s: Step, p: string) {
    && ((s.JoinTime? && s.p == p) || (s.Call? && s.i < |w.passes| && PutsTimeBack(w.passes[s.i].phase, p)))
    && p !in w.rating && !ClearPending(w, p)
  }

  /** The second half removes the time of a player whose rating is back, and no insertion of a time is to follow. */
  ghost predicate ClearsNewTime(w: World, s: Step, p: string) {
    && s.Call? && s.i < |w.passes| && Clears(w.passes[s.i].phase, p)
    && p in w.rating && !InsertPending(w, p)
  }

  /** A change of one pass from a phase with nothing pending for the player keeps what the other passes are about to do. */
  lemma PendingElsewhere(w: World, h: World, i: nat, p: string)
    requires i < |w.passes| && |h.passes| == |w.passes| && h.passes == w.passes[i := h.passes[i]]
    requires h.joining == w.joining
    ensures !Clears(w.passes[i].phase, p) && !Clears(h.passes[i].phase, p) ==> (ClearPending(h, p) <==> ClearPending(w, p))
    ensures !PutsTimeBack(w.passes[i].phase, p) && !PutsTimeBack(h.passes[i].phase, p)
            ==> (InsertPending(h, p) <==> InsertPending(w, p))
    ensures Clears(h.passes[i].phase, p) ==> ClearPending(h, p)
    ensures PutsTimeBack(h.passes[i].phase, p) ==> InsertPending(h, p)
  {
    hide Clears, PutsTimeBack;
    if exists j :: 0 <= j < |w.passes| && Clears(w.passes[j].phase, p) {
      var j :| 0 <= j < |w.passes| && Clears(w.passes[j].phase, p);
      assert j != i ==> Clears(h.passes[j].phase, p);
    }
    if exists j :: 0 <= j < |w.passes| && PutsTimeBack(w.passes[j].phase, p) {
      var j :| 0 <= j < |w.passes| && PutsTimeBack(w.passes[j].phase, p);
      assert j != i ==> PutsTimeBack(h.passes[j].phase, p);
    }
  }

  lemma CallOrphans(cfg: Config, w: World, i: nat, p: string)
    requires Enabled(cfg, w, Call(i)) && Explained(w, p)
    ensures !Explained(After(w, Call(i)), p) <==> InsertsLateTime(w, Call(i), p) || ClearsNewTime(w, Call(i), p)
  {
    var h := CallOf(w, i, w.passes[i]);
    CallShape(w, i);
    PendingElsewhere(w, h, i, p);
    hide ClearPending, InsertPending;
    match w.passes[i].phase
    case TakingA(_, _, _, _) =>
    case ClearingA(_, _, _, _) =>
    case TakingB(_, _, _, _) =>
    case ClearingB(_, _) =>
    case PuttingBack(_, _, _) =>
    case _ =>
  }

  lemma ScanOrphans(cfg: Config, w: World, s: Step, p: string)
    requires Enabled(cfg, w, s) && Explained(w, p) && (s.Scan? || s.Score? || s.Range?)
    ensures Explained(After(w, s), p)
  {
    hide IsLowest, IsQueueHead, Between, Window, Opponent;
    PendingElsewhere(w, After(w, s), s.i, p);
    hide ClearPending, InsertPending;
  }

  lemma BeginOrphans(w: World, p: string)
    requires Explained(w, p)
    ensures Explained(After(w, Begin), p)
  {
    var h := After(w, Begin);
    if ClearPending(w, p) {
      var j :| 0 <= j < |w.passes| && Clears(w.passes[j].phase, p);
      assert Clears(h.passes[j].phase, p);
    }
    if exists j :: 0 <= j < |w.passes| && PutsTimeBack(w.passes[j].phase, p) {
      var j :| 0 <= j < |w.passes| && PutsTimeBack(w.passes[j].phase, p);
      assert PutsTimeBack(h.passes[j].phase, p);
    }
  }

  lemma JoinOrphans(cfg: Config, w: World, s: Step, p: string)
    requires Enabled(cfg, w, s) && Explained(w, p) && (s.JoinRating? || s.JoinTime? || s.Leave?)
    ensures !Explained(After(w, s), p) <==> InsertsLateTime(w, s, p)
  {
    var h := After(w, s);
    assert ClearPending(h, p) <==> ClearPending(w, p);
    assert (exists j :: 0 <= j < |w.passes| && PutsTimeBack(w.passes[j].phase, p))
      <==> (exists j :: 0 <= j < |h.passes| && PutsTimeBack(h.passes[j].phase, p));
    hide ClearPending;
  }

  /** One step leaves a player in one set only, with nothing half done to explain it, exactly in these two races. */
  lemma OrphanedIff(cfg: Config, w: World, s: Step, p: string)
    requires Enabled(cfg, w, s) && Explained(w, p)
    ensures !Explained(After(w, s), p) <==> InsertsLateTime(w, s, p) || ClearsNewTime(w, s, p)
  {
    hide Enabled, After, Explained;
    match s
    case Begin => BeginOrphans(w, p);
    case Call(i) => CallOrphans(cfg, w, i, p);
    case JoinRating(_, _) => JoinOrphans(cfg, w, s, p);
    case JoinTime(_, _) => JoinOrphans(cfg, w, s, p);
    case Leave(_) => JoinOrphans(cfg, w, s, p);
    case _ => ScanOrphans(cfg, w, s, p);
  }

  /** Neither race happens to the player. */
  ghost predicate RaceFree(w: World, steps: seq<Step>, p: string) {
    forall k :: 0 <= k < |steps| ==>
                    !InsertsLateTime(Reached(w, steps[..k]), steps[k], p)
                    && !ClearsNewTime(Reached(w, steps[..k]), steps[k], p)
  }

  /** Without these races, a player with nothing half done is in both sets or in neither. */
  lemma {:induction false} InStepUnlessRaced(cfg: Config, steps: seq<Step>, p: string)
    requires IsRun(cfg, EMPTY, steps) && RaceFree(EMPTY, steps, p)
    ensures var w := Reached(EMPTY, steps);
            && Explained(w, p)
            && (!InsertPending(w, p) && !ClearPending(w, p) ==> (p in w.rating <==> p in w.time))
  {
    hide After, Enabled, InsertsLateTime, ClearsNewTime;
    if steps != [] {
      var n := |steps| - 1;
      RunPrefix(cfg, EMPTY, steps, n);
      forall k | 0 <= k < n
        ensures !InsertsLateTime(Reached(EMPTY, steps[..n][..k]), steps[..n][k], p)
        ensures !ClearsNewTime(Reached(EMPTY, steps[..n][..k]), steps[..n][k], p)
      {
        assert steps[..n][..k] == steps[..k];
      }
      hide Reached;
      InStepUnlessRaced(cfg, steps[..n], p);
      OrphanedIff(cfg, Reached(EMPTY, steps[..n]), steps[n], p);
      assert Reached(EMPTY, steps) == After(Reached(EMPTY, steps[..n]), steps[n]) by { ReachedLast(EMPTY, steps); }
    }
  }

  lemma {:induction false} ExplainedUnlessRaced(cfg: Config, steps: seq<Step>, p: string)
    requires IsRun(cfg, EMPTY, steps)
    requires forall k :: 0 <= k <= |steps| ==> Explained(Reached(EMPTY, steps[..k]), p)
    ensures RaceFree(EMPTY, steps, p)
  {
    hide After, Enabled, InsertsLateTime, ClearsNewTime, Explained;
    forall k | 0 <= k < |steps|
      ensures !InsertsLateTime(Reached(EMPTY, steps[..k]), steps[k], p)
      ensures !ClearsNewTime(Reached(EMPTY, steps[..k]), steps[k], p)
    {
      ReachedLast(EMPTY, steps[..k + 1]);
      assert steps[..k + 1][..k] == steps[..k];
      hide Reached;
      OrphanedIff(cfg, Reached(EMPTY, steps[..k]), steps[k], p);
    }
  }

  /** A run is free of these races exactly when at no time anything is left unexplained. */
  lemma RaceFreeIff(cfg: Config, steps: seq<Step>, p: string)
    requires IsRun(cfg, EMPTY, steps)
    ensures RaceFree(EMPTY, steps, p)
       <==> forall k :: 0 <= k <= |steps| ==> Explained(Reached(EMPTY, steps[..k]), p)
  {
    hide Explained, InsertsLateTime, ClearsNewTime, Reached;
    if RaceFree(EMPTY, steps, p) {
      forall k | 0 <= k <= |steps|
        ensures Explained(Reached(EMPTY, steps[..k]), p)
      {
        RunPrefix(cfg, EMPTY, steps, k);
        assert forall j :: 0 <= j < k ==> steps[..k][..j] == steps[..j];
        InStepUnlessRaced(cfg, steps[..k], p);
      }
    } else if forall k :: 0 <= k <= |steps| ==> Explained(Reached(EMPTY, steps[..k]), p) {
      ExplainedUnlessRaced(cfg, steps, p);
    }
  }

  lemma ReachedLast(w: World, steps: seq<Step>)
    requires steps != []
    ensures Reached(w, steps) == After(Reached(w, steps[..|steps| - 1]), steps[|steps| - 1])
  {
  }

  /** Left in the time set: the player leaves between the two insertions of a join. */
  lemma TimeOnly(cfg: Config, p: string) returns (steps: seq<Step>)
    ensures IsRun(cfg, EMPTY, steps)
    ensures var w := Reached(EMPTY, steps); p in w.time && p !in w.rating && !Explained(w, p)
  {
    hide IsRun, Reached;
    NothingYet(cfg, EMPTY, p);
    var w1 := World(map[p := 0.0], map[], [], multiset{p}, multiset{p}, []);
    var w2 := World(map[], map[], [], multiset{p}, multiset{p}, []);
    var w3 := World(map[], map[p := 0.0], [], multiset{}, multiset{p}, []);
    Extends(cfg, [], JoinRating(p, 0.0), EMPTY, w1);
    steps := [] + [JoinRating(p, 0.0)];
    assert map[p := 0.0] - {p} == map[];
    Extends(cfg, steps, Leave(p), w1, w2);
    steps := steps + [Leave(p)];
    Extends(cfg, steps, JoinTime(p, 0.0), w2, w3);
    steps := steps + [JoinTime(p, 0.0)];
  }

  /** Left in the rating set: the player joins again between the two removals of a pass, and keeps the old time until it goes. */
  lemma RatingOnly(cfg: Config) returns (steps: seq<Step>)
    requires PairsAtOnce(cfg)
    ensures IsRun(cfg, EMPTY, steps)
    ensures var w := Reached(EMPTY, steps); "a" in w.rating && "a" !in w.time && !Explained(w, "a")
  {
    hide IsRun, Reached;
    steps := FirstTaken(cfg);
    var all := BOTH + multiset{"a"};
    var w1 := HOLDING.(rating := HOLDING.rating["a" := 0.0], joining := multiset{"a"}, inserted := all);
    Extends(cfg, steps, JoinRating("a", 0.0), HOLDING, w1);
    steps := steps + [JoinRating("a", 0.0)];
    var w2 := w1.(joining := multiset{});
    Extends(cfg, steps, JoinTime("a", 0.0), w1, w2);
    steps := steps + [JoinTime("a", 0.0)];
    var w3 := w2.(time := TWO - {"a"}, passes := [Pass(0.0, [("b", 0.0)], {}, TakingB("a", 0.0, 0.0, "b"))]);
    Extends(cfg, steps, Call(0), w2, w3);
    steps := steps + [Call(0)];
  }
}
