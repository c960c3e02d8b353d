/**
 Replaying a battle from its seed, opening decks and accepted actions
 (internal/battle/replay.go).
 */
module BattleReplay {
  import opened Deck
  import opened Battle
  import opened BattleRuns
  import opened BattleEngine

  /** The intents that were accepted, in order: what a battle log keeps. */
  function AcceptedMoves(cat: Catalog, g: Game, ms: seq<Move>): seq<Move> {
    if ms == [] then []
    else
      var n := |ms| - 1;
      AcceptedMoves(cat, g, ms[..n]) + if Try(cat, Run(cat, g, ms[..n]), ms[n]).Accepted? then [ms[n]] else []
  }

  /** The opening position followed by the position after each accepted intent. */
  function LiveStates(cat: Catalog, g: Game, ms: seq<Move>): (r: seq<Game>)
    ensures r != []
  {
    if ms == [] then [g]
    else
      var n := |ms| - 1;
      LiveStates(cat, g, ms[..n])
      + if Try(cat, Run(cat, g, ms[..n]), ms[n]).Accepted? then [Run(cat, g, ms)] else []
  }

  ghost predicate AllAccepted(cat: Catalog, g: Game, ms: seq<Move>) {
    forall k :: 0 <= k < |ms| ==> Try(cat, Run(cat, g, ms[..k]), ms[k]).Accepted?
  }

  lemma ExtendAccepted(cat: Catalog, g: Game, ms: seq<Move>, m: Move)
    requires AllAccepted(cat, g, ms) && Try(cat, Run(cat, g, ms), m).Accepted?
    ensures AllAccepted(cat, g, ms + [m])
    ensures Run(cat, g, ms + [m]) == Try(cat, Run(cat, g, ms), m).game
    ensures LiveStates(cat, g, ms + [m]) == LiveStates(cat, g, ms) + [Try(cat, Run(cat, g, ms), m).game]
  {
    hide Step;
    var xs := ms + [m];
    assert xs[..|ms|] == ms;
    forall k | 0 <= k < |xs|
      ensures Try(cat, Run(cat, g, xs[..k]), xs[k]).Accepted?
    {
      if k < |ms| {
        assert xs[..k] == ms[..k];
      }
    }
  }

  /**
   Determinism: replaying only the accepted intents is never rejected, and passes
   through exactly the live positions.
   */
  lemma {:induction false} ReplayReproduces(cat: Catalog, g: Game, ms: seq<Move>)
    ensures var kept := AcceptedMoves(cat, g, ms);
            && AllAccepted(cat, g, kept)
            && Run(cat, g, kept) == Run(cat, g, ms)
            && LiveStates(cat, g, kept) == LiveStates(cat, g, ms)
  {
    hide Step;
    if ms != [] {
      var n := |ms| - 1;
      var kept := AcceptedMoves(cat, g, ms[..n]);
      ReplayReproduces(cat, g, ms[..n]);
      if Try(cat, Run(cat, g, ms[..n]), ms[n]).Accepted? {
        assert AcceptedMoves(cat, g, ms) == kept + [ms[n]];
        ExtendAccepted(cat, g, kept, ms[n]);
      } else {
        assert AcceptedMoves(cat, g, ms) == kept;
        assert LiveStates(cat, g, ms) == LiveStates(cat, g, ms[..n]);
      }
    }
  }

  lemma {:induction false} LiveStatesOfAccepted(cat: Catalog, g: Game, ms: seq<Move>, k: nat)
    requires AllAccepted(cat, g, ms) && k <= |ms|
    ensures |LiveStates(cat, g, ms)| == |ms| + 1
    ensures LiveStates(cat, g, ms)[k] == Run(cat, g, ms[..k])
  {
    hide Step;
    if ms == [] {
      assert ms[..k] == ms;
    } else {
      var n := |ms| - 1;
      forall j | 0 <= j < n
        ensures Try(cat, Run(cat, g, ms[..n][..j]), ms[..n][j]).Accepted?
      {
        assert ms[..n][..j] == ms[..j];
      }
      LiveStatesOfAccepted(cat, g, ms[..n], if k <= n then k else n);
      assert if k <= n then ms[..n][..k] == ms[..k] else ms[..k] == ms;
      assert Try(cat, Run(cat, g, ms[..n]), ms[n]).Accepted?;
    }
  }

  datatype ReplayStatus = Completed | CannotStart(error: InitError) | RejectedAt(step: nat, code: Code)

  /** Step `i` is the first one the rules refuse. */
  ghost predicate FirstRefusal(cat: Catalog, g: Game, steps: seq<Move>, i: nat, code: Code) {
    && i < |steps| && AllAccepted(cat, g, steps[..i])
    && Try(cat, Run(cat, g, steps[..i]), steps[i]) == Rejected(code)
  }

  /**
   Rebuilds the battle and applies the steps in order, stopping at the first one
   refused. `seen` is what the per-step callback observes.
   */
  method Replay(rng: Rng, roomId: string, cat: Option<Catalog>, a: PlayerInit, b: PlayerInit, seed: int,
                steps: seq<Move>)
    returns (s: State?, status: ReplayStatus, seen: seq<Game>)
    ensures status.CannotStart? <==> CheckInit(cat, a, b).Some?
    ensures status.CannotStart? ==> CheckInit(cat, a, b) == Some(status.error) && s == null && seen == []
    ensures !status.CannotStart? ==> s != null && s.Valid()
    ensures status.Completed? ==>
              var g := Opening(rng, a, b, seed);
              && AllAccepted(cat.value, g, steps)
              && s.Snapshot() == Run(cat.value, g, steps) && seen == LiveStates(cat.value, g, steps)
    ensures status.RejectedAt? ==>
              var g := Opening(rng, a, b, seed);
              && FirstRefusal(cat.value, g, steps, status.step, status.code)
              && s.Snapshot() == Run(cat.value, g, steps[..status.step])
              && seen == LiveStates(cat.value, g, steps[..status.step])
  {
    hide Step;
    var err;
    s, err := NewState(rng, roomId, cat, a, b, seed);
    if s == null {
      return null, CannotStart(err.value), [];
    }
    ghost var g := s.Snapshot();
    seen := [Observe(s)];
    for i := 0 to |steps|
      invariant fresh(s.Repr) && s.Valid()
      invariant AllAccepted(cat.value, g, steps[..i])
      invariant s.Snapshot() == Run(cat.value, g, steps[..i])
      invariant seen == LiveStates(cat.value, g, steps[..i])
    {
      var refused := s.Apply(steps[i].player, steps[i].action);
      if refused.Some? {
        return s, RejectedAt(i, refused.value), seen;
      }
      ExtendAccepted(cat.value, g, steps[..i], steps[i]);
      assert steps[..i + 1] == steps[..i] + [steps[i]];
      seen := seen + [Observe(s)];
    }
    assert steps[..|steps|] == steps;
    status := Completed;
  }

  /** A copy of the whole position, independent of later changes to the objects. */
  function Observe(s: State): (g: Game)
    requires s.Valid()
    reads s.Repr
    ensures g == s.Snapshot()
  {
    Game(ObservePlayer(s.p0), ObservePlayer(s.p1), s.turn, s.round, s.over, s.winner, s.nextInst)
  }

  function ObservePlayer(p: Player): (v: PlayerState)
    requires p.Valid()
    reads p, p.board
    ensures v == p.Value()
  {
    PlayerState(p.id, p.hp, p.mana, p.maxMana, p.deck, p.hand, p.board[..p.size], p.fatigue)
  }

  lemma PrefixAccepted(cat: Catalog, g: Game, steps: seq<Move>, i: nat, j: nat)
    requires i < j <= |steps| && AllAccepted(cat, g, steps[..j])
    ensures Try(cat, Run(cat, g, steps[..i]), steps[i]).Accepted?
  {
    hide Step;
    assert steps[..j][..i] == steps[..i] && steps[..j][i] == steps[i];
  }

  /** At most one step can be the first refused, and none is when all are accepted. */
  lemma RefusalIsUnique(cat: Catalog, g: Game, steps: seq<Move>, i: nat, j: nat, c: Code, d: Code)
    requires FirstRefusal(cat, g, steps, i, c)
    ensures FirstRefusal(cat, g, steps, j, d) ==> i == j && c == d
    ensures !AllAccepted(cat, g, steps)
  {
    hide Step;
    if FirstRefusal(cat, g, steps, j, d) {
      if i < j {
        PrefixAccepted(cat, g, steps, i, j);
      } else if j < i {
        PrefixAccepted(cat, g, steps, j, i);
      }
    }
  }
}
