/**
 Every battle ends: an attained bound on the rounds and a bound on the accepted
 actions, both computable from the opening deck sizes.
 */
module BattleBounds {
  import opened Deck
  import opened Battle
  import opened BattleRuns

  /** The last half-round a battle can reach. */
  function RoundLimit(s: Setup): int {
    Min(2 * |s.a.cards| + 5, 2 * |s.b.cards| + 6)
  }

  lemma WithinLimit(s: Setup, g: Game)
    requires Inv(g, s.a, s.b)
    ensures g.round <= RoundLimit(s)
    ensures g.round == RoundLimit(s) ==> g.over
  {
    var n0, n1 := |s.a.cards|, |s.b.cards|;
    assert TurnsBegun(0, g.round) <= n0 + 3 && TurnsBegun(1, g.round) <= n1 + 3;
    if !g.over {
      FatigueKills(g.p0);
      FatigueKills(g.p1);
    }
  }

  function CardsLeft(p: PlayerState): int {
    |p.hand| + |p.deck|
  }

  /** What is left to do in a battle that can last until round `limit`. */
  function Potential(g: Game, limit: int): int {
    6 * (limit - g.round) + CardsLeft(g.p0) + CardsLeft(g.p1) + ReadyCount(g.At(g.turn).board)
  }

  lemma EndTurnUsesPotential(g: Game, limit: int)
    requires |g.At(1 - g.turn).board| <= BOARD_LIMIT
    ensures Potential(EndTurn(g, g.turn), limit) < Potential(g, limit)
  {
    var i: Side := 1 - g.turn;
    EndTurnShape(g);
    hide EndTurn;
    WakeFacts(g.At(i).board);
  }

  lemma PlayCardUsesPotential(cat: Catalog, g: Game, card: string, limit: int)
    requires PlayCard(cat, g, g.turn, card).Accepted?
    ensures Potential(PlayCard(cat, g, g.turn, card).game, limit) < Potential(g, limit)
  {
    CensusPlayCard(cat, g, card);
    PlayCardShape(cat, g, card);
    hide PlayCard;
    WithoutFirstCount(g.At(g.turn).hand, card);
  }

  lemma AttackUsesPotential(g: Game, inst: string, target: string, limit: int)
    requires Attack(g, g.turn, inst, target).Accepted?
    ensures Potential(Attack(g, g.turn, inst, target).game, limit) < Potential(g, limit)
  {
    var k, t := AttackIsBlow(g, inst, target);
    hide Attack, Blow;
    BlowCounts(g, g.turn, k, t);
    BlowShape(g, g.turn, k, t);
  }

  lemma StepUsesPotential(cat: Catalog, g: Game, m: Move, a: PlayerInit, b: PlayerInit, limit: int)
    requires Inv(g, a, b) && Try(cat, g, m).Accepted?
    ensures Potential(After(cat, g, m), limit) < Potential(g, limit)
  {
    match m.action.kind
    case PlayCardKind => PlayCardUsesPotential(cat, g, m.action.cardId, limit);
    case AttackKind => AttackUsesPotential(g, m.action.instId, m.action.target, limit);
    case EndTurnKind => EndTurnUsesPotential(g, limit);
  }

  function AcceptedCount(cat: Catalog, g: Game, ms: seq<Move>): nat {
    if ms == [] then 0
    else
      var n := |ms| - 1;
      AcceptedCount(cat, g, ms[..n]) + if Try(cat, Run(cat, g, ms[..n]), ms[n]).Accepted? then 1 else 0
  }

  lemma {:induction false} ActionsFitPotential(cat: Catalog, s: Setup, ms: seq<Move>)
    requires cat.Sound() && s.Ready()
    ensures var g, limit := s.Start(), RoundLimit(s);
            AcceptedCount(cat, g, ms) + Potential(Run(cat, g, ms), limit) <= Potential(g, limit)
  {
    if ms != [] {
      var n := |ms| - 1;
      ActionsFitPotential(cat, s, ms[..n]);
      InvRun(cat, s, ms[..n]);
      var g := Run(cat, s.Start(), ms[..n]);
      if Try(cat, g, ms[n]).Accepted? {
        StepUsesPotential(cat, g, ms[n], s.a, s.b, RoundLimit(s));
      }
    }
  }

  /** Termination: whatever is asked for, rounds and accepted actions are bounded by the opening decks. */
  lemma BattleEnds(cat: Catalog, s: Setup, ms: seq<Move>)
    requires cat.Sound() && s.Ready()
    ensures Run(cat, s.Start(), ms).round <= RoundLimit(s)
    ensures Run(cat, s.Start(), ms).round == RoundLimit(s) ==> Run(cat, s.Start(), ms).over
    ensures AcceptedCount(cat, s.Start(), ms) <= 6 * (RoundLimit(s) - 1) + |s.a.cards| + |s.b.cards|
  {
    InvRun(cat, s, ms);
    WithinLimit(s, Run(cat, s.Start(), ms));
    ActionsFitPotential(cat, s, ms);
  }

  /** Once over, a battle never changes again. */
  lemma {:induction false} OverIsFinal(cat: Catalog, g: Game, ms: seq<Move>)
    requires g.over
    ensures Run(cat, g, ms) == g && AcceptedCount(cat, g, ms) == 0
  {
    if ms != [] {
      OverIsFinal(cat, g, ms[..|ms| - 1]);
    }
  }

  /** `k` turns in a row ended without doing anything. */
  function IdleMoves(s: Setup, k: nat): (ms: seq<Move>)
    ensures |ms| == k
  {
    if k == 0 then [] else IdleMoves(s, k - 1) + [Move(s.Init((k - 1) % 2).id, END_TURN)]
  }

  /** Nobody has lost health except to empty draws. */
  ghost predicate Unhurt(g: Game) {
    forall i: Side :: g.At(i).hp == START_HP - Triangle(g.At(i).fatigue)
  }

  /** The round limit is attained: two idle players reach it, alive in every round before the last. */
  lemma {:induction false} IdleBattle(cat: Catalog, s: Setup, k: nat)
    requires cat.Sound() && s.Ready() && k < RoundLimit(s)
    ensures var g := Run(cat, s.Start(), IdleMoves(s, k));
            && g.round == k + 1
            && AcceptedCount(cat, s.Start(), IdleMoves(s, k)) == k
            && Unhurt(g)
            && (g.over <==> k + 1 == RoundLimit(s))
  {
    hide Step, Inv, Unhurt, RoundLimit;
    var ms := IdleMoves(s, k);
    var g := Run(cat, s.Start(), ms);
    if k == 0 {
      UnhurtStart(s);
    } else {
      assert ms[..k - 1] == IdleMoves(s, k - 1);
      IdleBattle(cat, s, k - 1);
      InvRun(cat, s, ms[..k - 1]);
      IdleTurn(cat, Run(cat, s.Start(), ms[..k - 1]), s);
    }
    InvRun(cat, s, ms);
    IdleVerdict(s, g);
  }

  lemma UnhurtStart(s: Setup)
    requires s.Ready()
    ensures Unhurt(s.Start())
  {
    assert Triangle(0) == 0;
  }

  lemma IdleVerdict(s: Setup, g: Game)
    requires Inv(g, s.a, s.b) && g.round <= RoundLimit(s)
    requires Unhurt(g)
    ensures g.over <==> g.round == RoundLimit(s)
  {
    WithinLimit(s, g);
    assert g.At(0) == g.p0 && g.At(1) == g.p1;
    assert Triangle(5) == 15 by { assert Triangle(3) == 6; }
    TriangleMonotone(g.p0.fatigue, 5);
    TriangleMonotone(g.p1.fatigue, 5);
  }

  lemma IdleTurn(cat: Catalog, g: Game, s: Setup)
    requires Inv(g, s.a, s.b) && !g.over && s.Ready()
    requires Unhurt(g)
    ensures var r := Step(cat, g, s.Init((g.round - 1) % 2).id, END_TURN);
            && r.Accepted? && r.game.round == g.round + 1
            && Unhurt(r.game)
  {
    EndTurnShape(g);
    hide EndTurn;
    var p := g.At(1 - g.turn);
    assert Triangle(p.fatigue + 1) == p.fatigue + 1 + Triangle(p.fatigue);
  }
}
