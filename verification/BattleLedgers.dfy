/**
 Conservation over whole battles: where every card, every point of health and
 every point of mana went.
 */
module BattleLedgers {
  import opened Deck
  import opened Battle
  import opened BattleRuns

  function CardPlayed(cat: Catalog, g: Game, m: Move, i: Side): multiset<string> {
    if Try(cat, g, m).Accepted? && m.action.kind == PlayCardKind && g.turn == i
    then multiset{m.action.cardId} else multiset{}
  }

  function ManaSpent(cat: Catalog, g: Game, m: Move, i: Side): int {
    if Try(cat, g, m).Accepted? && m.action.kind == PlayCardKind && g.turn == i
    then cat.byId[m.action.cardId].cost else 0
  }

  function FaceHit(cat: Catalog, g: Game, m: Move, i: Side): int {
    if Try(cat, g, m).Accepted? && m.action.kind == AttackKind && m.action.target == FACE && g.turn != i
    then g.At(g.turn).board[Find(g.At(g.turn).board, m.action.instId)].atk else 0
  }

  /** Every card side `i` has played. */
  function Played(cat: Catalog, g: Game, ms: seq<Move>, i: Side): multiset<string> {
    if ms == [] then multiset{}
    else
      var n := |ms| - 1;
      Played(cat, g, ms[..n], i) + CardPlayed(cat, Run(cat, g, ms[..n]), ms[n], i)
  }

  /** All damage done to the face of side `i`. */
  function FaceDamage(cat: Catalog, g: Game, ms: seq<Move>, i: Side): int {
    if ms == [] then 0
    else
      var n := |ms| - 1;
      FaceDamage(cat, g, ms[..n], i) + FaceHit(cat, Run(cat, g, ms[..n]), ms[n], i)
  }

  /** What side `i` paid for cards during half-round `r`. */
  function SpentIn(cat: Catalog, g: Game, ms: seq<Move>, i: Side, r: int): int {
    if ms == [] then 0
    else
      var n := |ms| - 1;
      var h := Run(cat, g, ms[..n]);
      SpentIn(cat, g, ms[..n], i, r) + if h.round == r then ManaSpent(cat, h, ms[n], i) else 0
  }

  /** The latest half-round that was side `i`'s own turn. */
  function LatestTurn(g: Game, i: Side): int {
    if g.turn == i then g.round else g.round - 1
  }

  // ---------------------------------------------------------------- one step

  /** Facts the ledgers need about an accepted step, side by side. */
  lemma StepShape(cat: Catalog, g: Game, m: Move)
    requires Try(cat, g, m).Accepted?
    ensures var h, i, kind := After(cat, g, m), g.turn, m.action.kind;
            var c := m.action.cardId;
            && (kind == PlayCardKind || kind == AttackKind || kind == EndTurnKind)
            && (kind == PlayCardKind ==>
                  && cat.Has(c) && c in g.At(i).hand && h.turn == i && h.round == g.round
                  && h.At(1 - i) == g.At(1 - i)
                  && h.At(i) == g.At(i).(mana := g.At(i).mana - cat.byId[c].cost, board := h.At(i).board,
                                         hand := WithoutFirst(g.At(i).hand, c)))
            && (kind == AttackKind ==>
                  && h.turn == i && h.round == g.round
                  && h.At(i) == g.At(i).(board := h.At(i).board)
                  && h.At(1 - i) == g.At(1 - i).(board := h.At(1 - i).board,
                                                 hp := g.At(1 - i).hp - FaceHit(cat, g, m, 1 - i)))
            && (kind == EndTurnKind ==>
                  && h.turn == 1 - i && h.round == g.round + 1
                  && h.At(i) == g.At(i) && h.At(1 - i) == Refreshed(g.At(1 - i)))
            && h.nextInst == g.nextInst + if kind == PlayCardKind then 1 else 0
  {
    match m.action.kind
    case PlayCardKind =>
      PlayCardShape(cat, g, m.action.cardId);
      hide PlayCard;
    case AttackKind =>
      var k, t := AttackIsBlow(g, m.action.instId, m.action.target);
      BlowShape(g, g.turn, k, t);
      hide Attack, Blow;
    case EndTurnKind =>
      EndTurnShape(g);
      hide EndTurn;
  }

  lemma StepCards(cat: Catalog, g: Game, m: Move, i: Side)
    ensures var p, q := g.At(i), After(cat, g, m).At(i);
            multiset(p.deck) + multiset(p.hand)
            == multiset(q.deck) + multiset(q.hand) + CardPlayed(cat, g, m, i)
  {
    hide Step;
    if Try(cat, g, m).Accepted? {
      StepShape(cat, g, m);
      var p, q := g.At(i), After(cat, g, m).At(i);
      if m.action.kind == PlayCardKind {
        WithoutFirstCount(g.At(g.turn).hand, m.action.cardId);
      } else if m.action.kind == EndTurnKind && i != g.turn && p.deck != [] {
        assert p.deck == [p.deck[0]] + q.deck;
      }
    }
  }

  lemma StepHealth(cat: Catalog, g: Game, m: Move, i: Side)
    requires g.At(i).fatigue >= 0
    ensures var p, q := g.At(i), After(cat, g, m).At(i);
            q.hp + Triangle(q.fatigue) == p.hp + Triangle(p.fatigue) - FaceHit(cat, g, m, i)
  {
    hide Step;
    if Try(cat, g, m).Accepted? {
      StepShape(cat, g, m);
    }
    assert Triangle(g.At(i).fatigue + 1) == g.At(i).fatigue + 1 + Triangle(g.At(i).fatigue);
  }

  lemma StepMana(cat: Catalog, g: Game, m: Move, i: Side)
    ensures var h := After(cat, g, m);
            && (h.round == g.round ==>
                  && h.turn == g.turn && h.At(i).maxMana == g.At(i).maxMana
                  && h.At(i).mana == g.At(i).mana - ManaSpent(cat, g, m, i))
            && (h.round != g.round ==>
                  && h.round == g.round + 1 && h.turn == 1 - g.turn && ManaSpent(cat, g, m, i) == 0
                  && if i == h.turn then h.At(i).mana == h.At(i).maxMana
                     else h.At(i).mana == g.At(i).mana && h.At(i).maxMana == g.At(i).maxMana)
  {
    hide Step;
    if Try(cat, g, m).Accepted? {
      StepShape(cat, g, m);
    }
  }

  lemma StepSummons(cat: Catalog, g: Game, m: Move)
    ensures After(cat, g, m).nextInst
            == g.nextInst + |CardPlayed(cat, g, m, 0)| + |CardPlayed(cat, g, m, 1)|
  {
    hide Step;
    if Try(cat, g, m).Accepted? {
      StepShape(cat, g, m);
    }
  }

  // ---------------------------------------------------------------- whole battles

  lemma {:induction false} NothingSpentLater(cat: Catalog, g: Game, ms: seq<Move>, i: Side, r: int)
    requires r > Run(cat, g, ms).round
    ensures SpentIn(cat, g, ms, i, r) == 0
  {
    hide Step;
    if ms != [] {
      var n := |ms| - 1;
      StepMana(cat, Run(cat, g, ms[..n]), ms[n], i);
      NothingSpentLater(cat, g, ms[..n], i, r);
    }
  }

  /** Cards: deck, hand and played cards are always the opening deck, and each play issued one instance id. */
  lemma {:induction false} CardLedger(cat: Catalog, s: Setup, ms: seq<Move>, i: Side)
    requires s.Ready()
    ensures var g := Run(cat, s.Start(), ms);
            && multiset(g.At(i).deck) + multiset(g.At(i).hand) + Played(cat, s.Start(), ms, i)
               == multiset(s.Init(i).cards)
            && g.nextInst == |Played(cat, s.Start(), ms, 0)| + |Played(cat, s.Start(), ms, 1)|
  {
    hide Step;
    if ms == [] {
      var swaps := s.rng(s.seed, if i == 0 then [|s.a.cards|] else [|s.a.cards|, |s.b.cards|]);
      var d := Shuffled(s.Init(i).cards, swaps);
      ShuffledPermutes(s.Init(i).cards, swaps);
      var k := if i == 0 then 4 else 3;
      assert d == d[..k] + d[k..];
    } else {
      var n := |ms| - 1;
      CardLedger(cat, s, ms[..n], i);
      StepCards(cat, Run(cat, s.Start(), ms[..n]), ms[n], i);
      StepSummons(cat, Run(cat, s.Start(), ms[..n]), ms[n]);
    }
  }

  /** Health: twenty, less the n-th empty draw costing n, less the blows taken to the face. */
  lemma {:induction false} HealthLedger(cat: Catalog, s: Setup, ms: seq<Move>, i: Side)
    requires cat.Sound() && s.Ready()
    ensures var p := Run(cat, s.Start(), ms).At(i);
            p.hp == 20 - p.fatigue * (p.fatigue + 1) / 2 - FaceDamage(cat, s.Start(), ms, i)
  {
    hide Step, FaceHit, IdsUnique, BoardSound, BattleRuns.Verdict;
    var p := Run(cat, s.Start(), ms).At(i);
    InvRun(cat, s, ms);
    TriangleMonotone(0, p.fatigue);
    if ms == [] {
      assert Triangle(0) == 0;
    } else {
      var n := |ms| - 1;
      var g := Run(cat, s.Start(), ms[..n]);
      HealthLedger(cat, s, ms[..n], i);
      InvRun(cat, s, ms[..n]);
      TriangleMonotone(0, g.At(i).fatigue);
      StepHealth(cat, g, ms[n], i);
    }
  }

  /** Mana: the maximum, less what was paid during the player's latest turn. */
  lemma {:induction false} ManaLedger(cat: Catalog, s: Setup, ms: seq<Move>, i: Side)
    requires s.Ready()
    ensures var g := Run(cat, s.Start(), ms);
            g.At(i).mana == g.At(i).maxMana - SpentIn(cat, s.Start(), ms, i, LatestTurn(g, i))
  {
    hide Step;
    if ms != [] {
      var n := |ms| - 1;
      var g, h := Run(cat, s.Start(), ms[..n]), Run(cat, s.Start(), ms);
      ManaLedger(cat, s, ms[..n], i);
      StepMana(cat, g, ms[n], i);
      if h.round == g.round {
        assert g.turn != i ==> ManaSpent(cat, g, ms[n], i) == 0;
      } else if i == h.turn {
        NothingSpentLater(cat, s.Start(), ms[..n], i, h.round);
      }
    }
  }

  lemma SideForms(g: Game, a: PlayerInit, b: PlayerInit, i: Side)
    requires Inv(g, a, b)
    ensures var p, t := g.At(i), TurnsBegun(i, g.round);
            var n := |(if i == 0 then a else b).cards|;
            && g.turn == (g.round - 1) % 2
            && p.maxMana == Min(MAX_MANA, t)
            && |p.deck| == Max(0, n - HAND_START - t)
            && p.fatigue == Max(0, t - (n - HAND_START))
  {
    hide IdsUnique, Verdict, BoardSound, Triangle;
  }

  /** Turn, mana caps, deck sizes and fatigue depend only on the round and the opening deck sizes. */
  lemma ClosedForms(cat: Catalog, s: Setup, ms: seq<Move>, i: Side)
    requires cat.Sound() && s.Ready()
    ensures var g := Run(cat, s.Start(), ms);
            var p, n, t := g.At(i), |s.Init(i).cards|, TurnsBegun(i, g.round);
            && g.turn == (g.round - 1) % 2
            && p.maxMana == Min(10, t)
            && |p.deck| == Max(0, n - 3 - t)
            && p.fatigue == Max(0, t - (n - 3))
  {
    hide Run, Inv, Opening, TurnsBegun, Min, Max;
    InvRun(cat, s, ms);
    SideForms(Run(cat, s.Start(), ms), s.a, s.b, i);
  }
}
