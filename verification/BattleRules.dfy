/**
 Who may do what (internal/battle/apply.go): every refusal names the first rule
 the intent breaks, and an intent that breaks none is accepted. The rules are
 stated one by one, without the order in which the code looks at them.
 */
module BattleRules {
  import opened Deck
  import opened Battle
  import opened BattleRuns
  import opened BattleLedgers

  /** A minion of that name stands on the board. */
  ghost predicate Stands(b: seq<Minion>, id: string) {
    exists k :: 0 <= k < |b| && b[k].instId == id
  }

  /** A minion of that name stands on the board and cannot strike. */
  ghost predicate CannotStrike(b: seq<Minion>, id: string) {
    exists k :: 0 <= k < |b| && b[k].instId == id && (!b[k].canAttack || b[k].atk <= 0)
  }

  /** The intent breaks the rule behind that error code. */
  ghost predicate Breaks(cat: Catalog, g: Game, m: Move, c: Code) {
    var me, foe, a := g.At(g.turn), g.At(1 - g.turn), m.action;
    match c
    case GameOver => g.over
    case NotInGame => m.player != g.p0.id && m.player != g.p1.id
    case NotYourTurn => m.player != me.id
    case UnknownAction => a.kind.OtherKind?
    case CardNotInHand => a.kind == PlayCardKind && a.cardId !in me.hand
    case UnknownCard => a.kind == PlayCardKind && !cat.Has(a.cardId)
    case NotEnoughMana => a.kind == PlayCardKind && cat.Has(a.cardId) && cat.byId[a.cardId].cost > me.mana
    case NotImplemented => a.kind == PlayCardKind && cat.Has(a.cardId) && cat.byId[a.cardId].kind != TYPE_MINION
    case BoardFull => a.kind == PlayCardKind && |me.board| >= 5
    case MinionNotFound => a.kind == AttackKind && !Stands(me.board, a.instId)
    case CantAttack => a.kind == AttackKind && CannotStrike(me.board, a.instId)
    case InvalidTarget => a.kind == AttackKind && a.target != "face" && Stands(me.board, a.target)
    case TargetNotFound => a.kind == AttackKind && a.target != "face" && !Stands(foe.board, a.target)
  }

  /** Which of several broken rules is reported: the one of least rank. */
  function Rank(c: Code): nat {
    match c
    case GameOver => 0
    case NotInGame => 1
    case NotYourTurn => 2
    case UnknownAction => 3
    case CardNotInHand => 4
    case UnknownCard => 5
    case NotEnoughMana => 6
    case NotImplemented => 7
    case BoardFull => 8
    case MinionNotFound => 9
    case CantAttack => 10
    case InvalidTarget => 11
    case TargetNotFound => 12
  }

  ghost predicate FirstBroken(cat: Catalog, g: Game, m: Move, c: Code) {
    Breaks(cat, g, m, c) && forall d :: Rank(d) < Rank(c) ==> !Breaks(cat, g, m, d)
  }

  lemma FirstIsUnique(cat: Catalog, g: Game, m: Move, c: Code, d: Code)
    requires FirstBroken(cat, g, m, c) && FirstBroken(cat, g, m, d)
    ensures c == d
  {
    hide Breaks;
    assert Rank(c) == Rank(d);
  }

  ghost predicate Reported(cat: Catalog, g: Game, m: Move) {
    match Try(cat, g, m)
    case Rejected(c) => FirstBroken(cat, g, m, c)
    case Accepted(_) => forall c :: !Breaks(cat, g, m, c)
  }

  lemma FoundStands(b: seq<Minion>, id: string)
    ensures Stands(b, id) <==> Find(b, id) >= 0
  {
  }

  lemma FoundStrikes(g: Game, i: Side, id: string)
    requires IdsUnique(g) && Stands(g.At(i).board, id)
    ensures var b, k := g.At(i).board, Find(g.At(i).board, id);
            k >= 0 && (CannotStrike(b, id) <==> !b[k].canAttack || b[k].atk <= 0)
  {
    var b := g.At(i).board;
    FoundStands(b, id);
    forall k | 0 <= k < |b| && b[k].instId == id
      ensures k == Find(b, id)
    {
      IdBagCount(b, Find(b, id), k);
      assert id in Census(g);
    }
  }

  /** Which rule decides about an intent, looking at the cases as the code does. */
  lemma GateRules(cat: Catalog, g: Game, m: Move)
    requires g.p0.id != g.p1.id
    ensures g.over ==> Try(cat, g, m) == Rejected(GameOver)
    ensures !g.over && m.player != g.p0.id && m.player != g.p1.id ==> Try(cat, g, m) == Rejected(NotInGame)
    ensures !g.over && (m.player == g.p0.id || m.player == g.p1.id) && m.player != g.At(g.turn).id ==>
              Try(cat, g, m) == Rejected(NotYourTurn)
    ensures !g.over && m.player == g.At(g.turn).id ==>
              Try(cat, g, m) == match m.action.kind
                                case PlayCardKind => PlayCard(cat, g, g.turn, m.action.cardId)
                                case AttackKind => Attack(g, g.turn, m.action.instId, m.action.target)
                                case EndTurnKind => Accepted(EndTurn(g, g.turn))
                                case OtherKind(_) => Rejected(UnknownAction)
  {
  }

  lemma PlayRules(cat: Catalog, g: Game, m: Move)
    requires g.p0.id != g.p1.id && !g.over && m.player == g.At(g.turn).id && m.action.kind == PlayCardKind
    ensures Reported(cat, g, m)
  {
    GateRules(cat, g, m);
    hide Step;
  }

  lemma AttackRules(cat: Catalog, g: Game, m: Move)
    requires g.p0.id != g.p1.id && !g.over && m.player == g.At(g.turn).id && m.action.kind == AttackKind && IdsUnique(g)
    ensures Reported(cat, g, m)
  {
    hide Step, Blow;
    GateRules(cat, g, m);
    var a := m.action;
    FoundStands(g.At(g.turn).board, a.instId);
    FoundStands(g.At(g.turn).board, a.target);
    FoundStands(g.At(1 - g.turn).board, a.target);
    if Stands(g.At(g.turn).board, a.instId) {
      FoundStrikes(g, g.turn, a.instId);
    }
    hide Step, Stands, CannotStrike, IdsUnique, Blow;
  }

  lemma OtherRules(cat: Catalog, g: Game, m: Move)
    requires g.p0.id != g.p1.id
    requires g.over || m.player != g.At(g.turn).id || m.action.kind == EndTurnKind || m.action.kind.OtherKind?
    ensures Reported(cat, g, m)
  {
    GateRules(cat, g, m);
    hide Step;
  }

  /** An intent is refused with the first rule it breaks, and accepted exactly when it breaks none. */
  lemma FirstBrokenRule(cat: Catalog, g: Game, m: Move)
    requires g.p0.id != g.p1.id && IdsUnique(g)
    ensures forall c :: Try(cat, g, m) == Rejected(c) <==> FirstBroken(cat, g, m, c)
    ensures Try(cat, g, m).Accepted? <==> forall c :: !Breaks(cat, g, m, c)
  {
    hide Step, Breaks, Rank, IdsUnique;
    if g.over || m.player != g.At(g.turn).id || m.action.kind == EndTurnKind || m.action.kind.OtherKind? {
      OtherRules(cat, g, m);
    } else if m.action.kind == PlayCardKind {
      PlayRules(cat, g, m);
    } else {
      AttackRules(cat, g, m);
    }
    forall c | FirstBroken(cat, g, m, c)
      ensures Try(cat, g, m) == Rejected(c)
    {
      if Try(cat, g, m).Rejected? {
        FirstIsUnique(cat, g, m, c, Try(cat, g, m).code);
      }
    }
    hide FirstBroken;
  }

  /** Only the player whose turn it is gets anything done; the others are told why not. */
  lemma OnlyTheActivePlayer(cat: Catalog, g: Game, m: Move)
    ensures Try(cat, g, m).Accepted? ==> !g.over && m.player == g.At(g.turn).id
    ensures !g.over && g.p0.id != g.p1.id && m.player == g.At(1 - g.turn).id ==> Try(cat, g, m) == Rejected(NotYourTurn)
    ensures !g.over && m.player != g.p0.id && m.player != g.p1.id ==> Try(cat, g, m) == Rejected(NotInGame)
    ensures g.over ==> Try(cat, g, m) == Rejected(GameOver)
  {
    hide PlayCard, Attack, EndTurn;
  }

  // ---------------------------------------------------------------- whose turn it is

  /** How many turns the players have ended. */
  function TurnsEnded(cat: Catalog, g: Game, ms: seq<Move>): nat {
    if ms == [] then 0
    else
      var n := |ms| - 1;
      TurnsEnded(cat, g, ms[..n])
      + if Try(cat, Run(cat, g, ms[..n]), ms[n]).Accepted? && ms[n].action.kind == EndTurnKind then 1 else 0
  }

  lemma StepTurn(cat: Catalog, g: Game, m: Move)
    ensures var h := After(cat, g, m);
            && h.p0.id == g.p0.id && h.p1.id == g.p1.id
            && if Try(cat, g, m).Accepted? && m.action.kind == EndTurnKind then h.turn == 1 - g.turn && h.round == g.round + 1
               else h.turn == g.turn && h.round == g.round
  {
    if Try(cat, g, m).Accepted? {
      StepShape(cat, g, m);
    }
    hide Step;
  }

  /** The turn and the round follow from the number of turns ended; the players keep their seats. */
  lemma {:induction false} TurnsAlternate(cat: Catalog, s: Setup, ms: seq<Move>)
    requires s.Ready()
    ensures var g, n := Run(cat, s.Start(), ms), TurnsEnded(cat, s.Start(), ms);
            && g.turn == n % 2 && g.round == n + 1 && DisplayRound(g) == 1 + n / 2
            && g.p0.id == s.a.id && g.p1.id == s.b.id
  {
    hide Step;
    if ms != [] {
      var n := |ms| - 1;
      TurnsAlternate(cat, s, ms[..n]);
      StepTurn(cat, Run(cat, s.Start(), ms[..n]), ms[n]);
    }
  }

  /** In a battle the players act in turns: an accepted intent comes from `a` after an even number of turns, else from `b`. */
  lemma AcceptedInTurn(cat: Catalog, s: Setup, ms: seq<Move>, m: Move)
    requires s.Ready()
    ensures Try(cat, Run(cat, s.Start(), ms), m).Accepted? ==>
              && !Run(cat, s.Start(), ms).over
              && m.player == if TurnsEnded(cat, s.Start(), ms) % 2 == 0 then s.a.id else s.b.id
    ensures !Run(cat, s.Start(), ms).over
            && m.player == (if TurnsEnded(cat, s.Start(), ms) % 2 == 0 then s.b.id else s.a.id) ==>
              Try(cat, Run(cat, s.Start(), ms), m) == Rejected(NotYourTurn)
  {
    TurnsAlternate(cat, s, ms);
    OnlyTheActivePlayer(cat, Run(cat, s.Start(), ms), m);
    hide Step, Opening;
  }
}
