/**
 The life of a minion: instance ids are never reused, and no minion attacks in
 the half-round it was summoned or twice in one half-round.
 */
module BattleInstances {
  import opened Deck
  import opened Battle
  import opened BattleRuns
  import opened BattleLedgers

  function Live(cat: Catalog, g: Game, ms: seq<Move>, j: nat): Game
    requires j <= |ms|
  {
    Run(cat, g, ms[..j])
  }

  ghost predicate AttacksAt(cat: Catalog, g: Game, ms: seq<Move>, j: nat, id: string) {
    && j < |ms| && Try(cat, Live(cat, g, ms, j), ms[j]).Accepted?
    && ms[j].action.kind == AttackKind && ms[j].action.instId == id
  }

  ghost predicate SummonsAt(cat: Catalog, g: Game, ms: seq<Move>, j: nat, id: string) {
    && j < |ms| && Try(cat, Live(cat, g, ms, j), ms[j]).Accepted?
    && ms[j].action.kind == PlayCardKind && id == InstName(Live(cat, g, ms, j).nextInst + 1)
  }

  /** Intent `j` summoned that minion or attacked with it. */
  ghost predicate ActsAt(cat: Catalog, g: Game, ms: seq<Move>, j: nat, id: string) {
    AttacksAt(cat, g, ms, j, id) || SummonsAt(cat, g, ms, j, id)
  }

  ghost predicate Tired(b: seq<Minion>, id: string) {
    forall k :: 0 <= k < |b| && b[k].instId == id ==> !b[k].canAttack
  }

  lemma StepMonotone(cat: Catalog, g: Game, m: Move)
    ensures var h := After(cat, g, m);
            && g.round <= h.round && g.nextInst <= h.nextInst
            && (h.round == g.round ==> h.turn == g.turn)
  {
    if Try(cat, g, m).Accepted? {
      StepShape(cat, g, m);
    }
    hide Step;
  }

  lemma {:induction false} RunMonotone(cat: Catalog, g: Game, ms: seq<Move>, j: nat)
    requires j <= |ms|
    ensures Live(cat, g, ms, j).round <= Run(cat, g, ms).round
    ensures Live(cat, g, ms, j).nextInst <= Run(cat, g, ms).nextInst
  {
    if j == |ms| {
      assert ms[..j] == ms;
    } else {
      var n := |ms| - 1;
      RunMonotone(cat, g, ms[..n], j);
      assert ms[..n][..j] == ms[..j];
      StepMonotone(cat, Run(cat, g, ms[..n]), ms[n]);
    }
  }

  lemma AliveTired(b: seq<Minion>, id: string)
    requires Tired(b, id)
    ensures Tired(Alive(b), id)
  {
    AliveFacts(b);
  }

  /** A tired minion stays tired until the round changes. */
  lemma StepKeepsTired(cat: Catalog, g: Game, m: Move, id: string)
    requires Tired(g.At(g.turn).board, id) && After(cat, g, m).round == g.round
    ensures Tired(After(cat, g, m).At(g.turn).board, id)
  {
    if Try(cat, g, m).Accepted? {
      match m.action.kind
      case AttackKind =>
        var k, t := AttackIsBlow(g, m.action.instId, m.action.target);
        BlowShape(g, g.turn, k, t);
        ExchangeShape(g, g.turn, k, t);
        hide Attack, Blow, Exchange;
        AliveTired(Exchange(g, g.turn, k, t).At(g.turn).board, id);
      case PlayCardKind =>
        PlayCardShape(cat, g, m.action.cardId);
        hide PlayCard;
      case EndTurnKind =>
        EndTurnShape(g);
    }
  }

  /** A minion stands once on its board, and its id was issued. */
  lemma StandsOnce(g: Game, i: Side, k: nat)
    requires IdsUnique(g) && k < |g.At(i).board|
    ensures Issued(g.At(i).board[k].instId, g.nextInst)
    ensures forall j :: 0 <= j < |g.At(i).board| && j != k ==> g.At(i).board[j].instId != g.At(i).board[k].instId
  {
    var board := g.At(i).board;
    var id := board[k].instId;
    hide IdBag, Issued;
    IdBagCount(board, k, k);
    assert id in Census(g);
    forall j | 0 <= j < |board| && j != k
      ensures board[j].instId != id
    {
      IdBagCount(board, if j < k then j else k, if j < k then k else j);
    }
  }

  lemma AttackTires(g: Game, id: string, target: string)
    requires IdsUnique(g) && Attack(g, g.turn, id, target).Accepted?
    ensures Tired(Attack(g, g.turn, id, target).game.At(g.turn).board, id)
    ensures Issued(id, g.nextInst)
  {
    var k, t := AttackIsBlow(g, id, target);
    BlowShape(g, g.turn, k, t);
    ExchangeShape(g, g.turn, k, t);
    hide Attack, Blow, Exchange, IdsUnique, Issued;
    StandsOnce(g, g.turn, k);
    AliveTired(Exchange(g, g.turn, k, t).At(g.turn).board, id);
  }

  lemma PlayTires(cat: Catalog, g: Game, card: string)
    requires IdsUnique(g) && PlayCard(cat, g, g.turn, card).Accepted?
    ensures var h := PlayCard(cat, g, g.turn, card).game;
            Tired(h.At(g.turn).board, InstName(h.nextInst)) && Issued(InstName(h.nextInst), h.nextInst)
  {
    PlayCardShape(cat, g, card);
    hide PlayCard;
    var board, id := g.At(g.turn).board, InstName(g.nextInst + 1);
    forall j | 0 <= j < |board|
      ensures board[j].instId != id
    {
      IdBagCount(board, j, j);
      assert board[j].instId in Census(g);
      var n: nat :| 1 <= n <= g.nextInst && board[j].instId == InstName(n);
      InstNameInjective(n, g.nextInst + 1);
    }
  }

  lemma ActingTires(cat: Catalog, g: Game, m: Move, id: string)
    requires IdsUnique(g) && Try(cat, g, m).Accepted?
    requires if m.action.kind == AttackKind then m.action.instId == id
             else m.action.kind == PlayCardKind && id == InstName(g.nextInst + 1)
    ensures Tired(After(cat, g, m).At(g.turn).board, id)
    ensures Issued(id, After(cat, g, m).nextInst)
  {
    StepShape(cat, g, m);
    if m.action.kind == AttackKind {
      AttackTires(g, id, m.action.target);
    } else {
      PlayTires(cat, g, m.action.cardId);
    }
    hide PlayCard, Attack, EndTurn;
  }

  /** After acting, a minion cannot attack for the rest of the half-round. */
  lemma {:induction false} ActedStaysTired(cat: Catalog, s: Setup, ms: seq<Move>, j: nat, id: string)
    requires cat.Sound() && s.Ready() && ActsAt(cat, s.Start(), ms, j, id)
    ensures var g := Run(cat, s.Start(), ms);
            && Issued(id, g.nextInst)
            && (Live(cat, s.Start(), ms, j).round == g.round ==> Tired(g.At(g.turn).board, id))
  {
    hide Step;
    var n := |ms| - 1;
    var p := Run(cat, s.Start(), ms[..n]);
    var g := Run(cat, s.Start(), ms);
    StepMonotone(cat, p, ms[n]);
    if j == n {
      InvRun(cat, s, ms[..n]);
      ActingTires(cat, p, ms[n], id);
    } else {
      assert ms[..n][..j] == ms[..j];
      ActedStaysTired(cat, s, ms[..n], j, id);
      var k: nat :| 1 <= k <= p.nextInst && id == InstName(k);
      RunMonotone(cat, s.Start(), ms[..n], j);
      if g.round == p.round && Live(cat, s.Start(), ms, j).round == g.round {
        StepKeepsTired(cat, p, ms[n], id);
      }
    }
  }

  lemma AttackerReady(cat: Catalog, g: Game, ms: seq<Move>, k: nat, id: string)
    requires AttacksAt(cat, g, ms, k, id)
    ensures var h := Live(cat, g, ms, k); !Tired(h.At(h.turn).board, id)
  {
    var h := Live(cat, g, ms, k);
    var j, t := AttackIsBlow(h, id, ms[k].action.target);
    hide Step, Live;
  }

  /** No attack in the half-round of the summons, and at most one attack per half-round. */
  lemma AttackNeedsNewRound(cat: Catalog, s: Setup, ms: seq<Move>, j: nat, k: nat, id: string)
    requires cat.Sound() && s.Ready() && j < k
    requires ActsAt(cat, s.Start(), ms, j, id) && AttacksAt(cat, s.Start(), ms, k, id)
    ensures Live(cat, s.Start(), ms, j).round < Live(cat, s.Start(), ms, k).round
  {
    assert ms[..k][..j] == ms[..j];
    AttackerReady(cat, s.Start(), ms, k, id);
    assert ActsAt(cat, s.Start(), ms[..k], j, id);
    hide Step, Opening;
    ActedStaysTired(cat, s, ms[..k], j, id);
    RunMonotone(cat, s.Start(), ms[..k], j);
  }

  lemma SummonMoves(cat: Catalog, g: Game, ms: seq<Move>, j: nat, id: string)
    requires SummonsAt(cat, g, ms, j, id)
    ensures id == InstName(Live(cat, g, ms, j).nextInst + 1)
    ensures Live(cat, g, ms, j + 1).nextInst == Live(cat, g, ms, j).nextInst + 1
  {
    assert ms[..j + 1][..j] == ms[..j];
    StepShape(cat, Live(cat, g, ms, j), ms[j]);
    hide Step, InstName;
  }

  lemma LaterIssuesMore(cat: Catalog, g: Game, ms: seq<Move>, j: nat, k: nat)
    requires j <= k <= |ms|
    ensures Live(cat, g, ms, j).nextInst <= Live(cat, g, ms, k).nextInst
  {
    assert ms[..k][..j] == ms[..j];
    RunMonotone(cat, g, ms[..k], j);
    hide Step;
  }

  /** An instance id is issued at most once, even after its minion has died. */
  lemma SummonedOnce(cat: Catalog, g: Game, ms: seq<Move>, j: nat, k: nat, id: string)
    requires SummonsAt(cat, g, ms, j, id) && SummonsAt(cat, g, ms, k, id)
    ensures j == k
  {
    SummonMoves(cat, g, ms, j, id);
    SummonMoves(cat, g, ms, k, id);
    InstNameInjective(Live(cat, g, ms, j).nextInst + 1, Live(cat, g, ms, k).nextInst + 1);
    hide Live, InstName;
    if j < k {
      LaterIssuesMore(cat, g, ms, j + 1, k);
    } else if k < j {
      LaterIssuesMore(cat, g, ms, k + 1, j);
    }
  }
}
