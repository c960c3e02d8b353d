/** What players are shown (internal/battle/view.go). */
module BattleView {
  import opened Battle
  import opened BattleLedgers
  import opened BattleRuns
  import opened Deck

  datatype PlayerView = PlayerView(
    id: string, hp: int, mana: int, maxMana: int, fatigue: int,
    board: seq<Minion>, hand: seq<string>, handCount: nat, deckCount: nat)

  datatype View = View(
    seqNo: nat, me: PlayerView, opp: PlayerView, yourTurn: bool, round: int, over: bool, winner: string)

  datatype GodView = GodView(
    p0: PlayerView, p1: PlayerView, turn: Side, round: int, over: bool, winner: string)

  function ToView(p: PlayerState, showHand: bool): PlayerView {
    PlayerView(p.id, p.hp, p.mana, p.maxMana, p.fatigue, p.board,
               if showHand then p.hand else [], |p.hand|, |p.deck|)
  }

  function ViewFor(g: Game, i: Side): View {
    View(0, ToView(g.At(i), true), ToView(g.At(1 - i), false), i == g.turn, g.round, g.over, g.winner)
  }

  function TheGodView(g: Game): GodView {
    GodView(ToView(g.p0, true), ToView(g.p1, true), g.turn, g.round, g.over, g.winner)
  }

  /** How many cards a battle has issued instance ids for: those that are in no deck and no hand. */
  lemma IssuedCount(cat: Catalog, s: Setup, ms: seq<Move>)
    requires s.Ready()
    ensures var g := Run(cat, s.Start(), ms);
            g.nextInst == |s.a.cards| + |s.b.cards| - |g.p0.deck| - |g.p0.hand| - |g.p1.deck| - |g.p1.hand|
  {
    hide Run, Played;
    CardLedger(cat, s, ms, 0);
    CardLedger(cat, s, ms, 1);
    var g := Run(cat, s.Start(), ms);
    assert |multiset(s.a.cards)| == |multiset(g.p0.deck)| + |multiset(g.p0.hand)| + |Played(cat, s.Start(), ms, 0)|;
    assert |multiset(s.b.cards)| == |multiset(g.p1.deck)| + |multiset(g.p1.hand)| + |Played(cat, s.Start(), ms, 1)|;
  }

  // ---------------------------------------------------------------- what is shown

  /** Everything public about a player: health, mana, fatigue, the board and how many cards there are. */
  ghost predicate ShowsPublic(v: PlayerView, p: PlayerState) {
    && v.id == p.id && v.hp == p.hp && v.mana == p.mana && v.maxMana == p.maxMana && v.fatigue == p.fatigue
    && v.board == p.board && v.handCount == |p.hand| && v.deckCount == |p.deck|
  }

  /** A player sees both public parts, the own hand but not the other one, and whose turn it is. */
  lemma ViewShows(g: Game, i: Side)
    ensures var v := ViewFor(g, i);
            && ShowsPublic(v.me, g.At(i)) && v.me.hand == g.At(i).hand
            && ShowsPublic(v.opp, g.At(1 - i)) && v.opp.hand == []
            && (v.yourTurn <==> i == g.turn) && v.round == g.round && v.over == g.over && v.winner == g.winner
  {
  }

  /** The view of a replay shows both public parts and both hands. */
  lemma GodViewShows(g: Game)
    ensures var v := TheGodView(g);
            && ShowsPublic(v.p0, g.p0) && v.p0.hand == g.p0.hand
            && ShowsPublic(v.p1, g.p1) && v.p1.hand == g.p1.hand
            && v.turn == g.turn && v.round == g.round && v.over == g.over && v.winner == g.winner
  {
  }

  // ---------------------------------------------------------------- what is hidden

  /**
   The two positions differ at most in what player `i` must not know: the cards in
   the opponent's hand, the cards in both decks, and the instance counter.
   */
  ghost predicate Alike(g: Game, h: Game, i: Side) {
    var me, foe, foe' := g.At(i), g.At(1 - i), h.At(1 - i);
    && |h.At(i).deck| == |me.deck| && |foe'.deck| == |foe.deck| && |foe'.hand| == |foe.hand|
    && h == g.Put(i, me.(deck := h.At(i).deck)).Put(1 - i, foe.(deck := foe'.deck, hand := foe'.hand))
             .(nextInst := h.nextInst)
  }

  /** A view hides exactly that: it is the same in two positions exactly when they differ in nothing else. */
  lemma ViewHidesIff(g: Game, h: Game, i: Side)
    ensures ViewFor(g, i) == ViewFor(h, i) <==> Alike(g, h, i)
  {
  }

  lemma AlikeCheckOver(g: Game, h: Game, i: Side)
    requires Alike(g, h, i)
    ensures Alike(CheckOver(g), CheckOver(h), i)
  {
  }

  lemma AlikePlay(cat: Catalog, g: Game, h: Game, card: string)
    requires Alike(g, h, g.turn) && g.nextInst == h.nextInst
    ensures AlikeOutcomes(PlayCard(cat, g, g.turn, card), PlayCard(cat, h, g.turn, card), g.turn)
  {
    hide WithoutFirst, NewMinion;
  }

  lemma AlikeBlow(g: Game, h: Game, i: Side, k: int, t: int)
    requires Alike(g, h, i) && 0 <= k < |g.At(i).board| && -1 <= t < |g.At(1 - i).board|
    ensures Alike(Blow(g, i, k, t), Blow(h, i, k, t), i)
  {
    hide Alive, CheckOver;
    AlikeCheckOver(BuryDead(Exchange(g, i, k, t)), BuryDead(Exchange(h, i, k, t)), i);
  }

  lemma SameBoards(g: Game, h: Game)
    requires Alike(g, h, g.turn)
    ensures h.turn == g.turn && h.p0.board == g.p0.board && h.p1.board == g.p1.board
  {
  }

  lemma AlikeAttack(g: Game, h: Game, inst: string, target: string)
    requires Alike(g, h, g.turn) && g.nextInst == h.nextInst
    ensures AlikeOutcomes(Attack(g, g.turn, inst, target), Attack(h, g.turn, inst, target), g.turn)
  {
    hide Blow, Alike;
    if Attack(g, g.turn, inst, target).Accepted? {
      var k, t := AttackIsBlow(g, inst, target);
      SameBoards(g, h);
      var k', t' := AttackIsBlow(h, inst, target);
      AlikeBlow(g, h, g.turn, k, t);
      BlowShape(g, g.turn, k, t);
      BlowShape(h, g.turn, k, t);
    } else {
      SameBoards(g, h);
    }
  }

  lemma AlikeEndTurn(g: Game, h: Game)
    requires Alike(g, h, g.turn)
    ensures Alike(EndTurn(g, g.turn), EndTurn(h, g.turn), g.turn)
  {
    hide Wake;
  }

  /** The same refusal, or positions that are alike again. */
  ghost predicate AlikeOutcomes(x: Outcome, y: Outcome, i: Side) {
    match x
    case Rejected(_) => y == x
    case Accepted(g) => y.Accepted? && g.nextInst == y.game.nextInst && Alike(g, y.game, i)
  }

  /**
   Nothing hidden leaks through a player's own actions: in two positions that look
   the same to the player, they are refused with the same code or accepted, and
   what follows looks the same again.
   */
  lemma OwnActionsHide(cat: Catalog, g: Game, h: Game, i: Side, a: Action)
    requires Alike(g, h, i) && g.nextInst == h.nextInst && g.p0.id != g.p1.id
    ensures AlikeOutcomes(Step(cat, g, g.At(i).id, a), Step(cat, h, g.At(i).id, a), i)
  {
    hide PlayCard, Attack, EndTurn;
    if !g.over && g.turn == i {
      AlikePlay(cat, g, h, a.cardId);
      AlikeAttack(g, h, a.instId, a.target);
      AlikeEndTurn(g, h);
      EndTurnShape(g);
      EndTurnShape(h);
    }
    hide Alike;
  }

  /**
   Two positions of one battle look the same to a player exactly when they are in
   the same turn, have issued the same instance ids, and differ at most in the
   opponent's hand and in what the decks hold.
   */
  lemma ViewDetermines(cat: Catalog, s: Setup, ms: seq<Move>, ms': seq<Move>, i: Side)
    requires s.Ready()
    ensures var g, h := Run(cat, s.Start(), ms), Run(cat, s.Start(), ms');
            ViewFor(g, i) == ViewFor(h, i) <==> Alike(g, h, i) && g.nextInst == h.nextInst
  {
    hide Run, Opening;
    IssuedCount(cat, s, ms);
    IssuedCount(cat, s, ms');
    ViewHidesIff(Run(cat, s.Start(), ms), Run(cat, s.Start(), ms'), i);
    hide ViewFor;
  }
}
