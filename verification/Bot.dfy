/** The bot's choice of a move from its own view of the battle (scripts/bot/strategy.go). */
module Bot {
  import opened Deck
  import opened Battle
  import opened BattleRuns
  import opened BattleView

  /** A card the view shows to be playable. */
  ghost predicate Playable(v: View, cat: Catalog, card: string) {
    && |v.me.board| < BOARD_LIMIT && card in v.me.hand && cat.Has(card)
    && cat.byId[card].kind == TYPE_MINION && cat.byId[card].cost <= v.me.mana
  }

  /** A move the bot considers: a playable card, or a ready minion against the face or an opposing minion. */
  ghost predicate Offered(v: View, cat: Catalog, a: Action) {
    || (exists card :: Playable(v, cat, card) && a == Play(card))
    || (exists k :: 0 <= k < |v.me.board| && OfferedFrom(v, k, a))
  }

  ghost predicate OfferedFrom(v: View, k: nat, a: Action)
    requires k < |v.me.board|
  {
    var m := v.me.board[k];
    && m.canAttack && m.atk > 0
    && (a == Hit(m.instId, FACE)
        || exists t :: 0 <= t < |v.opp.board| && a == Hit(m.instId, v.opp.board[t].instId))
  }

  function Play(card: string): Action {
    Action(PlayCardKind, card, "", "")
  }

  function Hit(inst: string, target: string): Action {
    Action(AttackKind, "", inst, target)
  }

  method Candidates(v: View, cat: Catalog) returns (cands: seq<Action>)
    ensures forall a :: a in cands <==> Offered(v, cat, a)
  {
    var plays := PlayCandidates(v, cat);
    var hits: seq<Action> := [];
    for k := 0 to |v.me.board|
      invariant forall a :: a in hits <==> exists j :: 0 <= j < k && OfferedFrom(v, j, a)
    {
      var m := v.me.board[k];
      if !m.canAttack || m.atk <= 0 {
        continue;
      }
      ghost var before := hits;
      hits := hits + [Hit(m.instId, FACE)];
      for t := 0 to |v.opp.board|
        invariant forall a :: a in hits <==>
                    || a in before || a == Hit(m.instId, FACE)
                    || exists u :: 0 <= u < t && a == Hit(m.instId, v.opp.board[u].instId)
      {
        hits := hits + [Hit(m.instId, v.opp.board[t].instId)];
      }
      assert forall a :: a in hits <==> a in before || OfferedFrom(v, k, a);
    }
    cands := plays + hits;
  }

  /** One play per playable card, however many copies the hand holds. */
  method PlayCandidates(v: View, cat: Catalog) returns (plays: seq<Action>)
    ensures forall a :: a in plays <==> exists card :: Playable(v, cat, card) && a == Play(card)
    ensures forall i, j :: 0 <= i < j < |plays| ==> plays[i] != plays[j]
  {
    plays := [];
    if |v.me.board| < BOARD_LIMIT {
      var seen: set<string> := {};
      for k := 0 to |v.me.hand|
        invariant forall id :: id in seen <==> id in v.me.hand[..k]
        invariant forall a :: a in plays <==> exists card :: card in seen && Playable(v, cat, card) && a == Play(card)
        invariant forall i, j :: 0 <= i < j < |plays| ==> plays[i] != plays[j]
      {
        var id := v.me.hand[k];
        assert v.me.hand[..k + 1] == v.me.hand[..k] + [id];
        if id in seen {
          continue;
        }
        if cat.Has(id) && cat.byId[id].kind == TYPE_MINION && cat.byId[id].cost <= v.me.mana {
          assert Play(id) !in plays;
          plays := plays + [Play(id)];
          assert Playable(v, cat, id);
        }
        seen := seen + {id};
      }
      assert v.me.hand[..|v.me.hand|] == v.me.hand;
    }
  }

  /** Picks one of the candidates with the random index, or ends the turn when there is none. */
  method ChooseAction(v: View, cat: Catalog, intn: nat -> nat) returns (a: Action)
    requires forall n :: n > 0 ==> intn(n) < n
    ensures Offered(v, cat, a) || (a == END_TURN && forall b :: !Offered(v, cat, b))
  {
    var cands := Candidates(v, cat);
    if |cands| == 0 {
      return END_TURN;
    }
    a := cands[intn(|cands|)];
  }

  /** The action without the fields its kind does not use. */
  function Stripped(a: Action): Action {
    match a.kind
    case PlayCardKind => Play(a.cardId)
    case AttackKind => Hit(a.instId, a.target)
    case _ => Action(a.kind, "", "", "")
  }

  lemma StepIgnoresUnusedFields(cat: Catalog, g: Game, pid: string, a: Action)
    ensures Step(cat, g, pid, a) == Step(cat, g, pid, Stripped(a))
  {
    hide PlayCard, Attack, EndTurn;
  }

  lemma AttackOffered(g: Game, inst: string, target: string)
    requires IdsUnique(g)
    ensures Attack(g, g.turn, inst, target).Accepted?
            <==> exists k :: 0 <= k < |g.At(g.turn).board| && OfferedFrom(ViewFor(g, g.turn), k, Hit(inst, target))
  {
    var i, v := g.turn, ViewFor(g, g.turn);
    var mine, theirs := g.At(i).board, g.At(1 - i).board;
    hide IdsUnique, Blow;
    if Attack(g, i, inst, target).Accepted? {
      var k := Find(mine, inst);
      if target != FACE {
        assert v.opp.board[Find(theirs, target)].instId == target;
      }
      assert OfferedFrom(v, k, Hit(inst, target));
    }
    forall k | 0 <= k < |mine| && OfferedFrom(v, k, Hit(inst, target))
      ensures Attack(g, i, inst, target).Accepted?
    {
      FoundAlone(g, i, k);
      if target != FACE {
        var t :| 0 <= t < |theirs| && target == theirs[t].instId;
        FoundAlone(g, 1 - i, t);
      }
    }
  }

  /** Unique ids: looking a minion up finds that minion, and nothing on the other board. */
  lemma FoundAlone(g: Game, i: Side, k: nat)
    requires IdsUnique(g) && k < |g.At(i).board|
    ensures Find(g.At(i).board, g.At(i).board[k].instId) == k
    ensures Find(g.At(1 - i).board, g.At(i).board[k].instId) < 0
  {
    var b, id := g.At(i).board, g.At(i).board[k].instId;
    IdBagCount(b, k, k);
    InIdBag(g.At(1 - i).board, id);
    assert id in Census(g);
    IdBagCount(b, Find(b, id), k);
  }

  /**
   The moves computed from the active player's view are exactly the card plays
   and attacks the rules would accept, up to unused fields.
   */
  lemma OfferedIsLegal(cat: Catalog, g: Game, a: PlayerInit, b: PlayerInit, act: Action)
    requires Inv(g, a, b) && !g.over && a.id != b.id
    ensures Offered(ViewFor(g, g.turn), cat, act)
            <==> && act == Stripped(act) && (act.kind == PlayCardKind || act.kind == AttackKind)
                 && Step(cat, g, g.At(g.turn).id, act).Accepted?
  {
    match act.kind
    case PlayCardKind =>
      hide Attack, EndTurn, Inv;
      assert Playable(ViewFor(g, g.turn), cat, act.cardId) <==> PlayCard(cat, g, g.turn, act.cardId).Accepted?;
    case AttackKind =>
      AttackOffered(g, act.instId, act.target);
      hide Attack, PlayCard, EndTurn, Inv;
    case _ =>
      hide Attack, PlayCard, EndTurn, Inv;
  }

  /** Whatever the unused fields of an action hold, the rules accept it exactly when its plain form is offered. */
  lemma AcceptedIsOffered(cat: Catalog, g: Game, a: PlayerInit, b: PlayerInit, act: Action)
    requires Inv(g, a, b) && !g.over && a.id != b.id && (act.kind == PlayCardKind || act.kind == AttackKind)
    ensures Step(cat, g, g.At(g.turn).id, act).Accepted? <==> Offered(ViewFor(g, g.turn), cat, Stripped(act))
  {
    StepIgnoresUnusedFields(cat, g, g.At(g.turn).id, act);
    OfferedIsLegal(cat, g, a, b, Stripped(act));
    hide Step, Offered, Inv;
  }

  /** Whatever the random index, the bot's choice is accepted. */
  lemma ChoiceIsLegal(cat: Catalog, s: Setup, ms: seq<Move>, act: Action)
    requires cat.Sound() && s.Ready() && !Run(cat, s.Start(), ms).over
    requires var v := ViewFor(Run(cat, s.Start(), ms), Run(cat, s.Start(), ms).turn);
             Offered(v, cat, act) || act == END_TURN
    ensures var g := Run(cat, s.Start(), ms);
            Step(cat, g, g.At(g.turn).id, act).Accepted?
  {
    InvRun(cat, s, ms);
    OfferedIsLegal(cat, Run(cat, s.Start(), ms), s.a, s.b, act);
    hide PlayCard, Attack;
  }
}
